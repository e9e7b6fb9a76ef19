// String helpers shared by the frontend (JavaScript string semantics) and the
// backend (Go string semantics). Case mapping is modelled on ASCII letters only.
module Text {

  // ---------------------------------------------------------------- case

  function LowerChar(c: char): char
  {
    if 'A' <= c <= 'Z' then (c as int + 32) as char else c
  }

  /** `toLowerCase()` / `strings.ToLower`, restricted to ASCII letters. */
  function Lower(s: string): (r: string)
    ensures |r| == |s|
    ensures forall i :: 0 <= i < |s| ==> r[i] == LowerChar(s[i])
  {
    if s == [] then [] else [LowerChar(s[0])] + Lower(s[1..])
  }

  lemma {:induction false} LowerAppend(a: string, b: string)
    ensures Lower(a + b) == Lower(a) + Lower(b)
    decreases |a|
  {
    if a == [] {
      assert a + b == b;
    } else {
      assert (a + b)[0] == a[0] && (a + b)[1..] == a[1..] + b;
      LowerAppend(a[1..], b);
      assert [LowerChar(a[0])] + (Lower(a[1..]) + Lower(b)) == ([LowerChar(a[0])] + Lower(a[1..])) + Lower(b);
    }
  }

  lemma LowerIdempotent(s: string)
    ensures Lower(Lower(s)) == Lower(s)
  {
  }

  // ---------------------------------------------------------- whitespace

  /** The characters matched by `\s` in a JavaScript regular expression; the same
      set is removed by `String.prototype.trim`. */
  predicate IsSpace(c: char)
  {
    c == ' ' || c == '\t' || c == '\n' || c == '\r' || c == '\U{000B}' || c == '\U{000C}'
    || c == '\U{00A0}' || c == '\U{1680}' || ('\U{2000}' <= c <= '\U{200A}')
    || c == '\U{2028}' || c == '\U{2029}' || c == '\U{202F}' || c == '\U{205F}'
    || c == '\U{3000}' || c == '\U{FEFF}'
  }

  predicate NoSpace(s: string)
  {
    forall i :: 0 <= i < |s| ==> !IsSpace(s[i])
  }

  predicate AllSpace(s: string)
  {
    forall i :: 0 <= i < |s| ==> IsSpace(s[i])
  }

  function TrimStart(s: string): (r: string)
    ensures |r| <= |s| && r == s[|s| - |r|..]
    ensures r == [] || !IsSpace(r[0])
    ensures AllSpace(s[..|s| - |r|])
  {
    if s != [] && IsSpace(s[0]) then TrimStart(s[1..]) else s
  }

  function TrimEnd(s: string): (r: string)
    ensures |r| <= |s| && r == s[..|r|]
    ensures r == [] || !IsSpace(r[|r| - 1])
    ensures AllSpace(s[|r|..])
  {
    if s != [] && IsSpace(s[|s| - 1]) then TrimEnd(s[..|s| - 1]) else s
  }

  /** `String.prototype.trim`: the result is a slice of the input with only
      whitespace cut off on either side (at the offset where the leading
      whitespace ends), and it neither starts nor ends with whitespace. */
  function Trim(s: string): (r: string)
    ensures CutFrom(s, r, |s| - |TrimStart(s)|)
    ensures r == [] || (!IsSpace(r[0]) && !IsSpace(r[|r| - 1]))
  {
    CutTwice(s, TrimStart(s), TrimEnd(TrimStart(s)));
    TrimEnd(TrimStart(s))
  }

  /** `r` is the slice of `s` at offset `i`, and all that lies before and after
      it is whitespace. */
  predicate CutFrom(s: string, r: string, i: int)
  {
    0 <= i && i + |r| <= |s| && r == s[i..i + |r|] && AllSpace(s[..i]) && AllSpace(s[i + |r|..])
  }

  /** Cutting whitespace off the front of `s` (leaving `t`) and then off the
      back of `t` (leaving `r`) cuts only whitespace off a slice of `s`. */
  lemma CutTwice(s: string, t: string, r: string)
    requires |t| <= |s| && t == s[|s| - |t|..] && AllSpace(s[..|s| - |t|])
    requires |r| <= |t| && r == t[..|r|] && AllSpace(t[|r|..])
    ensures CutFrom(s, r, |s| - |t|)
  {
    SuffixSlices(s, |s| - |t|, |r|);
  }

  /** Slicing a suffix is slicing the whole at shifted bounds. */
  lemma SuffixSlices(s: string, i: nat, n: nat)
    requires i + n <= |s|
    ensures s[i..][..n] == s[i..i + n]
    ensures s[i..][n..] == s[i + n..]
  {
  }

  /** The whitespace around a core that neither starts nor ends with
      whitespace is exactly what `trim` removes. */
  lemma TrimPadded(pre: string, core: string, post: string)
    requires AllSpace(pre) && AllSpace(post)
    requires core == [] || (!IsSpace(core[0]) && !IsSpace(core[|core| - 1]))
    ensures Trim(pre + core + post) == core
  {
    if core == [] {
      assert pre + core + post == pre + post;
      AllSpaceTrimStart(pre + post);
    } else {
      assert pre + core + post == pre + (core + post);
      TrimStartPadded(pre, core + post);
      TrimEndAfter(core, post);
    }
  }

  lemma {:induction false} TrimStartPadded(pre: string, rest: string)
    requires AllSpace(pre)
    requires rest != [] && !IsSpace(rest[0])
    ensures TrimStart(pre + rest) == rest
    decreases |pre|
  {
    if pre == [] {
      assert pre + rest == rest;
    } else {
      var s := pre + rest;
      assert s[0] == pre[0] && IsSpace(pre[0]);
      assert s[1..] == pre[1..] + rest;
      assert AllSpace(pre[1..]) by {
        forall k | 0 <= k < |pre[1..]| ensures IsSpace(pre[1..][k]) {
          assert pre[1..][k] == pre[k + 1];
        }
      }
      TrimStartPadded(pre[1..], rest);
    }
  }

  lemma {:induction false} TrimEndAfter(core: string, post: string)
    requires AllSpace(post)
    requires core != [] && !IsSpace(core[|core| - 1])
    ensures TrimEnd(core + post) == core
    decreases |post|
  {
    if post == [] {
      assert core + post == core;
    } else {
      var init := post[..|post| - 1];
      assert (core + post)[..|core + post| - 1] == core + init;
      TrimEndAfter(core, init);
    }
  }

  lemma {:induction false} AllSpaceTrimEnd(s: string)
    requires AllSpace(s)
    ensures TrimEnd(s) == []
    decreases |s|
  {
    if s != [] {
      AllSpaceTrimEnd(s[..|s| - 1]);
    }
  }

  lemma {:induction false} AllSpaceTrimStart(s: string)
    requires AllSpace(s)
    ensures TrimStart(s) == []
    decreases |s|
  {
    if s != [] {
      AllSpaceTrimStart(s[1..]);
    }
  }

  // ------------------------------------------------------------ searching

  /** `haystack.includes(needle)` / `haystack.startsWith(prefix)` for strings. */
  predicate Contains(haystack: string, needle: string)
    decreases |haystack|
  {
    needle <= haystack || (haystack != [] && Contains(haystack[1..], needle))
  }

  lemma {:induction false} ContainsAt(haystack: string, needle: string, k: nat)
    requires k + |needle| <= |haystack| && haystack[k..k + |needle|] == needle
    ensures Contains(haystack, needle)
    decreases k
  {
    if k == 0 {
      assert needle <= haystack;
    } else {
      assert haystack[1..][k - 1..k - 1 + |needle|] == needle;
      ContainsAt(haystack[1..], needle, k - 1);
    }
  }

  /** A string that has a character contains the one-character string. */
  lemma ContainsChar(s: string, c: char)
    ensures c in s ==> Contains(s, [c])
  {
    if c in s {
      var k :| 0 <= k < |s| && s[k] == c;
      assert s[k..k + 1] == [c];
      ContainsAt(s, [c], k);
    }
  }

  lemma EmptyContained(haystack: string)
    ensures Contains(haystack, "")
  {
  }

  lemma {:induction false} ContainsSuffix(a: string, b: string, needle: string)
    requires Contains(b, needle)
    ensures Contains(a + b, needle)
    decreases |a|
  {
    if a != [] {
      assert (a + b)[1..] == a[1..] + b;
      ContainsSuffix(a[1..], b, needle);
    } else {
      assert a + b == b;
    }
  }

  // --------------------------------------------------------------- digits

  function DigitChar(d: nat): char
    requires d < 10
  {
    "0123456789"[d]
  }

  function DigitValue(c: char): nat
  {
    if '0' <= c <= '9' then c as int - '0' as int else 0
  }

  predicate IsDigit(c: char) { '0' <= c <= '9' }

  /** Decimal rendering of a natural number, as JavaScript's template literals
      and Go's integer formatting produce it. */
  function NatToString(n: nat): (r: string)
    ensures |r| > 0
    ensures forall i :: 0 <= i < |r| ==> IsDigit(r[i])
    decreases n
  {
    if n < 10 then [DigitChar(n)] else NatToString(n / 10) + [DigitChar(n % 10)]
  }

  /** The value of a string of decimal digits. */
  function DecimalValue(s: string): nat
    decreases |s|
  {
    if s == [] then 0 else DecimalValue(s[..|s| - 1]) * 10 + DigitValue(s[|s| - 1])
  }

  lemma {:induction false} DecimalRoundTrip(n: nat)
    ensures DecimalValue(NatToString(n)) == n
    decreases n
  {
    if n >= 10 {
      var s := NatToString(n);
      assert s[..|s| - 1] == NatToString(n / 10);
      DecimalRoundTrip(n / 10);
    }
  }

  lemma NatToStringInjective(m: nat, n: nat)
    requires NatToString(m) == NatToString(n)
    ensures m == n
  {
    DecimalRoundTrip(m);
    DecimalRoundTrip(n);
  }

  function IntToString(i: int): (r: string)
    ensures |r| > 0
    ensures r[0] == '-' <==> i < 0
  {
    if i < 0 then "-" + NatToString(-i) else NatToString(i)
  }

  // ----------------------------------------------------- joining, splitting

  /** `parts.join(sep)`. */
  function Join(parts: seq<string>, sep: string): string
  {
    if parts == [] then ""
    else if |parts| == 1 then parts[0]
    else parts[0] + sep + Join(parts[1..], sep)
  }

  /** `s.split(sep)` for a non-empty literal separator: the leftmost occurrences of
      `sep` are cut out one after the other, without overlaps. */
  function Split(s: string, sep: string): (parts: seq<string>)
    requires |sep| > 0
    ensures |parts| > 0
    ensures parts[0] <= s
    ensures forall k :: 0 <= k < |parts[0]| ==> !(sep <= s[k..])
    ensures forall k :: 0 <= k < |parts| ==> !Contains(parts[k], sep)
    decreases |s|
  {
    if sep <= s then [""] + Split(s[|sep|..], sep)
    else if s == [] then [""]
    else
      var rest := Split(s[1..], sep);
      NoEarlierOccurrence(s, sep, |rest[0]|);
      [[s[0]] + rest[0]] + rest[1..]
  }

  /** If `sep` starts neither at the front of `s` nor in the first `n`
      positions of its tail, it starts nowhere in the first `n + 1`. */
  lemma NoEarlierOccurrence(s: string, sep: string, n: nat)
    requires s != [] && !(sep <= s) && n < |s|
    requires forall j :: 0 <= j < n ==> !(sep <= s[1..][j..])
    ensures forall k :: 0 <= k < n + 1 ==> !(sep <= s[k..])
  {
    forall k | 0 < k < n + 1
      ensures !(sep <= s[k..])
    {
      assert s[k..] == s[1..][k - 1..];
    }
  }

  /** A string splits into one piece exactly when it does not contain the
      separator. */
  lemma SplitOnePiece(s: string, sep: string)
    requires |sep| > 0
    ensures |Split(s, sep)| == 1 <==> !Contains(s, sep)
  {
    SplitJoinRoundTrip(s, sep);
    if !Contains(s, sep) {
      SplitWithoutSeparator(s, sep);
    }
  }

  /** A string that splits into two pieces is the first piece, the separator
      and the second piece. */
  lemma SplitTwoPieces(s: string, sep: string)
    requires |sep| > 0 && |Split(s, sep)| == 2
    ensures s == Split(s, sep)[0] + sep + Split(s, sep)[1]
  {
    var parts := Split(s, sep);
    SplitJoinRoundTrip(s, sep);
    assert parts[1..] == [parts[1]];
  }

  /** A string with two separate occurrences of the separator splits into at
      least three pieces. */
  lemma SplitTwoOccurrences(x: string, y: string, z: string, sep: string)
    requires |sep| > 0
    ensures |Split(x + sep + y + sep + z, sep)| >= 3
  {
    var s := x + sep + y + sep + z;
    var i := |x|;
    var j := |x| + |sep| + |y|;
    assert s[i..i + |sep|] == sep;
    assert s[j..j + |sep|] == sep;
    var parts := Split(s, sep);
    SplitJoinRoundTrip(s, sep);
    if |parts| == 1 {
      assert parts[0] == s;
      OccurrenceAt(s, sep, i);
    } else if |parts| == 2 {
      assert parts[1..] == [parts[1]];
      if i >= |parts[0]| {
        LaterOccurrenceInTail(s, sep, parts[0], parts[1], i, j);
      }
    }
  }

  lemma OccurrenceAt(s: string, sep: string, i: nat)
    requires i + |sep| <= |s| && s[i..i + |sep|] == sep
    ensures sep <= s[i..]
  {
  }

  /** An occurrence no earlier than the separator after `p0` leaves another
      separate occurrence inside `p1`. */
  lemma LaterOccurrenceInTail(s: string, sep: string, p0: string, p1: string, i: nat, j: nat)
    requires s == p0 + sep + p1
    requires |p0| <= i && i + |sep| <= j && j + |sep| <= |s|
    requires s[j..j + |sep|] == sep
    ensures Contains(p1, sep)
  {
    var off := j - |p0| - |sep|;
    assert p1[off..off + |sep|] == s[j..j + |sep|];
    ContainsAt(p1, sep, off);
  }

  /** A string without the separator splits into itself alone. */
  lemma {:induction false} SplitWithoutSeparator(s: string, sep: string)
    requires |sep| > 0 && !Contains(s, sep)
    ensures Split(s, sep) == [s]
    decreases |s|
  {
    if s != [] {
      SplitWithoutSeparator(s[1..], sep);
      assert [s[0]] + s[1..] == s;
    }
  }

  lemma JoinExtendHead(c: char, parts: seq<string>, sep: string)
    requires |parts| > 0
    ensures Join([[c] + parts[0]] + parts[1..], sep) == [c] + Join(parts, sep)
  {
    var q := [[c] + parts[0]] + parts[1..];
    assert q[1..] == parts[1..];
    if |parts| > 1 {
      assert Join(q, sep) == ([c] + parts[0]) + sep + Join(parts[1..], sep);
    }
  }

  lemma JoinEmptyHead(parts: seq<string>, sep: string)
    requires |parts| > 0
    ensures Join([""] + parts, sep) == sep + Join(parts, sep)
  {
    assert ([""] + parts)[1..] == parts;
  }

  lemma {:induction false} SplitJoinRoundTrip(s: string, sep: string)
    requires |sep| > 0
    ensures Join(Split(s, sep), sep) == s
    decreases |s|
  {
    if sep <= s {
      var tail := Split(s[|sep|..], sep);
      SplitJoinRoundTrip(s[|sep|..], sep);
      JoinEmptyHead(tail, sep);
      assert s == sep + s[|sep|..];
    } else if s != [] {
      SplitJoinRoundTrip(s[1..], sep);
      JoinExtendHead(s[0], Split(s[1..], sep), sep);
      assert s == [s[0]] + s[1..];
    }
  }

  /** The longest prefix of `s` without whitespace. */
  function TakeWord(s: string): (w: string)
    ensures w <= s && NoSpace(w)
    ensures |w| == |s| || IsSpace(s[|w|])
  {
    if s == [] || IsSpace(s[0]) then [] else [s[0]] + TakeWord(s[1..])
  }

  /** A run of non-whitespace followed by whitespace or the end of the string
      is the word taken from the front. */
  lemma {:induction false} TakeWordBefore(w: string, rest: string)
    requires NoSpace(w) && (rest == [] || IsSpace(rest[0]))
    ensures TakeWord(w + rest) == w
    decreases |w|
  {
    if w == [] {
      assert w + rest == rest;
    } else {
      assert (w + rest)[0] == w[0] && (w + rest)[1..] == w[1..] + rest;
      assert NoSpace(w[1..]) by {
        forall k | 0 <= k < |w[1..]| ensures !IsSpace(w[1..][k]) {
          assert w[1..][k] == w[k + 1];
        }
      }
      TakeWordBefore(w[1..], rest);
    }
  }

  /** Splitting after a leading word peels that word off. */
  lemma SplitSpaceRunsStep(w: string, rest: string)
    requires NoSpace(w) && (rest == [] || IsSpace(rest[0]))
    ensures SplitSpaceRuns(w + rest) == [w] + (if rest == [] then [] else SplitSpaceRuns(TrimStart(rest)))
  {
    TakeWordBefore(w, rest);
    assert (w + rest)[|w|..] == rest;
  }

  /** `s.split(/\s+/)`: every maximal run of whitespace separates two pieces, so
      only the first and the last piece can be empty. */
  function SplitSpaceRuns(s: string): (parts: seq<string>)
    ensures |parts| > 0
    ensures forall k :: 0 <= k < |parts| ==> NoSpace(parts[k])
    decreases |s|
  {
    var w := TakeWord(s);
    var r := s[|w|..];
    if r == [] then [w] else [w] + SplitSpaceRuns(TrimStart(r))
  }

  /** Only the first and the last piece can be empty: the first is empty
      exactly when the string is empty or starts with whitespace. */
  lemma {:induction false} SplitSpaceRunsInner(s: string)
    ensures SplitSpaceRuns(s)[0] == [] <==> s == [] || IsSpace(s[0])
    ensures forall k :: 0 < k < |SplitSpaceRuns(s)| - 1 ==> SplitSpaceRuns(s)[k] != []
    decreases |s|
  {
    var w := TakeWord(s);
    var r := s[|w|..];
    if r != [] {
      var t := TrimStart(r);
      SplitSpaceRunsInner(t);
      if t == [] {
        assert SplitSpaceRuns(t) == [[]];
      }
    }
  }

  /** Non-empty pieces without whitespace. */
  predicate Words(ws: seq<string>)
  {
    forall k :: 0 <= k < |ws| ==> ws[k] != [] && NoSpace(ws[k])
  }

  lemma WordsTail(ws: seq<string>)
    requires |ws| > 0 && Words(ws)
    ensures Words(ws[1..])
  {
    forall k | 0 <= k < |ws| - 1
      ensures ws[1..][k] != [] && NoSpace(ws[1..][k])
    {
      assert ws[1..][k] == ws[k + 1];
    }
  }

  /** Words joined by a whitespace separator, followed by optional trailing
      whitespace, split back into the words, and trailing whitespace adds one
      empty piece at the end. */
  lemma {:induction false} SplitSpaceRunsOfWords(ws: seq<string>, sep: string, post: string)
    requires |ws| > 0 && Words(ws)
    requires sep != [] && AllSpace(sep) && AllSpace(post)
    ensures SplitSpaceRuns(Join(ws, sep) + post) == ws + (if post == [] then [] else [[]])
    decreases |ws|
  {
    var extra: seq<string> := if post == [] then [] else [[]];
    if |ws| == 1 {
      assert Join(ws, sep) + post == ws[0] + post;
      SplitSpaceRunsLastWord(ws[0], post);
      assert ws == [ws[0]];
    } else {
      var tail := Join(ws[1..], sep) + post;
      WordsTail(ws);
      JoinedWordsStart(ws[1..], sep, post);
      assert Join(ws, sep) + post == ws[0] + (sep + tail);
      SplitSpaceRunsSeparated(ws[0], sep, tail);
      SplitSpaceRunsOfWords(ws[1..], sep, post);
      ConsTail(ws, extra);
    }
  }

  /** A last word, with trailing whitespace or none. */
  lemma SplitSpaceRunsLastWord(w: string, post: string)
    requires NoSpace(w) && AllSpace(post)
    ensures SplitSpaceRuns(w + post) == [w] + (if post == [] then [] else [[]])
  {
    if post == [] {
      SplitSpaceRunsStep(w, post);
    } else {
      SplitSpaceRunsStep(w, post);
      AllSpaceTrimStart(post);
      assert SplitSpaceRuns([]) == [[]];
    }
  }

  /** A word, a whitespace separator and a string that starts with a word. */
  lemma SplitSpaceRunsSeparated(w: string, sep: string, tail: string)
    requires NoSpace(w) && sep != [] && AllSpace(sep)
    requires tail != [] && !IsSpace(tail[0])
    ensures SplitSpaceRuns(w + (sep + tail)) == [w] + SplitSpaceRuns(tail)
  {
    SplitSpaceRunsStep(w, sep + tail);
    TrimStartPadded(sep, tail);
  }

  /** Joined words, with anything after them, start with a non-space. */
  lemma JoinedWordsStart(ws: seq<string>, sep: string, post: string)
    requires |ws| > 0 && Words(ws)
    ensures Join(ws, sep) + post != [] && !IsSpace((Join(ws, sep) + post)[0])
  {
    JoinStartsWithFirst(ws, sep);
    assert (Join(ws, sep) + post)[0] == ws[0][0];
  }

  lemma AssocThree<T>(a: seq<T>, b: seq<T>, c: seq<T>)
    ensures a + (b + c) == a + b + c
  {
  }

  lemma ConsTail<T>(s: seq<T>, e: seq<T>)
    requires |s| > 0
    ensures [s[0]] + (s[1..] + e) == s + e
  {
    assert s == [s[0]] + s[1..];
  }

  /** Leading whitespace adds one empty piece at the front. */
  lemma SplitSpaceRunsPadded(pre: string, ws: seq<string>, sep: string, post: string)
    requires |ws| > 0 && Words(ws)
    requires sep != [] && AllSpace(sep) && AllSpace(pre) && AllSpace(post)
    ensures SplitSpaceRuns(pre + Join(ws, sep) + post)
      == (if pre == [] then [] else [[]]) + ws + (if post == [] then [] else [[]])
  {
    var x := Join(ws, sep) + post;
    var extra: seq<string> := if post == [] then [] else [[]];
    SplitSpaceRunsOfWords(ws, sep, post);
    AssocThree(pre, Join(ws, sep), post);
    if pre == [] {
      assert pre + x == x;
    } else {
      JoinedWordsStart(ws, sep, post);
      SplitSpaceRunsLeading(pre, x);
      AssocThree([[]], ws, extra);
    }
  }

  /** Whitespace alone splits into one empty piece, or two when there is any. */
  lemma SplitSpaceRunsBlank(s: string)
    requires AllSpace(s)
    ensures SplitSpaceRuns(s) == if s == [] then [[]] else [[], []]
  {
    if s != [] {
      assert IsSpace(s[0]);
      assert TakeWord(s) == [];
      assert s[0..] == s;
      AllSpaceTrimStart(s);
      assert SplitSpaceRuns(s) == [[]] + SplitSpaceRuns(TrimStart(s));
      assert SplitSpaceRuns([]) == [[]];
    }
  }

  /** Leading whitespace before a word gives an empty first piece. */
  lemma SplitSpaceRunsLeading(pre: string, x: string)
    requires pre != [] && AllSpace(pre)
    requires x != [] && !IsSpace(x[0])
    ensures SplitSpaceRuns(pre + x) == [[]] + SplitSpaceRuns(x)
  {
    var s := pre + x;
    assert s[0] == pre[0];
    assert TakeWord(s) == [];
    assert s[0..] == s;
    TrimStartPadded(pre, x);
  }

  lemma {:induction false} JoinStartsWithFirst(ws: seq<string>, sep: string)
    requires |ws| > 0
    ensures ws[0] <= Join(ws, sep)
    decreases |ws|
  {
  }

  /** The non-empty parts, in their order. */
  function NonEmpty(parts: seq<string>): (r: seq<string>)
    ensures |r| <= |parts|
    ensures forall k :: 0 <= k < |r| ==> r[k] != [] && r[k] in parts
    ensures forall k :: 0 <= k < |parts| && parts[k] != [] ==> parts[k] in r
  {
    if parts == [] then []
    else if parts[0] == [] then NonEmpty(parts[1..])
    else [parts[0]] + NonEmpty(parts[1..])
  }

  /** Dropping the empty parts of two sequences one after the other keeps the
      order of what remains. */
  lemma {:induction false} NonEmptyAppend(a: seq<string>, b: seq<string>)
    ensures NonEmpty(a + b) == NonEmpty(a) + NonEmpty(b)
    decreases |a|
  {
    if a == [] {
      assert a + b == b;
    } else {
      assert (a + b)[0] == a[0] && (a + b)[1..] == a[1..] + b;
      NonEmptyAppend(a[1..], b);
    }
  }

  /** Parts that are all non-empty are kept as they are. */
  lemma {:induction false} NonEmptyAll(parts: seq<string>)
    requires forall k :: 0 <= k < |parts| ==> parts[k] != []
    ensures NonEmpty(parts) == parts
    decreases |parts|
  {
    if parts != [] {
      NonEmptyAll(parts[1..]);
    }
  }
}
