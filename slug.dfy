// The backend's slug grammar (`^[a-z0-9]+(?:-[a-z0-9]+)*$`, registered as the
// `slug` validation tag) and the blog editor's slug normalisation of its input
// field (lower-case, every whitespace run replaced by one '-').
module Slug {
  import Text

  predicate SlugChar(c: char)
  {
    'a' <= c <= 'z' || '0' <= c <= '9'
  }

  /** The two-state automaton of the regular expression: `needChar` holds at the
      start and right after a '-', where one more `[a-z0-9]` is required. */
  predicate Accepts(s: string, needChar: bool)
    decreases |s|
  {
    if s == [] then !needChar
    else if SlugChar(s[0]) then Accepts(s[1..], false)
    else if s[0] == '-' && !needChar then Accepts(s[1..], true)
    else false
  }

  predicate ValidSlug(s: string)
  {
    Accepts(s, true)
  }

  predicate InAlphabet(s: string)
  {
    forall i :: 0 <= i < |s| ==> SlugChar(s[i]) || s[i] == '-'
  }

  predicate NoDoubleDash(s: string)
  {
    forall i :: 0 <= i < |s| - 1 ==> !(s[i] == '-' && s[i + 1] == '-')
  }

  /** The shape a slug has, stated without the automaton. */
  predicate SlugShape(s: string)
  {
    |s| > 0 && InAlphabet(s) && s[0] != '-' && s[|s| - 1] != '-' && NoDoubleDash(s)
  }

  lemma {:induction false} AcceptsShape(s: string, needChar: bool)
    ensures Accepts(s, needChar) <==>
      (if s == [] then !needChar
       else InAlphabet(s) && (needChar ==> s[0] != '-') && s[|s| - 1] != '-' && NoDoubleDash(s))
    decreases |s|
  {
    if s != [] {
      var t := s[1..];
      AcceptsShape(t, s[0] == '-');
      if t != [] {
        assert InAlphabet(s) <==> (SlugChar(s[0]) || s[0] == '-') && InAlphabet(t) by {
          if (SlugChar(s[0]) || s[0] == '-') && InAlphabet(t) {
            forall i | 0 <= i < |s| ensures SlugChar(s[i]) || s[i] == '-' {
              if i > 0 { assert s[i] == t[i - 1]; }
            }
          }
          if InAlphabet(s) {
            forall i | 0 <= i < |t| ensures SlugChar(t[i]) || t[i] == '-' {
              assert t[i] == s[i + 1];
            }
          }
        }
        assert NoDoubleDash(s) <==> !(s[0] == '-' && t[0] == '-') && NoDoubleDash(t) by {
          if !(s[0] == '-' && t[0] == '-') && NoDoubleDash(t) {
            forall i | 0 <= i < |s| - 1 ensures !(s[i] == '-' && s[i + 1] == '-') {
              if i > 0 { assert s[i] == t[i - 1] && s[i + 1] == t[i]; }
            }
          }
          if NoDoubleDash(s) {
            forall i | 0 <= i < |t| - 1 ensures !(t[i] == '-' && t[i + 1] == '-') {
              assert t[i] == s[i + 1] && t[i + 1] == s[i + 2];
            }
          }
        }
        assert s[|s| - 1] == t[|t| - 1];
      }
    }
  }

  /** A string matches the slug expression exactly when it is non-empty, uses only
      `a-z`, `0-9` and '-', neither starts nor ends with '-' and has no "--". */
  lemma ValidSlugIff(s: string)
    ensures ValidSlug(s) <==> SlugShape(s)
  {
    AcceptsShape(s, true);
  }

  lemma {:induction false} AcceptsAppend(a: string, b: string, needChar: bool)
    requires Accepts(a, needChar)
    ensures Accepts(a + b, needChar) == Accepts(b, false)
    decreases |a|
  {
    if a != [] {
      assert (a + b)[0] == a[0] && (a + b)[1..] == a[1..] + b;
      AcceptsAppend(a[1..], b, if SlugChar(a[0]) then false else true);
    } else {
      assert a + b == b;
    }
  }

  /** Two valid slugs joined by one '-' form a valid slug. */
  lemma JoinValid(a: string, b: string)
    requires ValidSlug(a) && ValidSlug(b)
    ensures ValidSlug(a + "-" + b)
  {
    var tail := "-" + b;
    AcceptsAppend(a, tail, true);
    assert tail[0] == '-' && tail[1..] == b;
    assert Accepts(tail, false) == Accepts(b, true);
    assert a + "-" + b == a + tail;
  }

  // ------------------------------------------------------ editor side

  /** `value.replace(/\s+/g, '-')`: each maximal whitespace run becomes one '-'. */
  function DashSpaceRuns(s: string): string
    decreases |s|
  {
    if s == [] then []
    else if Text.IsSpace(s[0]) then "-" + DashSpaceRuns(Text.TrimStart(s))
    else [s[0]] + DashSpaceRuns(s[1..])
  }

  /** The slug field's change handler: lower-case first, then the run replacement. */
  function Normalize(s: string): string
  {
    DashSpaceRuns(Text.Lower(s))
  }

  predicate NoUpper(s: string)
  {
    forall i :: 0 <= i < |s| ==> !('A' <= s[i] <= 'Z')
  }

  lemma NoUpperSuffix(s: string, k: nat)
    requires NoUpper(s) && k <= |s|
    ensures NoUpper(s[k..])
  {
    assert forall i :: 0 <= i < |s| - k ==> s[k..][i] == s[k + i];
  }

  lemma ShapeCons(c: char, r: string)
    requires !Text.IsSpace(c) && !('A' <= c <= 'Z')
    requires Text.NoSpace(r) && NoUpper(r)
    ensures Text.NoSpace([c] + r) && NoUpper([c] + r)
  {
    assert forall i :: 0 < i < |r| + 1 ==> ([c] + r)[i] == r[i - 1];
  }

  lemma {:induction false} DashSpaceRunsShape(s: string)
    requires NoUpper(s)
    ensures Text.NoSpace(DashSpaceRuns(s)) && NoUpper(DashSpaceRuns(s))
    decreases |s|
  {
    if s != [] {
      if Text.IsSpace(s[0]) {
        var t := Text.TrimStart(s);
        NoUpperSuffix(s, |s| - |t|);
        DashSpaceRunsShape(t);
        ShapeCons('-', DashSpaceRuns(t));
      } else {
        NoUpperSuffix(s, 1);
        DashSpaceRunsShape(s[1..]);
        ShapeCons(s[0], DashSpaceRuns(s[1..]));
      }
    }
  }

  lemma {:induction false} DashSpaceRunsIdentity(s: string)
    requires Text.NoSpace(s)
    ensures DashSpaceRuns(s) == s
    decreases |s|
  {
    if s != [] {
      DashSpaceRunsIdentity(s[1..]);
    }
  }

  lemma LowerIdentity(s: string)
    requires NoUpper(s)
    ensures Text.Lower(s) == s
  {
  }

  /** A normalised slug contains no whitespace and no upper-case letter. */
  lemma NormalizeNoSpace(s: string)
    ensures Text.NoSpace(Normalize(s)) && NoUpper(Normalize(s))
  {
    DashSpaceRunsShape(Text.Lower(s));
  }

  /** Normalising twice gives the same slug as normalising once. */
  lemma NormalizeIdempotent(s: string)
    ensures Normalize(Normalize(s)) == Normalize(s)
  {
    var n := Normalize(s);
    NormalizeNoSpace(s);
    LowerIdentity(n);
    DashSpaceRunsIdentity(n);
  }

  /** The normalisation does not establish the backend grammar: "a!" is left as it
      is and is still refused. */
  lemma NormalizeDoesNotValidate()
    ensures Normalize("a!") == "a!" && !ValidSlug("a!")
  {
    assert Text.Lower("a!") == "a!";
    assert DashSpaceRuns("!") == "!";
    assert DashSpaceRuns("a!") == "a" + DashSpaceRuns("!");
  }
}
