// The backend's configuration helpers: environment lookup with defaults and the
// hand-written comma-separated list parser. Duration and integer parsing of the
// loaded values are not part of this model.
module Config {
  import Text

  /** `os.Getenv` over a snapshot of the environment: an unset variable reads "". */
  function Getenv(env: map<string, string>, key: string): string
  {
    if key in env then env[key] else ""
  }

  /** A variable that is unset or empty falls back to the default. */
  function GetEnv(env: map<string, string>, key: string, default: string): (r: string)
    ensures Getenv(env, key) != "" ==> r == Getenv(env, key)
    ensures Getenv(env, key) == "" ==> r == default
  {
    var value := Getenv(env, key);
    if value != "" then value else default
  }

  // ------------------------------------------------------------ the parser

  function SkipSpaces(s: string): (r: string)
    ensures |r| <= |s|
    ensures r == [] || r[0] != ' '
  {
    if s != [] && s[0] == ' ' then SkipSpaces(s[1..]) else s
  }

  function UpToComma(s: string): (r: string)
    ensures |r| <= |s|
  {
    if s == [] || s[0] == ',' then [] else [s[0]] + UpToComma(s[1..])
  }

  lemma {:induction false} UpToCommaShape(s: string)
    ensures UpToComma(s) <= s && ',' !in UpToComma(s)
    ensures |UpToComma(s)| == |s| || s[|UpToComma(s)|] == ','
  {
    if s != [] && s[0] != ',' {
      UpToCommaShape(s[1..]);
    }
  }

  lemma {:induction false} SkipSpacesSuffix(s: string)
    ensures SkipSpaces(s) == s[|s| - |SkipSpaces(s)|..]
  {
    if s != [] && s[0] == ' ' {
      SkipSpacesSuffix(s[1..]);
      assert s[1..][|s| - 1 - |SkipSpaces(s)|..] == s[|s| - |SkipSpaces(s)|..];
    }
  }

  /** The entry that starts at the beginning of `v`, and what follows it. */
  function Entry(v: string): (e: string)
    ensures e == [] || e[0] != ' '
  {
    UpToComma(SkipSpaces(v))
  }

  function After(v: string): (r: string)
    ensures |r| <= |v|
    ensures r == [] || r[0] == ','
  {
    UpToCommaShape(SkipSpaces(v));
    SkipSpaces(v)[|Entry(v)|..]
  }

  /** The entries of a comma-separated value: leading spaces of an entry are
      skipped, trailing ones kept, and empty entries dropped. */
  function Fields(v: string): seq<string>
    decreases |v|
  {
    if v == [] then []
    else
      (if Entry(v) != [] then [Entry(v)] else [])
      + (if After(v) == [] then [] else Fields(After(v)[1..]))
  }

  predicate GoodEntry(e: string)
  {
    e != [] && e[0] != ' ' && ',' !in e
  }

  /** No entry is empty, contains a comma or starts with a space. */
  lemma {:induction false} FieldsEntriesShape(v: string)
    ensures forall k :: 0 <= k < |Fields(v)| ==> GoodEntry(Fields(v)[k])
    decreases |v|
  {
    if v != [] {
      FieldsFromParts(v, Entry(v), After(v));
      UpToCommaShape(SkipSpaces(v));
      if After(v) != [] {
        FieldsEntriesShape(After(v)[1..]);
      }
    }
  }

  lemma UpToCommaAll(s: string)
    requires ',' !in s
    ensures UpToComma(s) == s
  {
  }

  lemma {:induction false} UpToCommaPrefix(a: string, b: string)
    requires ',' !in a
    ensures UpToComma(a + b) == a + UpToComma(b)
    decreases |a|
  {
    if a == [] {
      assert a + b == b;
    } else {
      assert (a + b)[1..] == a[1..] + b;
      UpToCommaPrefix(a[1..], b);
    }
  }

  lemma {:induction false} SkipSpacesAppend(a: string, b: string)
    requires SkipSpaces(a) != []
    ensures SkipSpaces(a + b) == SkipSpaces(a) + b
    decreases |a|
  {
    if a[0] == ' ' {
      assert (a + b)[1..] == a[1..] + b;
      SkipSpacesAppend(a[1..], b);
    }
  }

  lemma {:induction false} SkipSpacesAllSpaces(a: string, b: string)
    requires SkipSpaces(a) == []
    ensures SkipSpaces(a + b) == SkipSpaces(b)
    decreases |a|
  {
    if a != [] {
      assert (a + b)[1..] == a[1..] + b;
      SkipSpacesAllSpaces(a[1..], b);
    } else {
      assert a + b == b;
    }
  }

  lemma FieldsFromParts(v: string, e: string, rest: string)
    requires v != [] && Entry(v) == e && After(v) == rest
    ensures Fields(v) == (if e != [] then [e] else []) + (if rest == [] then [] else Fields(rest[1..]))
  {
  }

  /** Joining after a value of only spaces: the spaces vanish with the comma. */
  lemma FieldsJoinBlank(a: string, c: string)
    requires SkipSpaces(a) == [] && c != [] && c[0] == ','
    ensures Fields(a + c) == Fields(a) + Fields(c[1..])
  {
    SkipSpacesAllSpaces(a, c);
    assert SkipSpaces(c) == c;
    assert UpToComma(c) == [];
    assert Entry(a + c) == [] && After(a + c) == c;
    FieldsFromParts(a + c, Entry(a + c), After(a + c));
    if a != [] {
      FieldsFromParts(a, Entry(a), After(a));
      assert Entry(a) == [] && After(a) == [];
    }
  }

  /** Where the first entry of `a` ends at a comma, appending `c` changes
      neither that entry nor anything before the comma. */
  lemma CutFacts(a: string, c: string)
    requires SkipSpaces(a) != [] && c != [] && c[0] == ','
    requires |UpToComma(SkipSpaces(a))| < |SkipSpaces(a)|
    ensures Entry(a + c) == Entry(a)
    ensures After(a) != [] && After(a + c) == After(a) + c
  {
    var sa := SkipSpaces(a);
    SkipSpacesAppend(a, c);
    UpToCommaCut(sa, c);
    var p := |UpToComma(sa)|;
    SliceAppend(sa, c, p);
  }

  lemma SliceAppend(s: string, c: string, p: nat)
    requires p <= |s|
    ensures (s + c)[p..] == s[p..] + c
  {
  }

  lemma UpToCommaCut(s: string, c: string)
    requires |UpToComma(s)| < |s|
    ensures UpToComma(s + c) == UpToComma(s)
  {
    var p := |UpToComma(s)|;
    var head := s[..p];
    UpToCommaShape(s);
    assert s == head + s[p..];
    assert s + c == head + (s[p..] + c);
    UpToCommaPrefix(head, s[p..] + c);
    UpToCommaPrefix(head, s[p..]);
  }

  /** Joining after a value whose first entry ends at a comma. */
  lemma FieldsJoinCut(a: string, c: string) returns (tail: string)
    requires SkipSpaces(a) != [] && c != [] && c[0] == ','
    requires |UpToComma(SkipSpaces(a))| < |SkipSpaces(a)|
    ensures |tail| < |a|
    ensures Fields(a + c) == (if Entry(a) != [] then [Entry(a)] else []) + Fields(tail + c)
    ensures Fields(a) == (if Entry(a) != [] then [Entry(a)] else []) + Fields(tail)
  {
    CutFacts(a, c);
    tail := After(a)[1..];
    assert After(a + c)[1..] == tail + c;
    FieldsFromParts(a + c, Entry(a + c), After(a + c));
    FieldsFromParts(a, Entry(a), After(a));
  }

  /** Where the first entry of `a` runs to its end, appending `c` ends it at
      the comma `c` starts with. */
  lemma WholeFacts(a: string, c: string)
    requires SkipSpaces(a) != [] && c != [] && c[0] == ','
    requires |UpToComma(SkipSpaces(a))| == |SkipSpaces(a)|
    ensures Entry(a) == SkipSpaces(a) && After(a) == []
    ensures Entry(a + c) == SkipSpaces(a) && After(a + c) == c
  {
    var sa := SkipSpaces(a);
    SkipSpacesAppend(a, c);
    UpToCommaShape(sa);
    assert UpToComma(sa) == sa;
    UpToCommaPrefix(sa, c);
    assert UpToComma(c) == [];
    assert sa + [] == sa;
    SliceAppend(sa, c, |sa|);
    assert sa[|sa|..] == [];
  }

  /** Joining after a value with a single entry and no comma. */
  lemma FieldsJoinWhole(a: string, c: string)
    requires SkipSpaces(a) != [] && c != [] && c[0] == ','
    requires |UpToComma(SkipSpaces(a))| == |SkipSpaces(a)|
    ensures Fields(a + c) == Fields(a) + Fields(c[1..])
  {
    WholeFacts(a, c);
    var e := SkipSpaces(a);
    FieldsFromParts(a + c, e, c);
    FieldsFromParts(a, e, []);
    assert [e] + [] == [e];
  }


  /** Joining after a value with anything that starts with a comma. */
  lemma {:induction false} FieldsJoinComma(a: string, c: string)
    requires c != [] && c[0] == ','
    ensures Fields(a + c) == Fields(a) + Fields(c[1..])
    decreases |a|
  {
    var sa := SkipSpaces(a);
    if sa == [] {
      FieldsJoinBlank(a, c);
    } else if |UpToComma(sa)| < |sa| {
      var tail := FieldsJoinCut(a, c);
      FieldsJoinComma(tail, c);
      var head := if Entry(a) != [] then [Entry(a)] else [];
      Regroup(head, Fields(tail), Fields(c[1..]), Fields(tail + c));
    } else {
      FieldsJoinWhole(a, c);
    }
  }

  /** Parsing two comma-joined values gives the entries of the first followed by
      those of the second: entries keep their input order, and leading, trailing
      or repeated commas contribute nothing. */
  lemma FieldsJoin(a: string, b: string)
    ensures Fields(a + "," + b) == Fields(a) + Fields(b)
  {
    var c := "," + b;
    assert a + "," + b == a + c;
    assert c[1..] == b;
    FieldsJoinComma(a, c);
  }

  /** An entry that is non-empty, has no comma and does not start with a space
      parses to itself. */
  lemma FieldsSingle(x: string)
    requires x != [] && x[0] != ' ' && ',' !in x
    ensures Fields(x) == [x]
  {
    UpToCommaAll(x);
    assert Entry(x) == x;
    assert After(x) == [];
  }

  /** Joining such entries with commas and parsing gives them back. */
  lemma FieldsOfJoin(xs: seq<string>)
    requires forall k :: 0 <= k < |xs| ==> xs[k] != [] && xs[k][0] != ' ' && ',' !in xs[k]
    ensures Fields(Text.Join(xs, ",")) == xs
  {
    if xs != [] {
      FieldsOfPieces(xs);
      CleanPieceEntries(xs);
    }
  }

  /** Pieces that are non-empty and start with no space are their own entries. */
  lemma {:induction false} CleanPieceEntries(xs: seq<string>)
    requires forall k :: 0 <= k < |xs| ==> xs[k] != [] && xs[k][0] != ' '
    ensures PieceEntries(xs) == xs
    decreases |xs|
  {
    if xs != [] {
      CleanPieceEntries(xs[1..]);
      assert xs == [xs[0]] + xs[1..];
    }
  }

  /** A comma-free piece parses to its text after the leading spaces, or to
      nothing when it is blank. */
  lemma FieldsPiece(p: string)
    requires ',' !in p
    ensures Fields(p) == if SkipSpaces(p) == [] then [] else [SkipSpaces(p)]
  {
    if p != [] {
      var sp := SkipSpaces(p);
      SkipSpacesNoComma(p);
      UpToCommaAll(sp);
      assert Entry(p) == sp;
      assert After(p) == [];
      FieldsFromParts(p, sp, []);
    }
  }

  lemma {:induction false} SkipSpacesNoComma(p: string)
    requires ',' !in p
    ensures ',' !in SkipSpaces(p)
  {
    if p != [] && p[0] == ' ' {
      assert forall k :: 0 <= k < |p[1..]| ==> p[1..][k] == p[k + 1];
      SkipSpacesNoComma(p[1..]);
    }
  }

  /** The entries the comma-separated pieces contribute, in order. */
  function PieceEntries(pieces: seq<string>): seq<string>
  {
    if pieces == [] then []
    else (if SkipSpaces(pieces[0]) == [] then [] else [SkipSpaces(pieces[0])]) + PieceEntries(pieces[1..])
  }

  /** Joining comma-free pieces with commas and parsing gives each piece's
      entry in turn. */
  lemma {:induction false} FieldsOfPieces(pieces: seq<string>)
    requires |pieces| > 0 && forall k :: 0 <= k < |pieces| ==> ',' !in pieces[k]
    ensures Fields(Text.Join(pieces, ",")) == PieceEntries(pieces)
    decreases |pieces|
  {
    FieldsPiece(pieces[0]);
    if |pieces| > 1 {
      FieldsJoin(pieces[0], Text.Join(pieces[1..], ","));
      FieldsOfPieces(pieces[1..]);
    }
  }

  /** The parser keeps, of every comma-separated piece of the value in order,
      the part after its leading spaces, and drops the blank pieces: each
      entry is a slice of the input. */
  lemma FieldsSplit(v: string)
    ensures Fields(v) == PieceEntries(Text.Split(v, ","))
  {
    var pieces := Text.Split(v, ",");
    Text.SplitJoinRoundTrip(v, ",");
    forall k | 0 <= k < |pieces|
      ensures ',' !in pieces[k]
    {
      Text.ContainsChar(pieces[k], ',');
    }
    FieldsOfPieces(pieces);
  }

  /** Trailing spaces stay part of an entry. */
  lemma TrailingSpacesKept()
    ensures Fields("a , b") == ["a ", "b"]
  {
    FieldsJoin("a ", " b");
    FieldsSingle("a ");
    assert SkipSpaces(" b") == "b";
    assert UpToComma("b") == "b";
    assert Entry(" b") == "b" && After(" b") == [];
    assert "a " + "," + " b" == "a , b";
  }

  lemma SkipStep(v: string, i: nat)
    requires i < |v| && v[i] == ' '
    ensures SkipSpaces(v[i..]) == SkipSpaces(v[i + 1..])
  {
    assert v[i..][1..] == v[i + 1..];
  }

  lemma CommaStep(v: string, start: nat, i: nat)
    requires start <= i < |v| && v[i] != ','
    requires UpToComma(v[start..]) == v[start..i] + UpToComma(v[i..])
    ensures UpToComma(v[start..]) == v[start..i + 1] + UpToComma(v[i + 1..])
  {
    assert v[i..][1..] == v[i + 1..];
    assert v[start..i + 1] == v[start..i] + [v[i]];
  }

  /** One pass of the parser's outer loop, from `i0` to just past the comma at
      `i` (or to the end), consumes exactly one step of `Fields`. */
  lemma ParseStep(v: string, i0: nat, start: nat, i: nat) returns (next: nat)
    requires i0 <= start <= i <= |v| && i0 < |v|
    requires SkipSpaces(v[i0..]) == v[start..]
    requires UpToComma(v[start..]) == v[start..i]
    requires i == |v| || v[i] == ','
    ensures next == (if i < |v| then i + 1 else i)
    ensures Fields(v[i0..]) == (if i > start then [v[start..i]] else []) + Fields(v[next..])
  {
    FieldsFromParts(v[i0..], Entry(v[i0..]), After(v[i0..]));
    assert Entry(v[i0..]) == v[start..i];
    assert After(v[i0..]) == v[i..];
    if i < |v| {
      assert v[i..][1..] == v[i + 1..];
      next := i + 1;
    } else {
      next := i;
    }
  }

  lemma Regroup(done: seq<string>, piece: seq<string>, rest: seq<string>, whole: seq<string>)
    requires whole == piece + rest
    ensures done + whole == (done + piece) + rest
  {
  }

  /** The parser's space-skipping loop: from `i0` to the first non-space. */
  method SkipSpacesFrom(value: string, i0: nat) returns (i: nat)
    requires i0 <= |value|
    ensures i0 <= i <= |value|
    ensures SkipSpaces(value[i0..]) == SkipSpaces(value[i..])
    ensures i == |value| || value[i] != ' '
  {
    i := i0;
    while i < |value| && value[i] == ' '
      invariant i0 <= i <= |value|
      invariant SkipSpaces(value[i0..]) == SkipSpaces(value[i..])
    {
      SkipStep(value, i);
      i := i + 1;
    }
  }

  /** The parser's scanning loop: from `start` to the next comma or the end. */
  method ScanToComma(value: string, start: nat) returns (i: nat)
    requires start <= |value|
    ensures start <= i <= |value|
    ensures UpToComma(value[start..]) == value[start..i]
    ensures i == |value| || value[i] == ','
  {
    i := start;
    assert value[start..start] == [];
    while i < |value| && value[i] != ','
      invariant start <= i <= |value|
      invariant UpToComma(value[start..]) == value[start..i] + UpToComma(value[i..])
    {
      CommaStep(value, start, i);
      i := i + 1;
    }
    assert UpToComma(value[i..]) == [];
    assert value[start..i] + [] == value[start..i];
  }

  /** Go's parser: skip spaces, scan to the next comma, keep a non-empty entry,
      step over the comma. The index grows on every pass of the outer loop. */
  method ParseCsv(value: string) returns (result: seq<string>)
    ensures result == Fields(value)
  {
    if value == "" {
      return [];
    }
    result := [];
    var i := 0;
    assert value[0..] == value;
    while i < |value|
      invariant 0 <= i <= |value|
      invariant result + Fields(value[i..]) == Fields(value)
      decreases |value| - i
    {
      var i0 := i;
      i := SkipSpacesFrom(value, i0);
      assert SkipSpaces(value[i..]) == value[i..];
      var start := i;
      i := ScanToComma(value, start);
      var piece := if i > start then [value[start..i]] else [];
      var next := if i < |value| then i + 1 else i;
      var step := ParseStep(value, i0, start, i);
      Regroup(result, piece, Fields(value[next..]), Fields(value[i0..]));
      result := result + piece;
      i := next;
    }
  }

  // ------------------------------------------------------- loaded values

  /** The string-valued settings and both parsed lists, as loaded from an
      environment snapshot. */
  datatype Settings = Settings(
    port: string,
    environment: string,
    dbHost: string,
    dbPort: string,
    dbUser: string,
    dbPassword: string,
    dbName: string,
    jwtSecret: string,
    accessExpiry: string,
    refreshExpiry: string,
    loginWindow: string,
    loginLimit: string,
    maxUploadSize: string,
    allowedOrigins: seq<string>,
    uploadFolder: string,
    allowedImageTypes: seq<string>)

  function LoadSettings(env: map<string, string>): Settings
  {
    Settings(
      GetEnv(env, "PORT", "8080"),
      GetEnv(env, "ENVIRONMENT", "development"),
      GetEnv(env, "DB_HOST", "localhost"),
      GetEnv(env, "DB_PORT", "3306"),
      GetEnv(env, "DB_USER", "root"),
      GetEnv(env, "DB_PASSWORD", ""),
      GetEnv(env, "DB_NAME", "portfolio_db"),
      GetEnv(env, "JWT_SECRET", "change_this_secret_key"),
      GetEnv(env, "JWT_ACCESS_EXPIRY", "30m"),
      GetEnv(env, "JWT_REFRESH_EXPIRY", "720h"),
      GetEnv(env, "LOGIN_RATE_WINDOW", "15m"),
      GetEnv(env, "LOGIN_RATE_LIMIT", "5"),
      GetEnv(env, "MAX_UPLOAD_SIZE", "2097152"),
      Fields(GetEnv(env, "ALLOWED_ORIGINS", "http://localhost:5173")),
      GetEnv(env, "CLOUDINARY_UPLOAD_FOLDER", "portfolio"),
      Fields(GetEnv(env, "ALLOWED_IMAGE_TYPES", "jpg,jpeg,png,webp,svg")))
  }

  /** With nothing set, the allowed image types are the five defaults. */
  lemma DefaultImageTypes()
    ensures LoadSettings(map[]).allowedImageTypes == ["jpg", "jpeg", "png", "webp", "svg"]
  {
    var types := ["jpg", "jpeg", "png", "webp", "svg"];
    assert Text.Join(types, ",") == "jpg,jpeg,png,webp,svg";
    FieldsOfJoin(types);
  }

  /** With nothing set, the only allowed origin is the local development server. */
  lemma DefaultOrigins()
    ensures LoadSettings(map[]).allowedOrigins == ["http://localhost:5173"]
  {
    FieldsSingle("http://localhost:5173");
  }
}
