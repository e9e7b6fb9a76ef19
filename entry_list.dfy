// The chip lists of the project and experience editors (a project's tags, an
// experience's technologies): an entry is added from a text input after
// trimming, only when it is non-empty and not yet listed, and removing an entry
// drops every copy of it.
module EntryList {
  import Text
  import Seqs

  /** No entry is listed twice and none is empty. */
  predicate Clean(entries: seq<string>)
  {
    && (forall i, j :: 0 <= i < j < |entries| ==> entries[i] != entries[j])
    && (forall i :: 0 <= i < |entries| ==> entries[i] != "")
  }

  /** Whether the add button takes the input. */
  predicate Accepts(entries: seq<string>, input: string)
  {
    Text.Trim(input) != "" && Text.Trim(input) !in entries
  }

  /** The list after pressing add. */
  function Added(entries: seq<string>, input: string): (r: seq<string>)
    ensures entries <= r && |r| <= |entries| + 1
    ensures |r| == |entries| + 1 <==> Accepts(entries, input)
    ensures forall x :: x in r <==> x in entries || (Accepts(entries, input) && x == Text.Trim(input))
  {
    if Accepts(entries, input) then entries + [Text.Trim(input)] else entries
  }

  /** The list after removing `x`. */
  function Removed(entries: seq<string>, x: string): (r: seq<string>)
    ensures |r| <= |entries|
    ensures x !in r
    ensures forall y :: y in entries && y != x ==> y in r
    ensures forall y :: y in r ==> y in entries
  {
    var p := (y: string) => y != x;
    var r := Seqs.Filter(entries, p);
    assert forall y :: y in entries && p(y) ==> y in r by {
      forall y | y in entries && p(y) ensures y in r {
        var k :| 0 <= k < |entries| && entries[k] == y;
      }
    }
    r
  }

  lemma AddedKeepsClean(entries: seq<string>, input: string)
    requires Clean(entries)
    ensures Clean(Added(entries, input))
  {
    if Accepts(entries, input) {
      var r := entries + [Text.Trim(input)];
      forall i, j | 0 <= i < j < |r| ensures r[i] != r[j] {
        assert r[i] == entries[i];
        if j == |entries| {
          assert entries[i] in entries;
        } else {
          assert r[j] == entries[j];
        }
      }
      forall i | 0 <= i < |r| ensures r[i] != "" {
        if i < |entries| {
          assert r[i] == entries[i];
        }
      }
    }
  }

  /** Pressing add twice with the same input adds it once. */
  lemma AddedTwice(entries: seq<string>, input: string)
    ensures Added(Added(entries, input), input) == Added(entries, input)
  {
    if Accepts(entries, input) {
      assert Text.Trim(input) in Added(entries, input);
    }
  }

  lemma {:induction false} FilterKeepsClean(entries: seq<string>, p: string -> bool)
    requires Clean(entries)
    ensures Clean(Seqs.Filter(entries, p))
    decreases |entries|
  {
    if entries != [] {
      var rest := entries[1..];
      assert Clean(rest) by {
        forall i, j | 0 <= i < j < |rest| ensures rest[i] != rest[j] {
          assert rest[i] == entries[i + 1] && rest[j] == entries[j + 1];
        }
      }
      FilterKeepsClean(rest, p);
      assert entries[0] !in rest by {
        forall k | 0 <= k < |rest| ensures rest[k] != entries[0] {
          assert rest[k] == entries[k + 1];
        }
      }
    }
  }

  lemma RemovedKeepsClean(entries: seq<string>, x: string)
    requires Clean(entries)
    ensures Clean(Removed(entries, x))
  {
    FilterKeepsClean(entries, (y: string) => y != x);
  }

  /** Adding an entry and removing it again gives back the list. */
  lemma AddedThenRemoved(entries: seq<string>, input: string)
    requires Accepts(entries, input)
    ensures Removed(Added(entries, input), Text.Trim(input)) == entries
  {
    var t := Text.Trim(input);
    var p := (y: string) => y != t;
    Seqs.FilterAppend(entries, [t], p);
    assert Seqs.Filter([t], p) == [];
    assert forall k :: 0 <= k < |entries| ==> p(entries[k]);
    Seqs.FilterAll(entries, p);
  }
}
