// The list view every admin manager (blogs, projects, skills, socials,
// experiences) shares: whether the editor is open and which record it edits,
// and how save, cancel and a confirmed delete leave that state.
module AdminManager {
  import opened Wrappers
  import Text
  import Seqs

  class Manager<K, E> {
    var isEditing: bool
    var editing: Option<E>

    constructor ()
      ensures !isEditing && editing.None?
    {
      isEditing := false;
      editing := None;
    }

    /** Opens the editor on an existing record. */
    method HandleEdit(e: E)
      modifies this
      ensures isEditing && editing == Some(e)
    {
      editing := Some(e);
      isEditing := true;
    }

    /** Opens the editor on a new record. */
    method HandleCreate()
      modifies this
      ensures isEditing && editing.None?
    {
      editing := None;
      isEditing := true;
    }

    /** Hands the record to the page's `onSave` and returns to the list. */
    method HandleSave(e: E) returns (forwarded: E)
      modifies this
      ensures forwarded == e
      ensures !isEditing && editing.None?
    {
      forwarded := e;
      isEditing := false;
      editing := None;
    }

    /** Returns to the list; nothing is forwarded. */
    method HandleCancel()
      modifies this
      ensures !isEditing && editing.None?
    {
      isEditing := false;
      editing := None;
    }

    /** The id handed to `onDelete`: only when the confirmation dialog said yes. */
    method HandleDelete(id: K, confirmed: bool) returns (deleted: Option<K>)
      ensures deleted.Some? <==> confirmed
      ensures deleted.Some? ==> deleted.value == id
    {
      if confirmed {
        return Some(id);
      }
      return None;
    }
  }

  /** `field.toLowerCase().includes(query.toLowerCase())`. */
  predicate Mentions(field: string, query: string)
  {
    Text.Contains(Text.Lower(field), Text.Lower(query))
  }

  /** Every field mentions the empty query. */
  lemma EmptyQueryMentioned(field: string)
    ensures Mentions(field, "")
  {
    Text.EmptyContained(Text.Lower(field));
  }

  /** Lower-casing the query first changes nothing: the search ignores case. */
  lemma MentionsIgnoresQueryCase(field: string, query: string)
    ensures Mentions(field, Text.Lower(query)) == Mentions(field, query)
  {
    Text.LowerIdempotent(query);
  }

  /** A record is listed exactly when it is in the list and matches. */
  lemma FilterExact<T>(s: seq<T>, p: T -> bool, x: T)
    ensures x in Seqs.Filter(s, p) <==> x in s && p(x)
  {
    if x in s && p(x) {
      var k :| 0 <= k < |s| && s[k] == x;
    }
    if x in Seqs.Filter(s, p) {
      var r := Seqs.Filter(s, p);
      var k :| 0 <= k < |r| && r[k] == x;
    }
  }
}
