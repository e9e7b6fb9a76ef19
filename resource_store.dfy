// The shape shared by the frontend's five CRUD stores (blogs, projects, skills,
// socials, experiences): a list, the item being viewed, a loading flag and an
// error text, updated by actions that call the API. Each action begins with the
// same entry update (`Begin`), awaits the server, and then applies the reply
// with the matching `...Done` method; the reply is a parameter.
module ResourceStore {
  import opened Wrappers
  import Seqs
  import Text
  import ApiClient

  /** A call's outcome: the `ApiResponse` envelope the server answered with, or
      the value the call threw. */
  datatype Reply<T> =
    | Responded(success: bool, message: Option<string>, data: Option<T>)
    | Threw(thrown: ApiClient.ErrorValue)

  /** `response.data.success && response.data.data`. */
  predicate Delivered<T>(reply: Reply<T>)
  {
    reply.Responded? && reply.success && reply.data.Some?
  }

  /** The value an action rethrows: the call's own error, or the `Error` built
      from the envelope's message with the action's fallback text. */
  function Thrown<T>(reply: Reply<T>, fallback: string): (e: ApiClient.ErrorValue)
    ensures reply.Threw? ==> e == reply.thrown
    ensures reply.Responded? ==> e.PlainError?
    ensures reply.Responded? && ApiClient.Truthy(reply.message) ==> e.message == reply.message.value
    ensures reply.Responded? && !ApiClient.Truthy(reply.message) ==> e.message == fallback
  {
    match reply
    case Threw(thrown) => thrown
    case Responded(_, message, _) =>
      ApiClient.PlainError(if ApiClient.Truthy(message) then message.value else fallback)
  }

  /** The error text an action records for a failed reply. */
  function FailureText<T>(reply: Reply<T>, fallback: string): (r: string)
    ensures reply.Threw? ==> r == ApiClient.GetErrorMessage(reply.thrown)
    ensures reply.Responded? && ApiClient.Truthy(reply.message) ==> r == reply.message.value
    ensures reply.Responded? && !ApiClient.Truthy(reply.message) ==> r == fallback
  {
    ApiClient.GetErrorMessage(Thrown(reply, fallback))
  }

  /** The list URL: the filter goes into the query string only when it is given
      and non-empty. */
  function ListUrl(path: string, key: string, filter: Option<string>): (url: string)
    ensures ApiClient.Truthy(filter) ==> url == path + "?" + key + "=" + filter.value
    ensures !ApiClient.Truthy(filter) ==> url == path
  {
    if ApiClient.Truthy(filter) then path + "?" + key + "=" + filter.value else path
  }

  /** `items.map(x => x.id === id ? e : x)`. */
  function Replaced<K(==), E>(items: seq<E>, idOf: E -> K, id: K, e: E): (r: seq<E>)
    ensures |r| == |items|
    ensures forall k :: 0 <= k < |items| && idOf(items[k]) == id ==> r[k] == e
    ensures forall k :: 0 <= k < |items| && idOf(items[k]) != id ==> r[k] == items[k]
  {
    if items == [] then []
    else [if idOf(items[0]) == id then e else items[0]] + Replaced(items[1..], idOf, id, e)
  }

  /** `items.filter(x => x.id !== id)`. */
  function Removed<K(==), E>(items: seq<E>, idOf: E -> K, id: K): (r: seq<E>)
    ensures forall k :: 0 <= k < |r| ==> idOf(r[k]) != id && r[k] in items
    ensures forall k :: 0 <= k < |items| && idOf(items[k]) != id ==> items[k] in r
  {
    Seqs.Filter(items, x => idOf(x) != id)
  }

  /** An update whose id is not in the list leaves the list as it was. */
  lemma {:induction false} ReplacedAbsent<K, E>(items: seq<E>, idOf: E -> K, id: K, e: E)
    requires forall k :: 0 <= k < |items| ==> idOf(items[k]) != id
    ensures Replaced(items, idOf, id, e) == items
    decreases |items|
  {
    if items != [] {
      ReplacedAbsent(items[1..], idOf, id, e);
    }
  }

  /** Deleting the id of an entry just prepended by a create gives back the
      list from before the create, when that id was new. */
  lemma CreateThenDelete<K, E>(items: seq<E>, idOf: E -> K, e: E)
    requires forall k :: 0 <= k < |items| ==> idOf(items[k]) != idOf(e)
    ensures Removed([e] + items, idOf, idOf(e)) == items
  {
    var p := x => idOf(x) != idOf(e);
    Seqs.FilterAppend([e], items, p);
    Seqs.FilterAll(items, p);
  }

  /** Deleting the same id twice changes nothing the second time. */
  lemma DeleteTwice<K, E>(items: seq<E>, idOf: E -> K, id: K)
    ensures Removed(Removed(items, idOf, id), idOf, id) == Removed(items, idOf, id)
  {
    var once := Removed(items, idOf, id);
    Seqs.FilterAll(once, x => idOf(x) != id);
  }

  /** The item shown after an update: replaced only when its id matches. */
  function UpdatedCurrent<K(==), E>(current: Option<E>, idOf: E -> K, id: K, e: E): (r: Option<E>)
    ensures r.Some? <==> current.Some?
    ensures current.Some? && idOf(current.value) == id ==> r == Some(e)
    ensures !(current.Some? && idOf(current.value) == id) ==> r == current
  {
    if current.Some? && idOf(current.value) == id then Some(e) else current
  }

  /** The item shown after a delete: cleared exactly when its id matches. */
  function DeletedCurrent<K(==), E>(current: Option<E>, idOf: E -> K, id: K): (r: Option<E>)
    ensures r.None? <==> current.None? || idOf(current.value) == id
    ensures r.Some? ==> r == current
  {
    if current.Some? && idOf(current.value) == id then None else current
  }

  class Store<K(==), E> {
    const idOf: E -> K
    const singular: string
    const plural: string
    var items: seq<E>
    var current: Option<E>
    var loading: bool
    var error: Option<string>

    constructor (idOf: E -> K, singular: string, plural: string)
      ensures this.idOf == idOf && this.singular == singular && this.plural == plural
      ensures items == [] && current == None && !loading && error == None
    {
      this.idOf := idOf;
      this.singular := singular;
      this.plural := plural;
      items := [];
      current := None;
      loading := false;
      error := None;
    }

    /** The entry update every action begins with. */
    method Begin()
      modifies this
      ensures loading && error == None
      ensures items == old(items) && current == old(current)
    {
      loading := true;
      error := None;
    }

    /** Records a failure: the list and the current item are kept. */
    method Fail<T>(reply: Reply<T>, fallback: string) returns (thrown: ApiClient.ErrorValue)
      modifies this
      ensures thrown == Thrown(reply, fallback)
      ensures !loading && error == Some(FailureText(reply, fallback))
      ensures items == old(items) && current == old(current)
    {
      thrown := Thrown(reply, fallback);
      loading := false;
      error := Some(ApiClient.GetErrorMessage(thrown));
    }

    /** The list fetch: a delivered list replaces the old one wholesale. */
    method ListDone(reply: Reply<seq<E>>) returns (thrown: Option<ApiClient.ErrorValue>)
      modifies this
      ensures !loading && current == old(current)
      ensures Delivered(reply) ==> items == reply.data.value && error == old(error) && thrown.None?
      ensures !Delivered(reply) ==>
        var fallback := "Failed to fetch " + plural;
        items == old(items) && thrown == Some(Thrown(reply, fallback))
        && error == Some(FailureText(reply, fallback))
    {
      if Delivered(reply) {
        items := reply.data.value;
        loading := false;
        return None;
      }
      var e := Fail(reply, "Failed to fetch " + plural);
      return Some(e);
    }

    /** Fetching one item by id sets only the current item. */
    method OneDone(reply: Reply<E>) returns (thrown: Option<ApiClient.ErrorValue>)
      modifies this
      ensures !loading && items == old(items)
      ensures Delivered(reply) ==> current == reply.data && error == old(error) && thrown.None?
      ensures !Delivered(reply) ==>
        var fallback := "Failed to fetch " + singular;
        current == old(current) && thrown == Some(Thrown(reply, fallback))
        && error == Some(FailureText(reply, fallback))
    {
      if Delivered(reply) {
        current := reply.data;
        loading := false;
        return None;
      }
      var e := Fail(reply, "Failed to fetch " + singular);
      return Some(e);
    }

    /** The blog store's fetch by slug: the whole list is fetched and the first
        entry with that slug becomes the current item; the list is never stored.
        A delivered list without a match fails with "Blog not found". */
    method BySlugDone(slug: string, slugOf: E -> string, reply: Reply<seq<E>>)
      returns (thrown: Option<ApiClient.ErrorValue>)
      modifies this
      ensures !loading && items == old(items)
      ensures Delivered(reply) && Seqs.Find(reply.data.value, x => slugOf(x) == slug).Some? ==>
        current == Seqs.Find(reply.data.value, x => slugOf(x) == slug)
        && error == old(error) && thrown.None?
      ensures Delivered(reply) && Seqs.Find(reply.data.value, x => slugOf(x) == slug).None? ==>
        current == old(current) && thrown == Some(ApiClient.PlainError("Blog not found"))
        && error == Some("Blog not found")
      ensures !Delivered(reply) ==>
        var fallback := "Failed to fetch " + singular;
        current == old(current) && thrown == Some(Thrown(reply, fallback))
        && error == Some(FailureText(reply, fallback))
    {
      if Delivered(reply) {
        var found := Seqs.Find(reply.data.value, x => slugOf(x) == slug);
        if found.Some? {
          current := found;
          loading := false;
          return None;
        }
        var notFound: Reply<E> := Responded(false, Some("Blog not found"), None);
        var e := Fail(notFound, "");
        return Some(e);
      }
      var e := Fail(reply, "Failed to fetch " + singular);
      return Some(e);
    }

    /** A created item is put in front of the list and returned; the current item
        is not touched. */
    method CreatedDone(reply: Reply<E>) returns (r: Result<E, ApiClient.ErrorValue>)
      modifies this
      ensures !loading && current == old(current)
      ensures Delivered(reply) ==>
        items == [reply.data.value] + old(items) && r == Ok(reply.data.value) && error == old(error)
      ensures !Delivered(reply) ==>
        var fallback := "Failed to create " + singular;
        items == old(items) && r == Err(Thrown(reply, fallback))
        && error == Some(FailureText(reply, fallback))
    {
      if Delivered(reply) {
        var e := reply.data.value;
        items := [e] + items;
        loading := false;
        return Ok(e);
      }
      var e := Fail(reply, "Failed to create " + singular);
      return Err(e);
    }

    /** An updated item replaces every entry with the requested id, and the
        current item when its id matches. */
    method UpdatedDone(id: K, reply: Reply<E>) returns (r: Result<E, ApiClient.ErrorValue>)
      modifies this
      ensures !loading
      ensures Delivered(reply) ==>
        var e := reply.data.value;
        items == Replaced(old(items), idOf, id, e)
        && current == UpdatedCurrent(old(current), idOf, id, e)
        && r == Ok(e) && error == old(error)
      ensures !Delivered(reply) ==>
        var fallback := "Failed to update " + singular;
        items == old(items) && current == old(current) && r == Err(Thrown(reply, fallback))
        && error == Some(FailureText(reply, fallback))
    {
      if Delivered(reply) {
        var e := reply.data.value;
        items := Replaced(items, idOf, id, e);
        current := UpdatedCurrent(current, idOf, id, e);
        loading := false;
        return Ok(e);
      }
      var e := Fail(reply, "Failed to update " + singular);
      return Err(e);
    }

    /** A delete needs only `success`: every entry with the id goes, and the
        current item is cleared when its id matches. */
    method DeletedDone<T>(id: K, reply: Reply<T>) returns (thrown: Option<ApiClient.ErrorValue>)
      modifies this
      ensures !loading
      ensures reply.Responded? && reply.success ==>
        items == Removed(old(items), idOf, id) && current == DeletedCurrent(old(current), idOf, id)
        && error == old(error) && thrown.None?
      ensures !(reply.Responded? && reply.success) ==>
        var fallback := "Failed to delete " + singular;
        items == old(items) && current == old(current) && thrown == Some(Thrown(reply, fallback))
        && error == Some(FailureText(reply, fallback))
    {
      if reply.Responded? && reply.success {
        items := Removed(items, idOf, id);
        current := DeletedCurrent(current, idOf, id);
        loading := false;
        return None;
      }
      var e := Fail(reply, "Failed to delete " + singular);
      return Some(e);
    }

    method ClearError()
      modifies this
      ensures error == None
      ensures items == old(items) && current == old(current) && loading == old(loading)
    {
      error := None;
    }

    method ClearCurrent()
      modifies this
      ensures current == None
      ensures items == old(items) && error == old(error) && loading == old(loading)
    {
      current := None;
    }
  }
}
