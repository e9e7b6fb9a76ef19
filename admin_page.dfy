// The admin page's local data: a list per kind of record, saved by "upsert"
// (replace the first entry with the same id in a copy of the list, or append)
// and deleted by filtering, plus the sign-in flag.
module AdminPage {
  import Seqs
  import Blocks
  import Entities
  import ResourceStore

  /** The index the save handlers overwrite: the first entry with the same id. */
  function SlotOf<K(==), E>(items: seq<E>, idOf: E -> K, id: K): (i: int)
    ensures -1 <= i < |items|
    ensures i >= 0 ==> idOf(items[i]) == id
    ensures forall k :: 0 <= k < |items| && (i == -1 || k < i) ==> idOf(items[k]) != id
  {
    Seqs.FindIndex(items, x => idOf(x) == id)
  }

  /** The list a save handler stores. */
  function Upsert<K(==), E>(items: seq<E>, idOf: E -> K, e: E): (r: seq<E>)
    ensures SlotOf(items, idOf, idOf(e)) >= 0 ==>
      var i := SlotOf(items, idOf, idOf(e));
      |r| == |items| && r[i] == e && (forall k :: 0 <= k < |items| && k != i ==> r[k] == items[k])
    ensures SlotOf(items, idOf, idOf(e)) == -1 ==> r == items + [e]
  {
    var i := SlotOf(items, idOf, idOf(e));
    if i >= 0 then items[i := e] else items + [e]
  }

  /** Saving the same record twice stores the same list as saving it once. */
  lemma UpsertIdempotent<K, E>(items: seq<E>, idOf: E -> K, e: E)
    ensures Upsert(Upsert(items, idOf, e), idOf, e) == Upsert(items, idOf, e)
  {
    var once := Upsert(items, idOf, e);
    var i := SlotOf(items, idOf, idOf(e));
    if i >= 0 {
      assert forall k :: 0 <= k < i ==> once[k] == items[k];
      assert SlotOf(once, idOf, idOf(e)) == i;
    } else {
      assert once[|items|] == e;
      assert forall k :: 0 <= k < |items| ==> once[k] == items[k];
      assert SlotOf(once, idOf, idOf(e)) == |items|;
    }
  }

  /** Saving a record with a new id and then deleting that id restores the list. */
  lemma SaveNewThenDelete<K, E>(items: seq<E>, idOf: E -> K, e: E)
    requires forall k :: 0 <= k < |items| ==> idOf(items[k]) != idOf(e)
    ensures ResourceStore.Removed(Upsert(items, idOf, e), idOf, idOf(e)) == items
  {
    var p := x => idOf(x) != idOf(e);
    assert Upsert(items, idOf, e) == items + [e];
    Seqs.FilterAppend(items, [e], p);
    Seqs.FilterAll(items, p);
  }

  /** One of the page's lists, with its save and delete handlers. */
  class Collection<K(==), E> {
    const idOf: E -> K
    var items: seq<E>

    constructor (idOf: E -> K, items: seq<E>)
      ensures this.idOf == idOf && this.items == items
    {
      this.idOf := idOf;
      this.items := items;
    }

    /** Overwrites the slot of an existing id in a copy of the list, or
        appends. */
    method Save(e: E)
      modifies this
      ensures items == Upsert(old(items), idOf, e)
    {
      var i := SlotOf(items, idOf, idOf(e));
      if i >= 0 {
        var current := items;
        var copy := new E[|current|](k requires 0 <= k < |current| => current[k]);
        copy[i] := e;
        items := copy[..];
        assert items == current[i := e];
      } else {
        items := items + [e];
      }
    }

    /** Removes every entry with the id and keeps the others in order. */
    method Delete(id: K)
      modifies this
      ensures items == ResourceStore.Removed(old(items), idOf, id)
    {
      items := ResourceStore.Removed(items, idOf, id);
    }
  }

  class Page {
    const blogs: Collection<string, Blocks.BlogPost>
    const projects: Collection<int, Entities.Project>
    const skills: Collection<string, Entities.Skill>
    const socials: Collection<string, Entities.Social>
    const experiences: Collection<string, Entities.Experience>
    var isAuthenticated: bool

    /** The blog list starts from the bundled sample posts; the others empty. */
    constructor (samplePosts: seq<Blocks.BlogPost>)
      ensures fresh(blogs) && fresh(projects) && fresh(skills) && fresh(socials) && fresh(experiences)
      ensures blogs.items == samplePosts && blogs.idOf == Blocks.BlogId
      ensures projects.items == [] && projects.idOf == Entities.ProjectId
      ensures skills.items == [] && skills.idOf == Entities.SkillId
      ensures socials.items == [] && socials.idOf == Entities.SocialId
      ensures experiences.items == [] && experiences.idOf == Entities.ExperienceId
      ensures !isAuthenticated
    {
      blogs := new Collection(Blocks.BlogId, samplePosts);
      projects := new Collection(Entities.ProjectId, []);
      skills := new Collection(Entities.SkillId, []);
      socials := new Collection(Entities.SocialId, []);
      experiences := new Collection(Entities.ExperienceId, []);
      isAuthenticated := false;
    }

    /** Sign-in is simulated: any email and password are accepted. */
    method HandleLogin(email: string, password: string)
      modifies this
      ensures isAuthenticated
    {
      isAuthenticated := true;
    }

    method HandleLogout()
      modifies this
      ensures !isAuthenticated
    {
      isAuthenticated := false;
    }
  }

  /** Editing a project that is already listed keeps the list's length and
      order, with the new version in the old one's place. */
  method EditProjectInPlace(a: Entities.Project, b: Entities.Project, b2: Entities.Project)
    returns (listed: seq<Entities.Project>)
    requires a.id != b.id && b2.id == b.id
    ensures listed == [a, b2]
  {
    var page := new Page([]);
    page.projects.Save(a);
    assert SlotOf([a], Entities.ProjectId, b.id) == -1;
    page.projects.Save(b);
    assert SlotOf([a, b], Entities.ProjectId, b2.id) == 1 by {
      var s := [a, b];
      assert Entities.ProjectId(s[0]) != b2.id && Entities.ProjectId(s[1]) == b2.id;
    }
    page.projects.Save(b2);
    listed := page.projects.items;
  }
}
