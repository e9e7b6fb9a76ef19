// The project list and project editor of the admin dashboard: the search over
// name, description and tags, the editor's form (with its tag chips), its
// defaults for a new project and its required fields.
module ProjectsManager {
  import opened Wrappers
  import Seqs
  import Text
  import Entities
  import EntryList
  import AdminManager
  import AdminPage

  /** `project.tags.some(tag => …)`. */
  predicate SomeTagMentions(tags: seq<string>, query: string)
  {
    exists k :: 0 <= k < |tags| && AdminManager.Mentions(tags[k], query)
  }

  predicate ProjectMatches(p: Entities.Project, query: string)
  {
    AdminManager.Mentions(p.name, query) || AdminManager.Mentions(p.desc, query)
    || SomeTagMentions(p.tags, query)
  }

  function FilteredProjects(projects: seq<Entities.Project>, query: string): seq<Entities.Project>
  {
    Seqs.Filter(projects, p => ProjectMatches(p, query))
  }

  /** A project is listed exactly when its name, its description or one of its
      tags contains the query. */
  lemma FilteredProjectsExact(projects: seq<Entities.Project>, query: string, p: Entities.Project)
    ensures p in FilteredProjects(projects, query) <==>
      p in projects
      && (AdminManager.Mentions(p.name, query) || AdminManager.Mentions(p.desc, query)
          || exists k :: 0 <= k < |p.tags| && AdminManager.Mentions(p.tags[k], query))
  {
    AdminManager.FilterExact(projects, p => ProjectMatches(p, query), p);
  }

  lemma FilteredProjectsAppend(a: seq<Entities.Project>, b: seq<Entities.Project>, query: string)
    ensures FilteredProjects(a + b, query) == FilteredProjects(a, query) + FilteredProjects(b, query)
  {
    Seqs.FilterAppend(a, b, p => ProjectMatches(p, query));
  }

  lemma EmptyQueryKeepsAllProjects(projects: seq<Entities.Project>)
    ensures FilteredProjects(projects, "") == projects
  {
    forall k | 0 <= k < |projects| ensures ProjectMatches(projects[k], "") {
      AdminManager.EmptyQueryMentioned(projects[k].name);
    }
    Seqs.FilterAll(projects, p => ProjectMatches(p, ""));
  }

  /** The text fields of the form that `handleChange` writes. */
  datatype Field = Name | Desc | Date | Category | Link | Image

  function Get(p: Entities.Project, f: Field): string
  {
    match f
    case Name => p.name
    case Desc => p.desc
    case Date => p.date
    case Category => p.category
    case Link => p.link
    case Image => p.image
  }

  /** `{ ...formData, [field]: value }`. */
  function Put(p: Entities.Project, f: Field, value: string): (r: Entities.Project)
    ensures Get(r, f) == value
    ensures forall g :: g != f ==> Get(r, g) == Get(p, g)
    ensures r.id == p.id && r.tags == p.tags
  {
    match f
    case Name => p.(name := value)
    case Desc => p.(desc := value)
    case Date => p.(date := value)
    case Category => p.(category := value)
    case Link => p.(link := value)
    case Image => p.(image := value)
  }

  /** Writing a field with the value it already has changes nothing. */
  lemma PutGet(p: Entities.Project, f: Field)
    ensures Put(p, f, Get(p, f)) == p
  {
  }

  /** The form of a new project: clock id, today's date, category "web", no tags. */
  function NewProject(now: int, today: string): Entities.Project
  {
    Entities.Project(now, "", today, "", [], "", "", "web")
  }

  class ProjectEditor {
    var formData: Entities.Project
    var tagInput: string

    /** The form starts from the edited project, or from `NewProject`; `now` is
        `Date.now()` and `today` the ISO date part of the current time. */
    constructor (project: Option<Entities.Project>, now: int, today: string)
      ensures formData == (if project.Some? then project.value else NewProject(now, today))
      ensures tagInput == ""
    {
      formData := if project.Some? then project.value else NewProject(now, today);
      tagInput := "";
    }

    method HandleChange(f: Field, value: string)
      modifies this
      ensures formData == Put(old(formData), f, value) && tagInput == old(tagInput)
    {
      formData := Put(formData, f, value);
    }

    method SetTagInput(value: string)
      modifies this
      ensures tagInput == value && formData == old(formData)
    {
      tagInput := value;
    }

    /** Adds the trimmed input as a tag, and clears the input, only when it is
        non-empty and not yet a tag. */
    method AddTag()
      modifies this
      ensures formData == old(formData).(tags := EntryList.Added(old(formData.tags), old(tagInput)))
      ensures tagInput == if EntryList.Accepts(old(formData.tags), old(tagInput)) then "" else old(tagInput)
    {
      var tag := Text.Trim(tagInput);
      if tag != "" && tag !in formData.tags {
        formData := formData.(tags := formData.tags + [tag]);
        tagInput := "";
      }
    }

    method RemoveTag(tag: string)
      modifies this
      ensures formData == old(formData).(tags := EntryList.Removed(old(formData.tags), tag))
      ensures tagInput == old(tagInput)
    {
      formData := formData.(tags := EntryList.Removed(formData.tags, tag));
    }

    /** The project handed to `onSave`, or None (an alert) when the name or the
        description is empty. */
    method HandleSubmit() returns (saved: Option<Entities.Project>)
      ensures saved.Some? <==> formData.name != "" && formData.desc != ""
      ensures saved.Some? ==> saved.value == formData
    {
      if formData.name == "" || formData.desc == "" {
        return None;
      }
      return Some(formData);
    }
  }

  /** Opening a project in the editor, adding a new tag and submitting hands
      the tagged project to the page and returns the manager to its list. */
  method EditAndTag(p: Entities.Project, tag: string)
    returns (forwarded: Option<Entities.Project>, backToList: bool)
    requires p.name != "" && p.desc != ""
    requires tag != "" && !Text.IsSpace(tag[0]) && !Text.IsSpace(tag[|tag| - 1]) && tag !in p.tags
    ensures forwarded == Some(p.(tags := p.tags + [tag]))
    ensures backToList
  {
    assert Text.Trim(tag) == tag by {
      Text.TrimPadded("", tag, "");
      assert "" + tag + "" == tag;
    }
    assert EntryList.Accepts(p.tags, tag);
    var manager := new AdminManager.Manager<int, Entities.Project>();
    manager.HandleEdit(p);
    var editor := new ProjectEditor(manager.editing, 0, "");
    editor.SetTagInput(tag);
    editor.AddTag();
    var saved := editor.HandleSubmit();
    var sent := manager.HandleSave(saved.value);
    forwarded := Some(sent);
    backToList := !manager.isEditing;
  }

  /** Editing a listed project, adding a tag and saving replaces that project on
      the page in its slot and returns the manager to its list. */
  method TagAndSave(p: Entities.Project, tag: string)
    returns (listed: seq<Entities.Project>, backToList: bool)
    requires p.name != "" && p.desc != ""
    requires tag != "" && !Text.IsSpace(tag[0]) && !Text.IsSpace(tag[|tag| - 1]) && tag !in p.tags
    ensures listed == [p.(tags := p.tags + [tag])]
    ensures backToList
  {
    var page := new AdminPage.Page([]);
    page.projects.Save(p);
    assert AdminPage.SlotOf([], Entities.ProjectId, p.id) == -1;
    var forwarded;
    forwarded, backToList := EditAndTag(p, tag);
    assert AdminPage.SlotOf([p], Entities.ProjectId, forwarded.value.id) == 0;
    page.projects.Save(forwarded.value);
    listed := page.projects.items;
  }
}
