// The five frontend stores as instances of the shared store shape: the blog
// store keyed by string ids (with its extra fetch by slug), the project store
// keyed by numeric ids, and the skill, social and experience stores by string
// ids. The list URLs of the project, skill and social stores take an optional
// filter; the blog and experience lists take none.
module Stores {
  import opened Wrappers
  import opened ResourceStore
  import Blocks
  import Entities
  import Seqs
  import ApiClient

  function BlogSlug(b: Blocks.BlogPost): string { b.slug }

  method NewBlogStore() returns (s: Store<string, Blocks.BlogPost>)
    ensures fresh(s) && s.idOf == Blocks.BlogId && s.singular == "blog" && s.plural == "blogs"
    ensures s.items == [] && s.current.None? && !s.loading && s.error.None?
  {
    s := new Store(Blocks.BlogId, "blog", "blogs");
  }

  method NewProjectStore() returns (s: Store<int, Entities.Project>)
    ensures fresh(s) && s.idOf == Entities.ProjectId && s.singular == "project" && s.plural == "projects"
    ensures s.items == [] && s.current.None? && !s.loading && s.error.None?
  {
    s := new Store(Entities.ProjectId, "project", "projects");
  }

  method NewSkillStore() returns (s: Store<string, Entities.Skill>)
    ensures fresh(s) && s.idOf == Entities.SkillId && s.singular == "skill" && s.plural == "skills"
    ensures s.items == [] && s.current.None? && !s.loading && s.error.None?
  {
    s := new Store(Entities.SkillId, "skill", "skills");
  }

  method NewSocialStore() returns (s: Store<string, Entities.Social>)
    ensures fresh(s) && s.idOf == Entities.SocialId && s.singular == "social" && s.plural == "socials"
    ensures s.items == [] && s.current.None? && !s.loading && s.error.None?
  {
    s := new Store(Entities.SocialId, "social", "socials");
  }

  method NewExperienceStore() returns (s: Store<string, Entities.Experience>)
    ensures fresh(s) && s.idOf == Entities.ExperienceId
    ensures s.singular == "experience" && s.plural == "experiences"
    ensures s.items == [] && s.current.None? && !s.loading && s.error.None?
  {
    s := new Store(Entities.ExperienceId, "experience", "experiences");
  }

  /** The list URLs: only projects and skills (by category) and socials (by
      platform) can be filtered. */
  function BlogsUrl(): string { "/api/blogs" }
  function ExperiencesUrl(): string { "/api/experiences" }

  /** `category ? \`/api/projects?category=${category}\` : '/api/projects'`. */
  function ProjectsUrl(category: Option<string>): (url: string)
    ensures ApiClient.Truthy(category) ==> url == "/api/projects?category=" + category.value
    ensures !ApiClient.Truthy(category) ==> url == "/api/projects"
  {
    ListUrl("/api/projects", "category", category)
  }

  /** `category ? \`/api/skills?category=${category}\` : '/api/skills'`. */
  function SkillsUrl(category: Option<string>): (url: string)
    ensures ApiClient.Truthy(category) ==> url == "/api/skills?category=" + category.value
    ensures !ApiClient.Truthy(category) ==> url == "/api/skills"
  {
    ListUrl("/api/skills", "category", category)
  }

  /** `platform ? \`/api/socials?platform=${platform}\` : '/api/socials'`. */
  function SocialsUrl(platform: Option<string>): (url: string)
    ensures ApiClient.Truthy(platform) ==> url == "/api/socials?platform=" + platform.value
    ensures !ApiClient.Truthy(platform) ==> url == "/api/socials"
  {
    ListUrl("/api/socials", "platform", platform)
  }

  /** Different filters ask for different project lists: the filter can be
      read back from the URL. */
  lemma ProjectsUrlInjective(a: Option<string>, b: Option<string>)
    requires ProjectsUrl(a) == ProjectsUrl(b)
    ensures ApiClient.Truthy(a) <==> ApiClient.Truthy(b)
    ensures ApiClient.Truthy(a) ==> a.value == b.value
  {
    var prefix := "/api/projects?category=";
    if ApiClient.Truthy(a) && ApiClient.Truthy(b) {
      assert a.value == ProjectsUrl(a)[|prefix|..];
      assert b.value == ProjectsUrl(b)[|prefix|..];
    }
  }

  /** A project's round trip through the store: created into an empty store it
      stands alone in front, an update under its id replaces it in the list and
      as the current item, and a delete removes it and clears the current item. */
  method ProjectLifecycle(p: Entities.Project, q: Entities.Project)
    returns (afterCreate: seq<Entities.Project>, afterUpdate: seq<Entities.Project>,
             shownAfterUpdate: Option<Entities.Project>,
             afterDelete: seq<Entities.Project>, shownAfterDelete: Option<Entities.Project>)
    requires q.id == p.id
    ensures afterCreate == [p]
    ensures afterUpdate == [q] && shownAfterUpdate == Some(q)
    ensures afterDelete == [] && shownAfterDelete.None?
  {
    var s := NewProjectStore();
    s.Begin();
    var created := s.CreatedDone(Responded(true, None, Some(p)));
    afterCreate := s.items;
    s.Begin();
    var one := s.OneDone(Responded(true, None, Some(p)));
    s.Begin();
    var updated := s.UpdatedDone(p.id, Responded(true, None, Some(q)));
    afterUpdate := s.items;
    shownAfterUpdate := s.current;
    s.Begin();
    var deleted := s.DeletedDone<bool>(q.id, Responded(true, None, None));
    afterDelete := s.items;
    shownAfterDelete := s.current;
    assert afterDelete == Seqs.Filter([q], x => Entities.ProjectId(x) != q.id);
  }

  /** A failed update keeps the fetched list, records the server's message and
      hands the error back to the caller. */
  method FailedUpdateKeepsList(list: seq<Entities.Skill>, id: string, message: string)
    returns (kept: seq<Entities.Skill>, error: Option<string>, r: Result<Entities.Skill, ApiClient.ErrorValue>)
    requires message != ""
    ensures kept == list && error == Some(message)
    ensures r == Err(ApiClient.PlainError(message))
  {
    var s := NewSkillStore();
    s.Begin();
    var listed := s.ListDone(Responded(true, None, Some(list)));
    s.Begin();
    r := s.UpdatedDone(id, Responded(false, Some(message), None));
    kept := s.items;
    error := s.error;
  }

  /** The blog shown after a fetch by slug is the first post with that slug, and
      the fetched list is not stored. */
  method FirstSlugMatch(a: Blocks.BlogPost, b: Blocks.BlogPost, c: Blocks.BlogPost)
    returns (shown: Option<Blocks.BlogPost>, kept: seq<Blocks.BlogPost>)
    requires a.slug != b.slug && b.slug == c.slug
    ensures shown == Some(b) && kept == []
  {
    var s := NewBlogStore();
    s.Begin();
    var posts := [a, b, c];
    var hit := (x: Blocks.BlogPost) => BlogSlug(x) == b.slug;
    assert Seqs.FindIndex(posts, hit) == 1 by {
      assert !hit(posts[0]) && hit(posts[1]);
      assert posts[1..][0] == b;
    }
    var thrown := s.BySlugDone(b.slug, BlogSlug, Responded(true, None, Some(posts)));
    shown := s.current;
    kept := s.items;
  }
}
