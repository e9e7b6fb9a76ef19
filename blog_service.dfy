// The backend blog service over an abstract repository (a map from id to blog).
// Whether the meta image is a URL, the generated id and the clock are parameters.
module BlogService {
  import opened Wrappers
  import opened BackendErrors
  import opened BlogModel
  import Pagination
  import Slug

  /** The first failing block of a request, checked in order: its struct tags
      first (an input error), then its data. */
  function FirstBlockError(blocks: seq<BackendBlock>): (r: Option<ServiceError>)
    ensures r.Some? ==> r.value == InvalidInput || r.value == InvalidBlockData
  {
    if blocks == [] then None
    else if !BlockStructValid(blocks[0]) then Some(InvalidInput)
    else if ValidateBlockData(blocks[0]).Some? then ValidateBlockData(blocks[0])
    else FirstBlockError(blocks[1..])
  }

  predicate BlockAccepted(b: BackendBlock)
  {
    BlockStructValid(b) && ValidateBlockData(b).None?
  }

  /** No error is reported exactly when every block passes both checks; otherwise
      the error is the one of the first block that fails. */
  lemma {:induction false} FirstBlockErrorLocates(blocks: seq<BackendBlock>)
    ensures FirstBlockError(blocks).None? <==> forall k :: 0 <= k < |blocks| ==> BlockAccepted(blocks[k])
    ensures FirstBlockError(blocks).Some? ==>
      exists i :: 0 <= i < |blocks| && !BlockAccepted(blocks[i])
        && (forall k :: 0 <= k < i ==> BlockAccepted(blocks[k]))
        && FirstBlockError(blocks) == (if !BlockStructValid(blocks[i]) then Some(InvalidInput) else Some(InvalidBlockData))
    decreases |blocks|
  {
    if blocks != [] {
      FirstBlockErrorLocates(blocks[1..]);
      if BlockAccepted(blocks[0]) {
        if FirstBlockError(blocks[1..]).Some? {
          var j :| 0 <= j < |blocks[1..]| && !BlockAccepted(blocks[1..][j])
            && (forall k :: 0 <= k < j ==> BlockAccepted(blocks[1..][k]))
            && FirstBlockError(blocks[1..]) == (if !BlockStructValid(blocks[1..][j]) then Some(InvalidInput) else Some(InvalidBlockData));
          ErrorBehindHead(blocks, j);
        } else {
          forall k | 0 <= k < |blocks| ensures BlockAccepted(blocks[k]) {
            if k > 0 { assert blocks[k] == blocks[1..][k - 1]; }
          }
        }
      }
    }
  }

  /** A failure at `j` in the tail of an accepted head is a first failure at `j + 1`. */
  lemma ErrorBehindHead(blocks: seq<BackendBlock>, j: int)
    requires blocks != [] && BlockAccepted(blocks[0])
    requires 0 <= j < |blocks| - 1
    requires forall k :: 0 <= k < j ==> BlockAccepted(blocks[1..][k])
    ensures blocks[j + 1] == blocks[1..][j]
    ensures forall k :: 0 <= k < j + 1 ==> BlockAccepted(blocks[k])
  {
    forall k | 0 <= k < j + 1 ensures BlockAccepted(blocks[k]) {
      if k > 0 { assert blocks[k] == blocks[1..][k - 1]; }
    }
  }

  /** Runs the block checks of a request in order, stopping at the first failure. */
  method ValidateBlocks(blocks: seq<BackendBlock>) returns (err: Option<ServiceError>)
    ensures err == FirstBlockError(blocks)
  {
    var i := 0;
    while i < |blocks|
      invariant 0 <= i <= |blocks|
      invariant FirstBlockError(blocks) == FirstBlockError(blocks[i..])
    {
      var block := blocks[i];
      assert blocks[i..][1..] == blocks[i + 1..];
      if !BlockStructValid(block) {
        return Some(InvalidInput);
      }
      var dataErr := ValidateBlockData(block);
      if dataErr.Some? {
        return dataErr;
      }
      i := i + 1;
    }
    return None;
  }

  /** Whether a blog other than `excludeId` already uses `slug`. */
  predicate SlugTaken(repo: map<string, Blog>, slug: string, excludeId: string)
  {
    exists id :: id in repo && id != excludeId && repo[id].slug == slug
  }

  /** The repository's id keys agree with the stored blogs' ids, and no id is empty. */
  predicate RepoValid(repo: map<string, Blog>)
  {
    forall id :: id in repo ==> repo[id].id == id && id != ""
  }

  /** Every stored blog has a slug of the registered grammar. */
  predicate SlugsValid(repo: map<string, Blog>)
  {
    forall id :: id in repo ==> Slug.ValidSlug(repo[id].slug)
  }

  function NewBlog(id: string, req: BlogRequest, createdAt: int, updatedAt: int): Blog
  {
    Blog(id, req.title, req.excerpt, req.date, req.slug, req.metaTitle, req.metaDescription,
         req.metaImage, req.metaKeywords, req.blocks, createdAt, updatedAt)
  }

  class Service {
    var repo: map<string, Blog>

    constructor (repo: map<string, Blog>)
      requires RepoValid(repo)
      ensures this.repo == repo && RepoValid(this.repo)
    {
      this.repo := repo;
    }

    /** The listing metadata of one page; the page's rows themselves are the
        repository's query. */
    method GetAll(page: int, perPage: int) returns (meta: Pagination.Meta)
      ensures meta == Pagination.ListingMeta(page, perPage, |repo|)
    {
      var p := page;
      if p < 1 {
        p := 1;
      }
      var n := perPage;
      if n < 1 || n > 100 {
        n := 15;
      }
      var total := |repo|;
      var totalPages := (total + n - 1) / n;
      meta := Pagination.Meta(p, n, total, totalPages);
    }

    /** Creates a blog under the generated id `newId` with both times `now`. */
    method Create(req: BlogRequest, metaImageIsUrl: bool, newId: string, now: int)
      returns (r: Result<Blog, ServiceError>)
      requires RepoValid(repo) && newId != "" && newId !in repo
      modifies this
      ensures RepoValid(repo)
      ensures !RequestTagsValid(req, metaImageIsUrl) ==> r == Err(InvalidInput)
      ensures r.Ok? ==> Slug.ValidSlug(r.value.slug) && 3 <= |r.value.slug| <= 500
      ensures SlugsValid(old(repo)) ==> SlugsValid(repo)
      ensures RequestTagsValid(req, metaImageIsUrl) && FirstBlockError(req.blocks).Some? ==> r == Err(FirstBlockError(req.blocks).value)
      ensures RequestTagsValid(req, metaImageIsUrl) && FirstBlockError(req.blocks).None? && SlugTaken(old(repo), req.slug, "") ==>
        r == Err(DuplicateKey)
      ensures RequestTagsValid(req, metaImageIsUrl) && FirstBlockError(req.blocks).None? && !SlugTaken(old(repo), req.slug, "") ==>
        r == Ok(NewBlog(newId, req, now, now))
      ensures r.Ok? ==> repo == old(repo)[newId := r.value]
      ensures r.Err? ==> repo == old(repo)
    {
      if !RequestTagsValid(req, metaImageIsUrl) {
        return Err(InvalidInput);
      }
      var blockErr := ValidateBlocks(req.blocks);
      if blockErr.Some? {
        return Err(blockErr.value);
      }
      if SlugTaken(repo, req.slug, "") {
        return Err(DuplicateKey);
      }
      var blog := NewBlog(newId, req, now, now);
      repo := repo[newId := blog];
      return Ok(blog);
    }

    /** Replaces the blog `id`, keeping its creation time; returns the stored blog. */
    method Update(id: string, req: BlogRequest, metaImageIsUrl: bool, now: int)
      returns (r: Result<Blog, ServiceError>)
      requires RepoValid(repo)
      modifies this
      ensures RepoValid(repo)
      ensures !RequestTagsValid(req, metaImageIsUrl) ==> r == Err(InvalidInput)
      ensures r.Ok? ==> Slug.ValidSlug(r.value.slug) && 3 <= |r.value.slug| <= 500
      ensures SlugsValid(old(repo)) ==> SlugsValid(repo)
      ensures RequestTagsValid(req, metaImageIsUrl) && FirstBlockError(req.blocks).Some? ==> r == Err(FirstBlockError(req.blocks).value)
      ensures RequestTagsValid(req, metaImageIsUrl) && FirstBlockError(req.blocks).None? && id !in old(repo) ==> r == Err(NotFound)
      ensures RequestTagsValid(req, metaImageIsUrl) && FirstBlockError(req.blocks).None? && id in old(repo) ==>
        r == (if req.slug != old(repo)[id].slug && SlugTaken(old(repo), req.slug, id) then Err(DuplicateKey)
              else Ok(NewBlog(id, req, old(repo)[id].createdAt, now)))
      ensures r.Ok? ==> repo == old(repo)[id := r.value] && r.value.id == id
      ensures r.Err? ==> repo == old(repo)
    {
      if !RequestTagsValid(req, metaImageIsUrl) {
        return Err(InvalidInput);
      }
      var blockErr := ValidateBlocks(req.blocks);
      if blockErr.Some? {
        return Err(blockErr.value);
      }
      if id !in repo {
        return Err(NotFound);
      }
      var existing := repo[id];
      if req.slug != existing.slug {
        if SlugTaken(repo, req.slug, id) {
          return Err(DuplicateKey);
        }
      }
      repo := repo[id := NewBlog(id, req, existing.createdAt, now)];
      return Ok(repo[id]);
    }
  }

  /** When the blog's new slug is taken only by the blog itself, the update is not a
      duplicate; creating a blog with that slug would be. */
  lemma OwnSlugExcluded(repo: map<string, Blog>, id: string, slug: string)
    requires RepoValid(repo) && id in repo && repo[id].slug == slug
    requires forall other :: other in repo && other != id ==> repo[other].slug != slug
    ensures !SlugTaken(repo, slug, id) && SlugTaken(repo, slug, "")
  {
    assert id != "";
  }
}
