// The backend project service over an abstract repository. Project ids come from
// the repository's auto-increment counter; the struct-tag verdict and the clock
// are parameters.
module ProjectService {
  import opened Wrappers
  import opened BackendErrors
  import Pagination

  datatype Project = Project(
    id: int,
    name: string,
    date: string,
    link: string,
    tags: seq<string>,
    description: string,
    image: string,
    category: string,
    createdAt: int,
    updatedAt: int)

  datatype ProjectRequest = ProjectRequest(
    name: string,
    date: string,
    link: string,
    tags: seq<string>,
    description: string,
    image: string,
    category: string)

  function FromRequest(id: int, req: ProjectRequest, createdAt: int, updatedAt: int): Project
  {
    Project(id, req.name, req.date, req.link, req.tags, req.description, req.image, req.category,
            createdAt, updatedAt)
  }

  function CategoryCount(repo: map<int, Project>, category: string): nat
  {
    |set id | id in repo && repo[id].category == category|
  }

  class Service {
    var repo: map<int, Project>
    /** The next value of the table's auto-increment counter. */
    var nextId: int

    predicate Valid()
      reads this
    {
      nextId >= 1 && forall id :: id in repo ==> 1 <= id < nextId && repo[id].id == id
    }

    constructor ()
      ensures Valid() && repo == map[] && nextId == 1
    {
      repo := map[];
      nextId := 1;
    }

    method GetAll(page: int, perPage: int) returns (meta: Pagination.Meta)
      ensures meta == Pagination.ListingMeta(page, perPage, |repo|)
    {
      var p := if page < 1 then 1 else page;
      var n := if perPage < 1 || perPage > 100 then 15 else perPage;
      var total := |repo|;
      meta := Pagination.Meta(p, n, total, (total + n - 1) / n);
    }

    /** The same normalisation and page count, over the projects of one category. */
    method GetByCategory(category: string, page: int, perPage: int) returns (meta: Pagination.Meta)
      ensures meta == Pagination.ListingMeta(page, perPage, CategoryCount(repo, category))
    {
      var p := if page < 1 then 1 else page;
      var n := if perPage < 1 || perPage > 100 then 15 else perPage;
      var total := CategoryCount(repo, category);
      meta := Pagination.Meta(p, n, total, (total + n - 1) / n);
    }

    /** The request carries no id: the repository assigns the counter's value. */
    method Create(req: ProjectRequest, requestValid: bool, now: int) returns (r: Result<Project, ServiceError>)
      requires Valid()
      modifies this
      ensures Valid()
      ensures !requestValid ==> r == Err(InvalidInput) && repo == old(repo) && nextId == old(nextId)
      ensures requestValid ==> r == Ok(FromRequest(old(nextId), req, now, now))
      ensures requestValid ==> r.value.id !in old(repo) && repo == old(repo)[r.value.id := r.value]
      ensures requestValid ==> nextId == old(nextId) + 1
    {
      if !requestValid {
        return Err(InvalidInput);
      }
      var project := FromRequest(nextId, req, now, now);
      repo := repo[nextId := project];
      nextId := nextId + 1;
      return Ok(project);
    }

    /** Rewrites project `id` under the same id if it exists; returns the stored row. */
    method Update(id: int, req: ProjectRequest, requestValid: bool, now: int) returns (r: Result<Project, ServiceError>)
      requires Valid()
      modifies this
      ensures Valid() && nextId == old(nextId)
      ensures !requestValid ==> r == Err(InvalidInput)
      ensures requestValid && id !in old(repo) ==> r == Err(NotFound)
      ensures requestValid && id in old(repo) ==> r == Ok(FromRequest(id, req, old(repo)[id].createdAt, now))
      ensures r.Ok? ==> repo == old(repo)[id := r.value]
      ensures r.Err? ==> repo == old(repo)
    {
      if !requestValid {
        return Err(InvalidInput);
      }
      if id !in repo {
        return Err(NotFound);
      }
      var existing := repo[id];
      repo := repo[id := FromRequest(id, req, existing.createdAt, now)];
      return Ok(repo[id]);
    }
  }

  /** Two successful creates yield two different ids, the later one the larger. */
  method CreatedIdsIncrease(a: ProjectRequest, b: ProjectRequest, now: int) returns (first: int, second: int)
    ensures 1 <= first < second
  {
    var s := new Service();
    var r1 := s.Create(a, true, now);
    var r2 := s.Create(b, true, now);
    first, second := r1.value.id, r2.value.id;
  }
}
