// Listing metadata of the paginated backend endpoints: the page and page-size
// normalisation and the page count.
module Pagination {

  datatype Meta = Meta(currentPage: int, perPage: int, total: nat, totalPages: nat)

  const DefaultPerPage: int := 15
  const MaxPerPage: int := 100

  /** A page number below 1 is read as the first page. */
  function NormalizePage(page: int): (p: int)
    ensures p >= 1
    ensures page >= 1 ==> p == page
    ensures page < 1 ==> p == 1
  {
    if page < 1 then 1 else page
  }

  /** A page size outside 1..100 is replaced by the default of 15. */
  function NormalizePerPage(perPage: int): (n: int)
    ensures 1 <= n <= MaxPerPage
    ensures 1 <= perPage <= MaxPerPage ==> n == perPage
    ensures !(1 <= perPage <= MaxPerPage) ==> n == DefaultPerPage
  {
    if perPage < 1 || perPage > MaxPerPage then DefaultPerPage else perPage
  }

  /** `(total + perPage - 1) / perPage`; for the non-negative operands here Go's
      truncating division agrees with Dafny's. */
  function TotalPages(total: nat, perPage: int): nat
    requires perPage >= 1
  {
    (total + perPage - 1) / perPage
  }

  /** The page count is the ceiling of total / perPage: enough pages for every
      item and no page left empty, so no items means no pages. */
  lemma TotalPagesIsCeiling(total: nat, perPage: int)
    requires perPage >= 1
    ensures TotalPages(total, perPage) * perPage >= total
    ensures TotalPages(total, perPage) == 0 || (TotalPages(total, perPage) - 1) * perPage < total
    ensures TotalPages(total, perPage) == 0 <==> total == 0
  {
    var t := TotalPages(total, perPage);
    var q := total + perPage - 1;
    assert q == t * perPage + q % perPage;
    assert 0 <= q % perPage < perPage;
  }

  /** The metadata a listing returns for a request and the repository's count. */
  function ListingMeta(page: int, perPage: int, total: nat): (m: Meta)
    ensures m.currentPage >= 1 && 1 <= m.perPage <= MaxPerPage
    ensures m.currentPage == NormalizePage(page) && m.perPage == NormalizePerPage(perPage)
    ensures m.total == total
    ensures m.totalPages * m.perPage >= total && (m.totalPages == 0 || (m.totalPages - 1) * m.perPage < total)
  {
    var p := NormalizePage(page);
    var n := NormalizePerPage(perPage);
    TotalPagesIsCeiling(total, n);
    Meta(p, n, total, TotalPages(total, n))
  }
}
