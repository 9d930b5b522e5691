/** Page requests and paged responses shared by the list endpoints. */
module Pagination {
  import opened Common

  /** A validated page request. */
  datatype PageQuery = PageQuery(page: int, limit: int)

  const DefaultPage := 1
  const DefaultLimit := 20
  const MaxLimit := 100

  /** The request's `page` and `limit` after validation: each is optional,
      defaults to 1 and 20, and must satisfy `page >= 1` and `1 <= limit <= 100`;
      a value out of bounds is a bad request. */
  function ReadPageQuery(page: Option<int>, limit: Option<int>): (r: Result<PageQuery>)
    ensures r.Ok? <==> (page.None? || page.value >= 1) && (limit.None? || 1 <= limit.value <= MaxLimit)
    ensures r.Ok? ==> 1 <= r.value.page && 1 <= r.value.limit <= MaxLimit
    ensures r.Ok? ==> r.value.page == page.GetOr(DefaultPage) && r.value.limit == limit.GetOr(DefaultLimit)
  {
    if page.Some? && page.value < 1 then Err(BadRequest("page must not be less than 1"))
    else if limit.Some? && limit.value < 1 then Err(BadRequest("limit must not be less than 1"))
    else if limit.Some? && limit.value > MaxLimit then Err(BadRequest("limit must not be greater than 100"))
    else Ok(PageQuery(page.GetOr(DefaultPage), limit.GetOr(DefaultLimit)))
  }

  datatype PaginatedResponse<T> = PaginatedResponse(
    data: seq<T>,
    total: nat,
    page: int,
    limit: int,
    totalPages: nat,
    hasNextPage: bool,
    hasPrevPage: bool)

  /** `Math.ceil(total / limit)` for a positive integer `limit`: the least number
      of pages of `limit` records that hold `total` records. */
  function CeilDiv(total: nat, limit: int): (n: nat)
    requires limit >= 1
    ensures n * limit >= total
    ensures n > 0 ==> (n - 1) * limit < total
    ensures total == 0 <==> n == 0
  {
    var n := (total + limit - 1) / limit;
    CeilDivBounds(total, limit, n);
    n
  }

  lemma CeilDivBounds(total: nat, limit: int, n: int)
    requires limit >= 1
    requires n == (total + limit - 1) / limit
    ensures n >= 0
    ensures n * limit >= total
    ensures n > 0 ==> (n - 1) * limit < total
  {
  }

  /** The response object's constructor. */
  function NewPaginatedResponse<T>(data: seq<T>, total: nat, page: int, limit: int): (r: PaginatedResponse<T>)
    requires limit >= 1
    ensures r.data == data && r.total == total && r.page == page && r.limit == limit
    ensures (r.totalPages - 1) * limit < total <= r.totalPages * limit || (total == 0 && r.totalPages == 0)
    ensures r.hasNextPage <==> page < r.totalPages
    ensures r.hasPrevPage <==> page > 1
  {
    var pages := CeilDiv(total, limit);
    PaginatedResponse(data, total, page, limit, pages, page < pages, page > 1)
  }

  /** There is a next page exactly when the records before and on the current
      page do not exhaust the total; with no records, no page from the first on
      has a next page. */
  lemma HasNextPageMeansMoreRecords<T>(data: seq<T>, total: nat, page: int, limit: int)
    requires limit >= 1
    ensures NewPaginatedResponse(data, total, page, limit).hasNextPage <==> page * limit < total
    ensures total == 0 && page >= 1 ==> !NewPaginatedResponse(data, total, page, limit).hasNextPage
  {
    var n := CeilDiv(total, limit);
    if page < n {
      MulMonotone(page, n as int - 1, limit);
    } else {
      MulMonotone(n, page, limit);
    }
  }

  lemma MulMonotone(a: int, b: int, c: int)
    requires a <= b && c >= 0
    ensures a * c <= b * c
  {
  }

  /** A request that passed validation, answered for any total, yields a
      response whose first page never has a previous page and whose page
      bounds hold. */
  lemma FirstPageHasNoPrevious<T>(data: seq<T>, total: nat, q: PageQuery)
    requires ReadPageQuery(None, Some(q.limit)) == Ok(q)
    ensures !NewPaginatedResponse(data, total, q.page, q.limit).hasPrevPage
    ensures NewPaginatedResponse(data, total, q.page, q.limit).hasNextPage <==> q.limit < total
  {
  }
}
