/** `PageQuery` of app/models/pagination.py: validated paging parameters and their arithmetic. */
module Pagination {
  import opened Wrappers
  import opened Response

  datatype Order = Asc | Desc

  datatype PageQuery = PageQuery(page: int, pageSize: int, sortBy: Option<string>, order: Order) {
    /** The field constraints: `page >= 1` and `1 <= page_size <= 100`. */
    predicate Valid() {
      page >= 1 && 1 <= pageSize <= 100
    }
  }

  /** A `PageQuery` instance; validation has already accepted it. */
  type ValidPageQuery = q: PageQuery | q.Valid() witness PageQuery(1, 20, None, Asc)

  /** Building a `PageQuery` from the query string: a missing field takes its default
      (page 1, page_size 20, no sort field, "asc"); an out-of-range number or an order
      other than "asc"/"desc" is a validation error naming the field. */
  function MakePageQuery(page: Option<int>, pageSize: Option<int>, sortBy: Option<string>, order: Option<string>)
    : (r: Result<ValidPageQuery, seq<string>>)
    ensures r.Success? ==> r.value.page == page.GetOr(1) && r.value.pageSize == pageSize.GetOr(20) && r.value.sortBy == sortBy
    ensures r.Success? <==> page.GetOr(1) >= 1 && 1 <= pageSize.GetOr(20) <= 100 && order.GetOr("asc") in {"asc", "desc"}
    ensures r.Success? ==> (r.value.order == Desc <==> order == Some("desc"))
    ensures r.Failure? ==> |r.error| >= 1
  {
    var p := page.GetOr(1);
    var ps := pageSize.GetOr(20);
    var o := order.GetOr("asc");
    var bad := (if p >= 1 then [] else ["page"])
             + (if 1 <= ps <= 100 then [] else ["page_size"])
             + (if o in {"asc", "desc"} then [] else ["order"]);
    if bad == [] then Success(PageQuery(p, ps, sortBy, if o == "asc" then Asc else Desc))
    else Failure(bad)
  }

  /** The defaults themselves form a valid query. */
  lemma DefaultQuery()
    ensures MakePageQuery(None, None, None, None) == Success(PageQuery(1, 20, None, Asc))
  {
  }

  /** `offset`: the number of items on the pages before this one. */
  function Offset(q: ValidPageQuery): (r: nat)
    ensures q.page == 1 ==> r == 0
  {
    (q.page - 1) * q.pageSize
  }

  /** `limit`: the page size. */
  function Limit(q: ValidPageQuery): (r: nat)
    ensures 1 <= r <= 100
  {
    q.pageSize
  }

  /** `to_meta(total)`: copies the page fields and says whether items remain after this page. */
  function ToMeta(q: ValidPageQuery, total: int): (m: PaginationMeta)
    ensures m.total == total && m.page == q.page && m.pageSize == q.pageSize
    ensures m.hasNext <==> q.page * q.pageSize < total
  {
    PaginationMeta(total, q.page, q.pageSize, q.page * q.pageSize < total)
  }

  /** The next page's query. */
  function NextPage(q: ValidPageQuery): ValidPageQuery {
    q.(page := q.page + 1)
  }

  /** Consecutive pages tile the items: each page starts where the previous one ends,
      so no item is skipped or shown twice. */
  lemma PagesTile(q: ValidPageQuery)
    ensures Offset(q) + Limit(q) == q.page * q.pageSize
    ensures Offset(NextPage(q)) == Offset(q) + Limit(q)
  {
  }

  /** `has_next` says exactly that the next page starts before the end of the items. */
  lemma HasNextIffNextPageNonEmpty(q: ValidPageQuery, total: int)
    ensures ToMeta(q, total).hasNext <==> Offset(NextPage(q)) < total
  {
    assert Offset(NextPage(q)) == q.page * q.pageSize;
  }
}
