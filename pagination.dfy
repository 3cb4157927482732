/** The shared pager: "previous" and "next" report the neighbouring page to
    the list that owns the page number, within `1 .. ceil(total / take)`. */
module Pagination {

  import opened Options

  /** `Math.ceil(total / take)` for a non-zero `take`. Dafny's `/` is
      Euclidean: the floor for a positive divisor, so the ceiling is
      `-(-a / b)`; the ceiling itself for a negative one. */
  function TotalPages(total: int, take: int): (pages: int)
    requires take != 0
    ensures take > 0 ==> (pages - 1) * take < total <= pages * take
    ensures take < 0 ==> pages * take <= total < (pages - 1) * take
    ensures take > 0 && total >= 0 ==> pages >= 0
    ensures take > 0 && total == 0 ==> pages == 0
  {
    if take > 0 then -((-total) / take) else total / take
  }

  /** `handlePrev`: the previous page, but never below page 1. */
  function HandlePrev(page: int): (emitted: Option<int>)
    ensures emitted.Some? <==> page > 1
    ensures emitted.Some? ==> emitted.value == page - 1 && emitted.value >= 1
  {
    if page > 1 then Some(page - 1) else None
  }

  /** `meta.page < totalPage`. With `take` 0 JavaScript divides to Infinity
      (any page is below it) or, for a zero total, to NaN (no page is). */
  predicate NextEnabled(page: int, total: int, take: int) {
    if take == 0 then total > 0 else page < TotalPages(total, take)
  }

  /** `handleNext`: the next page, never past the last one. */
  function HandleNext(page: int, total: int, take: int): (emitted: Option<int>)
    ensures emitted.Some? <==> NextEnabled(page, total, take)
    ensures emitted.Some? ==> emitted.value == page + 1
    ensures emitted.Some? && take > 0 ==> emitted.value <= TotalPages(total, take)
  {
    if NextEnabled(page, total, take) then Some(page + 1) else None
  }

  /** With nothing to show, or on the last page, "next" does nothing. */
  lemma NextStopsAtLastPage(page: int, total: int, take: int)
    requires take > 0 && page >= 0
    ensures total == 0 ==> HandleNext(page, total, take).None?
    ensures page == TotalPages(total, take) ==> HandleNext(page, total, take).None?
    ensures HandleNext(page, total, take).Some? ==> page * take < total
  {
    if HandleNext(page, total, take).Some? {
      var pages := TotalPages(total, take);
      assert page <= pages - 1;
      MonotoneProduct(page, pages - 1, take);
    }
  }

  lemma MonotoneProduct(a: int, b: int, k: int)
    requires a <= b && k > 0
    ensures a * k <= b * k
  {
  }

  /** "Previous" right after an enabled "next" returns to the page it started
      from. */
  lemma NextThenPrev(page: int, total: int, take: int)
    requires page >= 1
    requires HandleNext(page, total, take).Some?
    ensures HandlePrev(HandleNext(page, total, take).value) == Some(page)
  {
  }

  /** "Next" right after "previous" returns to the page it started from,
      whenever that page was within range. */
  lemma PrevThenNext(page: int, total: int, take: int)
    requires take > 0 && 1 < page <= TotalPages(total, take)
    ensures HandleNext(HandlePrev(page).value, total, take) == Some(page)
  {
  }

  /** A zero `take` with items enables "next" on every page: the pager is only
      bounded for a positive page size. */
  lemma ZeroTakeIsUnbounded(page: int, total: int)
    requires total > 0
    ensures HandleNext(page, total, 0) == Some(page + 1)
  {
  }
}
