/** The pager of the employee list (src/components/Pagination.tsx). */
module Pagination {
  import opened Wrappers

  /** `Math.ceil(total / limit)` for a positive limit. */
  function CeilDiv(total: int, limit: int): (c: int)
    requires limit > 0
    ensures (c - 1) * limit < total <= c * limit
  {
    var q := (-total) / limit;
    var r := (-total) % limit;
    assert -total == q * limit + r && 0 <= r < limit;
    assert (-q) * limit == total + r;
    -q
  }

  /** `totalPages = Math.max(1, Math.ceil(total / limit))` */
  function TotalPages(total: int, limit: int): (pages: int)
    requires limit > 0
    ensures pages >= 1
    ensures total <= 0 ==> pages == 1
    ensures total > 0 ==> (pages - 1) * limit < total <= pages * limit
  {
    var c := CeilDiv(total, limit);
    if c > 1 then c else 1
  }

  /** For a positive factor, multiplication keeps the order of integers. */
  lemma MulMonotone(a: int, b: int, l: int)
    requires l > 0
    ensures a <= b <==> a * l <= b * l
  {
    assert b * l - a * l == (b - a) * l;
    if a > b {
      assert (a - b) * l > 0;
    }
  }

  /** `canPrev`: there is an earlier page, and it is at least page 1. */
  predicate CanPrev(page: int)
    ensures CanPrev(page) <==> page - 1 >= 1
  {
    page > 1
  }

  /** `canNext`: on a real page, Next is enabled exactly when rows lie beyond this page. */
  predicate CanNext(page: int, total: int, limit: int)
    requires limit > 0
    ensures page >= 1 ==> (CanNext(page, total, limit) <==> page * limit < total)
  {
    var pages := TotalPages(total, limit);
    MulMonotone(page, pages - 1, limit);
    MulMonotone(pages, page, limit);
    MulMonotone(1, page, limit);
    page < pages
  }

  /** The page the Prev button hands to `onChange`, if it calls it at all. */
  function PrevTarget(page: int): (target: Option<int>)
    ensures target.Some? <==> CanPrev(page)
    ensures target.Some? ==> target.value == page - 1 && target.value >= 1
  {
    if CanPrev(page) then Some(page - 1) else None
  }

  /** The page the Next button hands to `onChange`, if it calls it at all. */
  function NextTarget(page: int, total: int, limit: int): (target: Option<int>)
    requires limit > 0
    ensures target.Some? <==> page < TotalPages(total, limit)
    ensures target.Some? ==> target.value == page + 1 && target.value <= TotalPages(total, limit)
  {
    if CanNext(page, total, limit) then Some(page + 1) else None
  }

  /** Every page reached from page 1 by Next presses shows at least one of the `total` rows. */
  lemma NextStaysOnPopulatedPages(page: int, total: int, limit: int)
    requires limit > 0 && total > 0 && page >= 1
    requires NextTarget(page, total, limit).Some?
    ensures (NextTarget(page, total, limit).value - 1) * limit < total
  {
    var pages := TotalPages(total, limit);
    var next := page + 1;
    assert next <= pages;
    assert (next - 1) * limit <= (pages - 1) * limit by {
      assert (pages - 1) * limit - (next - 1) * limit == (pages - next) * limit;
      assert (pages - next) * limit >= 0;
    }
  }

  /** With no rows there is one page, and neither button does anything on it. */
  lemma EmptyListHasOnePage(limit: int)
    requires limit > 0
    ensures TotalPages(0, limit) == 1
    ensures PrevTarget(1).None? && NextTarget(1, 0, limit).None?
  {
  }
}
