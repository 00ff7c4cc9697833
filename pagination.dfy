/** The store's pagination arithmetic: the `totalPages` getter and the offset a page starts at. */
module Pagination {

  /** `itemsPerPage` of the store state (20, `ITEMS_PER_PAGE`). */
  const ItemsPerPage: nat := 20

  /** `Math.ceil(totalCount / itemsPerPage)`: the fewest pages of `itemsPerPage` that hold
      `totalCount` items, so 0 exactly when there are no items. */
  function TotalPages(totalCount: nat, itemsPerPage: nat): (pages: nat)
    requires itemsPerPage > 0
    ensures pages * itemsPerPage >= totalCount
    ensures pages > 0 ==> (pages - 1) * itemsPerPage < totalCount
    ensures pages == 0 <==> totalCount == 0
  {
    var pages := (totalCount + itemsPerPage - 1) / itemsPerPage;
    CeilingBounds(totalCount, itemsPerPage, pages);
    pages
  }

  lemma CeilingBounds(total: nat, per: nat, pages: nat)
    requires per > 0 && pages == (total + per - 1) / per
    ensures pages * per >= total
    ensures pages > 0 ==> (pages - 1) * per < total
  {
    var r := (total + per - 1) % per;
    assert total + per - 1 == pages * per + r;
  }

  /** `(page - 1) * itemsPerPage`: the index of the first item of `page` (pages count from 1). */
  function Offset(page: int, itemsPerPage: nat): (offset: int)
    ensures page == 1 ==> offset == 0
    ensures page >= 1 ==> offset >= 0
  {
    (page - 1) * itemsPerPage
  }

  /** Consecutive pages follow each other without gap or overlap. */
  lemma {:induction false} PagesAreContiguous(page: int, itemsPerPage: nat)
    ensures Offset(page + 1, itemsPerPage) == Offset(page, itemsPerPage) + itemsPerPage
  {
    assert (page + 1 - 1) * itemsPerPage == (page - 1) * itemsPerPage + itemsPerPage;
  }

  /** Every item `i` of the catalog lies on exactly one page from 1 to `totalPages`, and every
      page from 1 to `totalPages` starts on an existing item. */
  lemma {:induction false} PagesCoverCatalog(totalCount: nat, itemsPerPage: nat, i: nat, page: int)
    requires itemsPerPage > 0
    ensures i < totalCount ==>
              var p := i / itemsPerPage + 1;
              1 <= p <= TotalPages(totalCount, itemsPerPage) &&
              Offset(p, itemsPerPage) <= i < Offset(p, itemsPerPage) + itemsPerPage
    ensures 1 <= page <= TotalPages(totalCount, itemsPerPage) ==> Offset(page, itemsPerPage) < totalCount
    ensures page > TotalPages(totalCount, itemsPerPage) ==> Offset(page, itemsPerPage) >= totalCount
    ensures 1 <= page && Offset(page, itemsPerPage) <= i < Offset(page, itemsPerPage) + itemsPerPage ==>
              page == i / itemsPerPage + 1
  {
    var pages := TotalPages(totalCount, itemsPerPage);
    if i < totalCount {
      var p := i / itemsPerPage + 1;
      assert i == (p - 1) * itemsPerPage + i % itemsPerPage;
      assert (p - 1) * itemsPerPage < pages * itemsPerPage;
      MulCancel(p - 1, pages, itemsPerPage);
    }
    if 1 <= page <= pages {
      MulMonotone(page - 1, pages - 1, itemsPerPage);
    }
    if page > pages {
      MulMonotone(pages, page - 1, itemsPerPage);
    }
    if 1 <= page && Offset(page, itemsPerPage) <= i < Offset(page, itemsPerPage) + itemsPerPage {
      PageOfItem(i, itemsPerPage, page - 1);
    }
  }

  /** The item `i` lies on one page only: a page whose items include `i` is page `i / per + 1`. */
  lemma PageOfItem(i: nat, per: nat, p: nat)
    requires per > 0 && p * per <= i < p * per + per
    ensures p == i / per
  {
    var q := i / per;
    assert i == q * per + i % per;
    assert (q + 1) * per == q * per + per;
    assert (p + 1) * per == p * per + per;
    MulCancel(p, q + 1, per);
    MulCancel(q, p + 1, per);
  }

  lemma MulCancel(a: nat, b: nat, c: nat)
    requires c > 0
    ensures a * c < b * c ==> a < b
  {
    if a >= b {
      MulMonotone(b, a, c);
    }
  }

  lemma MulMonotone(a: nat, b: nat, c: nat)
    requires a <= b
    ensures a * c <= b * c
  {
  }
}
