/**
 * Pagination arithmetic of the list endpoints: page and page size from the
 * query (already read as integers), the skip/take window, and the meta block.
 */
module Pagination {
  import opened Wrappers

  datatype Window = Window(page: int, pageSize: int, skip: int, take: int)

  /**
   * `getPagination`: page at least 1 (default 1), page size clamped to
   * 1..100 (default 12), skip the earlier pages, take one page.
   */
  function GetPagination(page: Option<int>, pageSize: Option<int>): (w: Window)
    ensures w.page >= 1 && 1 <= w.pageSize <= 100
    ensures w.skip == (w.page - 1) * w.pageSize && w.skip >= 0 && w.take == w.pageSize
    ensures page.None? ==> w.page == 1
    ensures pageSize.None? ==> w.pageSize == 12
    ensures page.Some? && page.value >= 1 ==> w.page == page.value
    ensures pageSize.Some? && 1 <= pageSize.value <= 100 ==> w.pageSize == pageSize.value
  {
    var p := page.GetOr(1);
    var requested := pageSize.GetOr(12);
    var pg := if p >= 1 then p else 1;
    var size := if requested > 100 then 100 else if requested >= 1 then requested else 1;
    MulNonNegative(pg - 1, size);
    Window(pg, size, (pg - 1) * size, size)
  }

  lemma MulNonNegative(a: int, b: int)
    requires a >= 0 && b >= 0
    ensures a * b >= 0
  {
  }

  /** `Math.ceil(total / pageSize)` for a positive page size. */
  function CeilDiv(total: int, pageSize: int): (c: int)
    requires pageSize >= 1
    ensures c * pageSize >= total
    ensures (c - 1) * pageSize < total
  {
    -((-total) / pageSize)
  }

  datatype Meta = Meta(page: int, pageSize: int, total: int, totalPages: int)

  /** `buildMeta`: the number of pages is at least 1 and enough to hold every row. */
  function BuildMeta(page: int, pageSize: int, total: int): (m: Meta)
    requires pageSize >= 1
    ensures m.page == page && m.pageSize == pageSize && m.total == total
    ensures m.totalPages >= 1
    ensures m.totalPages * pageSize >= total
    ensures total > 0 ==> (m.totalPages - 1) * pageSize < total
    ensures total <= 0 ==> m.totalPages == 1
  {
    var c := CeilDiv(total, pageSize);
    Meta(page, pageSize, total, if c >= 1 then c else 1)
  }

  /** The last page's window starts inside the data: every page up to totalPages is reachable and non-empty. */
  lemma LastPageStartsInsideData(pageSize: Option<int>, total: int)
    requires total > 0
    ensures var w := GetPagination(None, pageSize);
            var meta := BuildMeta(1, w.pageSize, total);
            var last := GetPagination(Some(meta.totalPages), pageSize);
            last.skip < total && last.skip + last.take >= total
  {
    var w := GetPagination(None, pageSize);
    var meta := BuildMeta(1, w.pageSize, total);
    var last := GetPagination(Some(meta.totalPages), pageSize);
    assert last.pageSize == w.pageSize;
    assert last.page == meta.totalPages;
    assert last.skip + last.take == meta.totalPages * w.pageSize;
  }
}
