/** The pagination state of a list view: defaults merged with the caller's
    fields, and the two handlers the pager calls. Numbers are integers
    here. */
module Pagination {
  import opened Common

  datatype Pagination = Pagination(total: int, offset: int, currentPage: int, pageSizes: seq<int>, pageSize: int, layout: string)

  /** The fields a caller may supply; absent ones take their defaults. */
  datatype Options = Options(
    total: Option<int>,
    offset: Option<int>,
    currentPage: Option<int>,
    pageSizes: Option<seq<int>>,
    pageSize: Option<int>,
    layout: Option<string>)

  const DefaultLayout := "total, sizes, prev, pager, next, jumper"

  function Defaults(): (p: Pagination)
    ensures p.total == 0 && p.offset == 0 && p.currentPage == 1
    ensures p.pageSizes == [10, 20, 50] && p.pageSize == 10 && p.layout == DefaultLayout
  {
    Pagination(0, 0, 1, [10, 20, 50], 10, DefaultLayout)
  }

  function Pick<T>(o: Option<T>, d: T): T
  {
    if o.Some? then o.value else d
  }

  /** `usePagination(options)`: each supplied field overrides its default. */
  function UsePagination(o: Options): (p: Pagination)
    ensures o.total.Some? ==> p.total == o.total.value
    ensures o.total.None? ==> p.total == Defaults().total
    ensures o.offset.Some? ==> p.offset == o.offset.value
    ensures o.offset.None? ==> p.offset == Defaults().offset
    ensures o.currentPage.Some? ==> p.currentPage == o.currentPage.value
    ensures o.currentPage.None? ==> p.currentPage == Defaults().currentPage
    ensures o.pageSizes.Some? ==> p.pageSizes == o.pageSizes.value
    ensures o.pageSizes.None? ==> p.pageSizes == Defaults().pageSizes
    ensures o.pageSize.Some? ==> p.pageSize == o.pageSize.value
    ensures o.pageSize.None? ==> p.pageSize == Defaults().pageSize
    ensures o.layout.Some? ==> p.layout == o.layout.value
    ensures o.layout.None? ==> p.layout == Defaults().layout
  {
    var d := Defaults();
    Pagination(Pick(o.total, d.total), Pick(o.offset, d.offset), Pick(o.currentPage, d.currentPage),
               Pick(o.pageSizes, d.pageSizes), Pick(o.pageSize, d.pageSize), Pick(o.layout, d.layout))
  }

  /** `handleCurrentChange(v)`: the page becomes `v` and the offset is the
      number of rows on the pages before it. */
  function HandleCurrentChange(p: Pagination, v: int): (r: Pagination)
    ensures r.currentPage == v
    ensures r.offset + p.pageSize == v * p.pageSize
    ensures r.(currentPage := p.currentPage, offset := p.offset) == p
  {
    p.(currentPage := v, offset := (v - 1) * p.pageSize)
  }

  /** `handleSizeChange(v)`: only the page size changes; the offset and the
      current page are left as they were. */
  function HandleSizeChange(p: Pagination, v: int): (r: Pagination)
    ensures r.pageSize == v
    ensures r.(pageSize := p.pageSize) == p
  {
    p.(pageSize := v)
  }

  /** From page one or later with a non-negative page size the offset is
      non-negative and a whole number of pages. */
  lemma OffsetIsWholePages(p: Pagination, v: int)
    requires v >= 1 && p.pageSize >= 0
    ensures HandleCurrentChange(p, v).offset >= 0
    ensures p.pageSize > 0 ==> HandleCurrentChange(p, v).offset % p.pageSize == 0
    ensures p.pageSize > 0 ==> HandleCurrentChange(p, v).offset / p.pageSize == v - 1
  {
    var k := v - 1;
    assert k >= 0;
    assert HandleCurrentChange(p, v).offset == k * p.pageSize;
    if p.pageSize > 0 {
      MultipleDiv(k, p.pageSize);
    }
  }

  lemma MultipleDiv(k: int, n: int)
    requires k >= 0 && n > 0
    ensures (k * n) % n == 0 && (k * n) / n == k
  {
    var a := k * n;
    var q, r := a / n, a % n;
    assert a == q * n + r && 0 <= r < n;
    var d := k - q;
    assert d * n == r by { assert d * n == k * n - q * n; }
  }

  /** A size change leaves the offset stale: it is recomputed only at the
      next page change, with the new size. */
  lemma SizeChangeThenPageChange(p: Pagination, size: int, page: int)
    ensures HandleSizeChange(p, size).offset == p.offset
    ensures HandleCurrentChange(HandleSizeChange(p, size), page).offset == (page - 1) * size
  {
  }
}
