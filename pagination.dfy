/** `buildPaginationMeta` of utils/pagination.js. */
module Pagination {
  import opened Common

  /** `Math.ceil(total / limit)` is a finite integer or, for a zero limit, an infinity. */
  datatype TotalPages = Pages(n: int) | PlusInfinity | MinusInfinity

  datatype PaginationMeta = PaginationMeta(page: int, limit: int, total: int, totalPages: TotalPages)

  /** `Math.ceil(total / limit) || 1`: zero, negative zero and NaN (0 / 0) all become 1, so a
      zero total gives one page whatever the limit. */
  function BuildPaginationMeta(page: int, limit: int, total: int): (m: PaginationMeta)
    ensures m.page == page && m.limit == limit && m.total == total
    ensures total == 0 ==> m.totalPages == Pages(1)
    ensures limit == 0 && total > 0 ==> m.totalPages == PlusInfinity
    ensures limit == 0 && total < 0 ==> m.totalPages == MinusInfinity
    ensures limit != 0 ==> m.totalPages.Pages? && m.totalPages.n != 0
    ensures limit > 0 && total > 0 ==>
      m.totalPages.Pages? && (m.totalPages.n - 1) * limit < total <= m.totalPages.n * limit
  {
    var totalPages :=
      if total == 0 then Pages(1)
      else if limit == 0 then
        (if total > 0 then PlusInfinity else MinusInfinity)
      else
        var c := CeilDiv(total, limit);
        if c == 0 then Pages(1) else Pages(c);
    PaginationMeta(page, limit, total, totalPages)
  }

  /** With a positive limit and a non-negative total there is at least one page, and the
      pages are just enough to hold every item. */
  lemma TotalPagesAtLeastOne(page: int, limit: int, total: int)
    requires limit > 0 && total >= 0
    ensures BuildPaginationMeta(page, limit, total).totalPages.Pages?
    ensures var n := BuildPaginationMeta(page, limit, total).totalPages.n;
      n >= 1 && total <= n * limit && (total == 0 || (n - 1) * limit < total)
  {
    var n := BuildPaginationMeta(page, limit, total).totalPages.n;
    if total > 0 {
      assert 0 < n * limit;
      if n < 1 {
        ProductSign(n, limit);
      }
    }
  }

  lemma ProductSign(n: int, limit: int)
    requires n <= 0 && limit > 0
    ensures n * limit <= 0
  {
  }

  lemma PaginationExamples()
    ensures BuildPaginationMeta(1, 10, 25).totalPages == Pages(3)
    ensures BuildPaginationMeta(1, 10, 30).totalPages == Pages(3)
    ensures BuildPaginationMeta(1, 10, 0).totalPages == Pages(1)
    ensures BuildPaginationMeta(1, 0, 0).totalPages == Pages(1)
    ensures BuildPaginationMeta(1, 0, 5).totalPages == PlusInfinity
  {
  }
}
