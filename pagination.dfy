/** The page arithmetic shared by the sales, products and categories tables:
    the row range asked of the server for a page, the number of pages, the
    previous/next buttons and the list of numbered buttons. */
module Pagination {

  /** Rows per page of the sales table and of the products table. */
  const SalesPerPage: int := 8
  /** Rows per page of the categories table. */
  const CategoriesPerPage: int := 10

  /** An inclusive range of row offsets, as passed to `query.range(from, to)`. */
  datatype Range = Range(from: int, to: int)

  /** `from = (page - 1) * perPage; to = from + perPage - 1`: the rows of page
      `page` (pages count from 1). */
  function PageRange(page: int, perPage: int): (r: Range)
    requires page >= 1 && perPage >= 1
    ensures 0 <= r.from <= r.to
    ensures r.to - r.from + 1 == perPage
  {
    var from := (page - 1) * perPage;
    Range(from, from + perPage - 1)
  }

  /** The page that shows the row at offset `index`. */
  function PageOf(index: int, perPage: int): (p: int)
    requires index >= 0 && perPage >= 1
    ensures p >= 1
  {
    index / perPage + 1
  }

  /** A row offset lies in the range of exactly one page: the one PageOf names. */
  lemma PageRangeHoldsExactlyItsRows(page: int, perPage: int, index: int)
    requires page >= 1 && perPage >= 1 && index >= 0
    ensures PageRange(page, perPage).from <= index <= PageRange(page, perPage).to
            <==> PageOf(index, perPage) == page
  {
    var q := index / perPage;
    assert index == q * perPage + index % perPage;
    if PageOf(index, perPage) == page {
      assert q == page - 1;
    } else if q < page - 1 {
      assert q + 1 <= page - 1;
      assert (q + 1) * perPage <= (page - 1) * perPage;
    } else {
      assert q >= page;
      assert q * perPage >= page * perPage;
    }
  }

  /** Consecutive pages ask for adjacent ranges: nothing is skipped or shown twice. */
  lemma ConsecutivePagesAreAdjacent(page: int, perPage: int)
    requires page >= 1 && perPage >= 1
    ensures PageRange(page + 1, perPage).from == PageRange(page, perPage).to + 1
  {
  }

  /** `Math.ceil(count / perPage)` for a non-negative row count. */
  function TotalPages(count: int, perPage: int): (n: int)
    requires count >= 0 && perPage >= 1
    ensures n >= 0
    ensures n * perPage >= count
    ensures n == 0 || (n - 1) * perPage < count
  {
    var n := (count + perPage - 1) / perPage;
    assert count + perPage - 1 == n * perPage + (count + perPage - 1) % perPage;
    n
  }

  /** `Math.max(1, page - 1)`: the page the "previous" button goes to. */
  function Prev(page: int): (p: int)
    ensures p >= 1
    ensures p == page - 1 || (p == 1 && page <= 2)
  {
    if 1 > page - 1 then 1 else page - 1
  }

  /** `Math.min(totalPages, page + 1)`: the page the "next" button goes to. */
  function Next(page: int, totalPages: int): (p: int)
    ensures p <= totalPages
    ensures p == page + 1 || (p == totalPages && totalPages <= page + 1)
  {
    if totalPages < page + 1 then totalPages else page + 1
  }

  /** The "previous" button is disabled on page 1 (`disabled={currentPage === 1}`). */
  predicate PrevDisabled(page: int) {
    page == 1
  }

  /** The "next" button is disabled on the last page. */
  predicate NextDisabled(page: int, totalPages: int) {
    page == totalPages
  }

  /** The pager is rendered only when there is more than one page. */
  predicate PagerShown(totalPages: int) {
    totalPages > 1
  }

  /** `Array.from({ length: totalPages }, (_, i) => i + 1)`: the numbered buttons. */
  function PageButtons(totalPages: int): (b: seq<int>)
    requires totalPages >= 0
    ensures |b| == totalPages
    ensures forall i :: 0 <= i < |b| ==> b[i] == i + 1
  {
    seq(totalPages, i => i + 1)
  }

  /** The numbered buttons are exactly the pages 1 to totalPages, each once. */
  lemma PageButtonsAreTheValidPages(totalPages: int, page: int)
    requires totalPages >= 0
    ensures page in PageButtons(totalPages) <==> 1 <= page <= totalPages
  {
    if 1 <= page <= totalPages {
      assert PageButtons(totalPages)[page - 1] == page;
    }
  }

  /** From any valid page the previous and next buttons lead to a valid page,
      and each button leaves the page unchanged exactly when it is disabled. */
  lemma PrevNextStayInRange(page: int, totalPages: int)
    requires 1 <= page <= totalPages
    ensures 1 <= Prev(page) <= totalPages && 1 <= Next(page, totalPages) <= totalPages
    ensures Prev(page) == page <==> PrevDisabled(page)
    ensures Next(page, totalPages) == page <==> NextDisabled(page, totalPages)
  {
  }

  /** Every row of a list of `count` rows lies on one of the numbered pages
      when the page count comes from the full row count (as CategoriesPage does
      with the server's total). */
  lemma {:induction false} EveryRowIsOnANumberedPage(count: int, perPage: int, index: int)
    requires count >= 0 && perPage >= 1 && 0 <= index < count
    ensures PageOf(index, perPage) in PageButtons(TotalPages(count, perPage))
    ensures PageRange(PageOf(index, perPage), perPage).from <= index
            <= PageRange(PageOf(index, perPage), perPage).to
  {
    var n := TotalPages(count, perPage);
    var p := PageOf(index, perPage);
    var q := index / perPage;
    assert q * perPage <= index by {
      assert index == q * perPage + index % perPage;
    }
    FactorsOfSmallerProduct(q, n, perPage);
    PageButtonsAreTheValidPages(n, p);
    PageRangeHoldsExactlyItsRows(p, perPage, index);
  }

  /** As written, the sales and products pages count pages from the rows of
      the page they fetched, at most `perPage` of them: the count is never
      above 1, so the pager is never shown. */
  lemma FetchedPageCountsOnePage(rowsOnPage: int, perPage: int)
    requires 0 <= rowsOnPage <= perPage && perPage >= 1
    ensures TotalPages(rowsOnPage, perPage) <= 1
    ensures !PagerShown(TotalPages(rowsOnPage, perPage))
  {
    var n := TotalPages(rowsOnPage, perPage);
    if n > 0 {
      FactorsOfSmallerProduct(n - 1, 1, perPage);
    }
  }

  /** With a positive factor k, q * k < n * k forces q < n. */
  lemma FactorsOfSmallerProduct(q: int, n: int, k: int)
    requires k >= 1 && q * k < n * k
    ensures q < n
  {
  }
}
