/**
 * Page arithmetic shared by every list page: the page count, the slice of
 * rows a page shows (`Array.prototype.slice`), and the shared pagination
 * bar, which hides itself for a single page and disables its buttons at the
 * ends.
 */
module Paging {
  /** Rows per page on every list page. */
  const RowsPerPage: nat := 20

  /** `Math.ceil(total / perPage)`. */
  function TotalPages(total: nat, perPage: nat): (r: nat)
    requires perPage > 0
    ensures total <= r * perPage
    ensures r == 0 || (r - 1) * perPage < total
  {
    CeilFacts(total, perPage);
    (total + perPage - 1) / perPage
  }

  lemma CeilFacts(total: nat, perPage: nat)
    requires perPage > 0
    ensures var r := (total + perPage - 1) / perPage;
      total <= r * perPage && (r == 0 || (r - 1) * perPage < total)
  {
    var r := (total + perPage - 1) / perPage;
    var m := (total + perPage - 1) % perPage;
    assert total + perPage - 1 == r * perPage + m;
    if r > 0 {
      assert (r - 1) * perPage == r * perPage - perPage;
    }
  }

  /** How `slice` reads one of its bounds: negative counts from the end, both clamped to the length. */
  function SliceIndex(i: int, n: nat): (r: nat)
    ensures r <= n
  {
    if i < 0 then (if n + i < 0 then 0 else n + i) else if i > n then n else i
  }

  /** `xs.slice(start, end)`. */
  function JsSlice<T>(xs: seq<T>, start: int, end: int): seq<T>
  {
    var s := SliceIndex(start, |xs|);
    var e := SliceIndex(end, |xs|);
    if e <= s then [] else xs[s..e]
  }

  function Min(a: int, b: int): int
  {
    if a <= b then a else b
  }

  /** The rows page `page` shows: `xs.slice((page - 1) * perPage, page * perPage)`. */
  function PageSlice<T>(xs: seq<T>, page: int, perPage: nat): seq<T>
  {
    JsSlice(xs, (page - 1) * perPage, page * perPage)
  }

  /** For a page numbered from one, the slice is the rows from `(page - 1) * perPage` on, at most `perPage` of them. */
  lemma PageSliceIs<T>(xs: seq<T>, page: int, perPage: nat)
    requires page >= 1
    ensures var lo := Min((page - 1) * perPage, |xs|);
      var hi := Min(page * perPage, |xs|);
      lo <= hi && PageSlice(xs, page, perPage) == xs[lo..hi] && hi - lo <= perPage
  {
    assert page * perPage == (page - 1) * perPage + perPage;
    assert (page - 1) * perPage >= 0;
  }

  /** The pages from the first to `k` laid end to end. */
  function Pages<T>(xs: seq<T>, k: nat, perPage: nat): seq<T>
  {
    if k == 0 then [] else Pages(xs, k - 1, perPage) + PageSlice(xs, k, perPage)
  }

  lemma {:induction false} PagesPrefix<T>(xs: seq<T>, k: nat, perPage: nat)
    ensures Pages(xs, k, perPage) == xs[..Min(k * perPage, |xs|)]
  {
    if k > 0 {
      PagesPrefix(xs, k - 1, perPage);
      PageSliceIs(xs, k, perPage);
      assert (k - 1) * perPage == k * perPage - perPage;
      var lo := Min((k - 1) * perPage, |xs|);
      var hi := Min(k * perPage, |xs|);
      assert xs[..lo] + xs[lo..hi] == xs[..hi];
    }
  }

  /** Every row appears on exactly one page: the pages in order give back the whole list. */
  lemma PagesCoverAll<T>(xs: seq<T>, perPage: nat)
    requires perPage > 0
    ensures Pages(xs, TotalPages(|xs|, perPage), perPage) == xs
  {
    PagesPrefix(xs, TotalPages(|xs|, perPage), perPage);
  }

  /** A page between the first and the last is never empty; a page after the last always is. */
  lemma PageEmptiness<T>(xs: seq<T>, page: int, perPage: nat)
    requires perPage > 0 && page >= 1
    ensures (PageSlice(xs, page, perPage) == []) <==> page > TotalPages(|xs|, perPage)
  {
    PageSliceIs(xs, page, perPage);
    StartPastEnd(page, perPage, |xs|);
    assert page * perPage == (page - 1) * perPage + perPage;
  }

  lemma StartPastEnd(page: int, perPage: nat, len: nat)
    requires perPage > 0 && page >= 1
    ensures ((page - 1) * perPage >= len) <==> page > TotalPages(len, perPage)
  {
    var n := TotalPages(len, perPage);
    var k: nat := page - 1;
    if page > n {
      MulMono(n, k, perPage);
    } else {
      MulMono(k, n - 1, perPage);
    }
  }

  lemma MulMono(a: nat, b: nat, c: nat)
    requires a <= b
    ensures a * c <= b * c
  {
  }

  /** The pagination bar is shown only when there is more than one page. */
  predicate BarShown(total: nat, perPage: nat)
    requires perPage > 0
  {
    TotalPages(total, perPage) > 1
  }

  /** The bar shows exactly when the rows do not fit on one page. */
  lemma BarShownRule(total: nat, perPage: nat)
    requires perPage > 0
    ensures BarShown(total, perPage) <==> total > perPage
  {
    var r := TotalPages(total, perPage);
    if r > 1 {
      MulMono(1, r - 1, perPage);
    } else if r == 1 {
      assert total <= perPage;
    } else {
      assert total <= 0;
    }
  }

  predicate PreviousDisabled(page: int)
  {
    page == 1
  }

  predicate NextDisabled(page: int, totalPages: nat)
  {
    page == totalPages
  }

  /**
   * From any page in range, an enabled button of the bar asks for a page
   * that is in range too.
   */
  lemma BarRequestsStayInRange(page: int, total: nat, perPage: nat)
    requires perPage > 0 && 1 <= page <= TotalPages(total, perPage)
    ensures !PreviousDisabled(page) ==> 1 <= page - 1 <= TotalPages(total, perPage)
    ensures !NextDisabled(page, TotalPages(total, perPage)) ==> 1 <= page + 1 <= TotalPages(total, perPage)
  {
  }
}
