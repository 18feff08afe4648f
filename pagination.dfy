/**
 * Page arithmetic of the contract table: the page count, the slice shown on
 * a page, the page reset and the window of page buttons.
 */
module Pagination {

  /** The page sizes the page-size select offers. */
  const PageSizes: set<int> := {10, 20, 50, 100}

  /** `Math.ceil(n / size)`. */
  function CeilDiv(n: nat, size: nat): (k: nat)
    requires size > 0
    ensures n <= k * size
    ensures k > 0 ==> (k - 1) * size < n
  {
    (n + size - 1) / size
  }

  /** `Math.ceil(n / size) || 1`: never fewer than one page. */
  function TotalPages(n: nat, size: nat): (t: nat)
    requires size > 0
    ensures t >= 1
    ensures n <= t * size
    ensures n > 0 ==> (t - 1) * size < n
  {
    var total := CeilDiv(n, size);
    if total == 0 then 1 else total
  }

  /** `view.slice((page - 1) * size, (page - 1) * size + size)` for a page from 1 on. */
  function PageItems<T>(view: seq<T>, page: nat, size: nat): (r: seq<T>)
    requires page >= 1
    ensures |r| <= size
    ensures (page - 1) * size <= |view| ==> r == view[(page - 1) * size .. Min(page * size, |view|)]
    ensures (page - 1) * size >= |view| ==> r == []
  {
    var start := (page - 1) * size;
    PageEnd(page, size);
    if start >= |view| then [] else view[start .. Min(page * size, |view|)]
  }

  /** A page ends one page size after it starts. */
  lemma PageEnd(page: nat, size: nat)
    requires page >= 1
    ensures page * size == (page - 1) * size + size
  {
  }

  function Min(a: int, b: int): int {
    if a <= b then a else b
  }

  function Max(a: int, b: int): int {
    if a >= b then a else b
  }

  /**
   * The page the pagination effect leaves: a page past the last one goes back
   * to 1, except when the view is empty (`total` is 0), where the page is kept.
   */
  function SettledPage(page: nat, n: nat, size: nat): (p: nat)
    requires size > 0
    ensures page > CeilDiv(n, size) > 0 ==> p == 1
    ensures page <= CeilDiv(n, size) || CeilDiv(n, size) == 0 ==> p == page
    ensures CeilDiv(n, size) > 0 && page >= 1 ==> 1 <= p <= CeilDiv(n, size)
  {
    var total := CeilDiv(n, size);
    if page > total && total > 0 then 1 else page
  }

  /** Pages `1 .. TotalPages` laid end to end give back the view. */
  function Pages<T>(view: seq<T>, size: nat, count: nat): seq<T>
    requires size > 0
  {
    if count == 0 then [] else Pages(view, size, count - 1) + PageItems(view, count, size)
  }

  lemma {:induction false} PagesPrefix<T>(view: seq<T>, size: nat, count: nat)
    requires size > 0
    ensures Pages(view, size, count) == view[..Min(count * size, |view|)]
    decreases count
  {
    if count > 0 {
      PagesPrefix(view, size, count - 1);
      var lo := Min((count - 1) * size, |view|);
      if (count - 1) * size <= |view| {
        assert view[..lo] + view[lo .. Min(count * size, |view|)] == view[..Min(count * size, |view|)];
      }
    }
  }

  /** Every record of the view is on exactly one page, in view order. */
  lemma PagesCoverView<T>(view: seq<T>, size: nat)
    requires size > 0
    ensures Pages(view, size, TotalPages(|view|, size)) == view
  {
    PagesPrefix(view, size, TotalPages(|view|, size));
    assert view[..|view|] == view;
  }

  /** The page-number buttons: at most five consecutive pages around the current one. */
  method PageNumbers(currentPage: int, totalPages: int) returns (pages: seq<int>)
    requires totalPages >= 1
    ensures 1 <= |pages| <= 5
    ensures forall k :: 0 <= k < |pages| ==> 1 <= pages[k] <= totalPages
    ensures forall k :: 0 < k < |pages| ==> pages[k] == pages[k - 1] + 1
    ensures |pages| == Min(5, totalPages)
    ensures pages[0] == Max(1, Min(currentPage - 2, totalPages - 4))
    ensures 1 <= currentPage <= totalPages ==> currentPage in pages
  {
    var showMax := 5;
    var startPage := Max(1, currentPage - showMax / 2);
    var endPage := Min(totalPages, startPage + showMax - 1);
    if endPage - startPage + 1 < showMax {
      startPage := Max(1, endPage - showMax + 1);
    }
    pages := [];
    var i := startPage;
    while i <= endPage
      invariant startPage <= i <= endPage + 1
      invariant |pages| == i - startPage
      invariant forall k :: 0 <= k < |pages| ==> pages[k] == startPage + k
    {
      pages := pages + [i];
      i := i + 1;
    }
    if 1 <= currentPage <= totalPages {
      assert pages[currentPage - startPage] == currentPage;
    }
  }
}
