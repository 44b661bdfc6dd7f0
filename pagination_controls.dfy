/**
  The pagination bar: a Previous button, one button per page, a Next button.
  The page buttons come from a loop that pushes `1 .. totalPages`.
*/
module PaginationControls {

  /** The `for` loop building `pageNumbers`. */
  method PageNumbers(totalPages: int) returns (pages: seq<int>)
    ensures |pages| == (if totalPages < 1 then 0 else totalPages)
    ensures forall i :: 0 <= i < |pages| ==> pages[i] == i + 1
  {
    pages := [];
    var i := 1;
    while i <= totalPages
      invariant 1 <= i && (totalPages < 1 ==> i == 1) && (totalPages >= 1 ==> i <= totalPages + 1)
      invariant |pages| == i - 1
      invariant forall k :: 0 <= k < |pages| ==> pages[k] == k + 1
      decreases totalPages - i
    {
      pages := pages + [i];
      i := i + 1;
    }
  }

  /** The page list is strictly ascending and holds exactly the pages `1 .. totalPages`. */
  lemma PageListIsTheRange(pages: seq<int>, totalPages: int)
    requires |pages| == (if totalPages < 1 then 0 else totalPages)
    requires forall i :: 0 <= i < |pages| ==> pages[i] == i + 1
    ensures forall i, j :: 0 <= i < j < |pages| ==> pages[i] < pages[j]
    ensures forall n :: n in pages <==> 1 <= n <= totalPages
  {
    forall n | 1 <= n <= totalPages ensures n in pages {
      assert pages[n - 1] == n;
    }
  }

  /** Previous asks for the page before the current one. */
  function PreviousTarget(currentPage: int): int { currentPage - 1 }

  /** Previous is disabled on page 1 only. */
  predicate PreviousDisabled(currentPage: int) { currentPage == 1 }

  /** Next asks for the page after the current one. */
  function NextTarget(currentPage: int): int { currentPage + 1 }

  /** Next is disabled on the last page only. */
  predicate NextDisabled(currentPage: int, totalPages: int) { currentPage == totalPages }

  /** The button of page `n` is marked active. */
  predicate IsActive(currentPage: int, n: int) { currentPage == n }

  /** Within range, exactly one page button is active: the current page's. */
  lemma ExactlyOneActive(pages: seq<int>, totalPages: int, currentPage: int)
    requires |pages| == (if totalPages < 1 then 0 else totalPages)
    requires forall i :: 0 <= i < |pages| ==> pages[i] == i + 1
    requires 1 <= currentPage <= totalPages
    ensures IsActive(currentPage, pages[currentPage - 1])
    ensures forall i :: 0 <= i < |pages| && IsActive(currentPage, pages[i]) ==> i == currentPage - 1
  {
  }
}
