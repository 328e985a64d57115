/** The `Pagination` component (`src/components/ui/pagination.jsx`): which
    buttons it draws and which page changes a click requests. */
module Pagination {
  import opened Wrappers

  /** What the component renders: nothing, or the Prev button, one button
      per page (with the current one highlighted) and the Next button. */
  datatype View =
    | Hidden
    | Nav(pages: seq<int>, highlighted: seq<bool>, prevDisabled: bool, nextDisabled: bool)

  /** `!totalPages || totalPages <= 1`: a missing, zero or single-page
      total draws nothing. */
  predicate HiddenFor(total: Option<int>) {
    total.None? || total.value <= 1
  }

  /** The page list built by the `for` loop: `1, 2, ..., total`. */
  method PageList(total: int) returns (pages: seq<int>)
    requires total >= 0
    ensures |pages| == total
    ensures forall i :: 0 <= i < |pages| ==> pages[i] == i + 1
  {
    pages := [];
    var i := 1;
    while i <= total
      invariant 1 <= i <= total + 1
      invariant |pages| == i - 1
      invariant forall k :: 0 <= k < |pages| ==> pages[k] == k + 1
    {
      pages := pages + [i];
      i := i + 1;
    }
  }

  /** `goToPage(page)`: the page handed to `onPageChange`, if any. Pages
      outside `1..total` and the current page are ignored, and nothing is
      called without a handler. */
  function GoToPage(page: int, current: int, total: int, hasHandler: bool): (r: Option<int>)
    ensures r.Some? <==> hasHandler && 1 <= page <= total && page != current
    ensures r.Some? ==> r.value == page
  {
    if page < 1 || page > total || page == current then None
    else if hasHandler then Some(page) else None
  }

  /** The rendered component. */
  method Render(current: int, total: Option<int>) returns (v: View)
    ensures v.Hidden? <==> HiddenFor(total)
    ensures v.Nav? ==> |v.pages| == total.value && |v.highlighted| == total.value
    ensures v.Nav? ==> forall i :: 0 <= i < |v.pages| ==> v.pages[i] == i + 1
    ensures v.Nav? ==> forall i :: 0 <= i < |v.highlighted| ==> (v.highlighted[i] <==> i + 1 == current)
    ensures v.Nav? ==> (v.prevDisabled <==> current == 1) && (v.nextDisabled <==> current == total.value)
  {
    if HiddenFor(total) {
      return Hidden;
    }
    var pages := PageList(total.value);
    var highlighted := seq(|pages|, i requires 0 <= i < |pages| => pages[i] == current);
    v := Nav(pages, highlighted, current == 1, current == total.value);
  }

  /** For a current page inside the range, a disabled Prev or Next button
      is exactly one whose click would be ignored: the disabled flags and
      the guard in `goToPage` agree. */
  lemma ButtonsAgreeWithGuard(current: int, total: int)
    requires total > 1 && 1 <= current <= total
    ensures GoToPage(current - 1, current, total, true).None? <==> current == 1
    ensures GoToPage(current + 1, current, total, true).None? <==> current == total
  {
  }

  /** Exactly one page button is highlighted when the current page is in
      range, and none otherwise. */
  lemma OneHighlighted(v: View, current: int, total: int)
    requires v.Nav? && |v.highlighted| == total
    requires forall i :: 0 <= i < |v.highlighted| ==> (v.highlighted[i] <==> i + 1 == current)
    ensures 1 <= current <= total ==> v.highlighted[current - 1]
    ensures forall i, j :: 0 <= i < j < |v.highlighted| ==> !(v.highlighted[i] && v.highlighted[j])
    ensures !(1 <= current <= total) ==> forall i :: 0 <= i < |v.highlighted| ==> !v.highlighted[i]
  {
  }

  /** A click on a page button requests that page exactly when it is not
      the current one. */
  lemma PageButtonRequests(page: int, current: int, total: int)
    requires 1 <= page <= total
    ensures GoToPage(page, current, total, true) == (if page == current then None else Some(page))
  {
  }
}
