/**
 * The card picker's paging rules, the same in the main page and in the
 * three category calculators: twelve cards a page, the page slice, the
 * "Showing a-b of n" text and the row of page buttons with ellipses.
 */
module Pagination {

  const CardsPerPage: nat := 12

  /** `Math.ceil(n / 12)`. */
  function TotalPages(n: nat): (t: nat)
    ensures (t - 1) * CardsPerPage < n <= t * CardsPerPage || (n == 0 && t == 0)
  {
    (n + CardsPerPage - 1) / CardsPerPage
  }

  /** A button for a page number, or an ellipsis between two buttons. */
  datatype PageItem = PageButton(page: int) | Ellipsis

  /**
   * The buttons shown: every page when there are at most five; otherwise
   * the first three and the last near the start, the first and the last
   * three near the end, and the first, the current with its neighbours and
   * the last in between, with an ellipsis over every gap.
   */
  function PageWindow(totalPages: nat, currentPage: int): (r: seq<PageItem>)
    ensures |r| <= 7
    ensures r == [] <==> totalPages == 0
    ensures forall i :: 0 <= i < |r| && r[i].PageButton? ==> 1 <= r[i].page <= totalPages
    ensures totalPages >= 1 ==> r[0] == PageButton(1) && r[|r| - 1] == PageButton(totalPages)
  {
    if totalPages <= 5 then seq(totalPages, i requires 0 <= i < totalPages => PageButton(i + 1))
    else if currentPage <= 3 then
      [PageButton(1), PageButton(2), PageButton(3)] + (if totalPages > 4 then [Ellipsis, PageButton(totalPages)] else [])
    else if currentPage >= totalPages - 2 then
      [PageButton(1), Ellipsis, PageButton(totalPages - 2), PageButton(totalPages - 1), PageButton(totalPages)]
    else
      [PageButton(1), Ellipsis, PageButton(currentPage - 1), PageButton(currentPage), PageButton(currentPage + 1),
       Ellipsis, PageButton(totalPages)]
  }

  /** `renderPagination`'s loops that append the buttons one by one. */
  method RenderPageNumbers(totalPages: nat, currentPage: int) returns (items: seq<PageItem>)
    ensures items == PageWindow(totalPages, currentPage)
  {
    items := [];
    if totalPages <= 5 {
      var i := 1;
      while i <= totalPages
        invariant 1 <= i <= totalPages + 1
        invariant items == seq(i - 1, k requires 0 <= k < i - 1 => PageButton(k + 1))
      {
        items := items + [PageButton(i)];
        i := i + 1;
      }
    } else if currentPage <= 3 {
      var i := 1;
      while i <= 3
        invariant 1 <= i <= 4
        invariant items == seq(i - 1, k requires 0 <= k < i - 1 => PageButton(k + 1))
      {
        items := items + [PageButton(i)];
        i := i + 1;
      }
      if totalPages > 4 {
        items := items + [Ellipsis, PageButton(totalPages)];
      }
    } else if currentPage >= totalPages - 2 {
      items := [PageButton(1), Ellipsis];
      var i := totalPages - 2;
      while i <= totalPages
        invariant totalPages - 2 <= i <= totalPages + 1
        invariant items == [PageButton(1), Ellipsis] + seq(i - (totalPages - 2), k requires 0 <= k < i - (totalPages - 2) => PageButton(totalPages - 2 + k))
      {
        items := items + [PageButton(i)];
        i := i + 1;
      }
    } else {
      items := [PageButton(1), Ellipsis];
      var i := currentPage - 1;
      while i <= currentPage + 1
        invariant currentPage - 1 <= i <= currentPage + 2
        invariant items == [PageButton(1), Ellipsis] + seq(i - (currentPage - 1), k requires 0 <= k < i - (currentPage - 1) => PageButton(currentPage - 1 + k))
      {
        items := items + [PageButton(i)];
        i := i + 1;
      }
      items := items + [Ellipsis, PageButton(totalPages)];
    }
  }

  predicate Listed(items: seq<PageItem>, page: int) {
    exists i :: 0 <= i < |items| && items[i] == PageButton(page)
  }

  /**
   * The buttons are strictly increasing page numbers within 1 .. totalPages,
   * the first and the last page are always listed, and so is the current
   * page when it is a page.
   */
  lemma PageWindowListsPages(totalPages: nat, currentPage: int)
    requires totalPages >= 1
    ensures var items := PageWindow(totalPages, currentPage);
      && (forall i :: 0 <= i < |items| && items[i].PageButton? ==> 1 <= items[i].page <= totalPages)
      && (forall i, j :: 0 <= i < j < |items| && items[i].PageButton? && items[j].PageButton? ==>
            items[i].page < items[j].page)
      && Listed(items, 1) && Listed(items, totalPages)
      && (1 <= currentPage <= totalPages ==> Listed(items, currentPage))
  {
    var items := PageWindow(totalPages, currentPage);
    if totalPages <= 5 {
      assert items[0] == PageButton(1);
      assert items[totalPages - 1] == PageButton(totalPages);
      if 1 <= currentPage <= totalPages {
        assert items[currentPage - 1] == PageButton(currentPage);
      }
    } else if currentPage <= 3 {
      assert items[0] == PageButton(1);
      assert items[4] == PageButton(totalPages);
      if 1 <= currentPage {
        assert items[currentPage - 1] == PageButton(currentPage);
      }
    } else if currentPage >= totalPages - 2 {
      assert items[0] == PageButton(1);
      assert items[4] == PageButton(totalPages);
      if currentPage <= totalPages {
        assert items[currentPage - totalPages + 4] == PageButton(currentPage);
      }
    } else {
      assert items[0] == PageButton(1);
      assert items[6] == PageButton(totalPages);
      assert items[3] == PageButton(currentPage);
    }
  }

  /** Every ellipsis stands between two buttons whose pages are more than one apart. */
  lemma EllipsisMarksAGap(totalPages: nat, currentPage: int)
    ensures var items := PageWindow(totalPages, currentPage);
      forall i :: 0 <= i < |items| && items[i].Ellipsis? ==>
        && 0 < i < |items| - 1
        && items[i - 1].PageButton? && items[i + 1].PageButton?
        && items[i + 1].page - items[i - 1].page > 1
  {
  }

  /** `Array.prototype.slice(start, end)` with its clamping of negative and too large bounds. */
  function JsSlice<T>(s: seq<T>, start: int, end: int): (r: seq<T>)
    ensures |r| <= |s|
    ensures start <= end ==> |r| <= end - start
  {
    var n := |s|;
    var from := if start < 0 then (if n + start < 0 then 0 else n + start) else (if start > n then n else start);
    var to := if end < 0 then (if n + end < 0 then 0 else n + end) else (if end > n then n else end);
    if from < to then s[from..to] else []
  }

  /** The cards shown on a page: at most twelve, from `(page - 1) * 12` on. */
  function PageSlice<T>(cards: seq<T>, page: int): (r: seq<T>)
    ensures |r| <= CardsPerPage
    ensures page >= 1 ==> forall i :: 0 <= i < |r| ==>
      (page - 1) * CardsPerPage + i < |cards| && r[i] == cards[(page - 1) * CardsPerPage + i]
  {
    var start := (page - 1) * CardsPerPage;
    JsSlice(cards, start, start + CardsPerPage)
  }

  /** The numbers of the "Showing start-end of n cards" text. */
  function PageInfo(n: nat, page: int): (r: (int, int))
    ensures r.1 <= n && r.1 <= page * CardsPerPage
    ensures r.1 == n || r.1 == page * CardsPerPage
    ensures r.1 - r.0 < CardsPerPage
    ensures page >= 1 ==> r.0 >= 1
  {
    ((page - 1) * CardsPerPage + 1, if page * CardsPerPage < n then page * CardsPerPage else n)
  }

  /**
   * On a page within range the text names exactly the slice: its first
   * card is number `start`, its last number `end`.
   */
  lemma PageInfoMatchesSlice<T>(cards: seq<T>, page: int)
    requires 1 <= page <= TotalPages(|cards|)
    ensures var (start, end) := PageInfo(|cards|, page);
      && 1 <= start <= end <= |cards|
      && |PageSlice(cards, page)| == end - start + 1
      && PageSlice(cards, page) == cards[start - 1..end]
  {
  }

  /** Every card is reachable: card `i` sits on page `i / 12 + 1`, at position `i % 12`. */
  lemma EveryCardIsOnAPage<T>(cards: seq<T>, i: nat)
    requires i < |cards|
    ensures var page := i / CardsPerPage + 1;
      && 1 <= page <= TotalPages(|cards|)
      && i % CardsPerPage < |PageSlice(cards, page)|
      && PageSlice(cards, page)[i % CardsPerPage] == cards[i]
  {
    var page := i / CardsPerPage + 1;
    var t := TotalPages(|cards|);
    assert (page - 1) * CardsPerPage + i % CardsPerPage == i;
    assert (t - 1) * CardsPerPage < |cards| <= t * CardsPerPage;
    assert page <= t;
    PageInfoMatchesSlice(cards, page);
  }
}
