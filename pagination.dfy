/** The numbered page strip of the bid search screen, the "Showing X to Y
    of Z" range, and which page each pagination control asks for. */
module Pagination {

  import opened Common

  /** One slot of the strip: a page button or an ellipsis. */
  datatype PageEntry = Page(n: int) | Ellipsis

  /** Strips of at most this many pages are shown in full. */
  const MaxVisible := 5

  /** The buttons `Page(lo), Page(lo + 1), ..., Page(hi - 1)`. */
  function Run(lo: int, hi: int): (r: seq<PageEntry>)
    ensures |r| == if hi <= lo then 0 else hi - lo
    ensures forall k :: 0 <= k < |r| ==> r[k] == Page(lo + k)
  {
    if hi <= lo then [] else seq(hi - lo, k requires 0 <= k < hi - lo => Page(lo + k))
  }

  lemma RunSnoc(lo: int, hi: int)
    requires lo <= hi
    ensures Run(lo, hi + 1) == Run(lo, hi) + [Page(hi)]
  {
    assert Run(lo, hi + 1) == Run(lo, hi) + [Page(hi)];
  }

  /** The strip for `currentPage` of `lastPage`: all pages when there are at
      most five, otherwise the first and last page, a window of pages, and an
      ellipsis for each hidden stretch. */
  function PageStrip(currentPage: int, lastPage: int): seq<PageEntry> {
    if lastPage <= MaxVisible then
      Run(1, lastPage + 1)
    else if currentPage <= 3 then
      Run(1, 5) + [Ellipsis, Page(lastPage)]
    else if currentPage >= lastPage - 2 then
      [Page(1), Ellipsis] + Run(lastPage - 3, lastPage + 1)
    else
      [Page(1), Ellipsis] + Run(currentPage - 1, currentPage + 2) + [Ellipsis, Page(lastPage)]
  }

  /** Pushes `Page(lo) .. Page(hi - 1)` onto `pages`, one per loop turn. */
  method PushRun(pages: seq<PageEntry>, lo: int, hi: int) returns (r: seq<PageEntry>)
    ensures r == pages + Run(lo, hi)
  {
    r := pages;
    var i := lo;
    while i < hi
      invariant lo <= i && (i <= hi || i == lo)
      invariant r == pages + Run(lo, i)
    {
      RunSnoc(lo, i);
      r := r + [Page(i)];
      i := i + 1;
    }
  }

  /** getPageNumbers: builds the strip by pushing entries in order. */
  method GetPageNumbers(currentPage: int, lastPage: int) returns (pages: seq<PageEntry>)
    ensures pages == PageStrip(currentPage, lastPage)
    ensures 1 <= currentPage <= lastPage ==> WellFormedStrip(pages, currentPage, lastPage)
  {
    pages := [];
    if lastPage <= MaxVisible {
      pages := PushRun(pages, 1, lastPage + 1);
    } else {
      if currentPage <= 3 {
        pages := PushRun(pages, 1, 5);
        pages := pages + [Ellipsis];
        pages := pages + [Page(lastPage)];
      } else if currentPage >= lastPage - 2 {
        pages := pages + [Page(1)];
        pages := pages + [Ellipsis];
        pages := PushRun(pages, lastPage - 3, lastPage + 1);
      } else {
        pages := pages + [Page(1)];
        pages := pages + [Ellipsis];
        pages := PushRun(pages, currentPage - 1, currentPage + 2);
        pages := pages + [Ellipsis];
        pages := pages + [Page(lastPage)];
      }
    }
    if 1 <= currentPage <= lastPage {
      StripWellFormed(currentPage, lastPage);
    }
  }

  // ---- what the strip promises ----

  /** Page entries appear in strictly increasing order. */
  ghost predicate Ascending(r: seq<PageEntry>) {
    forall i, j :: 0 <= i < j < |r| && r[i].Page? && r[j].Page? ==> r[i].n < r[j].n
  }

  /** Every page entry names an existing page. */
  ghost predicate WithinPages(r: seq<PageEntry>, lastPage: int) {
    forall i :: 0 <= i < |r| && r[i].Page? ==> 1 <= r[i].n <= lastPage
  }

  /** An ellipsis stands exactly for a hidden stretch: it sits between two
      page entries that are not neighbours, and two adjacent page entries are
      consecutive pages. So every page of 1..lastPage is either shown or
      covered by exactly one ellipsis. */
  ghost predicate EllipsesMarkGaps(r: seq<PageEntry>) {
    && (forall i :: 0 <= i < |r| && r[i].Ellipsis? ==>
          0 < i < |r| - 1 && r[i - 1].Page? && r[i + 1].Page? && r[i - 1].n + 1 < r[i + 1].n)
    && (forall i :: 0 < i < |r| && r[i - 1].Page? && r[i].Page? ==> r[i].n == r[i - 1].n + 1)
  }

  ghost predicate WellFormedStrip(r: seq<PageEntry>, currentPage: int, lastPage: int) {
    && 0 < |r| <= 7
    && r[0] == Page(1) && r[|r| - 1] == Page(lastPage)
    && Page(currentPage) in r
    && Ascending(r)
    && WithinPages(r, lastPage)
    && EllipsesMarkGaps(r)
  }

  /** With at most five pages the strip is exactly 1..lastPage, no ellipsis. */
  lemma StripSmall(currentPage: int, lastPage: int)
    requires lastPage <= MaxVisible
    ensures var r := PageStrip(currentPage, lastPage);
      && |r| == (if lastPage < 0 then 0 else lastPage)
      && forall k :: 0 <= k < |r| ==> r[k] == Page(k + 1)
  {
  }

  /** With more than five pages the strip takes one of three shapes. */
  lemma StripShapes(currentPage: int, lastPage: int)
    requires lastPage > MaxVisible
    ensures currentPage <= 3 ==>
      PageStrip(currentPage, lastPage) == [Page(1), Page(2), Page(3), Page(4), Ellipsis, Page(lastPage)]
    ensures 3 < currentPage && currentPage >= lastPage - 2 ==>
      PageStrip(currentPage, lastPage)
        == [Page(1), Ellipsis, Page(lastPage - 3), Page(lastPage - 2), Page(lastPage - 1), Page(lastPage)]
    ensures 3 < currentPage < lastPage - 2 ==>
      PageStrip(currentPage, lastPage)
        == [Page(1), Ellipsis, Page(currentPage - 1), Page(currentPage), Page(currentPage + 1), Ellipsis, Page(lastPage)]
  {
    var r := PageStrip(currentPage, lastPage);
    if currentPage <= 3 {
      assert Run(1, 5) == [Page(1), Page(2), Page(3), Page(4)];
    } else if currentPage >= lastPage - 2 {
      assert Run(lastPage - 3, lastPage + 1)
        == [Page(lastPage - 3), Page(lastPage - 2), Page(lastPage - 1), Page(lastPage)];
    } else {
      assert Run(currentPage - 1, currentPage + 2)
        == [Page(currentPage - 1), Page(currentPage), Page(currentPage + 1)];
    }
  }

  /** The head window [1, 2, 3, 4, ..., lastPage] is a well-formed strip for pages 1..3. */
  lemma HeadWindowWellFormed(currentPage: int, lastPage: int)
    requires 1 <= currentPage <= 3 && lastPage > MaxVisible
    ensures WellFormedStrip([Page(1), Page(2), Page(3), Page(4), Ellipsis, Page(lastPage)], currentPage, lastPage)
  {
    var r := [Page(1), Page(2), Page(3), Page(4), Ellipsis, Page(lastPage)];
    assert r[currentPage - 1] == Page(currentPage);
  }

  /** The tail window [1, ..., lastPage - 3 .. lastPage] is well-formed for the last three pages. */
  lemma TailWindowWellFormed(currentPage: int, lastPage: int)
    requires lastPage - 2 <= currentPage <= lastPage && lastPage > MaxVisible
    ensures WellFormedStrip([Page(1), Ellipsis, Page(lastPage - 3), Page(lastPage - 2), Page(lastPage - 1), Page(lastPage)],
      currentPage, lastPage)
  {
    var r := [Page(1), Ellipsis, Page(lastPage - 3), Page(lastPage - 2), Page(lastPage - 1), Page(lastPage)];
    assert r[currentPage - lastPage + 5] == Page(currentPage);
  }

  /** The middle window [1, ..., c - 1, c, c + 1, ..., lastPage] is well-formed. */
  lemma MiddleWindowWellFormed(currentPage: int, lastPage: int)
    requires 3 < currentPage < lastPage - 2
    ensures WellFormedStrip([Page(1), Ellipsis, Page(currentPage - 1), Page(currentPage), Page(currentPage + 1), Ellipsis, Page(lastPage)],
      currentPage, lastPage)
  {
    var r := [Page(1), Ellipsis, Page(currentPage - 1), Page(currentPage), Page(currentPage + 1), Ellipsis, Page(lastPage)];
    assert r[3] == Page(currentPage);
  }

  /** For a current page inside 1..lastPage the strip starts at 1, ends at
      lastPage, is ascending, stays in range, shows the current page, has at
      most seven slots, and its ellipses mark exactly the hidden stretches. */
  lemma StripWellFormed(currentPage: int, lastPage: int)
    requires 1 <= currentPage <= lastPage
    ensures WellFormedStrip(PageStrip(currentPage, lastPage), currentPage, lastPage)
  {
    var r := PageStrip(currentPage, lastPage);
    if lastPage <= MaxVisible {
      StripSmall(currentPage, lastPage);
      assert r[currentPage - 1] == Page(currentPage);
    } else {
      StripShapes(currentPage, lastPage);
      if currentPage <= 3 {
        HeadWindowWellFormed(currentPage, lastPage);
      } else if currentPage >= lastPage - 2 {
        TailWindowWellFormed(currentPage, lastPage);
      } else {
        MiddleWindowWellFormed(currentPage, lastPage);
      }
    }
  }

  // ---- the "Showing X to Y of Z" line ----

  /** First item number on the current page: `(currentPage - 1) * perPage + 1`. */
  function ShowingFrom(currentPage: int, perPage: int): int {
    (currentPage - 1) * perPage + 1
  }

  /** Last item number on the current page: `min(currentPage * perPage, total)`. */
  function ShowingTo(currentPage: int, perPage: int, total: int): int {
    if currentPage * perPage < total then currentPage * perPage else total
  }

  /** The shown range never runs past the total, and when the page holds any
      items it is a non-empty range of at most perPage items. */
  lemma ShowingRange(currentPage: int, perPage: int, total: int)
    ensures ShowingTo(currentPage, perPage, total) <= total
    ensures 1 <= currentPage && 1 <= perPage && (currentPage - 1) * perPage < total ==>
      1 <= ShowingFrom(currentPage, perPage) <= ShowingTo(currentPage, perPage, total)
      && ShowingTo(currentPage, perPage, total) - ShowingFrom(currentPage, perPage) < perPage
  {
    if 1 <= currentPage && 1 <= perPage && (currentPage - 1) * perPage < total {
      assert currentPage * perPage == (currentPage - 1) * perPage + perPage;
      assert (currentPage - 1) * perPage >= 0;
    }
  }

  // ---- the pagination controls ----

  /** A control of the pagination bar: Previous, Next, or a strip slot. */
  datatype Control = Previous | Next | Slot(entry: PageEntry)

  /** Whether the bar is rendered at all (the list must be non-empty too). */
  predicate PaginationShown(itemCount: int, lastPage: int) {
    itemCount > 0 && lastPage > 1
  }

  /** The controls the bar renders, left to right. */
  function Controls(currentPage: int, lastPage: int): seq<Control> {
    if lastPage <= 1 then [] else
      [Previous] + seq(|PageStrip(currentPage, lastPage)|, k requires 0 <= k < |PageStrip(currentPage, lastPage)| =>
      Slot(PageStrip(currentPage, lastPage)[k])) + [Next]
  }

  /** The page a click on `c` passes to handlePageChange, or None when the
      control is disabled: Previous at page 1, Next at lastPage, an ellipsis,
      or the current page's own button. */
  function Requested(c: Control, currentPage: int, lastPage: int): Option<int> {
    match c
    case Previous => if currentPage == 1 then None else Some(currentPage - 1)
    case Next => if currentPage == lastPage then None else Some(currentPage + 1)
    case Slot(Ellipsis) => None
    case Slot(Page(p)) => if p == currentPage then None else Some(p)
  }

  /** No rendered control is enabled for page 0 or lastPage + 1: every page a
      control requests lies in 1..lastPage and differs from the current one,
      and nothing is rendered when there is a single page. */
  lemma ControlsStayInRange(currentPage: int, lastPage: int, c: Control)
    requires 1 <= currentPage <= lastPage
    requires c in Controls(currentPage, lastPage)
    ensures lastPage > 1
    ensures Requested(c, currentPage, lastPage).Some? ==>
      var p := Requested(c, currentPage, lastPage).value;
      1 <= p <= lastPage && p != currentPage
  {
    var r := PageStrip(currentPage, lastPage);
    if c.Slot? && c.entry.Page? {
      var k :| 0 <= k < |Controls(currentPage, lastPage)| && Controls(currentPage, lastPage)[k] == c;
      assert r[k - 1] == c.entry;
      StripWellFormed(currentPage, lastPage);
    }
  }
}
