/**
 * The pagination bar: nothing for at most one page; otherwise a Previous
 * control, one link per page and a Next control. It keeps no state; its
 * controls only ask the parent for a page through `onPageChange`.
 */
module AppPagination {
  import opened Wrappers

  /** A numbered link and whether it is marked active. */
  datatype PageLink = PageLink(page: int, active: bool)

  /** The rendered bar: the disabled styling of both arrows and the page links. */
  datatype View = View(prevDisabled: bool, links: seq<PageLink>, nextDisabled: bool)

  /** A control the user can press; `Link(i)` is the `i`-th numbered link, from 0. */
  datatype Click = Previous | Next | Link(index: nat)

  /** `Array.from({length: totalPages}, (_, i) => i + 1)` with `isActive={currentPage === page}`. */
  function PageLinks(currentPage: int, totalPages: int): (links: seq<PageLink>)
    ensures |links| == if totalPages <= 0 then 0 else totalPages
    ensures forall i :: 0 <= i < |links| ==> links[i].page == i + 1
    ensures forall i :: 0 <= i < |links| ==> (links[i].active <==> links[i].page == currentPage)
  {
    if totalPages <= 0 then []
    else seq(totalPages, i requires 0 <= i < totalPages => PageLink(i + 1, currentPage == i + 1))
  }

  /** The component's output: `None` (it returns `null`) unless there are at least two pages. */
  function Render(currentPage: int, totalPages: int): (v: Option<View>)
    ensures v.None? <==> totalPages <= 1
    ensures v.Some? ==> (v.value.prevDisabled <==> currentPage == 1)
    ensures v.Some? ==> (v.value.nextDisabled <==> currentPage == totalPages)
    ensures v.Some? ==> v.value.links == PageLinks(currentPage, totalPages)
  {
    if totalPages <= 1 then None
    else Some(View(currentPage == 1, PageLinks(currentPage, totalPages), currentPage == totalPages))
  }

  /**
   * The page a pressed control asks for, or `None` when its handler asks for
   * nothing: Previous only above page 1, Next only below the last page.
   */
  function Request(currentPage: int, totalPages: int, click: Click): (r: Option<int>)
    requires totalPages > 1
    requires click.Link? ==> click.index < totalPages
    ensures click.Previous? ==> (r.Some? <==> currentPage > 1)
    ensures click.Previous? && r.Some? ==> r.value == currentPage - 1
    ensures click.Next? ==> (r.Some? <==> currentPage < totalPages)
    ensures click.Next? && r.Some? ==> r.value == currentPage + 1
    ensures click.Link? ==> r == Some(PageLinks(currentPage, totalPages)[click.index].page)
  {
    match click
    case Previous => if currentPage > 1 then Some(currentPage - 1) else None
    case Next => if currentPage < totalPages then Some(currentPage + 1) else None
    case Link(i) => Some(PageLinks(currentPage, totalPages)[i].page)
  }

  /** From a page in range, every page any control asks for is in range too. */
  lemma RequestInRange(currentPage: int, totalPages: int, click: Click)
    requires totalPages > 1
    requires click.Link? ==> click.index < totalPages
    requires 1 <= currentPage <= totalPages
    ensures Request(currentPage, totalPages, click).Some? ==>
      1 <= Request(currentPage, totalPages, click).value <= totalPages
  {
  }

  /** The integers `lo`, `lo + 1`, ..., `hi`, in order. */
  function Interval(lo: int, hi: int): seq<int>
    decreases hi - lo
  {
    if lo > hi then [] else [lo] + Interval(lo + 1, hi)
  }

  function LinkPages(links: seq<PageLink>): (pages: seq<int>)
    ensures |pages| == |links| && forall i :: 0 <= i < |links| ==> pages[i] == links[i].page
  {
    seq(|links|, i requires 0 <= i < |links| => links[i].page)
  }

  lemma {:induction false} IntervalAt(lo: int, hi: int, i: nat)
    requires i <= hi - lo
    ensures |Interval(lo, hi)| == hi - lo + 1 && Interval(lo, hi)[i] == lo + i
    decreases hi - lo
  {
    if lo < hi {
      IntervalAt(lo + 1, hi, if i == 0 then 0 else i - 1);
    }
  }

  /** The links carry exactly the pages 1 to `totalPages`, increasing. */
  lemma LinksCoverPages(currentPage: int, totalPages: int)
    requires totalPages > 1
    ensures LinkPages(PageLinks(currentPage, totalPages)) == Interval(1, totalPages)
    ensures var links := PageLinks(currentPage, totalPages);
      forall i, j :: 0 <= i < j < |links| ==> links[i].page < links[j].page
  {
    var pages := LinkPages(PageLinks(currentPage, totalPages));
    IntervalAt(1, totalPages, 0);
    forall i | 0 <= i < totalPages
      ensures pages[i] == Interval(1, totalPages)[i]
    {
      IntervalAt(1, totalPages, i);
    }
  }

  /**
   * Exactly one link is active when the current page is in range, and none
   * otherwise.
   */
  lemma ActiveLink(currentPage: int, totalPages: int)
    requires totalPages > 1
    ensures var links := PageLinks(currentPage, totalPages);
      (1 <= currentPage <= totalPages ==>
        links[currentPage - 1].active &&
        forall i :: 0 <= i < |links| && links[i].active ==> i == currentPage - 1) &&
      (!(1 <= currentPage <= totalPages) ==> forall i :: 0 <= i < |links| ==> !links[i].active)
  {
  }
}
