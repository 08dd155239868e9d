/** The job list's pagination component: nothing for one page or fewer,
    otherwise Previous, the links 1..totalPages with the current one active, and
    Next. Its clicks are those of the shared page bar. */
module JobPagination {
  import opened Seqs
  import opened Paging
  import opened PageControls

  /** The rendered bar: the page number of each link, and the positions of the
      links drawn active. */
  datatype Bar = Bar(links: seq<int>, active: set<nat>)

  /** What the component renders for `currentPage` and `totalPages`. When it
      renders, it shows each page 1..total once in increasing order, and exactly
      one link is active when the current page is in range. */
  function Render(current: int, total: int): (r: Option<Bar>)
    ensures r.None? <==> total <= 1
    ensures r.Some? ==> |r.value.links| == total
    ensures r.Some? ==> forall k :: k in r.value.links <==> 1 <= k <= total
    ensures r.Some? ==> forall i, j :: 0 <= i < j < |r.value.links| ==> r.value.links[i] < r.value.links[j]
    ensures r.Some? && 1 <= current <= total ==> r.value.active == {current - 1}
    ensures r.Some? && !(1 <= current <= total) ==> r.value.active == {}
  {
    if total <= 1 then None
    else
      var links := PageLinks(total);
      ExactlyOneActiveLink(total, current);
      Some(Bar(links, ActiveLinks(links, current)))
  }

  /** The active link is the one whose number is the current page. */
  lemma ActiveLinkShowsCurrentPage(current: int, total: int)
    requires total > 1 && 1 <= current <= total
    ensures Render(current, total).Some?
    ensures forall i :: i in Render(current, total).value.active ==> Render(current, total).value.links[i] == current
  {
  }

  /** Clicking any rendered link, Previous or Next from a page in range lands
      on a page that the bar renders again as the single active link. */
  lemma ClickKeepsOneActiveLink(current: int, total: int, click: Click)
    requires total > 1 && 1 <= current <= total && Offered(click, total)
    ensures Render(Apply(current, total, click), total).Some?
    ensures |Render(Apply(current, total, click), total).value.active| == 1
  {
  }
}
