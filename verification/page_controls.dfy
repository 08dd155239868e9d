/** The page bar that the job list, the company directory, the landing page and
    the application tracker all render: a Previous button, one link per page and
    a Next button. Each click hands a page number to `setCurrentPage`. */
module PageControls {
  import opened Paging

  /** A click on the page bar. */
  datatype Click = Previous | Link(page: int) | Next

  /** The bar for `total` pages offers links to pages 1..total only. */
  predicate Offered(click: Click, total: int) {
    click.Link? ==> 1 <= click.page <= total
  }

  /** The page number a click passes to `setCurrentPage`: Previous clamps at 1,
      Next clamps at `total`, a link goes to its own page. From a page in
      [1, total], no offered click leaves that range; Previous never moves
      forward and Next never moves back. */
  function Apply(current: int, total: int, click: Click): (r: int)
    ensures 1 <= current <= total && Offered(click, total) ==> 1 <= r <= total
    ensures click.Previous? && current >= 1 ==> r <= current
    ensures click.Next? && current <= total ==> r >= current
  {
    match click
    case Previous => PrevPage(current)
    case Link(page) => page
    case Next => NextPage(current, total)
  }

  /** The links the bar renders are exactly the offered link clicks. */
  lemma OfferedLinksAreRendered(total: nat, page: int)
    ensures Offered(Link(page), total) <==> page in PageLinks(total)
  {
  }

  /** `disabled={currentPage === 1}` on Previous. */
  predicate PreviousDisabled(current: int) {
    current == 1
  }

  /** `disabled={currentPage === totalPages}` on Next. */
  predicate NextDisabled(current: int, total: int) {
    current == total
  }

  /** A button is disabled exactly when clicking it would not change the page. */
  lemma DisabledExactlyWhenNoOp(current: int, total: int)
    requires 1 <= current <= total
    ensures PreviousDisabled(current) <==> Apply(current, total, Previous) == current
    ensures NextDisabled(current, total) <==> Apply(current, total, Next) == current
  {
  }

  /** From any page in range, Previous then Next (and Next then Previous) comes
      back, except at the end the first click could not leave. */
  lemma ClicksUndoEachOther(current: int, total: int)
    requires 1 <= current <= total
    ensures current > 1 ==> Apply(Apply(current, total, Previous), total, Next) == current
    ensures current < total ==> Apply(Apply(current, total, Next), total, Previous) == current
  {
    PrevNextInverse(current, total);
  }
}
