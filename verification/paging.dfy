/** Page arithmetic shared by the job list, the company directory, the landing
    page and the application tracker. Each of them computes
      indexOfLast = currentPage * perPage
      indexOfFirst = indexOfLast - perPage
      current = items.slice(indexOfFirst, indexOfLast)
      totalPages = Math.ceil(items.length / perPage)
    and offers Previous / Next buttons that clamp with Math.max / Math.min. */
module Paging {

  function Min(a: int, b: int): int { if a <= b then a else b }
  function Max(a: int, b: int): int { if a >= b then a else b }

  /** `page * perPage`: the source's `indexOfLast`, one past the last index a
      1-based page covers. Every product of the page arithmetic goes through here. */
  function PageEnd(page: int, perPage: nat): (r: int)
    ensures page >= 1 ==> r >= perPage
    ensures page == 0 ==> r == 0
    ensures page < 0 ==> r <= 0
  {
    SignOfProduct(page - 1, perPage);
    page * perPage
  }

  /** The sign of a product with a non-negative factor follows the other factor. */
  lemma SignOfProduct(x: int, n: nat)
    ensures x >= 0 ==> x * n >= 0
    ensures x < 0 ==> x * n + n <= 0
  {
    if x < 0 {
      var y := -x - 1;
      assert y * n >= 0;
      assert x * n + n == -(y * n);
    }
  }

  /** Consecutive pages are `perPage` apart. */
  lemma PageEndStep(page: int, perPage: nat)
    ensures PageEnd(page + 1, perPage) == PageEnd(page, perPage) + perPage
  {
    assert (page + 1) * perPage == page * perPage + perPage;
  }

  /** Later pages end later. */
  lemma PageEndMonotone(a: int, b: int, perPage: nat)
    requires a <= b
    ensures PageEnd(a, perPage) <= PageEnd(b, perPage)
  {
    assert b * perPage - a * perPage == (b - a) * perPage;
    SignOfProduct(b - a, perPage);
  }

  /** For a positive page size, page ends are ordered exactly as the pages are. */
  lemma PageEndOrder(a: int, b: int, perPage: nat)
    requires perPage > 0
    ensures PageEnd(a, perPage) < PageEnd(b, perPage) <==> a < b
  {
    if a < b {
      PageEndStep(a, perPage);
      PageEndMonotone(a + 1, b, perPage);
    } else {
      PageEndMonotone(b, a, perPage);
    }
  }

  /** `Math.ceil(a / n)` for a non-negative count and a positive page size:
      the least number of pages of `n` items that hold `a` items. */
  function CeilDiv(a: nat, n: nat): (r: nat)
    requires n > 0
    ensures PageEnd(r, n) >= a
    ensures r == 0 || PageEnd(r - 1, n) < a
  {
    var q := (a + n - 1) / n;
    var m := (a + n - 1) % n;
    assert a + n - 1 == q * n + m && 0 <= m < n;
    assert q * n == a + n - 1 - m;
    assert (q - 1) * n == q * n - n;
    q
  }

  /** No items means no pages; one item or more means at least one page. */
  lemma CeilDivZero(a: nat, n: nat)
    requires n > 0
    ensures CeilDiv(a, n) == 0 <==> a == 0
  {
  }

  /** More than `n` items need at least two pages. */
  lemma CeilDivAtLeastTwo(a: nat, n: nat)
    requires n > 0 && a > n
    ensures CeilDiv(a, n) >= 2
  {
    var r := CeilDiv(a, n);
    assert PageEnd(1, n) == n;
    PageEndOrder(1, r, n);
  }

  /** The page count is the one the ceiling of the exact quotient gives:
      `k * n` items fill exactly `k` pages. */
  lemma CeilDivExact(k: nat, n: nat)
    requires n > 0
    ensures CeilDiv(PageEnd(k, n), n) == k
  {
    var r: int := CeilDiv(PageEnd(k, n), n);
    PageEndOrder(r, k, n);
    PageEndOrder(r - 1, k, n);
  }

  /** How `Array.prototype.slice` reads an index argument: negative indices count
      from the end, and every index is clamped into [0, len]. */
  function RelativeIndex(i: int, len: nat): (r: nat)
    ensures r <= len
  {
    if i < 0 then Max(len + i, 0) else Min(i, len)
  }

  /** `xs.slice(start, end)` with JavaScript's index rules. */
  function JsSlice<T>(xs: seq<T>, start: int, end: int): (r: seq<T>)
    ensures |r| <= |xs|
  {
    var from := RelativeIndex(start, |xs|);
    var to := RelativeIndex(end, |xs|);
    if from < to then xs[from..to] else []
  }

  /** The slice a 1-based `page` shows: `xs.slice(indexOfLast - perPage, indexOfLast)`
      with `indexOfLast = page * perPage`. For pages from 1 upwards it is the run of
      `perPage` items ending before `indexOfLast`, cut off at the end of `xs`; page 0
      is empty. */
  function Page<T>(xs: seq<T>, page: int, perPage: nat): (r: seq<T>)
    requires perPage > 0
    ensures |r| <= perPage
    ensures page >= 1 ==> r == xs[Min(PageEnd(page, perPage) - perPage, |xs|)..Min(PageEnd(page, perPage), |xs|)]
    ensures page == 0 ==> r == []
  {
    var last := PageEnd(page, perPage);
    JsSlice(xs, last - perPage, last)
  }

  /** `Math.ceil(items.length / perPage)`. */
  function TotalPages(count: nat, perPage: nat): nat
    requires perPage > 0
  {
    CeilDiv(count, perPage)
  }

  /** Every page from 1 to totalPages shows something; all but the last are full. */
  lemma PageInRange<T>(xs: seq<T>, page: int, perPage: nat)
    requires perPage > 0 && 1 <= page <= TotalPages(|xs|, perPage)
    ensures 0 < |Page(xs, page, perPage)|
    ensures page < TotalPages(|xs|, perPage) ==> |Page(xs, page, perPage)| == perPage
  {
    var total := TotalPages(|xs|, perPage);
    PageEndStep(page - 1, perPage);
    PageEndMonotone(page - 1, total - 1, perPage);
    if page < total {
      PageEndMonotone(page, total - 1, perPage);
    }
  }

  /** A page past the last one is empty: the page setters do not clamp, so this
      is what a stale page number shows. */
  lemma PageBeyondEnd<T>(xs: seq<T>, page: int, perPage: nat)
    requires perPage > 0 && page > TotalPages(|xs|, perPage)
    ensures Page(xs, page, perPage) == []
  {
    var total := TotalPages(|xs|, perPage);
    PageEndStep(page - 1, perPage);
    PageEndMonotone(total, page - 1, perPage);
  }

  /** Index `i` lies `i % perPage` places after the end of page `i / perPage`. */
  lemma ItemPosition(i: nat, perPage: nat)
    requires perPage > 0
    ensures PageEnd(i / perPage, perPage) + i % perPage == i
    ensures 0 <= i % perPage < perPage
  {
  }

  /** Item `i` is shown on page `i / perPage + 1`, at position `i % perPage`. */
  lemma ItemPage<T>(xs: seq<T>, i: nat, perPage: nat)
    requires perPage > 0 && i < |xs|
    ensures 1 <= i / perPage + 1 <= TotalPages(|xs|, perPage)
    ensures i % perPage < |Page(xs, i / perPage + 1, perPage)|
    ensures Page(xs, i / perPage + 1, perPage)[i % perPage] == xs[i]
  {
    var q := i / perPage;
    var m := i % perPage;
    var total := TotalPages(|xs|, perPage);
    ItemPosition(i, perPage);
    PageEndOrder(q, total, perPage);
    PageEndStep(q, perPage);
    var start := PageEnd(q + 1, perPage) - perPage;
    assert start == PageEnd(q, perPage) && start <= i;
    assert Page(xs, q + 1, perPage) == xs[start..Min(PageEnd(q + 1, perPage), |xs|)];
  }

  /** Pages 1..k laid end to end. */
  function Pages<T>(xs: seq<T>, perPage: nat, k: nat): seq<T>
    requires perPage > 0
  {
    if k == 0 then [] else Pages(xs, perPage, k - 1) + Page(xs, k, perPage)
  }

  /** Pages 1..k together are the first k*perPage items (or all of them). */
  lemma {:induction false} PagesPrefix<T>(xs: seq<T>, perPage: nat, k: nat)
    requires perPage > 0
    ensures Pages(xs, perPage, k) == xs[..Min(PageEnd(k, perPage), |xs|)]
  {
    if k > 0 {
      PagesPrefix(xs, perPage, k - 1);
      PageEndStep(k - 1, perPage);
      var a := Min(PageEnd(k - 1, perPage), |xs|);
      var b := Min(PageEnd(k, perPage), |xs|);
      assert xs[..a] + xs[a..b] == xs[..b];
    }
  }

  /** Pages 1..totalPages concatenate back to the whole list: nothing is lost,
      repeated or reordered by pagination. */
  lemma PagesCoverAll<T>(xs: seq<T>, perPage: nat)
    requires perPage > 0
    ensures Pages(xs, perPage, TotalPages(|xs|, perPage)) == xs
  {
    PagesPrefix(xs, perPage, TotalPages(|xs|, perPage));
  }

  /** Previous: `Math.max(currentPage - 1, 1)`. */
  function PrevPage(current: int): (r: int)
    ensures r >= 1
    ensures current > 1 ==> r == current - 1
    ensures current <= 1 ==> r == 1
  {
    Max(current - 1, 1)
  }

  /** Next: `Math.min(currentPage + 1, totalPages)`. */
  function NextPage(current: int, total: int): (r: int)
    ensures r <= total
    ensures current < total ==> r == current + 1
    ensures current >= total ==> r == total
  {
    Min(current + 1, total)
  }

  /** From a page in [1, total], Previous and Next stay in [1, total]; page 1 is a
      fixed point of Previous and the last page a fixed point of Next. */
  lemma ControlsStayInRange(current: int, total: int)
    requires 1 <= current <= total
    ensures 1 <= PrevPage(current) <= total
    ensures 1 <= NextPage(current, total) <= total
    ensures current == 1 <==> PrevPage(current) == current
    ensures current == total <==> NextPage(current, total) == current
  {
  }

  /** Away from the ends, Next undoes Previous and Previous undoes Next. */
  lemma PrevNextInverse(current: int, total: int)
    requires 1 <= current <= total
    ensures current > 1 ==> NextPage(PrevPage(current), total) == current
    ensures current < total ==> PrevPage(NextPage(current, total)) == current
  {
  }

  /** `Array.from({ length: total }, (_, i) => i + 1)`: the numbered page links. */
  function PageLinks(total: nat): (r: seq<int>)
    ensures |r| == total
    ensures forall k :: k in r <==> 1 <= k <= total
    ensures forall i, j :: 0 <= i < j < |r| ==> r[i] < r[j]
  {
    var links := seq(total, i requires 0 <= i < total => i + 1);
    forall k | 1 <= k <= total
      ensures k in links
    {
      assert links[k - 1] == k;
    }
    links
  }

  /** Positions of the links rendered active (`isActive={currentPage === page}`). */
  function ActiveLinks(links: seq<int>, current: int): set<nat> {
    set i: nat | i < |links| && links[i] == current
  }

  /** Exactly one page link is active when the current page is in range, none otherwise. */
  lemma ExactlyOneActiveLink(total: nat, current: int)
    ensures 1 <= current <= total ==> ActiveLinks(PageLinks(total), current) == {current - 1}
    ensures !(1 <= current <= total) ==> ActiveLinks(PageLinks(total), current) == {}
  {
    var links := PageLinks(total);
    if 1 <= current <= total {
      assert links[current - 1] == current;
    }
  }
}
