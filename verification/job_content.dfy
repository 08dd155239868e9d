/** The job list's main column: a header with the number of matching jobs, the
    current page of jobs or a "No jobs found" panel, and the pagination bar when
    the matches do not fit on one page. */
module JobContent {
  import opened Seqs
  import opened Jobs
  import opened JobFiltering
  import JobPagination

  /** The list area: the jobs handed to the list, or the empty-result panel. */
  datatype ListArea = NoJobsFound | JobsList(jobs: seq<Job>)

  /** Everything the column decides: the header count, the list area and the
      pagination bar (absent when not mounted or when it renders nothing). */
  datatype ContentView = ContentView(headerCount: nat, list: ListArea, pagination: Option<JobPagination.Bar>)

  /** The column for one state of the filtering hook. The header counts all
      matches, the list gets only the current page, and the pagination bar is
      there exactly when the matches overflow one page: it is mounted then, and
      since that means at least two pages, its own "one page or fewer" guard
      never hides it. */
  function Content(e: Engine): (r: ContentView)
    requires e.jobsPerPage > 0
    ensures r.headerCount == |e.filteredJobs|
    ensures r.list.NoJobsFound? <==> |e.filteredJobs| == 0
    ensures r.list.JobsList? ==> r.list.jobs == CurrentJobs(e)
    ensures r.pagination.Some? <==> |e.filteredJobs| > e.jobsPerPage
  {
    var list := if |e.filteredJobs| > 0 then JobsList(CurrentJobs(e)) else NoJobsFound;
    var bar :=
      if |e.filteredJobs| > e.jobsPerPage then
        Paging.CeilDivAtLeastTwo(|e.filteredJobs|, e.jobsPerPage);
        JobPagination.Render(e.currentPage, TotalPages(e))
      else None;
    ContentView(|e.filteredJobs|, list, bar)
  }

  /** When the bar is shown there are at least two pages, and when it is not all
      matches fit on the first page. */
  lemma PaginationMeansSeveralPages(e: Engine)
    requires e.jobsPerPage > 0
    ensures Content(e).pagination.Some? ==> TotalPages(e) >= 2
    ensures Content(e).pagination.None? ==> TotalPages(e) <= 1
  {
    if |e.filteredJobs| > e.jobsPerPage {
      Paging.CeilDivAtLeastTwo(|e.filteredJobs|, e.jobsPerPage);
    } else {
      Paging.PageEndOrder(1, TotalPages(e), e.jobsPerPage);
    }
  }

  /** With matches and a current page in range, the list is a non-empty,
      order-preserving part of the matches. */
  lemma ListShowsPartOfMatches(e: Engine)
    requires e.jobsPerPage > 0 && |e.filteredJobs| > 0
    requires 1 <= e.currentPage <= TotalPages(e)
    ensures Content(e).list.JobsList?
    ensures 0 < |Content(e).list.jobs| <= e.jobsPerPage
    ensures SubsequenceOf(Content(e).list.jobs, e.filteredJobs)
  {
    Paging.PageInRange(e.filteredJobs, e.currentPage, e.jobsPerPage);
  }

  /** After a new search term with matches, the list shows the first matches,
      and the header still counts them all. */
  lemma NewSearchShowsFirstMatches(e: Engine, term: string)
    requires e.jobsPerPage > 0 && term != e.searchTerm
    requires |FilterJobs(e.allJobs, QueryOf(e).(searchTerm := term))| > 0
    ensures Content(SetSearchTerm(e, term)).headerCount == |FilterJobs(e.allJobs, QueryOf(e).(searchTerm := term))|
    ensures Content(SetSearchTerm(e, term)).list.JobsList?
    ensures 0 < |Content(SetSearchTerm(e, term)).list.jobs|
  {
    ChangeShowsFirstPage(e, term);
  }
}
