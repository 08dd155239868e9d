/** The landing page: a fixed list of six recommended jobs shown six per page,
    the page bar with disabled Previous / Next buttons, and a job-detail modal
    opened by clicking a job. */
module IndexPage {
  import opened Seqs
  import opened Jobs
  import opened Paging
  import opened PageControls

  /** The landing page's own list of jobs (not the job list's catalogue). */
  const Landing1: Job :=
    Job("1", "Senior UI/UX Designer", "Amazon", "Gurgaon (HQ)", "Full-time remote", "3-5 years",
    "₹ 6-8.5 LPA", ["Figma", "Adobe XD", "Sketch"], "01 May, 2023")

  const Landing2: Job :=
    Job("2", "Senior UI/UX Designer", "Amazon", "Gurgaon (HQ)", "Part-time remote", "3-5 years",
    "₹ 6-8.5 LPA", ["Figma", "Adobe XD", "Sketch"], "01 May, 2023")

  const Landing3: Job :=
    Job("3", "Senior UI/UX Designer", "Amazon", "Gurgaon (HQ)", "Hybrid remote", "3-5 years",
    "₹ 6-8.5 LPA", ["Figma", "Adobe XD", "InVision"], "01 May, 2023")

  const Landing4: Job :=
    Job("4", "Senior UI/UX Designer", "Amazon", "Gurgaon (HQ)", "Full-time remote", "3-5 years",
    "₹ 6-8.5 LPA", ["Figma", "Adobe XD", "Sketch"], "01 May, 2023")

  const Landing5: Job :=
    Job("5", "Senior UI/UX Designer", "Amazon", "Noida (HQ)", "Hybrid remote", "3-5 years",
    "₹ 6-8.5 LPA", ["Figma", "Adobe XD", "Sketch"], "01 May, 2023")

  const Landing6: Job :=
    Job("6", "Senior UI/UX Designer", "Amazon", "Gurgaon (HQ)", "Full-time remote", "3-5 years",
    "₹ 6-8.5 LPA", ["Figma", "Adobe XD", "InVision"], "01 May, 2023")

  const LandingJobs: seq<Job> := [Landing1, Landing2, Landing3, Landing4, Landing5, Landing6]

  const JobsPerPage: nat := 6

  /** The page's state: the current page, the job last clicked, and whether the
      modal is open. */
  datatype IndexState = IndexState(currentPage: int, selectedJob: Option<Job>, modalOpen: bool)

  const Initial: IndexState := IndexState(1, None, false)

  /** `Math.ceil(MOCK_JOBS.length / jobsPerPage)`. */
  function TotalPages(): (r: nat)
    ensures PageEnd(r, JobsPerPage) >= |LandingJobs|
    ensures r == 0 || PageEnd(r - 1, JobsPerPage) < |LandingJobs|
  {
    CeilDiv(|LandingJobs|, JobsPerPage)
  }

  /** The jobs of the current page. */
  function CurrentJobs(s: IndexState): (r: seq<Job>)
    ensures |r| <= JobsPerPage
  {
    Page(LandingJobs, s.currentPage, JobsPerPage)
  }

  /** The count badge next to the heading: the length of the whole list, on
      every page. */
  function CountBadge(s: IndexState): (r: nat)
    ensures r == 6
  {
    |LandingJobs|
  }

  /** A click on the page bar. */
  function ClickBar(s: IndexState, click: Click): (r: IndexState)
    ensures r.selectedJob == s.selectedJob && r.modalOpen == s.modalOpen
    ensures 1 <= s.currentPage <= TotalPages() && Offered(click, TotalPages()) ==> 1 <= r.currentPage <= TotalPages()
  {
    s.(currentPage := Apply(s.currentPage, TotalPages(), click))
  }

  /** `handleJobClick`: remember the job and open the modal. */
  function OpenJob(s: IndexState, job: Job): (r: IndexState)
    ensures ShownJob(r) == Some(job)
    ensures r.currentPage == s.currentPage
  {
    s.(selectedJob := Some(job), modalOpen := true)
  }

  /** The close button: only the open flag is cleared; the job stays selected. */
  function CloseModal(s: IndexState): (r: IndexState)
    ensures ShownJob(r) == None
    ensures r.selectedJob == s.selectedJob && r.currentPage == s.currentPage
  {
    s.(modalOpen := false)
  }

  /** The modal renders the selected job exactly when a job is selected and the
      open flag is set. */
  function ShownJob(s: IndexState): (r: Option<Job>)
    ensures r.Some? <==> s.selectedJob.Some? && s.modalOpen
    ensures r.Some? ==> r.value == s.selectedJob.value
  {
    if s.selectedJob.Some? && s.modalOpen then s.selectedJob else None
  }

  /** The six jobs fit on one page, which shows all of them in order. */
  lemma LandingSinglePage()
    ensures TotalPages() == 1
    ensures CurrentJobs(Initial) == LandingJobs
  {
    assert PageEnd(1, JobsPerPage) == 6;
    CeilDivExact(1, JobsPerPage);
  }

  /** With one page, both buttons are disabled on it and every click of the bar
      leaves the page at 1. */
  lemma SinglePageClicksAreNoOps(s: IndexState, click: Click)
    requires s.currentPage == 1 && Offered(click, TotalPages())
    ensures PreviousDisabled(s.currentPage) && NextDisabled(s.currentPage, TotalPages())
    ensures ClickBar(s, click) == s
  {
    LandingSinglePage();
  }

  /** Closing and clicking the same job again shows it again; the page is never
      touched by the modal. */
  lemma ReopenShowsSameJob(s: IndexState, job: Job)
    ensures ShownJob(OpenJob(CloseModal(OpenJob(s, job)), job)) == Some(job)
    ensures CloseModal(OpenJob(s, job)).selectedJob == Some(job)
    ensures CloseModal(OpenJob(s, job)).currentPage == s.currentPage
  {
  }
}
