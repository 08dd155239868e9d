/** The application tracker: a paged list of the user's applications (two per
    page) with a status badge each, and a detail modal whose progress bar has
    four dots filled up to the application's step. */
module ApplicationStatus {
  import opened Seqs
  import opened Jobs
  import opened Paging
  import opened PageControls

  /** One application. `status` is a free string in the source. */
  datatype Application = Application(
    id: string,
    job: Job,
    status: string,
    appliedDate: string,
    lastUpdate: string,
    description: string)

  const Description: string :=
    "We have a Great Job Opportunity with a leading Indian MNC into Manufacturing of Industrial Mineral & Specialty Chemicals for Andhra."

  const App1: Application :=
    Application("1",
      Job("1", "Senior UI/UX Designer", "Amazon", "Gurgaon (HQ)", "Full-time remote", "3-5 years",
        "₹ 6-8.5 LPA", ["Figma", "Adobe XD", "Sketch"], "01 May, 2023"),
      "under_review", "5 days ago", "3 days ago", Description)

  const App2: Application :=
    Application("2",
      Job("2", "Senior UI/UX Designer", "Amazon", "Gurgaon (HQ)", "Part-time remote", "3-5 years",
        "₹ 6-8.5 LPA", ["Figma", "Adobe XD", "Sketch"], "01 May, 2023"),
      "recruiter_viewed", "7 days ago", "2 days ago", Description)

  const App3: Application :=
    Application("3",
      Job("3", "Senior UI/UX Designer", "Amazon", "Noida (HQ)", "Hybrid remote", "3-5 years",
        "₹ 6-8.5 LPA", ["Figma", "Adobe XD", "InVision"], "01 May, 2023"),
      "application_submitted", "10 days ago", "10 days ago", Description)

  const MockApplications: seq<Application> := [App1, App2, App3]

  const ApplicationsPerPage: nat := 2

  /** The four statuses the tracker knows, in the order of the progress bar. */
  const KnownStatuses: seq<string> := ["application_submitted", "recruiter_viewed", "under_review", "shortlisted"]

  /** The badge text of each known status, in the same order. */
  const BadgeLabels: seq<string> := ["Application Submitted", "Recruiter Viewed", "Under Review", "Shortlisted"]

  /** `getStatusStep`: the position of the status on the progress bar; an
      unknown status counts as the first step. */
  function StatusStep(status: string): (r: int)
    ensures 1 <= r <= 4
    ensures forall i :: 0 <= i < |KnownStatuses| && status == KnownStatuses[i] ==> r == i + 1
    ensures status !in KnownStatuses ==> r == 1
  {
    match status
    case "application_submitted" => 1
    case "recruiter_viewed" => 2
    case "under_review" => 3
    case "shortlisted" => 4
    case _ => 1
  }

  /** Distinct known statuses sit at distinct steps. */
  lemma StatusStepInjective(a: string, b: string)
    requires a in KnownStatuses && b in KnownStatuses && a != b
    ensures StatusStep(a) != StatusStep(b)
  {
  }

  /** Progress dots 1..4; dot `i` is filled when the step has reached it. */
  function Dots(step: int): (r: seq<bool>)
    ensures |r| == 4
    ensures forall i :: 0 <= i < 4 ==> (r[i] <==> step >= i + 1)
  {
    [step >= 1, step >= 2, step >= 3, step >= 4]
  }

  /** The filled dots form a prefix, and for a step in [1, 4] exactly `step` of
      them are filled. */
  lemma FilledDotsFormPrefix(step: int)
    ensures forall i, j :: 0 <= i <= j < 4 && Dots(step)[j] ==> Dots(step)[i]
    ensures 1 <= step <= 4 ==> forall i :: 0 <= i < 4 ==> (Dots(step)[i] <==> i < step)
  {
  }

  /** The badges rendered next to an application: one conditional span per
      known status. */
  function Badges(status: string): (r: seq<string>)
    ensures |r| <= 1
    ensures forall i :: 0 <= i < |KnownStatuses| && status == KnownStatuses[i] ==> r == [BadgeLabels[i]]
    ensures status !in KnownStatuses ==> r == []
  {
    (if status == "application_submitted" then ["Application Submitted"] else [])
    + (if status == "recruiter_viewed" then ["Recruiter Viewed"] else [])
    + (if status == "under_review" then ["Under Review"] else [])
    + (if status == "shortlisted" then ["Shortlisted"] else [])
  }

  /** Exactly one badge for a known status, none for any other, and the badge
      names the same step as the progress bar. */
  lemma OneBadgePerKnownStatus(status: string)
    ensures |Badges(status)| == 1 <==> status in KnownStatuses
    ensures status in KnownStatuses ==> Badges(status) == [BadgeLabels[StatusStep(status) - 1]]
  {
  }

  /** The tracker's state: the current page and the application whose modal is
      open, if any. */
  datatype TrackerState = TrackerState(currentPage: int, selected: Option<Application>)

  const Initial: TrackerState := TrackerState(1, None)

  function TotalPages(): (r: nat)
    ensures PageEnd(r, ApplicationsPerPage) >= |MockApplications|
    ensures r == 0 || PageEnd(r - 1, ApplicationsPerPage) < |MockApplications|
  {
    CeilDiv(|MockApplications|, ApplicationsPerPage)
  }

  /** The applications of the current page. */
  function CurrentApplications(s: TrackerState): (r: seq<Application>)
    ensures |r| <= ApplicationsPerPage
  {
    Page(MockApplications, s.currentPage, ApplicationsPerPage)
  }

  /** A click on the page bar; the modal is not affected. */
  function ClickBar(s: TrackerState, click: Click): (r: TrackerState)
    ensures r.selected == s.selected
    ensures 1 <= s.currentPage <= TotalPages() && Offered(click, TotalPages()) ==> 1 <= r.currentPage <= TotalPages()
  {
    s.(currentPage := Apply(s.currentPage, TotalPages(), click))
  }

  /** Clicking an application opens its modal; closing clears the selection. */
  function SelectApplication(s: TrackerState, app: Application): (r: TrackerState)
    ensures r.selected == Some(app) && r.currentPage == s.currentPage
  {
    s.(selected := Some(app))
  }

  function CloseApplication(s: TrackerState): (r: TrackerState)
    ensures r.selected == None && r.currentPage == s.currentPage
  {
    s.(selected := None)
  }

  /** Three applications at two per page: two pages, the first with
      applications 1 and 2, the second with application 3. */
  lemma MockPages()
    ensures TotalPages() == 2
    ensures CurrentApplications(Initial) == [App1, App2]
    ensures CurrentApplications(Initial.(currentPage := 2)) == [App3]
  {
    assert PageEnd(1, ApplicationsPerPage) == 2;
    assert PageEnd(2, ApplicationsPerPage) == 4;
    CeilDivAtLeastTwo(3, 2);
    PageEndOrder(1, TotalPages() - 1, ApplicationsPerPage);
  }

  /** On page 1 Previous is disabled and does nothing; on page 2 Next is. */
  lemma MockBarEnds()
    ensures PreviousDisabled(1) && ClickBar(Initial, Previous) == Initial
    ensures NextDisabled(2, TotalPages()) && ClickBar(Initial.(currentPage := 2), Next) == Initial.(currentPage := 2)
  {
    MockPages();
    var total := TotalPages();
    assert ClickBar(Initial, Previous) == Initial by {
      assert Apply(1, total, Previous) == 1;
    }
    assert ClickBar(Initial.(currentPage := 2), Next) == Initial.(currentPage := 2) by {
      assert Apply(2, total, Next) == 2;
    }
  }

  /** The three mock applications are under review, viewed by a recruiter and
      submitted: steps 3, 2 and 1. */
  lemma MockSteps()
    ensures StatusStep(App1.status) == 3 && StatusStep(App2.status) == 2 && StatusStep(App3.status) == 1
  {
  }
}
