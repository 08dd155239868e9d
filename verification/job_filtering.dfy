/** The job filtering and pagination engine (the `useJobFiltering` hook).

    The hook keeps a search term, a selected category, an advanced-filter object
    and a current page. Whenever one of the first three (or the catalogue) changes,
    an effect recomputes `filteredJobs` by running four stages in a fixed order --
    search, category, working schedule, skills -- and resets the page to 1.
    `currentJobs` and `totalPages` are derived from `filteredJobs` on every render.

    React runs the effect after the render that changed a dependency; here the
    recomputation happens synchronously inside each setter. */
module JobFiltering {
  import opened Strings
  import opened Seqs
  import opened Jobs
  import Paging

  // ---------------------------------------------------------------------------
  // Stage 1: free-text search

  /** A job matches an already lower-cased term when the term occurs in the
      lower-cased title, the lower-cased company, or some lower-cased skill. */
  predicate SearchMatches(job: Job, lowerTerm: string) {
    || Contains(Lower(job.title), lowerTerm)
    || Contains(Lower(job.company), lowerTerm)
    || exists s :: s in job.skills && Contains(Lower(s), lowerTerm)
  }

  /** What the search stage lets through: everything when the term is empty. */
  predicate PassesSearch(searchTerm: string, job: Job) {
    searchTerm == "" || SearchMatches(job, Lower(searchTerm))
  }

  function SearchStage(jobs: seq<Job>, searchTerm: string): seq<Job> {
    if searchTerm == "" then jobs
    else
      var lowerSearch := Lower(searchTerm);
      Filter(jobs, job => SearchMatches(job, lowerSearch))
  }

  // ---------------------------------------------------------------------------
  // Stage 2: category

  /** How a category tests a job's skills: exact membership in a fixed list, or
      containing one of a few fixed substrings (both case-sensitive). */
  datatype SkillRule = AnyOf(names: seq<string>) | AnyContaining(needles: seq<string>)

  /** A category's rule: a case-sensitive title substring, or a skill rule. */
  datatype CategoryRule = CategoryRule(titleNeedle: string, skillRule: SkillRule)

  const DeveloperSkills: seq<string> := ["React", "JavaScript", "TypeScript", "Node.js", "Express"]
  const DesignerSkills: seq<string> := ["Figma", "Adobe XD", "Sketch", "Photoshop", "Illustrator"]

  /** The closed six-way switch over category names; any other name has no rule. */
  function RuleFor(category: string): Option<CategoryRule> {
    if category == "HR" then Some(CategoryRule("HR", AnyContaining(["Recruitment", "HRIS"])))
    else if category == "Developer" then Some(CategoryRule("Developer", AnyOf(DeveloperSkills)))
    else if category == "Designer" then Some(CategoryRule("Designer", AnyOf(DesignerSkills)))
    else if category == "SEO" then Some(CategoryRule("SEO", AnyContaining(["SEO"])))
    else if category == "Marketing" then Some(CategoryRule("Marketing", AnyContaining(["Marketing"])))
    else if category == "Data Entry" then Some(CategoryRule("Data Entry", AnyContaining(["Data", "Excel"])))
    else None
  }

  predicate SkillMatchesRule(skill: string, rule: SkillRule) {
    match rule
    case AnyOf(names) => skill in names
    case AnyContaining(needles) => exists n :: n in needles && Contains(skill, n)
  }

  predicate MatchesRule(job: Job, rule: CategoryRule) {
    Contains(job.title, rule.titleNeedle) || exists s :: s in job.skills && SkillMatchesRule(s, rule.skillRule)
  }

  /** What the category stage lets through: everything when no category is
      selected or the name is not one of the six. */
  predicate PassesCategory(category: string, job: Job) {
    category == "" || RuleFor(category).None? || MatchesRule(job, RuleFor(category).value)
  }

  function CategoryStage(jobs: seq<Job>, category: string): seq<Job> {
    if category == "" then jobs
    else
      match RuleFor(category)
      case None => jobs
      case Some(rule) => Filter(jobs, job => MatchesRule(job, rule))
  }

  // ---------------------------------------------------------------------------
  // Stages 3 and 4: advanced filters

  /** One section of the advanced-filter object: option name to checkbox state. */
  type Toggles = map<string, bool>

  /** The advanced-filter object: section name to its toggles. */
  type AdvancedFilters = map<string, Toggles>

  /** The lower-cased names of the toggles that are on. */
  function ActiveKeys(toggles: Toggles): (r: set<string>)
    ensures forall k :: k in toggles && toggles[k] ==> Lower(k) in r
    ensures forall a :: a in r ==> exists k :: k in toggles && toggles[k] && Lower(k) == a
  {
    set k | k in toggles && toggles[k] :: Lower(k)
  }

  /** The active keys of a section, or none when the section is absent. */
  function SectionKeys(filters: AdvancedFilters, section: string): set<string> {
    if section in filters then ActiveKeys(filters[section]) else {}
  }

  /** The substring each working-schedule key looks for in the lower-cased job type. */
  function ScheduleNeedle(key: string): Option<string> {
    if key == "fulltime" then Some("full-time")
    else if key == "parttime" then Some("part-time")
    else if key == "contract" then Some("contract")
    else None
  }

  /** OR over the active keys; a key without a needle matches nothing. */
  predicate ScheduleMatches(job: Job, keys: set<string>) {
    exists k :: k in keys && ScheduleNeedle(k).Some? && Contains(Lower(job.jobType), ScheduleNeedle(k).value)
  }

  /** OR over the job's skills and the active keys. */
  predicate SkillsMatch(job: Job, keys: set<string>) {
    exists s, k :: s in job.skills && k in keys && Contains(Lower(s), k)
  }

  predicate PassesSchedule(filters: AdvancedFilters, job: Job) {
    var keys := SectionKeys(filters, "workingSchedule");
    keys == {} || ScheduleMatches(job, keys)
  }

  predicate PassesSkills(filters: AdvancedFilters, job: Job) {
    var keys := SectionKeys(filters, "skills");
    keys == {} || SkillsMatch(job, keys)
  }

  function ScheduleStage(jobs: seq<Job>, filters: AdvancedFilters): seq<Job> {
    var keys := SectionKeys(filters, "workingSchedule");
    if keys == {} then jobs else Filter(jobs, job => ScheduleMatches(job, keys))
  }

  function SkillsStage(jobs: seq<Job>, filters: AdvancedFilters): seq<Job> {
    var keys := SectionKeys(filters, "skills");
    if keys == {} then jobs else Filter(jobs, job => SkillsMatch(job, keys))
  }

  /** Both advanced stages, skipped altogether when the object has no keys. */
  function AdvancedStage(jobs: seq<Job>, filters: AdvancedFilters): seq<Job> {
    if |filters| == 0 then jobs else SkillsStage(ScheduleStage(jobs, filters), filters)
  }

  // ---------------------------------------------------------------------------
  // The whole pipeline

  datatype Query = Query(searchTerm: string, category: string, filters: AdvancedFilters)

  /** The effect body: search, then category, then the advanced filters. */
  function FilterJobs(allJobs: seq<Job>, q: Query): seq<Job> {
    AdvancedStage(CategoryStage(SearchStage(allJobs, q.searchTerm), q.category), q.filters)
  }

  /** Reference definition of the result: a job is wanted when it passes every
      active dimension. */
  predicate Admits(q: Query, job: Job) {
    && PassesSearch(q.searchTerm, job)
    && PassesCategory(q.category, job)
    && PassesSchedule(q.filters, job)
    && PassesSkills(q.filters, job)
  }

  lemma SearchStageIsFilter(jobs: seq<Job>, searchTerm: string)
    ensures SearchStage(jobs, searchTerm) == Filter(jobs, job => PassesSearch(searchTerm, job))
  {
    if searchTerm == "" {
      FilterKeepsAll(jobs, job => PassesSearch(searchTerm, job));
    } else {
      var lowerSearch := Lower(searchTerm);
      FilterCongruent(jobs, job => SearchMatches(job, lowerSearch), job => PassesSearch(searchTerm, job));
    }
  }

  lemma CategoryStageIsFilter(jobs: seq<Job>, category: string)
    ensures CategoryStage(jobs, category) == Filter(jobs, job => PassesCategory(category, job))
  {
    if category == "" || RuleFor(category).None? {
      FilterKeepsAll(jobs, job => PassesCategory(category, job));
    } else {
      var rule := RuleFor(category).value;
      FilterCongruent(jobs, job => MatchesRule(job, rule), job => PassesCategory(category, job));
    }
  }

  lemma AdvancedStageIsFilter(jobs: seq<Job>, filters: AdvancedFilters)
    ensures AdvancedStage(jobs, filters)
         == Filter(jobs, job => PassesSchedule(filters, job) && PassesSkills(filters, job))
  {
    var both := job => PassesSchedule(filters, job) && PassesSkills(filters, job);
    var sched := job => PassesSchedule(filters, job);
    var skill := job => PassesSkills(filters, job);
    var s := SectionKeys(filters, "workingSchedule");
    var k := SectionKeys(filters, "skills");
    if |filters| == 0 {
      assert s == {} && k == {};
      FilterKeepsAll(jobs, both);
    } else {
      if s == {} {
        FilterKeepsAll(jobs, sched);
      } else {
        FilterCongruent(jobs, job => ScheduleMatches(job, s), sched);
      }
      assert ScheduleStage(jobs, filters) == Filter(jobs, sched);
      var mid := Filter(jobs, sched);
      if k == {} {
        FilterKeepsAll(mid, skill);
      } else {
        FilterCongruent(mid, job => SkillsMatch(job, k), skill);
      }
      assert SkillsStage(mid, filters) == Filter(mid, skill);
      FilterFuse(jobs, sched, skill, both);
    }
  }

  /** The staged pipeline computes exactly the reference definition: the jobs of
      the catalogue that pass every active dimension, in catalogue order. */
  lemma FilterJobsIsConjunction(allJobs: seq<Job>, q: Query)
    ensures FilterJobs(allJobs, q) == Filter(allJobs, job => Admits(q, job))
  {
    var ps := job => PassesSearch(q.searchTerm, job);
    var pc := job => PassesCategory(q.category, job);
    var pa := job => PassesSchedule(q.filters, job) && PassesSkills(q.filters, job);
    var psc := job => PassesSearch(q.searchTerm, job) && PassesCategory(q.category, job);
    var all := job => Admits(q, job);
    SearchStageIsFilter(allJobs, q.searchTerm);
    CategoryStageIsFilter(SearchStage(allJobs, q.searchTerm), q.category);
    FilterFuse(allJobs, ps, pc, psc);
    AdvancedStageIsFilter(Filter(allJobs, psc), q.filters);
    FilterFuse(allJobs, psc, pa, all);
  }

  /** Soundness and completeness of the pipeline, and order preservation: a job
      is in the result iff it is in the catalogue and passes every active
      dimension, and the result is a subsequence of the catalogue. */
  lemma FilteredMembership(allJobs: seq<Job>, q: Query, job: Job)
    ensures job in FilterJobs(allJobs, q) <==> job in allJobs && Admits(q, job)
    ensures SubsequenceOf(FilterJobs(allJobs, q), allJobs)
  {
    FilterJobsIsConjunction(allJobs, q);
    FilterMembership(allJobs, job => Admits(q, job), job);
  }

  /** With no search term, no category and an advanced-filter object without
      keys, the result is the catalogue itself. */
  lemma NoFiltersIsIdentity(allJobs: seq<Job>)
    ensures FilterJobs(allJobs, Query("", "", map[])) == allJobs
  {
  }

  /** Filters whose toggles are all off filter nothing. */
  lemma InactiveTogglesIsIdentity(allJobs: seq<Job>, filters: AdvancedFilters)
    requires forall section, option :: section in filters && option in filters[section] ==> !filters[section][option]
    ensures FilterJobs(allJobs, Query("", "", filters)) == allJobs
  {
    assert SectionKeys(filters, "workingSchedule") == {};
    assert SectionKeys(filters, "skills") == {};
  }

  /** Search looks at title, company and skills only: postings that agree on those
      three fields pass or fail together, whatever their location, type, salary,
      experience, date or id. */
  lemma SearchIgnoresOtherFields(term: string, a: Job, b: Job)
    requires a.title == b.title && a.company == b.company && a.skills == b.skills
    ensures PassesSearch(term, a) == PassesSearch(term, b)
  {
  }

  /** Search is case-insensitive: terms that lower-case alike select alike. */
  lemma SearchCaseInsensitive(t1: string, t2: string, job: Job)
    requires t1 != "" && t2 != "" && Lower(t1) == Lower(t2)
    ensures PassesSearch(t1, job) == PassesSearch(t2, job)
  {
  }

  /** A posting always matches a search for its own title. */
  lemma SearchFindsOwnTitle(job: Job)
    ensures PassesSearch(job.title, job)
  {
    ContainsSelf(Lower(job.title));
  }

  /** Exactly six category names have a rule; all are case-sensitive. */
  lemma KnownCategories(category: string)
    ensures RuleFor(category).Some?
        <==> category in ["HR", "Developer", "Designer", "SEO", "Marketing", "Data Entry"]
  {
  }

  /** A non-empty category outside the six, such as "developer" in lower case,
      leaves the list unchanged. */
  lemma UnknownCategoryIsIdentity(jobs: seq<Job>, category: string)
    requires RuleFor(category).None?
    ensures CategoryStage(jobs, category) == jobs
  {
  }

  /** The Developer and Designer skill tests are exact membership: a skill that
      merely contains a listed name does not count. */
  lemma DeveloperSkillIsExact()
    ensures !SkillMatchesRule("React Native", RuleFor("Developer").value.skillRule)
    ensures SkillMatchesRule("React", RuleFor("Developer").value.skillRule)
    ensures !SkillMatchesRule("figma", RuleFor("Designer").value.skillRule)
  {
  }

  /** With at least one active working-schedule key and none of them among
      fulltime / parttime / contract, no job survives the schedule stage. */
  lemma UnknownScheduleKeysMatchNothing(jobs: seq<Job>, filters: AdvancedFilters)
    requires SectionKeys(filters, "workingSchedule") != {}
    requires forall k :: k in SectionKeys(filters, "workingSchedule") ==> ScheduleNeedle(k).None?
    ensures ScheduleStage(jobs, filters) == []
  {
    var keys := SectionKeys(filters, "workingSchedule");
    var r := Filter(jobs, job => ScheduleMatches(job, keys));
    if |r| > 0 {
      FilterMembership(jobs, job => ScheduleMatches(job, keys), r[0]);
    }
  }

  /** A working-schedule toggle is read case-insensitively: {fullTime: true}
      activates the key "fulltime". */
  lemma FullTimeToggleKey()
    ensures ActiveKeys(map["fullTime" := true]) == {"fulltime"}
    ensures ActiveKeys(map["fullTime" := false]) == {}
  {
    assert Lower("fullTime") == "fulltime";
  }

  /** Only the "workingSchedule" and "skills" sections have any effect: two filter
      objects that agree on those two sections select the same jobs. */
  lemma OtherSectionsHaveNoEffect(allJobs: seq<Job>, q: Query, other: AdvancedFilters)
    requires SectionKeys(q.filters, "workingSchedule") == SectionKeys(other, "workingSchedule")
    requires SectionKeys(q.filters, "skills") == SectionKeys(other, "skills")
    ensures FilterJobs(allJobs, q) == FilterJobs(allJobs, q.(filters := other))
  {
    FilterJobsIsConjunction(allJobs, q);
    FilterJobsIsConjunction(allJobs, q.(filters := other));
    FilterCongruent(allJobs, job => Admits(q, job), job => Admits(q.(filters := other), job));
  }

  /** A posting misses a category when its title lacks the rule's needle and none
      of its skills satisfies the rule's skill test. */
  lemma MissesCategory(category: string, job: Job)
    requires RuleFor(category).Some?
    requires !Contains(job.title, RuleFor(category).value.titleNeedle)
    requires forall s :: s in job.skills ==> !SkillMatchesRule(s, RuleFor(category).value.skillRule)
    ensures !PassesCategory(category, job)
  {
  }

  /** With a single active working-schedule key that has a needle, a posting
      passes exactly when its lower-cased type contains that needle. */
  lemma ScheduleByKey(filters: AdvancedFilters, key: string, job: Job)
    requires SectionKeys(filters, "workingSchedule") == {key} && ScheduleNeedle(key).Some?
    ensures PassesSchedule(filters, job) <==> Contains(Lower(job.jobType), ScheduleNeedle(key).value)
  {
  }

  /** A posting misses a non-empty search term when none of the lower-cased title,
      company and skills contains the lower-cased term. */
  lemma MissesSearch(term: string, job: Job)
    requires term != ""
    requires !Contains(Lower(job.title), Lower(term)) && !Contains(Lower(job.company), Lower(term))
    requires forall s :: s in job.skills ==> !Contains(Lower(s), Lower(term))
    ensures !PassesSearch(term, job)
  {
  }

  /** With only a search term, the result is the search stage alone. */
  lemma SearchAlone(jobs: seq<Job>, term: string)
    ensures FilterJobs(jobs, Query(term, "", map[])) == Filter(jobs, job => PassesSearch(term, job))
  {
    var q := Query(term, "", map[]);
    FilterJobsIsConjunction(jobs, q);
    FilterCongruent(jobs, job => Admits(q, job), job => PassesSearch(term, job));
  }

  /** With only a category, the result is the category stage alone. */
  lemma CategoryAlone(jobs: seq<Job>, category: string)
    ensures FilterJobs(jobs, Query("", category, map[])) == Filter(jobs, job => PassesCategory(category, job))
  {
    var q := Query("", category, map[]);
    FilterJobsIsConjunction(jobs, q);
    FilterCongruent(jobs, job => Admits(q, job), job => PassesCategory(category, job));
  }

  /** With only working-schedule toggles, the result is the schedule stage alone. */
  lemma ScheduleAlone(jobs: seq<Job>, filters: AdvancedFilters)
    requires SectionKeys(filters, "skills") == {}
    ensures FilterJobs(jobs, Query("", "", filters)) == Filter(jobs, job => PassesSchedule(filters, job))
  {
    var q := Query("", "", filters);
    FilterJobsIsConjunction(jobs, q);
    FilterCongruent(jobs, job => Admits(q, job), job => PassesSchedule(filters, job));
  }

  // ---------------------------------------------------------------------------
  // Hook state

  /** The hook's state: its two arguments, its four pieces of state and the
      derived `filteredJobs`. */
  datatype Engine = Engine(
    allJobs: seq<Job>,
    jobsPerPage: nat,
    currentPage: int,
    searchTerm: string,
    selectedCategory: string,
    activeFilters: AdvancedFilters,
    filteredJobs: seq<Job>)

  function QueryOf(e: Engine): Query {
    Query(e.searchTerm, e.selectedCategory, e.activeFilters)
  }

  /** `filteredJobs` is what the pipeline gives for the current inputs. */
  predicate Consistent(e: Engine) {
    e.filteredJobs == FilterJobs(e.allJobs, QueryOf(e))
  }

  /** Two states with the same inputs (catalogue, page size, search term, category,
      advanced filters). */
  predicate SameInputs(a: Engine, b: Engine) {
    && a.allJobs == b.allJobs && a.jobsPerPage == b.jobsPerPage
    && a.searchTerm == b.searchTerm && a.selectedCategory == b.selectedCategory
    && a.activeFilters == b.activeFilters
  }

  /** The effect: recompute `filteredJobs` and go back to page 1. */
  function Recompute(e: Engine): (r: Engine)
    ensures Consistent(r) && r.currentPage == 1 && SameInputs(r, e)
  {
    e.(filteredJobs := FilterJobs(e.allJobs, QueryOf(e)), currentPage := 1)
  }

  /** First render plus the mount effect. */
  function Mount(allJobs: seq<Job>, jobsPerPage: nat): (r: Engine)
    ensures Consistent(r) && r.currentPage == 1
    ensures r.filteredJobs == allJobs
    ensures r.allJobs == allJobs && r.jobsPerPage == jobsPerPage
  {
    NoFiltersIsIdentity(allJobs);
    Recompute(Engine(allJobs, jobsPerPage, 1, "", "", map[], allJobs))
  }

  /** `setSearchTerm`. Setting the value it already has is a no-op (the effect
      only runs when a dependency changes); a new value re-filters and resets the
      page to 1. */
  function SetSearchTerm(e: Engine, term: string): (r: Engine)
    ensures r.searchTerm == term
    ensures r.allJobs == e.allJobs && r.jobsPerPage == e.jobsPerPage
    ensures r.selectedCategory == e.selectedCategory && r.activeFilters == e.activeFilters
    ensures Consistent(e) ==> Consistent(r)
    ensures term != e.searchTerm ==> Consistent(r) && r.currentPage == 1
    ensures term == e.searchTerm ==> r == e
  {
    if term == e.searchTerm then e else Recompute(e.(searchTerm := term))
  }

  /** `setSelectedCategory`, with the same no-op rule for an unchanged value. */
  function SetSelectedCategory(e: Engine, category: string): (r: Engine)
    ensures r.selectedCategory == category
    ensures r.allJobs == e.allJobs && r.jobsPerPage == e.jobsPerPage
    ensures r.searchTerm == e.searchTerm && r.activeFilters == e.activeFilters
    ensures Consistent(e) ==> Consistent(r)
    ensures category != e.selectedCategory ==> Consistent(r) && r.currentPage == 1
    ensures category == e.selectedCategory ==> r == e
  {
    if category == e.selectedCategory then e else Recompute(e.(selectedCategory := category))
  }

  /** `setActiveFilters`: the whole object is replaced, never merged. Values
      carry no object identity here, so a call stands for one passing a new
      object, which changes a dependency of the effect and so re-runs it. */
  function SetActiveFilters(e: Engine, filters: AdvancedFilters): (r: Engine)
    ensures r.activeFilters == filters
    ensures r.allJobs == e.allJobs && r.jobsPerPage == e.jobsPerPage
    ensures r.searchTerm == e.searchTerm && r.selectedCategory == e.selectedCategory
    ensures Consistent(r) && r.currentPage == 1
  {
    Recompute(e.(activeFilters := filters))
  }

  /** A new catalogue array passed to the hook: a changed dependency, so the
      effect runs again. */
  function SetAllJobs(e: Engine, allJobs: seq<Job>): (r: Engine)
    ensures r.allJobs == allJobs && r.jobsPerPage == e.jobsPerPage
    ensures r.searchTerm == e.searchTerm && r.selectedCategory == e.selectedCategory
    ensures r.activeFilters == e.activeFilters
    ensures Consistent(r) && r.currentPage == 1
  {
    Recompute(e.(allJobs := allJobs))
  }

  /** `setCurrentPage`: a plain state setter, with no clamping. */
  function SetCurrentPage(e: Engine, page: int): (r: Engine)
    ensures r.currentPage == page
    ensures SameInputs(r, e) && r.filteredJobs == e.filteredJobs
    ensures Consistent(e) ==> Consistent(r)
  {
    e.(currentPage := page)
  }

  /** `currentJobs`: the current page of `filteredJobs`. A page size of 0 puts
      both slice bounds at 0, so nothing is shown. */
  function CurrentJobs(e: Engine): (r: seq<Job>)
    ensures |r| <= e.jobsPerPage
    ensures e.currentPage >= 1 ==> SubsequenceOf(r, e.filteredJobs)
    ensures e.jobsPerPage == 0 ==> r == []
  {
    if e.jobsPerPage == 0 then []
    else
      PageIsSubsequence(e.filteredJobs, e.currentPage, e.jobsPerPage);
      Paging.Page(e.filteredJobs, e.currentPage, e.jobsPerPage)
  }

  /** Every page from 1 upwards is a subsequence of the list it pages. */
  lemma PageIsSubsequence<T(!new)>(xs: seq<T>, page: int, perPage: nat)
    requires perPage > 0
    ensures page >= 1 ==> SubsequenceOf(Paging.Page(xs, page, perPage), xs)
  {
    if page >= 1 {
      var a := Paging.Min(Paging.PageEnd(page, perPage) - perPage, |xs|);
      var b := Paging.Min(Paging.PageEnd(page, perPage), |xs|);
      SliceIsSubsequence(xs, a, b);
    }
  }

  /** `totalPages = Math.ceil(filteredJobs.length / jobsPerPage)`. */
  function TotalPages(e: Engine): (r: nat)
    requires e.jobsPerPage > 0
    ensures Paging.PageEnd(r, e.jobsPerPage) >= |e.filteredJobs|
    ensures r == 0 || Paging.PageEnd(r - 1, e.jobsPerPage) < |e.filteredJobs|
  {
    Paging.TotalPages(|e.filteredJobs|, e.jobsPerPage)
  }

  /** A contiguous slice is a subsequence. */
  lemma {:induction false} SliceIsSubsequence<T(!new)>(xs: seq<T>, a: nat, b: nat)
    requires a <= b <= |xs|
    ensures SubsequenceOf(xs[a..b], xs)
    decreases |xs|
  {
    if a > 0 {
      assert xs[a..b] == xs[1..][a - 1..b - 1];
      SliceIsSubsequence(xs[1..], a - 1, b - 1);
      SubsequenceDropFront(xs[a..b], xs);
    } else if b > 0 {
      assert xs[a..b][1..] == xs[1..][0..b - 1];
      SliceIsSubsequence(xs[1..], 0, b - 1);
    }
  }

  /** After a new search term the list shows the first `jobsPerPage` jobs that
      match it (the other setters reset the page the same way, see their
      contracts). */
  lemma ChangeShowsFirstPage(e: Engine, term: string)
    requires e.jobsPerPage > 0 && term != e.searchTerm
    ensures CurrentJobs(SetSearchTerm(e, term))
         == FilterJobs(e.allJobs, QueryOf(e).(searchTerm := term))[..Paging.Min(e.jobsPerPage, |FilterJobs(e.allJobs, QueryOf(e).(searchTerm := term))|)]
  {
  }

  /** Setting the same search term twice is the same as setting it once. */
  lemma SetSearchTermIdempotent(e: Engine, term: string)
    ensures SetSearchTerm(SetSearchTerm(e, term), term) == SetSearchTerm(e, term)
  {
  }

  /** The page setter does not clamp: a page past `totalPages` shows no jobs, and
      page 0 shows none either. */
  lemma UnclampedPageShowsNothing(e: Engine, page: int)
    requires e.jobsPerPage > 0 && (page > TotalPages(e) || page == 0)
    ensures CurrentJobs(SetCurrentPage(e, page)) == []
  {
    if page > 0 {
      Paging.PageBeyondEnd(e.filteredJobs, page, e.jobsPerPage);
    }
  }

  /** Pages 1..totalPages of the current state, laid end to end, are `filteredJobs`. */
  lemma PagesRebuildFilteredJobs(e: Engine)
    requires e.jobsPerPage > 0
    ensures Paging.Pages(e.filteredJobs, e.jobsPerPage, TotalPages(e)) == e.filteredJobs
  {
    Paging.PagesCoverAll(e.filteredJobs, e.jobsPerPage);
  }
}
