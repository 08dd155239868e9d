# Job board front end: filtering, paging and form rules in Dafny

This project models the decision logic of a job-board web front end, a React
application, as pure Dafny functions over immutable data, and proves what that
logic promises.

- **The job filtering hook** (`useJobFiltering`). It narrows a list of job
  postings in four stages that are ANDed:
  - a case-insensitive text search over title, company and skills;
  - one of six named categories, each with case-sensitive rules;
  - the "working schedule" toggles;
  - the "skills" toggles.

  After every change of its inputs it resets to page 1. It slices the
  filtered list into pages of `jobsPerPage`.
- **The twelve-posting mock catalogue**, with the exact results of the
  category, search and schedule filters on it.
- **The page bars** of the job list, the landing page, the application
  tracker and the company directory: the clamped Previous/Next buttons, the
  links 1..totalPages with one active link, and when each bar is shown.
- **The company directory's** own name/location and industry filter.
- **The application tracker's** status → progress-step mapping, its progress
  dots and its badges.
- **The "All Filters" panel's** expand/collapse list.
- **The résumé section dialog**: per-section form configurations,
  required-field validation and Save.
- **The résumé builder's** section list, which stores a saved section by id.
- **The résumé upload box**: the MIME-type and 5 MiB checks, the drag
  highlight, Delete and Parse.

Modules follow the source files:

| module | models |
|---|---|
| `Strings` | ASCII `toLowerCase` and `String.prototype.includes` |
| `Seqs` | order-preserving `Array.prototype.filter` |
| `Paging` | `slice((p-1)*n, p*n)` with JavaScript's negative-index rules, `Math.ceil(len/n)`, the clamps |
| `Jobs` | the posting record |
| `JobFiltering` | the hook's stages, the pipeline and the hook's state |
| `MockJobs`, `CatalogueFacts`, `CatalogueScenarios` | the catalogue and its scenarios |
| `PageControls`, `JobPagination` | the page bar |
| `JobContent` | the job list area |
| `IndexPage` | the landing page |
| `ApplicationStatus` | the application tracker |
| `Companies` | the company directory |
| `JobFilters` | the filter panel |
| `ResumeDialog` | the section dialog |
| `ResumeBuilder` | the builder page |
| `ResumeUpload` | the upload box |

A React state setter followed by the filtering effect is modelled as one
synchronous transition. That transition takes React's bail-out into account:
setting a string state to its current value re-renders nothing and so does not
re-run the effect. The model has no object identity, so each `SetActiveFilters`
and `SetAllJobs` transition stands for a call with a new object: React compares
the effect's dependencies by reference, and a new object re-runs the effect.

The hook's `setCurrentPage` is a plain state setter. It does not clamp, so a
page beyond the last one, or page 0, shows no jobs (`UnclampedPageShowsNothing`).
Clamping happens only in the page-bar buttons.

## Model

| member | source | states |
|---|---|---|
| Strings.Lower | src/hooks/useJobFiltering.ts:18 | lower-casing keeps the length and every character that is not an ASCII capital; each capital becomes the letter at its place in the alphabet, so no capital remains |
| Strings.LowerIdempotent | src/hooks/useJobFiltering.ts:18 | lower-casing twice is lower-casing once |
| Strings.ContainsIffOccurs | src/hooks/useJobFiltering.ts:20-22 | the executable `includes` holds exactly when the needle occurs at some index of the haystack (both directions) |
| Strings.NotContainsMissingChar | src/hooks/useJobFiltering.ts:20-22 | a needle with a character absent from the haystack is not contained |
| Seqs.Filter | src/hooks/useJobFiltering.ts:19-23 | `filter` returns an order-preserving subsequence of its input |
| Seqs.FilterCount | src/hooks/useJobFiltering.ts:19-23 | every value kept by the predicate appears in the result as often as in the input; every other value does not appear |
| Seqs.FilterMembership | src/hooks/useJobFiltering.ts:19-23 | an element is in the result exactly when it is in the input and satisfies the predicate |
| Seqs.FilterFuse | src/hooks/useJobFiltering.ts:14-107 | filtering by one stage and then another equals one filter by their conjunction |
| Seqs.FilterAppend | src/hooks/useJobFiltering.ts:19-23 | filtering distributes over concatenation |
| Seqs.FilterIdempotent | src/hooks/useJobFiltering.ts:19-23 | applying the same filter again changes nothing |
| Paging.CeilDiv | src/hooks/useJobFiltering.ts:117 | `Math.ceil(a/n)` is the least page count whose pages hold all `a` items |
| Paging.CeilDivZero | src/hooks/useJobFiltering.ts:117 | the page count is 0 exactly when the list is empty |
| Paging.CeilDivAtLeastTwo | src/components/JobContent.tsx:66-71 | more than `n` items need at least two pages |
| Paging.Page | src/hooks/useJobFiltering.ts:114-116 | page `p >= 1` is the clipped index range `[(p-1)n, pn)`, page 0 is empty, and no page holds more than `n` items |
| Paging.PageInRange | src/hooks/useJobFiltering.ts:114-117 | every page from 1 to totalPages is non-empty, and every page before the last is full |
| Paging.PageBeyondEnd | src/hooks/useJobFiltering.ts:114-117 | a page after the last one is empty |
| Paging.ItemPage | src/hooks/useJobFiltering.ts:114-117 | item `i` appears on page `i / n + 1`, at position `i % n`, and that page is in range |
| Paging.PagesCoverAll | src/hooks/useJobFiltering.ts:114-117 | pages 1..totalPages concatenated give back the whole list |
| Paging.PrevPage | src/components/JobPagination.tsx:30 | Previous never goes below 1, steps back by one above page 1, and stays at 1 on page 1 |
| Paging.NextPage | src/components/JobPagination.tsx:55 | Next never goes above totalPages, steps forward by one before the end, and stays at the end |
| Paging.ControlsStayInRange | src/components/JobPagination.tsx:30-55 | from a page in range both buttons stay in range, and each is a no-op exactly at its end |
| Paging.PrevNextInverse | src/components/JobPagination.tsx:30-55 | away from the ends, Previous then Next and Next then Previous return to the same page |
| Paging.PageLinks | src/components/JobPagination.tsx:35 | the links are exactly 1..totalPages, strictly increasing |
| Paging.ExactlyOneActiveLink | src/components/JobPagination.tsx:35-43 | exactly the current page's link is active when the page is in range; otherwise none is |
| JobFiltering.ActiveKeys | src/hooks/useJobFiltering.ts:76-78 | the lower-cased keys of exactly the truthy toggles |
| JobFiltering.SearchStageIsFilter | src/hooks/useJobFiltering.ts:17-24 | the search stage keeps exactly the jobs whose lower-cased title, company or a skill contains the lower-cased term, in order; an empty term keeps all |
| JobFiltering.CategoryStageIsFilter | src/hooks/useJobFiltering.ts:27-70 | the category stage keeps exactly the jobs that pass the selected category's rule, in order |
| JobFiltering.AdvancedStageIsFilter | src/hooks/useJobFiltering.ts:73-107 | the advanced stage keeps exactly the jobs that pass both the schedule and the skills toggles |
| JobFiltering.FilterJobsIsConjunction | src/hooks/useJobFiltering.ts:14-107 | the pipeline equals one filter by the AND of all four stage predicates |
| JobFiltering.FilteredMembership | src/hooks/useJobFiltering.ts:14-107 | a job is in `filteredJobs` exactly when it is in `allJobs` and passes every stage, and the result is an order-preserving subsequence |
| JobFiltering.NoFiltersIsIdentity | src/hooks/useJobFiltering.ts:13-73 | with no term, no category and no advanced filters the result is `allJobs` itself |
| JobFiltering.InactiveTogglesIsIdentity | src/hooks/useJobFiltering.ts:75-106 | advanced filters whose toggles are all false filter nothing |
| JobFiltering.SearchIgnoresOtherFields | src/hooks/useJobFiltering.ts:19-23 | two jobs with the same title, company and skills pass or fail the search alike; location, type and salary are never searched |
| JobFiltering.SearchCaseInsensitive | src/hooks/useJobFiltering.ts:18-22 | terms equal up to ASCII case select the same jobs |
| JobFiltering.SearchFindsOwnTitle | src/hooks/useJobFiltering.ts:20 | searching for a job's own title finds it |
| JobFiltering.KnownCategories | src/hooks/useJobFiltering.ts:28-69 | exactly the six names HR, Developer, Designer, SEO, Marketing and Data Entry have a rule |
| JobFiltering.UnknownCategoryIsIdentity | src/hooks/useJobFiltering.ts:27-70 | any other category leaves the list unchanged |
| JobFiltering.DeveloperSkillIsExact | src/hooks/useJobFiltering.ts:38-48 | the Developer and Designer skill tests are exact, case-sensitive list membership ("React Native" and "figma" do not match) |
| JobFiltering.MissesCategory | src/hooks/useJobFiltering.ts:27-70 | a job whose title lacks the category's needle and none of whose skills match the rule is rejected |
| JobFiltering.FullTimeToggleKey | src/hooks/useJobFiltering.ts:76-78 | a true `fullTime` toggle yields the key "fulltime"; a false one yields nothing |
| JobFiltering.ScheduleByKey | src/hooks/useJobFiltering.ts:81-89 | with one active schedule key the job passes exactly when its lower-cased type contains that key's needle |
| JobFiltering.UnknownScheduleKeysMatchNothing | src/hooks/useJobFiltering.ts:83-88 | active schedule keys outside fulltime/parttime/contract reject every job |
| JobFiltering.OtherSectionsHaveNoEffect | src/hooks/useJobFiltering.ts:73-106 | advanced-filter sections other than workingSchedule and skills do not change the result |
| JobFiltering.MissesSearch | src/hooks/useJobFiltering.ts:17-24 | a job none of whose searched fields contains the term is rejected |
| JobFiltering.SearchAlone | src/hooks/useJobFiltering.ts:14-24 | with only a term set, the result is the search filter of `allJobs` |
| JobFiltering.CategoryAlone | src/hooks/useJobFiltering.ts:14-70 | with only a category set, the result is the category filter of `allJobs` |
| JobFiltering.ScheduleAlone | src/hooks/useJobFiltering.ts:14-91 | with only schedule toggles set, the result is the schedule filter of `allJobs` |
| JobFiltering.Recompute | src/hooks/useJobFiltering.ts:13-111 | the effect makes `filteredJobs` agree with the inputs and sets page 1, touching no input |
| JobFiltering.Mount | src/hooks/useJobFiltering.ts:5-10 | the hook starts consistent on page 1 with `filteredJobs` equal to `allJobs` |
| JobFiltering.SetSearchTerm | src/hooks/useJobFiltering.ts:109-111 | a new term makes the state consistent and resets to page 1; the same term changes nothing; other inputs are kept |
| JobFiltering.SetSelectedCategory | src/hooks/useJobFiltering.ts:109-111 | the same for the category |
| JobFiltering.SetActiveFilters | src/hooks/useJobFiltering.ts:109-111 | a new filters object always makes the state consistent and resets to page 1 |
| JobFiltering.SetAllJobs | src/hooks/useJobFiltering.ts:109-111 | a new job list always makes the state consistent and resets to page 1 |
| JobFiltering.SetCurrentPage | src/hooks/useJobFiltering.ts:6 | the page takes the given value unclamped, and nothing else changes |
| JobFiltering.CurrentJobs | src/hooks/useJobFiltering.ts:114-116 | at most `jobsPerPage` jobs, an order-preserving subsequence of `filteredJobs` for any page from 1 on, and nothing at all for a page size of 0 |
| JobFiltering.TotalPages | src/hooks/useJobFiltering.ts:117 | the least page count that holds every filtered job |
| JobFiltering.ChangeShowsFirstPage | src/hooks/useJobFiltering.ts:109-116 | after a new term the list shows the first `jobsPerPage` matches of the new query |
| JobFiltering.SetSearchTermIdempotent | src/hooks/useJobFiltering.ts:111 | setting the same term twice is setting it once |
| JobFiltering.UnclampedPageShowsNothing | src/hooks/useJobFiltering.ts:114-126 | setting page 0 or a page beyond the last shows no jobs |
| JobFiltering.PagesRebuildFilteredJobs | src/hooks/useJobFiltering.ts:114-117 | the pages 1..totalPages together are exactly `filteredJobs` |
| MockJobs.CatalogueShape | src/data/mockJobs.ts:5-137 | twelve postings with ids "1".."12" in order, three skills each |
| MockJobs.CatalogueIdsDistinct | src/data/mockJobs.ts:5-137 | the catalogue's ids are pairwise distinct |
| CatalogueScenarios.UnfilteredPageCount | src/data/mockJobs.ts:5-137 | with no filters and six per page there are two pages |
| CatalogueScenarios.UnfilteredFirstPage | src/data/mockJobs.ts:5-137 | page 1 is postings 1–6 |
| CatalogueScenarios.UnfilteredSecondPage | src/data/mockJobs.ts:5-137 | page 2 is postings 7–12 |
| CatalogueScenarios.DesignerCategory | src/data/mockJobs.ts:5-137 | "Designer" yields postings 1 and 12 |
| CatalogueScenarios.DeveloperCategory | src/data/mockJobs.ts:5-137 | "Developer" yields postings 2 and 3 |
| CatalogueScenarios.HRCategory | src/data/mockJobs.ts:5-137 | "HR" yields posting 5 |
| CatalogueScenarios.SeoCategory | src/data/mockJobs.ts:5-137 | "SEO" yields postings 7 and 11 |
| CatalogueScenarios.MarketingCategory | src/data/mockJobs.ts:5-137 | "Marketing" yields posting 8 |
| CatalogueScenarios.DataEntryCategory | src/data/mockJobs.ts:5-137 | "Data Entry" yields postings 6 and 9 |
| CatalogueScenarios.ReactSearch | src/data/mockJobs.ts:5-137 | searching "react" yields posting 2 only |
| CatalogueScenarios.ReactFoundBySkill | src/data/mockJobs.ts:17-27 | posting 2 is found through its "React" skill; neither its title nor its company contains "react" |
| CatalogueScenarios.DevOpsIsNotDeveloper | src/data/mockJobs.ts:106-115 | posting 10 ("DevOps Engineer") fails the Developer rule |
| CatalogueScenarios.FullTimeSchedule | src/data/mockJobs.ts:5-137 | the fullTime toggle yields postings 1, 4, 6, 9, 10 and 12 |
| CatalogueScenarios.PartTimeSchedule | src/data/mockJobs.ts:5-137 | the partTime toggle yields postings 2, 7 and 11 |
| PageControls.Apply | src/components/JobPagination.tsx:28-56 | a click from a page in range lands in range; Previous never moves forward and Next never moves back |
| PageControls.OfferedLinksAreRendered | src/components/JobPagination.tsx:35-41 | the clickable pages are exactly the rendered links |
| PageControls.DisabledExactlyWhenNoOp | src/pages/Index.tsx:127-148 | Previous is disabled exactly when it would do nothing, and the same holds for Next |
| PageControls.ClicksUndoEachOther | src/components/JobPagination.tsx:30-55 | away from the ends, Previous and Next undo each other |
| JobPagination.Render | src/components/JobPagination.tsx:19-48 | nothing is rendered exactly when there is at most one page; otherwise the links are 1..totalPages in increasing order and only the current page's link is active |
| JobPagination.ActiveLinkShowsCurrentPage | src/components/JobPagination.tsx:43 | the active link's label is the current page |
| JobPagination.ClickKeepsOneActiveLink | src/components/JobPagination.tsx:30-55 | after any click from a page in range, exactly one link is active |
| JobContent.Content | src/components/JobContent.tsx:50-72 | the header counts all matches; "No jobs found" shows exactly when there are none; the list gets the current page, not all matches; the bar is mounted exactly when matches exceed `jobsPerPage` |
| JobContent.PaginationMeansSeveralPages | src/components/JobContent.tsx:66-71 | a mounted bar always has at least two pages, so its own one-page guard never hides it |
| JobContent.ListShowsPartOfMatches | src/components/JobContent.tsx:55-56 | on a page in range the list is a non-empty, order-preserving part of the matches of at most `jobsPerPage` jobs |
| JobContent.NewSearchShowsFirstMatches | src/components/JobContent.tsx:50-56 | after a new search with matches, the header counts them and the list is non-empty |
| IndexPage.TotalPages | src/pages/Index.tsx:89 | the least page count that holds the landing jobs |
| IndexPage.CurrentJobs | src/pages/Index.tsx:86-88 | a page shows at most six jobs |
| IndexPage.CountBadge | src/pages/Index.tsx:114 | the badge shows 6 on every page |
| IndexPage.ClickBar | src/pages/Index.tsx:126-148 | a bar click keeps the page in range and does not touch the modal |
| IndexPage.OpenJob | src/pages/Index.tsx:91-94 | clicking a job shows that job in the modal and keeps the page |
| IndexPage.CloseModal | src/pages/Index.tsx:175 | closing hides the modal but keeps the job selected |
| IndexPage.ShownJob | src/pages/Index.tsx:161 | the modal shows the selected job exactly when one is selected and the open flag is set |
| IndexPage.LandingSinglePage | src/pages/Index.tsx:11-89 | there is one page, and it shows all six jobs in order |
| IndexPage.SinglePageClicksAreNoOps | src/pages/Index.tsx:127-148 | on the single page both buttons are disabled and every click keeps page 1 |
| IndexPage.ReopenShowsSameJob | src/pages/Index.tsx:91-94 | open, close and reopen the same job: it is shown again, and the page is never touched |
| ApplicationStatus.StatusStep | src/components/ApplicationStatus.tsx:76-84 | the step is always 1..4; the four known statuses map to their positions 1..4; any other status maps to 1 |
| ApplicationStatus.StatusStepInjective | src/components/ApplicationStatus.tsx:76-84 | distinct known statuses have distinct steps |
| ApplicationStatus.Dots | src/components/ApplicationStatus.tsx:128-143 | dot `i` is filled exactly when the step is at least `i` |
| ApplicationStatus.FilledDotsFormPrefix | src/components/ApplicationStatus.tsx:128-143 | the filled dots form a prefix; for a step 1..4 exactly that many are filled |
| ApplicationStatus.Badges | src/components/ApplicationStatus.tsx:221-240 | a known status gets its own label; an unknown one gets none |
| ApplicationStatus.OneBadgePerKnownStatus | src/components/ApplicationStatus.tsx:221-240 | exactly one badge shows exactly when the status is known, and it names the status's progress step |
| ApplicationStatus.TotalPages | src/components/ApplicationStatus.tsx:186 | the least page count that holds the applications |
| ApplicationStatus.CurrentApplications | src/components/ApplicationStatus.tsx:183-185 | a page shows at most two applications |
| ApplicationStatus.ClickBar | src/components/ApplicationStatus.tsx:250-273 | a bar click keeps the page in range and does not touch the modal |
| ApplicationStatus.SelectApplication | src/components/ApplicationStatus.tsx:204 | clicking an application opens its modal and keeps the page |
| ApplicationStatus.CloseApplication | src/components/ApplicationStatus.tsx:193 | closing clears the selection and keeps the page |
| ApplicationStatus.MockPages | src/components/ApplicationStatus.tsx:181-186 | three applications at two per page: two pages, holding applications 1 and 2, then 3 |
| ApplicationStatus.MockBarEnds | src/components/ApplicationStatus.tsx:251-272 | Previous is disabled and a no-op on page 1, and so is Next on page 2 |
| ApplicationStatus.MockSteps | src/components/ApplicationStatus.tsx:6-61 | the mock applications are at steps 3, 2 and 1 |
| Companies.FilterCompanies | src/pages/Companies.tsx:132-138 | the directory filter returns an order-preserving subsequence |
| Companies.FilterCompaniesMembership | src/pages/Companies.tsx:132-138 | a company is listed exactly when it matches both the search and the industry |
| Companies.EmptySearchMatchesAll | src/pages/Companies.tsx:133-134 | an empty search matches every company |
| Companies.IndustryIsExact | src/pages/Companies.tsx:135 | any industry other than "All Industries" matches by exact equality |
| Companies.IndustryAlone | src/pages/Companies.tsx:132-138 | with an empty search the result is the industry filter alone |
| Companies.NoFilterListsAll | src/pages/Companies.tsx:132-138 | no search and "All Industries" lists every company in order |
| Companies.CurrentCompanies | src/pages/Companies.tsx:141-143 | at most six companies, the clipped range of the current page |
| Companies.TotalPages | src/pages/Companies.tsx:145 | the least page count that holds the filtered companies |
| Companies.ShownPaginationHasSeveralPages | src/pages/Companies.tsx:269 | the bar is shown exactly when there are at least two pages |
| Companies.ClickBar | src/pages/Companies.tsx:275-302 | a bar click keeps the page in range and the filters unchanged |
| Companies.ToggleFilters | src/pages/Companies.tsx:169 | the filter toggle flips the panel's visibility and nothing else |
| Companies.SetSearchTerm | src/pages/Companies.tsx:162 | the search setter keeps the current page |
| Companies.SetIndustry | src/pages/Companies.tsx:188 | the industry setter keeps the current page |
| Companies.StalePageAfterIndustryChange | src/pages/Companies.tsx:162-188 | on page 2, choosing "Technology" leaves three matches but shows none |
| Companies.SetSearchTermResetting | src/pages/Companies.tsx:162 | the corrected search setter returns to page 1 |
| Companies.SetIndustryResetting | src/pages/Companies.tsx:188 | the corrected industry setter returns to page 1 |
| Companies.ResettingShowsFirstMatches | src/pages/Companies.tsx:141-145 | after a corrected change the first matches are shown, and some are shown whenever any exist |
| Companies.UnfilteredListsAll | src/pages/Companies.tsx:132-138 | with no filter the list is the whole directory |
| Companies.UnfilteredPageCount | src/pages/Companies.tsx:18-145 | nine companies at six per page make two pages |
| Companies.UnfilteredFirstPage | src/pages/Companies.tsx:18-143 | page 1 lists the first six companies |
| Companies.UnfilteredSecondPage | src/pages/Companies.tsx:18-143 | page 2 lists Tesla, Adobe and Salesforce |
| Companies.TechnologyCompanies | src/pages/Companies.tsx:18-135 | "Technology" yields Amazon, Google and Apple |
| Companies.FinanceIsEmpty | src/pages/Companies.tsx:111-135 | "Finance" is offered but matches no company |
| JobFilters.ToggleSection | src/components/JobFilters.tsx:9-15 | the clicked section's membership flips; every other section keeps its membership |
| JobFilters.ToggleKeepsOrder | src/components/JobFilters.tsx:11-13 | removing keeps the others in order; adding appends at the end |
| JobFilters.ToggleKeepsNoDuplicates | src/components/JobFilters.tsx:9-15 | a list without duplicates stays without duplicates |
| JobFilters.ToggleTwiceRestoresMembership | src/components/JobFilters.tsx:9-15 | toggling a section twice restores every section's membership |
| JobFilters.ToggleTwiceMovesFrontToEnd | src/components/JobFilters.tsx:9-15 | toggling the first section twice moves it to the end |
| JobFilters.ToggleTwiceMayReorder | src/components/JobFilters.tsx:5-15 | on the initial list, closing and reopening "workingSchedule" changes the order |
| JobFilters.InitialAllExpanded | src/components/JobFilters.tsx:5-7 | the initial list has all seven sections without duplicates |
| JobFilters.ViewOf | src/components/JobFilters.tsx:28-30 | "−" shows exactly when the section is expanded; options show exactly when it is expanded and has options |
| JobFilters.ToggleFlipsOneView | src/components/JobFilters.tsx:25-158 | a header click flips its own symbol, and its options when it has any, and no other section's view |
| ResumeDialog.ParseType | src/components/ResumeDetailDialog.tsx:40-114 | a string selects a section type exactly when it is that type's name |
| ResumeDialog.ParseTypeName | src/components/ResumeDetailDialog.tsx:40-114 | every type's name selects that type |
| ResumeDialog.FieldsConfig | src/components/ResumeDetailDialog.tsx:39-115 | a string that names no type gets no fields |
| ResumeDialog.ConfigKnownIffNonEmpty | src/components/ResumeDetailDialog.tsx:39-115 | the form is non-empty exactly when the string names a type, and it is then that type's form |
| ResumeDialog.FormStartsRequired | src/components/ResumeDetailDialog.tsx:41-111 | every form starts with a required field |
| ResumeDialog.InternshipsLikeEmployment | src/components/ResumeDetailDialog.tsx:71-79 | internships and employment share one form |
| ResumeDialog.ConfigNamesDistinct | src/components/ResumeDetailDialog.tsx:41-111 | no form has two fields with the same name |
| ResumeDialog.MissingFields | src/components/ResumeDetailDialog.tsx:128-130 | the missing fields are an order-preserving subsequence of the form |
| ResumeDialog.MissingFieldsMembership | src/components/ResumeDetailDialog.tsx:128-130 | a field is missing exactly when it is required and its value is absent or empty |
| ResumeDialog.NothingMissingIff | src/components/ResumeDetailDialog.tsx:128-132 | nothing is missing exactly when every required field is filled |
| ResumeDialog.Labels | src/components/ResumeDetailDialog.tsx:130 | one label per missing field, in order |
| ResumeDialog.HandleChange | src/components/ResumeDetailDialog.tsx:119-122 | the typed key takes the value; every other key is kept |
| ResumeDialog.ChangeSettlesOnlyItsField | src/components/ResumeDetailDialog.tsx:119-130 | typing a value settles that field and leaves every other field's status alone |
| ResumeDialog.Submit | src/components/ResumeDetailDialog.tsx:124-142 | Save is refused exactly when a required field is unfilled, listing the labels and changing nothing; otherwise the form data is saved and the dialog closes |
| ResumeDialog.EmptyFormIsRejected | src/components/ResumeDetailDialog.tsx:128-139 | an empty form is never saved for any section type |
| ResumeDialog.RejectedSubmitIsStable | src/components/ResumeDetailDialog.tsx:132-139 | a refused Save, pressed again, is refused the same way |
| ResumeBuilder.InitialData | src/pages/ResumeBuilder.tsx:155 | the dialog is seeded with the section's data, or with nothing |
| ResumeBuilder.InitialSectionsShape | src/pages/ResumeBuilder.tsx:40-53 | twelve sections, none saved, no two of the same type |
| ResumeBuilder.InitialIdsDistinct | src/pages/ResumeBuilder.tsx:40-53 | the initial sections' ids are pairwise distinct |
| ResumeBuilder.IndexOfType | src/pages/ResumeBuilder.tsx:13-53 | every section type has a section in the initial list |
| ResumeBuilder.EveryTypeHasFields | src/pages/ResumeBuilder.tsx:13-25 | every section type's form is non-empty and has a required field |
| ResumeBuilder.OpenDialog | src/pages/ResumeBuilder.tsx:55-58 | opening activates the section and opens the dialog; the form is seeded only at the dialog's first mount |
| ResumeBuilder.OpenDialogFresh | src/pages/ResumeBuilder.tsx:55-58 | the corrected opening always shows the section's own saved data |
| ResumeBuilder.OpenDialogFreshAgreesFirstTime | src/pages/ResumeBuilder.tsx:149-157 | both openings differ only in the form, and agree on the first opening |
| ResumeBuilder.CloseDialog | src/pages/ResumeBuilder.tsx:153 | closing keeps the form, the active section and the list |
| ResumeBuilder.Type | src/components/ResumeDetailDialog.tsx:119-122 | typing changes only the form, and sets that key's value |
| ResumeBuilder.SaveSection | src/pages/ResumeBuilder.tsx:60-67 | nothing changes without an active section; otherwise the sections with the active id take the data, length and order are kept, and every other section is unchanged |
| ResumeBuilder.SaveSectionIdempotent | src/pages/ResumeBuilder.tsx:63-67 | saving the same data twice equals saving it once |
| ResumeBuilder.SaveChangesOnlyActive | src/pages/ResumeBuilder.tsx:63-67 | the section at each position keeps its id, and its data changes only when it is the active one |
| ResumeBuilder.PressSave | src/components/ResumeDetailDialog.tsx:124-142 | Save runs the dialog's check on the form; on success the form is stored in the active section and the dialog closes; on refusal nothing changes |
| ResumeBuilder.SavedDataReopens | src/pages/ResumeBuilder.tsx:55-67 | with the corrected opening, a saved section reopens showing its saved data |
| ResumeBuilder.TypedValueIsSavedAndReopened | src/pages/ResumeBuilder.tsx:55-67 | with the corrected opening, a typed and saved value is stored in that section and shown again when it reopens |
| ResumeBuilder.FormCarriesOverBetweenSections | src/pages/ResumeBuilder.tsx:149-157 | as written, a full name typed for Personal Details is still in the form when Education opens, though no Education field has that name |
| ResumeBuilder.FreshOpenStartsClean | src/pages/ResumeBuilder.tsx:149-157 | with the corrected opening, Education opens with an empty form in the same situation |
| ResumeUpload.HandleFile | src/components/ResumeUpload.tsx:38-66 | a wrong type is reported first, then an oversize; only a file passing both is held; a refused file changes nothing |
| ResumeUpload.HoldsFileIff | src/components/ResumeUpload.tsx:42-60 | afterwards the box holds the file exactly when it is acceptable or was already held |
| ResumeUpload.SizeBoundary | src/components/ResumeUpload.tsx:51-58 | 5,242,880 bytes are accepted; 5,242,881 are refused as too large |
| ResumeUpload.TypeCheckedFirst | src/components/ResumeUpload.tsx:42-58 | an oversized file of the wrong type is reported as the wrong type |
| ResumeUpload.DragOver | src/components/ResumeUpload.tsx:11-14 | drag-over turns the highlight on and keeps the file |
| ResumeUpload.DragLeave | src/components/ResumeUpload.tsx:16-19 | drag-leave turns the highlight off and keeps the file |
| ResumeUpload.Drop | src/components/ResumeUpload.tsx:21-29 | a drop turns the highlight off; an empty drop changes no file state; otherwise only the first file is handled |
| ResumeUpload.FileInput | src/components/ResumeUpload.tsx:31-36 | choosing files handles only the first; choosing none changes nothing |
| ResumeUpload.DropIgnoresLaterFiles | src/components/ResumeUpload.tsx:25-27 | files after the first play no part in a drop |
| ResumeUpload.DropAgreesWithFileInput | src/components/ResumeUpload.tsx:21-36 | dropping and choosing the same files end with the same file and notice |
| ResumeUpload.HandleDelete | src/components/ResumeUpload.tsx:68-75 | Delete drops the file and brings the drop zone back |
| ResumeUpload.HandleParse | src/components/ResumeUpload.tsx:77-95 | Parse reports nothing without a file; with one it reports "started" first and "parsed" last |
| ResumeUpload.UploadParseDelete | src/components/ResumeUpload.tsx:60-104 | accepting a file hides the drop zone and enables parsing; Delete restores the drop zone and disables parsing |
| ResumeUpload.RefusedFileKeepsDropZone | src/components/ResumeUpload.tsx:42-58 | a refused file leaves the drop zone up |

`CatalogueFacts` holds one small lemma per concrete string fact about the
catalogue, for example that a given title does not contain a given needle.
Its posting lemmas and the partial lemmas of `CatalogueScenarios` (per
triple and per half of the catalogue) are the steps of the scenario proofs
above.

## Left out

- Rendering. The JSX markup, styling, icons, section colours, the star rating `Math.floor(rating)` and every other float display (the size in KB, the progress percentages) are not modelled.
- Toasts and the two-second `setTimeout` after Parse are modelled only as outcome values: `SubmitOutcome` in the dialog and `Notice` in the upload box.
- The presentational components have no logic worth stating and are not part of this model: navigation bar, footer, job list, job detail modal, search bar, list header, sidebar, category tiles, profile, analytics and chart.
- The profile sidebar's dialog plumbing and the résumé-parsing serverless function (network I/O returning a fixed payload) are not part of this model. Neither is the Supabase client.
- Strings.Lower: models `toLowerCase` on ASCII letters only; Unicode case mapping is not modelled.
- JobFiltering.Recompute: React's scheduling is not modelled. The effect runs synchronously after each setter; with several setters in one event, React would run it once.
- JobFiltering.SetActiveFilters: passing the very object the hook already holds is a no-op in React (the dependency is unchanged by reference, so the page is kept); the model has no object identity and does not model that call. The same holds for `SetAllJobs` with the same array.
- JobFiltering.TotalPages: requires `jobsPerPage > 0`. The hook's callers are outside the modelled files, and the hook never checks the page size; with 0 it would compute `Infinity` (or `NaN` for an empty list), which is not a page count.
- The advanced filters are an input map from section name to a map from option to bool. The panel's checkboxes are uncontrolled and never feed that map, so the panel is modelled only for its expand/collapse list.
- ResumeDialog.FormData: maps strings to strings. Inputs only ever write strings, so other value types cannot arise.
- The dialog's `title` prop is shown in the dialog header and in the "Section updated" toast (src/components/ResumeDetailDialog.tsx:145-146, 154). Both are display only and fall under the Rendering and Toasts lines above.
- Companies.ClickBar: the company directory's bar has no disabled attributes. Its clamps are the shared `PageControls.Apply`.
- Object identity: jobs, companies and sections are values, so "the same object" is equality of contents.

## Findings

| source | as written | input that shows it | evidently intended | confidence | as-written member | corrected member |
|---|---|---|---|---|---|---|
| src/pages/Companies.tsx:162-188 | changing the search term or the industry keeps the current page | on page 2 of the unfiltered directory, choose "Technology": three companies match, but page 2 of three is empty, so none is shown and the bar is hidden | return to page 1 on every filter change, as the job list's hook does | high (not executed) | Companies.StalePageAfterIndustryChange | Companies.ResettingShowsFirstMatches |
| src/pages/ResumeBuilder.tsx:149-157 | the section dialog stays mounted once any section has been opened; its form state is seeded only at that first mount, so later sections open with the previous section's form | open Personal Details, type a full name, close, open Education: the form still holds "fullName"; once Education's own required fields are filled, Save stores it in the Education section | seed the form from the opened section's own data on every opening | high (not executed) | ResumeBuilder.FormCarriesOverBetweenSections | ResumeBuilder.FreshOpenStartsClean |
