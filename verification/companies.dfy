/** The company directory: nine companies filtered by a name/location search
    and an industry choice, six per page, with a page bar. Unlike the job list,
    changing the search or the industry does not go back to page 1. */
module Companies {
  import opened Seqs
  import opened Strings
  import opened Paging
  import opened PageControls

  /** One company card. The star rating (a float) is not modelled. */
  datatype Company = Company(
    id: nat,
    name: string,
    logo: string,
    industry: string,
    location: string,
    employees: string,
    jobs: nat)

  const Amazon: Company := Company(1, "Amazon", "A", "Technology", "Seattle, WA", "1,000,000+", 123)
  const Microsoft: Company := Company(2, "Microsoft", "M", "Software", "Redmond, WA", "180,000+", 85)
  const Google: Company := Company(3, "Google", "G", "Technology", "Mountain View, CA", "150,000+", 92)
  const Apple: Company := Company(4, "Apple", "A", "Technology", "Cupertino, CA", "160,000+", 78)
  const Facebook: Company := Company(5, "Facebook", "F", "Social Media", "Menlo Park, CA", "70,000+", 65)
  const Netflix: Company := Company(6, "Netflix", "N", "Entertainment", "Los Gatos, CA", "12,000+", 42)
  const Tesla: Company := Company(7, "Tesla", "T", "Automotive", "Palo Alto, CA", "100,000+", 56)
  const Adobe: Company := Company(8, "Adobe", "A", "Software", "San Jose, CA", "25,000+", 38)
  const Salesforce: Company := Company(9, "Salesforce", "S", "Cloud Computing", "San Francisco, CA", "70,000+", 47)

  /** `COMPANIES`, in source order. */
  const Directory: seq<Company> := [Amazon, Microsoft, Google, Apple, Facebook, Netflix, Tesla, Adobe, Salesforce]

  /** The industry buttons, "All Industries" first. */
  const Industries: seq<string> :=
    ["All Industries", "Technology", "Software", "Entertainment", "Automotive", "Cloud Computing",
     "Social Media", "Finance", "Healthcare"]

  const AllIndustries: string := "All Industries"

  const CompaniesPerPage: nat := 6

  /** Case-insensitive substring search over the name and the location only. */
  predicate MatchesSearch(term: string, c: Company) {
    Contains(Lower(c.name), Lower(term)) || Contains(Lower(c.location), Lower(term))
  }

  /** "All Industries" passes everything; any other choice is compared exactly. */
  predicate MatchesIndustry(industry: string, c: Company) {
    industry == AllIndustries || c.industry == industry
  }

  /** `filteredCompanies`: the companies matching both the search and the
      industry, in their original order. */
  function FilterCompanies(cs: seq<Company>, term: string, industry: string): (r: seq<Company>)
    ensures SubsequenceOf(r, cs)
  {
    Filter(cs, c => MatchesSearch(term, c) && MatchesIndustry(industry, c))
  }

  /** A company is listed exactly when it is in the directory and passes both tests. */
  lemma FilterCompaniesMembership(cs: seq<Company>, term: string, industry: string, c: Company)
    ensures c in FilterCompanies(cs, term, industry) <==> c in cs && MatchesSearch(term, c) && MatchesIndustry(industry, c)
  {
    FilterMembership(cs, c => MatchesSearch(term, c) && MatchesIndustry(industry, c), c);
  }

  /** The empty search matches every company. */
  lemma EmptySearchMatchesAll(c: Company)
    ensures MatchesSearch("", c)
  {
    assert Lower("") == "";
    ContainsEmpty(Lower(c.name));
  }

  /** Any industry other than "All Industries" is an exact, case-sensitive match. */
  lemma IndustryIsExact(industry: string, c: Company)
    requires industry != AllIndustries
    ensures MatchesIndustry(industry, c) <==> c.industry == industry
  {
  }

  /** With the empty search only the industry matters. */
  lemma IndustryAlone(cs: seq<Company>, industry: string)
    ensures FilterCompanies(cs, "", industry) == Filter(cs, c => MatchesIndustry(industry, c))
  {
    forall i | 0 <= i < |cs|
      ensures MatchesSearch("", cs[i])
    {
      EmptySearchMatchesAll(cs[i]);
    }
    FilterCongruent(cs, c => MatchesSearch("", c) && MatchesIndustry(industry, c), c => MatchesIndustry(industry, c));
  }

  /** No search and "All Industries" list every company. */
  lemma NoFilterListsAll(cs: seq<Company>)
    ensures FilterCompanies(cs, "", AllIndustries) == cs
  {
    IndustryAlone(cs, AllIndustries);
    FilterKeepsAll(cs, c => MatchesIndustry(AllIndustries, c));
  }

  /** The page's state. */
  datatype DirectoryState = DirectoryState(searchTerm: string, currentPage: int, selectedIndustry: string, showFilters: bool)

  const Initial: DirectoryState := DirectoryState("", 1, AllIndustries, false)

  function Filtered(s: DirectoryState): seq<Company> {
    FilterCompanies(Directory, s.searchTerm, s.selectedIndustry)
  }

  /** `currentCompanies`: the current page of the filtered companies. */
  function CurrentCompanies(s: DirectoryState): (r: seq<Company>)
    ensures |r| <= CompaniesPerPage
    ensures s.currentPage >= 1 ==> r == Filtered(s)[Min(PageEnd(s.currentPage, CompaniesPerPage) - CompaniesPerPage, |Filtered(s)|)..Min(PageEnd(s.currentPage, CompaniesPerPage), |Filtered(s)|)]
  {
    Page(Filtered(s), s.currentPage, CompaniesPerPage)
  }

  /** `Math.ceil(filteredCompanies.length / companiesPerPage)`. */
  function TotalPages(s: DirectoryState): (r: nat)
    ensures PageEnd(r, CompaniesPerPage) >= |Filtered(s)|
    ensures r == 0 || PageEnd(r - 1, CompaniesPerPage) < |Filtered(s)|
  {
    CeilDiv(|Filtered(s)|, CompaniesPerPage)
  }

  /** The page bar is mounted only when the matches overflow one page, and then
      there are at least two pages. */
  predicate PaginationShown(s: DirectoryState) {
    |Filtered(s)| > CompaniesPerPage
  }

  lemma ShownPaginationHasSeveralPages(s: DirectoryState)
    ensures PaginationShown(s) ==> TotalPages(s) >= 2
    ensures !PaginationShown(s) ==> TotalPages(s) <= 1
  {
    if PaginationShown(s) {
      CeilDivAtLeastTwo(|Filtered(s)|, CompaniesPerPage);
    } else {
      PageEndOrder(1, TotalPages(s), CompaniesPerPage);
    }
  }

  /** A click on the page bar. */
  function ClickBar(s: DirectoryState, click: Click): (r: DirectoryState)
    ensures r.searchTerm == s.searchTerm && r.selectedIndustry == s.selectedIndustry
    ensures 1 <= s.currentPage <= TotalPages(s) && Offered(click, TotalPages(s)) ==> 1 <= r.currentPage <= TotalPages(s)
  {
    s.(currentPage := Apply(s.currentPage, TotalPages(s), click))
  }

  /** "Show Filters" / "Hide Filters". */
  function ToggleFilters(s: DirectoryState): (r: DirectoryState)
    ensures r.showFilters != s.showFilters
    ensures r.(showFilters := s.showFilters) == s
  {
    s.(showFilters := !s.showFilters)
  }

  /** `setSearchTerm` as written: the page number is kept. */
  function SetSearchTerm(s: DirectoryState, term: string): (r: DirectoryState)
    ensures r.searchTerm == term && r.currentPage == s.currentPage
    ensures r.selectedIndustry == s.selectedIndustry
  {
    s.(searchTerm := term)
  }

  /** `setSelectedIndustry` as written: the page number is kept. */
  function SetIndustry(s: DirectoryState, industry: string): (r: DirectoryState)
    ensures r.selectedIndustry == industry && r.currentPage == s.currentPage
    ensures r.searchTerm == s.searchTerm
  {
    s.(selectedIndustry := industry)
  }

  /** On page 2 of the unfiltered directory, choosing "Technology" keeps page 2,
      which is empty although three companies match: the list shows nothing. */
  lemma StalePageAfterIndustryChange()
    ensures CurrentCompanies(Initial.(currentPage := 2)) == [Tesla, Adobe, Salesforce]
    ensures Filtered(SetIndustry(Initial.(currentPage := 2), "Technology")) == [Amazon, Google, Apple]
    ensures CurrentCompanies(SetIndustry(Initial.(currentPage := 2), "Technology")) == []
  {
    UnfilteredSecondPage();
    TechnologyCompanies();
    assert PageEnd(2, CompaniesPerPage) == 12;
  }

  /** The search setter with the page reset the job list performs. */
  function SetSearchTermResetting(s: DirectoryState, term: string): (r: DirectoryState)
    ensures r.searchTerm == term && r.currentPage == 1
    ensures r.selectedIndustry == s.selectedIndustry
  {
    s.(searchTerm := term, currentPage := 1)
  }

  /** The industry setter with the page reset the job list performs. */
  function SetIndustryResetting(s: DirectoryState, industry: string): (r: DirectoryState)
    ensures r.selectedIndustry == industry && r.currentPage == 1
    ensures r.searchTerm == s.searchTerm
  {
    s.(selectedIndustry := industry, currentPage := 1)
  }

  /** With the page reset, a change that leaves any match shows the first
      matches, never an empty page. */
  lemma ResettingShowsFirstMatches(s: DirectoryState, term: string, industry: string)
    ensures var t := SetSearchTermResetting(s, term);
      CurrentCompanies(t) == Filtered(t)[..Min(CompaniesPerPage, |Filtered(t)|)]
      && (|Filtered(t)| > 0 ==> |CurrentCompanies(t)| > 0)
    ensures var t := SetIndustryResetting(s, industry);
      CurrentCompanies(t) == Filtered(t)[..Min(CompaniesPerPage, |Filtered(t)|)]
      && (|Filtered(t)| > 0 ==> |CurrentCompanies(t)| > 0)
  {
    assert PageEnd(1, CompaniesPerPage) == CompaniesPerPage;
  }

  /** Unfiltered, the directory lists all nine companies in order. */
  lemma UnfilteredListsAll(s: DirectoryState)
    requires s.searchTerm == "" && s.selectedIndustry == AllIndustries
    ensures Filtered(s) == Directory
  {
    NoFilterListsAll(Directory);
  }

  /** Unfiltered, the nine companies take two pages. */
  lemma UnfilteredPageCount()
    ensures TotalPages(Initial) == 2
  {
    UnfilteredListsAll(Initial);
    assert PageEnd(2, CompaniesPerPage) == 12;
    CeilDivAtLeastTwo(9, CompaniesPerPage);
    PageEndOrder(2, TotalPages(Initial), CompaniesPerPage);
  }

  /** Unfiltered, page 1 shows the first six companies. */
  lemma UnfilteredFirstPage()
    ensures CurrentCompanies(Initial) == [Amazon, Microsoft, Google, Apple, Facebook, Netflix]
  {
    UnfilteredListsAll(Initial);
    assert PageEnd(1, CompaniesPerPage) == 6;
  }

  /** Unfiltered, page 2 shows the last three companies. */
  lemma UnfilteredSecondPage()
    ensures CurrentCompanies(Initial.(currentPage := 2)) == [Tesla, Adobe, Salesforce]
  {
    UnfilteredListsAll(Initial.(currentPage := 2));
    assert PageEnd(2, CompaniesPerPage) == 12;
  }

  /** Any filter of the directory, three companies at a time. */
  lemma FilterByThirds(p: Company -> bool)
    ensures Filter(Directory, p)
         == Filter([Amazon, Microsoft, Google], p) + Filter([Apple, Facebook, Netflix], p) + Filter([Tesla, Adobe, Salesforce], p)
  {
    assert Directory == [Amazon, Microsoft, Google] + [Apple, Facebook, Netflix] + [Tesla, Adobe, Salesforce];
    FilterAppend([Amazon, Microsoft, Google], [Apple, Facebook, Netflix], p);
    FilterAppend([Amazon, Microsoft, Google] + [Apple, Facebook, Netflix], [Tesla, Adobe, Salesforce], p);
  }

  /** "Technology" lists Amazon, Google and Apple (ids 1, 3 and 4). */
  lemma TechnologyCompanies()
    ensures FilterCompanies(Directory, "", "Technology") == [Amazon, Google, Apple]
  {
    var p := c => MatchesIndustry("Technology", c);
    IndustryAlone(Directory, "Technology");
    FilterByThirds(p);
    FilterThree(Amazon, Microsoft, Google, p);
    FilterThree(Apple, Facebook, Netflix, p);
    FilterThree(Tesla, Adobe, Salesforce, p);
  }

  /** "Finance" is offered as a button but no company belongs to it. */
  lemma FinanceIsEmpty()
    ensures "Finance" in Industries
    ensures FilterCompanies(Directory, "", "Finance") == []
  {
    var p := c => MatchesIndustry("Finance", c);
    IndustryAlone(Directory, "Finance");
    FilterByThirds(p);
    FilterThree(Amazon, Microsoft, Google, p);
    FilterThree(Apple, Facebook, Netflix, p);
    FilterThree(Tesla, Adobe, Salesforce, p);
  }
}
