/** What the job list shows for each category, the search for "react" and each
    working-schedule box, applied on their own to the catalogue. Each result is
    put together from three-posting pieces, then halves of the catalogue. */
module CatalogueScenarios {
  import opened Seqs
  import opened Jobs
  import opened MockJobs
  import opened JobFiltering
  import opened Strings
  import opened CatalogueFacts
  import Paging

  /** The catalogue is its first six postings followed by its last six. */
  lemma CatalogueHalves()
    ensures Catalogue == [Job1, Job2, Job3, Job4, Job5, Job6] + [Job7, Job8, Job9, Job10, Job11, Job12]
  {
  }

  /** With no filters and six postings per page there are two pages. */
  lemma UnfilteredPageCount()
    ensures TotalPages(Mount(Catalogue, 6)) == 2
  {
    CatalogueShape();
    assert Paging.PageEnd(2, 6) == 12;
    Paging.CeilDivExact(2, 6);
  }

  /** With no filters and six postings per page, page 1 shows postings 1 to 6. */
  lemma UnfilteredFirstPage()
    ensures CurrentJobs(Mount(Catalogue, 6)) == [Job1, Job2, Job3, Job4, Job5, Job6]
  {
    CatalogueShape();
    CatalogueHalves();
    assert Paging.PageEnd(1, 6) == 6;
  }

  /** With no filters and six postings per page, page 2 shows postings 7 to 12. */
  lemma UnfilteredSecondPage()
    ensures CurrentJobs(SetCurrentPage(Mount(Catalogue, 6), 2)) == [Job7, Job8, Job9, Job10, Job11, Job12]
  {
    CatalogueShape();
    CatalogueHalves();
    assert Paging.PageEnd(2, 6) == 12;
  }

  /** Posting 2 answers the search for "react" through its "React" skill alone:
      neither its title nor its company contains the term. */
  lemma ReactFoundBySkill()
    ensures "React" in Job2.skills && Contains(Lower("React"), "react")
    ensures !Contains(Lower(Job2.title), "react") && !Contains(Lower(Job2.company), "react")
  {
    ReactLowerVsReact();
    FrontendDeveloperLowerVsReact();
    MicrosoftLowerVsReact();
  }

  /** "DevOps Engineer" is not a developer posting: its title lacks "Developer",
      none of its skills is on the developer list, and the category drops it. */
  lemma DevOpsIsNotDeveloper()
    ensures !Contains(Job10.title, "Developer")
    ensures forall s :: s in Job10.skills ==> s !in DeveloperSkills
    ensures !PassesCategory("Developer", Job10)
  {
    DevOpsEngineerVsDeveloper();
    Posting10Developer(Job10);
  }

  /** With only "Full Time" ticked, the job list is the working-schedule stage alone. */
  lemma FullTimeScheduleIsStage()
    ensures FilterJobs(Catalogue, Query("", "", FullTimeOnly)) == Filter(Catalogue, job => PassesSchedule(FullTimeOnly, job))
  {
    FullTimeOnlyKeys();
    ScheduleAlone(Catalogue, FullTimeOnly);
  }

  /** With only "Part Time" ticked, the job list is the working-schedule stage alone. */
  lemma PartTimeScheduleIsStage()
    ensures FilterJobs(Catalogue, Query("", "", PartTimeOnly)) == Filter(Catalogue, job => PassesSchedule(PartTimeOnly, job))
  {
    PartTimeOnlyKeys();
    ScheduleAlone(Catalogue, PartTimeOnly);
  }

  /** Choosing the "Designer" category keeps ["1"] of postings 1 to 3. */
  lemma DesignerCategoryOn1To3()
    ensures Filter([Job1, Job2, Job3], job => PassesCategory("Designer", job)) == [Job1]
  {
    Posting1Designer(Job1);
    Posting2Designer(Job2);
    Posting3Designer(Job3);
    FilterThree(Job1, Job2, Job3, job => PassesCategory("Designer", job));
  }

  /** Choosing the "Designer" category keeps none of postings 4 to 6. */
  lemma DesignerCategoryOn4To6()
    ensures Filter([Job4, Job5, Job6], job => PassesCategory("Designer", job)) == []
  {
    Posting4Designer(Job4);
    Posting5Designer(Job5);
    Posting6Designer(Job6);
    FilterThree(Job4, Job5, Job6, job => PassesCategory("Designer", job));
  }

  /** Choosing the "Designer" category keeps none of postings 7 to 9. */
  lemma DesignerCategoryOn7To9()
    ensures Filter([Job7, Job8, Job9], job => PassesCategory("Designer", job)) == []
  {
    Posting7Designer(Job7);
    Posting8Designer(Job8);
    Posting9Designer(Job9);
    FilterThree(Job7, Job8, Job9, job => PassesCategory("Designer", job));
  }

  /** Choosing the "Designer" category keeps ["12"] of postings 10 to 12. */
  lemma DesignerCategoryOn10To12()
    ensures Filter([Job10, Job11, Job12], job => PassesCategory("Designer", job)) == [Job12]
  {
    Posting10Designer(Job10);
    Posting11Designer(Job11);
    Posting12Designer(Job12);
    FilterThree(Job10, Job11, Job12, job => PassesCategory("Designer", job));
  }

  /** Choosing the "Designer" category keeps ["1"] of postings 1 to 6. */
  lemma DesignerCategoryFirstHalf()
    ensures Filter([Job1, Job2, Job3, Job4, Job5, Job6], job => PassesCategory("Designer", job)) == [Job1]
  {
    DesignerCategoryOn1To3();
    DesignerCategoryOn4To6();
    FilterSix(Job1, Job2, Job3, Job4, Job5, Job6, job => PassesCategory("Designer", job));
  }

  /** Choosing the "Designer" category keeps ["12"] of postings 7 to 12. */
  lemma DesignerCategorySecondHalf()
    ensures Filter([Job7, Job8, Job9, Job10, Job11, Job12], job => PassesCategory("Designer", job)) == [Job12]
  {
    DesignerCategoryOn7To9();
    DesignerCategoryOn10To12();
    FilterSix(Job7, Job8, Job9, Job10, Job11, Job12, job => PassesCategory("Designer", job));
  }

  /** Choosing the "Designer" category lists exactly postings 1, 12, in catalogue order. */
  lemma DesignerCategory()
    ensures FilterJobs(Catalogue, Query("", "Designer", map[])) == [Job1, Job12]
  {
    CategoryAlone(Catalogue, "Designer");
    CatalogueHalves();
    FilterAppend([Job1, Job2, Job3, Job4, Job5, Job6], [Job7, Job8, Job9, Job10, Job11, Job12], job => PassesCategory("Designer", job));
    DesignerCategoryFirstHalf();
    DesignerCategorySecondHalf();
  }

  /** Choosing the "Developer" category keeps ["2", "3"] of postings 1 to 3. */
  lemma DeveloperCategoryOn1To3()
    ensures Filter([Job1, Job2, Job3], job => PassesCategory("Developer", job)) == [Job2, Job3]
  {
    Posting1Developer(Job1);
    Posting2Developer(Job2);
    Posting3Developer(Job3);
    FilterThree(Job1, Job2, Job3, job => PassesCategory("Developer", job));
  }

  /** Choosing the "Developer" category keeps none of postings 4 to 6. */
  lemma DeveloperCategoryOn4To6()
    ensures Filter([Job4, Job5, Job6], job => PassesCategory("Developer", job)) == []
  {
    Posting4Developer(Job4);
    Posting5Developer(Job5);
    Posting6Developer(Job6);
    FilterThree(Job4, Job5, Job6, job => PassesCategory("Developer", job));
  }

  /** Choosing the "Developer" category keeps none of postings 7 to 9. */
  lemma DeveloperCategoryOn7To9()
    ensures Filter([Job7, Job8, Job9], job => PassesCategory("Developer", job)) == []
  {
    Posting7Developer(Job7);
    Posting8Developer(Job8);
    Posting9Developer(Job9);
    FilterThree(Job7, Job8, Job9, job => PassesCategory("Developer", job));
  }

  /** Choosing the "Developer" category keeps none of postings 10 to 12. */
  lemma DeveloperCategoryOn10To12()
    ensures Filter([Job10, Job11, Job12], job => PassesCategory("Developer", job)) == []
  {
    Posting10Developer(Job10);
    Posting11Developer(Job11);
    Posting12Developer(Job12);
    FilterThree(Job10, Job11, Job12, job => PassesCategory("Developer", job));
  }

  /** Choosing the "Developer" category keeps ["2", "3"] of postings 1 to 6. */
  lemma DeveloperCategoryFirstHalf()
    ensures Filter([Job1, Job2, Job3, Job4, Job5, Job6], job => PassesCategory("Developer", job)) == [Job2, Job3]
  {
    DeveloperCategoryOn1To3();
    DeveloperCategoryOn4To6();
    FilterSix(Job1, Job2, Job3, Job4, Job5, Job6, job => PassesCategory("Developer", job));
  }

  /** Choosing the "Developer" category keeps none of postings 7 to 12. */
  lemma DeveloperCategorySecondHalf()
    ensures Filter([Job7, Job8, Job9, Job10, Job11, Job12], job => PassesCategory("Developer", job)) == []
  {
    DeveloperCategoryOn7To9();
    DeveloperCategoryOn10To12();
    FilterSix(Job7, Job8, Job9, Job10, Job11, Job12, job => PassesCategory("Developer", job));
  }

  /** Choosing the "Developer" category lists exactly postings 2, 3, in catalogue order. */
  lemma DeveloperCategory()
    ensures FilterJobs(Catalogue, Query("", "Developer", map[])) == [Job2, Job3]
  {
    CategoryAlone(Catalogue, "Developer");
    CatalogueHalves();
    FilterAppend([Job1, Job2, Job3, Job4, Job5, Job6], [Job7, Job8, Job9, Job10, Job11, Job12], job => PassesCategory("Developer", job));
    DeveloperCategoryFirstHalf();
    DeveloperCategorySecondHalf();
  }

  /** Choosing the "HR" category keeps none of postings 1 to 3. */
  lemma HRCategoryOn1To3()
    ensures Filter([Job1, Job2, Job3], job => PassesCategory("HR", job)) == []
  {
    Posting1HR(Job1);
    Posting2HR(Job2);
    Posting3HR(Job3);
    FilterThree(Job1, Job2, Job3, job => PassesCategory("HR", job));
  }

  /** Choosing the "HR" category keeps ["5"] of postings 4 to 6. */
  lemma HRCategoryOn4To6()
    ensures Filter([Job4, Job5, Job6], job => PassesCategory("HR", job)) == [Job5]
  {
    Posting4HR(Job4);
    Posting5HR(Job5);
    Posting6HR(Job6);
    FilterThree(Job4, Job5, Job6, job => PassesCategory("HR", job));
  }

  /** Choosing the "HR" category keeps none of postings 7 to 9. */
  lemma HRCategoryOn7To9()
    ensures Filter([Job7, Job8, Job9], job => PassesCategory("HR", job)) == []
  {
    Posting7HR(Job7);
    Posting8HR(Job8);
    Posting9HR(Job9);
    FilterThree(Job7, Job8, Job9, job => PassesCategory("HR", job));
  }

  /** Choosing the "HR" category keeps none of postings 10 to 12. */
  lemma HRCategoryOn10To12()
    ensures Filter([Job10, Job11, Job12], job => PassesCategory("HR", job)) == []
  {
    Posting10HR(Job10);
    Posting11HR(Job11);
    Posting12HR(Job12);
    FilterThree(Job10, Job11, Job12, job => PassesCategory("HR", job));
  }

  /** Choosing the "HR" category keeps ["5"] of postings 1 to 6. */
  lemma HRCategoryFirstHalf()
    ensures Filter([Job1, Job2, Job3, Job4, Job5, Job6], job => PassesCategory("HR", job)) == [Job5]
  {
    HRCategoryOn1To3();
    HRCategoryOn4To6();
    FilterSix(Job1, Job2, Job3, Job4, Job5, Job6, job => PassesCategory("HR", job));
  }

  /** Choosing the "HR" category keeps none of postings 7 to 12. */
  lemma HRCategorySecondHalf()
    ensures Filter([Job7, Job8, Job9, Job10, Job11, Job12], job => PassesCategory("HR", job)) == []
  {
    HRCategoryOn7To9();
    HRCategoryOn10To12();
    FilterSix(Job7, Job8, Job9, Job10, Job11, Job12, job => PassesCategory("HR", job));
  }

  /** Choosing the "HR" category lists exactly postings 5, in catalogue order. */
  lemma HRCategory()
    ensures FilterJobs(Catalogue, Query("", "HR", map[])) == [Job5]
  {
    CategoryAlone(Catalogue, "HR");
    CatalogueHalves();
    FilterAppend([Job1, Job2, Job3, Job4, Job5, Job6], [Job7, Job8, Job9, Job10, Job11, Job12], job => PassesCategory("HR", job));
    HRCategoryFirstHalf();
    HRCategorySecondHalf();
  }

  /** Choosing the "SEO" category keeps none of postings 1 to 3. */
  lemma SeoCategoryOn1To3()
    ensures Filter([Job1, Job2, Job3], job => PassesCategory("SEO", job)) == []
  {
    Posting1Seo(Job1);
    Posting2Seo(Job2);
    Posting3Seo(Job3);
    FilterThree(Job1, Job2, Job3, job => PassesCategory("SEO", job));
  }

  /** Choosing the "SEO" category keeps none of postings 4 to 6. */
  lemma SeoCategoryOn4To6()
    ensures Filter([Job4, Job5, Job6], job => PassesCategory("SEO", job)) == []
  {
    Posting4Seo(Job4);
    Posting5Seo(Job5);
    Posting6Seo(Job6);
    FilterThree(Job4, Job5, Job6, job => PassesCategory("SEO", job));
  }

  /** Choosing the "SEO" category keeps ["7"] of postings 7 to 9. */
  lemma SeoCategoryOn7To9()
    ensures Filter([Job7, Job8, Job9], job => PassesCategory("SEO", job)) == [Job7]
  {
    Posting7Seo(Job7);
    Posting8Seo(Job8);
    Posting9Seo(Job9);
    FilterThree(Job7, Job8, Job9, job => PassesCategory("SEO", job));
  }

  /** Choosing the "SEO" category keeps ["11"] of postings 10 to 12. */
  lemma SeoCategoryOn10To12()
    ensures Filter([Job10, Job11, Job12], job => PassesCategory("SEO", job)) == [Job11]
  {
    Posting10Seo(Job10);
    Posting11Seo(Job11);
    Posting12Seo(Job12);
    FilterThree(Job10, Job11, Job12, job => PassesCategory("SEO", job));
  }

  /** Choosing the "SEO" category keeps none of postings 1 to 6. */
  lemma SeoCategoryFirstHalf()
    ensures Filter([Job1, Job2, Job3, Job4, Job5, Job6], job => PassesCategory("SEO", job)) == []
  {
    SeoCategoryOn1To3();
    SeoCategoryOn4To6();
    FilterSix(Job1, Job2, Job3, Job4, Job5, Job6, job => PassesCategory("SEO", job));
  }

  /** Choosing the "SEO" category keeps ["7", "11"] of postings 7 to 12. */
  lemma SeoCategorySecondHalf()
    ensures Filter([Job7, Job8, Job9, Job10, Job11, Job12], job => PassesCategory("SEO", job)) == [Job7, Job11]
  {
    SeoCategoryOn7To9();
    SeoCategoryOn10To12();
    FilterSix(Job7, Job8, Job9, Job10, Job11, Job12, job => PassesCategory("SEO", job));
  }

  /** Choosing the "SEO" category lists exactly postings 7, 11, in catalogue order. */
  lemma SeoCategory()
    ensures FilterJobs(Catalogue, Query("", "SEO", map[])) == [Job7, Job11]
  {
    CategoryAlone(Catalogue, "SEO");
    CatalogueHalves();
    FilterAppend([Job1, Job2, Job3, Job4, Job5, Job6], [Job7, Job8, Job9, Job10, Job11, Job12], job => PassesCategory("SEO", job));
    SeoCategoryFirstHalf();
    SeoCategorySecondHalf();
  }

  /** Choosing the "Marketing" category keeps none of postings 1 to 3. */
  lemma MarketingCategoryOn1To3()
    ensures Filter([Job1, Job2, Job3], job => PassesCategory("Marketing", job)) == []
  {
    Posting1Marketing(Job1);
    Posting2Marketing(Job2);
    Posting3Marketing(Job3);
    FilterThree(Job1, Job2, Job3, job => PassesCategory("Marketing", job));
  }

  /** Choosing the "Marketing" category keeps none of postings 4 to 6. */
  lemma MarketingCategoryOn4To6()
    ensures Filter([Job4, Job5, Job6], job => PassesCategory("Marketing", job)) == []
  {
    Posting4Marketing(Job4);
    Posting5Marketing(Job5);
    Posting6Marketing(Job6);
    FilterThree(Job4, Job5, Job6, job => PassesCategory("Marketing", job));
  }

  /** Choosing the "Marketing" category keeps ["8"] of postings 7 to 9. */
  lemma MarketingCategoryOn7To9()
    ensures Filter([Job7, Job8, Job9], job => PassesCategory("Marketing", job)) == [Job8]
  {
    Posting7Marketing(Job7);
    Posting8Marketing(Job8);
    Posting9Marketing(Job9);
    FilterThree(Job7, Job8, Job9, job => PassesCategory("Marketing", job));
  }

  /** Choosing the "Marketing" category keeps none of postings 10 to 12. */
  lemma MarketingCategoryOn10To12()
    ensures Filter([Job10, Job11, Job12], job => PassesCategory("Marketing", job)) == []
  {
    Posting10Marketing(Job10);
    Posting11Marketing(Job11);
    Posting12Marketing(Job12);
    FilterThree(Job10, Job11, Job12, job => PassesCategory("Marketing", job));
  }

  /** Choosing the "Marketing" category keeps none of postings 1 to 6. */
  lemma MarketingCategoryFirstHalf()
    ensures Filter([Job1, Job2, Job3, Job4, Job5, Job6], job => PassesCategory("Marketing", job)) == []
  {
    MarketingCategoryOn1To3();
    MarketingCategoryOn4To6();
    FilterSix(Job1, Job2, Job3, Job4, Job5, Job6, job => PassesCategory("Marketing", job));
  }

  /** Choosing the "Marketing" category keeps ["8"] of postings 7 to 12. */
  lemma MarketingCategorySecondHalf()
    ensures Filter([Job7, Job8, Job9, Job10, Job11, Job12], job => PassesCategory("Marketing", job)) == [Job8]
  {
    MarketingCategoryOn7To9();
    MarketingCategoryOn10To12();
    FilterSix(Job7, Job8, Job9, Job10, Job11, Job12, job => PassesCategory("Marketing", job));
  }

  /** Choosing the "Marketing" category lists exactly postings 8, in catalogue order. */
  lemma MarketingCategory()
    ensures FilterJobs(Catalogue, Query("", "Marketing", map[])) == [Job8]
  {
    CategoryAlone(Catalogue, "Marketing");
    CatalogueHalves();
    FilterAppend([Job1, Job2, Job3, Job4, Job5, Job6], [Job7, Job8, Job9, Job10, Job11, Job12], job => PassesCategory("Marketing", job));
    MarketingCategoryFirstHalf();
    MarketingCategorySecondHalf();
  }

  /** Choosing the "Data Entry" category keeps none of postings 1 to 3. */
  lemma DataEntryCategoryOn1To3()
    ensures Filter([Job1, Job2, Job3], job => PassesCategory("Data Entry", job)) == []
  {
    Posting1DataEntry(Job1);
    Posting2DataEntry(Job2);
    Posting3DataEntry(Job3);
    FilterThree(Job1, Job2, Job3, job => PassesCategory("Data Entry", job));
  }

  /** Choosing the "Data Entry" category keeps ["6"] of postings 4 to 6. */
  lemma DataEntryCategoryOn4To6()
    ensures Filter([Job4, Job5, Job6], job => PassesCategory("Data Entry", job)) == [Job6]
  {
    Posting4DataEntry(Job4);
    Posting5DataEntry(Job5);
    Posting6DataEntry(Job6);
    FilterThree(Job4, Job5, Job6, job => PassesCategory("Data Entry", job));
  }

  /** Choosing the "Data Entry" category keeps ["9"] of postings 7 to 9. */
  lemma DataEntryCategoryOn7To9()
    ensures Filter([Job7, Job8, Job9], job => PassesCategory("Data Entry", job)) == [Job9]
  {
    Posting7DataEntry(Job7);
    Posting8DataEntry(Job8);
    Posting9DataEntry(Job9);
    FilterThree(Job7, Job8, Job9, job => PassesCategory("Data Entry", job));
  }

  /** Choosing the "Data Entry" category keeps none of postings 10 to 12. */
  lemma DataEntryCategoryOn10To12()
    ensures Filter([Job10, Job11, Job12], job => PassesCategory("Data Entry", job)) == []
  {
    Posting10DataEntry(Job10);
    Posting11DataEntry(Job11);
    Posting12DataEntry(Job12);
    FilterThree(Job10, Job11, Job12, job => PassesCategory("Data Entry", job));
  }

  /** Choosing the "Data Entry" category keeps ["6"] of postings 1 to 6. */
  lemma DataEntryCategoryFirstHalf()
    ensures Filter([Job1, Job2, Job3, Job4, Job5, Job6], job => PassesCategory("Data Entry", job)) == [Job6]
  {
    DataEntryCategoryOn1To3();
    DataEntryCategoryOn4To6();
    FilterSix(Job1, Job2, Job3, Job4, Job5, Job6, job => PassesCategory("Data Entry", job));
  }

  /** Choosing the "Data Entry" category keeps ["9"] of postings 7 to 12. */
  lemma DataEntryCategorySecondHalf()
    ensures Filter([Job7, Job8, Job9, Job10, Job11, Job12], job => PassesCategory("Data Entry", job)) == [Job9]
  {
    DataEntryCategoryOn7To9();
    DataEntryCategoryOn10To12();
    FilterSix(Job7, Job8, Job9, Job10, Job11, Job12, job => PassesCategory("Data Entry", job));
  }

  /** Choosing the "Data Entry" category lists exactly postings 6, 9, in catalogue order. */
  lemma DataEntryCategory()
    ensures FilterJobs(Catalogue, Query("", "Data Entry", map[])) == [Job6, Job9]
  {
    CategoryAlone(Catalogue, "Data Entry");
    CatalogueHalves();
    FilterAppend([Job1, Job2, Job3, Job4, Job5, Job6], [Job7, Job8, Job9, Job10, Job11, Job12], job => PassesCategory("Data Entry", job));
    DataEntryCategoryFirstHalf();
    DataEntryCategorySecondHalf();
  }

  /** Searching for "react" keeps ["2"] of postings 1 to 3. */
  lemma ReactSearchOn1To3()
    ensures Filter([Job1, Job2, Job3], job => PassesSearch("react", job)) == [Job2]
  {
    Posting1Search(Job1);
    Posting2Search(Job2);
    Posting3Search(Job3);
    FilterThree(Job1, Job2, Job3, job => PassesSearch("react", job));
  }

  /** Searching for "react" keeps none of postings 4 to 6. */
  lemma ReactSearchOn4To6()
    ensures Filter([Job4, Job5, Job6], job => PassesSearch("react", job)) == []
  {
    Posting4Search(Job4);
    Posting5Search(Job5);
    Posting6Search(Job6);
    FilterThree(Job4, Job5, Job6, job => PassesSearch("react", job));
  }

  /** Searching for "react" keeps none of postings 7 to 9. */
  lemma ReactSearchOn7To9()
    ensures Filter([Job7, Job8, Job9], job => PassesSearch("react", job)) == []
  {
    Posting7Search(Job7);
    Posting8Search(Job8);
    Posting9Search(Job9);
    FilterThree(Job7, Job8, Job9, job => PassesSearch("react", job));
  }

  /** Searching for "react" keeps none of postings 10 to 12. */
  lemma ReactSearchOn10To12()
    ensures Filter([Job10, Job11, Job12], job => PassesSearch("react", job)) == []
  {
    Posting10Search(Job10);
    Posting11Search(Job11);
    Posting12Search(Job12);
    FilterThree(Job10, Job11, Job12, job => PassesSearch("react", job));
  }

  /** Searching for "react" keeps ["2"] of postings 1 to 6. */
  lemma ReactSearchFirstHalf()
    ensures Filter([Job1, Job2, Job3, Job4, Job5, Job6], job => PassesSearch("react", job)) == [Job2]
  {
    ReactSearchOn1To3();
    ReactSearchOn4To6();
    FilterSix(Job1, Job2, Job3, Job4, Job5, Job6, job => PassesSearch("react", job));
  }

  /** Searching for "react" keeps none of postings 7 to 12. */
  lemma ReactSearchSecondHalf()
    ensures Filter([Job7, Job8, Job9, Job10, Job11, Job12], job => PassesSearch("react", job)) == []
  {
    ReactSearchOn7To9();
    ReactSearchOn10To12();
    FilterSix(Job7, Job8, Job9, Job10, Job11, Job12, job => PassesSearch("react", job));
  }

  /** Searching for "react" lists exactly postings 2, in catalogue order. */
  lemma ReactSearch()
    ensures FilterJobs(Catalogue, Query("react", "", map[])) == [Job2]
  {
    SearchAlone(Catalogue, "react");
    CatalogueHalves();
    FilterAppend([Job1, Job2, Job3, Job4, Job5, Job6], [Job7, Job8, Job9, Job10, Job11, Job12], job => PassesSearch("react", job));
    ReactSearchFirstHalf();
    ReactSearchSecondHalf();
  }

  /** Ticking only "Full Time" keeps ["1"] of postings 1 to 3. */
  lemma FullTimeScheduleOn1To3()
    ensures Filter([Job1, Job2, Job3], job => PassesSchedule(FullTimeOnly, job)) == [Job1]
  {
    Posting1FullTime(Job1);
    Posting2FullTime(Job2);
    Posting3FullTime(Job3);
    FilterThree(Job1, Job2, Job3, job => PassesSchedule(FullTimeOnly, job));
  }

  /** Ticking only "Full Time" keeps ["4", "6"] of postings 4 to 6. */
  lemma FullTimeScheduleOn4To6()
    ensures Filter([Job4, Job5, Job6], job => PassesSchedule(FullTimeOnly, job)) == [Job4, Job6]
  {
    Posting4FullTime(Job4);
    Posting5FullTime(Job5);
    Posting6FullTime(Job6);
    FilterThree(Job4, Job5, Job6, job => PassesSchedule(FullTimeOnly, job));
  }

  /** Ticking only "Full Time" keeps ["9"] of postings 7 to 9. */
  lemma FullTimeScheduleOn7To9()
    ensures Filter([Job7, Job8, Job9], job => PassesSchedule(FullTimeOnly, job)) == [Job9]
  {
    Posting7FullTime(Job7);
    Posting8FullTime(Job8);
    Posting9FullTime(Job9);
    FilterThree(Job7, Job8, Job9, job => PassesSchedule(FullTimeOnly, job));
  }

  /** Ticking only "Full Time" keeps ["10", "12"] of postings 10 to 12. */
  lemma FullTimeScheduleOn10To12()
    ensures Filter([Job10, Job11, Job12], job => PassesSchedule(FullTimeOnly, job)) == [Job10, Job12]
  {
    Posting10FullTime(Job10);
    Posting11FullTime(Job11);
    Posting12FullTime(Job12);
    FilterThree(Job10, Job11, Job12, job => PassesSchedule(FullTimeOnly, job));
  }

  /** Ticking only "Full Time" keeps ["1", "4", "6"] of postings 1 to 6. */
  lemma FullTimeScheduleFirstHalf()
    ensures Filter([Job1, Job2, Job3, Job4, Job5, Job6], job => PassesSchedule(FullTimeOnly, job)) == [Job1, Job4, Job6]
  {
    FullTimeScheduleOn1To3();
    FullTimeScheduleOn4To6();
    FilterSix(Job1, Job2, Job3, Job4, Job5, Job6, job => PassesSchedule(FullTimeOnly, job));
  }

  /** Ticking only "Full Time" keeps ["9", "10", "12"] of postings 7 to 12. */
  lemma FullTimeScheduleSecondHalf()
    ensures Filter([Job7, Job8, Job9, Job10, Job11, Job12], job => PassesSchedule(FullTimeOnly, job)) == [Job9, Job10, Job12]
  {
    FullTimeScheduleOn7To9();
    FullTimeScheduleOn10To12();
    FilterSix(Job7, Job8, Job9, Job10, Job11, Job12, job => PassesSchedule(FullTimeOnly, job));
  }

  /** Ticking only "Full Time" lists exactly postings 1, 4, 6, 9, 10, 12, in catalogue order. */
  lemma FullTimeSchedule()
    ensures FilterJobs(Catalogue, Query("", "", FullTimeOnly)) == [Job1, Job4, Job6, Job9, Job10, Job12]
  {
    FullTimeScheduleIsStage();
    CatalogueHalves();
    FilterAppend([Job1, Job2, Job3, Job4, Job5, Job6], [Job7, Job8, Job9, Job10, Job11, Job12], job => PassesSchedule(FullTimeOnly, job));
    FullTimeScheduleFirstHalf();
    FullTimeScheduleSecondHalf();
  }

  /** Ticking only "Part Time" keeps ["2"] of postings 1 to 3. */
  lemma PartTimeScheduleOn1To3()
    ensures Filter([Job1, Job2, Job3], job => PassesSchedule(PartTimeOnly, job)) == [Job2]
  {
    Posting1PartTime(Job1);
    Posting2PartTime(Job2);
    Posting3PartTime(Job3);
    FilterThree(Job1, Job2, Job3, job => PassesSchedule(PartTimeOnly, job));
  }

  /** Ticking only "Part Time" keeps none of postings 4 to 6. */
  lemma PartTimeScheduleOn4To6()
    ensures Filter([Job4, Job5, Job6], job => PassesSchedule(PartTimeOnly, job)) == []
  {
    Posting4PartTime(Job4);
    Posting5PartTime(Job5);
    Posting6PartTime(Job6);
    FilterThree(Job4, Job5, Job6, job => PassesSchedule(PartTimeOnly, job));
  }

  /** Ticking only "Part Time" keeps ["7"] of postings 7 to 9. */
  lemma PartTimeScheduleOn7To9()
    ensures Filter([Job7, Job8, Job9], job => PassesSchedule(PartTimeOnly, job)) == [Job7]
  {
    Posting7PartTime(Job7);
    Posting8PartTime(Job8);
    Posting9PartTime(Job9);
    FilterThree(Job7, Job8, Job9, job => PassesSchedule(PartTimeOnly, job));
  }

  /** Ticking only "Part Time" keeps ["11"] of postings 10 to 12. */
  lemma PartTimeScheduleOn10To12()
    ensures Filter([Job10, Job11, Job12], job => PassesSchedule(PartTimeOnly, job)) == [Job11]
  {
    Posting10PartTime(Job10);
    Posting11PartTime(Job11);
    Posting12PartTime(Job12);
    FilterThree(Job10, Job11, Job12, job => PassesSchedule(PartTimeOnly, job));
  }

  /** Ticking only "Part Time" keeps ["2"] of postings 1 to 6. */
  lemma PartTimeScheduleFirstHalf()
    ensures Filter([Job1, Job2, Job3, Job4, Job5, Job6], job => PassesSchedule(PartTimeOnly, job)) == [Job2]
  {
    PartTimeScheduleOn1To3();
    PartTimeScheduleOn4To6();
    FilterSix(Job1, Job2, Job3, Job4, Job5, Job6, job => PassesSchedule(PartTimeOnly, job));
  }

  /** Ticking only "Part Time" keeps ["7", "11"] of postings 7 to 12. */
  lemma PartTimeScheduleSecondHalf()
    ensures Filter([Job7, Job8, Job9, Job10, Job11, Job12], job => PassesSchedule(PartTimeOnly, job)) == [Job7, Job11]
  {
    PartTimeScheduleOn7To9();
    PartTimeScheduleOn10To12();
    FilterSix(Job7, Job8, Job9, Job10, Job11, Job12, job => PassesSchedule(PartTimeOnly, job));
  }

  /** Ticking only "Part Time" lists exactly postings 2, 7, 11, in catalogue order. */
  lemma PartTimeSchedule()
    ensures FilterJobs(Catalogue, Query("", "", PartTimeOnly)) == [Job2, Job7, Job11]
  {
    PartTimeScheduleIsStage();
    CatalogueHalves();
    FilterAppend([Job1, Job2, Job3, Job4, Job5, Job6], [Job7, Job8, Job9, Job10, Job11, Job12], job => PassesSchedule(PartTimeOnly, job));
    PartTimeScheduleFirstHalf();
    PartTimeScheduleSecondHalf();
  }
}
