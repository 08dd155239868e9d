/** What each posting of the catalogue gives under the six category rules, the
    search for "react" and the two working-schedule needles. Every fact about a
    literal string is a lemma of its own; the posting lemmas combine them. */
module CatalogueFacts {
  import opened Strings
  import opened Jobs
  import opened JobFiltering

  /** The advanced-filter object with only the "Full Time" box ticked. */
  const FullTimeOnly: AdvancedFilters := map["workingSchedule" := map["fullTime" := true]]

  /** The advanced-filter object with only the "Part Time" box ticked. */
  const PartTimeOnly: AdvancedFilters := map["workingSchedule" := map["partTime" := true]]

  /** Ticking "Full Time" activates the schedule key "fulltime" and no skill key. */
  lemma FullTimeOnlyKeys()
    ensures SectionKeys(FullTimeOnly, "workingSchedule") == {"fulltime"}
    ensures SectionKeys(FullTimeOnly, "skills") == {}
  {
    FullTimeToggleKey();
  }

  /** Ticking "Part Time" activates the schedule key "parttime" and no skill key. */
  lemma PartTimeOnlyKeys()
    ensures SectionKeys(PartTimeOnly, "workingSchedule") == {"parttime"}
    ensures SectionKeys(PartTimeOnly, "skills") == {}
  {
    assert Lower("partTime") == "parttime";
  }

  /** "Senior UI/UX Designer" does not contain "HR". */
  lemma SeniorUIUXDesignerVsHR()
    ensures !Contains("Senior UI/UX Designer", "HR")
  {
    NotContainsMissingChar("Senior UI/UX Designer", "HR", 0);
  }

  /** "Figma" does not contain "Recruitment". */
  lemma FigmaVsRecruitment()
    ensures !Contains("Figma", "Recruitment")
  {
  }

  /** "Figma" does not contain "HRIS". */
  lemma FigmaVsHRIS()
    ensures !Contains("Figma", "HRIS")
  {
    NotContainsMissingChar("Figma", "HRIS", 0);
  }

  /** Skill "Figma" does not match the "HR" skill rule. */
  lemma FigmaVsHRRule()
    ensures !SkillMatchesRule("Figma", AnyContaining(["Recruitment", "HRIS"]))
  {
    FigmaVsRecruitment();
    FigmaVsHRIS();
  }

  /** "Adobe XD" does not contain "Recruitment". */
  lemma AdobeXDVsRecruitment()
    ensures !Contains("Adobe XD", "Recruitment")
  {
  }

  /** "Adobe XD" does not contain "HRIS". */
  lemma AdobeXDVsHRIS()
    ensures !Contains("Adobe XD", "HRIS")
  {
    NotContainsMissingChar("Adobe XD", "HRIS", 0);
  }

  /** Skill "Adobe XD" does not match the "HR" skill rule. */
  lemma AdobeXDVsHRRule()
    ensures !SkillMatchesRule("Adobe XD", AnyContaining(["Recruitment", "HRIS"]))
  {
    AdobeXDVsRecruitment();
    AdobeXDVsHRIS();
  }

  /** "Sketch" does not contain "Recruitment". */
  lemma SketchVsRecruitment()
    ensures !Contains("Sketch", "Recruitment")
  {
  }

  /** "Sketch" does not contain "HRIS". */
  lemma SketchVsHRIS()
    ensures !Contains("Sketch", "HRIS")
  {
    NotContainsMissingChar("Sketch", "HRIS", 0);
  }

  /** Skill "Sketch" does not match the "HR" skill rule. */
  lemma SketchVsHRRule()
    ensures !SkillMatchesRule("Sketch", AnyContaining(["Recruitment", "HRIS"]))
  {
    SketchVsRecruitment();
    SketchVsHRIS();
  }

  /** "Senior UI/UX Designer" does not contain "Developer". */
  lemma SeniorUIUXDesignerVsDeveloper()
    ensures !Contains("Senior UI/UX Designer", "Developer")
  {
    NotContainsMissingChar("Senior UI/UX Designer", "Developer", 2);
  }

  /** "Senior UI/UX Designer" contains "Designer". */
  lemma SeniorUIUXDesignerVsDesigner()
    ensures Contains("Senior UI/UX Designer", "Designer")
  {
    ContainsAt("Senior UI/UX Designer", "Designer", 13);
  }

  /** "Senior UI/UX Designer" does not contain "SEO". */
  lemma SeniorUIUXDesignerVsSEO()
    ensures !Contains("Senior UI/UX Designer", "SEO")
  {
    NotContainsMissingChar("Senior UI/UX Designer", "SEO", 1);
  }

  /** "Figma" does not contain "SEO". */
  lemma FigmaVsSEO()
    ensures !Contains("Figma", "SEO")
  {
    NotContainsMissingChar("Figma", "SEO", 0);
  }

  /** Skill "Figma" does not match the "SEO" skill rule. */
  lemma FigmaVsSeoRule()
    ensures !SkillMatchesRule("Figma", AnyContaining(["SEO"]))
  {
    FigmaVsSEO();
  }

  /** "Adobe XD" does not contain "SEO". */
  lemma AdobeXDVsSEO()
    ensures !Contains("Adobe XD", "SEO")
  {
    NotContainsMissingChar("Adobe XD", "SEO", 0);
  }

  /** Skill "Adobe XD" does not match the "SEO" skill rule. */
  lemma AdobeXDVsSeoRule()
    ensures !SkillMatchesRule("Adobe XD", AnyContaining(["SEO"]))
  {
    AdobeXDVsSEO();
  }

  /** "Sketch" does not contain "SEO". */
  lemma SketchVsSEO()
    ensures !Contains("Sketch", "SEO")
  {
    NotContainsMissingChar("Sketch", "SEO", 1);
  }

  /** Skill "Sketch" does not match the "SEO" skill rule. */
  lemma SketchVsSeoRule()
    ensures !SkillMatchesRule("Sketch", AnyContaining(["SEO"]))
  {
    SketchVsSEO();
  }

  /** "Senior UI/UX Designer" does not contain "Marketing". */
  lemma SeniorUIUXDesignerVsMarketing()
    ensures !Contains("Senior UI/UX Designer", "Marketing")
  {
    NotContainsMissingChar("Senior UI/UX Designer", "Marketing", 0);
  }

  /** "Figma" does not contain "Marketing". */
  lemma FigmaVsMarketing()
    ensures !Contains("Figma", "Marketing")
  {
  }

  /** Skill "Figma" does not match the "Marketing" skill rule. */
  lemma FigmaVsMarketingRule()
    ensures !SkillMatchesRule("Figma", AnyContaining(["Marketing"]))
  {
    FigmaVsMarketing();
  }

  /** "Adobe XD" does not contain "Marketing". */
  lemma AdobeXDVsMarketing()
    ensures !Contains("Adobe XD", "Marketing")
  {
  }

  /** Skill "Adobe XD" does not match the "Marketing" skill rule. */
  lemma AdobeXDVsMarketingRule()
    ensures !SkillMatchesRule("Adobe XD", AnyContaining(["Marketing"]))
  {
    AdobeXDVsMarketing();
  }

  /** "Sketch" does not contain "Marketing". */
  lemma SketchVsMarketing()
    ensures !Contains("Sketch", "Marketing")
  {
  }

  /** Skill "Sketch" does not match the "Marketing" skill rule. */
  lemma SketchVsMarketingRule()
    ensures !SkillMatchesRule("Sketch", AnyContaining(["Marketing"]))
  {
    SketchVsMarketing();
  }

  /** "Senior UI/UX Designer" does not contain "Data Entry". */
  lemma SeniorUIUXDesignerVsDataEntry()
    ensures !Contains("Senior UI/UX Designer", "Data Entry")
  {
    NotContainsMissingChar("Senior UI/UX Designer", "Data Entry", 1);
  }

  /** "Figma" does not contain "Data". */
  lemma FigmaVsData()
    ensures !Contains("Figma", "Data")
  {
    NotContainsMissingChar("Figma", "Data", 0);
  }

  /** "Figma" does not contain "Excel". */
  lemma FigmaVsExcel()
    ensures !Contains("Figma", "Excel")
  {
    NotContainsMissingChar("Figma", "Excel", 0);
  }

  /** Skill "Figma" does not match the "Data Entry" skill rule. */
  lemma FigmaVsDataEntryRule()
    ensures !SkillMatchesRule("Figma", AnyContaining(["Data", "Excel"]))
  {
    FigmaVsData();
    FigmaVsExcel();
  }

  /** "Adobe XD" does not contain "Data". */
  lemma AdobeXDVsData()
    ensures !Contains("Adobe XD", "Data")
  {
    NotContainsMissingChar("Adobe XD", "Data", 1);
  }

  /** "Adobe XD" does not contain "Excel". */
  lemma AdobeXDVsExcel()
    ensures !Contains("Adobe XD", "Excel")
  {
    NotContainsMissingChar("Adobe XD", "Excel", 0);
  }

  /** Skill "Adobe XD" does not match the "Data Entry" skill rule. */
  lemma AdobeXDVsDataEntryRule()
    ensures !SkillMatchesRule("Adobe XD", AnyContaining(["Data", "Excel"]))
  {
    AdobeXDVsData();
    AdobeXDVsExcel();
  }

  /** "Sketch" does not contain "Data". */
  lemma SketchVsData()
    ensures !Contains("Sketch", "Data")
  {
    NotContainsMissingChar("Sketch", "Data", 0);
  }

  /** "Sketch" does not contain "Excel". */
  lemma SketchVsExcel()
    ensures !Contains("Sketch", "Excel")
  {
    NotContainsMissingChar("Sketch", "Excel", 0);
  }

  /** Skill "Sketch" does not match the "Data Entry" skill rule. */
  lemma SketchVsDataEntryRule()
    ensures !SkillMatchesRule("Sketch", AnyContaining(["Data", "Excel"]))
  {
    SketchVsData();
    SketchVsExcel();
  }

  /** Lower-cased, "Senior UI/UX Designer" does not contain "react". */
  lemma SeniorUIUXDesignerLowerVsReact()
    ensures !Contains(Lower("Senior UI/UX Designer"), "react")
  {
    LowerMissingChar("Senior UI/UX Designer", 'a', 'A');
    NotContainsMissingChar(Lower("Senior UI/UX Designer"), "react", 2);
  }

  /** Lower-cased, "Amazon" does not contain "react". */
  lemma AmazonLowerVsReact()
    ensures !Contains(Lower("Amazon"), "react")
  {
    LowerMissingChar("Amazon", 'r', 'R');
    NotContainsMissingChar(Lower("Amazon"), "react", 0);
  }

  /** Lower-cased, "Figma" does not contain "react". */
  lemma FigmaLowerVsReact()
    ensures !Contains(Lower("Figma"), "react")
  {
    LowerMissingChar("Figma", 'r', 'R');
    NotContainsMissingChar(Lower("Figma"), "react", 0);
  }

  /** Lower-cased, "Adobe XD" does not contain "react". */
  lemma AdobeXDLowerVsReact()
    ensures !Contains(Lower("Adobe XD"), "react")
  {
    LowerMissingChar("Adobe XD", 'r', 'R');
    NotContainsMissingChar(Lower("Adobe XD"), "react", 0);
  }

  /** Lower-cased, "Sketch" does not contain "react". */
  lemma SketchLowerVsReact()
    ensures !Contains(Lower("Sketch"), "react")
  {
    LowerMissingChar("Sketch", 'r', 'R');
    NotContainsMissingChar(Lower("Sketch"), "react", 0);
  }

  /** Lower-cased, "Full-time remote" contains "full-time". */
  lemma FullTimeRemoteLowerVsFullTime()
    ensures Contains(Lower("Full-time remote"), "full-time")
  {
    ContainsAt(Lower("Full-time remote"), "full-time", 0);
  }

  /** Lower-cased, "Full-time remote" does not contain "part-time". */
  lemma FullTimeRemoteLowerVsPartTime()
    ensures !Contains(Lower("Full-time remote"), "part-time")
  {
    LowerMissingChar("Full-time remote", 'p', 'P');
    NotContainsMissingChar(Lower("Full-time remote"), "part-time", 0);
  }

  /** "Frontend Developer" does not contain "HR". */
  lemma FrontendDeveloperVsHR()
    ensures !Contains("Frontend Developer", "HR")
  {
    NotContainsMissingChar("Frontend Developer", "HR", 0);
  }

  /** "React" does not contain "Recruitment". */
  lemma ReactVsRecruitment()
    ensures !Contains("React", "Recruitment")
  {
  }

  /** "React" does not contain "HRIS". */
  lemma ReactVsHRIS()
    ensures !Contains("React", "HRIS")
  {
    NotContainsMissingChar("React", "HRIS", 0);
  }

  /** Skill "React" does not match the "HR" skill rule. */
  lemma ReactVsHRRule()
    ensures !SkillMatchesRule("React", AnyContaining(["Recruitment", "HRIS"]))
  {
    ReactVsRecruitment();
    ReactVsHRIS();
  }

  /** "JavaScript" does not contain "Recruitment". */
  lemma JavaScriptVsRecruitment()
    ensures !Contains("JavaScript", "Recruitment")
  {
  }

  /** "JavaScript" does not contain "HRIS". */
  lemma JavaScriptVsHRIS()
    ensures !Contains("JavaScript", "HRIS")
  {
    NotContainsMissingChar("JavaScript", "HRIS", 0);
  }

  /** Skill "JavaScript" does not match the "HR" skill rule. */
  lemma JavaScriptVsHRRule()
    ensures !SkillMatchesRule("JavaScript", AnyContaining(["Recruitment", "HRIS"]))
  {
    JavaScriptVsRecruitment();
    JavaScriptVsHRIS();
  }

  /** "TypeScript" does not contain "Recruitment". */
  lemma TypeScriptVsRecruitment()
    ensures !Contains("TypeScript", "Recruitment")
  {
  }

  /** "TypeScript" does not contain "HRIS". */
  lemma TypeScriptVsHRIS()
    ensures !Contains("TypeScript", "HRIS")
  {
    NotContainsMissingChar("TypeScript", "HRIS", 0);
  }

  /** Skill "TypeScript" does not match the "HR" skill rule. */
  lemma TypeScriptVsHRRule()
    ensures !SkillMatchesRule("TypeScript", AnyContaining(["Recruitment", "HRIS"]))
  {
    TypeScriptVsRecruitment();
    TypeScriptVsHRIS();
  }

  /** "Frontend Developer" contains "Developer". */
  lemma FrontendDeveloperVsDeveloper()
    ensures Contains("Frontend Developer", "Developer")
  {
    ContainsAt("Frontend Developer", "Developer", 9);
  }

  /** "Frontend Developer" does not contain "Designer". */
  lemma FrontendDeveloperVsDesigner()
    ensures !Contains("Frontend Developer", "Designer")
  {
    NotContainsMissingChar("Frontend Developer", "Designer", 2);
  }

  /** "Frontend Developer" does not contain "SEO". */
  lemma FrontendDeveloperVsSEO()
    ensures !Contains("Frontend Developer", "SEO")
  {
    NotContainsMissingChar("Frontend Developer", "SEO", 0);
  }

  /** "React" does not contain "SEO". */
  lemma ReactVsSEO()
    ensures !Contains("React", "SEO")
  {
    NotContainsMissingChar("React", "SEO", 0);
  }

  /** Skill "React" does not match the "SEO" skill rule. */
  lemma ReactVsSeoRule()
    ensures !SkillMatchesRule("React", AnyContaining(["SEO"]))
  {
    ReactVsSEO();
  }

  /** "JavaScript" does not contain "SEO". */
  lemma JavaScriptVsSEO()
    ensures !Contains("JavaScript", "SEO")
  {
    NotContainsMissingChar("JavaScript", "SEO", 1);
  }

  /** Skill "JavaScript" does not match the "SEO" skill rule. */
  lemma JavaScriptVsSeoRule()
    ensures !SkillMatchesRule("JavaScript", AnyContaining(["SEO"]))
  {
    JavaScriptVsSEO();
  }

  /** "TypeScript" does not contain "SEO". */
  lemma TypeScriptVsSEO()
    ensures !Contains("TypeScript", "SEO")
  {
    NotContainsMissingChar("TypeScript", "SEO", 1);
  }

  /** Skill "TypeScript" does not match the "SEO" skill rule. */
  lemma TypeScriptVsSeoRule()
    ensures !SkillMatchesRule("TypeScript", AnyContaining(["SEO"]))
  {
    TypeScriptVsSEO();
  }

  /** "Frontend Developer" does not contain "Marketing". */
  lemma FrontendDeveloperVsMarketing()
    ensures !Contains("Frontend Developer", "Marketing")
  {
    NotContainsMissingChar("Frontend Developer", "Marketing", 0);
  }

  /** "React" does not contain "Marketing". */
  lemma ReactVsMarketing()
    ensures !Contains("React", "Marketing")
  {
  }

  /** Skill "React" does not match the "Marketing" skill rule. */
  lemma ReactVsMarketingRule()
    ensures !SkillMatchesRule("React", AnyContaining(["Marketing"]))
  {
    ReactVsMarketing();
  }

  /** "JavaScript" does not contain "Marketing". */
  lemma JavaScriptVsMarketing()
    ensures !Contains("JavaScript", "Marketing")
  {
    NotContainsMissingChar("JavaScript", "Marketing", 0);
  }

  /** Skill "JavaScript" does not match the "Marketing" skill rule. */
  lemma JavaScriptVsMarketingRule()
    ensures !SkillMatchesRule("JavaScript", AnyContaining(["Marketing"]))
  {
    JavaScriptVsMarketing();
  }

  /** "TypeScript" does not contain "Marketing". */
  lemma TypeScriptVsMarketing()
    ensures !Contains("TypeScript", "Marketing")
  {
    NotContainsMissingChar("TypeScript", "Marketing", 0);
  }

  /** Skill "TypeScript" does not match the "Marketing" skill rule. */
  lemma TypeScriptVsMarketingRule()
    ensures !SkillMatchesRule("TypeScript", AnyContaining(["Marketing"]))
  {
    TypeScriptVsMarketing();
  }

  /** "Frontend Developer" does not contain "Data Entry". */
  lemma FrontendDeveloperVsDataEntry()
    ensures !Contains("Frontend Developer", "Data Entry")
  {
    NotContainsMissingChar("Frontend Developer", "Data Entry", 1);
  }

  /** "React" does not contain "Data". */
  lemma ReactVsData()
    ensures !Contains("React", "Data")
  {
    NotContainsMissingChar("React", "Data", 0);
  }

  /** "React" does not contain "Excel". */
  lemma ReactVsExcel()
    ensures !Contains("React", "Excel")
  {
    NotContainsMissingChar("React", "Excel", 0);
  }

  /** Skill "React" does not match the "Data Entry" skill rule. */
  lemma ReactVsDataEntryRule()
    ensures !SkillMatchesRule("React", AnyContaining(["Data", "Excel"]))
  {
    ReactVsData();
    ReactVsExcel();
  }

  /** "JavaScript" does not contain "Data". */
  lemma JavaScriptVsData()
    ensures !Contains("JavaScript", "Data")
  {
    NotContainsMissingChar("JavaScript", "Data", 0);
  }

  /** "JavaScript" does not contain "Excel". */
  lemma JavaScriptVsExcel()
    ensures !Contains("JavaScript", "Excel")
  {
    NotContainsMissingChar("JavaScript", "Excel", 0);
  }

  /** Skill "JavaScript" does not match the "Data Entry" skill rule. */
  lemma JavaScriptVsDataEntryRule()
    ensures !SkillMatchesRule("JavaScript", AnyContaining(["Data", "Excel"]))
  {
    JavaScriptVsData();
    JavaScriptVsExcel();
  }

  /** "TypeScript" does not contain "Data". */
  lemma TypeScriptVsData()
    ensures !Contains("TypeScript", "Data")
  {
    NotContainsMissingChar("TypeScript", "Data", 0);
  }

  /** "TypeScript" does not contain "Excel". */
  lemma TypeScriptVsExcel()
    ensures !Contains("TypeScript", "Excel")
  {
    NotContainsMissingChar("TypeScript", "Excel", 0);
  }

  /** Skill "TypeScript" does not match the "Data Entry" skill rule. */
  lemma TypeScriptVsDataEntryRule()
    ensures !SkillMatchesRule("TypeScript", AnyContaining(["Data", "Excel"]))
  {
    TypeScriptVsData();
    TypeScriptVsExcel();
  }

  /** Lower-cased, "Frontend Developer" does not contain "react". */
  lemma FrontendDeveloperLowerVsReact()
    ensures !Contains(Lower("Frontend Developer"), "react")
  {
    LowerMissingChar("Frontend Developer", 'a', 'A');
    NotContainsMissingChar(Lower("Frontend Developer"), "react", 2);
  }

  /** Lower-cased, "Microsoft" does not contain "react". */
  lemma MicrosoftLowerVsReact()
    ensures !Contains(Lower("Microsoft"), "react")
  {
    LowerMissingChar("Microsoft", 'e', 'E');
    NotContainsMissingChar(Lower("Microsoft"), "react", 1);
  }

  /** Lower-cased, "React" contains "react". */
  lemma ReactLowerVsReact()
    ensures Contains(Lower("React"), "react")
  {
    ContainsAt(Lower("React"), "react", 0);
  }

  /** Lower-cased, "JavaScript" does not contain "react". */
  lemma JavaScriptLowerVsReact()
    ensures !Contains(Lower("JavaScript"), "react")
  {
    LowerMissingChar("JavaScript", 'e', 'E');
    NotContainsMissingChar(Lower("JavaScript"), "react", 1);
  }

  /** Lower-cased, "TypeScript" does not contain "react". */
  lemma TypeScriptLowerVsReact()
    ensures !Contains(Lower("TypeScript"), "react")
  {
    LowerMissingChar("TypeScript", 'a', 'A');
    NotContainsMissingChar(Lower("TypeScript"), "react", 2);
  }

  /** Lower-cased, "Part-time remote" does not contain "full-time". */
  lemma PartTimeRemoteLowerVsFullTime()
    ensures !Contains(Lower("Part-time remote"), "full-time")
  {
    LowerMissingChar("Part-time remote", 'f', 'F');
    NotContainsMissingChar(Lower("Part-time remote"), "full-time", 0);
  }

  /** Lower-cased, "Part-time remote" contains "part-time". */
  lemma PartTimeRemoteLowerVsPartTime()
    ensures Contains(Lower("Part-time remote"), "part-time")
  {
    ContainsAt(Lower("Part-time remote"), "part-time", 0);
  }

  /** "Backend Developer" does not contain "HR". */
  lemma BackendDeveloperVsHR()
    ensures !Contains("Backend Developer", "HR")
  {
    NotContainsMissingChar("Backend Developer", "HR", 0);
  }

  /** "Node.js" does not contain "Recruitment". */
  lemma NodeJsVsRecruitment()
    ensures !Contains("Node.js", "Recruitment")
  {
  }

  /** "Node.js" does not contain "HRIS". */
  lemma NodeJsVsHRIS()
    ensures !Contains("Node.js", "HRIS")
  {
    NotContainsMissingChar("Node.js", "HRIS", 0);
  }

  /** Skill "Node.js" does not match the "HR" skill rule. */
  lemma NodeJsVsHRRule()
    ensures !SkillMatchesRule("Node.js", AnyContaining(["Recruitment", "HRIS"]))
  {
    NodeJsVsRecruitment();
    NodeJsVsHRIS();
  }

  /** "Express" does not contain "Recruitment". */
  lemma ExpressVsRecruitment()
    ensures !Contains("Express", "Recruitment")
  {
  }

  /** "Express" does not contain "HRIS". */
  lemma ExpressVsHRIS()
    ensures !Contains("Express", "HRIS")
  {
    NotContainsMissingChar("Express", "HRIS", 0);
  }

  /** Skill "Express" does not match the "HR" skill rule. */
  lemma ExpressVsHRRule()
    ensures !SkillMatchesRule("Express", AnyContaining(["Recruitment", "HRIS"]))
  {
    ExpressVsRecruitment();
    ExpressVsHRIS();
  }

  /** "MongoDB" does not contain "Recruitment". */
  lemma MongoDBVsRecruitment()
    ensures !Contains("MongoDB", "Recruitment")
  {
  }

  /** "MongoDB" does not contain "HRIS". */
  lemma MongoDBVsHRIS()
    ensures !Contains("MongoDB", "HRIS")
  {
    NotContainsMissingChar("MongoDB", "HRIS", 0);
  }

  /** Skill "MongoDB" does not match the "HR" skill rule. */
  lemma MongoDBVsHRRule()
    ensures !SkillMatchesRule("MongoDB", AnyContaining(["Recruitment", "HRIS"]))
  {
    MongoDBVsRecruitment();
    MongoDBVsHRIS();
  }

  /** "Backend Developer" contains "Developer". */
  lemma BackendDeveloperVsDeveloper()
    ensures Contains("Backend Developer", "Developer")
  {
    ContainsAt("Backend Developer", "Developer", 8);
  }

  /** "Backend Developer" does not contain "Designer". */
  lemma BackendDeveloperVsDesigner()
    ensures !Contains("Backend Developer", "Designer")
  {
    NotContainsMissingChar("Backend Developer", "Designer", 2);
  }

  /** "Backend Developer" does not contain "SEO". */
  lemma BackendDeveloperVsSEO()
    ensures !Contains("Backend Developer", "SEO")
  {
    NotContainsMissingChar("Backend Developer", "SEO", 0);
  }

  /** "Node.js" does not contain "SEO". */
  lemma NodeJsVsSEO()
    ensures !Contains("Node.js", "SEO")
  {
    NotContainsMissingChar("Node.js", "SEO", 0);
  }

  /** Skill "Node.js" does not match the "SEO" skill rule. */
  lemma NodeJsVsSeoRule()
    ensures !SkillMatchesRule("Node.js", AnyContaining(["SEO"]))
  {
    NodeJsVsSEO();
  }

  /** "Express" does not contain "SEO". */
  lemma ExpressVsSEO()
    ensures !Contains("Express", "SEO")
  {
    NotContainsMissingChar("Express", "SEO", 0);
  }

  /** Skill "Express" does not match the "SEO" skill rule. */
  lemma ExpressVsSeoRule()
    ensures !SkillMatchesRule("Express", AnyContaining(["SEO"]))
  {
    ExpressVsSEO();
  }

  /** "MongoDB" does not contain "SEO". */
  lemma MongoDBVsSEO()
    ensures !Contains("MongoDB", "SEO")
  {
    NotContainsMissingChar("MongoDB", "SEO", 0);
  }

  /** Skill "MongoDB" does not match the "SEO" skill rule. */
  lemma MongoDBVsSeoRule()
    ensures !SkillMatchesRule("MongoDB", AnyContaining(["SEO"]))
  {
    MongoDBVsSEO();
  }

  /** "Backend Developer" does not contain "Marketing". */
  lemma BackendDeveloperVsMarketing()
    ensures !Contains("Backend Developer", "Marketing")
  {
    NotContainsMissingChar("Backend Developer", "Marketing", 0);
  }

  /** "Node.js" does not contain "Marketing". */
  lemma NodeJsVsMarketing()
    ensures !Contains("Node.js", "Marketing")
  {
  }

  /** Skill "Node.js" does not match the "Marketing" skill rule. */
  lemma NodeJsVsMarketingRule()
    ensures !SkillMatchesRule("Node.js", AnyContaining(["Marketing"]))
  {
    NodeJsVsMarketing();
  }

  /** "Express" does not contain "Marketing". */
  lemma ExpressVsMarketing()
    ensures !Contains("Express", "Marketing")
  {
  }

  /** Skill "Express" does not match the "Marketing" skill rule. */
  lemma ExpressVsMarketingRule()
    ensures !SkillMatchesRule("Express", AnyContaining(["Marketing"]))
  {
    ExpressVsMarketing();
  }

  /** "MongoDB" does not contain "Marketing". */
  lemma MongoDBVsMarketing()
    ensures !Contains("MongoDB", "Marketing")
  {
  }

  /** Skill "MongoDB" does not match the "Marketing" skill rule. */
  lemma MongoDBVsMarketingRule()
    ensures !SkillMatchesRule("MongoDB", AnyContaining(["Marketing"]))
  {
    MongoDBVsMarketing();
  }

  /** "Backend Developer" does not contain "Data Entry". */
  lemma BackendDeveloperVsDataEntry()
    ensures !Contains("Backend Developer", "Data Entry")
  {
    NotContainsMissingChar("Backend Developer", "Data Entry", 2);
  }

  /** "Node.js" does not contain "Data". */
  lemma NodeJsVsData()
    ensures !Contains("Node.js", "Data")
  {
    NotContainsMissingChar("Node.js", "Data", 0);
  }

  /** "Node.js" does not contain "Excel". */
  lemma NodeJsVsExcel()
    ensures !Contains("Node.js", "Excel")
  {
    NotContainsMissingChar("Node.js", "Excel", 0);
  }

  /** Skill "Node.js" does not match the "Data Entry" skill rule. */
  lemma NodeJsVsDataEntryRule()
    ensures !SkillMatchesRule("Node.js", AnyContaining(["Data", "Excel"]))
  {
    NodeJsVsData();
    NodeJsVsExcel();
  }

  /** "Express" does not contain "Data". */
  lemma ExpressVsData()
    ensures !Contains("Express", "Data")
  {
    NotContainsMissingChar("Express", "Data", 0);
  }

  /** "Express" does not contain "Excel". */
  lemma ExpressVsExcel()
    ensures !Contains("Express", "Excel")
  {
    NotContainsMissingChar("Express", "Excel", 2);
  }

  /** Skill "Express" does not match the "Data Entry" skill rule. */
  lemma ExpressVsDataEntryRule()
    ensures !SkillMatchesRule("Express", AnyContaining(["Data", "Excel"]))
  {
    ExpressVsData();
    ExpressVsExcel();
  }

  /** "MongoDB" does not contain "Data". */
  lemma MongoDBVsData()
    ensures !Contains("MongoDB", "Data")
  {
    NotContainsMissingChar("MongoDB", "Data", 1);
  }

  /** "MongoDB" does not contain "Excel". */
  lemma MongoDBVsExcel()
    ensures !Contains("MongoDB", "Excel")
  {
    NotContainsMissingChar("MongoDB", "Excel", 0);
  }

  /** Skill "MongoDB" does not match the "Data Entry" skill rule. */
  lemma MongoDBVsDataEntryRule()
    ensures !SkillMatchesRule("MongoDB", AnyContaining(["Data", "Excel"]))
  {
    MongoDBVsData();
    MongoDBVsExcel();
  }

  /** Lower-cased, "Backend Developer" does not contain "react". */
  lemma BackendDeveloperLowerVsReact()
    ensures !Contains(Lower("Backend Developer"), "react")
  {
    LowerMissingChar("Backend Developer", 't', 'T');
    NotContainsMissingChar(Lower("Backend Developer"), "react", 4);
  }

  /** Lower-cased, "Google" does not contain "react". */
  lemma GoogleLowerVsReact()
    ensures !Contains(Lower("Google"), "react")
  {
    LowerMissingChar("Google", 'r', 'R');
    NotContainsMissingChar(Lower("Google"), "react", 0);
  }

  /** Lower-cased, "Node.js" does not contain "react". */
  lemma NodeJsLowerVsReact()
    ensures !Contains(Lower("Node.js"), "react")
  {
    LowerMissingChar("Node.js", 'r', 'R');
    NotContainsMissingChar(Lower("Node.js"), "react", 0);
  }

  /** Lower-cased, "Express" does not contain "react". */
  lemma ExpressLowerVsReact()
    ensures !Contains(Lower("Express"), "react")
  {
    LowerMissingChar("Express", 'a', 'A');
    NotContainsMissingChar(Lower("Express"), "react", 2);
  }

  /** Lower-cased, "MongoDB" does not contain "react". */
  lemma MongoDBLowerVsReact()
    ensures !Contains(Lower("MongoDB"), "react")
  {
    LowerMissingChar("MongoDB", 'r', 'R');
    NotContainsMissingChar(Lower("MongoDB"), "react", 0);
  }

  /** Lower-cased, "Hybrid remote" does not contain "full-time". */
  lemma HybridRemoteLowerVsFullTime()
    ensures !Contains(Lower("Hybrid remote"), "full-time")
  {
    LowerMissingChar("Hybrid remote", 'f', 'F');
    NotContainsMissingChar(Lower("Hybrid remote"), "full-time", 0);
  }

  /** Lower-cased, "Hybrid remote" does not contain "part-time". */
  lemma HybridRemoteLowerVsPartTime()
    ensures !Contains(Lower("Hybrid remote"), "part-time")
  {
    LowerMissingChar("Hybrid remote", 'p', 'P');
    NotContainsMissingChar(Lower("Hybrid remote"), "part-time", 0);
  }

  /** "Product Manager" does not contain "HR". */
  lemma ProductManagerVsHR()
    ensures !Contains("Product Manager", "HR")
  {
    NotContainsMissingChar("Product Manager", "HR", 0);
  }

  /** "Product Strategy" does not contain "Recruitment". */
  lemma ProductStrategyVsRecruitment()
    ensures !Contains("Product Strategy", "Recruitment")
  {
    NotContainsMissingChar("Product Strategy", "Recruitment", 0);
  }

  /** "Product Strategy" does not contain "HRIS". */
  lemma ProductStrategyVsHRIS()
    ensures !Contains("Product Strategy", "HRIS")
  {
    NotContainsMissingChar("Product Strategy", "HRIS", 0);
  }

  /** Skill "Product Strategy" does not match the "HR" skill rule. */
  lemma ProductStrategyVsHRRule()
    ensures !SkillMatchesRule("Product Strategy", AnyContaining(["Recruitment", "HRIS"]))
  {
    ProductStrategyVsRecruitment();
    ProductStrategyVsHRIS();
  }

  /** "Agile" does not contain "Recruitment". */
  lemma AgileVsRecruitment()
    ensures !Contains("Agile", "Recruitment")
  {
  }

  /** "Agile" does not contain "HRIS". */
  lemma AgileVsHRIS()
    ensures !Contains("Agile", "HRIS")
  {
    NotContainsMissingChar("Agile", "HRIS", 0);
  }

  /** Skill "Agile" does not match the "HR" skill rule. */
  lemma AgileVsHRRule()
    ensures !SkillMatchesRule("Agile", AnyContaining(["Recruitment", "HRIS"]))
  {
    AgileVsRecruitment();
    AgileVsHRIS();
  }

  /** "Roadmapping" does not contain "Recruitment". */
  lemma RoadmappingVsRecruitment()
    ensures !Contains("Roadmapping", "Recruitment")
  {
    NotContainsMissingChar("Roadmapping", "Recruitment", 1);
  }

  /** "Roadmapping" does not contain "HRIS". */
  lemma RoadmappingVsHRIS()
    ensures !Contains("Roadmapping", "HRIS")
  {
    NotContainsMissingChar("Roadmapping", "HRIS", 0);
  }

  /** Skill "Roadmapping" does not match the "HR" skill rule. */
  lemma RoadmappingVsHRRule()
    ensures !SkillMatchesRule("Roadmapping", AnyContaining(["Recruitment", "HRIS"]))
  {
    RoadmappingVsRecruitment();
    RoadmappingVsHRIS();
  }

  /** "Product Manager" does not contain "Developer". */
  lemma ProductManagerVsDeveloper()
    ensures !Contains("Product Manager", "Developer")
  {
    NotContainsMissingChar("Product Manager", "Developer", 0);
  }

  /** "Product Manager" does not contain "Designer". */
  lemma ProductManagerVsDesigner()
    ensures !Contains("Product Manager", "Designer")
  {
    NotContainsMissingChar("Product Manager", "Designer", 0);
  }

  /** "Product Manager" does not contain "SEO". */
  lemma ProductManagerVsSEO()
    ensures !Contains("Product Manager", "SEO")
  {
    NotContainsMissingChar("Product Manager", "SEO", 0);
  }

  /** "Product Strategy" does not contain "SEO". */
  lemma ProductStrategyVsSEO()
    ensures !Contains("Product Strategy", "SEO")
  {
    NotContainsMissingChar("Product Strategy", "SEO", 1);
  }

  /** Skill "Product Strategy" does not match the "SEO" skill rule. */
  lemma ProductStrategyVsSeoRule()
    ensures !SkillMatchesRule("Product Strategy", AnyContaining(["SEO"]))
  {
    ProductStrategyVsSEO();
  }

  /** "Agile" does not contain "SEO". */
  lemma AgileVsSEO()
    ensures !Contains("Agile", "SEO")
  {
    NotContainsMissingChar("Agile", "SEO", 0);
  }

  /** Skill "Agile" does not match the "SEO" skill rule. */
  lemma AgileVsSeoRule()
    ensures !SkillMatchesRule("Agile", AnyContaining(["SEO"]))
  {
    AgileVsSEO();
  }

  /** "Roadmapping" does not contain "SEO". */
  lemma RoadmappingVsSEO()
    ensures !Contains("Roadmapping", "SEO")
  {
    NotContainsMissingChar("Roadmapping", "SEO", 0);
  }

  /** Skill "Roadmapping" does not match the "SEO" skill rule. */
  lemma RoadmappingVsSeoRule()
    ensures !SkillMatchesRule("Roadmapping", AnyContaining(["SEO"]))
  {
    RoadmappingVsSEO();
  }

  /** "Product Manager" does not contain "Marketing". */
  lemma ProductManagerVsMarketing()
    ensures !Contains("Product Manager", "Marketing")
  {
    NotContainsMissingChar("Product Manager", "Marketing", 3);
  }

  /** "Product Strategy" does not contain "Marketing". */
  lemma ProductStrategyVsMarketing()
    ensures !Contains("Product Strategy", "Marketing")
  {
    NotContainsMissingChar("Product Strategy", "Marketing", 0);
  }

  /** Skill "Product Strategy" does not match the "Marketing" skill rule. */
  lemma ProductStrategyVsMarketingRule()
    ensures !SkillMatchesRule("Product Strategy", AnyContaining(["Marketing"]))
  {
    ProductStrategyVsMarketing();
  }

  /** "Agile" does not contain "Marketing". */
  lemma AgileVsMarketing()
    ensures !Contains("Agile", "Marketing")
  {
  }

  /** Skill "Agile" does not match the "Marketing" skill rule. */
  lemma AgileVsMarketingRule()
    ensures !SkillMatchesRule("Agile", AnyContaining(["Marketing"]))
  {
    AgileVsMarketing();
  }

  /** "Roadmapping" does not contain "Marketing". */
  lemma RoadmappingVsMarketing()
    ensures !Contains("Roadmapping", "Marketing")
  {
    NotContainsMissingChar("Roadmapping", "Marketing", 0);
  }

  /** Skill "Roadmapping" does not match the "Marketing" skill rule. */
  lemma RoadmappingVsMarketingRule()
    ensures !SkillMatchesRule("Roadmapping", AnyContaining(["Marketing"]))
  {
    RoadmappingVsMarketing();
  }

  /** "Product Manager" does not contain "Data Entry". */
  lemma ProductManagerVsDataEntry()
    ensures !Contains("Product Manager", "Data Entry")
  {
    NotContainsMissingChar("Product Manager", "Data Entry", 0);
  }

  /** "Product Strategy" does not contain "Data". */
  lemma ProductStrategyVsData()
    ensures !Contains("Product Strategy", "Data")
  {
    NotContainsMissingChar("Product Strategy", "Data", 0);
  }

  /** "Product Strategy" does not contain "Excel". */
  lemma ProductStrategyVsExcel()
    ensures !Contains("Product Strategy", "Excel")
  {
    NotContainsMissingChar("Product Strategy", "Excel", 0);
  }

  /** Skill "Product Strategy" does not match the "Data Entry" skill rule. */
  lemma ProductStrategyVsDataEntryRule()
    ensures !SkillMatchesRule("Product Strategy", AnyContaining(["Data", "Excel"]))
  {
    ProductStrategyVsData();
    ProductStrategyVsExcel();
  }

  /** "Agile" does not contain "Data". */
  lemma AgileVsData()
    ensures !Contains("Agile", "Data")
  {
    NotContainsMissingChar("Agile", "Data", 0);
  }

  /** "Agile" does not contain "Excel". */
  lemma AgileVsExcel()
    ensures !Contains("Agile", "Excel")
  {
    NotContainsMissingChar("Agile", "Excel", 0);
  }

  /** Skill "Agile" does not match the "Data Entry" skill rule. */
  lemma AgileVsDataEntryRule()
    ensures !SkillMatchesRule("Agile", AnyContaining(["Data", "Excel"]))
  {
    AgileVsData();
    AgileVsExcel();
  }

  /** "Roadmapping" does not contain "Data". */
  lemma RoadmappingVsData()
    ensures !Contains("Roadmapping", "Data")
  {
    NotContainsMissingChar("Roadmapping", "Data", 0);
  }

  /** "Roadmapping" does not contain "Excel". */
  lemma RoadmappingVsExcel()
    ensures !Contains("Roadmapping", "Excel")
  {
    NotContainsMissingChar("Roadmapping", "Excel", 0);
  }

  /** Skill "Roadmapping" does not match the "Data Entry" skill rule. */
  lemma RoadmappingVsDataEntryRule()
    ensures !SkillMatchesRule("Roadmapping", AnyContaining(["Data", "Excel"]))
  {
    RoadmappingVsData();
    RoadmappingVsExcel();
  }

  /** Lower-cased, "Product Manager" does not contain "react". */
  lemma ProductManagerLowerVsReact()
    ensures !Contains(Lower("Product Manager"), "react")
  {
    assert !SearchFrom(Lower("Product Manager"), "react", 10);
    assert !SearchFrom(Lower("Product Manager"), "react", 8);
    assert !SearchFrom(Lower("Product Manager"), "react", 6);
    assert !SearchFrom(Lower("Product Manager"), "react", 4);
    assert !SearchFrom(Lower("Product Manager"), "react", 2);
  }

  /** Lower-cased, "Apple" does not contain "react". */
  lemma AppleLowerVsReact()
    ensures !Contains(Lower("Apple"), "react")
  {
    LowerMissingChar("Apple", 'r', 'R');
    NotContainsMissingChar(Lower("Apple"), "react", 0);
  }

  /** Lower-cased, "Product Strategy" does not contain "react". */
  lemma ProductStrategyLowerVsReact()
    ensures !Contains(Lower("Product Strategy"), "react")
  {
    assert !SearchFrom(Lower("Product Strategy"), "react", 10);
    assert !SearchFrom(Lower("Product Strategy"), "react", 8);
    assert !SearchFrom(Lower("Product Strategy"), "react", 6);
    assert !SearchFrom(Lower("Product Strategy"), "react", 4);
    assert !SearchFrom(Lower("Product Strategy"), "react", 2);
  }

  /** Lower-cased, "Agile" does not contain "react". */
  lemma AgileLowerVsReact()
    ensures !Contains(Lower("Agile"), "react")
  {
    LowerMissingChar("Agile", 'r', 'R');
    NotContainsMissingChar(Lower("Agile"), "react", 0);
  }

  /** Lower-cased, "Roadmapping" does not contain "react". */
  lemma RoadmappingLowerVsReact()
    ensures !Contains(Lower("Roadmapping"), "react")
  {
    LowerMissingChar("Roadmapping", 'e', 'E');
    NotContainsMissingChar(Lower("Roadmapping"), "react", 1);
  }

  /** "HR Manager" contains "HR". */
  lemma HRManagerVsHR()
    ensures Contains("HR Manager", "HR")
  {
    ContainsAt("HR Manager", "HR", 0);
  }

  /** "HR Manager" does not contain "Developer". */
  lemma HRManagerVsDeveloper()
    ensures !Contains("HR Manager", "Developer")
  {
    NotContainsMissingChar("HR Manager", "Developer", 0);
  }

  /** "HR Manager" does not contain "Designer". */
  lemma HRManagerVsDesigner()
    ensures !Contains("HR Manager", "Designer")
  {
    NotContainsMissingChar("HR Manager", "Designer", 0);
  }

  /** "HR Manager" does not contain "SEO". */
  lemma HRManagerVsSEO()
    ensures !Contains("HR Manager", "SEO")
  {
    NotContainsMissingChar("HR Manager", "SEO", 0);
  }

  /** "Recruitment" does not contain "SEO". */
  lemma RecruitmentVsSEO()
    ensures !Contains("Recruitment", "SEO")
  {
    NotContainsMissingChar("Recruitment", "SEO", 0);
  }

  /** Skill "Recruitment" does not match the "SEO" skill rule. */
  lemma RecruitmentVsSeoRule()
    ensures !SkillMatchesRule("Recruitment", AnyContaining(["SEO"]))
  {
    RecruitmentVsSEO();
  }

  /** "Employee Relations" does not contain "SEO". */
  lemma EmployeeRelationsVsSEO()
    ensures !Contains("Employee Relations", "SEO")
  {
    NotContainsMissingChar("Employee Relations", "SEO", 0);
  }

  /** Skill "Employee Relations" does not match the "SEO" skill rule. */
  lemma EmployeeRelationsVsSeoRule()
    ensures !SkillMatchesRule("Employee Relations", AnyContaining(["SEO"]))
  {
    EmployeeRelationsVsSEO();
  }

  /** "HRIS" does not contain "SEO". */
  lemma HRISVsSEO()
    ensures !Contains("HRIS", "SEO")
  {
    NotContainsMissingChar("HRIS", "SEO", 1);
  }

  /** Skill "HRIS" does not match the "SEO" skill rule. */
  lemma HRISVsSeoRule()
    ensures !SkillMatchesRule("HRIS", AnyContaining(["SEO"]))
  {
    HRISVsSEO();
  }

  /** "HR Manager" does not contain "Marketing". */
  lemma HRManagerVsMarketing()
    ensures !Contains("HR Manager", "Marketing")
  {
    NotContainsMissingChar("HR Manager", "Marketing", 3);
  }

  /** "Recruitment" does not contain "Marketing". */
  lemma RecruitmentVsMarketing()
    ensures !Contains("Recruitment", "Marketing")
  {
    NotContainsMissingChar("Recruitment", "Marketing", 0);
  }

  /** Skill "Recruitment" does not match the "Marketing" skill rule. */
  lemma RecruitmentVsMarketingRule()
    ensures !SkillMatchesRule("Recruitment", AnyContaining(["Marketing"]))
  {
    RecruitmentVsMarketing();
  }

  /** "Employee Relations" does not contain "Marketing". */
  lemma EmployeeRelationsVsMarketing()
    ensures !Contains("Employee Relations", "Marketing")
  {
    NotContainsMissingChar("Employee Relations", "Marketing", 0);
  }

  /** Skill "Employee Relations" does not match the "Marketing" skill rule. */
  lemma EmployeeRelationsVsMarketingRule()
    ensures !SkillMatchesRule("Employee Relations", AnyContaining(["Marketing"]))
  {
    EmployeeRelationsVsMarketing();
  }

  /** "HRIS" does not contain "Marketing". */
  lemma HRISVsMarketing()
    ensures !Contains("HRIS", "Marketing")
  {
  }

  /** Skill "HRIS" does not match the "Marketing" skill rule. */
  lemma HRISVsMarketingRule()
    ensures !SkillMatchesRule("HRIS", AnyContaining(["Marketing"]))
  {
    HRISVsMarketing();
  }

  /** "HR Manager" does not contain "Data Entry". */
  lemma HRManagerVsDataEntry()
    ensures !Contains("HR Manager", "Data Entry")
  {
    NotContainsMissingChar("HR Manager", "Data Entry", 0);
  }

  /** "Recruitment" does not contain "Data". */
  lemma RecruitmentVsData()
    ensures !Contains("Recruitment", "Data")
  {
    NotContainsMissingChar("Recruitment", "Data", 0);
  }

  /** "Recruitment" does not contain "Excel". */
  lemma RecruitmentVsExcel()
    ensures !Contains("Recruitment", "Excel")
  {
    NotContainsMissingChar("Recruitment", "Excel", 0);
  }

  /** Skill "Recruitment" does not match the "Data Entry" skill rule. */
  lemma RecruitmentVsDataEntryRule()
    ensures !SkillMatchesRule("Recruitment", AnyContaining(["Data", "Excel"]))
  {
    RecruitmentVsData();
    RecruitmentVsExcel();
  }

  /** "Employee Relations" does not contain "Data". */
  lemma EmployeeRelationsVsData()
    ensures !Contains("Employee Relations", "Data")
  {
    NotContainsMissingChar("Employee Relations", "Data", 0);
  }

  /** "Employee Relations" does not contain "Excel". */
  lemma EmployeeRelationsVsExcel()
    ensures !Contains("Employee Relations", "Excel")
  {
    NotContainsMissingChar("Employee Relations", "Excel", 1);
  }

  /** Skill "Employee Relations" does not match the "Data Entry" skill rule. */
  lemma EmployeeRelationsVsDataEntryRule()
    ensures !SkillMatchesRule("Employee Relations", AnyContaining(["Data", "Excel"]))
  {
    EmployeeRelationsVsData();
    EmployeeRelationsVsExcel();
  }

  /** "HRIS" does not contain "Data". */
  lemma HRISVsData()
    ensures !Contains("HRIS", "Data")
  {
    NotContainsMissingChar("HRIS", "Data", 0);
  }

  /** "HRIS" does not contain "Excel". */
  lemma HRISVsExcel()
    ensures !Contains("HRIS", "Excel")
  {
  }

  /** Skill "HRIS" does not match the "Data Entry" skill rule. */
  lemma HRISVsDataEntryRule()
    ensures !SkillMatchesRule("HRIS", AnyContaining(["Data", "Excel"]))
  {
    HRISVsData();
    HRISVsExcel();
  }

  /** Lower-cased, "HR Manager" does not contain "react". */
  lemma HRManagerLowerVsReact()
    ensures !Contains(Lower("HR Manager"), "react")
  {
    LowerMissingChar("HR Manager", 'c', 'C');
    NotContainsMissingChar(Lower("HR Manager"), "react", 3);
  }

  /** Lower-cased, "Netflix" does not contain "react". */
  lemma NetflixLowerVsReact()
    ensures !Contains(Lower("Netflix"), "react")
  {
    LowerMissingChar("Netflix", 'r', 'R');
    NotContainsMissingChar(Lower("Netflix"), "react", 0);
  }

  /** Lower-cased, "Recruitment" does not contain "react". */
  lemma RecruitmentLowerVsReact()
    ensures !Contains(Lower("Recruitment"), "react")
  {
    LowerMissingChar("Recruitment", 'a', 'A');
    NotContainsMissingChar(Lower("Recruitment"), "react", 2);
  }

  /** Lower-cased, "Employee Relations" does not contain "react". */
  lemma EmployeeRelationsLowerVsReact()
    ensures !Contains(Lower("Employee Relations"), "react")
  {
    LowerMissingChar("Employee Relations", 'c', 'C');
    NotContainsMissingChar(Lower("Employee Relations"), "react", 3);
  }

  /** Lower-cased, "HRIS" does not contain "react". */
  lemma HRISLowerVsReact()
    ensures !Contains(Lower("HRIS"), "react")
  {
  }

  /** "Data Analyst" does not contain "HR". */
  lemma DataAnalystVsHR()
    ensures !Contains("Data Analyst", "HR")
  {
    NotContainsMissingChar("Data Analyst", "HR", 0);
  }

  /** "SQL" does not contain "Recruitment". */
  lemma SQLVsRecruitment()
    ensures !Contains("SQL", "Recruitment")
  {
  }

  /** "SQL" does not contain "HRIS". */
  lemma SQLVsHRIS()
    ensures !Contains("SQL", "HRIS")
  {
  }

  /** Skill "SQL" does not match the "HR" skill rule. */
  lemma SQLVsHRRule()
    ensures !SkillMatchesRule("SQL", AnyContaining(["Recruitment", "HRIS"]))
  {
    SQLVsRecruitment();
    SQLVsHRIS();
  }

  /** "Excel" does not contain "Recruitment". */
  lemma ExcelVsRecruitment()
    ensures !Contains("Excel", "Recruitment")
  {
  }

  /** "Excel" does not contain "HRIS". */
  lemma ExcelVsHRIS()
    ensures !Contains("Excel", "HRIS")
  {
    NotContainsMissingChar("Excel", "HRIS", 0);
  }

  /** Skill "Excel" does not match the "HR" skill rule. */
  lemma ExcelVsHRRule()
    ensures !SkillMatchesRule("Excel", AnyContaining(["Recruitment", "HRIS"]))
  {
    ExcelVsRecruitment();
    ExcelVsHRIS();
  }

  /** "Tableau" does not contain "Recruitment". */
  lemma TableauVsRecruitment()
    ensures !Contains("Tableau", "Recruitment")
  {
  }

  /** "Tableau" does not contain "HRIS". */
  lemma TableauVsHRIS()
    ensures !Contains("Tableau", "HRIS")
  {
    NotContainsMissingChar("Tableau", "HRIS", 0);
  }

  /** Skill "Tableau" does not match the "HR" skill rule. */
  lemma TableauVsHRRule()
    ensures !SkillMatchesRule("Tableau", AnyContaining(["Recruitment", "HRIS"]))
  {
    TableauVsRecruitment();
    TableauVsHRIS();
  }

  /** "Data Analyst" does not contain "Developer". */
  lemma DataAnalystVsDeveloper()
    ensures !Contains("Data Analyst", "Developer")
  {
    NotContainsMissingChar("Data Analyst", "Developer", 1);
  }

  /** "Data Analyst" does not contain "Designer". */
  lemma DataAnalystVsDesigner()
    ensures !Contains("Data Analyst", "Designer")
  {
    NotContainsMissingChar("Data Analyst", "Designer", 1);
  }

  /** "Data Analyst" does not contain "SEO". */
  lemma DataAnalystVsSEO()
    ensures !Contains("Data Analyst", "SEO")
  {
    NotContainsMissingChar("Data Analyst", "SEO", 0);
  }

  /** "SQL" does not contain "SEO". */
  lemma SQLVsSEO()
    ensures !Contains("SQL", "SEO")
  {
    NotContainsMissingChar("SQL", "SEO", 1);
  }

  /** Skill "SQL" does not match the "SEO" skill rule. */
  lemma SQLVsSeoRule()
    ensures !SkillMatchesRule("SQL", AnyContaining(["SEO"]))
  {
    SQLVsSEO();
  }

  /** "Excel" does not contain "SEO". */
  lemma ExcelVsSEO()
    ensures !Contains("Excel", "SEO")
  {
    NotContainsMissingChar("Excel", "SEO", 0);
  }

  /** Skill "Excel" does not match the "SEO" skill rule. */
  lemma ExcelVsSeoRule()
    ensures !SkillMatchesRule("Excel", AnyContaining(["SEO"]))
  {
    ExcelVsSEO();
  }

  /** "Tableau" does not contain "SEO". */
  lemma TableauVsSEO()
    ensures !Contains("Tableau", "SEO")
  {
    NotContainsMissingChar("Tableau", "SEO", 0);
  }

  /** Skill "Tableau" does not match the "SEO" skill rule. */
  lemma TableauVsSeoRule()
    ensures !SkillMatchesRule("Tableau", AnyContaining(["SEO"]))
  {
    TableauVsSEO();
  }

  /** "Data Analyst" does not contain "Marketing". */
  lemma DataAnalystVsMarketing()
    ensures !Contains("Data Analyst", "Marketing")
  {
    NotContainsMissingChar("Data Analyst", "Marketing", 0);
  }

  /** "SQL" does not contain "Marketing". */
  lemma SQLVsMarketing()
    ensures !Contains("SQL", "Marketing")
  {
  }

  /** Skill "SQL" does not match the "Marketing" skill rule. */
  lemma SQLVsMarketingRule()
    ensures !SkillMatchesRule("SQL", AnyContaining(["Marketing"]))
  {
    SQLVsMarketing();
  }

  /** "Excel" does not contain "Marketing". */
  lemma ExcelVsMarketing()
    ensures !Contains("Excel", "Marketing")
  {
  }

  /** Skill "Excel" does not match the "Marketing" skill rule. */
  lemma ExcelVsMarketingRule()
    ensures !SkillMatchesRule("Excel", AnyContaining(["Marketing"]))
  {
    ExcelVsMarketing();
  }

  /** "Tableau" does not contain "Marketing". */
  lemma TableauVsMarketing()
    ensures !Contains("Tableau", "Marketing")
  {
  }

  /** Skill "Tableau" does not match the "Marketing" skill rule. */
  lemma TableauVsMarketingRule()
    ensures !SkillMatchesRule("Tableau", AnyContaining(["Marketing"]))
  {
    TableauVsMarketing();
  }

  /** "Data Analyst" does not contain "Data Entry". */
  lemma DataAnalystVsDataEntry()
    ensures !Contains("Data Analyst", "Data Entry")
  {
    NotContainsMissingChar("Data Analyst", "Data Entry", 5);
  }

  /** "SQL" does not contain "Data". */
  lemma SQLVsData()
    ensures !Contains("SQL", "Data")
  {
  }

  /** "SQL" does not contain "Excel". */
  lemma SQLVsExcel()
    ensures !Contains("SQL", "Excel")
  {
  }

  /** Skill "SQL" does not match the "Data Entry" skill rule. */
  lemma SQLVsDataEntryRule()
    ensures !SkillMatchesRule("SQL", AnyContaining(["Data", "Excel"]))
  {
    SQLVsData();
    SQLVsExcel();
  }

  /** "Excel" contains "Excel". */
  lemma ExcelVsExcel()
    ensures Contains("Excel", "Excel")
  {
    ContainsAt("Excel", "Excel", 0);
  }

  /** Skill "Excel" matches the "Data Entry" skill rule. */
  lemma ExcelVsDataEntryRule()
    ensures SkillMatchesRule("Excel", AnyContaining(["Data", "Excel"]))
  {
    ExcelVsExcel();
    assert "Excel" in ["Data", "Excel"];
  }

  /** "Tableau" does not contain "Data". */
  lemma TableauVsData()
    ensures !Contains("Tableau", "Data")
  {
    NotContainsMissingChar("Tableau", "Data", 0);
  }

  /** "Tableau" does not contain "Excel". */
  lemma TableauVsExcel()
    ensures !Contains("Tableau", "Excel")
  {
    NotContainsMissingChar("Tableau", "Excel", 0);
  }

  /** Skill "Tableau" does not match the "Data Entry" skill rule. */
  lemma TableauVsDataEntryRule()
    ensures !SkillMatchesRule("Tableau", AnyContaining(["Data", "Excel"]))
  {
    TableauVsData();
    TableauVsExcel();
  }

  /** Lower-cased, "Data Analyst" does not contain "react". */
  lemma DataAnalystLowerVsReact()
    ensures !Contains(Lower("Data Analyst"), "react")
  {
    LowerMissingChar("Data Analyst", 'r', 'R');
    NotContainsMissingChar(Lower("Data Analyst"), "react", 0);
  }

  /** Lower-cased, "Facebook" does not contain "react". */
  lemma FacebookLowerVsReact()
    ensures !Contains(Lower("Facebook"), "react")
  {
    LowerMissingChar("Facebook", 'r', 'R');
    NotContainsMissingChar(Lower("Facebook"), "react", 0);
  }

  /** Lower-cased, "SQL" does not contain "react". */
  lemma SQLLowerVsReact()
    ensures !Contains(Lower("SQL"), "react")
  {
  }

  /** Lower-cased, "Excel" does not contain "react". */
  lemma ExcelLowerVsReact()
    ensures !Contains(Lower("Excel"), "react")
  {
    LowerMissingChar("Excel", 'r', 'R');
    NotContainsMissingChar(Lower("Excel"), "react", 0);
  }

  /** Lower-cased, "Tableau" does not contain "react". */
  lemma TableauLowerVsReact()
    ensures !Contains(Lower("Tableau"), "react")
  {
    LowerMissingChar("Tableau", 'r', 'R');
    NotContainsMissingChar(Lower("Tableau"), "react", 0);
  }

  /** "SEO Specialist" does not contain "HR". */
  lemma SEOSpecialistVsHR()
    ensures !Contains("SEO Specialist", "HR")
  {
    NotContainsMissingChar("SEO Specialist", "HR", 0);
  }

  /** "SEO Tools" does not contain "Recruitment". */
  lemma SEOToolsVsRecruitment()
    ensures !Contains("SEO Tools", "Recruitment")
  {
  }

  /** "SEO Tools" does not contain "HRIS". */
  lemma SEOToolsVsHRIS()
    ensures !Contains("SEO Tools", "HRIS")
  {
    NotContainsMissingChar("SEO Tools", "HRIS", 0);
  }

  /** Skill "SEO Tools" does not match the "HR" skill rule. */
  lemma SEOToolsVsHRRule()
    ensures !SkillMatchesRule("SEO Tools", AnyContaining(["Recruitment", "HRIS"]))
  {
    SEOToolsVsRecruitment();
    SEOToolsVsHRIS();
  }

  /** "Google Analytics" does not contain "Recruitment". */
  lemma GoogleAnalyticsVsRecruitment()
    ensures !Contains("Google Analytics", "Recruitment")
  {
    NotContainsMissingChar("Google Analytics", "Recruitment", 0);
  }

  /** "Google Analytics" does not contain "HRIS". */
  lemma GoogleAnalyticsVsHRIS()
    ensures !Contains("Google Analytics", "HRIS")
  {
    NotContainsMissingChar("Google Analytics", "HRIS", 0);
  }

  /** Skill "Google Analytics" does not match the "HR" skill rule. */
  lemma GoogleAnalyticsVsHRRule()
    ensures !SkillMatchesRule("Google Analytics", AnyContaining(["Recruitment", "HRIS"]))
  {
    GoogleAnalyticsVsRecruitment();
    GoogleAnalyticsVsHRIS();
  }

  /** "Content Strategy" does not contain "Recruitment". */
  lemma ContentStrategyVsRecruitment()
    ensures !Contains("Content Strategy", "Recruitment")
  {
    NotContainsMissingChar("Content Strategy", "Recruitment", 0);
  }

  /** "Content Strategy" does not contain "HRIS". */
  lemma ContentStrategyVsHRIS()
    ensures !Contains("Content Strategy", "HRIS")
  {
    NotContainsMissingChar("Content Strategy", "HRIS", 0);
  }

  /** Skill "Content Strategy" does not match the "HR" skill rule. */
  lemma ContentStrategyVsHRRule()
    ensures !SkillMatchesRule("Content Strategy", AnyContaining(["Recruitment", "HRIS"]))
  {
    ContentStrategyVsRecruitment();
    ContentStrategyVsHRIS();
  }

  /** "SEO Specialist" does not contain "Developer". */
  lemma SEOSpecialistVsDeveloper()
    ensures !Contains("SEO Specialist", "Developer")
  {
    NotContainsMissingChar("SEO Specialist", "Developer", 0);
  }

  /** "SEO Specialist" does not contain "Designer". */
  lemma SEOSpecialistVsDesigner()
    ensures !Contains("SEO Specialist", "Designer")
  {
    NotContainsMissingChar("SEO Specialist", "Designer", 0);
  }

  /** "SEO Specialist" contains "SEO". */
  lemma SEOSpecialistVsSEO()
    ensures Contains("SEO Specialist", "SEO")
  {
    ContainsAt("SEO Specialist", "SEO", 0);
  }

  /** "SEO Specialist" does not contain "Marketing". */
  lemma SEOSpecialistVsMarketing()
    ensures !Contains("SEO Specialist", "Marketing")
  {
    NotContainsMissingChar("SEO Specialist", "Marketing", 0);
  }

  /** "SEO Tools" does not contain "Marketing". */
  lemma SEOToolsVsMarketing()
    ensures !Contains("SEO Tools", "Marketing")
  {
    NotContainsMissingChar("SEO Tools", "Marketing", 0);
  }

  /** Skill "SEO Tools" does not match the "Marketing" skill rule. */
  lemma SEOToolsVsMarketingRule()
    ensures !SkillMatchesRule("SEO Tools", AnyContaining(["Marketing"]))
  {
    SEOToolsVsMarketing();
  }

  /** "Google Analytics" does not contain "Marketing". */
  lemma GoogleAnalyticsVsMarketing()
    ensures !Contains("Google Analytics", "Marketing")
  {
    NotContainsMissingChar("Google Analytics", "Marketing", 0);
  }

  /** Skill "Google Analytics" does not match the "Marketing" skill rule. */
  lemma GoogleAnalyticsVsMarketingRule()
    ensures !SkillMatchesRule("Google Analytics", AnyContaining(["Marketing"]))
  {
    GoogleAnalyticsVsMarketing();
  }

  /** "Content Strategy" does not contain "Marketing". */
  lemma ContentStrategyVsMarketing()
    ensures !Contains("Content Strategy", "Marketing")
  {
    NotContainsMissingChar("Content Strategy", "Marketing", 0);
  }

  /** Skill "Content Strategy" does not match the "Marketing" skill rule. */
  lemma ContentStrategyVsMarketingRule()
    ensures !SkillMatchesRule("Content Strategy", AnyContaining(["Marketing"]))
  {
    ContentStrategyVsMarketing();
  }

  /** "SEO Specialist" does not contain "Data Entry". */
  lemma SEOSpecialistVsDataEntry()
    ensures !Contains("SEO Specialist", "Data Entry")
  {
    NotContainsMissingChar("SEO Specialist", "Data Entry", 0);
  }

  /** "SEO Tools" does not contain "Data". */
  lemma SEOToolsVsData()
    ensures !Contains("SEO Tools", "Data")
  {
    NotContainsMissingChar("SEO Tools", "Data", 0);
  }

  /** "SEO Tools" does not contain "Excel". */
  lemma SEOToolsVsExcel()
    ensures !Contains("SEO Tools", "Excel")
  {
    NotContainsMissingChar("SEO Tools", "Excel", 1);
  }

  /** Skill "SEO Tools" does not match the "Data Entry" skill rule. */
  lemma SEOToolsVsDataEntryRule()
    ensures !SkillMatchesRule("SEO Tools", AnyContaining(["Data", "Excel"]))
  {
    SEOToolsVsData();
    SEOToolsVsExcel();
  }

  /** "Google Analytics" does not contain "Data". */
  lemma GoogleAnalyticsVsData()
    ensures !Contains("Google Analytics", "Data")
  {
    NotContainsMissingChar("Google Analytics", "Data", 0);
  }

  /** "Google Analytics" does not contain "Excel". */
  lemma GoogleAnalyticsVsExcel()
    ensures !Contains("Google Analytics", "Excel")
  {
    NotContainsMissingChar("Google Analytics", "Excel", 0);
  }

  /** Skill "Google Analytics" does not match the "Data Entry" skill rule. */
  lemma GoogleAnalyticsVsDataEntryRule()
    ensures !SkillMatchesRule("Google Analytics", AnyContaining(["Data", "Excel"]))
  {
    GoogleAnalyticsVsData();
    GoogleAnalyticsVsExcel();
  }

  /** "Content Strategy" does not contain "Data". */
  lemma ContentStrategyVsData()
    ensures !Contains("Content Strategy", "Data")
  {
    NotContainsMissingChar("Content Strategy", "Data", 0);
  }

  /** "Content Strategy" does not contain "Excel". */
  lemma ContentStrategyVsExcel()
    ensures !Contains("Content Strategy", "Excel")
  {
    NotContainsMissingChar("Content Strategy", "Excel", 0);
  }

  /** Skill "Content Strategy" does not match the "Data Entry" skill rule. */
  lemma ContentStrategyVsDataEntryRule()
    ensures !SkillMatchesRule("Content Strategy", AnyContaining(["Data", "Excel"]))
  {
    ContentStrategyVsData();
    ContentStrategyVsExcel();
  }

  /** Lower-cased, "SEO Specialist" does not contain "react". */
  lemma SEOSpecialistLowerVsReact()
    ensures !Contains(Lower("SEO Specialist"), "react")
  {
    LowerMissingChar("SEO Specialist", 'r', 'R');
    NotContainsMissingChar(Lower("SEO Specialist"), "react", 0);
  }

  /** Lower-cased, "Twitter" does not contain "react". */
  lemma TwitterLowerVsReact()
    ensures !Contains(Lower("Twitter"), "react")
  {
    LowerMissingChar("Twitter", 'a', 'A');
    NotContainsMissingChar(Lower("Twitter"), "react", 2);
  }

  /** Lower-cased, "SEO Tools" does not contain "react". */
  lemma SEOToolsLowerVsReact()
    ensures !Contains(Lower("SEO Tools"), "react")
  {
    LowerMissingChar("SEO Tools", 'r', 'R');
    NotContainsMissingChar(Lower("SEO Tools"), "react", 0);
  }

  /** Lower-cased, "Google Analytics" does not contain "react". */
  lemma GoogleAnalyticsLowerVsReact()
    ensures !Contains(Lower("Google Analytics"), "react")
  {
    LowerMissingChar("Google Analytics", 'r', 'R');
    NotContainsMissingChar(Lower("Google Analytics"), "react", 0);
  }

  /** Lower-cased, "Content Strategy" does not contain "react". */
  lemma ContentStrategyLowerVsReact()
    ensures !Contains(Lower("Content Strategy"), "react")
  {
    assert !SearchFrom(Lower("Content Strategy"), "react", 10);
    assert !SearchFrom(Lower("Content Strategy"), "react", 8);
    assert !SearchFrom(Lower("Content Strategy"), "react", 6);
    assert !SearchFrom(Lower("Content Strategy"), "react", 4);
    assert !SearchFrom(Lower("Content Strategy"), "react", 2);
  }

  /** "Marketing Manager" does not contain "HR". */
  lemma MarketingManagerVsHR()
    ensures !Contains("Marketing Manager", "HR")
  {
    NotContainsMissingChar("Marketing Manager", "HR", 0);
  }

  /** "Digital Marketing" does not contain "Recruitment". */
  lemma DigitalMarketingVsRecruitment()
    ensures !Contains("Digital Marketing", "Recruitment")
  {
    NotContainsMissingChar("Digital Marketing", "Recruitment", 0);
  }

  /** "Digital Marketing" does not contain "HRIS". */
  lemma DigitalMarketingVsHRIS()
    ensures !Contains("Digital Marketing", "HRIS")
  {
    NotContainsMissingChar("Digital Marketing", "HRIS", 0);
  }

  /** Skill "Digital Marketing" does not match the "HR" skill rule. */
  lemma DigitalMarketingVsHRRule()
    ensures !SkillMatchesRule("Digital Marketing", AnyContaining(["Recruitment", "HRIS"]))
  {
    DigitalMarketingVsRecruitment();
    DigitalMarketingVsHRIS();
  }

  /** "Brand Strategy" does not contain "Recruitment". */
  lemma BrandStrategyVsRecruitment()
    ensures !Contains("Brand Strategy", "Recruitment")
  {
    NotContainsMissingChar("Brand Strategy", "Recruitment", 0);
  }

  /** "Brand Strategy" does not contain "HRIS". */
  lemma BrandStrategyVsHRIS()
    ensures !Contains("Brand Strategy", "HRIS")
  {
    NotContainsMissingChar("Brand Strategy", "HRIS", 0);
  }

  /** Skill "Brand Strategy" does not match the "HR" skill rule. */
  lemma BrandStrategyVsHRRule()
    ensures !SkillMatchesRule("Brand Strategy", AnyContaining(["Recruitment", "HRIS"]))
  {
    BrandStrategyVsRecruitment();
    BrandStrategyVsHRIS();
  }

  /** "Analytics" does not contain "Recruitment". */
  lemma AnalyticsVsRecruitment()
    ensures !Contains("Analytics", "Recruitment")
  {
  }

  /** "Analytics" does not contain "HRIS". */
  lemma AnalyticsVsHRIS()
    ensures !Contains("Analytics", "HRIS")
  {
    NotContainsMissingChar("Analytics", "HRIS", 0);
  }

  /** Skill "Analytics" does not match the "HR" skill rule. */
  lemma AnalyticsVsHRRule()
    ensures !SkillMatchesRule("Analytics", AnyContaining(["Recruitment", "HRIS"]))
  {
    AnalyticsVsRecruitment();
    AnalyticsVsHRIS();
  }

  /** "Marketing Manager" does not contain "Developer". */
  lemma MarketingManagerVsDeveloper()
    ensures !Contains("Marketing Manager", "Developer")
  {
    NotContainsMissingChar("Marketing Manager", "Developer", 0);
  }

  /** "Marketing Manager" does not contain "Designer". */
  lemma MarketingManagerVsDesigner()
    ensures !Contains("Marketing Manager", "Designer")
  {
    NotContainsMissingChar("Marketing Manager", "Designer", 0);
  }

  /** "Marketing Manager" does not contain "SEO". */
  lemma MarketingManagerVsSEO()
    ensures !Contains("Marketing Manager", "SEO")
  {
    NotContainsMissingChar("Marketing Manager", "SEO", 0);
  }

  /** "Digital Marketing" does not contain "SEO". */
  lemma DigitalMarketingVsSEO()
    ensures !Contains("Digital Marketing", "SEO")
  {
    NotContainsMissingChar("Digital Marketing", "SEO", 0);
  }

  /** Skill "Digital Marketing" does not match the "SEO" skill rule. */
  lemma DigitalMarketingVsSeoRule()
    ensures !SkillMatchesRule("Digital Marketing", AnyContaining(["SEO"]))
  {
    DigitalMarketingVsSEO();
  }

  /** "Brand Strategy" does not contain "SEO". */
  lemma BrandStrategyVsSEO()
    ensures !Contains("Brand Strategy", "SEO")
  {
    NotContainsMissingChar("Brand Strategy", "SEO", 1);
  }

  /** Skill "Brand Strategy" does not match the "SEO" skill rule. */
  lemma BrandStrategyVsSeoRule()
    ensures !SkillMatchesRule("Brand Strategy", AnyContaining(["SEO"]))
  {
    BrandStrategyVsSEO();
  }

  /** "Analytics" does not contain "SEO". */
  lemma AnalyticsVsSEO()
    ensures !Contains("Analytics", "SEO")
  {
    NotContainsMissingChar("Analytics", "SEO", 0);
  }

  /** Skill "Analytics" does not match the "SEO" skill rule. */
  lemma AnalyticsVsSeoRule()
    ensures !SkillMatchesRule("Analytics", AnyContaining(["SEO"]))
  {
    AnalyticsVsSEO();
  }

  /** "Marketing Manager" contains "Marketing". */
  lemma MarketingManagerVsMarketing()
    ensures Contains("Marketing Manager", "Marketing")
  {
    ContainsAt("Marketing Manager", "Marketing", 0);
  }

  /** "Marketing Manager" does not contain "Data Entry". */
  lemma MarketingManagerVsDataEntry()
    ensures !Contains("Marketing Manager", "Data Entry")
  {
    NotContainsMissingChar("Marketing Manager", "Data Entry", 0);
  }

  /** "Digital Marketing" does not contain "Data". */
  lemma DigitalMarketingVsData()
    ensures !Contains("Digital Marketing", "Data")
  {
    assert !SearchFrom("Digital Marketing", "Data", 12);
    assert !SearchFrom("Digital Marketing", "Data", 6);
  }

  /** "Digital Marketing" does not contain "Excel". */
  lemma DigitalMarketingVsExcel()
    ensures !Contains("Digital Marketing", "Excel")
  {
    NotContainsMissingChar("Digital Marketing", "Excel", 0);
  }

  /** Skill "Digital Marketing" does not match the "Data Entry" skill rule. */
  lemma DigitalMarketingVsDataEntryRule()
    ensures !SkillMatchesRule("Digital Marketing", AnyContaining(["Data", "Excel"]))
  {
    DigitalMarketingVsData();
    DigitalMarketingVsExcel();
  }

  /** "Brand Strategy" does not contain "Data". */
  lemma BrandStrategyVsData()
    ensures !Contains("Brand Strategy", "Data")
  {
    NotContainsMissingChar("Brand Strategy", "Data", 0);
  }

  /** "Brand Strategy" does not contain "Excel". */
  lemma BrandStrategyVsExcel()
    ensures !Contains("Brand Strategy", "Excel")
  {
    NotContainsMissingChar("Brand Strategy", "Excel", 0);
  }

  /** Skill "Brand Strategy" does not match the "Data Entry" skill rule. */
  lemma BrandStrategyVsDataEntryRule()
    ensures !SkillMatchesRule("Brand Strategy", AnyContaining(["Data", "Excel"]))
  {
    BrandStrategyVsData();
    BrandStrategyVsExcel();
  }

  /** "Analytics" does not contain "Data". */
  lemma AnalyticsVsData()
    ensures !Contains("Analytics", "Data")
  {
    NotContainsMissingChar("Analytics", "Data", 0);
  }

  /** "Analytics" does not contain "Excel". */
  lemma AnalyticsVsExcel()
    ensures !Contains("Analytics", "Excel")
  {
    NotContainsMissingChar("Analytics", "Excel", 0);
  }

  /** Skill "Analytics" does not match the "Data Entry" skill rule. */
  lemma AnalyticsVsDataEntryRule()
    ensures !SkillMatchesRule("Analytics", AnyContaining(["Data", "Excel"]))
  {
    AnalyticsVsData();
    AnalyticsVsExcel();
  }

  /** Lower-cased, "Marketing Manager" does not contain "react". */
  lemma MarketingManagerLowerVsReact()
    ensures !Contains(Lower("Marketing Manager"), "react")
  {
    LowerMissingChar("Marketing Manager", 'c', 'C');
    NotContainsMissingChar(Lower("Marketing Manager"), "react", 3);
  }

  /** Lower-cased, "Adobe" does not contain "react". */
  lemma AdobeLowerVsReact()
    ensures !Contains(Lower("Adobe"), "react")
  {
    LowerMissingChar("Adobe", 'r', 'R');
    NotContainsMissingChar(Lower("Adobe"), "react", 0);
  }

  /** Lower-cased, "Digital Marketing" does not contain "react". */
  lemma DigitalMarketingLowerVsReact()
    ensures !Contains(Lower("Digital Marketing"), "react")
  {
    LowerMissingChar("Digital Marketing", 'c', 'C');
    NotContainsMissingChar(Lower("Digital Marketing"), "react", 3);
  }

  /** Lower-cased, "Brand Strategy" does not contain "react". */
  lemma BrandStrategyLowerVsReact()
    ensures !Contains(Lower("Brand Strategy"), "react")
  {
    LowerMissingChar("Brand Strategy", 'c', 'C');
    NotContainsMissingChar(Lower("Brand Strategy"), "react", 3);
  }

  /** Lower-cased, "Analytics" does not contain "react". */
  lemma AnalyticsLowerVsReact()
    ensures !Contains(Lower("Analytics"), "react")
  {
    LowerMissingChar("Analytics", 'r', 'R');
    NotContainsMissingChar(Lower("Analytics"), "react", 0);
  }

  /** "Data Entry Specialist" does not contain "HR". */
  lemma DataEntrySpecialistVsHR()
    ensures !Contains("Data Entry Specialist", "HR")
  {
    NotContainsMissingChar("Data Entry Specialist", "HR", 0);
  }

  /** "Data Management" does not contain "Recruitment". */
  lemma DataManagementVsRecruitment()
    ensures !Contains("Data Management", "Recruitment")
  {
    NotContainsMissingChar("Data Management", "Recruitment", 0);
  }

  /** "Data Management" does not contain "HRIS". */
  lemma DataManagementVsHRIS()
    ensures !Contains("Data Management", "HRIS")
  {
    NotContainsMissingChar("Data Management", "HRIS", 0);
  }

  /** Skill "Data Management" does not match the "HR" skill rule. */
  lemma DataManagementVsHRRule()
    ensures !SkillMatchesRule("Data Management", AnyContaining(["Recruitment", "HRIS"]))
  {
    DataManagementVsRecruitment();
    DataManagementVsHRIS();
  }

  /** "Typing" does not contain "Recruitment". */
  lemma TypingVsRecruitment()
    ensures !Contains("Typing", "Recruitment")
  {
  }

  /** "Typing" does not contain "HRIS". */
  lemma TypingVsHRIS()
    ensures !Contains("Typing", "HRIS")
  {
    NotContainsMissingChar("Typing", "HRIS", 0);
  }

  /** Skill "Typing" does not match the "HR" skill rule. */
  lemma TypingVsHRRule()
    ensures !SkillMatchesRule("Typing", AnyContaining(["Recruitment", "HRIS"]))
  {
    TypingVsRecruitment();
    TypingVsHRIS();
  }

  /** "Data Entry Specialist" does not contain "Developer". */
  lemma DataEntrySpecialistVsDeveloper()
    ensures !Contains("Data Entry Specialist", "Developer")
  {
    NotContainsMissingChar("Data Entry Specialist", "Developer", 2);
  }

  /** "Data Entry Specialist" does not contain "Designer". */
  lemma DataEntrySpecialistVsDesigner()
    ensures !Contains("Data Entry Specialist", "Designer")
  {
    NotContainsMissingChar("Data Entry Specialist", "Designer", 4);
  }

  /** "Data Entry Specialist" does not contain "SEO". */
  lemma DataEntrySpecialistVsSEO()
    ensures !Contains("Data Entry Specialist", "SEO")
  {
    NotContainsMissingChar("Data Entry Specialist", "SEO", 2);
  }

  /** "Data Management" does not contain "SEO". */
  lemma DataManagementVsSEO()
    ensures !Contains("Data Management", "SEO")
  {
    NotContainsMissingChar("Data Management", "SEO", 0);
  }

  /** Skill "Data Management" does not match the "SEO" skill rule. */
  lemma DataManagementVsSeoRule()
    ensures !SkillMatchesRule("Data Management", AnyContaining(["SEO"]))
  {
    DataManagementVsSEO();
  }

  /** "Typing" does not contain "SEO". */
  lemma TypingVsSEO()
    ensures !Contains("Typing", "SEO")
  {
    NotContainsMissingChar("Typing", "SEO", 0);
  }

  /** Skill "Typing" does not match the "SEO" skill rule. */
  lemma TypingVsSeoRule()
    ensures !SkillMatchesRule("Typing", AnyContaining(["SEO"]))
  {
    TypingVsSEO();
  }

  /** "Data Entry Specialist" does not contain "Marketing". */
  lemma DataEntrySpecialistVsMarketing()
    ensures !Contains("Data Entry Specialist", "Marketing")
  {
    NotContainsMissingChar("Data Entry Specialist", "Marketing", 0);
  }

  /** "Data Management" does not contain "Marketing". */
  lemma DataManagementVsMarketing()
    ensures !Contains("Data Management", "Marketing")
  {
    NotContainsMissingChar("Data Management", "Marketing", 2);
  }

  /** Skill "Data Management" does not match the "Marketing" skill rule. */
  lemma DataManagementVsMarketingRule()
    ensures !SkillMatchesRule("Data Management", AnyContaining(["Marketing"]))
  {
    DataManagementVsMarketing();
  }

  /** "Typing" does not contain "Marketing". */
  lemma TypingVsMarketing()
    ensures !Contains("Typing", "Marketing")
  {
  }

  /** Skill "Typing" does not match the "Marketing" skill rule. */
  lemma TypingVsMarketingRule()
    ensures !SkillMatchesRule("Typing", AnyContaining(["Marketing"]))
  {
    TypingVsMarketing();
  }

  /** "Data Entry Specialist" contains "Data Entry". */
  lemma DataEntrySpecialistVsDataEntry()
    ensures Contains("Data Entry Specialist", "Data Entry")
  {
    ContainsAt("Data Entry Specialist", "Data Entry", 0);
  }

  /** Lower-cased, "Data Entry Specialist" does not contain "react". */
  lemma DataEntrySpecialistLowerVsReact()
    ensures !Contains(Lower("Data Entry Specialist"), "react")
  {
    assert !SearchFrom(Lower("Data Entry Specialist"), "react", 16);
    assert !SearchFrom(Lower("Data Entry Specialist"), "react", 14);
    assert !SearchFrom(Lower("Data Entry Specialist"), "react", 12);
    assert !SearchFrom(Lower("Data Entry Specialist"), "react", 10);
    assert !SearchFrom(Lower("Data Entry Specialist"), "react", 8);
    assert !SearchFrom(Lower("Data Entry Specialist"), "react", 6);
    assert !SearchFrom(Lower("Data Entry Specialist"), "react", 4);
    assert !SearchFrom(Lower("Data Entry Specialist"), "react", 2);
  }

  /** Lower-cased, "Oracle" does not contain "react". */
  lemma OracleLowerVsReact()
    ensures !Contains(Lower("Oracle"), "react")
  {
    LowerMissingChar("Oracle", 't', 'T');
    NotContainsMissingChar(Lower("Oracle"), "react", 4);
  }

  /** Lower-cased, "Data Management" does not contain "react". */
  lemma DataManagementLowerVsReact()
    ensures !Contains(Lower("Data Management"), "react")
  {
    LowerMissingChar("Data Management", 'r', 'R');
    NotContainsMissingChar(Lower("Data Management"), "react", 0);
  }

  /** Lower-cased, "Typing" does not contain "react". */
  lemma TypingLowerVsReact()
    ensures !Contains(Lower("Typing"), "react")
  {
    LowerMissingChar("Typing", 'r', 'R');
    NotContainsMissingChar(Lower("Typing"), "react", 0);
  }

  /** "DevOps Engineer" does not contain "HR". */
  lemma DevOpsEngineerVsHR()
    ensures !Contains("DevOps Engineer", "HR")
  {
    NotContainsMissingChar("DevOps Engineer", "HR", 0);
  }

  /** "Docker" does not contain "Recruitment". */
  lemma DockerVsRecruitment()
    ensures !Contains("Docker", "Recruitment")
  {
  }

  /** "Docker" does not contain "HRIS". */
  lemma DockerVsHRIS()
    ensures !Contains("Docker", "HRIS")
  {
    NotContainsMissingChar("Docker", "HRIS", 0);
  }

  /** Skill "Docker" does not match the "HR" skill rule. */
  lemma DockerVsHRRule()
    ensures !SkillMatchesRule("Docker", AnyContaining(["Recruitment", "HRIS"]))
  {
    DockerVsRecruitment();
    DockerVsHRIS();
  }

  /** "Kubernetes" does not contain "Recruitment". */
  lemma KubernetesVsRecruitment()
    ensures !Contains("Kubernetes", "Recruitment")
  {
  }

  /** "Kubernetes" does not contain "HRIS". */
  lemma KubernetesVsHRIS()
    ensures !Contains("Kubernetes", "HRIS")
  {
    NotContainsMissingChar("Kubernetes", "HRIS", 0);
  }

  /** Skill "Kubernetes" does not match the "HR" skill rule. */
  lemma KubernetesVsHRRule()
    ensures !SkillMatchesRule("Kubernetes", AnyContaining(["Recruitment", "HRIS"]))
  {
    KubernetesVsRecruitment();
    KubernetesVsHRIS();
  }

  /** "CI/CD" does not contain "Recruitment". */
  lemma CICDVsRecruitment()
    ensures !Contains("CI/CD", "Recruitment")
  {
  }

  /** "CI/CD" does not contain "HRIS". */
  lemma CICDVsHRIS()
    ensures !Contains("CI/CD", "HRIS")
  {
    NotContainsMissingChar("CI/CD", "HRIS", 0);
  }

  /** Skill "CI/CD" does not match the "HR" skill rule. */
  lemma CICDVsHRRule()
    ensures !SkillMatchesRule("CI/CD", AnyContaining(["Recruitment", "HRIS"]))
  {
    CICDVsRecruitment();
    CICDVsHRIS();
  }

  /** "DevOps Engineer" does not contain "Developer". */
  lemma DevOpsEngineerVsDeveloper()
    ensures !Contains("DevOps Engineer", "Developer")
  {
    NotContainsMissingChar("DevOps Engineer", "Developer", 4);
  }

  /** "DevOps Engineer" does not contain "Designer". */
  lemma DevOpsEngineerVsDesigner()
    ensures !Contains("DevOps Engineer", "Designer")
  {
    assert !SearchFrom("DevOps Engineer", "Designer", 6);
  }

  /** "DevOps Engineer" does not contain "SEO". */
  lemma DevOpsEngineerVsSEO()
    ensures !Contains("DevOps Engineer", "SEO")
  {
    NotContainsMissingChar("DevOps Engineer", "SEO", 0);
  }

  /** "Docker" does not contain "SEO". */
  lemma DockerVsSEO()
    ensures !Contains("Docker", "SEO")
  {
    NotContainsMissingChar("Docker", "SEO", 0);
  }

  /** Skill "Docker" does not match the "SEO" skill rule. */
  lemma DockerVsSeoRule()
    ensures !SkillMatchesRule("Docker", AnyContaining(["SEO"]))
  {
    DockerVsSEO();
  }

  /** "Kubernetes" does not contain "SEO". */
  lemma KubernetesVsSEO()
    ensures !Contains("Kubernetes", "SEO")
  {
    NotContainsMissingChar("Kubernetes", "SEO", 0);
  }

  /** Skill "Kubernetes" does not match the "SEO" skill rule. */
  lemma KubernetesVsSeoRule()
    ensures !SkillMatchesRule("Kubernetes", AnyContaining(["SEO"]))
  {
    KubernetesVsSEO();
  }

  /** "CI/CD" does not contain "SEO". */
  lemma CICDVsSEO()
    ensures !Contains("CI/CD", "SEO")
  {
    NotContainsMissingChar("CI/CD", "SEO", 0);
  }

  /** Skill "CI/CD" does not match the "SEO" skill rule. */
  lemma CICDVsSeoRule()
    ensures !SkillMatchesRule("CI/CD", AnyContaining(["SEO"]))
  {
    CICDVsSEO();
  }

  /** "DevOps Engineer" does not contain "Marketing". */
  lemma DevOpsEngineerVsMarketing()
    ensures !Contains("DevOps Engineer", "Marketing")
  {
    NotContainsMissingChar("DevOps Engineer", "Marketing", 0);
  }

  /** "Docker" does not contain "Marketing". */
  lemma DockerVsMarketing()
    ensures !Contains("Docker", "Marketing")
  {
  }

  /** Skill "Docker" does not match the "Marketing" skill rule. */
  lemma DockerVsMarketingRule()
    ensures !SkillMatchesRule("Docker", AnyContaining(["Marketing"]))
  {
    DockerVsMarketing();
  }

  /** "Kubernetes" does not contain "Marketing". */
  lemma KubernetesVsMarketing()
    ensures !Contains("Kubernetes", "Marketing")
  {
    NotContainsMissingChar("Kubernetes", "Marketing", 0);
  }

  /** Skill "Kubernetes" does not match the "Marketing" skill rule. */
  lemma KubernetesVsMarketingRule()
    ensures !SkillMatchesRule("Kubernetes", AnyContaining(["Marketing"]))
  {
    KubernetesVsMarketing();
  }

  /** "CI/CD" does not contain "Marketing". */
  lemma CICDVsMarketing()
    ensures !Contains("CI/CD", "Marketing")
  {
  }

  /** Skill "CI/CD" does not match the "Marketing" skill rule. */
  lemma CICDVsMarketingRule()
    ensures !SkillMatchesRule("CI/CD", AnyContaining(["Marketing"]))
  {
    CICDVsMarketing();
  }

  /** "DevOps Engineer" does not contain "Data Entry". */
  lemma DevOpsEngineerVsDataEntry()
    ensures !Contains("DevOps Engineer", "Data Entry")
  {
    NotContainsMissingChar("DevOps Engineer", "Data Entry", 1);
  }

  /** "Docker" does not contain "Data". */
  lemma DockerVsData()
    ensures !Contains("Docker", "Data")
  {
    NotContainsMissingChar("Docker", "Data", 1);
  }

  /** "Docker" does not contain "Excel". */
  lemma DockerVsExcel()
    ensures !Contains("Docker", "Excel")
  {
    NotContainsMissingChar("Docker", "Excel", 0);
  }

  /** Skill "Docker" does not match the "Data Entry" skill rule. */
  lemma DockerVsDataEntryRule()
    ensures !SkillMatchesRule("Docker", AnyContaining(["Data", "Excel"]))
  {
    DockerVsData();
    DockerVsExcel();
  }

  /** "Kubernetes" does not contain "Data". */
  lemma KubernetesVsData()
    ensures !Contains("Kubernetes", "Data")
  {
    NotContainsMissingChar("Kubernetes", "Data", 0);
  }

  /** "Kubernetes" does not contain "Excel". */
  lemma KubernetesVsExcel()
    ensures !Contains("Kubernetes", "Excel")
  {
    NotContainsMissingChar("Kubernetes", "Excel", 0);
  }

  /** Skill "Kubernetes" does not match the "Data Entry" skill rule. */
  lemma KubernetesVsDataEntryRule()
    ensures !SkillMatchesRule("Kubernetes", AnyContaining(["Data", "Excel"]))
  {
    KubernetesVsData();
    KubernetesVsExcel();
  }

  /** "CI/CD" does not contain "Data". */
  lemma CICDVsData()
    ensures !Contains("CI/CD", "Data")
  {
    NotContainsMissingChar("CI/CD", "Data", 1);
  }

  /** "CI/CD" does not contain "Excel". */
  lemma CICDVsExcel()
    ensures !Contains("CI/CD", "Excel")
  {
    NotContainsMissingChar("CI/CD", "Excel", 0);
  }

  /** Skill "CI/CD" does not match the "Data Entry" skill rule. */
  lemma CICDVsDataEntryRule()
    ensures !SkillMatchesRule("CI/CD", AnyContaining(["Data", "Excel"]))
  {
    CICDVsData();
    CICDVsExcel();
  }

  /** Lower-cased, "DevOps Engineer" does not contain "react". */
  lemma DevOpsEngineerLowerVsReact()
    ensures !Contains(Lower("DevOps Engineer"), "react")
  {
    LowerMissingChar("DevOps Engineer", 'a', 'A');
    NotContainsMissingChar(Lower("DevOps Engineer"), "react", 2);
  }

  /** Lower-cased, "IBM" does not contain "react". */
  lemma IBMLowerVsReact()
    ensures !Contains(Lower("IBM"), "react")
  {
  }

  /** Lower-cased, "Docker" does not contain "react". */
  lemma DockerLowerVsReact()
    ensures !Contains(Lower("Docker"), "react")
  {
    LowerMissingChar("Docker", 'a', 'A');
    NotContainsMissingChar(Lower("Docker"), "react", 2);
  }

  /** Lower-cased, "Kubernetes" does not contain "react". */
  lemma KubernetesLowerVsReact()
    ensures !Contains(Lower("Kubernetes"), "react")
  {
    LowerMissingChar("Kubernetes", 'a', 'A');
    NotContainsMissingChar(Lower("Kubernetes"), "react", 2);
  }

  /** Lower-cased, "CI/CD" does not contain "react". */
  lemma CICDLowerVsReact()
    ensures !Contains(Lower("CI/CD"), "react")
  {
    LowerMissingChar("CI/CD", 'r', 'R');
    NotContainsMissingChar(Lower("CI/CD"), "react", 0);
  }

  /** "Content Writer" does not contain "HR". */
  lemma ContentWriterVsHR()
    ensures !Contains("Content Writer", "HR")
  {
    NotContainsMissingChar("Content Writer", "HR", 0);
  }

  /** "Copywriting" does not contain "Recruitment". */
  lemma CopywritingVsRecruitment()
    ensures !Contains("Copywriting", "Recruitment")
  {
    NotContainsMissingChar("Copywriting", "Recruitment", 0);
  }

  /** "Copywriting" does not contain "HRIS". */
  lemma CopywritingVsHRIS()
    ensures !Contains("Copywriting", "HRIS")
  {
    NotContainsMissingChar("Copywriting", "HRIS", 0);
  }

  /** Skill "Copywriting" does not match the "HR" skill rule. */
  lemma CopywritingVsHRRule()
    ensures !SkillMatchesRule("Copywriting", AnyContaining(["Recruitment", "HRIS"]))
  {
    CopywritingVsRecruitment();
    CopywritingVsHRIS();
  }

  /** "Editing" does not contain "Recruitment". */
  lemma EditingVsRecruitment()
    ensures !Contains("Editing", "Recruitment")
  {
  }

  /** "Editing" does not contain "HRIS". */
  lemma EditingVsHRIS()
    ensures !Contains("Editing", "HRIS")
  {
    NotContainsMissingChar("Editing", "HRIS", 0);
  }

  /** Skill "Editing" does not match the "HR" skill rule. */
  lemma EditingVsHRRule()
    ensures !SkillMatchesRule("Editing", AnyContaining(["Recruitment", "HRIS"]))
  {
    EditingVsRecruitment();
    EditingVsHRIS();
  }

  /** "SEO Writing" does not contain "Recruitment". */
  lemma SEOWritingVsRecruitment()
    ensures !Contains("SEO Writing", "Recruitment")
  {
    NotContainsMissingChar("SEO Writing", "Recruitment", 0);
  }

  /** "SEO Writing" does not contain "HRIS". */
  lemma SEOWritingVsHRIS()
    ensures !Contains("SEO Writing", "HRIS")
  {
    NotContainsMissingChar("SEO Writing", "HRIS", 0);
  }

  /** Skill "SEO Writing" does not match the "HR" skill rule. */
  lemma SEOWritingVsHRRule()
    ensures !SkillMatchesRule("SEO Writing", AnyContaining(["Recruitment", "HRIS"]))
  {
    SEOWritingVsRecruitment();
    SEOWritingVsHRIS();
  }

  /** "Content Writer" does not contain "Developer". */
  lemma ContentWriterVsDeveloper()
    ensures !Contains("Content Writer", "Developer")
  {
    NotContainsMissingChar("Content Writer", "Developer", 0);
  }

  /** "Content Writer" does not contain "Designer". */
  lemma ContentWriterVsDesigner()
    ensures !Contains("Content Writer", "Designer")
  {
    NotContainsMissingChar("Content Writer", "Designer", 0);
  }

  /** "Content Writer" does not contain "SEO". */
  lemma ContentWriterVsSEO()
    ensures !Contains("Content Writer", "SEO")
  {
    NotContainsMissingChar("Content Writer", "SEO", 0);
  }

  /** "Copywriting" does not contain "SEO". */
  lemma CopywritingVsSEO()
    ensures !Contains("Copywriting", "SEO")
  {
    NotContainsMissingChar("Copywriting", "SEO", 0);
  }

  /** Skill "Copywriting" does not match the "SEO" skill rule. */
  lemma CopywritingVsSeoRule()
    ensures !SkillMatchesRule("Copywriting", AnyContaining(["SEO"]))
  {
    CopywritingVsSEO();
  }

  /** "Editing" does not contain "SEO". */
  lemma EditingVsSEO()
    ensures !Contains("Editing", "SEO")
  {
    NotContainsMissingChar("Editing", "SEO", 0);
  }

  /** Skill "Editing" does not match the "SEO" skill rule. */
  lemma EditingVsSeoRule()
    ensures !SkillMatchesRule("Editing", AnyContaining(["SEO"]))
  {
    EditingVsSEO();
  }

  /** "SEO Writing" contains "SEO". */
  lemma SEOWritingVsSEO()
    ensures Contains("SEO Writing", "SEO")
  {
    ContainsAt("SEO Writing", "SEO", 0);
  }

  /** Skill "SEO Writing" matches the "SEO" skill rule. */
  lemma SEOWritingVsSeoRule()
    ensures SkillMatchesRule("SEO Writing", AnyContaining(["SEO"]))
  {
    SEOWritingVsSEO();
    assert "SEO" in ["SEO"];
  }

  /** "Content Writer" does not contain "Marketing". */
  lemma ContentWriterVsMarketing()
    ensures !Contains("Content Writer", "Marketing")
  {
    NotContainsMissingChar("Content Writer", "Marketing", 0);
  }

  /** "Copywriting" does not contain "Marketing". */
  lemma CopywritingVsMarketing()
    ensures !Contains("Copywriting", "Marketing")
  {
    NotContainsMissingChar("Copywriting", "Marketing", 0);
  }

  /** Skill "Copywriting" does not match the "Marketing" skill rule. */
  lemma CopywritingVsMarketingRule()
    ensures !SkillMatchesRule("Copywriting", AnyContaining(["Marketing"]))
  {
    CopywritingVsMarketing();
  }

  /** "Editing" does not contain "Marketing". */
  lemma EditingVsMarketing()
    ensures !Contains("Editing", "Marketing")
  {
  }

  /** Skill "Editing" does not match the "Marketing" skill rule. */
  lemma EditingVsMarketingRule()
    ensures !SkillMatchesRule("Editing", AnyContaining(["Marketing"]))
  {
    EditingVsMarketing();
  }

  /** "SEO Writing" does not contain "Marketing". */
  lemma SEOWritingVsMarketing()
    ensures !Contains("SEO Writing", "Marketing")
  {
    NotContainsMissingChar("SEO Writing", "Marketing", 0);
  }

  /** Skill "SEO Writing" does not match the "Marketing" skill rule. */
  lemma SEOWritingVsMarketingRule()
    ensures !SkillMatchesRule("SEO Writing", AnyContaining(["Marketing"]))
  {
    SEOWritingVsMarketing();
  }

  /** "Content Writer" does not contain "Data Entry". */
  lemma ContentWriterVsDataEntry()
    ensures !Contains("Content Writer", "Data Entry")
  {
    NotContainsMissingChar("Content Writer", "Data Entry", 0);
  }

  /** "Copywriting" does not contain "Data". */
  lemma CopywritingVsData()
    ensures !Contains("Copywriting", "Data")
  {
    NotContainsMissingChar("Copywriting", "Data", 0);
  }

  /** "Copywriting" does not contain "Excel". */
  lemma CopywritingVsExcel()
    ensures !Contains("Copywriting", "Excel")
  {
    NotContainsMissingChar("Copywriting", "Excel", 0);
  }

  /** Skill "Copywriting" does not match the "Data Entry" skill rule. */
  lemma CopywritingVsDataEntryRule()
    ensures !SkillMatchesRule("Copywriting", AnyContaining(["Data", "Excel"]))
  {
    CopywritingVsData();
    CopywritingVsExcel();
  }

  /** "Editing" does not contain "Data". */
  lemma EditingVsData()
    ensures !Contains("Editing", "Data")
  {
    NotContainsMissingChar("Editing", "Data", 0);
  }

  /** "Editing" does not contain "Excel". */
  lemma EditingVsExcel()
    ensures !Contains("Editing", "Excel")
  {
    NotContainsMissingChar("Editing", "Excel", 1);
  }

  /** Skill "Editing" does not match the "Data Entry" skill rule. */
  lemma EditingVsDataEntryRule()
    ensures !SkillMatchesRule("Editing", AnyContaining(["Data", "Excel"]))
  {
    EditingVsData();
    EditingVsExcel();
  }

  /** "SEO Writing" does not contain "Data". */
  lemma SEOWritingVsData()
    ensures !Contains("SEO Writing", "Data")
  {
    NotContainsMissingChar("SEO Writing", "Data", 0);
  }

  /** "SEO Writing" does not contain "Excel". */
  lemma SEOWritingVsExcel()
    ensures !Contains("SEO Writing", "Excel")
  {
    NotContainsMissingChar("SEO Writing", "Excel", 1);
  }

  /** Skill "SEO Writing" does not match the "Data Entry" skill rule. */
  lemma SEOWritingVsDataEntryRule()
    ensures !SkillMatchesRule("SEO Writing", AnyContaining(["Data", "Excel"]))
  {
    SEOWritingVsData();
    SEOWritingVsExcel();
  }

  /** Lower-cased, "Content Writer" does not contain "react". */
  lemma ContentWriterLowerVsReact()
    ensures !Contains(Lower("Content Writer"), "react")
  {
    LowerMissingChar("Content Writer", 'a', 'A');
    NotContainsMissingChar(Lower("Content Writer"), "react", 2);
  }

  /** Lower-cased, "LinkedIn" does not contain "react". */
  lemma LinkedInLowerVsReact()
    ensures !Contains(Lower("LinkedIn"), "react")
  {
    LowerMissingChar("LinkedIn", 'r', 'R');
    NotContainsMissingChar(Lower("LinkedIn"), "react", 0);
  }

  /** Lower-cased, "Copywriting" does not contain "react". */
  lemma CopywritingLowerVsReact()
    ensures !Contains(Lower("Copywriting"), "react")
  {
    LowerMissingChar("Copywriting", 'e', 'E');
    NotContainsMissingChar(Lower("Copywriting"), "react", 1);
  }

  /** Lower-cased, "Editing" does not contain "react". */
  lemma EditingLowerVsReact()
    ensures !Contains(Lower("Editing"), "react")
  {
    LowerMissingChar("Editing", 'r', 'R');
    NotContainsMissingChar(Lower("Editing"), "react", 0);
  }

  /** Lower-cased, "SEO Writing" does not contain "react". */
  lemma SEOWritingLowerVsReact()
    ensures !Contains(Lower("SEO Writing"), "react")
  {
    LowerMissingChar("SEO Writing", 'a', 'A');
    NotContainsMissingChar(Lower("SEO Writing"), "react", 2);
  }

  /** "Graphic Designer" does not contain "HR". */
  lemma GraphicDesignerVsHR()
    ensures !Contains("Graphic Designer", "HR")
  {
    NotContainsMissingChar("Graphic Designer", "HR", 0);
  }

  /** "Photoshop" does not contain "Recruitment". */
  lemma PhotoshopVsRecruitment()
    ensures !Contains("Photoshop", "Recruitment")
  {
  }

  /** "Photoshop" does not contain "HRIS". */
  lemma PhotoshopVsHRIS()
    ensures !Contains("Photoshop", "HRIS")
  {
    NotContainsMissingChar("Photoshop", "HRIS", 0);
  }

  /** Skill "Photoshop" does not match the "HR" skill rule. */
  lemma PhotoshopVsHRRule()
    ensures !SkillMatchesRule("Photoshop", AnyContaining(["Recruitment", "HRIS"]))
  {
    PhotoshopVsRecruitment();
    PhotoshopVsHRIS();
  }

  /** "Illustrator" does not contain "Recruitment". */
  lemma IllustratorVsRecruitment()
    ensures !Contains("Illustrator", "Recruitment")
  {
    NotContainsMissingChar("Illustrator", "Recruitment", 0);
  }

  /** "Illustrator" does not contain "HRIS". */
  lemma IllustratorVsHRIS()
    ensures !Contains("Illustrator", "HRIS")
  {
    NotContainsMissingChar("Illustrator", "HRIS", 0);
  }

  /** Skill "Illustrator" does not match the "HR" skill rule. */
  lemma IllustratorVsHRRule()
    ensures !SkillMatchesRule("Illustrator", AnyContaining(["Recruitment", "HRIS"]))
  {
    IllustratorVsRecruitment();
    IllustratorVsHRIS();
  }

  /** "InDesign" does not contain "Recruitment". */
  lemma InDesignVsRecruitment()
    ensures !Contains("InDesign", "Recruitment")
  {
  }

  /** "InDesign" does not contain "HRIS". */
  lemma InDesignVsHRIS()
    ensures !Contains("InDesign", "HRIS")
  {
    NotContainsMissingChar("InDesign", "HRIS", 0);
  }

  /** Skill "InDesign" does not match the "HR" skill rule. */
  lemma InDesignVsHRRule()
    ensures !SkillMatchesRule("InDesign", AnyContaining(["Recruitment", "HRIS"]))
  {
    InDesignVsRecruitment();
    InDesignVsHRIS();
  }

  /** "Graphic Designer" does not contain "Developer". */
  lemma GraphicDesignerVsDeveloper()
    ensures !Contains("Graphic Designer", "Developer")
  {
    NotContainsMissingChar("Graphic Designer", "Developer", 2);
  }

  /** "Graphic Designer" contains "Designer". */
  lemma GraphicDesignerVsDesigner()
    ensures Contains("Graphic Designer", "Designer")
  {
    ContainsAt("Graphic Designer", "Designer", 8);
  }

  /** "Graphic Designer" does not contain "SEO". */
  lemma GraphicDesignerVsSEO()
    ensures !Contains("Graphic Designer", "SEO")
  {
    NotContainsMissingChar("Graphic Designer", "SEO", 0);
  }

  /** "Photoshop" does not contain "SEO". */
  lemma PhotoshopVsSEO()
    ensures !Contains("Photoshop", "SEO")
  {
    NotContainsMissingChar("Photoshop", "SEO", 0);
  }

  /** Skill "Photoshop" does not match the "SEO" skill rule. */
  lemma PhotoshopVsSeoRule()
    ensures !SkillMatchesRule("Photoshop", AnyContaining(["SEO"]))
  {
    PhotoshopVsSEO();
  }

  /** "Illustrator" does not contain "SEO". */
  lemma IllustratorVsSEO()
    ensures !Contains("Illustrator", "SEO")
  {
    NotContainsMissingChar("Illustrator", "SEO", 0);
  }

  /** Skill "Illustrator" does not match the "SEO" skill rule. */
  lemma IllustratorVsSeoRule()
    ensures !SkillMatchesRule("Illustrator", AnyContaining(["SEO"]))
  {
    IllustratorVsSEO();
  }

  /** "InDesign" does not contain "SEO". */
  lemma InDesignVsSEO()
    ensures !Contains("InDesign", "SEO")
  {
    NotContainsMissingChar("InDesign", "SEO", 0);
  }

  /** Skill "InDesign" does not match the "SEO" skill rule. */
  lemma InDesignVsSeoRule()
    ensures !SkillMatchesRule("InDesign", AnyContaining(["SEO"]))
  {
    InDesignVsSEO();
  }

  /** "Graphic Designer" does not contain "Marketing". */
  lemma GraphicDesignerVsMarketing()
    ensures !Contains("Graphic Designer", "Marketing")
  {
    NotContainsMissingChar("Graphic Designer", "Marketing", 0);
  }

  /** "Photoshop" does not contain "Marketing". */
  lemma PhotoshopVsMarketing()
    ensures !Contains("Photoshop", "Marketing")
  {
    NotContainsMissingChar("Photoshop", "Marketing", 0);
  }

  /** Skill "Photoshop" does not match the "Marketing" skill rule. */
  lemma PhotoshopVsMarketingRule()
    ensures !SkillMatchesRule("Photoshop", AnyContaining(["Marketing"]))
  {
    PhotoshopVsMarketing();
  }

  /** "Illustrator" does not contain "Marketing". */
  lemma IllustratorVsMarketing()
    ensures !Contains("Illustrator", "Marketing")
  {
    NotContainsMissingChar("Illustrator", "Marketing", 0);
  }

  /** Skill "Illustrator" does not match the "Marketing" skill rule. */
  lemma IllustratorVsMarketingRule()
    ensures !SkillMatchesRule("Illustrator", AnyContaining(["Marketing"]))
  {
    IllustratorVsMarketing();
  }

  /** "InDesign" does not contain "Marketing". */
  lemma InDesignVsMarketing()
    ensures !Contains("InDesign", "Marketing")
  {
  }

  /** Skill "InDesign" does not match the "Marketing" skill rule. */
  lemma InDesignVsMarketingRule()
    ensures !SkillMatchesRule("InDesign", AnyContaining(["Marketing"]))
  {
    InDesignVsMarketing();
  }

  /** "Graphic Designer" does not contain "Data Entry". */
  lemma GraphicDesignerVsDataEntry()
    ensures !Contains("Graphic Designer", "Data Entry")
  {
    NotContainsMissingChar("Graphic Designer", "Data Entry", 2);
  }

  /** "Photoshop" does not contain "Data". */
  lemma PhotoshopVsData()
    ensures !Contains("Photoshop", "Data")
  {
    NotContainsMissingChar("Photoshop", "Data", 0);
  }

  /** "Photoshop" does not contain "Excel". */
  lemma PhotoshopVsExcel()
    ensures !Contains("Photoshop", "Excel")
  {
    NotContainsMissingChar("Photoshop", "Excel", 0);
  }

  /** Skill "Photoshop" does not match the "Data Entry" skill rule. */
  lemma PhotoshopVsDataEntryRule()
    ensures !SkillMatchesRule("Photoshop", AnyContaining(["Data", "Excel"]))
  {
    PhotoshopVsData();
    PhotoshopVsExcel();
  }

  /** "Illustrator" does not contain "Data". */
  lemma IllustratorVsData()
    ensures !Contains("Illustrator", "Data")
  {
    NotContainsMissingChar("Illustrator", "Data", 0);
  }

  /** "Illustrator" does not contain "Excel". */
  lemma IllustratorVsExcel()
    ensures !Contains("Illustrator", "Excel")
  {
    NotContainsMissingChar("Illustrator", "Excel", 0);
  }

  /** Skill "Illustrator" does not match the "Data Entry" skill rule. */
  lemma IllustratorVsDataEntryRule()
    ensures !SkillMatchesRule("Illustrator", AnyContaining(["Data", "Excel"]))
  {
    IllustratorVsData();
    IllustratorVsExcel();
  }

  /** "InDesign" does not contain "Data". */
  lemma InDesignVsData()
    ensures !Contains("InDesign", "Data")
  {
    NotContainsMissingChar("InDesign", "Data", 1);
  }

  /** "InDesign" does not contain "Excel". */
  lemma InDesignVsExcel()
    ensures !Contains("InDesign", "Excel")
  {
    NotContainsMissingChar("InDesign", "Excel", 0);
  }

  /** Skill "InDesign" does not match the "Data Entry" skill rule. */
  lemma InDesignVsDataEntryRule()
    ensures !SkillMatchesRule("InDesign", AnyContaining(["Data", "Excel"]))
  {
    InDesignVsData();
    InDesignVsExcel();
  }

  /** Lower-cased, "Graphic Designer" does not contain "react". */
  lemma GraphicDesignerLowerVsReact()
    ensures !Contains(Lower("Graphic Designer"), "react")
  {
    LowerMissingChar("Graphic Designer", 't', 'T');
    NotContainsMissingChar(Lower("Graphic Designer"), "react", 4);
  }

  /** Lower-cased, "Canva" does not contain "react". */
  lemma CanvaLowerVsReact()
    ensures !Contains(Lower("Canva"), "react")
  {
    LowerMissingChar("Canva", 'r', 'R');
    NotContainsMissingChar(Lower("Canva"), "react", 0);
  }

  /** Lower-cased, "Photoshop" does not contain "react". */
  lemma PhotoshopLowerVsReact()
    ensures !Contains(Lower("Photoshop"), "react")
  {
    LowerMissingChar("Photoshop", 'r', 'R');
    NotContainsMissingChar(Lower("Photoshop"), "react", 0);
  }

  /** Lower-cased, "Illustrator" does not contain "react". */
  lemma IllustratorLowerVsReact()
    ensures !Contains(Lower("Illustrator"), "react")
  {
    LowerMissingChar("Illustrator", 'e', 'E');
    NotContainsMissingChar(Lower("Illustrator"), "react", 1);
  }

  /** Lower-cased, "InDesign" does not contain "react". */
  lemma InDesignLowerVsReact()
    ensures !Contains(Lower("InDesign"), "react")
  {
    LowerMissingChar("InDesign", 'r', 'R');
    NotContainsMissingChar(Lower("InDesign"), "react", 0);
  }

  /** Posting 1 under category "HR". */
  lemma Posting1HR(job: Job)
    requires job.title == "Senior UI/UX Designer" && job.company == "Amazon"
    requires job.jobType == "Full-time remote" && job.skills == ["Figma", "Adobe XD", "Sketch"]
    ensures !PassesCategory("HR", job)
  {
    SeniorUIUXDesignerVsHR();
    FigmaVsHRRule();
    AdobeXDVsHRRule();
    SketchVsHRRule();
    MissesCategory("HR", job);
  }

  /** Posting 1 under category "Developer". */
  lemma Posting1Developer(job: Job)
    requires job.title == "Senior UI/UX Designer" && job.company == "Amazon"
    requires job.jobType == "Full-time remote" && job.skills == ["Figma", "Adobe XD", "Sketch"]
    ensures !PassesCategory("Developer", job)
  {
    SeniorUIUXDesignerVsDeveloper();
    MissesCategory("Developer", job);
  }

  /** Posting 1 under category "Designer". */
  lemma Posting1Designer(job: Job)
    requires job.title == "Senior UI/UX Designer" && job.company == "Amazon"
    requires job.jobType == "Full-time remote" && job.skills == ["Figma", "Adobe XD", "Sketch"]
    ensures PassesCategory("Designer", job)
  {
    SeniorUIUXDesignerVsDesigner();
  }

  /** Posting 1 under category "SEO". */
  lemma Posting1Seo(job: Job)
    requires job.title == "Senior UI/UX Designer" && job.company == "Amazon"
    requires job.jobType == "Full-time remote" && job.skills == ["Figma", "Adobe XD", "Sketch"]
    ensures !PassesCategory("SEO", job)
  {
    SeniorUIUXDesignerVsSEO();
    FigmaVsSeoRule();
    AdobeXDVsSeoRule();
    SketchVsSeoRule();
    MissesCategory("SEO", job);
  }

  /** Posting 1 under category "Marketing". */
  lemma Posting1Marketing(job: Job)
    requires job.title == "Senior UI/UX Designer" && job.company == "Amazon"
    requires job.jobType == "Full-time remote" && job.skills == ["Figma", "Adobe XD", "Sketch"]
    ensures !PassesCategory("Marketing", job)
  {
    SeniorUIUXDesignerVsMarketing();
    FigmaVsMarketingRule();
    AdobeXDVsMarketingRule();
    SketchVsMarketingRule();
    MissesCategory("Marketing", job);
  }

  /** Posting 1 under category "Data Entry". */
  lemma Posting1DataEntry(job: Job)
    requires job.title == "Senior UI/UX Designer" && job.company == "Amazon"
    requires job.jobType == "Full-time remote" && job.skills == ["Figma", "Adobe XD", "Sketch"]
    ensures !PassesCategory("Data Entry", job)
  {
    SeniorUIUXDesignerVsDataEntry();
    FigmaVsDataEntryRule();
    AdobeXDVsDataEntryRule();
    SketchVsDataEntryRule();
    MissesCategory("Data Entry", job);
  }

  /** Posting 1 under the search for "react". */
  lemma Posting1Search(job: Job)
    requires job.title == "Senior UI/UX Designer" && job.company == "Amazon"
    requires job.jobType == "Full-time remote" && job.skills == ["Figma", "Adobe XD", "Sketch"]
    ensures !PassesSearch("react", job)
  {
    assert Lower("react") == "react";
    SeniorUIUXDesignerLowerVsReact();
    AmazonLowerVsReact();
    FigmaLowerVsReact();
    AdobeXDLowerVsReact();
    SketchLowerVsReact();
    MissesSearch("react", job);
  }

  /** Posting 1 under the working-schedule filter FullTimeOnly. */
  lemma Posting1FullTime(job: Job)
    requires job.title == "Senior UI/UX Designer" && job.company == "Amazon"
    requires job.jobType == "Full-time remote" && job.skills == ["Figma", "Adobe XD", "Sketch"]
    ensures PassesSchedule(FullTimeOnly, job)
  {
    FullTimeRemoteLowerVsFullTime();
    FullTimeOnlyKeys();
    ScheduleByKey(FullTimeOnly, "fulltime", job);
  }

  /** Posting 1 under the working-schedule filter PartTimeOnly. */
  lemma Posting1PartTime(job: Job)
    requires job.title == "Senior UI/UX Designer" && job.company == "Amazon"
    requires job.jobType == "Full-time remote" && job.skills == ["Figma", "Adobe XD", "Sketch"]
    ensures !PassesSchedule(PartTimeOnly, job)
  {
    FullTimeRemoteLowerVsPartTime();
    PartTimeOnlyKeys();
    ScheduleByKey(PartTimeOnly, "parttime", job);
  }

  /** Posting 2 under category "HR". */
  lemma Posting2HR(job: Job)
    requires job.title == "Frontend Developer" && job.company == "Microsoft"
    requires job.jobType == "Part-time remote" && job.skills == ["React", "JavaScript", "TypeScript"]
    ensures !PassesCategory("HR", job)
  {
    FrontendDeveloperVsHR();
    ReactVsHRRule();
    JavaScriptVsHRRule();
    TypeScriptVsHRRule();
    MissesCategory("HR", job);
  }

  /** Posting 2 under category "Developer". */
  lemma Posting2Developer(job: Job)
    requires job.title == "Frontend Developer" && job.company == "Microsoft"
    requires job.jobType == "Part-time remote" && job.skills == ["React", "JavaScript", "TypeScript"]
    ensures PassesCategory("Developer", job)
  {
    FrontendDeveloperVsDeveloper();
  }

  /** Posting 2 under category "Designer". */
  lemma Posting2Designer(job: Job)
    requires job.title == "Frontend Developer" && job.company == "Microsoft"
    requires job.jobType == "Part-time remote" && job.skills == ["React", "JavaScript", "TypeScript"]
    ensures !PassesCategory("Designer", job)
  {
    FrontendDeveloperVsDesigner();
    MissesCategory("Designer", job);
  }

  /** Posting 2 under category "SEO". */
  lemma Posting2Seo(job: Job)
    requires job.title == "Frontend Developer" && job.company == "Microsoft"
    requires job.jobType == "Part-time remote" && job.skills == ["React", "JavaScript", "TypeScript"]
    ensures !PassesCategory("SEO", job)
  {
    FrontendDeveloperVsSEO();
    ReactVsSeoRule();
    JavaScriptVsSeoRule();
    TypeScriptVsSeoRule();
    MissesCategory("SEO", job);
  }

  /** Posting 2 under category "Marketing". */
  lemma Posting2Marketing(job: Job)
    requires job.title == "Frontend Developer" && job.company == "Microsoft"
    requires job.jobType == "Part-time remote" && job.skills == ["React", "JavaScript", "TypeScript"]
    ensures !PassesCategory("Marketing", job)
  {
    FrontendDeveloperVsMarketing();
    ReactVsMarketingRule();
    JavaScriptVsMarketingRule();
    TypeScriptVsMarketingRule();
    MissesCategory("Marketing", job);
  }

  /** Posting 2 under category "Data Entry". */
  lemma Posting2DataEntry(job: Job)
    requires job.title == "Frontend Developer" && job.company == "Microsoft"
    requires job.jobType == "Part-time remote" && job.skills == ["React", "JavaScript", "TypeScript"]
    ensures !PassesCategory("Data Entry", job)
  {
    FrontendDeveloperVsDataEntry();
    ReactVsDataEntryRule();
    JavaScriptVsDataEntryRule();
    TypeScriptVsDataEntryRule();
    MissesCategory("Data Entry", job);
  }

  /** Posting 2 under the search for "react". */
  lemma Posting2Search(job: Job)
    requires job.title == "Frontend Developer" && job.company == "Microsoft"
    requires job.jobType == "Part-time remote" && job.skills == ["React", "JavaScript", "TypeScript"]
    ensures PassesSearch("react", job)
  {
    assert Lower("react") == "react";
    ReactLowerVsReact();
    assert "React" in job.skills;
  }

  /** Posting 2 under the working-schedule filter FullTimeOnly. */
  lemma Posting2FullTime(job: Job)
    requires job.title == "Frontend Developer" && job.company == "Microsoft"
    requires job.jobType == "Part-time remote" && job.skills == ["React", "JavaScript", "TypeScript"]
    ensures !PassesSchedule(FullTimeOnly, job)
  {
    PartTimeRemoteLowerVsFullTime();
    FullTimeOnlyKeys();
    ScheduleByKey(FullTimeOnly, "fulltime", job);
  }

  /** Posting 2 under the working-schedule filter PartTimeOnly. */
  lemma Posting2PartTime(job: Job)
    requires job.title == "Frontend Developer" && job.company == "Microsoft"
    requires job.jobType == "Part-time remote" && job.skills == ["React", "JavaScript", "TypeScript"]
    ensures PassesSchedule(PartTimeOnly, job)
  {
    PartTimeRemoteLowerVsPartTime();
    PartTimeOnlyKeys();
    ScheduleByKey(PartTimeOnly, "parttime", job);
  }

  /** Posting 3 under category "HR". */
  lemma Posting3HR(job: Job)
    requires job.title == "Backend Developer" && job.company == "Google"
    requires job.jobType == "Hybrid remote" && job.skills == ["Node.js", "Express", "MongoDB"]
    ensures !PassesCategory("HR", job)
  {
    BackendDeveloperVsHR();
    NodeJsVsHRRule();
    ExpressVsHRRule();
    MongoDBVsHRRule();
    MissesCategory("HR", job);
  }

  /** Posting 3 under category "Developer". */
  lemma Posting3Developer(job: Job)
    requires job.title == "Backend Developer" && job.company == "Google"
    requires job.jobType == "Hybrid remote" && job.skills == ["Node.js", "Express", "MongoDB"]
    ensures PassesCategory("Developer", job)
  {
    BackendDeveloperVsDeveloper();
  }

  /** Posting 3 under category "Designer". */
  lemma Posting3Designer(job: Job)
    requires job.title == "Backend Developer" && job.company == "Google"
    requires job.jobType == "Hybrid remote" && job.skills == ["Node.js", "Express", "MongoDB"]
    ensures !PassesCategory("Designer", job)
  {
    BackendDeveloperVsDesigner();
    MissesCategory("Designer", job);
  }

  /** Posting 3 under category "SEO". */
  lemma Posting3Seo(job: Job)
    requires job.title == "Backend Developer" && job.company == "Google"
    requires job.jobType == "Hybrid remote" && job.skills == ["Node.js", "Express", "MongoDB"]
    ensures !PassesCategory("SEO", job)
  {
    BackendDeveloperVsSEO();
    NodeJsVsSeoRule();
    ExpressVsSeoRule();
    MongoDBVsSeoRule();
    MissesCategory("SEO", job);
  }

  /** Posting 3 under category "Marketing". */
  lemma Posting3Marketing(job: Job)
    requires job.title == "Backend Developer" && job.company == "Google"
    requires job.jobType == "Hybrid remote" && job.skills == ["Node.js", "Express", "MongoDB"]
    ensures !PassesCategory("Marketing", job)
  {
    BackendDeveloperVsMarketing();
    NodeJsVsMarketingRule();
    ExpressVsMarketingRule();
    MongoDBVsMarketingRule();
    MissesCategory("Marketing", job);
  }

  /** Posting 3 under category "Data Entry". */
  lemma Posting3DataEntry(job: Job)
    requires job.title == "Backend Developer" && job.company == "Google"
    requires job.jobType == "Hybrid remote" && job.skills == ["Node.js", "Express", "MongoDB"]
    ensures !PassesCategory("Data Entry", job)
  {
    BackendDeveloperVsDataEntry();
    NodeJsVsDataEntryRule();
    ExpressVsDataEntryRule();
    MongoDBVsDataEntryRule();
    MissesCategory("Data Entry", job);
  }

  /** Posting 3 under the search for "react". */
  lemma Posting3Search(job: Job)
    requires job.title == "Backend Developer" && job.company == "Google"
    requires job.jobType == "Hybrid remote" && job.skills == ["Node.js", "Express", "MongoDB"]
    ensures !PassesSearch("react", job)
  {
    assert Lower("react") == "react";
    BackendDeveloperLowerVsReact();
    GoogleLowerVsReact();
    NodeJsLowerVsReact();
    ExpressLowerVsReact();
    MongoDBLowerVsReact();
    MissesSearch("react", job);
  }

  /** Posting 3 under the working-schedule filter FullTimeOnly. */
  lemma Posting3FullTime(job: Job)
    requires job.title == "Backend Developer" && job.company == "Google"
    requires job.jobType == "Hybrid remote" && job.skills == ["Node.js", "Express", "MongoDB"]
    ensures !PassesSchedule(FullTimeOnly, job)
  {
    HybridRemoteLowerVsFullTime();
    FullTimeOnlyKeys();
    ScheduleByKey(FullTimeOnly, "fulltime", job);
  }

  /** Posting 3 under the working-schedule filter PartTimeOnly. */
  lemma Posting3PartTime(job: Job)
    requires job.title == "Backend Developer" && job.company == "Google"
    requires job.jobType == "Hybrid remote" && job.skills == ["Node.js", "Express", "MongoDB"]
    ensures !PassesSchedule(PartTimeOnly, job)
  {
    HybridRemoteLowerVsPartTime();
    PartTimeOnlyKeys();
    ScheduleByKey(PartTimeOnly, "parttime", job);
  }

  /** Posting 4 under category "HR". */
  lemma Posting4HR(job: Job)
    requires job.title == "Product Manager" && job.company == "Apple"
    requires job.jobType == "Full-time remote" && job.skills == ["Product Strategy", "Agile", "Roadmapping"]
    ensures !PassesCategory("HR", job)
  {
    ProductManagerVsHR();
    ProductStrategyVsHRRule();
    AgileVsHRRule();
    RoadmappingVsHRRule();
    MissesCategory("HR", job);
  }

  /** Posting 4 under category "Developer". */
  lemma Posting4Developer(job: Job)
    requires job.title == "Product Manager" && job.company == "Apple"
    requires job.jobType == "Full-time remote" && job.skills == ["Product Strategy", "Agile", "Roadmapping"]
    ensures !PassesCategory("Developer", job)
  {
    ProductManagerVsDeveloper();
    MissesCategory("Developer", job);
  }

  /** Posting 4 under category "Designer". */
  lemma Posting4Designer(job: Job)
    requires job.title == "Product Manager" && job.company == "Apple"
    requires job.jobType == "Full-time remote" && job.skills == ["Product Strategy", "Agile", "Roadmapping"]
    ensures !PassesCategory("Designer", job)
  {
    ProductManagerVsDesigner();
    MissesCategory("Designer", job);
  }

  /** Posting 4 under category "SEO". */
  lemma Posting4Seo(job: Job)
    requires job.title == "Product Manager" && job.company == "Apple"
    requires job.jobType == "Full-time remote" && job.skills == ["Product Strategy", "Agile", "Roadmapping"]
    ensures !PassesCategory("SEO", job)
  {
    ProductManagerVsSEO();
    ProductStrategyVsSeoRule();
    AgileVsSeoRule();
    RoadmappingVsSeoRule();
    MissesCategory("SEO", job);
  }

  /** Posting 4 under category "Marketing". */
  lemma Posting4Marketing(job: Job)
    requires job.title == "Product Manager" && job.company == "Apple"
    requires job.jobType == "Full-time remote" && job.skills == ["Product Strategy", "Agile", "Roadmapping"]
    ensures !PassesCategory("Marketing", job)
  {
    ProductManagerVsMarketing();
    ProductStrategyVsMarketingRule();
    AgileVsMarketingRule();
    RoadmappingVsMarketingRule();
    MissesCategory("Marketing", job);
  }

  /** Posting 4 under category "Data Entry". */
  lemma Posting4DataEntry(job: Job)
    requires job.title == "Product Manager" && job.company == "Apple"
    requires job.jobType == "Full-time remote" && job.skills == ["Product Strategy", "Agile", "Roadmapping"]
    ensures !PassesCategory("Data Entry", job)
  {
    ProductManagerVsDataEntry();
    ProductStrategyVsDataEntryRule();
    AgileVsDataEntryRule();
    RoadmappingVsDataEntryRule();
    MissesCategory("Data Entry", job);
  }

  /** Posting 4 under the search for "react". */
  lemma Posting4Search(job: Job)
    requires job.title == "Product Manager" && job.company == "Apple"
    requires job.jobType == "Full-time remote" && job.skills == ["Product Strategy", "Agile", "Roadmapping"]
    ensures !PassesSearch("react", job)
  {
    assert Lower("react") == "react";
    ProductManagerLowerVsReact();
    AppleLowerVsReact();
    ProductStrategyLowerVsReact();
    AgileLowerVsReact();
    RoadmappingLowerVsReact();
    MissesSearch("react", job);
  }

  /** Posting 4 under the working-schedule filter FullTimeOnly. */
  lemma Posting4FullTime(job: Job)
    requires job.title == "Product Manager" && job.company == "Apple"
    requires job.jobType == "Full-time remote" && job.skills == ["Product Strategy", "Agile", "Roadmapping"]
    ensures PassesSchedule(FullTimeOnly, job)
  {
    FullTimeRemoteLowerVsFullTime();
    FullTimeOnlyKeys();
    ScheduleByKey(FullTimeOnly, "fulltime", job);
  }

  /** Posting 4 under the working-schedule filter PartTimeOnly. */
  lemma Posting4PartTime(job: Job)
    requires job.title == "Product Manager" && job.company == "Apple"
    requires job.jobType == "Full-time remote" && job.skills == ["Product Strategy", "Agile", "Roadmapping"]
    ensures !PassesSchedule(PartTimeOnly, job)
  {
    FullTimeRemoteLowerVsPartTime();
    PartTimeOnlyKeys();
    ScheduleByKey(PartTimeOnly, "parttime", job);
  }

  /** Posting 5 under category "HR". */
  lemma Posting5HR(job: Job)
    requires job.title == "HR Manager" && job.company == "Netflix"
    requires job.jobType == "Hybrid remote" && job.skills == ["Recruitment", "Employee Relations", "HRIS"]
    ensures PassesCategory("HR", job)
  {
    HRManagerVsHR();
  }

  /** Posting 5 under category "Developer". */
  lemma Posting5Developer(job: Job)
    requires job.title == "HR Manager" && job.company == "Netflix"
    requires job.jobType == "Hybrid remote" && job.skills == ["Recruitment", "Employee Relations", "HRIS"]
    ensures !PassesCategory("Developer", job)
  {
    HRManagerVsDeveloper();
    MissesCategory("Developer", job);
  }

  /** Posting 5 under category "Designer". */
  lemma Posting5Designer(job: Job)
    requires job.title == "HR Manager" && job.company == "Netflix"
    requires job.jobType == "Hybrid remote" && job.skills == ["Recruitment", "Employee Relations", "HRIS"]
    ensures !PassesCategory("Designer", job)
  {
    HRManagerVsDesigner();
    MissesCategory("Designer", job);
  }

  /** Posting 5 under category "SEO". */
  lemma Posting5Seo(job: Job)
    requires job.title == "HR Manager" && job.company == "Netflix"
    requires job.jobType == "Hybrid remote" && job.skills == ["Recruitment", "Employee Relations", "HRIS"]
    ensures !PassesCategory("SEO", job)
  {
    HRManagerVsSEO();
    RecruitmentVsSeoRule();
    EmployeeRelationsVsSeoRule();
    HRISVsSeoRule();
    MissesCategory("SEO", job);
  }

  /** Posting 5 under category "Marketing". */
  lemma Posting5Marketing(job: Job)
    requires job.title == "HR Manager" && job.company == "Netflix"
    requires job.jobType == "Hybrid remote" && job.skills == ["Recruitment", "Employee Relations", "HRIS"]
    ensures !PassesCategory("Marketing", job)
  {
    HRManagerVsMarketing();
    RecruitmentVsMarketingRule();
    EmployeeRelationsVsMarketingRule();
    HRISVsMarketingRule();
    MissesCategory("Marketing", job);
  }

  /** Posting 5 under category "Data Entry". */
  lemma Posting5DataEntry(job: Job)
    requires job.title == "HR Manager" && job.company == "Netflix"
    requires job.jobType == "Hybrid remote" && job.skills == ["Recruitment", "Employee Relations", "HRIS"]
    ensures !PassesCategory("Data Entry", job)
  {
    HRManagerVsDataEntry();
    RecruitmentVsDataEntryRule();
    EmployeeRelationsVsDataEntryRule();
    HRISVsDataEntryRule();
    MissesCategory("Data Entry", job);
  }

  /** Posting 5 under the search for "react". */
  lemma Posting5Search(job: Job)
    requires job.title == "HR Manager" && job.company == "Netflix"
    requires job.jobType == "Hybrid remote" && job.skills == ["Recruitment", "Employee Relations", "HRIS"]
    ensures !PassesSearch("react", job)
  {
    assert Lower("react") == "react";
    HRManagerLowerVsReact();
    NetflixLowerVsReact();
    RecruitmentLowerVsReact();
    EmployeeRelationsLowerVsReact();
    HRISLowerVsReact();
    MissesSearch("react", job);
  }

  /** Posting 5 under the working-schedule filter FullTimeOnly. */
  lemma Posting5FullTime(job: Job)
    requires job.title == "HR Manager" && job.company == "Netflix"
    requires job.jobType == "Hybrid remote" && job.skills == ["Recruitment", "Employee Relations", "HRIS"]
    ensures !PassesSchedule(FullTimeOnly, job)
  {
    HybridRemoteLowerVsFullTime();
    FullTimeOnlyKeys();
    ScheduleByKey(FullTimeOnly, "fulltime", job);
  }

  /** Posting 5 under the working-schedule filter PartTimeOnly. */
  lemma Posting5PartTime(job: Job)
    requires job.title == "HR Manager" && job.company == "Netflix"
    requires job.jobType == "Hybrid remote" && job.skills == ["Recruitment", "Employee Relations", "HRIS"]
    ensures !PassesSchedule(PartTimeOnly, job)
  {
    HybridRemoteLowerVsPartTime();
    PartTimeOnlyKeys();
    ScheduleByKey(PartTimeOnly, "parttime", job);
  }

  /** Posting 6 under category "HR". */
  lemma Posting6HR(job: Job)
    requires job.title == "Data Analyst" && job.company == "Facebook"
    requires job.jobType == "Full-time remote" && job.skills == ["SQL", "Excel", "Tableau"]
    ensures !PassesCategory("HR", job)
  {
    DataAnalystVsHR();
    SQLVsHRRule();
    ExcelVsHRRule();
    TableauVsHRRule();
    MissesCategory("HR", job);
  }

  /** Posting 6 under category "Developer". */
  lemma Posting6Developer(job: Job)
    requires job.title == "Data Analyst" && job.company == "Facebook"
    requires job.jobType == "Full-time remote" && job.skills == ["SQL", "Excel", "Tableau"]
    ensures !PassesCategory("Developer", job)
  {
    DataAnalystVsDeveloper();
    MissesCategory("Developer", job);
  }

  /** Posting 6 under category "Designer". */
  lemma Posting6Designer(job: Job)
    requires job.title == "Data Analyst" && job.company == "Facebook"
    requires job.jobType == "Full-time remote" && job.skills == ["SQL", "Excel", "Tableau"]
    ensures !PassesCategory("Designer", job)
  {
    DataAnalystVsDesigner();
    MissesCategory("Designer", job);
  }

  /** Posting 6 under category "SEO". */
  lemma Posting6Seo(job: Job)
    requires job.title == "Data Analyst" && job.company == "Facebook"
    requires job.jobType == "Full-time remote" && job.skills == ["SQL", "Excel", "Tableau"]
    ensures !PassesCategory("SEO", job)
  {
    DataAnalystVsSEO();
    SQLVsSeoRule();
    ExcelVsSeoRule();
    TableauVsSeoRule();
    MissesCategory("SEO", job);
  }

  /** Posting 6 under category "Marketing". */
  lemma Posting6Marketing(job: Job)
    requires job.title == "Data Analyst" && job.company == "Facebook"
    requires job.jobType == "Full-time remote" && job.skills == ["SQL", "Excel", "Tableau"]
    ensures !PassesCategory("Marketing", job)
  {
    DataAnalystVsMarketing();
    SQLVsMarketingRule();
    ExcelVsMarketingRule();
    TableauVsMarketingRule();
    MissesCategory("Marketing", job);
  }

  /** Posting 6 under category "Data Entry". */
  lemma Posting6DataEntry(job: Job)
    requires job.title == "Data Analyst" && job.company == "Facebook"
    requires job.jobType == "Full-time remote" && job.skills == ["SQL", "Excel", "Tableau"]
    ensures PassesCategory("Data Entry", job)
  {
    ExcelVsDataEntryRule();
    assert "Excel" in job.skills;
  }

  /** Posting 6 under the search for "react". */
  lemma Posting6Search(job: Job)
    requires job.title == "Data Analyst" && job.company == "Facebook"
    requires job.jobType == "Full-time remote" && job.skills == ["SQL", "Excel", "Tableau"]
    ensures !PassesSearch("react", job)
  {
    assert Lower("react") == "react";
    DataAnalystLowerVsReact();
    FacebookLowerVsReact();
    SQLLowerVsReact();
    ExcelLowerVsReact();
    TableauLowerVsReact();
    MissesSearch("react", job);
  }

  /** Posting 6 under the working-schedule filter FullTimeOnly. */
  lemma Posting6FullTime(job: Job)
    requires job.title == "Data Analyst" && job.company == "Facebook"
    requires job.jobType == "Full-time remote" && job.skills == ["SQL", "Excel", "Tableau"]
    ensures PassesSchedule(FullTimeOnly, job)
  {
    FullTimeRemoteLowerVsFullTime();
    FullTimeOnlyKeys();
    ScheduleByKey(FullTimeOnly, "fulltime", job);
  }

  /** Posting 6 under the working-schedule filter PartTimeOnly. */
  lemma Posting6PartTime(job: Job)
    requires job.title == "Data Analyst" && job.company == "Facebook"
    requires job.jobType == "Full-time remote" && job.skills == ["SQL", "Excel", "Tableau"]
    ensures !PassesSchedule(PartTimeOnly, job)
  {
    FullTimeRemoteLowerVsPartTime();
    PartTimeOnlyKeys();
    ScheduleByKey(PartTimeOnly, "parttime", job);
  }

  /** Posting 7 under category "HR". */
  lemma Posting7HR(job: Job)
    requires job.title == "SEO Specialist" && job.company == "Twitter"
    requires job.jobType == "Part-time remote" && job.skills == ["SEO Tools", "Google Analytics", "Content Strategy"]
    ensures !PassesCategory("HR", job)
  {
    SEOSpecialistVsHR();
    SEOToolsVsHRRule();
    GoogleAnalyticsVsHRRule();
    ContentStrategyVsHRRule();
    MissesCategory("HR", job);
  }

  /** Posting 7 under category "Developer". */
  lemma Posting7Developer(job: Job)
    requires job.title == "SEO Specialist" && job.company == "Twitter"
    requires job.jobType == "Part-time remote" && job.skills == ["SEO Tools", "Google Analytics", "Content Strategy"]
    ensures !PassesCategory("Developer", job)
  {
    SEOSpecialistVsDeveloper();
    MissesCategory("Developer", job);
  }

  /** Posting 7 under category "Designer". */
  lemma Posting7Designer(job: Job)
    requires job.title == "SEO Specialist" && job.company == "Twitter"
    requires job.jobType == "Part-time remote" && job.skills == ["SEO Tools", "Google Analytics", "Content Strategy"]
    ensures !PassesCategory("Designer", job)
  {
    SEOSpecialistVsDesigner();
    MissesCategory("Designer", job);
  }

  /** Posting 7 under category "SEO". */
  lemma Posting7Seo(job: Job)
    requires job.title == "SEO Specialist" && job.company == "Twitter"
    requires job.jobType == "Part-time remote" && job.skills == ["SEO Tools", "Google Analytics", "Content Strategy"]
    ensures PassesCategory("SEO", job)
  {
    SEOSpecialistVsSEO();
  }

  /** Posting 7 under category "Marketing". */
  lemma Posting7Marketing(job: Job)
    requires job.title == "SEO Specialist" && job.company == "Twitter"
    requires job.jobType == "Part-time remote" && job.skills == ["SEO Tools", "Google Analytics", "Content Strategy"]
    ensures !PassesCategory("Marketing", job)
  {
    SEOSpecialistVsMarketing();
    SEOToolsVsMarketingRule();
    GoogleAnalyticsVsMarketingRule();
    ContentStrategyVsMarketingRule();
    MissesCategory("Marketing", job);
  }

  /** Posting 7 under category "Data Entry". */
  lemma Posting7DataEntry(job: Job)
    requires job.title == "SEO Specialist" && job.company == "Twitter"
    requires job.jobType == "Part-time remote" && job.skills == ["SEO Tools", "Google Analytics", "Content Strategy"]
    ensures !PassesCategory("Data Entry", job)
  {
    SEOSpecialistVsDataEntry();
    SEOToolsVsDataEntryRule();
    GoogleAnalyticsVsDataEntryRule();
    ContentStrategyVsDataEntryRule();
    MissesCategory("Data Entry", job);
  }

  /** Posting 7 under the search for "react". */
  lemma Posting7Search(job: Job)
    requires job.title == "SEO Specialist" && job.company == "Twitter"
    requires job.jobType == "Part-time remote" && job.skills == ["SEO Tools", "Google Analytics", "Content Strategy"]
    ensures !PassesSearch("react", job)
  {
    assert Lower("react") == "react";
    SEOSpecialistLowerVsReact();
    TwitterLowerVsReact();
    SEOToolsLowerVsReact();
    GoogleAnalyticsLowerVsReact();
    ContentStrategyLowerVsReact();
    MissesSearch("react", job);
  }

  /** Posting 7 under the working-schedule filter FullTimeOnly. */
  lemma Posting7FullTime(job: Job)
    requires job.title == "SEO Specialist" && job.company == "Twitter"
    requires job.jobType == "Part-time remote" && job.skills == ["SEO Tools", "Google Analytics", "Content Strategy"]
    ensures !PassesSchedule(FullTimeOnly, job)
  {
    PartTimeRemoteLowerVsFullTime();
    FullTimeOnlyKeys();
    ScheduleByKey(FullTimeOnly, "fulltime", job);
  }

  /** Posting 7 under the working-schedule filter PartTimeOnly. */
  lemma Posting7PartTime(job: Job)
    requires job.title == "SEO Specialist" && job.company == "Twitter"
    requires job.jobType == "Part-time remote" && job.skills == ["SEO Tools", "Google Analytics", "Content Strategy"]
    ensures PassesSchedule(PartTimeOnly, job)
  {
    PartTimeRemoteLowerVsPartTime();
    PartTimeOnlyKeys();
    ScheduleByKey(PartTimeOnly, "parttime", job);
  }

  /** Posting 8 under category "HR". */
  lemma Posting8HR(job: Job)
    requires job.title == "Marketing Manager" && job.company == "Adobe"
    requires job.jobType == "Hybrid remote" && job.skills == ["Digital Marketing", "Brand Strategy", "Analytics"]
    ensures !PassesCategory("HR", job)
  {
    MarketingManagerVsHR();
    DigitalMarketingVsHRRule();
    BrandStrategyVsHRRule();
    AnalyticsVsHRRule();
    MissesCategory("HR", job);
  }

  /** Posting 8 under category "Developer". */
  lemma Posting8Developer(job: Job)
    requires job.title == "Marketing Manager" && job.company == "Adobe"
    requires job.jobType == "Hybrid remote" && job.skills == ["Digital Marketing", "Brand Strategy", "Analytics"]
    ensures !PassesCategory("Developer", job)
  {
    MarketingManagerVsDeveloper();
    MissesCategory("Developer", job);
  }

  /** Posting 8 under category "Designer". */
  lemma Posting8Designer(job: Job)
    requires job.title == "Marketing Manager" && job.company == "Adobe"
    requires job.jobType == "Hybrid remote" && job.skills == ["Digital Marketing", "Brand Strategy", "Analytics"]
    ensures !PassesCategory("Designer", job)
  {
    MarketingManagerVsDesigner();
    MissesCategory("Designer", job);
  }

  /** Posting 8 under category "SEO". */
  lemma Posting8Seo(job: Job)
    requires job.title == "Marketing Manager" && job.company == "Adobe"
    requires job.jobType == "Hybrid remote" && job.skills == ["Digital Marketing", "Brand Strategy", "Analytics"]
    ensures !PassesCategory("SEO", job)
  {
    MarketingManagerVsSEO();
    DigitalMarketingVsSeoRule();
    BrandStrategyVsSeoRule();
    AnalyticsVsSeoRule();
    MissesCategory("SEO", job);
  }

  /** Posting 8 under category "Marketing". */
  lemma Posting8Marketing(job: Job)
    requires job.title == "Marketing Manager" && job.company == "Adobe"
    requires job.jobType == "Hybrid remote" && job.skills == ["Digital Marketing", "Brand Strategy", "Analytics"]
    ensures PassesCategory("Marketing", job)
  {
    MarketingManagerVsMarketing();
  }

  /** Posting 8 under category "Data Entry". */
  lemma Posting8DataEntry(job: Job)
    requires job.title == "Marketing Manager" && job.company == "Adobe"
    requires job.jobType == "Hybrid remote" && job.skills == ["Digital Marketing", "Brand Strategy", "Analytics"]
    ensures !PassesCategory("Data Entry", job)
  {
    MarketingManagerVsDataEntry();
    DigitalMarketingVsDataEntryRule();
    BrandStrategyVsDataEntryRule();
    AnalyticsVsDataEntryRule();
    MissesCategory("Data Entry", job);
  }

  /** Posting 8 under the search for "react". */
  lemma Posting8Search(job: Job)
    requires job.title == "Marketing Manager" && job.company == "Adobe"
    requires job.jobType == "Hybrid remote" && job.skills == ["Digital Marketing", "Brand Strategy", "Analytics"]
    ensures !PassesSearch("react", job)
  {
    assert Lower("react") == "react";
    MarketingManagerLowerVsReact();
    AdobeLowerVsReact();
    DigitalMarketingLowerVsReact();
    BrandStrategyLowerVsReact();
    AnalyticsLowerVsReact();
    MissesSearch("react", job);
  }

  /** Posting 8 under the working-schedule filter FullTimeOnly. */
  lemma Posting8FullTime(job: Job)
    requires job.title == "Marketing Manager" && job.company == "Adobe"
    requires job.jobType == "Hybrid remote" && job.skills == ["Digital Marketing", "Brand Strategy", "Analytics"]
    ensures !PassesSchedule(FullTimeOnly, job)
  {
    HybridRemoteLowerVsFullTime();
    FullTimeOnlyKeys();
    ScheduleByKey(FullTimeOnly, "fulltime", job);
  }

  /** Posting 8 under the working-schedule filter PartTimeOnly. */
  lemma Posting8PartTime(job: Job)
    requires job.title == "Marketing Manager" && job.company == "Adobe"
    requires job.jobType == "Hybrid remote" && job.skills == ["Digital Marketing", "Brand Strategy", "Analytics"]
    ensures !PassesSchedule(PartTimeOnly, job)
  {
    HybridRemoteLowerVsPartTime();
    PartTimeOnlyKeys();
    ScheduleByKey(PartTimeOnly, "parttime", job);
  }

  /** Posting 9 under category "HR". */
  lemma Posting9HR(job: Job)
    requires job.title == "Data Entry Specialist" && job.company == "Oracle"
    requires job.jobType == "Full-time remote" && job.skills == ["Excel", "Data Management", "Typing"]
    ensures !PassesCategory("HR", job)
  {
    DataEntrySpecialistVsHR();
    ExcelVsHRRule();
    DataManagementVsHRRule();
    TypingVsHRRule();
    MissesCategory("HR", job);
  }

  /** Posting 9 under category "Developer". */
  lemma Posting9Developer(job: Job)
    requires job.title == "Data Entry Specialist" && job.company == "Oracle"
    requires job.jobType == "Full-time remote" && job.skills == ["Excel", "Data Management", "Typing"]
    ensures !PassesCategory("Developer", job)
  {
    DataEntrySpecialistVsDeveloper();
    MissesCategory("Developer", job);
  }

  /** Posting 9 under category "Designer". */
  lemma Posting9Designer(job: Job)
    requires job.title == "Data Entry Specialist" && job.company == "Oracle"
    requires job.jobType == "Full-time remote" && job.skills == ["Excel", "Data Management", "Typing"]
    ensures !PassesCategory("Designer", job)
  {
    DataEntrySpecialistVsDesigner();
    MissesCategory("Designer", job);
  }

  /** Posting 9 under category "SEO". */
  lemma Posting9Seo(job: Job)
    requires job.title == "Data Entry Specialist" && job.company == "Oracle"
    requires job.jobType == "Full-time remote" && job.skills == ["Excel", "Data Management", "Typing"]
    ensures !PassesCategory("SEO", job)
  {
    DataEntrySpecialistVsSEO();
    ExcelVsSeoRule();
    DataManagementVsSeoRule();
    TypingVsSeoRule();
    MissesCategory("SEO", job);
  }

  /** Posting 9 under category "Marketing". */
  lemma Posting9Marketing(job: Job)
    requires job.title == "Data Entry Specialist" && job.company == "Oracle"
    requires job.jobType == "Full-time remote" && job.skills == ["Excel", "Data Management", "Typing"]
    ensures !PassesCategory("Marketing", job)
  {
    DataEntrySpecialistVsMarketing();
    ExcelVsMarketingRule();
    DataManagementVsMarketingRule();
    TypingVsMarketingRule();
    MissesCategory("Marketing", job);
  }

  /** Posting 9 under category "Data Entry". */
  lemma Posting9DataEntry(job: Job)
    requires job.title == "Data Entry Specialist" && job.company == "Oracle"
    requires job.jobType == "Full-time remote" && job.skills == ["Excel", "Data Management", "Typing"]
    ensures PassesCategory("Data Entry", job)
  {
    DataEntrySpecialistVsDataEntry();
  }

  /** Posting 9 under the search for "react". */
  lemma Posting9Search(job: Job)
    requires job.title == "Data Entry Specialist" && job.company == "Oracle"
    requires job.jobType == "Full-time remote" && job.skills == ["Excel", "Data Management", "Typing"]
    ensures !PassesSearch("react", job)
  {
    assert Lower("react") == "react";
    DataEntrySpecialistLowerVsReact();
    OracleLowerVsReact();
    ExcelLowerVsReact();
    DataManagementLowerVsReact();
    TypingLowerVsReact();
    MissesSearch("react", job);
  }

  /** Posting 9 under the working-schedule filter FullTimeOnly. */
  lemma Posting9FullTime(job: Job)
    requires job.title == "Data Entry Specialist" && job.company == "Oracle"
    requires job.jobType == "Full-time remote" && job.skills == ["Excel", "Data Management", "Typing"]
    ensures PassesSchedule(FullTimeOnly, job)
  {
    FullTimeRemoteLowerVsFullTime();
    FullTimeOnlyKeys();
    ScheduleByKey(FullTimeOnly, "fulltime", job);
  }

  /** Posting 9 under the working-schedule filter PartTimeOnly. */
  lemma Posting9PartTime(job: Job)
    requires job.title == "Data Entry Specialist" && job.company == "Oracle"
    requires job.jobType == "Full-time remote" && job.skills == ["Excel", "Data Management", "Typing"]
    ensures !PassesSchedule(PartTimeOnly, job)
  {
    FullTimeRemoteLowerVsPartTime();
    PartTimeOnlyKeys();
    ScheduleByKey(PartTimeOnly, "parttime", job);
  }

  /** Posting 10 under category "HR". */
  lemma Posting10HR(job: Job)
    requires job.title == "DevOps Engineer" && job.company == "IBM"
    requires job.jobType == "Full-time remote" && job.skills == ["Docker", "Kubernetes", "CI/CD"]
    ensures !PassesCategory("HR", job)
  {
    DevOpsEngineerVsHR();
    DockerVsHRRule();
    KubernetesVsHRRule();
    CICDVsHRRule();
    MissesCategory("HR", job);
  }

  /** Posting 10 under category "Developer". */
  lemma Posting10Developer(job: Job)
    requires job.title == "DevOps Engineer" && job.company == "IBM"
    requires job.jobType == "Full-time remote" && job.skills == ["Docker", "Kubernetes", "CI/CD"]
    ensures !PassesCategory("Developer", job)
  {
    DevOpsEngineerVsDeveloper();
    MissesCategory("Developer", job);
  }

  /** Posting 10 under category "Designer". */
  lemma Posting10Designer(job: Job)
    requires job.title == "DevOps Engineer" && job.company == "IBM"
    requires job.jobType == "Full-time remote" && job.skills == ["Docker", "Kubernetes", "CI/CD"]
    ensures !PassesCategory("Designer", job)
  {
    DevOpsEngineerVsDesigner();
    MissesCategory("Designer", job);
  }

  /** Posting 10 under category "SEO". */
  lemma Posting10Seo(job: Job)
    requires job.title == "DevOps Engineer" && job.company == "IBM"
    requires job.jobType == "Full-time remote" && job.skills == ["Docker", "Kubernetes", "CI/CD"]
    ensures !PassesCategory("SEO", job)
  {
    DevOpsEngineerVsSEO();
    DockerVsSeoRule();
    KubernetesVsSeoRule();
    CICDVsSeoRule();
    MissesCategory("SEO", job);
  }

  /** Posting 10 under category "Marketing". */
  lemma Posting10Marketing(job: Job)
    requires job.title == "DevOps Engineer" && job.company == "IBM"
    requires job.jobType == "Full-time remote" && job.skills == ["Docker", "Kubernetes", "CI/CD"]
    ensures !PassesCategory("Marketing", job)
  {
    DevOpsEngineerVsMarketing();
    DockerVsMarketingRule();
    KubernetesVsMarketingRule();
    CICDVsMarketingRule();
    MissesCategory("Marketing", job);
  }

  /** Posting 10 under category "Data Entry". */
  lemma Posting10DataEntry(job: Job)
    requires job.title == "DevOps Engineer" && job.company == "IBM"
    requires job.jobType == "Full-time remote" && job.skills == ["Docker", "Kubernetes", "CI/CD"]
    ensures !PassesCategory("Data Entry", job)
  {
    DevOpsEngineerVsDataEntry();
    DockerVsDataEntryRule();
    KubernetesVsDataEntryRule();
    CICDVsDataEntryRule();
    MissesCategory("Data Entry", job);
  }

  /** Posting 10 under the search for "react". */
  lemma Posting10Search(job: Job)
    requires job.title == "DevOps Engineer" && job.company == "IBM"
    requires job.jobType == "Full-time remote" && job.skills == ["Docker", "Kubernetes", "CI/CD"]
    ensures !PassesSearch("react", job)
  {
    assert Lower("react") == "react";
    DevOpsEngineerLowerVsReact();
    IBMLowerVsReact();
    DockerLowerVsReact();
    KubernetesLowerVsReact();
    CICDLowerVsReact();
    MissesSearch("react", job);
  }

  /** Posting 10 under the working-schedule filter FullTimeOnly. */
  lemma Posting10FullTime(job: Job)
    requires job.title == "DevOps Engineer" && job.company == "IBM"
    requires job.jobType == "Full-time remote" && job.skills == ["Docker", "Kubernetes", "CI/CD"]
    ensures PassesSchedule(FullTimeOnly, job)
  {
    FullTimeRemoteLowerVsFullTime();
    FullTimeOnlyKeys();
    ScheduleByKey(FullTimeOnly, "fulltime", job);
  }

  /** Posting 10 under the working-schedule filter PartTimeOnly. */
  lemma Posting10PartTime(job: Job)
    requires job.title == "DevOps Engineer" && job.company == "IBM"
    requires job.jobType == "Full-time remote" && job.skills == ["Docker", "Kubernetes", "CI/CD"]
    ensures !PassesSchedule(PartTimeOnly, job)
  {
    FullTimeRemoteLowerVsPartTime();
    PartTimeOnlyKeys();
    ScheduleByKey(PartTimeOnly, "parttime", job);
  }

  /** Posting 11 under category "HR". */
  lemma Posting11HR(job: Job)
    requires job.title == "Content Writer" && job.company == "LinkedIn"
    requires job.jobType == "Part-time remote" && job.skills == ["Copywriting", "Editing", "SEO Writing"]
    ensures !PassesCategory("HR", job)
  {
    ContentWriterVsHR();
    CopywritingVsHRRule();
    EditingVsHRRule();
    SEOWritingVsHRRule();
    MissesCategory("HR", job);
  }

  /** Posting 11 under category "Developer". */
  lemma Posting11Developer(job: Job)
    requires job.title == "Content Writer" && job.company == "LinkedIn"
    requires job.jobType == "Part-time remote" && job.skills == ["Copywriting", "Editing", "SEO Writing"]
    ensures !PassesCategory("Developer", job)
  {
    ContentWriterVsDeveloper();
    MissesCategory("Developer", job);
  }

  /** Posting 11 under category "Designer". */
  lemma Posting11Designer(job: Job)
    requires job.title == "Content Writer" && job.company == "LinkedIn"
    requires job.jobType == "Part-time remote" && job.skills == ["Copywriting", "Editing", "SEO Writing"]
    ensures !PassesCategory("Designer", job)
  {
    ContentWriterVsDesigner();
    MissesCategory("Designer", job);
  }

  /** Posting 11 under category "SEO". */
  lemma Posting11Seo(job: Job)
    requires job.title == "Content Writer" && job.company == "LinkedIn"
    requires job.jobType == "Part-time remote" && job.skills == ["Copywriting", "Editing", "SEO Writing"]
    ensures PassesCategory("SEO", job)
  {
    SEOWritingVsSeoRule();
    assert "SEO Writing" in job.skills;
  }

  /** Posting 11 under category "Marketing". */
  lemma Posting11Marketing(job: Job)
    requires job.title == "Content Writer" && job.company == "LinkedIn"
    requires job.jobType == "Part-time remote" && job.skills == ["Copywriting", "Editing", "SEO Writing"]
    ensures !PassesCategory("Marketing", job)
  {
    ContentWriterVsMarketing();
    CopywritingVsMarketingRule();
    EditingVsMarketingRule();
    SEOWritingVsMarketingRule();
    MissesCategory("Marketing", job);
  }

  /** Posting 11 under category "Data Entry". */
  lemma Posting11DataEntry(job: Job)
    requires job.title == "Content Writer" && job.company == "LinkedIn"
    requires job.jobType == "Part-time remote" && job.skills == ["Copywriting", "Editing", "SEO Writing"]
    ensures !PassesCategory("Data Entry", job)
  {
    ContentWriterVsDataEntry();
    CopywritingVsDataEntryRule();
    EditingVsDataEntryRule();
    SEOWritingVsDataEntryRule();
    MissesCategory("Data Entry", job);
  }

  /** Posting 11 under the search for "react". */
  lemma Posting11Search(job: Job)
    requires job.title == "Content Writer" && job.company == "LinkedIn"
    requires job.jobType == "Part-time remote" && job.skills == ["Copywriting", "Editing", "SEO Writing"]
    ensures !PassesSearch("react", job)
  {
    assert Lower("react") == "react";
    ContentWriterLowerVsReact();
    LinkedInLowerVsReact();
    CopywritingLowerVsReact();
    EditingLowerVsReact();
    SEOWritingLowerVsReact();
    MissesSearch("react", job);
  }

  /** Posting 11 under the working-schedule filter FullTimeOnly. */
  lemma Posting11FullTime(job: Job)
    requires job.title == "Content Writer" && job.company == "LinkedIn"
    requires job.jobType == "Part-time remote" && job.skills == ["Copywriting", "Editing", "SEO Writing"]
    ensures !PassesSchedule(FullTimeOnly, job)
  {
    PartTimeRemoteLowerVsFullTime();
    FullTimeOnlyKeys();
    ScheduleByKey(FullTimeOnly, "fulltime", job);
  }

  /** Posting 11 under the working-schedule filter PartTimeOnly. */
  lemma Posting11PartTime(job: Job)
    requires job.title == "Content Writer" && job.company == "LinkedIn"
    requires job.jobType == "Part-time remote" && job.skills == ["Copywriting", "Editing", "SEO Writing"]
    ensures PassesSchedule(PartTimeOnly, job)
  {
    PartTimeRemoteLowerVsPartTime();
    PartTimeOnlyKeys();
    ScheduleByKey(PartTimeOnly, "parttime", job);
  }

  /** Posting 12 under category "HR". */
  lemma Posting12HR(job: Job)
    requires job.title == "Graphic Designer" && job.company == "Canva"
    requires job.jobType == "Full-time remote" && job.skills == ["Photoshop", "Illustrator", "InDesign"]
    ensures !PassesCategory("HR", job)
  {
    GraphicDesignerVsHR();
    PhotoshopVsHRRule();
    IllustratorVsHRRule();
    InDesignVsHRRule();
    MissesCategory("HR", job);
  }

  /** Posting 12 under category "Developer". */
  lemma Posting12Developer(job: Job)
    requires job.title == "Graphic Designer" && job.company == "Canva"
    requires job.jobType == "Full-time remote" && job.skills == ["Photoshop", "Illustrator", "InDesign"]
    ensures !PassesCategory("Developer", job)
  {
    GraphicDesignerVsDeveloper();
    MissesCategory("Developer", job);
  }

  /** Posting 12 under category "Designer". */
  lemma Posting12Designer(job: Job)
    requires job.title == "Graphic Designer" && job.company == "Canva"
    requires job.jobType == "Full-time remote" && job.skills == ["Photoshop", "Illustrator", "InDesign"]
    ensures PassesCategory("Designer", job)
  {
    GraphicDesignerVsDesigner();
  }

  /** Posting 12 under category "SEO". */
  lemma Posting12Seo(job: Job)
    requires job.title == "Graphic Designer" && job.company == "Canva"
    requires job.jobType == "Full-time remote" && job.skills == ["Photoshop", "Illustrator", "InDesign"]
    ensures !PassesCategory("SEO", job)
  {
    GraphicDesignerVsSEO();
    PhotoshopVsSeoRule();
    IllustratorVsSeoRule();
    InDesignVsSeoRule();
    MissesCategory("SEO", job);
  }

  /** Posting 12 under category "Marketing". */
  lemma Posting12Marketing(job: Job)
    requires job.title == "Graphic Designer" && job.company == "Canva"
    requires job.jobType == "Full-time remote" && job.skills == ["Photoshop", "Illustrator", "InDesign"]
    ensures !PassesCategory("Marketing", job)
  {
    GraphicDesignerVsMarketing();
    PhotoshopVsMarketingRule();
    IllustratorVsMarketingRule();
    InDesignVsMarketingRule();
    MissesCategory("Marketing", job);
  }

  /** Posting 12 under category "Data Entry". */
  lemma Posting12DataEntry(job: Job)
    requires job.title == "Graphic Designer" && job.company == "Canva"
    requires job.jobType == "Full-time remote" && job.skills == ["Photoshop", "Illustrator", "InDesign"]
    ensures !PassesCategory("Data Entry", job)
  {
    GraphicDesignerVsDataEntry();
    PhotoshopVsDataEntryRule();
    IllustratorVsDataEntryRule();
    InDesignVsDataEntryRule();
    MissesCategory("Data Entry", job);
  }

  /** Posting 12 under the search for "react". */
  lemma Posting12Search(job: Job)
    requires job.title == "Graphic Designer" && job.company == "Canva"
    requires job.jobType == "Full-time remote" && job.skills == ["Photoshop", "Illustrator", "InDesign"]
    ensures !PassesSearch("react", job)
  {
    assert Lower("react") == "react";
    GraphicDesignerLowerVsReact();
    CanvaLowerVsReact();
    PhotoshopLowerVsReact();
    IllustratorLowerVsReact();
    InDesignLowerVsReact();
    MissesSearch("react", job);
  }

  /** Posting 12 under the working-schedule filter FullTimeOnly. */
  lemma Posting12FullTime(job: Job)
    requires job.title == "Graphic Designer" && job.company == "Canva"
    requires job.jobType == "Full-time remote" && job.skills == ["Photoshop", "Illustrator", "InDesign"]
    ensures PassesSchedule(FullTimeOnly, job)
  {
    FullTimeRemoteLowerVsFullTime();
    FullTimeOnlyKeys();
    ScheduleByKey(FullTimeOnly, "fulltime", job);
  }

  /** Posting 12 under the working-schedule filter PartTimeOnly. */
  lemma Posting12PartTime(job: Job)
    requires job.title == "Graphic Designer" && job.company == "Canva"
    requires job.jobType == "Full-time remote" && job.skills == ["Photoshop", "Illustrator", "InDesign"]
    ensures !PassesSchedule(PartTimeOnly, job)
  {
    FullTimeRemoteLowerVsPartTime();
    PartTimeOnlyKeys();
    ScheduleByKey(PartTimeOnly, "parttime", job);
  }
}
