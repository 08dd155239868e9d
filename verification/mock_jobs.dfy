/** The fixed catalogue of twelve postings the job list is built from. */
module MockJobs {
  import opened Jobs

  const Job1: Job :=
    Job("1", "Senior UI/UX Designer", "Amazon", "Gurgaon (HQ)", "Full-time remote", "3-5 years",
    "₹ 6-8.5 LPA", ["Figma", "Adobe XD", "Sketch"], "01 May, 2023")

  const Job2: Job :=
    Job("2", "Frontend Developer", "Microsoft", "Noida (HQ)", "Part-time remote", "2-4 years",
    "₹ 5-7.5 LPA", ["React", "JavaScript", "TypeScript"], "02 May, 2023")

  const Job3: Job :=
    Job("3", "Backend Developer", "Google", "Bangalore (HQ)", "Hybrid remote", "3-5 years",
    "₹ 7-9 LPA", ["Node.js", "Express", "MongoDB"], "03 May, 2023")

  const Job4: Job :=
    Job("4", "Product Manager", "Apple", "Delhi (HQ)", "Full-time remote", "4-6 years",
    "₹ 8-12 LPA", ["Product Strategy", "Agile", "Roadmapping"], "04 May, 2023")

  const Job5: Job :=
    Job("5", "HR Manager", "Netflix", "Noida (HQ)", "Hybrid remote", "5-8 years",
    "₹ 9-14 LPA", ["Recruitment", "Employee Relations", "HRIS"], "05 May, 2023")

  const Job6: Job :=
    Job("6", "Data Analyst", "Facebook", "Gurgaon (HQ)", "Full-time remote", "2-4 years",
    "₹ 6-8 LPA", ["SQL", "Excel", "Tableau"], "06 May, 2023")

  const Job7: Job :=
    Job("7", "SEO Specialist", "Twitter", "Mumbai (HQ)", "Part-time remote", "2-3 years",
    "₹ 4-6 LPA", ["SEO Tools", "Google Analytics", "Content Strategy"], "07 May, 2023")

  const Job8: Job :=
    Job("8", "Marketing Manager", "Adobe", "Pune (HQ)", "Hybrid remote", "4-6 years",
    "₹ 7-10 LPA", ["Digital Marketing", "Brand Strategy", "Analytics"], "08 May, 2023")

  const Job9: Job :=
    Job("9", "Data Entry Specialist", "Oracle", "Chennai (HQ)", "Full-time remote", "1-2 years",
    "₹ 3-4.5 LPA", ["Excel", "Data Management", "Typing"], "09 May, 2023")

  const Job10: Job :=
    Job("10", "DevOps Engineer", "IBM", "Hyderabad (HQ)", "Full-time remote", "3-5 years",
    "₹ 7-10 LPA", ["Docker", "Kubernetes", "CI/CD"], "10 May, 2023")

  const Job11: Job :=
    Job("11", "Content Writer", "LinkedIn", "Bangalore (HQ)", "Part-time remote", "2-3 years",
    "₹ 4-6 LPA", ["Copywriting", "Editing", "SEO Writing"], "11 May, 2023")

  const Job12: Job :=
    Job("12", "Graphic Designer", "Canva", "Delhi (HQ)", "Full-time remote", "2-4 years",
    "₹ 5-7 LPA", ["Photoshop", "Illustrator", "InDesign"], "12 May, 2023")

  /** `MOCK_JOBS`, in source order. */
  const Catalogue: seq<Job> := [Job1, Job2, Job3, Job4, Job5, Job6, Job7, Job8, Job9, Job10, Job11, Job12]

  /** The catalogue lists twelve postings with ids "1" to "12" in order, each
      with three skills. */
  lemma CatalogueShape()
    ensures |Catalogue| == 12
    ensures Ids(Catalogue) == ["1", "2", "3", "4", "5", "6", "7", "8", "9", "10", "11", "12"]
    ensures forall i :: 0 <= i < |Catalogue| ==> |Catalogue[i].skills| == 3
  {
  }

  /** No two postings of the catalogue share an id. */
  lemma CatalogueIdsDistinct()
    ensures DistinctIds(Catalogue)
  {
    CatalogueShape();
    var ids := Ids(Catalogue);
    forall i, j | 0 <= i < j < |Catalogue|
      ensures Catalogue[i].id != Catalogue[j].id
    {
      assert ids[i] == Catalogue[i].id && ids[j] == Catalogue[j].id;
      assert |ids[i]| == 1 <==> i < 9;
    }
  }

  /** The first six positions of the catalogue hold postings 1 to 6. */
  lemma FirstHalfEntries()
    ensures |Catalogue| == 12
    ensures Catalogue[0] == Job1 && Catalogue[1] == Job2 && Catalogue[2] == Job3
    ensures Catalogue[3] == Job4 && Catalogue[4] == Job5 && Catalogue[5] == Job6
  {
  }

  /** The last six positions of the catalogue hold postings 7 to 12. */
  lemma SecondHalfEntries()
    ensures |Catalogue| == 12
    ensures Catalogue[6] == Job7 && Catalogue[7] == Job8 && Catalogue[8] == Job9
    ensures Catalogue[9] == Job10 && Catalogue[10] == Job11 && Catalogue[11] == Job12
  {
  }
}
