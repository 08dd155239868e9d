/** The job posting record every page of the job board displays and filters. */
module Jobs {
  import opened Seqs

  /** One posting. All fields are display strings; `jobType` is the source's
      `type` field (for example "Full-time remote"), renamed because `type` is a
      keyword here. */
  datatype Job = Job(
    id: string,
    title: string,
    company: string,
    location: string,
    jobType: string,
    experience: string,
    salary: string,
    skills: seq<string>,
    postedDate: string)

  /** The ids of a list of postings, in list order. */
  function Ids(jobs: seq<Job>): (r: seq<string>)
    ensures |r| == |jobs|
    ensures forall i :: 0 <= i < |jobs| ==> r[i] == jobs[i].id
  {
    seq(|jobs|, i requires 0 <= i < |jobs| => jobs[i].id)
  }

  /** No two postings share an id. */
  predicate DistinctIds(jobs: seq<Job>) {
    forall i, j :: 0 <= i < j < |jobs| ==> jobs[i].id != jobs[j].id
  }
}
