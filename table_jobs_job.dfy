/** `databricks_jobs_job`: the jobs of a workspace, with tasks expanded. */
module JobsJob {
  import opened Wrappers
  import opened Framework
  import opened Paging
  import opened Cursors
  import opened Tables
  import Job

  /** The same request as the `databricks_job` table builds. */
  function ListRequest(d: QueryData): (r: Job.ListJobsRequest)
    ensures d.limit.None? ==> r.limit == 100
    ensures d.limit.Some? ==> r.limit == Min(Int32Of(d.limit.value), 100)
    ensures r.expandTasks
    ensures r.name == EqualsQualString(d, "name")
  {
    var request := Job.ListJobsRequest(PageSizeInt32(d.limit, 100), true, "");
    if EqualsQualString(d, "name") != "" then request.(name := EqualsQualString(d, "name")) else request
  }

  /** `listJobsJobs`. */
  method ListJobsJobs<I>(d: QueryData, conn: Connection,
                         api: Request<Job.ListJobsRequest, string> -> Result<HasMorePage<I>, Error>,
                         sink: RowSink<I>, fuel: nat) returns (o: Outcome)
    modifies sink
    ensures conn.ConnectFailed? ==> o == Failed(conn.err) && sink.rows == old(sink.rows)
    ensures conn.Connected? ==>
      Scanned(old(sink.rows), sink.rows, o, ScanTrace(api, HasMoreItems, NextByHasMore, ListRequest(d), "", old(sink.Budget()), 0, fuel))
  {
    o := ListPaged(conn, api, HasMoreItems, NextByHasMore, ListRequest(d), "", sink, fuel);
  }

  /** `getJobsJob`: reads only the `job_id` qual and takes no hydrated row,
      so the hydrate that fills `trigger_history` for listed rows, where no
      `job_id` qual is given, finds nothing. */
  function GetJobsJob<T>(d: QueryData, conn: Connection, api: Int64 -> Result<T, Error>): (r: GetOutcome<T>)
    ensures GetInt64Value(EqualsQual(d, "job_id")) == 0 ==> r == NoRow
    ensures !HasEqualsQual(d, "job_id") ==> r == NoRow
    ensures GetInt64Value(EqualsQual(d, "job_id")) != 0 && conn.ConnectFailed? ==> r == GetFailed(conn.err)
    ensures GetInt64Value(EqualsQual(d, "job_id")) != 0 && conn.Connected? ==>
              r == FromResult(api(GetInt64Value(EqualsQual(d, "job_id"))))
  {
    GetByKey<Int64, T>(GetInt64Value(EqualsQual(d, "job_id")), 0, conn, api)
  }
}
