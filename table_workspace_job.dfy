/** `databricks_workspace_job`: the jobs of a workspace, tasks not expanded. */
module WorkspaceJob {
  import opened Wrappers
  import opened Framework
  import opened Paging
  import opened Cursors
  import opened Tables
  import Job

  /** `ExpandTasks` is left false here. */
  function ListRequest(d: QueryData): (r: Job.ListJobsRequest)
    ensures d.limit.None? ==> r.limit == 100
    ensures d.limit.Some? ==> r.limit == Min(Int32Of(d.limit.value), 100)
    ensures !r.expandTasks
    ensures r.name == EqualsQualString(d, "name")
  {
    var request := Job.ListJobsRequest(PageSizeInt32(d.limit, 100), false, "");
    if EqualsQualString(d, "name") != "" then request.(name := EqualsQualString(d, "name")) else request
  }

  /** `listWorkspaceJobs`. */
  method ListWorkspaceJobs<I>(d: QueryData, conn: Connection,
                              api: Request<Job.ListJobsRequest, string> -> Result<HasMorePage<I>, Error>,
                              sink: RowSink<I>, fuel: nat) returns (o: Outcome)
    modifies sink
    ensures conn.ConnectFailed? ==> o == Failed(conn.err) && sink.rows == old(sink.rows)
    ensures conn.Connected? ==>
      Scanned(old(sink.rows), sink.rows, o, ScanTrace(api, HasMoreItems, NextByHasMore, ListRequest(d), "", old(sink.Budget()), 0, fuel))
  {
    o := ListPaged(conn, api, HasMoreItems, NextByHasMore, ListRequest(d), "", sink, fuel);
  }

  /** `getWorkspaceJob`: the `job_id` qual alone; no row for 0. */
  function GetWorkspaceJob<T>(d: QueryData, conn: Connection, api: Int64 -> Result<T, Error>): (r: GetOutcome<T>)
    ensures GetInt64Value(EqualsQual(d, "job_id")) == 0 ==> r == NoRow
    ensures GetInt64Value(EqualsQual(d, "job_id")) != 0 && conn.ConnectFailed? ==> r == GetFailed(conn.err)
    ensures GetInt64Value(EqualsQual(d, "job_id")) != 0 && conn.Connected? ==>
              r == FromResult(api(GetInt64Value(EqualsQual(d, "job_id"))))
  {
    GetByKey<Int64, T>(GetInt64Value(EqualsQual(d, "job_id")), 0, conn, api)
  }
}
