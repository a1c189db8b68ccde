/** `databricks_workspace_job_run`: the runs of the jobs of a workspace. */
module WorkspaceJobRun {
  import opened Wrappers
  import opened Framework
  import opened Paging
  import opened Cursors
  import opened Tables

  datatype ListRunsRequest = ListRunsRequest(limit: int, expandTasks: bool, jobId: Int64, runType: string)

  /** The list request: `Limit` is `min(int32(LIMIT), 25)`, tasks are
      expanded, and `JobId` and `RunType` are copied whenever their quals
      are present, whatever their value. */
  function ListRequest(d: QueryData): (r: ListRunsRequest)
    ensures d.limit.None? ==> r.limit == 25
    ensures d.limit.Some? ==> r.limit == Min(Int32Of(d.limit.value), 25)
    ensures r.expandTasks
    ensures HasEqualsQual(d, "job_id") ==> r.jobId == GetInt64Value(EqualsQual(d, "job_id"))
    ensures !HasEqualsQual(d, "job_id") ==> r.jobId == 0
    ensures HasEqualsQual(d, "run_type") ==> r.runType == EqualsQualString(d, "run_type")
    ensures !HasEqualsQual(d, "run_type") ==> r.runType == ""
  {
    var request := ListRunsRequest(PageSizeInt32(d.limit, 25), true, 0, "");
    var request := if HasEqualsQual(d, "job_id") then request.(jobId := GetInt64Value(EqualsQual(d, "job_id"))) else request;
    if HasEqualsQual(d, "run_type") then request.(runType := EqualsQualString(d, "run_type")) else request
  }

  /** `listWorkspaceJobRuns`. */
  method ListWorkspaceJobRuns<I>(d: QueryData, conn: Connection,
                                 api: Request<ListRunsRequest, string> -> Result<HasMorePage<I>, Error>,
                                 sink: RowSink<I>, fuel: nat) returns (o: Outcome)
    modifies sink
    ensures conn.ConnectFailed? ==> o == Failed(conn.err) && sink.rows == old(sink.rows)
    ensures conn.Connected? ==>
      Scanned(old(sink.rows), sink.rows, o, ScanTrace(api, HasMoreItems, NextByHasMore, ListRequest(d), "", old(sink.Budget()), 0, fuel))
  {
    o := ListPaged(conn, api, HasMoreItems, NextByHasMore, ListRequest(d), "", sink, fuel);
  }

  /** `getWorkspaceJobRun`: no row for the run id 0. */
  function GetWorkspaceJobRun<T>(d: QueryData, conn: Connection, api: Int64 -> Result<T, Error>): (r: GetOutcome<T>)
    ensures GetInt64Value(EqualsQual(d, "run_id")) == 0 ==> r == NoRow
    ensures GetInt64Value(EqualsQual(d, "run_id")) != 0 && conn.ConnectFailed? ==> r == GetFailed(conn.err)
    ensures GetInt64Value(EqualsQual(d, "run_id")) != 0 && conn.Connected? ==>
              r == FromResult(api(GetInt64Value(EqualsQual(d, "run_id"))))
  {
    GetByKey<Int64, T>(GetInt64Value(EqualsQual(d, "run_id")), 0, conn, api)
  }
}
