/** `databricks_job`: the jobs of a workspace, listed while the API says it
    has more, with their permissions hydrated per row. */
module Job {
  import opened Wrappers
  import opened Framework
  import opened Paging
  import opened Cursors
  import opened Tables
  import opened Strconv

  /** `jobs.ListJobsRequest`, shared by the job tables. */
  datatype ListJobsRequest = ListJobsRequest(limit: int, expandTasks: bool, name: string)

  /** `iam.GetPermissionRequest`. */
  datatype PermissionRequest = PermissionRequest(requestObjectId: string, requestObjectType: string)

  /** The list request: `Limit` is `min(int32(LIMIT), 100)`, tasks are
      expanded, and the name comes from its qual. */
  function ListRequest(d: QueryData): (r: ListJobsRequest)
    ensures d.limit.None? ==> r.limit == 100
    ensures d.limit.Some? ==> r.limit == Min(Int32Of(d.limit.value), 100)
    ensures d.limit.Some? && IsInt32(d.limit.value) ==> r.limit == Min(d.limit.value, 100)
    ensures r.expandTasks
    ensures r.name == EqualsQualString(d, "name")
  {
    var request := ListJobsRequest(PageSizeInt32(d.limit, 100), true, "");
    if EqualsQualString(d, "name") != "" then request.(name := EqualsQualString(d, "name")) else request
  }

  /** `listJobs`; the client comes from `getWorkspaceClient`. */
  method ListJobs<I>(d: QueryData, conn: Connection,
                     api: Request<ListJobsRequest, string> -> Result<HasMorePage<I>, Error>,
                     sink: RowSink<I>, fuel: nat) returns (o: Outcome)
    modifies sink
    ensures conn.ConnectFailed? ==> o == Failed(conn.err) && sink.rows == old(sink.rows)
    ensures conn.Connected? ==>
      Scanned(old(sink.rows), sink.rows, o, ScanTrace(api, HasMoreItems, NextByHasMore, ListRequest(d), "", old(sink.Budget()), 0, fuel))
  {
    o := ListPaged(conn, api, HasMoreItems, NextByHasMore, ListRequest(d), "", sink, fuel);
  }

  /** The values `getJobId` can be given. */
  datatype JobItem = JobValue(jobId: Int64) | BaseJob(jobId: Int64) | OtherItem

  /** `getJobId`: the job id of a job, 0 for anything else. */
  function GetJobId(item: JobItem): (id: Int64)
    ensures item.OtherItem? ==> id == 0
    ensures item.JobValue? || item.BaseJob? ==> id == item.jobId
  {
    match item
    case JobValue(id) => id
    case BaseJob(id) => id
    case OtherItem => 0
  }

  /** `getJob`: the id of the hydrated row, else the `job_id` qual; the id 0
      gives no row and contacts nobody. */
  function GetJob<T>(d: QueryData, h: Option<JobItem>, conn: Connection, api: Int64 -> Result<T, Error>): (r: GetOutcome<T>)
    ensures h.Some? && h.value.OtherItem? ==> r == NoRow
    ensures h.None? && GetInt64Value(EqualsQual(d, "job_id")) == 0 ==> r == NoRow
    ensures var id := if h.Some? then GetJobId(h.value) else GetInt64Value(EqualsQual(d, "job_id"));
            r == NoRow <==> id == 0
    ensures var id := if h.Some? then GetJobId(h.value) else GetInt64Value(EqualsQual(d, "job_id"));
            id != 0 && conn.ConnectFailed? ==> r == GetFailed(conn.err)
    ensures var id := if h.Some? then GetJobId(h.value) else GetInt64Value(EqualsQual(d, "job_id"));
            id != 0 && conn.Connected? ==> r == FromResult(api(id))
    ensures h.Some? && !h.value.OtherItem? && h.value.jobId != 0 && conn.Connected? ==> r == FromResult(api(h.value.jobId))
  {
    GetByKey<Int64, T>(if h.Some? then GetJobId(h.value) else GetInt64Value(EqualsQual(d, "job_id")), 0, conn, api)
  }

  /** The permission request for a row: the job id in base 10, object type
      "jobs"; the text parses back to the id. */
  function JobPermissionRequest(item: JobItem): (r: PermissionRequest)
    ensures r.requestObjectType == "jobs"
    ensures ParseInt(r.requestObjectId) == Some(GetJobId(item) as int)
  {
    ItoaRoundTrip(GetJobId(item));
    PermissionRequest(Itoa(GetJobId(item)), "jobs")
  }

  /** Rows with different job ids ask about different objects. */
  lemma PermissionRequestsDistinct(a: JobItem, b: JobItem)
    ensures JobPermissionRequest(a) == JobPermissionRequest(b) <==> GetJobId(a) == GetJobId(b)
  {
    ItoaInjective(GetJobId(a), GetJobId(b));
  }

  /** `getJobPermissions`: no zero-id check, so a row without a job id asks
      about the object "0". */
  function GetJobPermissions<T>(item: JobItem, conn: Connection, api: PermissionRequest -> Result<T, Error>): (r: GetOutcome<T>)
    ensures conn.ConnectFailed? ==> r == GetFailed(conn.err)
    ensures conn.Connected? ==> r == FromResult(api(JobPermissionRequest(item)))
    ensures item.OtherItem? && conn.Connected? ==> r == FromResult(api(PermissionRequest("0", "jobs")))
  {
    if conn.ConnectFailed? then GetFailed(conn.err) else FromResult(api(JobPermissionRequest(item)))
  }
}
