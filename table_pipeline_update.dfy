/** `databricks_pipeline_update`: the updates of every pipeline, listed
    once per parent pipeline row. */
module PipelineUpdate {
  import opened Wrappers
  import opened Framework
  import opened Paging
  import opened Cursors
  import opened Tables

  datatype ListUpdatesRequest = ListUpdatesRequest(maxResults: int, pipelineId: string)

  /** The `pipeline_id` qual names a pipeline other than the parent row's. */
  predicate OtherPipeline(d: QueryData, parentId: string) {
    EqualsQualString(d, "pipeline_id") != "" && EqualsQualString(d, "pipeline_id") != parentId
  }

  /** The list request for the parent pipeline: `MaxResults` is
      `min(int32(LIMIT), 100)`. */
  function ListRequest(d: QueryData, parentId: string): (r: ListUpdatesRequest)
    ensures r.pipelineId == parentId
    ensures d.limit.None? ==> r.maxResults == 100
    ensures d.limit.Some? ==> r.maxResults == Min(Int32Of(d.limit.value), 100)
    ensures d.limit.Some? && IsInt32(d.limit.value) ==> r.maxResults == Min(d.limit.value, 100)
  {
    ListUpdatesRequest(PageSizeInt32(d.limit, 100), parentId)
  }

  /** `listPipelineUpdates` for the parent pipeline `parentId`. */
  method ListPipelineUpdates<I>(d: QueryData, parentId: string, conn: Connection,
                                api: Request<ListUpdatesRequest, string> -> Result<TokenPage<I>, Error>,
                                sink: RowSink<I>, fuel: nat) returns (o: Outcome)
    modifies sink
    ensures OtherPipeline(d, parentId) ==> o == Done && sink.rows == old(sink.rows)
    ensures !OtherPipeline(d, parentId) && conn.ConnectFailed? ==> o == Failed(conn.err) && sink.rows == old(sink.rows)
    ensures !OtherPipeline(d, parentId) && conn.Connected? ==>
      Scanned(old(sink.rows), sink.rows, o,
              ScanTrace(api, TokenItems, NextByToken, ListRequest(d, parentId), "", old(sink.Budget()), 0, fuel))
  {
    if OtherPipeline(d, parentId) {
      return Done;
    }
    o := ListPaged(conn, api, TokenItems, NextByToken, ListRequest(d, parentId), "", sink, fuel);
  }

  /** Every request of the scan asks for the parent pipeline's updates. */
  lemma RequestsNameParent<I>(d: QueryData, parentId: string,
                              api: Request<ListUpdatesRequest, string> -> Result<TokenPage<I>, Error>,
                              budget: Option<int>, fuel: nat)
    ensures var t := ScanTrace(api, TokenItems, NextByToken, ListRequest(d, parentId), "", budget, 0, fuel);
      forall i :: 0 <= i < |t.requests| ==> t.requests[i].params.pipelineId == parentId
  {
    SameParams(api, TokenItems, NextByToken, ListRequest(d, parentId), "", budget, 0, fuel);
  }

  /** `getPipelineUpdate`: both keys are needed. */
  function GetPipelineUpdate<T>(d: QueryData, conn: Connection, api: (string, string) -> Result<T, Error>): (r: GetOutcome<T>)
    ensures EqualsQualString(d, "pipeline_id") == "" || EqualsQualString(d, "update_id") == "" ==> r == NoRow
    ensures EqualsQualString(d, "pipeline_id") != "" && EqualsQualString(d, "update_id") != "" && conn.ConnectFailed? ==>
              r == GetFailed(conn.err)
    ensures EqualsQualString(d, "pipeline_id") != "" && EqualsQualString(d, "update_id") != "" && conn.Connected? ==>
              r == FromResult(api(EqualsQualString(d, "pipeline_id"), EqualsQualString(d, "update_id")))
  {
    var pipelineId := EqualsQualString(d, "pipeline_id");
    var updateId := EqualsQualString(d, "update_id");
    if pipelineId == "" || updateId == "" then NoRow
    else if conn.ConnectFailed? then GetFailed(conn.err)
    else FromResult(api(pipelineId, updateId))
  }
}
