/** `databricks_workspace_pipeline`: the Delta Live Tables pipelines again,
    listed with the in-loop token check. */
module WorkspacePipeline {
  import opened Wrappers
  import opened Framework
  import opened Paging
  import opened Cursors
  import opened Tables
  import PipelinesPipeline

  /** `listWorkspacePipelines`: the request of `listPipelinesPipelines`
      (`MaxResults` is `min(int32(LIMIT), 100)`), scanned with the in-loop
      check. */
  method ListWorkspacePipelines<I>(d: QueryData, conn: Connection,
                                   api: Request<PipelinesPipeline.ListPipelinesRequest, string> -> Result<TokenPage<I>, Error>,
                                   sink: RowSink<I>, fuel: nat) returns (o: Outcome)
    modifies sink
    ensures conn.ConnectFailed? ==> o == Failed(conn.err) && sink.rows == old(sink.rows)
    ensures conn.Connected? ==>
      Scanned(old(sink.rows), sink.rows, o,
              InLoopTrace(api, TokenItems, PipelinesPipeline.ListRequest(d), "", old(sink.Budget()), fuel))
  {
    o := ListInLoop(conn, api, TokenItems, PipelinesPipeline.ListRequest(d), sink, fuel);
  }

  /** `getWorkspacePipeline`: no row for an empty `pipeline_id`. */
  function GetWorkspacePipeline<T>(d: QueryData, conn: Connection, api: string -> Result<T, Error>): (r: GetOutcome<T>)
    ensures EqualsQualString(d, "pipeline_id") == "" ==> r == NoRow
    ensures EqualsQualString(d, "pipeline_id") != "" && conn.ConnectFailed? ==> r == GetFailed(conn.err)
    ensures EqualsQualString(d, "pipeline_id") != "" && conn.Connected? ==>
              r == FromResult(api(EqualsQualString(d, "pipeline_id")))
  {
    GetByKey(EqualsQualString(d, "pipeline_id"), "", conn, api)
  }
}
