/** `databricks_pipelines_pipeline`: the Delta Live Tables pipelines of a
    workspace, listed page by page with a continuation token. */
module PipelinesPipeline {
  import opened Wrappers
  import opened Framework
  import opened Paging
  import opened Cursors
  import opened Tables

  datatype ListPipelinesRequest = ListPipelinesRequest(maxResults: int)

  /** The list request before any page token: `MaxResults` is the smaller
      of 100 and the query's `LIMIT` after its conversion to `int32`. */
  function ListRequest(d: QueryData): (r: ListPipelinesRequest)
    ensures d.limit.None? ==> r.maxResults == 100
    ensures d.limit.Some? ==> r.maxResults == Min(Int32Of(d.limit.value), 100)
    ensures d.limit.Some? && IsInt32(d.limit.value) ==> r.maxResults == Min(d.limit.value, 100)
  {
    ListPipelinesRequest(PageSizeInt32(d.limit, 100))
  }

  /** `listPipelinesPipelines`. */
  method ListPipelinesPipelines<I>(d: QueryData, conn: Connection,
                                   api: Request<ListPipelinesRequest, string> -> Result<TokenPage<I>, Error>,
                                   sink: RowSink<I>, fuel: nat) returns (o: Outcome)
    modifies sink
    ensures conn.ConnectFailed? ==> o == Failed(conn.err) && sink.rows == old(sink.rows)
    ensures conn.Connected? ==>
      Scanned(old(sink.rows), sink.rows, o, ScanTrace(api, TokenItems, NextByToken, ListRequest(d), "", old(sink.Budget()), 0, fuel))
  {
    o := ListPaged(conn, api, TokenItems, NextByToken, ListRequest(d), "", sink, fuel);
  }

  /** The values `getPipelineId` can be given: the list's row type, the get
      call's row type, or anything else. */
  datatype PipelineItem = PipelineStateInfo(pipelineId: string) | GetPipelineResponse(pipelineId: string) | OtherItem

  /** `getPipelineId`. */
  function GetPipelineId(item: PipelineItem): (id: string)
    ensures item.OtherItem? ==> id == ""
    ensures item.PipelineStateInfo? || item.GetPipelineResponse? ==> id == item.pipelineId
  {
    match item
    case PipelineStateInfo(id) => id
    case GetPipelineResponse(id) => id
    case OtherItem => ""
  }

  /** `getPipelinesPipeline`: the id comes from the hydrated row when there
      is one, else from the `pipeline_id` qual; an empty id gives no row
      and contacts nobody. */
  function GetPipelinesPipeline<T>(d: QueryData, h: Option<PipelineItem>, conn: Connection,
                                   api: string -> Result<T, Error>): (r: GetOutcome<T>)
    ensures h.Some? && h.value.OtherItem? ==> r == NoRow
    ensures h.None? && EqualsQualString(d, "pipeline_id") == "" ==> r == NoRow
    ensures var id := if h.Some? then GetPipelineId(h.value) else EqualsQualString(d, "pipeline_id");
            r == NoRow <==> id == ""
    ensures var id := if h.Some? then GetPipelineId(h.value) else EqualsQualString(d, "pipeline_id");
            id != "" && conn.ConnectFailed? ==> r == GetFailed(conn.err)
    ensures var id := if h.Some? then GetPipelineId(h.value) else EqualsQualString(d, "pipeline_id");
            id != "" && conn.Connected? ==> r == FromResult(api(id))
    ensures h.Some? && !h.value.OtherItem? && h.value.pipelineId != "" && conn.Connected? ==>
              r == FromResult(api(h.value.pipelineId))
  {
    GetByKey(if h.Some? then GetPipelineId(h.value) else EqualsQualString(d, "pipeline_id"), "", conn, api)
  }

  /** A hydrated row decides the id: the quals then play no part. */
  lemma HydratedRowDecides<T>(d1: QueryData, d2: QueryData, item: PipelineItem, conn: Connection, api: string -> Result<T, Error>)
    ensures GetPipelinesPipeline(d1, Some(item), conn, api) == GetPipelinesPipeline(d2, Some(item), conn, api)
  {
  }
}
