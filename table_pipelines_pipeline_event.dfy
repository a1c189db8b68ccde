/** `databricks_pipelines_pipeline_event`: the events of every pipeline,
    listed once per parent pipeline row with the in-loop token check; each
    row is the event paired with its pipeline's id. */
module PipelinesPipelineEvent {
  import opened Wrappers
  import opened Framework
  import opened Paging
  import opened Cursors
  import opened Tables

  datatype ListPipelineEventsRequest = ListPipelineEventsRequest(maxResults: int, pipelineId: string)

  /** `pipelineEventInfo`: an event and the id of the pipeline it came from. */
  datatype PipelineEventInfo<+E> = PipelineEventInfo(event: E, pipelineId: string)

  /** The `pipeline_id` qual names a pipeline other than the parent row's. */
  predicate OtherPipeline(d: QueryData, parentId: string) {
    EqualsQualString(d, "pipeline_id") != "" && EqualsQualString(d, "pipeline_id") != parentId
  }

  /** `MaxResults` is `min(int32(LIMIT), 1000)`; the pipeline is the parent. */
  function ListRequest(d: QueryData, parentId: string): (r: ListPipelineEventsRequest)
    ensures r.pipelineId == parentId
    ensures d.limit.None? ==> r.maxResults == 1000
    ensures d.limit.Some? ==> r.maxResults == Min(Int32Of(d.limit.value), 1000)
  {
    ListPipelineEventsRequest(PageSizeInt32(d.limit, 1000), parentId)
  }

  /** The rows a page of events yields: each event, in order, with the id. */
  function Tagged<E>(events: seq<E>, pipelineId: string): (rows: seq<PipelineEventInfo<E>>)
    ensures |rows| == |events|
    ensures forall i :: 0 <= i < |rows| ==> rows[i] == PipelineEventInfo(events[i], pipelineId)
  {
    seq(|events|, i requires 0 <= i < |events| => PipelineEventInfo(events[i], pipelineId))
  }

  /** The item function of the scan for the parent pipeline `pipelineId`. */
  function EventInfos<E>(pipelineId: string): TokenPage<E> -> seq<PipelineEventInfo<E>> {
    (page: TokenPage<E>) => Tagged(page.items, pipelineId)
  }

  /** `listPipelinesPipelineEvents` for the parent pipeline `parentId`. */
  method ListPipelinesPipelineEvents<E>(d: QueryData, parentId: string, conn: Connection,
                                        api: Request<ListPipelineEventsRequest, string> -> Result<TokenPage<E>, Error>,
                                        sink: RowSink<PipelineEventInfo<E>>, fuel: nat) returns (o: Outcome)
    modifies sink
    ensures OtherPipeline(d, parentId) ==> o == Done && sink.rows == old(sink.rows)
    ensures !OtherPipeline(d, parentId) && conn.ConnectFailed? ==> o == Failed(conn.err) && sink.rows == old(sink.rows)
    ensures !OtherPipeline(d, parentId) && conn.Connected? ==>
      Scanned(old(sink.rows), sink.rows, o,
              InLoopTrace(api, EventInfos(parentId), ListRequest(d, parentId), "", old(sink.Budget()), fuel))
  {
    if OtherPipeline(d, parentId) {
      return Done;
    }
    o := ListInLoop(conn, api, EventInfos(parentId), ListRequest(d, parentId), sink, fuel);
  }

  /** Every row of the scan for a parent carries that parent's id. */
  lemma RowsCarryParent<E>(d: QueryData, parentId: string,
                           api: Request<ListPipelineEventsRequest, string> -> Result<TokenPage<E>, Error>,
                           budget: Option<int>, fuel: nat)
    ensures forall x :: x in InLoopTrace(api, EventInfos(parentId), ListRequest(d, parentId), "", budget, fuel).rows ==>
              x.pipelineId == parentId
  {
    var good := (x: PipelineEventInfo<E>) => x.pipelineId == parentId;
    forall pg: TokenPage<E>, x: PipelineEventInfo<E> | x in EventInfos(parentId)(pg)
      ensures good(x)
    {
      var rows := Tagged(pg.items, parentId);
      var i :| 0 <= i < |rows| && rows[i] == x;
    }
    InLoopRowsSatisfy(api, EventInfos(parentId), ListRequest(d, parentId), "", budget, fuel, good);
  }

  /** Every request of the scan asks for the parent pipeline's events. */
  lemma RequestsNameParent<E>(d: QueryData, parentId: string,
                              api: Request<ListPipelineEventsRequest, string> -> Result<TokenPage<E>, Error>,
                              budget: Option<int>, fuel: nat)
    ensures var t := InLoopTrace(api, EventInfos(parentId), ListRequest(d, parentId), "", budget, fuel);
      forall i :: 0 <= i < |t.requests| ==> t.requests[i].params.pipelineId == parentId
  {
    InLoopSameParams(api, EventInfos(parentId), ListRequest(d, parentId), "", budget, fuel);
  }
}
