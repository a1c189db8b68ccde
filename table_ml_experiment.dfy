/** `databricks_ml_experiment`: the MLflow experiments of a workspace. */
module MlExperiment {
  import opened Wrappers
  import opened Framework
  import opened Paging
  import opened Cursors
  import opened Tables

  /** `ml.SearchExperimentsViewType`. */
  datatype ViewType = All | ActiveOnly | DeletedOnly

  datatype ListExperimentsRequest = ListExperimentsRequest(maxResults: int, viewType: ViewType)

  /** The view type a `lifecycle_stage` qual selects. */
  function ViewTypeFor(stage: string): (v: ViewType)
    ensures v == ActiveOnly <==> stage == "active"
    ensures v == DeletedOnly <==> stage == "deleted"
    ensures v == All <==> stage != "active" && stage != "deleted"
  {
    if stage != "" then
      if stage == "active" then ActiveOnly
      else if stage == "deleted" then DeletedOnly
      else All
    else All
  }

  /** The list request: `MaxResults` is `min(int32(LIMIT), 1000)`; the view
      type follows the `lifecycle_stage` qual and is all experiments by default. */
  function ListRequest(d: QueryData): (r: ListExperimentsRequest)
    ensures d.limit.None? ==> r.maxResults == 1000
    ensures d.limit.Some? ==> r.maxResults == Min(Int32Of(d.limit.value), 1000)
    ensures d.limit.Some? && IsInt32(d.limit.value) ==> r.maxResults == Min(d.limit.value, 1000)
    ensures r.viewType == ViewTypeFor(EqualsQualString(d, "lifecycle_stage"))
    ensures !HasEqualsQual(d, "lifecycle_stage") ==> r.viewType == All
  {
    ListExperimentsRequest(PageSizeInt32(d.limit, 1000), ViewTypeFor(EqualsQualString(d, "lifecycle_stage")))
  }

  /** `listMLExperiments`. */
  method ListMLExperiments<I>(d: QueryData, conn: Connection,
                              api: Request<ListExperimentsRequest, string> -> Result<TokenPage<I>, Error>,
                              sink: RowSink<I>, fuel: nat) returns (o: Outcome)
    modifies sink
    ensures conn.ConnectFailed? ==> o == Failed(conn.err) && sink.rows == old(sink.rows)
    ensures conn.Connected? ==>
      Scanned(old(sink.rows), sink.rows, o, ScanTrace(api, TokenItems, NextByToken, ListRequest(d), "", old(sink.Budget()), 0, fuel))
  {
    o := ListPaged(conn, api, TokenItems, NextByToken, ListRequest(d), "", sink, fuel);
  }

  /** `getMLExperiment`: looks the experiment up by the `name` qual. */
  function GetMLExperiment<T>(d: QueryData, conn: Connection, api: string -> Result<T, Error>): (r: GetOutcome<T>)
    ensures EqualsQualString(d, "name") == "" ==> r == NoRow
    ensures EqualsQualString(d, "name") != "" && conn.ConnectFailed? ==> r == GetFailed(conn.err)
    ensures EqualsQualString(d, "name") != "" && conn.Connected? ==> r == FromResult(api(EqualsQualString(d, "name")))
  {
    GetByKey(EqualsQualString(d, "name"), "", conn, api)
  }

  /** The get key column is `experiment_id`, so the engine never supplies
      the `name` qual the get reads: a get finds nothing. */
  lemma GetByExperimentIdFindsNothing<T>(d: QueryData, conn: Connection, api: string -> Result<T, Error>)
    requires QualsOnlyOn(d, {"experiment_id"})
    ensures GetMLExperiment(d, conn, api) == NoRow
  {
    assert "name" !in d.equalsQuals;
  }
}
