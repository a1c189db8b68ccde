/** `databricks_workspace_model`: the registered models of a workspace. */
module WorkspaceModel {
  import opened Wrappers
  import opened Framework
  import opened Paging
  import opened Cursors
  import opened Tables

  datatype ListModelsRequest = ListModelsRequest(maxResults: int)

  datatype GetModelRequest = GetModelRequest(name: string)

  /** `MaxResults` is `min(int32(LIMIT), 1000)`. */
  function ListRequest(d: QueryData): (r: ListModelsRequest)
    ensures d.limit.None? ==> r.maxResults == 1000
    ensures d.limit.Some? ==> r.maxResults == Min(Int32Of(d.limit.value), 1000)
    ensures d.limit.Some? && IsInt32(d.limit.value) ==> r.maxResults == Min(d.limit.value, 1000)
  {
    ListModelsRequest(PageSizeInt32(d.limit, 1000))
  }

  /** `listWorkspaceModels`. */
  method ListWorkspaceModels<I>(d: QueryData, conn: Connection,
                                api: Request<ListModelsRequest, string> -> Result<TokenPage<I>, Error>,
                                sink: RowSink<I>, fuel: nat) returns (o: Outcome)
    modifies sink
    ensures conn.ConnectFailed? ==> o == Failed(conn.err) && sink.rows == old(sink.rows)
    ensures conn.Connected? ==>
      Scanned(old(sink.rows), sink.rows, o, ScanTrace(api, TokenItems, NextByToken, ListRequest(d), "", old(sink.Budget()), 0, fuel))
  {
    o := ListPaged(conn, api, TokenItems, NextByToken, ListRequest(d), "", sink, fuel);
  }

  /** `getWorkspaceModel`: no row for an empty `name`. */
  function GetWorkspaceModel<T>(d: QueryData, conn: Connection, api: GetModelRequest -> Result<T, Error>): (r: GetOutcome<T>)
    ensures EqualsQualString(d, "name") == "" ==> r == NoRow
    ensures EqualsQualString(d, "name") != "" && conn.ConnectFailed? ==> r == GetFailed(conn.err)
    ensures EqualsQualString(d, "name") != "" && conn.Connected? ==>
              r == FromResult(api(GetModelRequest(EqualsQualString(d, "name"))))
  {
    GetByKey(EqualsQualString(d, "name"), "", conn, (name: string) => api(GetModelRequest(name)))
  }
}
