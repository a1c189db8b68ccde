/** `databricks_workspace_repo`: the Git folders of a workspace. The request
    carries its continuation token in a field named `NextPageToken`. */
module WorkspaceRepo {
  import opened Wrappers
  import opened Framework
  import opened Paging
  import opened Cursors
  import opened Tables

  /** No page size: the request has only the path prefix besides the token. */
  datatype ListReposRequest = ListReposRequest(pathPrefix: string)

  /** `PathPrefix` comes from the `path` qual. */
  function ListRequest(d: QueryData): (r: ListReposRequest)
    ensures r.pathPrefix == EqualsQualString(d, "path")
    ensures !HasEqualsQual(d, "path") ==> r.pathPrefix == ""
  {
    if EqualsQualString(d, "path") != "" then ListReposRequest(EqualsQualString(d, "path")) else ListReposRequest("")
  }

  /** `listWorkspaceRepos`. */
  method ListWorkspaceRepos<I>(d: QueryData, conn: Connection,
                               api: Request<ListReposRequest, string> -> Result<TokenPage<I>, Error>,
                               sink: RowSink<I>, fuel: nat) returns (o: Outcome)
    modifies sink
    ensures conn.ConnectFailed? ==> o == Failed(conn.err) && sink.rows == old(sink.rows)
    ensures conn.Connected? ==>
      Scanned(old(sink.rows), sink.rows, o, ScanTrace(api, TokenItems, NextByToken, ListRequest(d), "", old(sink.Budget()), 0, fuel))
  {
    o := ListPaged(conn, api, TokenItems, NextByToken, ListRequest(d), "", sink, fuel);
  }

  /** `getWorkspaceRepo`: no row for the id 0, which is also what a missing
      or non-integer `id` qual reads as. */
  function GetWorkspaceRepo<T>(d: QueryData, conn: Connection, api: Int64 -> Result<T, Error>): (r: GetOutcome<T>)
    ensures GetInt64Value(EqualsQual(d, "id")) == 0 ==> r == NoRow
    ensures !HasEqualsQual(d, "id") ==> r == NoRow
    ensures GetInt64Value(EqualsQual(d, "id")) != 0 && conn.ConnectFailed? ==> r == GetFailed(conn.err)
    ensures GetInt64Value(EqualsQual(d, "id")) != 0 && conn.Connected? ==>
              r == FromResult(api(GetInt64Value(EqualsQual(d, "id"))))
  {
    GetByKey<Int64, T>(GetInt64Value(EqualsQual(d, "id")), 0, conn, api)
  }
}
