/** `databricks_workspace_alert`: the SQL alerts of a workspace, listed in
    one call; the get takes the alert's id or its name. */
module WorkspaceAlert {
  import opened Wrappers
  import opened Framework
  import opened Paging
  import opened Tables

  /** The get key columns: any of `id` and `name`. */
  function GetKeyColumns(): set<string> {
    {"id", "name"}
  }

  /** `listWorkspaceAlerts`: one `List` call, which takes no request. */
  method ListWorkspaceAlerts<I>(conn: Connection, api: () -> Result<seq<I>, Error>, sink: RowSink<I>) returns (o: Outcome)
    modifies sink
    ensures conn.ConnectFailed? ==> o == Failed(conn.err) && sink.rows == old(sink.rows)
    ensures conn.Connected? && api().Failure? ==> o == Failed(api().error) && sink.rows == old(sink.rows)
    ensures conn.Connected? && api().Success? ==>
              o == Done && sink.rows == old(sink.rows) + Streamed(api().value, old(sink.Budget()))
  {
    o := ListOnce(conn, (u: ()) => api(), (), sink);
  }

  /** `getWorkspaceAlert` as written: by the `alert_id` qual, else by the
      `name` qual. */
  function GetWorkspaceAlert<T>(d: QueryData, conn: Connection,
                                byId: string -> Result<T, Error>, byName: string -> Result<T, Error>): (r: GetOutcome<T>)
    ensures conn.ConnectFailed? ==> r == GetFailed(conn.err)
    ensures conn.Connected? && HasEqualsQual(d, "alert_id") ==> r == FromResult(byId(EqualsQualString(d, "alert_id")))
    ensures conn.Connected? && !HasEqualsQual(d, "alert_id") && HasEqualsQual(d, "name") ==>
              r == FromResult(byName(EqualsQualString(d, "name")))
    ensures r == NoRow <==> conn.Connected? && !HasEqualsQual(d, "alert_id") && !HasEqualsQual(d, "name")
  {
    GetByEither(conn, StringKey(d, "alert_id"), StringKey(d, "name"), byId, byName)
  }

  /** `alert_id` is not a key column, so the id is never asked for: a get
      by `id` alone returns no row, without contacting the alert API. */
  lemma GetByIdFindsNothing<T>(d: QueryData, conn: Connection,
                               byId: string -> Result<T, Error>, byName: string -> Result<T, Error>)
    requires QualsOnlyOn(d, GetKeyColumns())
    requires !HasEqualsQual(d, "name")
    ensures conn.Connected? ==> GetWorkspaceAlert(d, conn, byId, byName) == NoRow
  {
    assert !HasEqualsQual(d, "alert_id");
  }

  /** The get evidently intended: by the `id` key column, else by `name`. */
  function IntendedGetWorkspaceAlert<T>(d: QueryData, conn: Connection,
                                        byId: string -> Result<T, Error>, byName: string -> Result<T, Error>): (r: GetOutcome<T>)
    ensures conn.Connected? && HasEqualsQual(d, "id") ==> r == FromResult(byId(EqualsQualString(d, "id")))
    ensures conn.Connected? && !HasEqualsQual(d, "id") && HasEqualsQual(d, "name") ==>
              r == FromResult(byName(EqualsQualString(d, "name")))
    ensures QualsOnlyOn(d, GetKeyColumns()) && d.equalsQuals.Keys != {} ==> r != NoRow
  {
    GetByEither(conn, StringKey(d, "id"), StringKey(d, "name"), byId, byName)
  }
}
