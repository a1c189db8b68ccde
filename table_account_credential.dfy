/** `databricks_account_credential`: the credential configurations of an
    account, listed in one call; the get takes the id or the name. */
module AccountCredential {
  import opened Wrappers
  import opened Framework
  import opened Paging
  import opened Tables

  /** The get key columns: any of `credentials_id` and `credentials_name`. */
  function GetKeyColumns(): set<string> {
    {"credentials_id", "credentials_name"}
  }

  /** `listAccountCredentials`: one `List` call, which takes no request. */
  method ListAccountCredentials<I>(conn: Connection, api: () -> Result<seq<I>, Error>, sink: RowSink<I>) returns (o: Outcome)
    modifies sink
    ensures conn.ConnectFailed? ==> o == Failed(conn.err) && sink.rows == old(sink.rows)
    ensures conn.Connected? && api().Failure? ==> o == Failed(api().error) && sink.rows == old(sink.rows)
    ensures conn.Connected? && api().Success? ==>
              o == Done && sink.rows == old(sink.rows) + Streamed(api().value, old(sink.Budget()))
  {
    o := ListOnce(conn, (u: ()) => api(), (), sink);
  }

  /** `getAccountCredential` as written: by the `credentials_id` qual, else
      by the `name` qual. */
  function GetAccountCredential<T>(d: QueryData, conn: Connection,
                                   byId: string -> Result<T, Error>, byName: string -> Result<T, Error>): (r: GetOutcome<T>)
    ensures conn.ConnectFailed? ==> r == GetFailed(conn.err)
    ensures conn.Connected? && HasEqualsQual(d, "credentials_id") ==>
              r == FromResult(byId(EqualsQualString(d, "credentials_id")))
    ensures conn.Connected? && !HasEqualsQual(d, "credentials_id") && HasEqualsQual(d, "name") ==>
              r == FromResult(byName(EqualsQualString(d, "name")))
    ensures r == NoRow <==> conn.Connected? && !HasEqualsQual(d, "credentials_id") && !HasEqualsQual(d, "name")
  {
    GetByEither(conn, StringKey(d, "credentials_id"), StringKey(d, "name"), byId, byName)
  }

  /** `name` is not a key column, so the name is never asked for: a get by
      `credentials_name` alone returns no row. */
  lemma GetByNameFindsNothing<T>(d: QueryData, conn: Connection,
                                 byId: string -> Result<T, Error>, byName: string -> Result<T, Error>)
    requires QualsOnlyOn(d, GetKeyColumns())
    requires !HasEqualsQual(d, "credentials_id")
    ensures conn.Connected? ==> GetAccountCredential(d, conn, byId, byName) == NoRow
  {
    assert !HasEqualsQual(d, "name");
  }

  /** The get evidently intended: by `credentials_id`, else by
      `credentials_name`. */
  function IntendedGetAccountCredential<T>(d: QueryData, conn: Connection,
                                           byId: string -> Result<T, Error>, byName: string -> Result<T, Error>)
    : (r: GetOutcome<T>)
    ensures conn.Connected? && HasEqualsQual(d, "credentials_id") ==>
              r == FromResult(byId(EqualsQualString(d, "credentials_id")))
    ensures conn.Connected? && !HasEqualsQual(d, "credentials_id") && HasEqualsQual(d, "credentials_name") ==>
              r == FromResult(byName(EqualsQualString(d, "credentials_name")))
    ensures QualsOnlyOn(d, GetKeyColumns()) && d.equalsQuals.Keys != {} ==> r != NoRow
  {
    GetByEither(conn, StringKey(d, "credentials_id"), StringKey(d, "credentials_name"), byId, byName)
  }
}
