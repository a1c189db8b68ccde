/** `databricks_iam_account_user`: the same SCIM listing of an account's
    users; its get config ignores the SCIM not-found error. */
module IamAccountUser {
  import opened Wrappers
  import opened Framework
  import opened Paging
  import opened Cursors
  import opened Tables
  import opened Utils
  import AccountUser

  /** The codes the get config's `ShouldIgnoreError` matches. */
  function ScimNotFound(): seq<string> {
    ["SCIM_404"]
  }

  /** `listIAMAccountUsers`: the request and the loop of `listAccountUsers`. */
  method ListIAMAccountUsers<I>(d: QueryData, conn: Connection,
                                api: Request<ScimParams, int> -> Result<seq<I>, Error>,
                                sink: RowSink<I>, fuel: nat) returns (o: Outcome)
    modifies sink
    ensures conn.ConnectFailed? ==> o == Failed(conn.err) && sink.rows == old(sink.rows)
    ensures conn.Connected? ==>
      Scanned(old(sink.rows), sink.rows, o,
              ScanTrace(api, PlainItems, NextStartIndex, AccountUser.ListRequest(d), 1, old(sink.Budget()), 0, fuel))
  {
    o := ListPaged(conn, api, PlainItems, NextStartIndex, AccountUser.ListRequest(d), 1, sink, fuel);
  }

  /** `getIAMAccountUser` under its get config: no row for an empty `id`;
      an error whose message holds "SCIM_404" also gives no row. */
  function GetIAMAccountUser<T>(d: QueryData, conn: Connection, api: string -> Result<T, Error>): (r: GetOutcome<T>)
    ensures EqualsQualString(d, "id") == "" ==> r == NoRow
    ensures EqualsQualString(d, "id") != "" && conn.Connected? && api(EqualsQualString(d, "id")).Success? ==>
              r == Row(api(EqualsQualString(d, "id")).value)
    ensures EqualsQualString(d, "id") != "" && conn.Connected? && api(EqualsQualString(d, "id")).Failure? ==>
              r == (if NotFoundMatch(ScimNotFound(), api(EqualsQualString(d, "id")).error.message) then NoRow
                    else GetFailed(api(EqualsQualString(d, "id")).error))
    ensures EqualsQualString(d, "id") != "" && conn.ConnectFailed? ==>
              r == (if NotFoundMatch(ScimNotFound(), conn.err.message) then NoRow else GetFailed(conn.err))
    ensures r.GetFailed? ==> !NotFoundMatch(ScimNotFound(), r.err.message)
  {
    IgnoreNotFound(ScimNotFound(), AccountUser.GetAccountUser(d, conn, api))
  }
}
