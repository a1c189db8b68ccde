/** `databricks_iam_user`: the users of a workspace, listed through SCIM; a
    page is the last when the server's `itemsPerPage` is below `Count`. */
module IamUser {
  import opened Wrappers
  import opened Framework
  import opened Paging
  import opened Cursors
  import opened Tables
  import opened Utils
  import AccountUser
  import IamAccountUser

  /** `listIAMUsers`: the request of `listAccountUsers`, sent to the
      workspace's SCIM endpoint, whose response carries `itemsPerPage`. */
  method ListIAMUsers<I>(d: QueryData, conn: Connection,
                         api: Request<ScimParams, int> -> Result<ScimResponse<I>, Error>,
                         sink: RowSink<I>, fuel: nat) returns (o: Outcome)
    modifies sink
    ensures conn.ConnectFailed? ==> o == Failed(conn.err) && sink.rows == old(sink.rows)
    ensures conn.Connected? ==>
      Scanned(old(sink.rows), sink.rows, o,
              ScanTrace(api, ScimResources, NextStartIndexByItemsPerPage, AccountUser.ListRequest(d), 1, old(sink.Budget()), 0, fuel))
  {
    o := ListPaged(conn, api, ScimResources, NextStartIndexByItemsPerPage, AccountUser.ListRequest(d), 1, sink, fuel);
  }

  /** `getIAMUser` under its get config, which ignores "SCIM_404". */
  function GetIAMUser<T>(d: QueryData, conn: Connection, api: string -> Result<T, Error>): (r: GetOutcome<T>)
    ensures EqualsQualString(d, "id") == "" ==> r == NoRow
    ensures EqualsQualString(d, "id") != "" && conn.Connected? && api(EqualsQualString(d, "id")).Success? ==>
              r == Row(api(EqualsQualString(d, "id")).value)
    ensures EqualsQualString(d, "id") != "" && conn.Connected? && api(EqualsQualString(d, "id")).Failure? ==>
              r == (if NotFoundMatch(IamAccountUser.ScimNotFound(), api(EqualsQualString(d, "id")).error.message) then NoRow
                    else GetFailed(api(EqualsQualString(d, "id")).error))
    ensures EqualsQualString(d, "id") != "" && conn.ConnectFailed? ==>
              r == (if NotFoundMatch(IamAccountUser.ScimNotFound(), conn.err.message) then NoRow else GetFailed(conn.err))
  {
    IamAccountUser.GetIAMAccountUser(d, conn, api)
  }
}
