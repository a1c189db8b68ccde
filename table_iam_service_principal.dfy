/** `databricks_iam_service_principal`: the service principals of a
    workspace, listed through SCIM with a filter on the display name. */
module IamServicePrincipal {
  import opened Wrappers
  import opened Framework
  import opened Paging
  import opened Cursors
  import opened Tables
  import opened Utils
  import IamAccountGroup
  import IamAccountUser

  /** `listIAMServicePrincipals`: the request of `listIAMAccountGroups`. */
  method ListIAMServicePrincipals<I>(d: QueryData, conn: Connection,
                                     api: Request<ScimParams, int> -> Result<seq<I>, Error>,
                                     sink: RowSink<I>, fuel: nat) returns (o: Outcome)
    modifies sink
    ensures conn.ConnectFailed? ==> o == Failed(conn.err) && sink.rows == old(sink.rows)
    ensures conn.Connected? ==>
      Scanned(old(sink.rows), sink.rows, o,
              ScanTrace(api, PlainItems, NextStartIndex, IamAccountGroup.ListRequest(d), 1, old(sink.Budget()), 0, fuel))
  {
    o := ListPaged(conn, api, PlainItems, NextStartIndex, IamAccountGroup.ListRequest(d), 1, sink, fuel);
  }

  /** `getIAMServicePrincipal` under its get config, which ignores "SCIM_404". */
  function GetIAMServicePrincipal<T>(d: QueryData, conn: Connection, api: string -> Result<T, Error>): (r: GetOutcome<T>)
    ensures EqualsQualString(d, "id") == "" ==> r == NoRow
    ensures EqualsQualString(d, "id") != "" && conn.Connected? && api(EqualsQualString(d, "id")).Success? ==>
              r == Row(api(EqualsQualString(d, "id")).value)
    ensures EqualsQualString(d, "id") != "" && conn.Connected? && api(EqualsQualString(d, "id")).Failure? ==>
              r == (if NotFoundMatch(IamAccountUser.ScimNotFound(), api(EqualsQualString(d, "id")).error.message) then NoRow
                    else GetFailed(api(EqualsQualString(d, "id")).error))
    ensures EqualsQualString(d, "id") != "" && conn.ConnectFailed? ==>
              r == (if NotFoundMatch(IamAccountUser.ScimNotFound(), conn.err.message) then NoRow else GetFailed(conn.err))
  {
    IamAccountGroup.GetIAMAccountGroup(d, conn, api)
  }
}
