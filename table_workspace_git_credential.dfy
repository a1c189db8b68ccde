/** `databricks_workspace_git_credential`: the calling user's Git
    credentials, listed in one call; the get takes the numeric credential
    id or the Git provider. */
module WorkspaceGitCredential {
  import opened Wrappers
  import opened Framework
  import opened Paging
  import opened Tables

  /** The get key columns: any of `credential_id` (INT) and `git_provider`. */
  function GetKeyColumns(): set<string> {
    {"credential_id", "git_provider"}
  }

  /** `listWorkspaceGitCredentials`: one `ListAll` call without a request. */
  method ListWorkspaceGitCredentials<I>(conn: Connection, api: () -> Result<seq<I>, Error>, sink: RowSink<I>)
    returns (o: Outcome)
    modifies sink
    ensures conn.ConnectFailed? ==> o == Failed(conn.err) && sink.rows == old(sink.rows)
    ensures conn.Connected? && api().Failure? ==> o == Failed(api().error) && sink.rows == old(sink.rows)
    ensures conn.Connected? && api().Success? ==>
              o == Done && sink.rows == old(sink.rows) + Streamed(api().value, old(sink.Budget()))
  {
    o := ListOnce(conn, (u: ()) => api(), (), sink);
  }

  /** `d.EqualsQuals["credential_id"].GetInt64Value()` when the qual is present. */
  function CredentialIdKey(d: QueryData): (k: Option<Int64>)
    ensures k.Some? <==> HasEqualsQual(d, "credential_id")
    ensures k.Some? && d.equalsQuals["credential_id"].Int64Value? ==> k.value == d.equalsQuals["credential_id"].i
    ensures k.Some? && !d.equalsQuals["credential_id"].Int64Value? ==> k.value == 0
  {
    if HasEqualsQual(d, "credential_id") then Some(GetInt64Value(EqualsQual(d, "credential_id"))) else None
  }

  /** `getWorkspaceGitCredential`: by the credential id, else by the provider. */
  function GetWorkspaceGitCredential<T>(d: QueryData, conn: Connection,
                                        byId: Int64 -> Result<T, Error>, byProvider: string -> Result<T, Error>)
    : (r: GetOutcome<T>)
    ensures conn.ConnectFailed? ==> r == GetFailed(conn.err)
    ensures conn.Connected? && HasEqualsQual(d, "credential_id") ==>
              r == FromResult(byId(GetInt64Value(EqualsQual(d, "credential_id"))))
    ensures conn.Connected? && !HasEqualsQual(d, "credential_id") && HasEqualsQual(d, "git_provider") ==>
              r == FromResult(byProvider(EqualsQualString(d, "git_provider")))
    ensures r == NoRow <==> conn.Connected? && !HasEqualsQual(d, "credential_id") && !HasEqualsQual(d, "git_provider")
  {
    GetByEither(conn, CredentialIdKey(d), StringKey(d, "git_provider"), byId, byProvider)
  }

  /** With the engine's quals, a connected get always asks the API: the get
      config needs one of its two key columns. */
  lemma ConnectedGetAsks<T>(d: QueryData, byId: Int64 -> Result<T, Error>, byProvider: string -> Result<T, Error>)
    requires QualsOnlyOn(d, GetKeyColumns()) && d.equalsQuals.Keys != {}
    ensures GetWorkspaceGitCredential(d, Connected, byId, byProvider) != NoRow
  {
    var k :| k in d.equalsQuals.Keys;
    assert k == "credential_id" || k == "git_provider";
  }
}
