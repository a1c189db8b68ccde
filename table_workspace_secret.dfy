/** `databricks_workspace_secret`: the secret keys of every secret scope,
    listed once per parent scope row; each row is the key's metadata paired
    with its scope's name. */
module WorkspaceSecret {
  import opened Wrappers
  import opened Framework
  import opened Paging
  import opened Tables

  /** `secretScopeInfo`. */
  datatype SecretScopeInfo<+M> = SecretScopeInfo(scopeName: string, metadata: M)

  /** The `scope_name` qual names a scope other than the parent row's. */
  predicate OtherScope(d: QueryData, scope: string) {
    EqualsQualString(d, "scope_name") != "" && EqualsQualString(d, "scope_name") != scope
  }

  /** The rows the secrets of a scope yield, in order. */
  function WithScope<M>(scope: string, secrets: seq<M>): (rows: seq<SecretScopeInfo<M>>)
    ensures |rows| == |secrets|
    ensures forall i :: 0 <= i < |rows| ==> rows[i] == SecretScopeInfo(scope, secrets[i])
  {
    seq(|secrets|, i requires 0 <= i < |secrets| => SecretScopeInfo(scope, secrets[i]))
  }

  /** `listWorkspaceSecrets` for the parent scope `scope`. */
  method ListWorkspaceSecrets<M>(d: QueryData, scope: string, conn: Connection, api: string -> Result<seq<M>, Error>,
                                 sink: RowSink<SecretScopeInfo<M>>) returns (o: Outcome)
    modifies sink
    ensures OtherScope(d, scope) ==> o == Done && sink.rows == old(sink.rows)
    ensures !OtherScope(d, scope) && conn.ConnectFailed? ==> o == Failed(conn.err) && sink.rows == old(sink.rows)
    ensures !OtherScope(d, scope) && conn.Connected? && api(scope).Failure? ==>
              o == Failed(api(scope).error) && sink.rows == old(sink.rows)
    ensures !OtherScope(d, scope) && conn.Connected? && api(scope).Success? ==>
              o == Done && sink.rows == old(sink.rows) + Streamed(WithScope(scope, api(scope).value), old(sink.Budget()))
  {
    if OtherScope(d, scope) {
      return Done;
    }
    if conn.ConnectFailed? {
      return Failed(conn.err);
    }
    var secrets := api(scope);
    if secrets.Failure? {
      return Failed(secrets.error);
    }
    var _ := StreamItems(WithScope(scope, secrets.value), sink);
    return Done;
  }

  /** The rows streamed for a scope are its first secrets, in order, each
      with the scope's name. */
  lemma RowsCarryScope<M>(scope: string, secrets: seq<M>, budget: Option<int>)
    ensures var rows := Streamed(WithScope(scope, secrets), budget);
      |rows| <= |secrets| && forall i :: 0 <= i < |rows| ==> rows[i] == SecretScopeInfo(scope, secrets[i])
  {
    StreamedIsPrefix(WithScope(scope, secrets), budget);
  }
}
