/** `databricks_workspace_cluster_policy`: the get of a cluster policy by
    its id or its name. */
module WorkspaceClusterPolicy {
  import opened Wrappers
  import opened Framework
  import opened Tables

  /** `getWorkspaceClusterPolicy`: by the `policy_id` qual, else by `name`. */
  function GetWorkspaceClusterPolicy<T>(d: QueryData, conn: Connection,
                                        byId: string -> Result<T, Error>, byName: string -> Result<T, Error>)
    : (r: GetOutcome<T>)
    ensures conn.ConnectFailed? ==> r == GetFailed(conn.err)
    ensures conn.Connected? && HasEqualsQual(d, "policy_id") ==> r == FromResult(byId(EqualsQualString(d, "policy_id")))
    ensures conn.Connected? && !HasEqualsQual(d, "policy_id") && HasEqualsQual(d, "name") ==>
              r == FromResult(byName(EqualsQualString(d, "name")))
    ensures r == NoRow <==> conn.Connected? && !HasEqualsQual(d, "policy_id") && !HasEqualsQual(d, "name")
  {
    GetByEither(conn, StringKey(d, "policy_id"), StringKey(d, "name"), byId, byName)
  }

  /** Both keys given: the id wins and the name plays no part. */
  lemma IdTakesPrecedence<T>(d1: QueryData, d2: QueryData, conn: Connection,
                             byId: string -> Result<T, Error>, byName: string -> Result<T, Error>)
    requires HasEqualsQual(d1, "policy_id") && HasEqualsQual(d2, "policy_id")
    requires d1.equalsQuals["policy_id"] == d2.equalsQuals["policy_id"]
    ensures GetWorkspaceClusterPolicy(d1, conn, byId, byName) == GetWorkspaceClusterPolicy(d2, conn, byId, byName)
  {
  }
}
