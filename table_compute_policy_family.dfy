/** `databricks_compute_policy_family`: the cluster policy families of a
    workspace, listed with the in-loop token check. */
module ComputePolicyFamily {
  import opened Wrappers
  import opened Framework
  import opened Paging
  import opened Cursors
  import opened Tables

  datatype ListPolicyFamiliesRequest = ListPolicyFamiliesRequest(maxResults: int)

  /** `MaxResults` is `min(LIMIT, 1000)` at the full 64-bit width. */
  function ListRequest(d: QueryData): (r: ListPolicyFamiliesRequest)
    ensures d.limit.None? ==> r.maxResults == 1000
    ensures d.limit.Some? ==> r.maxResults == Min(d.limit.value, 1000)
  {
    ListPolicyFamiliesRequest(PageSize(d.limit, 1000))
  }

  /** `listComputePolicyFamilies`. */
  method ListComputePolicyFamilies<I>(d: QueryData, conn: Connection,
                                      api: Request<ListPolicyFamiliesRequest, string> -> Result<TokenPage<I>, Error>,
                                      sink: RowSink<I>, fuel: nat) returns (o: Outcome)
    modifies sink
    ensures conn.ConnectFailed? ==> o == Failed(conn.err) && sink.rows == old(sink.rows)
    ensures conn.Connected? ==>
      Scanned(old(sink.rows), sink.rows, o, InLoopTrace(api, TokenItems, ListRequest(d), "", old(sink.Budget()), fuel))
  {
    o := ListInLoop(conn, api, TokenItems, ListRequest(d), sink, fuel);
  }

  /** `getComputePolicyFamily`: no row for an empty `policy_family_id`. */
  function GetComputePolicyFamily<T>(d: QueryData, conn: Connection, api: string -> Result<T, Error>): (r: GetOutcome<T>)
    ensures EqualsQualString(d, "policy_family_id") == "" ==> r == NoRow
    ensures EqualsQualString(d, "policy_family_id") != "" && conn.ConnectFailed? ==> r == GetFailed(conn.err)
    ensures EqualsQualString(d, "policy_family_id") != "" && conn.Connected? ==>
              r == FromResult(api(EqualsQualString(d, "policy_family_id")))
  {
    GetByKey(EqualsQualString(d, "policy_family_id"), "", conn, api)
  }
}
