/** `databricks_iam_account_group`: the groups of an account, listed through
    SCIM with a filter on the display name only. */
module IamAccountGroup {
  import opened Wrappers
  import opened Framework
  import opened Paging
  import opened Cursors
  import opened Tables
  import opened Utils
  import IamAccountUser

  /** The one SCIM attribute the group list filters on. */
  function DisplayNameFilterQuals(): seq<FilterQualMap> {
    [FilterQualMap("display_name", "displayName", "string")]
  }

  /** `Count` is `min(int32(LIMIT), 10000)`; `Filter` reads the quals on
      "display_name" and nothing else. */
  function ListRequest(d: QueryData): (r: ScimParams)
    ensures d.limit.None? ==> r.count == 10000
    ensures d.limit.Some? ==> r.count == Min(Int32Of(d.limit.value), 10000)
    ensures r.filter == QueryFilter(DisplayNameFilterQuals(), d.quals)
  {
    ScimParams(PageSizeInt32(d.limit, 10000), QueryFilter(DisplayNameFilterQuals(), d.quals))
  }

  /** A `<>` qual on the display name asks for `displayName ne v`. */
  lemma DisplayNameNotEqualFilter(d: QueryData, v: string)
    requires d.quals == map["display_name" := KeyColumnQuals("display_name", Some([Qual("<>", Some(StringValue(v)))]))]
    ensures ListRequest(d).filter == "displayName ne " + v
  {
    var m := DisplayNameFilterQuals()[0];
    var q := Qual("<>", Some(StringValue(v)));
    assert [q][..0] == [];
    assert "displayName" + " ne " == "displayName ne ";
    assert QualClauses(m, [q]) == ["displayName ne " + v];
    ClausesSingleton(m, d.quals);
  }

  /** `listIAMAccountGroups`. */
  method ListIAMAccountGroups<I>(d: QueryData, conn: Connection,
                                 api: Request<ScimParams, int> -> Result<seq<I>, Error>,
                                 sink: RowSink<I>, fuel: nat) returns (o: Outcome)
    modifies sink
    ensures conn.ConnectFailed? ==> o == Failed(conn.err) && sink.rows == old(sink.rows)
    ensures conn.Connected? ==>
      Scanned(old(sink.rows), sink.rows, o, ScanTrace(api, PlainItems, NextStartIndex, ListRequest(d), 1, old(sink.Budget()), 0, fuel))
  {
    o := ListPaged(conn, api, PlainItems, NextStartIndex, ListRequest(d), 1, sink, fuel);
  }

  /** `getIAMAccountGroup` under its get config, which ignores "SCIM_404". */
  function GetIAMAccountGroup<T>(d: QueryData, conn: Connection, api: string -> Result<T, Error>): (r: GetOutcome<T>)
    ensures EqualsQualString(d, "id") == "" ==> r == NoRow
    ensures EqualsQualString(d, "id") != "" && conn.Connected? && api(EqualsQualString(d, "id")).Success? ==>
              r == Row(api(EqualsQualString(d, "id")).value)
    ensures EqualsQualString(d, "id") != "" && conn.Connected? && api(EqualsQualString(d, "id")).Failure? ==>
              r == (if NotFoundMatch(IamAccountUser.ScimNotFound(), api(EqualsQualString(d, "id")).error.message) then NoRow
                    else GetFailed(api(EqualsQualString(d, "id")).error))
    ensures EqualsQualString(d, "id") != "" && conn.ConnectFailed? ==>
              r == (if NotFoundMatch(IamAccountUser.ScimNotFound(), conn.err.message) then NoRow else GetFailed(conn.err))
  {
    var id := EqualsQualString(d, "id");
    if id == "" then NoRow
    else if conn.ConnectFailed? then IgnoreNotFound(IamAccountUser.ScimNotFound(), GetFailed(conn.err))
    else IgnoreNotFound(IamAccountUser.ScimNotFound(), FromResult(api(id)))
  }
}
