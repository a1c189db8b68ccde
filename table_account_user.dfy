/** `databricks_account_user`: the users of an account, listed through SCIM
    from start index 1 in steps of `Count` until a page comes back short. */
module AccountUser {
  import opened Wrappers
  import opened Framework
  import opened Paging
  import opened Cursors
  import opened Tables
  import opened Utils

  /** The SCIM attributes the user list filters on, one per key column. */
  function UserFilterQuals(): seq<FilterQualMap> {
    [FilterQualMap("id", "id", "string"),
     FilterQualMap("user_name", "userName", "string"),
     FilterQualMap("display_name", "displayName", "string")]
  }

  /** `Count` is `min(int32(LIMIT), 10000)`; `Filter` is built from the
      quals on the three key columns. */
  function ListRequest(d: QueryData): (r: ScimParams)
    ensures d.limit.None? ==> r.count == 10000
    ensures d.limit.Some? ==> r.count == Min(Int32Of(d.limit.value), 10000)
    ensures r.filter == QueryFilter(UserFilterQuals(), d.quals)
  {
    ScimParams(PageSizeInt32(d.limit, 10000), QueryFilter(UserFilterQuals(), d.quals))
  }

  /** `listAccountUsers`. */
  method ListAccountUsers<I>(d: QueryData, conn: Connection,
                             api: Request<ScimParams, int> -> Result<seq<I>, Error>,
                             sink: RowSink<I>, fuel: nat) returns (o: Outcome)
    modifies sink
    ensures conn.ConnectFailed? ==> o == Failed(conn.err) && sink.rows == old(sink.rows)
    ensures conn.Connected? ==>
      Scanned(old(sink.rows), sink.rows, o, ScanTrace(api, PlainItems, NextStartIndex, ListRequest(d), 1, old(sink.Budget()), 0, fuel))
  {
    o := ListPaged(conn, api, PlainItems, NextStartIndex, ListRequest(d), 1, sink, fuel);
  }

  /** A query whose only qual is `user_name = v` asks the server for
      `userName eq v`. */
  lemma UserNameFilter(d: QueryData, v: string)
    requires d.quals == map["user_name" := KeyColumnQuals("user_name", Some([Qual("=", Some(StringValue(v)))]))]
    ensures ListRequest(d).filter == "userName eq " + v
  {
    var items := UserFilterQuals();
    var q := Qual("=", Some(StringValue(v)));
    assert [q][..0] == [];
    assert "userName" + " eq " == "userName eq ";
    assert QualClauses(items[1], [q]) == ["userName eq " + v];
    assert ItemClauses(items[1], d.quals) == ["userName eq " + v];
    assert items[..1][..0] == [];
    assert Clauses(items[..1], d.quals) == [];
    assert items[..2][..1] == items[..1];
    assert Clauses(items[..2], d.quals) == ["userName eq " + v];
    assert items[..3][..2] == items[..2];
    assert items[..3] == items;
  }

  /** `getAccountUser`: no row for an empty `id`; an API error is returned. */
  function GetAccountUser<T>(d: QueryData, conn: Connection, api: string -> Result<T, Error>): (r: GetOutcome<T>)
    ensures EqualsQualString(d, "id") == "" ==> r == NoRow
    ensures EqualsQualString(d, "id") != "" && conn.ConnectFailed? ==> r == GetFailed(conn.err)
    ensures EqualsQualString(d, "id") != "" && conn.Connected? ==> r == FromResult(api(EqualsQualString(d, "id")))
  {
    GetByKey(EqualsQualString(d, "id"), "", conn, api)
  }
}
