/** `databricks_settings_token_management`: the personal access tokens of a
    workspace, listed in one call, optionally filtered by their creator. */
module SettingsTokenManagement {
  import opened Wrappers
  import opened Framework
  import opened Paging
  import opened Tables
  import opened Strconv

  datatype ListTokenManagementRequest = ListTokenManagementRequest(createdById: string, createdByUsername: string)

  /** The list key columns: `created_by_id` (an INT column) and
      `created_by_username`. */
  function ListKeyColumns(): set<string> {
    {"created_by_id", "created_by_username"}
  }

  /** The request as `listSettingsTokenManagement` builds it: each field is
      set from `EqualsQualString`, the user name from "created_by_user_name"
      although the guard tests "created_by_username". `created_by_id` is an
      INT column, so its qual is read through the SDK's text rendering
      `text` of a non-string value. */
  function ListRequest(d: QueryData, text: QualValue -> string): (r: ListTokenManagementRequest)
    ensures r.createdById == EqualsQualText(d, "created_by_id", text)
    ensures EqualsQualString(d, "created_by_username") == "" ==> r.createdByUsername == ""
    ensures EqualsQualString(d, "created_by_username") != "" ==>
              r.createdByUsername == EqualsQualString(d, "created_by_user_name")
  {
    var createdById := if EqualsQualText(d, "created_by_id", text) != "" then EqualsQualText(d, "created_by_id", text) else "";
    var createdByUsername := if EqualsQualString(d, "created_by_username") != ""
                             then EqualsQualString(d, "created_by_user_name") else "";
    ListTokenManagementRequest(createdById, createdByUsername)
  }

  /** The user name is never sent: the engine passes no qual on
      "created_by_user_name", which is not a key column. */
  lemma UsernameNeverSent(d: QueryData, text: QualValue -> string)
    requires QualsOnlyOn(d, ListKeyColumns())
    ensures ListRequest(d, text).createdByUsername == ""
  {
    assert "created_by_user_name" !in d.equalsQuals;
  }

  /** Whether the creator's id is sent depends on the SDK alone: if it
      renders an integer qual as "" (as `GetStringValue()` of an integer
      does), the id is never sent. */
  lemma CreatedByIdNeverSent(d: QueryData, text: QualValue -> string)
    requires "created_by_id" in d.equalsQuals ==> d.equalsQuals["created_by_id"].Int64Value?
    requires "created_by_id" in d.equalsQuals ==> text(d.equalsQuals["created_by_id"]) == ""
    ensures ListRequest(d, text).createdById == ""
  {
  }

  /** If instead the SDK renders an integer qual in base 10, the id is sent
      and parses back to the qual's value. */
  lemma CreatedByIdSentWhenRendered(d: QueryData, id: Int64, text: QualValue -> string)
    requires "created_by_id" in d.equalsQuals && d.equalsQuals["created_by_id"] == Int64Value(id)
    requires text(Int64Value(id)) == Itoa(id)
    ensures ParseInt(ListRequest(d, text).createdById) == Some(id as int)
  {
    ItoaRoundTrip(id);
  }

  /** The request the filters were evidently meant to build: the id as
      decimal text, the user name from the column the guard tests. */
  function IntendedListRequest(d: QueryData): (r: ListTokenManagementRequest)
    ensures "created_by_id" in d.equalsQuals && d.equalsQuals["created_by_id"].Int64Value? ==>
              ParseInt(r.createdById) == Some(d.equalsQuals["created_by_id"].i as int)
    ensures "created_by_id" !in d.equalsQuals ==> r.createdById == ""
    ensures r.createdByUsername == EqualsQualString(d, "created_by_username")
  {
    var createdById := if "created_by_id" in d.equalsQuals && d.equalsQuals["created_by_id"].Int64Value?
                       then ItoaRoundTrip(d.equalsQuals["created_by_id"].i); Itoa(d.equalsQuals["created_by_id"].i)
                       else "";
    ListTokenManagementRequest(createdById, EqualsQualString(d, "created_by_username"))
  }

  /** With both declared quals given, the intended request filters by both.
      The written one never filters by the user name; it sends the id as
      whatever text the SDK renders for it, so nothing when that is "". */
  lemma IntendedRequestFilters(d: QueryData, id: Int64, name: string, text: QualValue -> string)
    requires d.equalsQuals == map["created_by_id" := Int64Value(id), "created_by_username" := StringValue(name)]
    ensures ParseInt(IntendedListRequest(d).createdById) == Some(id as int)
    ensures IntendedListRequest(d).createdByUsername == name
    ensures ListRequest(d, text) == ListTokenManagementRequest(text(Int64Value(id)), "")
    ensures text(Int64Value(id)) == "" ==> ListRequest(d, text) == ListTokenManagementRequest("", "")
  {
  }

  /** `listSettingsTokenManagement`. */
  method ListSettingsTokenManagement<I>(d: QueryData, text: QualValue -> string, conn: Connection,
                                        api: ListTokenManagementRequest -> Result<seq<I>, Error>,
                                        sink: RowSink<I>) returns (o: Outcome)
    modifies sink
    ensures conn.ConnectFailed? ==> o == Failed(conn.err) && sink.rows == old(sink.rows)
    ensures conn.Connected? && api(ListRequest(d, text)).Failure? ==>
              o == Failed(api(ListRequest(d, text)).error) && sink.rows == old(sink.rows)
    ensures conn.Connected? && api(ListRequest(d, text)).Success? ==>
              o == Done && sink.rows == old(sink.rows) + Streamed(api(ListRequest(d, text)).value, old(sink.Budget()))
  {
    o := ListOnce(conn, api, ListRequest(d, text), sink);
  }

  /** `getSettingsTokenManagement`: no row for an empty `token_id`. */
  function GetSettingsTokenManagement<T>(d: QueryData, conn: Connection, api: string -> Result<T, Error>): (r: GetOutcome<T>)
    ensures EqualsQualString(d, "token_id") == "" ==> r == NoRow
    ensures EqualsQualString(d, "token_id") != "" && conn.ConnectFailed? ==> r == GetFailed(conn.err)
    ensures EqualsQualString(d, "token_id") != "" && conn.Connected? ==> r == FromResult(api(EqualsQualString(d, "token_id")))
  {
    GetByKey(EqualsQualString(d, "token_id"), "", conn, api)
  }
}
