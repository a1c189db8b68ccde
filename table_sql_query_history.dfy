/** `databricks_sql_query_history`: the history of SQL queries, listed while
    the API says it has a next page. */
module SqlQueryHistory {
  import opened Wrappers
  import opened Framework
  import opened Paging
  import opened Cursors
  import opened Tables

  /** `sql.QueryFilter`; an empty list is Go's nil slice. */
  datatype QueryHistoryFilter = QueryHistoryFilter(warehouseIds: seq<string>, userIds: seq<int>, statuses: seq<string>)

  /** `FilterBy` is always there, even when no qual fills it. */
  datatype ListQueryHistoryRequest = ListQueryHistoryRequest(maxResults: int, filterBy: QueryHistoryFilter)

  /** The list request: `MaxResults` is `min(LIMIT, 100)` at full width, and
      each filter list holds at most the one value of its qual. The guard
      before `Statuses` tests `WarehouseIds`, which only decides whether an
      empty list is made first: the appended status is there either way. */
  function ListRequest(d: QueryData): (r: ListQueryHistoryRequest)
    ensures d.limit.None? ==> r.maxResults == 100
    ensures d.limit.Some? ==> r.maxResults == Min(d.limit.value, 100)
    ensures r.filterBy.warehouseIds == if EqualsQualString(d, "warehouse_id") != "" then [EqualsQualString(d, "warehouse_id")] else []
    ensures r.filterBy.userIds == if HasEqualsQual(d, "user_id") then [GetInt64Value(EqualsQual(d, "user_id")) as int] else []
    ensures r.filterBy.statuses == if EqualsQualString(d, "status") != "" then [EqualsQualString(d, "status")] else []
    ensures |r.filterBy.warehouseIds| <= 1 && |r.filterBy.userIds| <= 1 && |r.filterBy.statuses| <= 1
  {
    var filter := QueryHistoryFilter([], [], []);
    var filter := if EqualsQualString(d, "warehouse_id") != "" then filter.(warehouseIds := filter.warehouseIds + [EqualsQualString(d, "warehouse_id")]) else filter;
    var filter := if HasEqualsQual(d, "user_id") then filter.(userIds := filter.userIds + [GetInt64Value(EqualsQual(d, "user_id")) as int]) else filter;
    var filter := if EqualsQualString(d, "status") != "" then filter.(statuses := filter.statuses + [EqualsQualString(d, "status")]) else filter;
    ListQueryHistoryRequest(PageSize(d.limit, 100), filter)
  }

  /** `listSQLQueryHistory`; `HasNextPage` plays the part of `HasMore`. The
      client comes from `getWorkspaceClient`. */
  method ListSQLQueryHistory<I>(d: QueryData, conn: Connection,
                                api: Request<ListQueryHistoryRequest, string> -> Result<HasMorePage<I>, Error>,
                                sink: RowSink<I>, fuel: nat) returns (o: Outcome)
    modifies sink
    ensures conn.ConnectFailed? ==> o == Failed(conn.err) && sink.rows == old(sink.rows)
    ensures conn.Connected? ==>
      Scanned(old(sink.rows), sink.rows, o, ScanTrace(api, HasMoreItems, NextByHasMore, ListRequest(d), "", old(sink.Budget()), 0, fuel))
  {
    o := ListPaged(conn, api, HasMoreItems, NextByHasMore, ListRequest(d), "", sink, fuel);
  }
}
