/** `databricks_sql_query`: the saved SQL queries of a workspace, listed by
    page number from 0 until a page comes back short. */
module SqlQuery {
  import opened Wrappers
  import opened Framework
  import opened Paging
  import opened Cursors
  import opened Tables

  /** The fixed part of the request; the page number is the cursor. */
  datatype ListQueriesRequest = ListQueriesRequest(pageSize: int)

  /** `PageSize` is `min(LIMIT, 100)` at full width. */
  function ListRequest(d: QueryData): (r: ListQueriesRequest)
    ensures d.limit.None? ==> r.pageSize == 100
    ensures d.limit.Some? ==> r.pageSize == Min(d.limit.value, 100)
  {
    ListQueriesRequest(PageSize(d.limit, 100))
  }

  /** A page shorter than `PageSize` is the last; otherwise ask for the next
      page number. */
  function NextQueryPage<I>(params: ListQueriesRequest, page: int, seen: nat, results: seq<I>): Option<int> {
    if |results| < params.pageSize then None else Some(page + 1)
  }

  /** `listSQLQueries`. */
  method ListSQLQueries<I>(d: QueryData, conn: Connection,
                           api: Request<ListQueriesRequest, int> -> Result<seq<I>, Error>,
                           sink: RowSink<I>, fuel: nat) returns (o: Outcome)
    modifies sink
    ensures conn.ConnectFailed? ==> o == Failed(conn.err) && sink.rows == old(sink.rows)
    ensures conn.Connected? ==>
      Scanned(old(sink.rows), sink.rows, o, ScanTrace(api, PlainItems, NextQueryPage, ListRequest(d), 0, old(sink.Budget()), 0, fuel))
  {
    o := ListPaged(conn, api, PlainItems, NextQueryPage, ListRequest(d), 0, sink, fuel);
  }

  /** Request `i` asks for page `i`; every page but the last was full; a
      scan the discipline ends ends on a short page, so a full page is
      always followed by another request unless the budget, an error or
      the fuel ends the scan. */
  lemma {:induction false} PageNumberDiscipline<I>(api: Request<ListQueriesRequest, int> -> Result<seq<I>, Error>,
                                                   params: ListQueriesRequest, budget: Option<int>, fuel: nat)
    ensures var t := ScanTrace(api, PlainItems, NextQueryPage, params, 0, budget, 0, fuel);
      && (forall i: nat :: i < |t.requests| ==> t.requests[i].cursor == i)
      && (forall i: nat :: i + 1 < |t.requests| ==> i < |t.pages| && |t.pages[i]| >= params.pageSize)
      && (EndedByDiscipline(PlainItems, NextQueryPage, params, 0, t) ==> |t.pages[|t.pages| - 1]| < params.pageSize)
  {
    var t := ScanTrace(api, PlainItems, NextQueryPage, params, 0, budget, 0, fuel);
    TraceShape(api, PlainItems, NextQueryPage, params, 0, budget, 0, fuel);
    CursorChain(api, PlainItems, NextQueryPage, params, 0, budget, 0, fuel);
    var i: nat := 0;
    while i < |t.requests|
      invariant i <= |t.requests|
      invariant forall k: nat :: k < i ==> t.requests[k].cursor == k
      invariant forall k: nat :: k + 1 < i ==> k < |t.pages| && |t.pages[k]| >= params.pageSize
    {
      if i > 0 {
        assert Linked(PlainItems, NextQueryPage, params, 0, t, i - 1);
      }
      i := i + 1;
    }
  }

  /** `getSQLQuery`: no row for an empty `id`. */
  function GetSQLQuery<T>(d: QueryData, conn: Connection, api: string -> Result<T, Error>): (r: GetOutcome<T>)
    ensures EqualsQualString(d, "id") == "" ==> r == NoRow
    ensures EqualsQualString(d, "id") != "" && conn.ConnectFailed? ==> r == GetFailed(conn.err)
    ensures EqualsQualString(d, "id") != "" && conn.Connected? ==> r == FromResult(api(EqualsQualString(d, "id")))
  {
    GetByKey(EqualsQualString(d, "id"), "", conn, api)
  }
}
