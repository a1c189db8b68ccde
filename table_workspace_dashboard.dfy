/** `databricks_workspace_dashboard`: the SQL dashboards of a workspace,
    listed by page number from 1 until the rows seen reach the total the
    server reports. */
module WorkspaceDashboard {
  import opened Wrappers
  import opened Framework
  import opened Paging
  import opened Cursors
  import opened Tables
  import opened Utils

  /** The fixed part of the request; the page number is the cursor. */
  datatype ListDashboardsRequest = ListDashboardsRequest(pageSize: int, q: string)

  /** A page of results with the server's total `Count`. */
  datatype DashboardPage<+I> = DashboardPage(results: seq<I>, count: int)

  function DashboardResults<I>(page: DashboardPage<I>): seq<I> {
    page.results
  }

  /** The mapping the filter is built from: the column "name". */
  function FilterQuals(): seq<FilterQualMap> {
    [FilterQualMap("name", "Name", "string")]
  }

  /** The list keys the table declares. */
  function ListKeyColumns(): set<string> {
    {"id", "dashboard_name", "display_name"}
  }

  /** `PageSize` is `min(int32(LIMIT), 10000)`; `Q` is the filter built from
      the quals on "name". */
  function ListRequest(d: QueryData): (r: ListDashboardsRequest)
    ensures d.limit.None? ==> r.pageSize == 10000
    ensures d.limit.Some? ==> r.pageSize == Min(Int32Of(d.limit.value), 10000)
    ensures r.q == QueryFilter(FilterQuals(), d.quals)
  {
    ListDashboardsRequest(PageSizeInt32(d.limit, 10000), QueryFilter(FilterQuals(), d.quals))
  }

  /** `count` (the rows of this scan so far, this page included) below the
      server's total asks for the next page number; otherwise the scan ends. */
  function NextDashboardPage<I>(params: ListDashboardsRequest, page: int, seen: nat, pg: DashboardPage<I>): Option<int> {
    if seen < pg.count then Some(page + 1) else None
  }

  /** `listWorkspaceDashboards`. */
  method ListWorkspaceDashboards<I>(d: QueryData, conn: Connection,
                                    api: Request<ListDashboardsRequest, int> -> Result<DashboardPage<I>, Error>,
                                    sink: RowSink<I>, fuel: nat) returns (o: Outcome)
    modifies sink
    ensures conn.ConnectFailed? ==> o == Failed(conn.err) && sink.rows == old(sink.rows)
    ensures conn.Connected? ==>
      Scanned(old(sink.rows), sink.rows, o,
              ScanTrace(api, DashboardResults, NextDashboardPage, ListRequest(d), 1, old(sink.Budget()), 0, fuel))
  {
    o := ListPaged(conn, api, DashboardResults, NextDashboardPage, ListRequest(d), 1, sink, fuel);
  }

  /** Request `i` asks for page `1 + i`; a further request follows a page
      after which fewer rows had come than the total that page reported. */
  lemma CountDiscipline<I>(api: Request<ListDashboardsRequest, int> -> Result<DashboardPage<I>, Error>,
                           params: ListDashboardsRequest, budget: Option<int>, fuel: nat)
    ensures var t := ScanTrace(api, DashboardResults, NextDashboardPage, params, 1, budget, 0, fuel);
      && (forall i: nat :: i < |t.requests| ==> t.requests[i].cursor == 1 + i)
      && (forall i: nat :: i + 1 < |t.requests| ==>
            i < |t.pages| && |Flatten(DashboardResults, t.pages[..i + 1])| < t.pages[i].count)
  {
    TraceShape(api, DashboardResults, NextDashboardPage, params, 1, budget, 0, fuel);
    CursorChain(api, DashboardResults, NextDashboardPage, params, 1, budget, 0, fuel);
    CountedPages(params, ScanTrace(api, DashboardResults, NextDashboardPage, params, 1, budget, 0, fuel));
  }

  /** The same for any trace whose requests the discipline links. */
  lemma CountedPages<I>(params: ListDashboardsRequest, t: Trace<Request<ListDashboardsRequest, int>, DashboardPage<I>, I>)
    requires |t.requests| <= |t.pages| + 1
    requires |t.requests| > 0 ==> t.requests[0].cursor == 1
    requires forall k: nat :: k + 1 < |t.requests| ==> Linked(DashboardResults, NextDashboardPage, params, 0, t, k)
    ensures forall i: nat :: i < |t.requests| ==> t.requests[i].cursor == 1 + i
    ensures forall i: nat :: i + 1 < |t.requests| ==>
              i < |t.pages| && |Flatten(DashboardResults, t.pages[..i + 1])| < t.pages[i].count
  {
    forall i: nat | i + 1 < |t.requests|
      ensures i < |t.pages| && |Flatten(DashboardResults, t.pages[..i + 1])| < t.pages[i].count
    {
      assert Linked(DashboardResults, NextDashboardPage, params, 0, t, i);
    }
    var j: nat := 0;
    while j < |t.requests|
      invariant j <= |t.requests|
      invariant forall k: nat :: k < j ==> t.requests[k].cursor == 1 + k
    {
      if j > 0 {
        assert Linked(DashboardResults, NextDashboardPage, params, 0, t, j - 1);
      }
      j := j + 1;
    }
  }

  /** A scan the discipline ends has seen at least the total its last page
      reported. */
  lemma CountEnds<I>(api: Request<ListDashboardsRequest, int> -> Result<DashboardPage<I>, Error>,
                     params: ListDashboardsRequest, budget: Option<int>, fuel: nat)
    ensures var t := ScanTrace(api, DashboardResults, NextDashboardPage, params, 1, budget, 0, fuel);
      EndedByDiscipline(DashboardResults, NextDashboardPage, params, 0, t) ==>
        |Flatten(DashboardResults, t.pages)| >= t.pages[|t.pages| - 1].count
  {
  }

  /** The filter reads the column "name", which is not a list key column:
      the engine never passes such a qual, so `Q` is always empty. */
  lemma NameFilterNeverSent(d: QueryData)
    requires QualsOnlyOn(d, ListKeyColumns())
    ensures ListRequest(d).q == ""
  {
    assert "name" !in d.quals;
    FilterEmptyIff(FilterQuals(), d.quals);
  }

  /** `getWorkspaceDashboard`: no row for an empty `id`. */
  function GetWorkspaceDashboard<T>(d: QueryData, conn: Connection, api: string -> Result<T, Error>): (r: GetOutcome<T>)
    ensures EqualsQualString(d, "id") == "" ==> r == NoRow
    ensures EqualsQualString(d, "id") != "" && conn.ConnectFailed? ==> r == GetFailed(conn.err)
    ensures EqualsQualString(d, "id") != "" && conn.Connected? ==> r == FromResult(api(EqualsQualString(d, "id")))
  {
    GetByKey(EqualsQualString(d, "id"), "", conn, api)
  }
}
