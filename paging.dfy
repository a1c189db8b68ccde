/** The paged list loop that every list function repeats: ask the API for a
    page, stream its items until the row budget runs out, then decide from
    the page whether to ask for the next one and with which cursor.

    A request is the table's fixed parameters and a cursor; a cursor
    discipline says how the next cursor follows from a page. The Go loops
    run until the API says there is nothing more; the model follows at most
    `fuel` pages and reports `OutOfFuel` past that. */
module Paging {
  import opened Wrappers
  import opened Framework

  // ---------------------------------------------------------------------
  // Page sizes

  function Min(a: int, b: int): int {
    if a < b then a else b
  }

  predicate IsInt32(x: int) {
    -0x8000_0000 <= x < 0x8000_0000
  }

  /** Go's `int32(x)` conversion: the low 32 bits, as two's complement. */
  function Int32Of(x: int): (r: int)
    ensures IsInt32(r)
    ensures (x - r) % 0x1_0000_0000 == 0
    ensures IsInt32(x) ==> r == x
  {
    var m := x % 0x1_0000_0000;
    if m >= 0x8000_0000 then m - 0x1_0000_0000 else m
  }

  /** The page size of a table that keeps `LIMIT` at full width:
      `min(LIMIT, maxLimit)`, or `maxLimit` without a `LIMIT`. */
  function PageSize(limit: Option<Int64>, maxLimit: int): (r: int)
    ensures r <= maxLimit
    ensures limit.None? ==> r == maxLimit
    ensures limit.Some? ==> r <= limit.value && (r == limit.value || r == maxLimit)
  {
    if limit.Some? && limit.value < maxLimit then limit.value else maxLimit
  }

  /** The page size of a table that converts `LIMIT` with `int32(*limit)`
      before comparing it with `maxLimit`. */
  function PageSizeInt32(limit: Option<Int64>, maxLimit: int): (r: int)
    requires IsInt32(maxLimit)
    ensures r <= maxLimit
    ensures limit.None? ==> r == maxLimit
    ensures limit.Some? && IsInt32(limit.value) ==> r == PageSize(limit, maxLimit)
    ensures limit.Some? ==> r == maxLimit || r == Int32Of(limit.value)
  {
    if limit.Some? && Int32Of(limit.value) < maxLimit then Int32Of(limit.value) else maxLimit
  }

  /** A `LIMIT` of 2^32 becomes a page size of 0, and one of 2^31 a
      negative page size, where the full-width comparison keeps `maxLimit`. */
  lemma PageSizeInt32Wraps(maxLimit: int)
    requires 0 < maxLimit < 0x8000_0000
    ensures PageSizeInt32(Some(0x1_0000_0000), maxLimit) == 0
    ensures PageSizeInt32(Some(0x8000_0000), maxLimit) == -0x8000_0000
    ensures PageSize(Some(0x1_0000_0000), maxLimit) == maxLimit
    ensures PageSize(Some(0x8000_0000), maxLimit) == maxLimit
  {
    assert Int32Of(0x1_0000_0000) == 0;
    assert Int32Of(0x8000_0000) == -0x8000_0000;
  }

  // ---------------------------------------------------------------------
  // The row budget

  /** Streaming the item at index `i` of this scan (counting from 0) leaves
      no row wanted: `d.RowsRemaining(ctx) == 0` right after it. */
  predicate StopsAfter(budget: Option<int>, i: int) {
    budget.Some? && i + 1 == budget.value
  }

  /** The index of the item of a `count`-item page after which the budget
      ends the scan, if it does so within the page. */
  function StopPoint(count: nat, budget: Option<int>): (r: Option<nat>)
    ensures r.Some? ==> r.value < count && StopsAfter(budget, r.value)
    ensures r.Some? ==> forall i :: 0 <= i < r.value ==> !StopsAfter(budget, i)
    ensures r.None? ==> forall i :: 0 <= i < count ==> !StopsAfter(budget, i)
  {
    if budget.None? || budget.value < 1 then None
    else if budget.value - 1 < count then Some(budget.value - 1)
    else None
  }

  /** The items of a page that get streamed under the given budget. */
  function Streamed<I>(items: seq<I>, budget: Option<int>): seq<I> {
    match StopPoint(|items|, budget)
    case Some(j) => items[..j + 1]
    case None => items
  }

  /** The streamed items are a prefix of the page, cut short only right
      after the item that uses up the budget. */
  lemma StreamedIsPrefix<I>(items: seq<I>, budget: Option<int>)
    ensures Streamed(items, budget) <= items
    ensures |Streamed(items, budget)| < |items| ==>
              |Streamed(items, budget)| > 0 && StopsAfter(budget, |Streamed(items, budget)| - 1)
    ensures forall j :: 0 <= j < |Streamed(items, budget)| - 1 ==> !StopsAfter(budget, j)
    ensures budget.None? ==> Streamed(items, budget) == items
  {
  }

  /** `RowsRemaining` never reaches 0 again once the budget is 0 or below,
      so the whole page is streamed, as without a limit. */
  lemma SpentBudgetStreamsAll<I>(items: seq<I>, budget: Option<int>)
    requires budget.Some? && budget.value <= 0
    ensures Streamed(items, budget) == items
    ensures forall i :: 0 <= i < |items| ==> !StopsAfter(budget, i)
  {
  }

  /** The budget left after streaming `k` more rows. */
  function Remaining(budget: Option<int>, k: int): Option<int> {
    if budget.None? then None else Some(budget.value - k)
  }

  /** Stream a page until `RowsRemaining` reaches 0; report whether it did. */
  method StreamItems<I>(items: seq<I>, sink: RowSink<I>) returns (stopped: bool)
    modifies sink
    ensures sink.rows == old(sink.rows) + Streamed(items, old(sink.Budget()))
    ensures stopped <==> StopPoint(|items|, old(sink.Budget())).Some?
  {
    ghost var budget := sink.Budget();
    for i := 0 to |items|
      invariant sink.rows == old(sink.rows) + items[..i]
      invariant forall k :: 0 <= k < i ==> !StopsAfter(budget, k)
    {
      sink.StreamListItem(items[i]);
      assert sink.Exhausted() <==> StopsAfter(budget, i);
      if sink.Exhausted() {
        assert items[..i + 1] == items[..i] + [items[i]];
        return true;
      }
      assert items[..i + 1] == items[..i] + [items[i]];
    }
    assert items[..|items|] == items;
    return false;
  }

  // ---------------------------------------------------------------------
  // The paged scan

  datatype Request<+P, +C> = Request(params: P, cursor: C)

  /** What a scan did: the requests it sent, the pages it received, the
      rows it streamed, and how it ended. */
  datatype Trace<+R, +Pg, +I> = Trace(requests: seq<R>, pages: seq<Pg>, rows: seq<I>, outcome: Outcome)

  /** All items of the given pages, in order. */
  function Flatten<Pg, I>(itemsOf: Pg -> seq<I>, pages: seq<Pg>): seq<I>
    decreases |pages|
  {
    if |pages| == 0 then [] else itemsOf(pages[0]) + Flatten(itemsOf, pages[1..])
  }

  /** The scan starting from `cursor`: `budget` rows still wanted, `seen`
      items streamed by earlier pages of this scan, at most `fuel` pages.
      `next(params, cursor, seen, page)` gives the cursor of the following
      request, or `None` to end the scan; `seen` then counts this page's items. */
  function ScanTrace<P, C, Pg, I>(
    api: Request<P, C> -> Result<Pg, Error>, itemsOf: Pg -> seq<I>,
    next: (P, C, nat, Pg) -> Option<C>,
    params: P, cursor: C, budget: Option<int>, seen: nat, fuel: nat): Trace<Request<P, C>, Pg, I>
    decreases fuel, 1
  {
    if fuel == 0 then Trace([], [], [], OutOfFuel)
    else
      match api(Request(params, cursor))
      case Failure(e) => Trace([Request(params, cursor)], [], [], Failed(e))
      case Success(page) => PageTrace(api, itemsOf, next, params, cursor, budget, seen, fuel, page)
  }

  /** The rest of the scan once `page` has answered the request with `cursor`. */
  function PageTrace<P, C, Pg, I>(
    api: Request<P, C> -> Result<Pg, Error>, itemsOf: Pg -> seq<I>,
    next: (P, C, nat, Pg) -> Option<C>,
    params: P, cursor: C, budget: Option<int>, seen: nat, fuel: nat, page: Pg): Trace<Request<P, C>, Pg, I>
    requires fuel > 0
    decreases fuel, 0
  {
    var items := itemsOf(page);
    match StopPoint(|items|, budget)
    case Some(j) => Trace([Request(params, cursor)], [page], items[..j + 1], Done)
    case None =>
      match next(params, cursor, seen + |items|, page)
      case None => Trace([Request(params, cursor)], [page], items, Done)
      case Some(c) =>
        var rest := ScanTrace(api, itemsOf, next, params, c, Remaining(budget, |items|), seen + |items|, fuel - 1);
        Trace([Request(params, cursor)] + rest.requests, [page] + rest.pages, items + rest.rows, rest.outcome)
  }

  /** The sink now holds the scan's rows after the old ones, and the call
      returned the scan's outcome. */
  ghost predicate Scanned<R, Pg, I>(before: seq<I>, after: seq<I>, o: Outcome, t: Trace<R, Pg, I>) {
    after == before + t.rows && o == t.outcome
  }

  /** The list loop shared by all paged tables. */
  method Scan<P, C, Pg, I>(
    api: Request<P, C> -> Result<Pg, Error>, itemsOf: Pg -> seq<I>,
    next: (P, C, nat, Pg) -> Option<C>,
    params: P, cursor0: C, sink: RowSink<I>, fuel: nat) returns (o: Outcome)
    modifies sink
    ensures Scanned(old(sink.rows), sink.rows, o,
                    ScanTrace(api, itemsOf, next, params, cursor0, old(sink.Budget()), 0, fuel))
  {
    ghost var t0 := ScanTrace(api, itemsOf, next, params, cursor0, sink.Budget(), 0, fuel);
    var cursor := cursor0;
    var seen: nat := 0;
    var f := fuel;
    while true
      invariant Scanned(old(sink.rows), sink.rows + ScanTrace(api, itemsOf, next, params, cursor, sink.Budget(), seen, f).rows,
                        ScanTrace(api, itemsOf, next, params, cursor, sink.Budget(), seen, f).outcome, t0)
      decreases f
    {
      if f == 0 {
        return OutOfFuel;
      }
      var response := api(Request(params, cursor));
      if response.Failure? {
        return Failed(response.error);
      }
      var page := response.value;
      var items := itemsOf(page);
      ghost var budget := sink.Budget();
      ghost var rowsBefore := sink.rows;
      ghost var t := ScanTrace(api, itemsOf, next, params, cursor, budget, seen, f);
      assert t == PageTrace(api, itemsOf, next, params, cursor, budget, seen, f, page);
      var stopped := StreamItems(items, sink);
      if stopped {
        return Done;
      }
      assert sink.rows == rowsBefore + items;
      assert sink.Budget() == Remaining(budget, |items|);
      seen := seen + |items|;
      var n := next(params, cursor, seen, page);
      if n.None? {
        return Done;
      }
      ScanContinues(api, itemsOf, next, params, cursor, budget, seen - |items|, f, page, n.value);
      cursor := n.value;
      f := f - 1;
    }
  }

  // ---------------------------------------------------------------------
  // What every scan guarantees

  /** One page that neither ends the budget nor the scan: the trace is that
      page followed by the scan from the next cursor. */
  lemma ScanContinues<P, C, Pg, I>(
    api: Request<P, C> -> Result<Pg, Error>, itemsOf: Pg -> seq<I>, next: (P, C, nat, Pg) -> Option<C>,
    params: P, cursor: C, budget: Option<int>, seen: nat, fuel: nat, page: Pg, c: C)
    requires fuel > 0
    requires api(Request(params, cursor)) == Success(page)
    requires StopPoint(|itemsOf(page)|, budget).None?
    requires next(params, cursor, seen + |itemsOf(page)|, page) == Some(c)
    ensures var rest := ScanTrace(api, itemsOf, next, params, c, Remaining(budget, |itemsOf(page)|), seen + |itemsOf(page)|, fuel - 1);
            ScanTrace(api, itemsOf, next, params, cursor, budget, seen, fuel)
            == Trace([Request(params, cursor)] + rest.requests, [page] + rest.pages, itemsOf(page) + rest.rows, rest.outcome)
  {
  }

  /** Every request carries the table's parameters: successive requests
      differ only in their cursor. */
  lemma {:induction false} SameParams<P, C, Pg, I>(
    api: Request<P, C> -> Result<Pg, Error>, itemsOf: Pg -> seq<I>, next: (P, C, nat, Pg) -> Option<C>,
    params: P, cursor: C, budget: Option<int>, seen: nat, fuel: nat)
    ensures var t := ScanTrace(api, itemsOf, next, params, cursor, budget, seen, fuel);
            forall i :: 0 <= i < |t.requests| ==> t.requests[i].params == params
    decreases fuel
  {
    if fuel > 0 {
      var req := Request(params, cursor);
      if api(req).Success? {
        var page := api(req).value;
        var items := itemsOf(page);
        if StopPoint(|items|, budget).None? {
          var n := next(params, cursor, seen + |items|, page);
          if n.Some? {
            SameParams(api, itemsOf, next, params, n.value, Remaining(budget, |items|), seen + |items|, fuel - 1);
            ScanContinues(api, itemsOf, next, params, cursor, budget, seen, fuel, page, n.value);
          }
        }
      }
    }
  }

  /** The first request uses the initial cursor; an error answers the last
      request, after which nothing more is asked; running out of fuel means
      every request was answered with a page that asked for more. */
  lemma {:induction false} TraceShape<P, C, Pg, I>(
    api: Request<P, C> -> Result<Pg, Error>, itemsOf: Pg -> seq<I>, next: (P, C, nat, Pg) -> Option<C>,
    params: P, cursor: C, budget: Option<int>, seen: nat, fuel: nat)
    ensures var t := ScanTrace(api, itemsOf, next, params, cursor, budget, seen, fuel);
      && |t.requests| <= fuel
      && (fuel > 0 ==> |t.requests| > 0 && t.requests[0] == Request(params, cursor))
      && (t.outcome.Failed? ==> |t.requests| == |t.pages| + 1
                                && api(t.requests[|t.pages|]) == Failure(t.outcome.err))
      && (!t.outcome.Failed? ==> |t.requests| == |t.pages|)
      && (t.outcome == OutOfFuel ==> |t.requests| == fuel)
    decreases fuel
  {
    if fuel > 0 {
      var req := Request(params, cursor);
      if api(req).Success? {
        var page := api(req).value;
        var items := itemsOf(page);
        if StopPoint(|items|, budget).None? {
          var n := next(params, cursor, seen + |items|, page);
          if n.Some? {
            TraceShape(api, itemsOf, next, params, n.value, Remaining(budget, |items|), seen + |items|, fuel - 1);
            ScanContinues(api, itemsOf, next, params, cursor, budget, seen, fuel, page, n.value);
          }
        }
      }
    }
  }

  /** Each page is the API's answer to the request at the same position. */
  lemma {:induction false} PagesAnswerRequests<P, C, Pg, I>(
    api: Request<P, C> -> Result<Pg, Error>, itemsOf: Pg -> seq<I>, next: (P, C, nat, Pg) -> Option<C>,
    params: P, cursor: C, budget: Option<int>, seen: nat, fuel: nat)
    ensures var t := ScanTrace(api, itemsOf, next, params, cursor, budget, seen, fuel);
      |t.pages| <= |t.requests| && forall i :: 0 <= i < |t.pages| ==> api(t.requests[i]) == Success(t.pages[i])
    decreases fuel
  {
    if fuel > 0 {
      var req := Request(params, cursor);
      if api(req).Success? {
        var page := api(req).value;
        var items := itemsOf(page);
        if StopPoint(|items|, budget).None? {
          var n := next(params, cursor, seen + |items|, page);
          if n.Some? {
            PagesAnswerRequests(api, itemsOf, next, params, n.value, Remaining(budget, |items|), seen + |items|, fuel - 1);
            ScanContinues(api, itemsOf, next, params, cursor, budget, seen, fuel, page, n.value);
          }
        }
      }
    }
  }

  /** Request `i + 1` of trace `t` carries the cursor the discipline derived
      from page `i`, given the items seen up to and including that page. */
  ghost predicate Linked<P, C, Pg, I>(itemsOf: Pg -> seq<I>, next: (P, C, nat, Pg) -> Option<C>,
                                params: P, seen: nat, t: Trace<Request<P, C>, Pg, I>, i: nat) {
    i + 1 < |t.requests| && i < |t.pages|
    && next(params, t.requests[i].cursor, seen + |Flatten(itemsOf, t.pages[..i + 1])|, t.pages[i])
       == Some(t.requests[i + 1].cursor)
  }

  lemma FlattenCons<Pg, I>(itemsOf: Pg -> seq<I>, page: Pg, pages: seq<Pg>, i: nat)
    requires i <= |pages|
    ensures Flatten(itemsOf, ([page] + pages)[..i + 1]) == itemsOf(page) + Flatten(itemsOf, pages[..i])
  {
    assert ([page] + pages)[..i + 1] == [page] + pages[..i];
    assert ([page] + pages[..i])[1..] == pages[..i];
  }

  /** Each further request uses the cursor the discipline derived from the
      previous page. */
  lemma {:induction false} CursorChain<P, C, Pg, I>(
    api: Request<P, C> -> Result<Pg, Error>, itemsOf: Pg -> seq<I>, next: (P, C, nat, Pg) -> Option<C>,
    params: P, cursor: C, budget: Option<int>, seen: nat, fuel: nat)
    ensures var t := ScanTrace(api, itemsOf, next, params, cursor, budget, seen, fuel);
      forall i: nat :: i + 1 < |t.requests| ==> Linked(itemsOf, next, params, seen, t, i)
    decreases fuel
  {
    var t := ScanTrace(api, itemsOf, next, params, cursor, budget, seen, fuel);
    if fuel > 0 {
      var req := Request(params, cursor);
      if api(req).Success? {
        var page := api(req).value;
        var items := itemsOf(page);
        if StopPoint(|items|, budget).None? {
          var n := next(params, cursor, seen + |items|, page);
          if n.Some? {
            var b' := Remaining(budget, |items|);
            var s' := seen + |items|;
            CursorChain(api, itemsOf, next, params, n.value, b', s', fuel - 1);
            TraceShape(api, itemsOf, next, params, n.value, b', s', fuel - 1);
            ScanContinues(api, itemsOf, next, params, cursor, budget, seen, fuel, page, n.value);
            var rest := ScanTrace(api, itemsOf, next, params, n.value, b', s', fuel - 1);
            forall i: nat | i + 1 < |t.requests|
              ensures Linked(itemsOf, next, params, seen, t, i)
            {
              LinkedCons(itemsOf, next, params, seen, req, page, rest, n.value, i, s');
            }
          }
        }
      }
    }
  }

  lemma LinkedCons<P, C, Pg, I>(itemsOf: Pg -> seq<I>, next: (P, C, nat, Pg) -> Option<C>, params: P, seen: nat,
                                req: Request<P, C>, page: Pg, rest: Trace<Request<P, C>, Pg, I>, c: C, i: nat, seen': nat)
    requires seen' == seen + |itemsOf(page)|
    requires next(params, req.cursor, seen', page) == Some(c)
    requires |rest.requests| > 0 && rest.requests[0].cursor == c
    requires forall k: nat :: k + 1 < |rest.requests| ==> Linked(itemsOf, next, params, seen', rest, k)
    requires i < |rest.requests|
    ensures Linked(itemsOf, next, params, seen,
                   Trace([req] + rest.requests, [page] + rest.pages, itemsOf(page) + rest.rows, rest.outcome), i)
  {
    var t := Trace([req] + rest.requests, [page] + rest.pages, itemsOf(page) + rest.rows, rest.outcome);
    if i == 0 {
      FlattenCons(itemsOf, page, rest.pages, 0);
      assert rest.pages[..0] == [];
    } else {
      assert Linked(itemsOf, next, params, seen', rest, i - 1);
      FlattenCons(itemsOf, page, rest.pages, i);
      assert t.requests[i] == rest.requests[i - 1];
    }
  }

  /** The rows of a scan are the items of its pages in order, cut short only
      by the budget: right after the row that used it up, the scan ends. */
  lemma {:induction false} RowsFollowPages<P, C, Pg, I>(
    api: Request<P, C> -> Result<Pg, Error>, itemsOf: Pg -> seq<I>, next: (P, C, nat, Pg) -> Option<C>,
    params: P, cursor: C, budget: Option<int>, seen: nat, fuel: nat)
    ensures var t := ScanTrace(api, itemsOf, next, params, cursor, budget, seen, fuel);
            var all := Flatten(itemsOf, t.pages);
      && t.rows <= all
      && (forall j :: 0 <= j < |t.rows| - 1 ==> !StopsAfter(budget, j))
      && (|t.rows| < |all| ==> t.outcome == Done && StopsAfter(budget, |t.rows| - 1))
      && (t.outcome != Done ==> t.rows == all)
      && (budget.None? ==> t.rows == all)
    decreases fuel
  {
    var t := ScanTrace(api, itemsOf, next, params, cursor, budget, seen, fuel);
    if fuel > 0 {
      var req := Request(params, cursor);
      if api(req).Success? {
        var page := api(req).value;
        var items := itemsOf(page);
        assert Flatten(itemsOf, [page]) == items;
        match StopPoint(|items|, budget)
        case Some(j) =>
          assert t.rows == items[..j + 1];
        case None =>
          var n := next(params, cursor, seen + |items|, page);
          if n.Some? {
            var b' := Remaining(budget, |items|);
            var s' := seen + |items|;
            RowsFollowPages(api, itemsOf, next, params, n.value, b', s', fuel - 1);
            var rest := ScanTrace(api, itemsOf, next, params, n.value, b', s', fuel - 1);
            assert t.pages == [page] + rest.pages;
            assert t.pages[1..] == rest.pages;
            assert Flatten(itemsOf, t.pages) == items + Flatten(itemsOf, rest.pages);
            forall j | |items| <= j < |t.rows| - 1
              ensures !StopsAfter(budget, j)
            {
              assert !StopsAfter(b', j - |items|);
            }
            if |t.rows| < |Flatten(itemsOf, t.pages)| {
              assert StopsAfter(b', |rest.rows| - 1);
            }
          }
      }
    }
  }

  /** Once the budget is used up no further page is fetched: the row that
      used it up lies in the last page received. */
  lemma {:induction false} BudgetEndsFetching<P, C, Pg, I>(
    api: Request<P, C> -> Result<Pg, Error>, itemsOf: Pg -> seq<I>, next: (P, C, nat, Pg) -> Option<C>,
    params: P, cursor: C, budget: Option<int>, seen: nat, fuel: nat)
    ensures var t := ScanTrace(api, itemsOf, next, params, cursor, budget, seen, fuel);
      |t.rows| > 0 && StopsAfter(budget, |t.rows| - 1) ==>
        t.outcome == Done && |t.pages| > 0
        && |Flatten(itemsOf, t.pages[..|t.pages| - 1])| < |t.rows|
    decreases fuel
  {
    var t := ScanTrace(api, itemsOf, next, params, cursor, budget, seen, fuel);
    if fuel > 0 {
      var req := Request(params, cursor);
      if api(req).Success? {
        var page := api(req).value;
        var items := itemsOf(page);
        if StopPoint(|items|, budget).None? {
          var n := next(params, cursor, seen + |items|, page);
          if n.Some? {
            var b' := Remaining(budget, |items|);
            var s' := seen + |items|;
            BudgetEndsFetching(api, itemsOf, next, params, n.value, b', s', fuel - 1);
            var rest := ScanTrace(api, itemsOf, next, params, n.value, b', s', fuel - 1);
            if |t.rows| > 0 && StopsAfter(budget, |t.rows| - 1) {
              assert |t.rows| > |items| by {
                assert !StopsAfter(budget, |items| - 1) || |items| == 0;
              }
              assert StopsAfter(b', |rest.rows| - 1);
              assert t.pages == [page] + rest.pages;
              assert t.pages[..|t.pages| - 1] == [page] + rest.pages[..|rest.pages| - 1];
              assert ([page] + rest.pages[..|rest.pages| - 1])[1..] == rest.pages[..|rest.pages| - 1];
            }
          } else {
            assert t.pages[..0] == [];
          }
        } else {
          assert t.pages[..0] == [];
        }
      }
    }
  }

  /** A scan that ends without an error and without using up the budget
      ends because the discipline found no next cursor. */
  lemma {:induction false} DoneMeansLastPage<P, C, Pg, I>(
    api: Request<P, C> -> Result<Pg, Error>, itemsOf: Pg -> seq<I>, next: (P, C, nat, Pg) -> Option<C>,
    params: P, cursor: C, budget: Option<int>, seen: nat, fuel: nat)
    ensures var t := ScanTrace(api, itemsOf, next, params, cursor, budget, seen, fuel);
      t.outcome == Done && (|t.rows| == 0 || !StopsAfter(budget, |t.rows| - 1)) ==>
        EndedByDiscipline(itemsOf, next, params, seen, t)
    decreases fuel
  {
    if fuel > 0 {
      var req := Request(params, cursor);
      if api(req).Success? {
        var page := api(req).value;
        var items := itemsOf(page);
        match StopPoint(|items|, budget)
        case Some(j) =>
        case None =>
          var n := next(params, cursor, seen + |items|, page);
          if n.None? {
            assert Flatten(itemsOf, [page]) == items;
          } else {
            var b' := Remaining(budget, |items|);
            var s' := seen + |items|;
            DoneMeansLastPage(api, itemsOf, next, params, n.value, b', s', fuel - 1);
            ScanContinues(api, itemsOf, next, params, cursor, budget, seen, fuel, page, n.value);
            var rest := ScanTrace(api, itemsOf, next, params, n.value, b', s', fuel - 1);
            if rest.outcome == Done && |rest.rows| > 0 && !StopsAfter(budget, |items| + |rest.rows| - 1) {
              assert !StopsAfter(b', |rest.rows| - 1);
            }
            if rest.outcome == Done && (|rest.rows| == 0 || !StopsAfter(b', |rest.rows| - 1)) {
              EndedCons(itemsOf, next, params, seen, req, page, rest, s');
            }
          }
      }
    }
  }

  /** The last page of `t` answered the last request, and the discipline
      found no cursor after it. */
  ghost predicate EndedByDiscipline<P, C, Pg, I>(itemsOf: Pg -> seq<I>, next: (P, C, nat, Pg) -> Option<C>,
                                                 params: P, seen: nat, t: Trace<Request<P, C>, Pg, I>) {
    |t.pages| > 0 && |t.requests| == |t.pages|
    && next(params, t.requests[|t.pages| - 1].cursor, seen + |Flatten(itemsOf, t.pages)|, t.pages[|t.pages| - 1]) == None
  }

  lemma EndedCons<P, C, Pg, I>(itemsOf: Pg -> seq<I>, next: (P, C, nat, Pg) -> Option<C>, params: P, seen: nat,
                               req: Request<P, C>, page: Pg, rest: Trace<Request<P, C>, Pg, I>, seen': nat)
    requires seen' == seen + |itemsOf(page)|
    requires EndedByDiscipline(itemsOf, next, params, seen', rest)
    ensures EndedByDiscipline(itemsOf, next, params, seen,
                              Trace([req] + rest.requests, [page] + rest.pages, itemsOf(page) + rest.rows, rest.outcome))
  {
    var pages := [page] + rest.pages;
    assert pages[1..] == rest.pages;
  }
}
