/** The cursor disciplines the paged tables share, and the in-loop
    page-token check of three tables. */
module Cursors {
  import opened Wrappers
  import opened Framework
  import opened Paging

  // ---------------------------------------------------------------------
  // Page tokens: ask again with `NextPageToken` until it is empty.

  datatype TokenPage<+I> = TokenPage(items: seq<I>, nextPageToken: string)

  function TokenItems<I>(page: TokenPage<I>): seq<I> {
    page.items
  }

  function NextByToken<P, I>(params: P, cursor: string, seen: nat, page: TokenPage<I>): Option<string> {
    if page.nextPageToken == "" then None else Some(page.nextPageToken)
  }

  /** The first request has no token; each further request carries the
      non-empty token of the page before it; a scan the discipline ends
      ends on a page without a token. */
  lemma TokenDiscipline<P, E, I>(api: Request<P, string> -> Result<TokenPage<E>, Error>, itemsOf: TokenPage<E> -> seq<I>,
                                 params: P, budget: Option<int>, fuel: nat)
    ensures var t := ScanTrace(api, itemsOf, NextByToken, params, "", budget, 0, fuel);
      && (|t.requests| > 0 ==> t.requests[0].cursor == "")
      && (forall i: nat :: i + 1 < |t.requests| ==> (i < |t.pages| &&
            t.pages[i].nextPageToken != "" && t.requests[i + 1].cursor == t.pages[i].nextPageToken))
      && (EndedByDiscipline(itemsOf, NextByToken, params, 0, t) ==> t.pages[|t.pages| - 1].nextPageToken == "")
  {
    var t := ScanTrace(api, itemsOf, NextByToken, params, "", budget, 0, fuel);
    TraceShape(api, itemsOf, NextByToken, params, "", budget, 0, fuel);
    CursorChain(api, itemsOf, NextByToken, params, "", budget, 0, fuel);
    forall i: nat | i + 1 < |t.requests|
      ensures i < |t.pages| && t.pages[i].nextPageToken != "" && t.requests[i + 1].cursor == t.pages[i].nextPageToken
    {
      assert Linked(itemsOf, NextByToken, params, 0, t, i);
    }
  }

  // ---------------------------------------------------------------------
  // `HasMore`: ask again with `NextPageToken` while the page says there is more.

  datatype HasMorePage<+I> = HasMorePage(items: seq<I>, hasMore: bool, nextPageToken: string)

  function HasMoreItems<I>(page: HasMorePage<I>): seq<I> {
    page.items
  }

  function NextByHasMore<P, I>(params: P, cursor: string, seen: nat, page: HasMorePage<I>): Option<string> {
    if page.hasMore then Some(page.nextPageToken) else None
  }

  /** Each further request follows a page that said it had more, and
      carries that page's token (even an empty one); a scan the discipline
      ends ends on a page that said it had no more. */
  lemma HasMoreDiscipline<P, I>(api: Request<P, string> -> Result<HasMorePage<I>, Error>,
                                params: P, budget: Option<int>, fuel: nat)
    ensures var t := ScanTrace(api, HasMoreItems, NextByHasMore, params, "", budget, 0, fuel);
      && (|t.requests| > 0 ==> t.requests[0].cursor == "")
      && (forall i: nat :: i + 1 < |t.requests| ==> (i < |t.pages| &&
            t.pages[i].hasMore && t.requests[i + 1].cursor == t.pages[i].nextPageToken))
      && (EndedByDiscipline(HasMoreItems, NextByHasMore, params, 0, t) ==> !t.pages[|t.pages| - 1].hasMore)
  {
    var t := ScanTrace(api, HasMoreItems, NextByHasMore, params, "", budget, 0, fuel);
    TraceShape(api, HasMoreItems, NextByHasMore, params, "", budget, 0, fuel);
    CursorChain(api, HasMoreItems, NextByHasMore, params, "", budget, 0, fuel);
    forall i: nat | i + 1 < |t.requests|
      ensures i < |t.pages| && t.pages[i].hasMore && t.requests[i + 1].cursor == t.pages[i].nextPageToken
    {
      assert Linked(HasMoreItems, NextByHasMore, params, 0, t, i);
    }
  }

  // ---------------------------------------------------------------------
  // SCIM pagination (section 3.4.2.4 of RFC 7644): `StartIndex` from 1,
  // advanced by `Count`, until a page comes back short.

  /** The fixed part of a SCIM list request. */
  datatype ScimParams = ScimParams(count: int, filter: string)

  function PlainItems<I>(page: seq<I>): seq<I> {
    page
  }

  /** Stop when fewer resources than `Count` came back. */
  function NextStartIndex<I>(params: ScimParams, startIndex: int, seen: nat, page: seq<I>): Option<int> {
    if |page| < params.count then None else Some(startIndex + params.count)
  }

  /** A SCIM list response with its `itemsPerPage` field. */
  datatype ScimResponse<+I> = ScimResponse(resources: seq<I>, itemsPerPage: int)

  function ScimResources<I>(page: ScimResponse<I>): seq<I> {
    page.resources
  }

  /** Stop when the server reports fewer items per page than `Count`. */
  function NextStartIndexByItemsPerPage<I>(params: ScimParams, startIndex: int, seen: nat, page: ScimResponse<I>): Option<int> {
    if page.itemsPerPage < params.count then None else Some(startIndex + params.count)
  }

  lemma StartIndexStep(count: int, i: nat, s: int)
    requires s == 1 + i * count
    ensures s + count == 1 + (i + 1) * count
  {
  }

  /** Request `i` starts at `1 + i * Count`, and every page but the last
      came back with at least `Count` resources. */
  lemma {:induction false} StartIndexDiscipline<I>(api: Request<ScimParams, int> -> Result<seq<I>, Error>,
                                                   params: ScimParams, budget: Option<int>, fuel: nat)
    ensures var t := ScanTrace(api, PlainItems, NextStartIndex, params, 1, budget, 0, fuel);
      && (forall i: nat :: i < |t.requests| ==> t.requests[i].cursor == 1 + i * params.count)
      && (forall i: nat :: i + 1 < |t.requests| ==> i < |t.pages| && |t.pages[i]| >= params.count)
      && (EndedByDiscipline(PlainItems, NextStartIndex, params, 0, t) ==> |t.pages[|t.pages| - 1]| < params.count)
  {
    var t := ScanTrace(api, PlainItems, NextStartIndex, params, 1, budget, 0, fuel);
    TraceShape(api, PlainItems, NextStartIndex, params, 1, budget, 0, fuel);
    CursorChain(api, PlainItems, NextStartIndex, params, 1, budget, 0, fuel);
    var i: nat := 0;
    while i < |t.requests|
      invariant i <= |t.requests|
      invariant forall k: nat :: k < i ==> t.requests[k].cursor == 1 + k * params.count
      invariant forall k: nat :: k + 1 < i ==> k < |t.pages| && |t.pages[k]| >= params.count
    {
      if i > 0 {
        assert Linked(PlainItems, NextStartIndex, params, 0, t, i - 1);
        StartIndexStep(params.count, i - 1, t.requests[i - 1].cursor);
      }
      i := i + 1;
    }
  }

  /** The same progression when the stop test reads `itemsPerPage`: the
      number of resources a page holds plays no part in it. */
  lemma {:induction false} ItemsPerPageDiscipline<I>(api: Request<ScimParams, int> -> Result<ScimResponse<I>, Error>,
                                                     params: ScimParams, budget: Option<int>, fuel: nat)
    ensures var t := ScanTrace(api, ScimResources, NextStartIndexByItemsPerPage, params, 1, budget, 0, fuel);
      && (forall i: nat :: i < |t.requests| ==> t.requests[i].cursor == 1 + i * params.count)
      && (forall i: nat :: i + 1 < |t.requests| ==> i < |t.pages| && t.pages[i].itemsPerPage >= params.count)
      && (EndedByDiscipline(ScimResources, NextStartIndexByItemsPerPage, params, 0, t) ==>
            t.pages[|t.pages| - 1].itemsPerPage < params.count)
  {
    var t := ScanTrace(api, ScimResources, NextStartIndexByItemsPerPage, params, 1, budget, 0, fuel);
    TraceShape(api, ScimResources, NextStartIndexByItemsPerPage, params, 1, budget, 0, fuel);
    CursorChain(api, ScimResources, NextStartIndexByItemsPerPage, params, 1, budget, 0, fuel);
    var i: nat := 0;
    while i < |t.requests|
      invariant i <= |t.requests|
      invariant forall k: nat :: k < i ==> t.requests[k].cursor == 1 + k * params.count
      invariant forall k: nat :: k + 1 < i ==> k < |t.pages| && t.pages[k].itemsPerPage >= params.count
    {
      if i > 0 {
        assert Linked(ScimResources, NextStartIndexByItemsPerPage, params, 0, t, i - 1);
        StartIndexStep(params.count, i - 1, t.requests[i - 1].cursor);
      }
      i := i + 1;
    }
  }

  // ---------------------------------------------------------------------
  // The in-loop token check: the loop over a page's items itself tests
  // `NextPageToken` after every item and returns when it is empty.

  /** Whether the in-loop check returns while streaming a page with these
      items: after the first item when the token is empty, else after the
      item that uses up the budget. A page without items never returns. */
  predicate InLoopStops<I>(items: seq<I>, token: string, budget: Option<int>) {
    |items| > 0 && (token == "" || StopPoint(|items|, budget).Some?)
  }

  /** The items streamed from a page on which the in-loop check returns. */
  function InLoopRows<I>(items: seq<I>, token: string, budget: Option<int>): seq<I>
    requires |items| > 0
  {
    if token == "" then [items[0]] else Streamed(items, budget)
  }

  /** The scan as that loop runs it. The token is copied into the request
      only while an item is streamed, so after a page without items the
      same request is sent again. */
  function InLoopTrace<P, E, I>(api: Request<P, string> -> Result<TokenPage<E>, Error>, itemsOf: TokenPage<E> -> seq<I>,
                                params: P, cursor: string, budget: Option<int>, fuel: nat): Trace<Request<P, string>, TokenPage<E>, I>
    decreases fuel, 1
  {
    if fuel == 0 then Trace([], [], [], OutOfFuel)
    else
      match api(Request(params, cursor))
      case Failure(e) => Trace([Request(params, cursor)], [], [], Failed(e))
      case Success(page) => InLoopPage(api, itemsOf, params, cursor, budget, fuel, page)
  }

  function InLoopPage<P, E, I>(api: Request<P, string> -> Result<TokenPage<E>, Error>, itemsOf: TokenPage<E> -> seq<I>,
                               params: P, cursor: string, budget: Option<int>, fuel: nat, page: TokenPage<E>)
    : Trace<Request<P, string>, TokenPage<E>, I>
    requires fuel > 0
    decreases fuel, 0
  {
    var req := Request(params, cursor);
    var items := itemsOf(page);
    if InLoopStops(items, page.nextPageToken, budget) then
      Trace([req], [page], InLoopRows(items, page.nextPageToken, budget), Done)
    else
      var next := if |items| == 0 then cursor else page.nextPageToken;
      var rest := InLoopTrace(api, itemsOf, params, next, Remaining(budget, |items|), fuel - 1);
      Trace([req] + rest.requests, [page] + rest.pages, items + rest.rows, rest.outcome)
  }

  /** The per-item loop: stream, test the budget, test the token, copy the
      token into the request. */
  method StreamInLoop<I>(items: seq<I>, token: string, cursor0: string, sink: RowSink<I>) returns (stopped: bool, cursor: string)
    modifies sink
    ensures stopped <==> InLoopStops(items, token, old(sink.Budget()))
    ensures stopped ==> sink.rows == old(sink.rows) + InLoopRows(items, token, old(sink.Budget()))
    ensures !stopped ==> sink.rows == old(sink.rows) + items && sink.Budget() == Remaining(old(sink.Budget()), |items|)
    ensures !stopped ==> cursor == if |items| == 0 then cursor0 else token
  {
    ghost var budget := sink.Budget();
    stopped := false;
    cursor := cursor0;
    for i := 0 to |items|
      invariant sink.rows == old(sink.rows) + items[..i]
      invariant forall k :: 0 <= k < i ==> !StopsAfter(budget, k)
      invariant i > 0 ==> token != "" && cursor == token
      invariant i == 0 ==> cursor == cursor0
    {
      sink.StreamListItem(items[i]);
      assert items[..i + 1] == items[..i] + [items[i]];
      assert sink.Exhausted() <==> StopsAfter(budget, i);
      if sink.Exhausted() {
        return true, cursor;
      }
      if token == "" {
        return true, cursor;
      }
      cursor := token;
    }
    assert items[..|items|] == items;
  }

  /** The list loop of the tables with the in-loop token check. */
  method ScanInLoopToken<P, E, I>(api: Request<P, string> -> Result<TokenPage<E>, Error>, itemsOf: TokenPage<E> -> seq<I>,
                                  params: P, sink: RowSink<I>, fuel: nat) returns (o: Outcome)
    modifies sink
    ensures Scanned(old(sink.rows), sink.rows, o, InLoopTrace(api, itemsOf, params, "", old(sink.Budget()), fuel))
  {
    ghost var t0 := InLoopTrace(api, itemsOf, params, "", sink.Budget(), fuel);
    var cursor := "";
    var f := fuel;
    while true
      invariant Scanned(old(sink.rows), sink.rows + InLoopTrace(api, itemsOf, params, cursor, sink.Budget(), f).rows,
                        InLoopTrace(api, itemsOf, params, cursor, sink.Budget(), f).outcome, t0)
      decreases f
    {
      if f == 0 {
        return OutOfFuel;
      }
      var response := api(Request(params, cursor));
      if response.Failure? {
        return Failed(response.error);
      }
      var page := response.value;
      ghost var t := InLoopTrace(api, itemsOf, params, cursor, sink.Budget(), f);
      assert t == InLoopPage(api, itemsOf, params, cursor, sink.Budget(), f, page);
      var stopped;
      stopped, cursor := StreamInLoop(itemsOf(page), page.nextPageToken, cursor, sink);
      if stopped {
        return Done;
      }
      f := f - 1;
    }
  }

  /** Every request of the in-loop version carries the same fixed part. */
  lemma {:induction false} InLoopSameParams<P, E, I>(api: Request<P, string> -> Result<TokenPage<E>, Error>,
                                                     itemsOf: TokenPage<E> -> seq<I>, params: P, cursor: string,
                                                     budget: Option<int>, fuel: nat)
    ensures var t := InLoopTrace(api, itemsOf, params, cursor, budget, fuel);
      forall i :: 0 <= i < |t.requests| ==> t.requests[i].params == params
    decreases fuel
  {
    if fuel > 0 && api(Request(params, cursor)).Success? {
      var page := api(Request(params, cursor)).value;
      var items := itemsOf(page);
      var t := InLoopTrace(api, itemsOf, params, cursor, budget, fuel);
      assert t == InLoopPage(api, itemsOf, params, cursor, budget, fuel, page);
      if !InLoopStops(items, page.nextPageToken, budget) {
        var next := if |items| == 0 then cursor else page.nextPageToken;
        var rest := InLoopTrace(api, itemsOf, params, next, Remaining(budget, |items|), fuel - 1);
        InLoopSameParams(api, itemsOf, params, next, Remaining(budget, |items|), fuel - 1);
        assert var t' := InLoopTrace(api, itemsOf, params, next, Remaining(budget, |items|), fuel - 1);
          forall i :: 0 <= i < |t'.requests| ==> t'.requests[i].params == params;
        assert t.requests == [Request(params, cursor)] + rest.requests;
        forall i | 0 <= i < |t.requests|
          ensures t.requests[i].params == params
        {
          if i > 0 {
            assert t.requests[i] == rest.requests[i - 1];
          }
        }
      }
    }
  }

  /** A property every item of every page has holds of every row the
      in-loop version streams. */
  lemma {:induction false} InLoopRowsSatisfy<P, E, I>(api: Request<P, string> -> Result<TokenPage<E>, Error>,
                                                      itemsOf: TokenPage<E> -> seq<I>, params: P, cursor: string,
                                                      budget: Option<int>, fuel: nat, good: I -> bool)
    requires forall pg: TokenPage<E>, x: I :: x in itemsOf(pg) ==> good(x)
    ensures forall x :: x in InLoopTrace(api, itemsOf, params, cursor, budget, fuel).rows ==> good(x)
    decreases fuel
  {
    if fuel > 0 && api(Request(params, cursor)).Success? {
      var page := api(Request(params, cursor)).value;
      var items := itemsOf(page);
      assert InLoopTrace(api, itemsOf, params, cursor, budget, fuel) == InLoopPage(api, itemsOf, params, cursor, budget, fuel, page);
      if InLoopStops(items, page.nextPageToken, budget) {
        StreamedIsPrefix(items, budget);
        assert forall x :: x in InLoopRows(items, page.nextPageToken, budget) ==> x in items;
      } else {
        var next := if |items| == 0 then cursor else page.nextPageToken;
        InLoopRowsSatisfy(api, itemsOf, params, next, Remaining(budget, |items|), fuel - 1, good);
      }
    }
  }

  /** On a page without a token only its first item is streamed; the
      token discipline streams the whole page (up to the budget). */
  lemma InLoopDropsRestOfLastPage<P, E, I>(api: Request<P, string> -> Result<TokenPage<E>, Error>, itemsOf: TokenPage<E> -> seq<I>,
                                           params: P, cursor: string, budget: Option<int>, seen: nat, fuel: nat, page: TokenPage<E>)
    requires fuel > 0
    requires api(Request(params, cursor)) == Success(page)
    requires page.nextPageToken == "" && |itemsOf(page)| > 0
    ensures InLoopTrace(api, itemsOf, params, cursor, budget, fuel) == Trace([Request(params, cursor)], [page], [itemsOf(page)[0]], Done)
    ensures ScanTrace(api, itemsOf, NextByToken, params, cursor, budget, seen, fuel)
            == Trace([Request(params, cursor)], [page], Streamed(itemsOf(page), budget), Done)
  {
    assert InLoopTrace(api, itemsOf, params, cursor, budget, fuel) == InLoopPage(api, itemsOf, params, cursor, budget, fuel, page);
    assert ScanTrace(api, itemsOf, NextByToken, params, cursor, budget, seen, fuel)
           == PageTrace(api, itemsOf, NextByToken, params, cursor, budget, seen, fuel, page);
  }

  /** A query without a limit on a single page `[x, y]` gets the row `x`
      from the in-loop check and the rows `x, y` from the token discipline. */
  lemma InLoopSinglePageExample<P, E>(params: P, x: E, y: E)
    ensures var api := (r: Request<P, string>) => Success(TokenPage([x, y], ""));
      InLoopTrace(api, TokenItems, params, "", None, 1).rows == [x]
      && ScanTrace(api, TokenItems, NextByToken, params, "", None, 0, 1).rows == [x, y]
  {
    var api := (r: Request<P, string>) => Success(TokenPage([x, y], ""));
    InLoopDropsRestOfLastPage(api, TokenItems, params, "", None, 0, 1, TokenPage([x, y], ""));
  }

  /** A page without items makes the in-loop version send the same request
      again and again: it never ends by itself. The token discipline ends
      after that page when it has no token. */
  lemma {:induction false} InLoopEmptyPageRepeats<P, E, I>(api: Request<P, string> -> Result<TokenPage<E>, Error>,
                                                           itemsOf: TokenPage<E> -> seq<I>, params: P, cursor: string,
                                                           budget: Option<int>, fuel: nat, page: TokenPage<E>)
    requires api(Request(params, cursor)) == Success(page)
    requires |itemsOf(page)| == 0
    ensures var t := InLoopTrace(api, itemsOf, params, cursor, budget, fuel);
      && t.outcome == OutOfFuel && t.rows == [] && |t.requests| == fuel
      && forall i :: 0 <= i < |t.requests| ==> t.requests[i] == Request(params, cursor)
    ensures fuel > 0 && page.nextPageToken == "" ==>
      ScanTrace(api, itemsOf, NextByToken, params, cursor, budget, 0, fuel).outcome == Done
    decreases fuel
  {
    if fuel > 0 {
      InLoopEmptyPageRepeats(api, itemsOf, params, cursor, budget, fuel - 1, page);
      assert InLoopTrace(api, itemsOf, params, cursor, budget, fuel) == InLoopPage(api, itemsOf, params, cursor, budget, fuel, page);
      assert ScanTrace(api, itemsOf, NextByToken, params, cursor, budget, 0, fuel)
             == PageTrace(api, itemsOf, NextByToken, params, cursor, budget, 0, fuel, page);
    }
  }

  /** On pages that have items and a token, the two loops agree: they
      differ only on the last page, or on a page without items. */
  lemma {:induction false} InLoopAgreesWhileTokens<P, E, I>(api: Request<P, string> -> Result<TokenPage<E>, Error>,
                                                            itemsOf: TokenPage<E> -> seq<I>, params: P, cursor: string,
                                                            budget: Option<int>, seen: nat, fuel: nat)
    requires forall r :: api(r).Success? ==> |itemsOf(api(r).value)| > 0 && api(r).value.nextPageToken != ""
    ensures InLoopTrace(api, itemsOf, params, cursor, budget, fuel).rows
            == ScanTrace(api, itemsOf, NextByToken, params, cursor, budget, seen, fuel).rows
    ensures InLoopTrace(api, itemsOf, params, cursor, budget, fuel).outcome
            == ScanTrace(api, itemsOf, NextByToken, params, cursor, budget, seen, fuel).outcome
    decreases fuel
  {
    if fuel > 0 {
      var req := Request(params, cursor);
      if api(req).Success? {
        var page := api(req).value;
        var items := itemsOf(page);
        assert InLoopTrace(api, itemsOf, params, cursor, budget, fuel) == InLoopPage(api, itemsOf, params, cursor, budget, fuel, page);
        assert ScanTrace(api, itemsOf, NextByToken, params, cursor, budget, seen, fuel)
               == PageTrace(api, itemsOf, NextByToken, params, cursor, budget, seen, fuel, page);
        if StopPoint(|items|, budget).None? {
          InLoopAgreesWhileTokens(api, itemsOf, params, page.nextPageToken, Remaining(budget, |items|), seen + |items|, fuel - 1);
        }
      }
    }
  }
}
