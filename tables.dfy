/** The shapes every table's list and get functions share: connect, then
    either run the paging loop or stream the one list the API returns. */
module Tables {
  import opened Wrappers
  import opened Framework
  import opened Paging
  import opened Cursors
  import opened Utils

  /** `d.EqualsQuals[key] != nil`: the query has an `=` qual on the column. */
  predicate HasEqualsQual(d: QueryData, key: string) {
    key in d.equalsQuals
  }

  /** A paged list: a connection error is returned before any request;
      otherwise the paging loop runs from the first cursor. */
  method ListPaged<P, C, Pg, I>(conn: Connection,
                                api: Request<P, C> -> Result<Pg, Error>, itemsOf: Pg -> seq<I>,
                                next: (P, C, nat, Pg) -> Option<C>,
                                params: P, cursor0: C, sink: RowSink<I>, fuel: nat) returns (o: Outcome)
    modifies sink
    ensures conn.ConnectFailed? ==> o == Failed(conn.err) && sink.rows == old(sink.rows)
    ensures conn.Connected? ==>
      Scanned(old(sink.rows), sink.rows, o, ScanTrace(api, itemsOf, next, params, cursor0, old(sink.Budget()), 0, fuel))
  {
    if conn.ConnectFailed? {
      return Failed(conn.err);
    }
    o := Scan(api, itemsOf, next, params, cursor0, sink, fuel);
  }

  /** The same for the tables whose item loop tests the page token. */
  method ListInLoop<P, E, I>(conn: Connection,
                             api: Request<P, string> -> Result<TokenPage<E>, Error>, itemsOf: TokenPage<E> -> seq<I>,
                             params: P, sink: RowSink<I>, fuel: nat) returns (o: Outcome)
    modifies sink
    ensures conn.ConnectFailed? ==> o == Failed(conn.err) && sink.rows == old(sink.rows)
    ensures conn.Connected? ==>
      Scanned(old(sink.rows), sink.rows, o, InLoopTrace(api, itemsOf, params, "", old(sink.Budget()), fuel))
  {
    if conn.ConnectFailed? {
      return Failed(conn.err);
    }
    o := ScanInLoopToken(api, itemsOf, params, sink, fuel);
  }

  /** A list from one call that returns every item (`ListAll`, `List`):
      stream the items until the budget runs out. */
  method ListOnce<R, I>(conn: Connection, api: R -> Result<seq<I>, Error>, request: R, sink: RowSink<I>)
    returns (o: Outcome)
    modifies sink
    ensures conn.ConnectFailed? ==> o == Failed(conn.err) && sink.rows == old(sink.rows)
    ensures conn.Connected? && api(request).Failure? ==> o == Failed(api(request).error) && sink.rows == old(sink.rows)
    ensures conn.Connected? && api(request).Success? ==>
      o == Done && sink.rows == old(sink.rows) + Streamed(api(request).value, old(sink.Budget()))
  {
    if conn.ConnectFailed? {
      return Failed(conn.err);
    }
    var response := api(request);
    if response.Failure? {
      return Failed(response.error);
    }
    var _ := StreamItems(response.value, sink);
    return Done;
  }

  /** A get by one key, as most get functions write it: a key equal to Go's
      zero value (`""` or `0`) is no row, without the client; otherwise
      connect, then ask the API by the key. */
  function GetByKey<K(==), T>(key: K, zero: K, conn: Connection, api: K -> Result<T, Error>): (r: GetOutcome<T>)
    ensures key == zero ==> r == NoRow
    ensures key != zero && conn.ConnectFailed? ==> r == GetFailed(conn.err)
    ensures key != zero && conn.Connected? ==> r == FromResult(api(key))
    ensures r == NoRow <==> key == zero
  {
    if key == zero then NoRow
    else if conn.ConnectFailed? then GetFailed(conn.err)
    else FromResult(api(key))
  }

  /** A get by either of two keys, as the tables whose get config takes any
      of two columns write it: connect first, then ask by the first key when
      its qual is present, else by the second, else return no row. */
  function GetByEither<K1, K2, T>(conn: Connection, first: Option<K1>, second: Option<K2>,
                                  byFirst: K1 -> Result<T, Error>, bySecond: K2 -> Result<T, Error>): (r: GetOutcome<T>)
    ensures conn.ConnectFailed? ==> r == GetFailed(conn.err)
    ensures conn.Connected? && first.Some? ==> r == FromResult(byFirst(first.value))
    ensures conn.Connected? && first.None? && second.Some? ==> r == FromResult(bySecond(second.value))
    ensures r == NoRow <==> conn.Connected? && first.None? && second.None?
  {
    if conn.ConnectFailed? then GetFailed(conn.err)
    else if first.Some? then FromResult(byFirst(first.value))
    else if second.Some? then FromResult(bySecond(second.value))
    else NoRow
  }

  /** `d.EqualsQualString(key)` when `d.EqualsQuals[key] != nil`. */
  function StringKey(d: QueryData, key: string): (k: Option<string>)
    ensures k.Some? <==> HasEqualsQual(d, key)
    ensures k.Some? ==> k.value == EqualsQualString(d, key)
  {
    if HasEqualsQual(d, key) then Some(EqualsQualString(d, key)) else None
  }

  /** A list config's `ShouldIgnoreError`: an error it matches ends the scan
      like a normal end, keeping the rows already streamed. */
  function IgnoreListError(notFoundErrors: seq<string>, o: Outcome): (r: Outcome)
    ensures r.Failed? <==> o.Failed? && !NotFoundMatch(notFoundErrors, o.err.message)
    ensures r.Failed? ==> r == o
    ensures !o.Failed? ==> r == o
  {
    if o.Failed? && NotFoundMatch(notFoundErrors, o.err.message) then Done else o
  }
}
