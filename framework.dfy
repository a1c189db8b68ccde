/** The parts of the Steampipe plugin framework that the Databricks tables
    use: quals pushed down by the query engine, the row budget behind
    `RowsRemaining`, `StreamListItem`, and the outcome of hydrate calls. */
module Framework {
  import opened Wrappers

  /** Go's `int64`. */
  type Int64 = x: int | -0x8000_0000_0000_0000 <= x < 0x8000_0000_0000_0000

  datatype Error = Error(message: string)

  /** The value of a qual, a protobuf `oneof`: only the variants the tables read. */
  datatype QualValue = StringValue(s: string) | Int64Value(i: Int64) | OtherValue

  /** One qual on a key column: its operator and its (possibly nil) value. */
  datatype Qual = Qual(operator: string, value: Option<QualValue>)

  /** The quals on one key column (`*plugin.KeyColumnQuals`). */
  datatype KeyColumnQuals = KeyColumnQuals(name: string, quals: Option<seq<Qual>>)

  /** What a list or get call sees of the query: `d.EqualsQuals`, `d.Quals`
      and the query's `LIMIT` (`d.QueryContext.Limit`). */
  datatype QueryData = QueryData(
    equalsQuals: map<string, QualValue>,
    quals: map<string, KeyColumnQuals>,
    limit: Option<Int64>)

  /** `GetStringValue()` of a protobuf qual value: "" for nil or a non-string. */
  function GetStringValue(v: Option<QualValue>): string {
    if v.Some? && v.value.StringValue? then v.value.s else ""
  }

  /** `GetInt64Value()`: 0 for nil or a non-integer. */
  function GetInt64Value(v: Option<QualValue>): Int64 {
    if v.Some? && v.value.Int64Value? then v.value.i else 0
  }

  /** `d.EqualsQuals[key]`: nil when the query has no `=` qual on the column. */
  function EqualsQual(d: QueryData, key: string): Option<QualValue> {
    if key in d.equalsQuals then Some(d.equalsQuals[key]) else None
  }

  /** `d.EqualsQualString(key)` on a string column: the qual's string, or ""
      when there is none. */
  function EqualsQualString(d: QueryData, key: string): string {
    GetStringValue(EqualsQual(d, key))
  }

  /** `d.EqualsQualString(key)` on a column of any type. The SDK's rendering
      of a non-string value as text is not part of this model, so it is the
      parameter `text`; a string value is itself and a missing qual is "". */
  function EqualsQualText(d: QueryData, key: string, text: QualValue -> string): (s: string)
    ensures key !in d.equalsQuals ==> s == ""
    ensures key in d.equalsQuals && !d.equalsQuals[key].StringValue? ==> s == text(d.equalsQuals[key])
  {
    if key !in d.equalsQuals then ""
    else if d.equalsQuals[key].StringValue? then d.equalsQuals[key].s
    else text(d.equalsQuals[key])
  }

  /** On a string column the two readings agree, whatever `text` is. */
  lemma EqualsQualTextOnStrings(d: QueryData, key: string, text: QualValue -> string)
    requires key in d.equalsQuals ==> d.equalsQuals[key].StringValue?
    ensures EqualsQualText(d, key, text) == EqualsQualString(d, key)
  {
  }

  /** The engine pushes quals down only for the key columns a table declares. */
  predicate QualsOnlyOn(d: QueryData, keyColumns: set<string>) {
    d.equalsQuals.Keys <= keyColumns && d.quals.Keys <= keyColumns
  }

  /** The outcome of connecting to Databricks, as seen by a table. */
  datatype Connection = Connected | ConnectFailed(err: Error)

  /** The outcome of a get (hydrate) call: `nil, nil`, a row, or an error. */
  datatype GetOutcome<+T> = NoRow | Row(value: T) | GetFailed(err: Error)

  /** The outcome of a list call. `OutOfFuel` marks the end of the part of an
      unbounded paging loop that the model follows. */
  datatype Outcome = Done | Failed(err: Error) | OutOfFuel

  function FromResult<T>(r: Result<T, Error>): GetOutcome<T> {
    match r
    case Success(v) => Row(v)
    case Failure(e) => GetFailed(e)
  }

  /** The rows a list call has streamed so far and the query's row limit. */
  class RowSink<T> {
    var rows: seq<T>
    const limit: Option<nat>

    constructor (limit: Option<nat>)
      ensures rows == [] && this.limit == limit
    {
      rows := [];
      this.limit := limit;
    }

    /** Rows still wanted: `None` when the query has no limit. The value is
        negative once more rows were streamed than the limit asks for. */
    function Budget(): Option<int>
      reads this
    {
      if limit.None? then None else Some(limit.value - |rows|)
    }

    /** `d.RowsRemaining(ctx) == 0`: exactly the limit has been streamed.
        Once more rows than the limit were streamed (a limit of 0, or a child
        list called after earlier rows used the budget up) the test never
        holds again. */
    predicate Exhausted()
      reads this
    {
      limit.Some? && |rows| == limit.value
    }

    /** `d.StreamListItem(ctx, item)`. */
    method StreamListItem(item: T)
      modifies this
      ensures rows == old(rows) + [item]
    {
      rows := rows + [item];
    }
  }
}
