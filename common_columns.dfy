/** The `account_id` column shared by account-level tables and its hydrate
    chain. */
module CommonColumns {
  import opened Wrappers
  import opened Framework
  import Service

  datatype ColumnType = STRING | INT | BOOL | TIMESTAMP | JSON | DOUBLE

  /** A column declaration: name, type, and the hydrate function that fills
      it (`None` when the list or get result already holds the value). */
  datatype Column = Column(name: string, columnType: ColumnType, hydrate: Option<string>, description: string)

  const AccountIdColumn := Column("account_id", STRING, Some("getCommonColumns"),
                                  "The Databricks Account ID in which the resource is located.")

  /** `commonColumnsForAccountResource`. */
  function CommonColumnsForAccountResource(): (r: seq<Column>)
    ensures |r| == 1
    ensures r[0].name == "account_id" && r[0].columnType == STRING && r[0].hydrate == Some("getCommonColumns")
  {
    [AccountIdColumn]
  }

  /** `databricksAccountColumns`: the table's own columns, unchanged and in
      order, followed by the common ones. */
  function DatabricksAccountColumns(columns: seq<Column>): (r: seq<Column>)
    ensures |r| == |columns| + 1
    ensures r[..|columns|] == columns
    ensures r[|columns|] == AccountIdColumn
  {
    columns + CommonColumnsForAccountResource()
  }

  /** How many declared columns carry the given name. */
  function CountNamed(columns: seq<Column>, name: string): nat
    decreases |columns|
  {
    if |columns| == 0 then 0
    else CountNamed(columns[..|columns| - 1], name) + (if columns[|columns| - 1].name == name then 1 else 0)
  }

  /** Exactly one `account_id` column is added; a table that declares none
      of its own ends up with exactly one. */
  lemma {:induction false} AccountColumnsAddOneAccountId(columns: seq<Column>)
    ensures CountNamed(DatabricksAccountColumns(columns), "account_id") == CountNamed(columns, "account_id") + 1
    ensures forall n :: n != "account_id" ==>
              CountNamed(DatabricksAccountColumns(columns), n) == CountNamed(columns, n)
  {
    var r := DatabricksAccountColumns(columns);
    assert r[..|r| - 1] == columns;
  }

  /** `getCommonColumnsCacheKey`: the memoization key of `getCommonColumns`. */
  function GetCommonColumnsCacheKey<H>(item: H): (key: string)
    ensures key == "getCommonColumns"
  {
    "getCommonColumns"
  }

  /** The key ignores the row, so every row of a connection shares one
      memoized result. */
  lemma CacheKeyIgnoresRow<H>(a: H, b: H)
    ensures GetCommonColumnsCacheKey(a) == GetCommonColumnsCacheKey(b)
  {
  }

  datatype CommonColumnData = CommonColumnData(accountId: string)

  /** `getCommonColumnsUncached`: the configured account id, or nil. */
  function GetCommonColumnsUncached(cfg: Service.DatabricksConfig): (r: Option<CommonColumnData>)
    ensures r.Some? <==> cfg.accountId.Some?
    ensures r.Some? ==> r.value.accountId == cfg.accountId.value
  {
    if cfg.accountId.Some? then Some(CommonColumnData(cfg.accountId.value)) else None
  }

  /** The outcome of a column hydrate: a value, an error, or a Go panic. */
  datatype HydrateOutcome<+T> = Value(value: T) | HydrateFailed(err: Error) | Panic

  /** `getAccountIdForConnection`: the type assertion on the memoized
      result panics when it is nil. */
  function GetAccountIdForConnection(memoized: Result<Option<CommonColumnData>, Error>): (r: HydrateOutcome<string>)
    ensures memoized.Failure? ==> r == HydrateFailed(memoized.error)
    ensures memoized == Success(None) ==> r == Panic
    ensures memoized.Success? && memoized.value.Some? ==> r == Value(memoized.value.value.accountId)
  {
    match memoized
    case Failure(e) => HydrateFailed(e)
    case Success(None) => Panic
    case Success(Some(data)) => Value(data.accountId)
  }

  /** Chained, the two give the configured account id, and panic when the
      connection config has none. */
  lemma AccountIdForConnection(cfg: Service.DatabricksConfig)
    ensures cfg.accountId.Some? ==>
      GetAccountIdForConnection(Success(GetCommonColumnsUncached(cfg))) == Value(cfg.accountId.value)
    ensures cfg.accountId.None? ==>
      GetAccountIdForConnection(Success(GetCommonColumnsUncached(cfg))) == Panic
  {
  }
}
