/** `databricks_catalog_table`: the tables of Unity Catalog, optionally
    narrowed to one catalog and schema. */
module CatalogTable {
  import opened Wrappers
  import opened Framework
  import opened Paging
  import opened Cursors
  import opened Tables

  datatype ListTablesRequest = ListTablesRequest(maxResults: int, includeDeltaMetadata: bool,
                                                 catalogName: string, schemaName: string)

  datatype GetTableRequest = GetTableRequest(fullName: string, includeDeltaMetadata: bool)

  /** The list request: `MaxResults` is `min(LIMIT, 1000)` at full width,
      Delta metadata is always asked for, and the catalog and schema come
      from their quals. */
  function ListRequest(d: QueryData): (r: ListTablesRequest)
    ensures d.limit.None? ==> r.maxResults == 1000
    ensures d.limit.Some? ==> r.maxResults == Min(d.limit.value, 1000)
    ensures r.includeDeltaMetadata
    ensures r.catalogName == EqualsQualString(d, "catalog_name")
    ensures r.schemaName == EqualsQualString(d, "schema_name")
  {
    var request := ListTablesRequest(PageSize(d.limit, 1000), true, "", "");
    var request := if EqualsQualString(d, "catalog_name") != "" then request.(catalogName := EqualsQualString(d, "catalog_name")) else request;
    if EqualsQualString(d, "schema_name") != "" then request.(schemaName := EqualsQualString(d, "schema_name")) else request
  }

  /** `listCatalogTables`. */
  method ListCatalogTables<I>(d: QueryData, conn: Connection,
                              api: Request<ListTablesRequest, string> -> Result<TokenPage<I>, Error>,
                              sink: RowSink<I>, fuel: nat) returns (o: Outcome)
    modifies sink
    ensures conn.ConnectFailed? ==> o == Failed(conn.err) && sink.rows == old(sink.rows)
    ensures conn.Connected? ==>
      Scanned(old(sink.rows), sink.rows, o, ScanTrace(api, TokenItems, NextByToken, ListRequest(d), "", old(sink.Budget()), 0, fuel))
  {
    o := ListPaged(conn, api, TokenItems, NextByToken, ListRequest(d), "", sink, fuel);
  }

  /** `getCatalogTable`: no row for an empty `full_name`; otherwise the table
      with its Delta metadata. */
  function GetCatalogTable<T>(d: QueryData, conn: Connection, api: GetTableRequest -> Result<T, Error>): (r: GetOutcome<T>)
    ensures EqualsQualString(d, "full_name") == "" ==> r == NoRow
    ensures EqualsQualString(d, "full_name") != "" && conn.ConnectFailed? ==> r == GetFailed(conn.err)
    ensures EqualsQualString(d, "full_name") != "" && conn.Connected? ==>
              r == FromResult(api(GetTableRequest(EqualsQualString(d, "full_name"), true)))
  {
    GetByKey(EqualsQualString(d, "full_name"), "", conn, (name: string) => api(GetTableRequest(name, true)))
  }
}
