/** `databricks_files_dbfs`: the entries of a DBFS directory named by the
    `path` or `path_prefix` qual, and the content of each file. */
module FilesDbfs {
  import opened Wrappers
  import opened Framework
  import opened Paging
  import opened Tables
  import opened Utils

  /** `files.FileInfo`: the fields the table's functions read. */
  datatype FileInfo = FileInfo(path: string, isDir: bool)

  datatype ListDbfsRequest = ListDbfsRequest(path: string)

  /** The error codes the list config's `ShouldIgnoreError` matches. */
  function ListNotFound(): seq<string> {
    ["RESOURCE_DOES_NOT_EXIST", "INVALID_PARAMETER_VALUE"]
  }

  /** The directory to list: the `path` qual, else the `path_prefix` qual;
      none when both are empty. */
  function ListPath(d: QueryData): (p: Option<string>)
    ensures EqualsQualString(d, "path") != "" ==> p == Some(EqualsQualString(d, "path"))
    ensures EqualsQualString(d, "path") == "" && EqualsQualString(d, "path_prefix") != "" ==>
              p == Some(EqualsQualString(d, "path_prefix"))
    ensures p.None? <==> EqualsQualString(d, "path") == "" && EqualsQualString(d, "path_prefix") == ""
    ensures p.Some? ==> p.value != ""
  {
    var path := EqualsQualString(d, "path");
    var pathPrefix := EqualsQualString(d, "path_prefix");
    if path != "" then Some(path) else if pathPrefix != "" then Some(pathPrefix) else None
  }

  /** `listFilesDbfs` under its list config: without a path nothing is
      listed and nobody is contacted; an error whose message holds one of
      the ignored codes ends the list like a normal end. */
  method ListFilesDbfs(d: QueryData, conn: Connection, api: ListDbfsRequest -> Result<seq<FileInfo>, Error>,
                       sink: RowSink<FileInfo>) returns (o: Outcome)
    modifies sink
    ensures ListPath(d).None? ==> o == Done && sink.rows == old(sink.rows)
    ensures ListPath(d).Some? && conn.ConnectFailed? ==>
              o == IgnoreListError(ListNotFound(), Failed(conn.err)) && sink.rows == old(sink.rows)
    ensures ListPath(d).Some? && conn.Connected? && api(ListDbfsRequest(ListPath(d).value)).Failure? ==>
              o == IgnoreListError(ListNotFound(), Failed(api(ListDbfsRequest(ListPath(d).value)).error))
              && sink.rows == old(sink.rows)
    ensures ListPath(d).Some? && conn.Connected? && api(ListDbfsRequest(ListPath(d).value)).Success? ==>
              o == Done
              && sink.rows == old(sink.rows) + Streamed(api(ListDbfsRequest(ListPath(d).value)).value, old(sink.Budget()))
  {
    var path := ListPath(d);
    if path.None? {
      return Done;
    }
    o := ListOnce(conn, api, ListDbfsRequest(path.value), sink);
    o := IgnoreListError(ListNotFound(), o);
  }

  /** `getFilesDbfsContent`: a directory has no content and contacts
      nobody; a file's content is read at its own path. */
  function GetFilesDbfsContent<T>(file: FileInfo, conn: Connection, api: string -> Result<T, Error>): (r: GetOutcome<T>)
    ensures file.isDir ==> r == NoRow
    ensures !file.isDir && conn.ConnectFailed? ==> r == GetFailed(conn.err)
    ensures !file.isDir && conn.Connected? ==> r == FromResult(api(file.path))
  {
    if file.isDir then NoRow
    else if conn.ConnectFailed? then GetFailed(conn.err)
    else FromResult(api(file.path))
  }
}
