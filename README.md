# Databricks table plugin for Steampipe — a Dafny model of its core

This is a model of the plugin's own logic, the part that goes beyond column
declarations and one-line SDK calls. It covers five groups:

- **Utilities.** Not-found errors are matched by substring (`isNotFoundError`).
  Epoch milliseconds are read and converted to seconds. A SCIM-style filter
  string is built from the query's quals (`buildQueryFilterFromQuals`). That
  filter is a loose fragment of the grammar in section 3.4.2.2 of RFC 7644:
  only `eq`, `ne` and `and`, with values left unquoted.
- **Client construction.** The account and workspace configuration cascades
  run over optional connection fields and environment variables. The
  connection-scoped client cache is a get, then a set under a fixed key.
- **Common columns.** The trailing `account_id` column is appended to a table's
  columns. It is hydrated from a memoized account id.
- **Paged list loops.** Every list function fetches a page, streams its items
  in order, stops right after the item that uses up the query's row budget, and
  otherwise advances a cursor and fetches again. Six cursor disciplines occur:
  - a continuation token until it is empty;
  - a `HasMore`/`HasNextPage` flag;
  - a 0-based page number until a short page;
  - a 1-based page number until the running count reaches the server's total;
  - a 1-based SCIM `StartIndex` advanced by `Count` (section 3.4.2.4 of
    RFC 7644), stopping on a short page or, in one table, on `ItemsPerPage`;
  - a variant that tests the token inside the per-item loop.
- **Request shaping and get dispatch.** These are the table-level pieces:
  - parent/child filters;
  - path precedence;
  - id-before-name lookups;
  - the places where a qual is read under a different name from the key
    column it is guarded by or declared as.

**Modules.** The shared modules are:

- `Wrappers` provides `Option` and `Result`.
- `Framework` holds the host framework's side:
  - the quals of a query, with `EqualsQualString`, its reading `EqualsQualText` of a non-string qual, and `GetInt64Value`;
  - `QualsOnlyOn`, stating that the engine pushes down quals only for declared
    key columns;
  - the row sink, a class with the streamed rows and the row limit;
  - the connection, get and list outcomes.
- `Utils`, `Service`, `CommonColumns` and `Strconv` (Go's `strconv.Itoa`)
  cover the utilities, client construction and common columns.
- `Paging` is the generic paged scan:
  - a `Scan` method with a `while` loop over an API function;
  - the specification function `ScanTrace` it is proved against;
  - lemmas about every request, page and streamed row.
- `Cursors` holds the disciplines as `next` functions, and the in-loop token
  variant with its own trace and loop.
- `Tables` holds the list and get skeletons the tables share.

Each `table_*.dfy` file models one table file. Each API call is a function
parameter from a request to a page or an error. Each loop is bounded by a
`fuel` argument, because several of them have no termination measure of their own.

## Model

| member | source | states |
|---|---|---|
| Utils.ContainsIffOccurs | databricks/utils.go:16-20 | `strings.Contains` holds exactly when the substring occurs at some position |
| Utils.IsNotFoundError | databricks/utils.go:13-23 | the loop returns true exactly when some listed code is a substring of the error text; an empty list gives false |
| Utils.NotFoundIffOccurs | databricks/utils.go:13-23 | a not-found match is the same as some code occurring at some position of the message |
| Utils.CodeInsideMessageMatches | databricks/utils.go:16-20 | matching is by substring: a code with any text around it still matches |
| Utils.NotFoundMonotone | databricks/utils.go:16-20 | adding codes on either side of the list never turns a match into a miss |
| Utils.IgnoreNotFound | databricks/table_databricks_iam_account_user.go:39-41 | a failed get whose error matches a not-found code becomes "no row"; any other outcome is unchanged |
| Utils.GetEpochTime | databricks/utils.go:38-46 | int64 and int values pass through; any other type gives 0 |
| Utils.ConvertTimestamp | databricks/utils.go:25-36 | nil exactly for epoch 0; otherwise the whole seconds `s` with `1000*s <= ms < 1000*s + 1000` (floor division, also for negative times) |
| Utils.ConvertTimestampRecoversSeconds | databricks/utils.go:25-36 | any non-zero millisecond time within a second `s` converts back to `s` |
| Utils.BuildQueryFilterFromQuals | databricks/utils.go:48-93 | the nested loops build exactly the joined clause list `QueryFilter` of the mappings and quals |
| Utils.JoinEmptyIff | databricks/utils.go:52-74 | joining non-empty clauses with " and " gives "" exactly when there are none |
| Utils.QualClausesNonEmpty | databricks/utils.go:70-74 | every clause a mapping emits is non-empty |
| Utils.ClausesNonEmpty | databricks/utils.go:52-74 | every clause of the whole list is non-empty |
| Utils.QualClausesEmptyIff | databricks/utils.go:59-74 | a mapping emits no clause exactly when none of its quals yields one |
| Utils.ItemClausesEmptyIff | databricks/utils.go:52-74 | a mapping contributes nothing exactly when no qual on its column is applicable |
| Utils.ClausesEmptyIff | databricks/utils.go:52-74 | the clause list is empty exactly when every mapping contributes nothing |
| Utils.FilterEmptyIff | databricks/utils.go:48-93 | the filter is "" exactly when no mapped column carries an applicable (string type, non-nil value, "=" or "<>") qual |
| Utils.OtherOperatorsIgnored | databricks/utils.go:70-74 | quals with operators other than "=" and "<>" (including "!=", which the operator map knows) give "" |
| Utils.NonStringMappingIgnored | databricks/utils.go:65-68 | a mapping whose type is not "string" contributes no clause |
| Utils.ClausesAppend | databricks/utils.go:52-74 | clauses appear in mapping order: the list for `a + b` is the list for `a` followed by the list for `b` |
| Utils.ClausesSingleton | databricks/utils.go:52-74 | one mapping yields exactly that mapping's clauses |
| Utils.SingleEqualityFilter | databricks/utils.go:70-74 | one "=" qual gives `PropertyPath + " eq " + value`, unquoted |
| Utils.ContradictingQualsBothKept | databricks/utils.go:52-74 | an "=" and a "<>" qual on one column are both kept, in qual order, joined by one " and " |
| Service.AccountConfig | databricks/service.go:21-62 | the account cascade: the missing-account-id error exactly when config and environment lack it; host and token only without a config file or profile variable; basic auth only when no token is set either |
| Service.WorkspaceConfig | databricks/service.go:83-114 | the workspace cascade: error only when the account id is unset and not in the environment; a configured profile sets only profile and config file; an environment profile sets nothing else; otherwise host and token, with basic auth only without any token |
| Service.EmptyAccountIdAcceptedOnlyByWorkspace | databricks/service.go:25-31 | a configured but empty account id fails the account client and passes the workspace client |
| Service.ConnectionCache.constructor | databricks/service.go:16-19 | a new cache holds no clients |
| Service.ConnectionCache.ConnectDatabricksAccount | databricks/service.go:13-73 | a hit returns the stored client and changes nothing; a miss builds from the account configuration and stores the client under the account key only on success |
| Service.ConnectionCache.ConnectDatabricksWorkspace | databricks/service.go:75-125 | the same for the workspace key and the workspace configuration |
| Service.ConnectionCache.ConnectAccountTwice | databricks/service.go:13-73 | after a successful first call, a second call returns the same client, whatever its configuration, and it stays cached |
| CommonColumns.CommonColumnsForAccountResource | databricks/common_columns.go:13-23 | exactly one column, "account_id", of type STRING, hydrated by getCommonColumns |
| CommonColumns.DatabricksAccountColumns | databricks/common_columns.go:25-27 | the input columns unchanged and in order, followed by the account id column |
| CommonColumns.AccountColumnsAddOneAccountId | databricks/common_columns.go:25-27 | the result has one more "account_id" column and the same number of columns of every other name |
| CommonColumns.GetCommonColumnsCacheKey | databricks/common_columns.go:32-35 | the memo key is the constant "getCommonColumns" |
| CommonColumns.CacheKeyIgnoresRow | databricks/common_columns.go:32-35 | every row gets the same memo key |
| CommonColumns.GetCommonColumnsUncached | databricks/common_columns.go:43-51 | data exactly when an account id is configured, carrying that id |
| CommonColumns.GetAccountIdForConnection | databricks/common_columns.go:55-62 | errors propagate; memoized data gives its account id; nil data is the failed type assertion (a panic) |
| CommonColumns.AccountIdForConnection | databricks/common_columns.go:43-62 | through the memo, a configured account id is the column value and an unset one panics |
| Strconv.Itoa | databricks/table_databricks_job.go:275-278 | base-10 text: a leading '-' exactly for negatives, digits after it |
| Strconv.ItoaRoundTrip | databricks/table_databricks_job.go:275-278 | parsing the text of `n` gives back `n` |
| Strconv.ItoaInjective | databricks/table_databricks_job.go:275-278 | two numbers have the same text exactly when they are equal |
| Framework.RowSink.constructor | databricks/table_databricks_pipelines_pipeline.go:233-238 | a new sink has streamed nothing and keeps the query's limit |
| Framework.EqualsQualText | databricks/table_databricks_settings_token_management.go:82-84 | `EqualsQualString` on a column of any type: "" without a qual, the string for a string value, the SDK's rendering `text` otherwise |
| Framework.EqualsQualTextOnStrings | databricks/table_databricks_pipelines_pipeline.go:256 | on a string column the reading agrees with `EqualsQualString` whatever the rendering |
| Framework.RowSink.StreamListItem | databricks/table_databricks_pipelines_pipeline.go:233-238 | streaming appends the one item to the rows |
| Paging.Int32Of | databricks/table_databricks_pipelines_pipeline.go:206-216 | Go's `int32(x)`: a 32-bit value congruent to `x`, equal to `x` when it fits |
| Paging.PageSize | databricks/table_databricks_catalog_table.go:172-181 | `min(LIMIT, cap)`, or the cap without a limit |
| Paging.PageSizeInt32 | databricks/table_databricks_pipelines_pipeline.go:206-216 | the same through `int32`: the cap or the truncated limit, and `PageSize` whenever the limit fits in 32 bits |
| Paging.StopPoint | databricks/table_databricks_pipelines_pipeline.go:233-238 | the item after which `RowsRemaining` is exactly 0, if it is on this page; none when the budget is already 0 or below |
| Paging.SpentBudgetStreamsAll | databricks/table_databricks_pipelines_pipeline.go:233-238 | with a budget of 0 or below the `== 0` test never fires, so the whole page is streamed |
| Paging.StreamedIsPrefix | databricks/table_databricks_pipelines_pipeline.go:233-238 | the streamed items are a prefix of the page, cut short only right after the item that used up the budget |
| Paging.StreamItems | databricks/table_databricks_workspace_secret.go:80-86 | the loop appends exactly that prefix to the rows and reports whether the budget ran out |
| Paging.Scan | databricks/table_databricks_pipelines_pipeline.go:225-245 | the loop's rows and outcome are those of the trace `ScanTrace` |
| Paging.SameParams | databricks/table_databricks_pipelines_pipeline.go:241-244 | successive requests differ only in the cursor |
| Paging.TraceShape | databricks/table_databricks_pipelines_pipeline.go:226-230 | the first request carries the first cursor; an API error is the last request and ends the scan; otherwise every request got a page |
| Paging.PagesAnswerRequests | databricks/table_databricks_pipelines_pipeline.go:225-230 | every page is the API's answer to its request |
| Paging.CursorChain | databricks/table_databricks_pipelines_pipeline.go:241-244 | each further cursor is what the discipline computed from the page before it and the items seen so far |
| Paging.RowsFollowPages | databricks/table_databricks_pipelines_pipeline.go:225-240 | the rows are a prefix of the pages' items in API order, all of them unless the budget ended the scan |
| Paging.BudgetEndsFetching | databricks/table_databricks_pipelines_pipeline.go:236-238 | once the budget is used up on a page, that page is the last one fetched |
| Paging.DoneMeansLastPage | databricks/table_databricks_pipelines_pipeline.go:241-244 | a scan not stopped by the budget and not failed ends only where the discipline has no next cursor |
| Cursors.TokenDiscipline | databricks/table_databricks_pipelines_pipeline.go:225-245 | the first request has no token; each further one carries the non-empty token of the page before it; the scan ends on an empty token |
| Cursors.HasMoreDiscipline | databricks/table_databricks_job.go:208-229 | each further request follows a page with `HasMore` and carries its token; the scan ends on a page without `HasMore` |
| Cursors.StartIndexDiscipline | databricks/table_databricks_account_user.go:149-170 | the i-th request starts at `1 + i*Count`; each further request follows a full page; the scan ends on a short page |
| Cursors.ItemsPerPageDiscipline | databricks/table_databricks_iam_user.go:159-162 | the same start indexes, with the stop decided by `ItemsPerPage < Count` rather than by the page's length |
| Cursors.StreamInLoop | databricks/table_databricks_pipelines_pipeline_event.go:131-143 | the per-item loop: it returns after the first item when the token is empty, or after the item that used up the budget; otherwise it streams the whole page and carries the token |
| Cursors.ScanInLoopToken | databricks/table_databricks_pipelines_pipeline_event.go:124-144 | the loop's rows and outcome are those of `InLoopTrace` |
| Cursors.InLoopSameParams | databricks/table_databricks_pipelines_pipeline_event.go:124-144 | in the in-loop variant too, requests differ only in the token |
| Cursors.InLoopRowsSatisfy | databricks/table_databricks_pipelines_pipeline_event.go:131-135 | every row streamed is an item of some page |
| Cursors.InLoopDropsRestOfLastPage | databricks/table_databricks_pipelines_pipeline_event.go:139-141 | on a page without a token only the first item is streamed, where the token scan streams the whole page |
| Cursors.InLoopSinglePageExample | databricks/table_databricks_pipelines_pipeline_event.go:139-141 | a single two-event page gives one row in the in-loop variant and two in the token scan |
| Cursors.InLoopEmptyPageRepeats | databricks/table_databricks_pipelines_pipeline_event.go:124-144 | an empty page repeats the same request until the fuel runs out, and streams nothing |
| Cursors.InLoopAgreesWhileTokens | databricks/table_databricks_pipelines_pipeline_event.go:124-144 | while every page is non-empty and carries a token, the in-loop variant and the token scan agree |
| Tables.ListPaged | databricks/table_databricks_account_user.go:129-170 | a connection error is returned before any request; otherwise the paged scan from the first cursor |
| Tables.ListInLoop | databricks/table_databricks_workspace_pipeline.go:93-120 | the same skeleton around the in-loop token variant |
| Tables.ListOnce | databricks/table_databricks_workspace_alert.go:96-121 | one unpaged call: the connection error, the API error, or the streamed prefix of the items |
| Tables.GetByKey | databricks/table_databricks_account_user.go:175-198 | a key equal to Go's zero value is "no row" without the client, and only then; otherwise the connection error or the API's answer for that key |
| Tables.GetByEither | databricks/table_databricks_workspace_cluster_policy.go:122-157 | with a connection: the first key wins, then the second; "no row" exactly when connected and neither is present |
| Tables.StringKey | databricks/table_databricks_workspace_cluster_policy.go:133-145 | present exactly when an "=" qual on the column exists, carrying its string value |
| Tables.IgnoreListError | databricks/table_databricks_files_dbfs.go:19-21 | a list error matching a not-found code becomes success; nothing else changes |
| PipelinesPipeline.ListRequest | databricks/table_databricks_pipelines_pipeline.go:206-216 | `MaxResults` is `min(int32(LIMIT), 100)`, which is `min(LIMIT, 100)` whenever the limit fits in 32 bits |
| PipelinesPipeline.ListPipelinesPipelines | databricks/table_databricks_pipelines_pipeline.go:202-246 | a token scan of the statuses with that request |
| PipelinesPipeline.GetPipelineId | databricks/table_databricks_pipelines_pipeline.go:303-311 | `PipelineId` for both known types, "" for anything else |
| PipelinesPipeline.GetPipelinesPipeline | databricks/table_databricks_pipelines_pipeline.go:250-277 | the id is the hydrated item's `getPipelineId`, or else the qual's; "no row" exactly when that id is empty; otherwise the connection error or the API's answer for the id |
| PipelinesPipeline.HydratedRowDecides | databricks/table_databricks_pipelines_pipeline.go:252-262 | with a hydrated item the quals play no part |
| CatalogTable.ListRequest | databricks/table_databricks_catalog_table.go:172-190 | `min(LIMIT, 1000)`; delta metadata always included; catalog and schema copied from their quals |
| CatalogTable.ListCatalogTables | databricks/table_databricks_catalog_table.go:168-220 | a token scan with that request |
| CatalogTable.GetCatalogTable | databricks/table_databricks_catalog_table.go:224-251 | an empty full name is "no row"; otherwise the get with delta metadata |
| MlExperiment.ViewTypeFor | databricks/table_databricks_ml_experiment.go:94-102 | "active" gives ACTIVE_ONLY, "deleted" gives DELETED_ONLY, anything else ALL (both directions) |
| MlExperiment.ListRequest | databricks/table_databricks_ml_experiment.go:84-102 | `min(int32(LIMIT), 1000)` and the view type of the lifecycle qual, ALL without one |
| MlExperiment.ListMLExperiments | databricks/table_databricks_ml_experiment.go:80-133 | a token scan with that request |
| MlExperiment.GetMLExperiment | databricks/table_databricks_ml_experiment.go:137-164 | an empty "name" qual is "no row"; otherwise the get by name |
| MlExperiment.GetByExperimentIdFindsNothing | databricks/table_databricks_ml_experiment.go:139-144 | a get through the declared key column experiment_id never finds a row |
| WorkspaceModel.ListRequest | databricks/table_databricks_workspace_model.go:83-100 | `min(int32(LIMIT), 1000)` |
| WorkspaceModel.ListWorkspaceModels | databricks/table_databricks_workspace_model.go:79-123 | a token scan with that request |
| WorkspaceModel.GetWorkspaceModel | databricks/table_databricks_workspace_model.go:127-153 | an empty name is "no row"; otherwise the get by name |
| WorkspaceRepo.ListRequest | databricks/table_databricks_workspace_repo.go:81-84 | the path prefix is the path qual, and empty without it; no page size |
| WorkspaceRepo.ListWorkspaceRepos | databricks/table_databricks_workspace_repo.go:78-114 | a token scan with that request |
| WorkspaceRepo.GetWorkspaceRepo | databricks/table_databricks_workspace_repo.go:118-140 | id 0 (or no qual) is "no row"; otherwise the get by id |
| MlWebhook.WebhookEvents | databricks/table_databricks_ml_webhook.go:101-108 | one event per qual on the events column, in qual order, whatever the operator; none without an events qual |
| MlWebhook.ListRequest | databricks/table_databricks_ml_webhook.go:97-108 | the model name from its qual and those events |
| MlWebhook.ListMLWebhooks | databricks/table_databricks_ml_webhook.go:86-131 | a token scan with that request |
| PipelineUpdate.ListRequest | databricks/table_databricks_pipeline_update.go:104-115 | the parent's pipeline id and `min(int32(LIMIT), 100)` |
| PipelineUpdate.ListPipelineUpdates | databricks/table_databricks_pipeline_update.go:95-145 | an other pipeline's id in the qual gives nothing and no call; otherwise a token scan with that request |
| PipelineUpdate.RequestsNameParent | databricks/table_databricks_pipeline_update.go:104-143 | every request names the parent pipeline |
| PipelineUpdate.GetPipelineUpdate | databricks/table_databricks_pipeline_update.go:149-172 | "no row" unless both ids are non-empty; otherwise the get by both |
| Job.ListRequest | databricks/table_databricks_job.go:185-199 | `min(int32(LIMIT), 100)`, tasks expanded, the name from its qual |
| Job.ListJobs | databricks/table_databricks_job.go:181-230 | a `HasMore` scan with that request |
| Job.GetJobId | databricks/table_databricks_job.go:288-296 | `JobId` for Job and BaseJob, 0 otherwise |
| Job.GetJob | databricks/table_databricks_job.go:234-262 | the id is the hydrated item's `getJobId`, or else the qual's; "no row" exactly when that id is 0; otherwise the connection error or the API's answer for the id |
| Job.JobPermissionRequest | databricks/table_databricks_job.go:275-278 | object type "jobs" and an object id whose text parses back to the job id |
| Job.PermissionRequestsDistinct | databricks/table_databricks_job.go:275-278 | two rows ask for the same permissions exactly when their job ids are equal |
| Job.GetJobPermissions | databricks/table_databricks_job.go:264-286 | the connection error, or the API's answer to that request ("0" for an unknown item type) |
| JobsJob.ListRequest | databricks/table_databricks_jobs_job.go:176-190 | `min(int32(LIMIT), 100)`, tasks expanded, the name from its qual |
| JobsJob.ListJobsJobs | databricks/table_databricks_jobs_job.go:172-221 | a `HasMore` scan with that request |
| JobsJob.GetJobsJob | databricks/table_databricks_jobs_job.go:225-248 | a job_id qual of 0 or none at all is "no row", whatever the hydrated item |
| WorkspaceJob.ListRequest | databricks/table_databricks_workspace_job.go:171-184 | `min(int32(LIMIT), 100)`, tasks not expanded, the name from its qual |
| WorkspaceJob.ListWorkspaceJobs | databricks/table_databricks_workspace_job.go:167-215 | a `HasMore` scan with that request |
| WorkspaceJob.GetWorkspaceJob | databricks/table_databricks_workspace_job.go:219-242 | id 0 is "no row"; otherwise the get by the qual's id |
| WorkspaceJobRun.ListRequest | databricks/table_databricks_workspace_job_run.go:184-201 | `min(int32(LIMIT), 25)`, tasks expanded; job id and run type set whenever their qual is present |
| WorkspaceJobRun.ListWorkspaceJobRuns | databricks/table_databricks_workspace_job_run.go:180-232 | a `HasMore` scan with that request |
| WorkspaceJobRun.GetWorkspaceJobRun | databricks/table_databricks_workspace_job_run.go:236-263 | run id 0 is "no row"; otherwise the get by the run id |
| SqlQueryHistory.ListRequest | databricks/table_databricks_sql_query_history.go:144-173 | `min(LIMIT, 100)`; the filter is always there with at most one warehouse (non-empty qual), user (qual present) and status (non-empty qual) |
| SqlQueryHistory.ListSQLQueryHistory | databricks/table_databricks_sql_query_history.go:140-204 | a `HasNextPage` scan with that request |
| SqlQuery.ListRequest | databricks/table_databricks_sql_query.go:161-179 | `min(LIMIT, 100)` |
| SqlQuery.ListSQLQueries | databricks/table_databricks_sql_query.go:157-203 | a page-number scan from page 0 |
| SqlQuery.PageNumberDiscipline | databricks/table_databricks_sql_query.go:181-202 | the i-th request asks for page i; each further request follows a page of at least `PageSize` results; the scan ends on a short page |
| SqlQuery.GetSQLQuery | databricks/table_databricks_sql_query.go:207-229 | an empty id is "no row"; otherwise the get by id |
| WorkspaceDashboard.ListRequest | databricks/table_databricks_workspace_dashboard.go:148-172 | `min(int32(LIMIT), 10000)` and the filter from the quals on "name" |
| WorkspaceDashboard.ListWorkspaceDashboards | databricks/table_databricks_workspace_dashboard.go:144-199 | a page-number scan from page 1 with the running-count stop |
| WorkspaceDashboard.CountDiscipline | databricks/table_databricks_workspace_dashboard.go:175-197 | the i-th request asks for page `1 + i`; each further request follows a page after which the running count is still below the server's total |
| WorkspaceDashboard.CountEnds | databricks/table_databricks_workspace_dashboard.go:192-197 | a scan the discipline ends has a running count that reached the total of its last page |
| WorkspaceDashboard.NameFilterNeverSent | databricks/table_databricks_workspace_dashboard.go:19-35 | with quals only on the declared key columns the filter is always empty |
| WorkspaceDashboard.GetWorkspaceDashboard | databricks/table_databricks_workspace_dashboard.go:203-226 | an empty id is "no row"; otherwise the get by id |
| AccountUser.ListRequest | databricks/table_databricks_account_user.go:120-147 | `Count` is `min(int32(LIMIT), 10000)`; the filter is built from the id, userName and displayName mappings |
| AccountUser.ListAccountUsers | databricks/table_databricks_account_user.go:116-171 | a start-index scan from 1 with that request |
| AccountUser.UserNameFilter | databricks/table_databricks_account_user.go:135-141 | a lone `user_name = v` qual sends the filter `userName eq v` |
| AccountUser.GetAccountUser | databricks/table_databricks_account_user.go:175-198 | an empty id is "no row"; otherwise the get by id |
| IamAccountUser.ListIAMAccountUsers | databricks/table_databricks_iam_account_user.go:110-165 | the same request and start-index scan as account users |
| IamAccountUser.GetIAMAccountUser | databricks/table_databricks_iam_account_user.go:169-192 | an empty id is "no row"; a "SCIM_404" error (from the connection or the get) is "no row"; any error reported does not match it |
| IamUser.ListIAMUsers | databricks/table_databricks_iam_user.go:110-165 | a start-index scan that stops on `ItemsPerPage < Count` |
| IamUser.GetIAMUser | databricks/table_databricks_iam_user.go:169-192 | "no row" for an empty id; otherwise the row, or, on a connection or API failure, "no row" when the error matches "SCIM_404" and that error otherwise |
| IamAccountGroup.ListRequest | databricks/table_databricks_iam_account_group.go:94-118 | `Count` is `min(int32(LIMIT), 10000)`; the filter has only the display_name mapping |
| IamAccountGroup.DisplayNameNotEqualFilter | databricks/table_databricks_iam_account_group.go:109-112 | a lone `display_name <> v` qual sends `displayName ne v` |
| IamAccountGroup.ListIAMAccountGroups | databricks/table_databricks_iam_account_group.go:90-142 | a start-index scan from 1 with that request |
| IamAccountGroup.GetIAMAccountGroup | databricks/table_databricks_iam_account_group.go:146-168 | an empty id is "no row"; a "SCIM_404" error is "no row"; anything else is the get's answer |
| IamServicePrincipal.ListIAMServicePrincipals | databricks/table_databricks_iam_service_principal.go:90-142 | the group request and start-index scan |
| IamServicePrincipal.GetIAMServicePrincipal | databricks/table_databricks_iam_service_principal.go:146-168 | "no row" for an empty id; otherwise the row, or, on a connection or API failure, "no row" when the error matches "SCIM_404" and that error otherwise |
| PipelinesPipelineEvent.ListRequest | databricks/table_databricks_pipelines_pipeline_event.go:104-115 | the parent's pipeline id and `min(int32(LIMIT), 1000)` |
| PipelinesPipelineEvent.Tagged | databricks/table_databricks_pipelines_pipeline_event.go:88-91 | each event paired with the pipeline id, in order, one row per event |
| PipelinesPipelineEvent.ListPipelinesPipelineEvents | databricks/table_databricks_pipelines_pipeline_event.go:95-145 | an other pipeline's id in the qual gives nothing; otherwise the in-loop token scan of the tagged events |
| PipelinesPipelineEvent.RowsCarryParent | databricks/table_databricks_pipelines_pipeline_event.go:132 | every row carries the parent's pipeline id |
| PipelinesPipelineEvent.RequestsNameParent | databricks/table_databricks_pipelines_pipeline_event.go:104-143 | every request names the parent pipeline |
| WorkspacePipeline.ListWorkspacePipelines | databricks/table_databricks_workspace_pipeline.go:77-121 | the in-loop token scan with the `min(int32(LIMIT), 100)` request |
| WorkspacePipeline.GetWorkspacePipeline | databricks/table_databricks_workspace_pipeline.go:125-147 | an empty id is "no row"; otherwise the get by id |
| ComputePolicyFamily.ListRequest | databricks/table_databricks_compute_policy_family.go:66-76 | `min(LIMIT, 1000)` at full width |
| ComputePolicyFamily.ListComputePolicyFamilies | databricks/table_databricks_compute_policy_family.go:62-106 | the in-loop token scan with that request |
| ComputePolicyFamily.GetComputePolicyFamily | databricks/table_databricks_compute_policy_family.go:110-132 | an empty id is "no row"; otherwise the get by id |
| FilesDbfs.ListPath | databricks/table_databricks_files_dbfs.go:81-87 | the path qual wins over path_prefix; none exactly when both are empty; never an empty path |
| FilesDbfs.ListFilesDbfs | databricks/table_databricks_files_dbfs.go:74-112 | no path gives nothing, before connecting; not-found errors are ignored; otherwise the listing, streamed until the budget runs out |
| FilesDbfs.GetFilesDbfsContent | databricks/table_databricks_files_dbfs.go:116-142 | a directory is "no row" without a call; otherwise the read of the file's path |
| WorkspaceSecret.WithScope | databricks/table_databricks_workspace_secret.go:52-55 | each secret paired with the scope name, in order |
| WorkspaceSecret.ListWorkspaceSecrets | databricks/table_databricks_workspace_secret.go:59-90 | an other scope's name in the qual gives nothing; an API error aborts; otherwise the paired secrets, streamed until the budget runs out |
| WorkspaceSecret.RowsCarryScope | databricks/table_databricks_workspace_secret.go:80-86 | the rows are the first secrets, in order, each with the parent scope |
| SettingsTokenManagement.ListRequest | databricks/table_databricks_settings_token_management.go:82-87 | the created-by id is `EqualsQualString` of its qual, whose integer value the SDK renders as text by the parameter `text`; the username is read from "created_by_user_name" when "created_by_username" is non-empty |
| SettingsTokenManagement.UsernameNeverSent | databricks/table_databricks_settings_token_management.go:85-87 | with quals only on the key columns, the username filter is always empty, whatever the SDK's text rendering |
| SettingsTokenManagement.CreatedByIdNeverSent | databricks/table_databricks_settings_token_management.go:82-84 | IF the SDK renders an integer qual as "", an integer created_by_id qual (the column is INT) never reaches the request |
| SettingsTokenManagement.CreatedByIdSentWhenRendered | databricks/table_databricks_settings_token_management.go:82-84 | if the SDK renders an integer qual in base 10, the id is sent and parses back to the qual's value |
| SettingsTokenManagement.IntendedListRequest | databricks/table_databricks_settings_token_management.go:82-87 | the corrected request: the id's text parses back to the qual's integer, and the username is the qual's value |
| SettingsTokenManagement.IntendedRequestFilters | databricks/table_databricks_settings_token_management.go:82-87 | with both quals, the corrected request carries both; the request as written carries no username and, as its id, exactly the SDK's text for the integer, so nothing when that text is "" |
| SettingsTokenManagement.ListSettingsTokenManagement | databricks/table_databricks_settings_token_management.go:78-111 | the connection error, the API error, or the tokens streamed until the budget runs out |
| SettingsTokenManagement.GetSettingsTokenManagement | databricks/table_databricks_settings_token_management.go:115-137 | an empty token id is "no row"; otherwise the get by id |
| WorkspaceClusterPolicy.GetWorkspaceClusterPolicy | databricks/table_databricks_workspace_cluster_policy.go:122-157 | a connection error first; then by policy_id if present, else by name, else "no row" |
| WorkspaceClusterPolicy.IdTakesPrecedence | databricks/table_databricks_workspace_cluster_policy.go:133-142 | with a policy_id qual the name qual plays no part |
| WorkspaceAlert.ListWorkspaceAlerts | databricks/table_databricks_workspace_alert.go:96-121 | the alerts, streamed in order until the budget runs out |
| WorkspaceAlert.GetWorkspaceAlert | databricks/table_databricks_workspace_alert.go:125-160 | a connection error first; then by "alert_id" if present, else by name, else "no row" |
| WorkspaceAlert.GetByIdFindsNothing | databricks/table_databricks_workspace_alert.go:136 | with quals only on the key columns and no name, a connected get never finds a row |
| WorkspaceAlert.IntendedGetWorkspaceAlert | databricks/table_databricks_workspace_alert.go:125-160 | the corrected dispatch on "id": any key-column qual leads to a lookup |
| AccountCredential.ListAccountCredentials | databricks/table_databricks_account_credential.go:67-92 | the credentials, streamed in order until the budget runs out |
| AccountCredential.GetAccountCredential | databricks/table_databricks_account_credential.go:96-131 | a connection error first; then by credentials_id, else by "name", else "no row" |
| AccountCredential.GetByNameFindsNothing | databricks/table_databricks_account_credential.go:119 | with quals only on the key columns and no id, a connected get never finds a row |
| AccountCredential.IntendedGetAccountCredential | databricks/table_databricks_account_credential.go:96-131 | the corrected dispatch on credentials_name: any key-column qual leads to a lookup |
| WorkspaceGitCredential.ListWorkspaceGitCredentials | databricks/table_databricks_workspace_git_credential.go:54-79 | the credentials, streamed in order until the budget runs out |
| WorkspaceGitCredential.CredentialIdKey | databricks/table_databricks_workspace_git_credential.go:94-103 | present exactly when there is a credential_id qual, carrying its int64 value |
| WorkspaceGitCredential.GetWorkspaceGitCredential | databricks/table_databricks_workspace_git_credential.go:83-118 | a connection error first; then by credential id, else by git provider, else "no row" |
| WorkspaceGitCredential.ConnectedGetAsks | databricks/table_databricks_workspace_git_credential.go:94-117 | any key-column qual leads to a lookup |

## Left out

- The SDK and the network. Every `List`, `ListAll`, `Get` and client constructor of databricks-sdk-go is a function parameter from a request to a page (or to an item) and an error. Whether `ListAll` pages internally is not modelled.
- Client acquisition in the tables. Each table receives the outcome of `connectDatabricksAccount`/`connectDatabricksWorkspace` (or `getWorkspaceClient`, which is not part of this model) as a `Connection` value. The cache itself is modelled once, in `Service.ConnectionCache`.
- The host framework. `StreamListItem` and `RowsRemaining` are the row sink. `RowsRemaining(ctx)` is taken to be the sink's limit minus the rows streamed; the tables' test `== 0` then fires exactly when the limit is reached, and never once the count has passed it. The row limit is a sink parameter and is not derived from the query's `LIMIT`. `EqualsQuals` and `Quals` are maps. Memoization and retry (`shouldRetryError`, not part of this model) are left out.
- Unbounded loops. Each list loop takes a `fuel` bound. The part of a scan beyond it ends as `OutOfFuel`: the model says nothing about what an endless refetch would stream past that point.
- `ConvertTimestamp`: only the whole seconds are modelled. The model leaves out the RFC 3339 text (section 5.6 of RFC 3339) produced through Go's `time` package and the `float64` floor.
- Concurrency. The cache is a plain get-then-set, and concurrent first use is not modelled.
- Column and table declarations, `plugin.go`'s table map and `connection_config.go`'s schema. The configuration fields follow the names `service.go` uses. Duplicate top-level Go names across files are not reasoned about.
- Aliasing of streamed pointers. `StreamListItem(ctx, &item)` takes the address of the loop variable, and its effect depends on Go's loop-variable semantics. The dashboard list models each row as the item itself. The cluster-policy list, whose only logic is such a loop, is not modelled.
- The thin wrapper tables, whose only logic is an SDK call and a one-key guard, are not modelled, and neither is logging.
- `EqualsQualString` on a non-string qual: this model does not fix how the plugin SDK renders an integer (or other non-string) qual value as text. String columns read the string (`Framework.EqualsQualString`). The one INT column read this way, token management's `created_by_id`, reads through the parameter `text` (`Framework.EqualsQualText`), and the finding about it holds only if that rendering is "".
- The column hydrates `getPipelinesPipelinePermissions` and `getAccessControlAssignableRoles`, which are one SDK call each. The parent hydrates `listPipelines` (pipeline updates) and `listWorkspaceScopes` (secrets) are the framework's parent iteration: the child list receives the parent item as a parameter. The `path_prefix` column's echo of its qual is column plumbing too.
- Go's nil versus empty slices. An absent filter list and an empty one are the same sequence.
- The request builders are functions that return the whole request. The field-by-field assignment in Go is not modelled, and neither is any request field the plugin never sets.
- Go's `int` and `int64` widths. Only the `int32` conversions (`int32(LIMIT)`) are modelled with truncation; any other integer width is not modelled.

## Findings

| source | as written | input that shows it | evidently intended | confidence | as-written member | corrected member |
|---|---|---|---|---|---|---|
| databricks/table_databricks_pipelines_pipeline_event.go:139-141 | the empty-token check sits inside the per-item loop and returns after the first item of the last page (also table_databricks_workspace_pipeline.go:115-117 and table_databricks_compute_policy_family.go:100-102) | one page of two events with no next token: one row streamed | every item of the last page streamed, then stop | not executed | Cursors.InLoopSinglePageExample | Cursors.TokenDiscipline |
| databricks/table_databricks_pipelines_pipeline.go:206-216 | the limit is cut to `int32` before the `min` with the cap | `LIMIT 4294967296` gives a page size of 0; `LIMIT 2147483648` gives a negative one | `min(LIMIT, cap)` | not executed | Paging.PageSizeInt32Wraps | Paging.PageSize |
| databricks/table_databricks_settings_token_management.go:85-87 | the username filter is guarded by "created_by_username" but read from "created_by_user_name" | `created_by_username = 'a'`: the request carries an empty username | the username of the qual that was tested | not executed | SettingsTokenManagement.UsernameNeverSent | SettingsTokenManagement.IntendedListRequest |
| databricks/table_databricks_settings_token_management.go:82-84 | the created_by_id filter reads an INT column through `EqualsQualString`; this is a bug only if the SDK renders an integer qual as "", which this model takes as a hypothesis | `created_by_id = 42`: the request carries no creator id, under that hypothesis | the decimal text of the integer | not executed; depends on the SDK's rendering (`SettingsTokenManagement.CreatedByIdSentWhenRendered` shows the other case) | SettingsTokenManagement.CreatedByIdNeverSent | SettingsTokenManagement.IntendedRequestFilters |
| databricks/table_databricks_workspace_alert.go:136 | the id branch tests the qual "alert_id", while the key column is "id" | `id = 'x'` with no name: no row | a lookup by the "id" qual | not executed | WorkspaceAlert.GetByIdFindsNothing | WorkspaceAlert.IntendedGetWorkspaceAlert |
| databricks/table_databricks_account_credential.go:119 | the name branch tests the qual "name", while the key column is "credentials_name" | `credentials_name = 'x'` with no id: no row | a lookup by the "credentials_name" qual | not executed | AccountCredential.GetByNameFindsNothing | AccountCredential.IntendedGetAccountCredential |

The tables keep the behaviour as written. The corrected members sit beside
them. `Cursors.InLoopDropsRestOfLastPage` and `Cursors.InLoopAgreesWhileTokens`
relate the in-loop variant to the token scan in general, not only for one input.
