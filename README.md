# Data-warehouse lineage assistant: a verified Dafny model

This project is a Dafny model of the core of the agentic data-warehouse assistant. The assistant is a FastAPI backend and a Next.js/React frontend. It helps a data engineer do three things:

- discover the tables of source systems (SQL Server and Oracle);
- record and suggest mappings along the Source → Stage → Bronze pipeline;
- have a language model summarise the column lineage of stored procedures, with a cache that says whether each summary is still current.

## Modules

Each core source file is one Dafny module in a file of the same name:

| Dafny file | source file |
|---|---|
| `procedure_cache.dfy`, `hashing.dfy` | `backend/storage/procedure_cache.py`, `backend/utils/hashing.py` |
| `analyze.dfy`, `analyze_status.dfy` | `backend/api/analyze.py`, `backend/api/analyze_status.py` |
| `manager.dfy`, `cache_engine.dfy`, `connection_url.dfy` | `backend/connections/manager.py`, `backend/connections/cache_engine.py` |
| `discovery_oracle.dfy` | `backend/connections/discovery_oracle.py` |
| `sources.dfy`, `schema.dfy` | `backend/api/sources.py`, `backend/api/schema.py` |
| `lineage.dfy`, `lineage_bulk.dfy`, `lineage_agent.dfy` | `backend/api/lineage.py`, `backend/api/lineage_bulk.py`, `backend/agents/lineage_agent.py` |
| `mapping_extractor.dfy` | `backend/utils/mapping_extractor.py` |
| `source_to_stage.dfy`, `source_stage_map.dfy`, `source_to_stage_discovery.dfy` | the three source-to-stage routers |
| `stage_bronze.dfy`, `stage_to_bronze.dfy`, `stage_to_bronze_map.dfy` | the three stage-to-bronze routers |
| `frontend.dfy` | the request and response shapes shared by the pages |
| `manage_source_to_stage.dfy`, `manage_stage_to_bronze.dfy` | `frontend/pages/manage-source-to-stage.js`, `frontend/pages/manage-stage-to-bronze.js` |
| `schema_explorer.dfy`, `schema_lineage_panel.dfy` | `frontend/pages/index.js`, `frontend/components/SchemaLineagePanel.js` |

Three support modules hold shared definitions:

- `common.dfy`: Python exceptions as `Raises`, JSON values, ASCII case mapping, `strip` and `find`.
- `ordering.dfy`: a verified sort that stands for `sorted` and `ORDER BY`.
- `connection_url.dfy`: how SQLAlchemy URLs are rendered and parsed back.

## How the model is built

Some of the program's state is mutated in place. Those parts are classes whose fields are the mutable state:

- the engine cache of `ConnectionManager`;
- the tables the handlers write: the procedure cache, lineage rows, `source_to_stage_mapping` and `stage_to_bronze_mapping`;
- the React state of each page.

Their methods have `modifies` clauses. Each method's `ensures` ties the new state and the response to a pure specification function of the old state and the inputs. The properties the program promises are then proved as lemmas about those specification functions.

A Python exception is a `Raises` value. A handler that turns exceptions into `HTTPException(500, str(e))` returns that value as the error. Engines come from `Manager.ConnectionManager`. A handler method that requests one (for example `Lineage.SaveLineage`, `AnalyzeStatus.GetAnalysisStatus` or `StageBronze.SuggestStageToBronze`) takes the manager and updates its engine cache as `Manager.GetEngineSpec` says. The cache database's engine comes from `CacheEngine.GetCacheEngine`. What the database answers is an input:

- A query is a `Result<seq<Row>>`. Its error case is the exception of executing it, or of opening its connection when the code opens that connection just before the query.
- A connection the code opens apart from its query, a DELETE and a `begin()` each have an `Option<string>` input: the error they raise, if any.
- A failing INSERT is an `InsertCheck`, a function from the inserted row to its error, if any.

Each specification function checks these failures in the order the code meets them.

Several operations come from outside the repository and are function-valued parameters:

- the language model;
- SHA-256;
- `fuzz.ratio`;
- `quote_plus`;
- `sqlparse.split`;
- `json.loads` of the model's answer;
- the clock.

Lemmas quantify over every such function, or state the property they depend on as a `requires` clause (for example, that `quote_plus` output contains no `@`).

## What some handlers answer

A few handlers answer less, or differently, than their names suggest. The model follows the code:

- **Bulk analysis.** `bulk_analyze_by_schema` (`backend/api/lineage_bulk.py` lines 19-83) answers `{"status": "ok", "procedures_analyzed": n}`.
  - `n` counts the procedures whose definition row was found (line 43) and whose lineage was stored.
  - There are no per-procedure success or failure counts: the first failure aborts the request with status 500 (lines 82-83).
  - Each procedure is saved in its own transaction (line 51), so the procedures committed before the failure stay committed (`LineageBulk.FailureKeepsEarlierCommits`).
- **Source-to-stage discovery.** `discover_stage_mappings` (`backend/api/source_to_stage_discovery.py` lines 9-39) proposes exactly one stage table per source catalog row, named `<prefix><lower-cased table name>` (line 32; `SourceToStageDiscovery.OneProposalPerRow`).
  - Nothing ranks candidates by name similarity, applies an auto-map threshold or keeps confirmed mappings unique.
  - The only fuzzy matching is the stage-to-bronze suggestion of `backend/api/stage_to_bronze.py` (lines 36-51), which suggests the earliest bronze table with the highest `fuzz.ratio` when that ratio is at least 80.
- **Staleness.** `get_analysis_status` (`backend/api/analyze_status.py` lines 34-44) compares only the digest of the procedure text. For each procedure it uses the last cache row the query returns; the query has no `ORDER BY`, and the model takes the rows in insertion order, so that row is the most recently stored one.
  - A procedure that is edited and then reverted is reported "outdated".
  - Yet the analysis endpoint answers it from the cache (`AnalyzeStatus.RevertedDefinitionReportedOutdated`).
  - A procedure whose definition is NULL (an encrypted one) makes the whole report fail, because its digest is taken of None (`AnalyzeStatus.NullDefinitionFailsReport`).

## Behaviour the model exhibits

The following are consequences of the code as written. Each is proved as a lemma:

- **Empty cached summary.** `get_cached_summary` returns an empty summary, which is falsy. So, while the empty row is the one the lookup returns, `analyze_procedure` asks the model again and appends one more row on every call (`Analyze.EmptySummaryAlwaysMisses`).
- **Failed status refresh.** The analysis result on the start page keeps its `cached` flag (`SchemaExplorer.FailedRefreshKeepsCachedFlag`).
- **Saving a procedure's lineage.** `save_lineage` deletes the rows with the same procedure name and digest in every database, not only in the database the request names (`Lineage.SaveDeletesAcrossDatabases`).
- **Promoting a discovered mapping.** The handler on the source-to-stage page reads `source_schema_name`, `source_table_name`, `stage_schema_name` and `stage_table_name`. Discovery returns `source_schema`, `source_table`, `stage_schema` and `stage_table`, so the promoted form gets empty schema and table fields (`ManageSourceToStage.PromotedProposalLosesSourceNames`, `ManageSourceToStage.PromotedProposalLosesStageNames`).
- **Posting the add-mapping form.**
  - The form posts the keys `source_db` and `stage_db` and has no `source_tns`.
  - The insert of `backend/api/source_stage_map.py` binds `:source_database`, `:source_tns` and `:stage_database`.
  - So posting the form always fails, with the missing `source_database` bind as the error once the engine is obtained (`ManageSourceToStage.FormPostAlwaysFails`).
- **Error text on the fetch-based pages.** They show `error` or `message` from an error response, never FastAPI's `detail`. A backend error therefore shows as the generic text (`Frontend.DetailIsNotShown`).
- **Stage-to-bronze save message.** It reports the payload size, because the bulk route's answer has no `saved_count` (`ManageStageToBronze.SuccessMessageCountsPayload`).
- **Lineage panel after a bulk run.** It reads `total`, which the bulk route does not return, so it never shows a count (`SchemaLineagePanel.SuccessNeverShowsCount`).
- **Model answers in fences.** `summarize_lineage` strips a ```` ```json ```` fence but keeps a bare ```` ``` ```` fence, so the parser receives such an answer with the fence still on (`LineageAgent.BareFenceKept`); an answer that does not parse becomes the empty lineage (`LineageAgent.ParseOrEmpty`, `LineageAgent.UnparsableAnswerFallsBack`).

Other mismatches between the frontend and the backend live in routing, which the model does not cover:

- **Routers not mounted.** `backend/main.py` does not mount `sources.py`, `stage_bronze.py` or `stage_to_bronze.py`.
- **Path prefix.** The fetch-based pages call `/api/...` paths, but the routers declare none.
- **Bulk path.** The bulk stage-to-bronze route is declared with its prefix twice.
- **Stage alias.** Discovery receives `stage_alias` in the body, but the route reads it from the query.
- **Auto-map.** The page's auto-map endpoint does not exist.

These handlers are still modelled, as functions of the request they would receive.

## Model

| member | source | states |
|---|---|---|
| ProcedureCache.HashProcedure | backend/storage/procedure_cache.py:8-9 | the procedure digest is the very digest `hash_string` computes, so both modules key the same text identically |
| ProcedureCache.GetCachedSummary | backend/storage/procedure_cache.py:12-27 | a lookup misses exactly when no row matches alias, name and digest together; a hit returns the summary of a matching row with no matching row before it (`fetchone`) |
| ProcedureCache.GetAfterAppend | backend/storage/procedure_cache.py:12-43 | after one more INSERT, an earlier match still answers (rows taken in insertion order); otherwise the new row answers for its own key and for no other |
| ProcedureCache.StoreAfterMissHits | backend/storage/procedure_cache.py:30-43 | storing a summary under a key that missed makes the next lookup of that key return it |
| ProcedureCache.StoreLeavesOtherKeys | backend/storage/procedure_cache.py:30-43 | storing under one key leaves the lookup of every other key as it was |
| ProcedureCache.FetchSummary | backend/storage/procedure_cache.py:12-27 | a lookup fails exactly when the cache engine cannot be built (with its credentials error) or the query fails; otherwise it answers None exactly when no row matches alias, name and digest, and else the first match's summary |
| ProcedureCache.StoreError | backend/storage/procedure_cache.py:30-43 | a store succeeds exactly when the cache engine is built and the INSERT accepts the row; missing credentials give the credentials error |
| ProcedureCache.ProcedureCacheTable.StoreSummary | backend/storage/procedure_cache.py:30-43 | the cache is insert-only: a successful store appends exactly one row and changes no existing row; a failed one changes nothing and reports its error |
| Analyze.Prompt | backend/api/analyze.py:31-36 | the prompt is the fixed instruction text followed by exactly the procedure text |
| Analyze.AnalyzeProc | backend/api/analyze.py:19-47 | the handler answers, updates the cache and calls the model exactly as the specification `AnalyzeSpec` says, including a failing cache engine, lookup, model call or INSERT, each of which is the request's error |
| Analyze.HitShortCircuits | backend/api/analyze.py:24-27 | a hit with a non-empty summary returns it with `cached: true`, stores nothing and does not call the model |
| Analyze.MissAsksAndStores | backend/api/analyze.py:29-44 | after a lookup that succeeded and missed, the model is asked; when the INSERT accepts its answer, that answer is appended under (alias, name, digest) and returned with `cached: false` |
| Analyze.LlmFailureStoresNothing | backend/api/analyze.py:38-47 | a failing model call leaves the cache unchanged and the error reaches the caller |
| Analyze.LookupFailureAsksNothing | backend/api/analyze.py:21-25 | when the cache lookup fails (no cache engine, or a failing query) the request fails, the model is not asked and the cache is unchanged |
| Analyze.MissingCacheCredentialsFail | backend/api/analyze.py:21-47 | without a trusted connection and without a cache user, every analysis request fails with the credentials error, before any model call |
| Analyze.StoreFailureWritesNothing | backend/api/analyze.py:38-47 | when the INSERT of a fresh summary fails, the model has been asked, the error reaches the caller and the cache is unchanged, so the next identical request asks the model again |
| Analyze.OnlyAppendsOwnKey | backend/api/analyze.py:19-47 | a call either leaves the cache as it was or appends exactly one row, under the request's own key |
| Analyze.SecondCallHits | backend/api/analyze.py:19-47 | the same request sent twice is answered the second time from the cache with the first summary, when that summary is non-empty |
| Analyze.EmptySummaryAlwaysMisses | backend/api/analyze.py:26-27 | an empty cached summary is falsy: every call asks the model again, each success adds one more row, while the empty row is the one the lookup returns |
| Analyze.StoreMakesUpToDate | backend/api/analyze.py:42 | a summary freshly stored for the catalog's current definition makes the staleness report say "up_to_date" for that procedure (together with `backend/api/analyze_status.py` lines 36-44) |
| AnalyzeStatus.StatusName | backend/api/analyze_status.py:39-44 | a status is one of the three strings "not_analyzed", "up_to_date", "outdated" |
| AnalyzeStatus.StatusNameInjective | backend/api/analyze_status.py:39-44 | distinct states get distinct strings |
| AnalyzeStatus.NamesAreRowNames | backend/api/analyze_status.py:25 | the keys of `procs` are exactly the names of the catalog rows |
| AnalyzeStatus.LastDefinition | backend/api/analyze_status.py:25 | a name has a definition, possibly NULL, exactly when the catalog lists it |
| AnalyzeStatus.LastDefinitionIsLastRow | backend/api/analyze_status.py:25 | with duplicate names, the dictionary keeps the definition of the last row of that name |
| AnalyzeStatus.LastRowDefines | backend/api/analyze_status.py:25 | a catalog row that no later row of the same name follows gives that name its definition, NULL included |
| AnalyzeStatus.LastCachedHashNoneIff | backend/api/analyze_status.py:28-34 | no cached digest is found exactly when no cache row has this alias and name |
| AnalyzeStatus.StatusMap | backend/api/analyze_status.py:36-46 | the report has one entry per catalog name and no other |
| AnalyzeStatus.ProcDict | backend/api/analyze_status.py:25 | the dictionary comprehension's keys are the catalog names and each value is that name's last definition |
| AnalyzeStatus.CachedMap | backend/api/analyze_status.py:34 | `cached_map.get(name)` is the digest of the last cache row of this alias and name |
| AnalyzeStatus.DistinctNames | backend/api/analyze_status.py:37 | the loop visits each catalog name once, none twice |
| AnalyzeStatus.DictStatusIsStatusMap | backend/api/analyze_status.py:25-44 | `procs` holds a None exactly when some procedure's last definition is NULL; otherwise the loop over the two dictionaries computes the report `StatusMap` defines from the rows |
| AnalyzeStatus.ClassifyAll | backend/api/analyze_status.py:36-44 | the loop fails with the error of hashing None exactly when some definition is None; otherwise it builds exactly the dictionary-based report and hashes each procedure once |
| AnalyzeStatus.GetAnalysisStatus | backend/api/analyze_status.py:12-49 | the answer and the manager's engine cache are those of the specification `StatusSpec`: the connection's engine, the cache engine, the catalog query, the cache query and the digests fail in that order, with no partial report; a report has one digest per procedure |
| AnalyzeStatus.StatusSucceedsIff | backend/api/analyze_status.py:12-49 | the report is returned exactly when both engines are obtained, both queries succeed and every procedure's definition is a text, and it is then `StatusMap` |
| AnalyzeStatus.NullDefinitionFailsReport | backend/api/analyze_status.py:21-49 | a procedure whose last catalog row has a NULL definition fails the whole request with the error of hashing None |
| AnalyzeStatus.MissingCacheCredentialsReported | backend/api/analyze_status.py:14-25 | without a trusted connection and without a cache user, the request fails with the credentials error whatever the catalog query would give, because the cache engine is built first |
| AnalyzeStatus.NotAnalyzedIff | backend/api/analyze_status.py:39-40 | a procedure is "not_analyzed" exactly when no cache row of this connection names it |
| AnalyzeStatus.LastRowDecides | backend/api/analyze_status.py:34-44 | once cached, the most recent row decides: "up_to_date" when its digest is that of the current definition, "outdated" otherwise |
| AnalyzeStatus.ForeignRowsIgnored | backend/api/analyze_status.py:32-37 | cache rows of other connections, or of procedures no longer in the catalog, do not change the report |
| AnalyzeStatus.ThreeProcedureScenario | backend/api/analyze_status.py:36-46 | never analysed, analysed and unchanged, and analysed then edited give "not_analyzed", "up_to_date" and "outdated" |
| AnalyzeStatus.RevertedDefinitionReportedOutdated | backend/api/analyze_status.py:34 | after an edit and a revert, the analysis endpoint still hits its cache for the current text, yet the report says "outdated" (together with `backend/storage/procedure_cache.py` lines 12-27) |
| ConnectionUrl.Split | backend/connections/manager.py:31-46 | splitting a URL's query always yields at least one parameter (the helper by which URLs are read back) |
| ConnectionUrl.SplitJoin | backend/connections/manager.py:31-46 | a query joined with `&` from parameters that contain no `&` splits back into the same parameters |
| ConnectionUrl.JoinAppend | backend/connections/manager.py:45-46 | appending `&param` to a joined query is joining one more parameter |
| ConnectionUrl.ParseCredentialsOf | backend/connections/manager.py:36-43 | the `user:password` part (or its absence, with trusted connections) is read back from its text when the user name has no `:` |
| ConnectionUrl.ParseRender | backend/connections/manager.py:31-46 | a `mssql+pyodbc://` URL built from credentials, server, database and query parameters, none containing its delimiters, parses back into exactly those parts, so no two such configurations share a URL (together with `backend/connections/cache_engine.py` lines 18-32) |
| CacheEngine.QueryHead | backend/connections/cache_engine.py:21-31 | the query up to the certificate parameter always ends in `&` |
| CacheEngine.CacheBuildSucceedsIff | backend/connections/cache_engine.py:18-27 | the cache engine is built exactly when CACHE_DB_TRUSTED is "true" in any letter case, or both CACHE_DB_USER and CACHE_DB_PASSWORD are non-empty; otherwise the one error is the ValueError "Missing CACHE_DB_USER or CACHE_DB_PASSWORD for SQL auth" |
| CacheEngine.QueryIsJoin | backend/connections/cache_engine.py:19-32 | the query string is the `&`-join of driver, trusted flag (if any) and certificate parameter, which may be empty |
| CacheEngine.CacheEngineUrl | backend/connections/cache_engine.py:8-34 | the URL holds no credentials for trusted connections, otherwise the user and the URL-quoted password; server and database print "None" when unset; the URL parses back to these parts |
| CacheEngine.TrailingAmpersandWithoutCertTrust | backend/connections/cache_engine.py:16-31 | without CACHE_DB_TRUST_CERT the URL ends in a dangling `&`; with it, in `TrustServerCertificate=yes` |
| Manager.EnvNamedBy | backend/connections/manager.py:36-37 | `os.getenv(config.get(...))` raises TypeError unless the configured variable name is a string, and otherwise reads that variable |
| Manager.Required | backend/connections/manager.py:32-42 | `config['server']` and `config['database']` raise KeyError exactly when the key is absent |
| Manager.ConnectionManager.constructor | backend/connections/manager.py:7-10 | a new manager holds the loaded connections and an empty engine cache |
| Manager.ConnectionManager.GetSqlalchemyEngine | backend/connections/manager.py:12-25 | the method's answer and the new engine cache are those of the specification `GetEngineSpec` |
| Manager.CachedAliasIsReused | backend/connections/manager.py:13-14 | a cached alias returns its cached engine and changes nothing |
| Manager.CacheOnlyOnSuccess | backend/connections/manager.py:16-25 | a raised error leaves the cache as it was; a built engine is cached under the alias; cached engines are never dropped or replaced |
| Manager.SecondCallHits | backend/connections/manager.py:13-25 | once an alias was built, asking again returns the same engine, whatever the environment is by then |
| Manager.LineageUsesLineageBuilder | backend/connections/manager.py:16-17 | the alias "lineage" is built from the LINEAGE_* environment, never from the configuration file |
| Manager.ConfiguredAliasUsesItsConfig | backend/connections/manager.py:18-20 | a configured alias is built from its own configuration |
| Manager.UnknownAliasRaises | backend/connections/manager.py:21-22 | any other alias raises ValueError "Unsupported connection: <alias>" and caches nothing |
| Manager.BaseQueryIsJoin | backend/connections/manager.py:31-43 | the query is `driver=<driver>`, followed by `&trusted_connection=yes` for trusted connections |
| Manager.QueryOfFlags | backend/connections/manager.py:45-46 | `trust_server_cert` appends exactly `&TrustServerCertificate=yes` to the query, and nothing otherwise |
| Manager.ConfigBuildSucceedsIff | backend/connections/manager.py:27-48 | a configured engine is built exactly when server and database are configured and, without a trusted connection, both credential variable names are strings naming non-empty variables |
| Manager.MissingCredentialsRaiseValueError | backend/connections/manager.py:38-39 | an unset or empty user or password raises ValueError "Missing credentials for <alias or unknown>" |
| Manager.ConfigEngineUrl | backend/connections/manager.py:27-48 | the URL carries the unquoted user and password only without a trusted connection, the configured server and database, and parses back to these parts |
| Manager.LineageBuildSucceedsIff | backend/connections/manager.py:50-65 | the lineage engine is built exactly when LINEAGE_SERVER and LINEAGE_DATABASE are set and, without a trusted connection, LINEAGE_USERNAME and LINEAGE_PASSWORD are set (a missing one is a KeyError) |
| Manager.LineageEngineUrl | backend/connections/manager.py:50-70 | the lineage URL holds LINEAGE_SERVER, LINEAGE_DATABASE, the credentials unless the connection is trusted, and the parameters the LINEAGE_* flags choose; it parses back to these parts |
| DiscoveryOracle.CollectRecords | backend/connections/discovery_oracle.py:35-44 | the row loop yields one `{schema, table}` record per catalog row, in query order |
| DiscoveryOracle.DiscoverOracleSource | backend/connections/discovery_oracle.py:7-46 | the function returns, or raises, exactly what the specification `DiscoverSpec` says: the connection URL is checked first, then the catalog query runs |
| DiscoveryOracle.UnknownAliasFailsFirst | backend/connections/discovery_oracle.py:14-17 | an alias that is absent or configured as an empty object raises ValueError "Alias '<alias>' not found in connections.json" before anything else |
| DiscoveryOracle.NonOracleAliasFails | backend/connections/discovery_oracle.py:19-20 | a configured alias whose `type` is not "oracle" raises ValueError "Alias '<alias>' is not of type 'oracle'" |
| DiscoveryOracle.MissingCredentialsFail | backend/connections/discovery_oracle.py:22-25 | an unset or empty ORACLE_USER_<ALIAS> or ORACLE_PASSWORD_<ALIAS> raises EnvironmentError naming both variables |
| DiscoveryOracle.CredentialsIgnoreAliasCase | backend/connections/discovery_oracle.py:22-25 | aliases that differ only in letter case read the same credential variables and report the same message |
| DiscoveryOracle.OracleUrlIff | backend/connections/discovery_oracle.py:14-33 | a URL is built exactly when the alias is an Oracle connection with credentials, `host` and `service`; it is `oracle+cx_oracle://user:password@` followed by the DESCRIPTION text of host, port (1521 when unset) and service |
| DiscoveryOracle.DefaultPortText | backend/connections/discovery_oracle.py:29 | the default port is printed as "1521" |
| DiscoveryOracle.OneRecordPerRow | backend/connections/discovery_oracle.py:36-46 | a failing catalog query is raised as is; otherwise there is one record per row, whose schema is the owner and whose table is the table name |
| Sources.SourceStep | backend/api/sources.py:14-59 | handling one connection never drops records already discovered |
| Sources.AppendSqlServerRecords | backend/api/sources.py:23-37 | a SQL Server connection appends one record per row, in row order, with alias, "sqlserver", schema, table, the configured database and the clock's time |
| Sources.AppendOracleRecords | backend/api/sources.py:39-56 | an Oracle connection with rows raises KeyError for the first missing one of `host`, `port`, `service_name`; with no rows it appends nothing; otherwise it appends one record per row with the `host:port/service_name` EZCONNECT text |
| Sources.AppendRecords | backend/api/sources.py:21-56 | one connection's records, or its error, are appended after those found so far |
| Sources.DiscoverSourceTables | backend/api/sources.py:10-61 | the endpoint's answer and the engine cache afterwards are those of the specification `DiscoverFrom` |
| Sources.RecordsForFit | backend/api/sources.py:15-56 | every record names a source connection and carries that connection's own type |
| Sources.OnlySourceConnectionsContribute | backend/api/sources.py:15-16 | connections whose role is not "source" contribute no record |
| Sources.EarlierRecordsComeFirst | backend/api/sources.py:12-14 | records of earlier connections precede those of later ones |
| Sources.QueryErrorAborts | backend/api/sources.py:58-59 | a failing query aborts the whole discovery with status 500 "Error querying <alias>: <error>" |
| Sources.NoSourceNoQuery | backend/api/sources.py:15-16 | with no source connection left, no engine is built, nothing is queried and the list is returned as found |
| Sources.SqlServerRowsInOrder | backend/api/sources.py:23-37 | a single SQL Server source yields exactly its rows, in order, each stamped with the clock reading of its position (returned at line 61) |
| Common.LookupConfig | backend/connections/manager.py:18-19 | a configuration is found exactly when some connection carries the alias, and it is that connection's configuration |
| Common.Environ | backend/connections/manager.py:52-53 | `os.environ[key]` raises KeyError exactly when the variable is unset |
| Ordering.Sort | backend/api/schema.py:21 | sorting returns a permutation of its input |
| Ordering.SortSorted | backend/api/schema.py:21 | under a total preorder the result of sorting is in order |
| Ordering.LexLeIsTotalPreorder | backend/api/schema.py:21 | comparison of Python strings, by code point, is total and transitive, so `sorted` has a well-defined result |
| Ordering.LexLeAntisymmetric | backend/api/schema.py:21 | two strings that each sort no later than the other are equal, so the sorted order of distinct names is unique |
| Ordering.SortStrings | backend/api/schema.py:21 | `sorted(tables)` is a permutation of the names in ascending code-point order |
| Schema.ListConnections | backend/api/schema.py:8-10 | the connection list holds every configured alias, in configuration order, and nothing else |
| Schema.CollectTables | backend/api/schema.py:17-20 | the nested loops build `schema.table` for every table of every schema, schema by schema |
| Schema.ListTables | backend/api/schema.py:12-23 | the endpoint's answer and the engine cache afterwards are those of the specification `ListTablesSpec` |
| Schema.QualifiedNamesMembers | backend/api/schema.py:18-20 | a name is listed exactly when it is `schema.table` for some table of some schema of the inspected catalog |
| Schema.ListTablesIsSortedCatalog | backend/api/schema.py:12-23 | a successful answer is the catalog's qualified names, each as often as the catalog has it, sorted |
| Schema.SplitQualified | backend/api/schema.py:30-33 | a name with a dot is split at its first dot into a dot-free schema and the rest, which joined back give the name; a name without a dot has no schema |
| Schema.SplitListedName | backend/api/schema.py:20-31 | a name listed by the tables endpoint, whose schema has no dot, splits back into that schema and table |
| Schema.ColumnRecordsShape | backend/api/schema.py:35-43 | columns are described exactly when every raw column has `name` and `type`; then one record per column, with the type as text, `nullable` defaulting to false and `default` to null |
| Schema.ListColumns | backend/api/schema.py:25-45 | the endpoint's answer and the engine cache afterwards are those of the specification `ListColumnsSpec` |
| Schema.ListedTableColumnsAskCatalog | backend/api/schema.py:28-45 | for a listed `schema.table` the catalog is asked for that table in that schema, and its failure or its columns decide the answer |
| Lineage.SplitArgument | backend/api/lineage.py:71-73 | `.split(".")` succeeds exactly on a string value and raises on a missing key or a null |
| Lineage.ColumnValue | backend/api/lineage.py:74-75 | `mapping["source"]` and `mapping["target"]` raise only on a missing key; a null is stored as NULL, a string as itself |
| Lineage.MappingList | backend/api/lineage.py:53 | `lineage.get("column_mappings", [])` is empty when the key is absent, the list when present, and fails to iterate when it is null |
| Lineage.MappingRowFields | backend/api/lineage.py:54-79 | a mapping is inserted exactly when the target table and the mapping's source table are strings and its source and target keys exist; the row carries the first dot-part of the target table as schema, the last dot-parts of both tables, the full source table, the columns, the timestamp and the digest |
| Lineage.MappingRows | backend/api/lineage.py:53-79 | a successful insert loop produces one row per mapping |
| Lineage.MappingRowsSpec | backend/api/lineage.py:53-79 | the loop succeeds exactly when every mapping can be inserted, and then row i is mapping i's row |
| Lineage.MappingRowsPrefixError | backend/api/lineage.py:53-79 | once a mapping raises, the later mappings change nothing: the loop fails with the first error |
| Lineage.DeleteWhere | backend/api/lineage.py:44-50 | the DELETE keeps exactly the rows whose procedure name or digest differs from the request's |
| Lineage.DeleteWhereIdempotent | backend/api/lineage.py:44-50 | deleting a version twice is deleting it once |
| Lineage.DeleteWhereAppend | backend/api/lineage.py:44-50 | the DELETE works row by row: deleting from a concatenation deletes from each part |
| Lineage.InsertedRow | backend/api/lineage.py:54-79 | one mapping is inserted exactly when its row can be built and the INSERT accepts it; a row that cannot be built reports its own error |
| Lineage.InsertMappings | backend/api/lineage.py:53-79 | the insert loop computes exactly the rows of `MappingRows`, or its first error |
| Lineage.SaveLineage | backend/api/lineage.py:34-83 | the manager's engine cache, the table afterwards and the answer are those of the specification `SaveSpec`: a failing engine request, DELETE or INSERT is the error, and delete and inserts commit together or not at all |
| Lineage.AnalyzeLineage | backend/api/lineage.py:25-32 | the endpoint returns the agent's result, which carries the request's procedure name, database and the digest of its text, and fails exactly when the model call fails |
| Lineage.SaveSucceedsIff | backend/api/lineage.py:34-83 | a save succeeds exactly when the lineage engine is obtained, the DELETE succeeds, `column_mappings` iterates, and every mapping's row can be built and is accepted |
| Lineage.SaveNeedsEngineAndDelete | backend/api/lineage.py:38-50 | a failing engine request or a failing DELETE is the request's error, and the table is unchanged |
| Lineage.SaveInsertsOneRowPerMapping | backend/api/lineage.py:42-81 | a successful save reports `rows` equal to the number of mappings; the table holds the rows of other versions, in order, followed by exactly one row per mapping carrying the request's procedure, database, digest and timestamp |
| Lineage.SaveTouchesOnlyItsVersion | backend/api/lineage.py:44-50 | rows of other procedures or other digests survive a save, and after a successful save every row of this version is a newly inserted one |
| Lineage.SaveFailureRollsBack | backend/api/lineage.py:42-83 | a save that raises leaves the table as it was: the DELETE is rolled back with the failed inserts |
| Lineage.SaveDeletesAcrossDatabases | backend/api/lineage.py:44-50 | the DELETE does not look at the database, so a save removes this version's rows recorded under another database |
| Lineage.SaveIdempotent | backend/api/lineage.py:34-83 | saving the same record twice at the same time gives the same answer and the same table as saving it once |
| Lineage.NoMappingsClearsVersion | backend/api/lineage.py:44-81 | a lineage without `column_mappings` reports 0 rows and only deletes the version's existing rows |
| LineageAgent.StripTemplateGivesPrompt | backend/agents/lineage_agent.py:7-28 | the stripped template is the prompt text without the template's leading and trailing line breaks, for any procedure name and text |
| LineageAgent.StripOneLineBreakEachSide | backend/agents/lineage_agent.py:28 | `.strip()` removes exactly one surrounding line break from a text whose ends are not blank |
| LineageAgent.RemovePrefix | backend/agents/lineage_agent.py:35 | `removeprefix` drops the prefix when the text starts with it and otherwise returns the text unchanged |
| LineageAgent.RemoveSuffix | backend/agents/lineage_agent.py:35 | `removesuffix` drops the suffix when the text ends with it and otherwise returns the text unchanged |
| LineageAgent.StripFenceOfFenced | backend/agents/lineage_agent.py:33-35 | an answer fenced as ```` ```json … ``` ```` yields the trimmed body between the fences |
| LineageAgent.StripFenceOtherwiseTrims | backend/agents/lineage_agent.py:33-34 | any other answer is only trimmed |
| LineageAgent.BareFenceKept | backend/agents/lineage_agent.py:34 | an answer fenced with a bare ```` ``` ```` is not unfenced: the parser receives the fences too |
| LineageAgent.ParseOrEmpty | backend/agents/lineage_agent.py:32-39 | an answer that does not parse becomes the empty lineage (no sources, empty target, no mappings); one that parses is its parse |
| LineageAgent.SummarizeLineage | backend/agents/lineage_agent.py:6-47 | the call fails exactly when the model call fails; otherwise the result carries the parsed lineage, the raw answer, the prompt, the digest of the text, the procedure name and the database |
| LineageAgent.UnparsableAnswerFallsBack | backend/agents/lineage_agent.py:38-47 | an unparsable answer gives the empty lineage with all the bookkeeping fields still set |
| LineageAgent.HashIgnoresAnswer | backend/agents/lineage_agent.py:44 | the digest depends on the procedure text alone, not on the name, the database or the model's answer |
| LineageBulk.ProcLeIsTotalPreorder | backend/api/lineage_bulk.py:29 | ordering by schema name, then procedure name, is a total preorder, so `ORDER BY s.name, p.name` is well defined |
| LineageBulk.InSchema | backend/api/lineage_bulk.py:28 | `:schema IS NULL OR s.name = :schema` keeps every procedure without a schema filter, and otherwise exactly those of that schema |
| LineageBulk.ProcNames | backend/api/lineage_bulk.py:32 | `[row[0] for row in result]` keeps one name per row, in order |
| LineageBulk.OrderedProcedures | backend/api/lineage_bulk.py:24-31 | the query result is a permutation of the selected procedures, ordered by schema and name |
| LineageBulk.SelectProceduresSpec | backend/api/lineage_bulk.py:24-32 | the procedure list is the names of exactly the procedures of the requested schema (or all), ordered by schema then name |
| LineageBulk.AsLineageDict | backend/api/lineage_bulk.py:46-58 | the agent's result always has a `column_mappings` list, one entry per parsed mapping |
| LineageBulk.BulkAnalyzeBySchema | backend/api/lineage_bulk.py:19-83 | the answer and the `lineage_map` table afterwards are those of the specification `BulkSpec`, which stops at the first procedure whose definition query, model call, engine request, DELETE or INSERT fails |
| LineageBulk.AnalyzeOne | backend/api/lineage_bulk.py:36-79 | one pass of the loop does what the step function `ProcStep` says: skip a missing definition, fail on a failing query, NULL definition, model call, engine request or write, or replace the procedure's rows |
| LineageBulk.ProcStepSkipsUndefined | backend/api/lineage_bulk.py:42-44 | a procedure is skipped, without calling the model or touching the table, exactly when its definition is not found |
| LineageBulk.LoopCountsDefined | backend/api/lineage_bulk.py:35-79 | a loop that completes counts, beyond what it started with, exactly the procedures whose definition was found |
| LineageBulk.BulkCountsDefined | backend/api/lineage_bulk.py:79-81 | `procedures_analyzed` is the number of listed procedures that have a definition |
| LineageBulk.NullDefinitionFails | backend/api/lineage_bulk.py:42-46 | a procedure whose definition is NULL makes the step fail: with the model's error if the model call fails, else with the error of encoding None for the digest |
| LineageBulk.ProcStepStoredIff | backend/api/lineage_bulk.py:36-78 | a procedure's rows are replaced exactly when its definition is a text, the agent succeeds, the lineage engine and DELETE succeed, and every mapping's INSERT succeeds |
| LineageBulk.StepKeepsOtherRows | backend/api/lineage_bulk.py:53-56 | one procedure's save keeps every row of another procedure or another database |
| LineageBulk.StepInsertsOwnRows | backend/api/lineage_bulk.py:50-78 | after one procedure's save the surviving rows come first, followed by one row per parsed mapping carrying the procedure, the alias as database, the digest of the definition and that pass's timestamp |
| LineageBulk.AppendedRowsCarry | backend/api/lineage_bulk.py:58-78 | the inserted rows follow the kept ones, one per mapping, each stamped with procedure, database, digest and time |
| LineageBulk.LoopKeepsRow | backend/api/lineage_bulk.py:35-79 | a row that no single pass removes survives the whole loop |
| LineageBulk.BulkKeepsOtherDatabases | backend/api/lineage_bulk.py:53-56 | a bulk run never removes rows recorded under another database |
| LineageBulk.FailureKeepsEarlierCommits | backend/api/lineage_bulk.py:50-83 | when a procedure's save raises, the request fails with that error, and the procedures saved before it stay committed, each in its own transaction |
| MappingExtractor.SpanEndSpec | backend/utils/mapping_extractor.py:8-12 | a greedy `\w+` or `\s+` run covers only characters of its class and stops at the first character outside it |
| MappingExtractor.SpanEndUnique | backend/utils/mapping_extractor.py:8-12 | the greedy run is the only run with that property, so the captured group is determined by where the match starts |
| MappingExtractor.MatchAt | backend/utils/mapping_extractor.py:8-46 | a match of one of the four patterns at a position is non-empty, stays inside the text and has as many groups as the pattern has |
| MappingExtractor.FirstMatchAt | backend/utils/mapping_extractor.py:8-9 | `re.search` reports a position where the pattern matches |
| MappingExtractor.FirstMatchIsLeftmost | backend/utils/mapping_extractor.py:8-9 | no match starts before the position `re.search` reports |
| MappingExtractor.NoFirstMatchNoMatch | backend/utils/mapping_extractor.py:8-9 | when `re.search` finds nothing, the pattern matches at no position |
| MappingExtractor.FindAll | backend/utils/mapping_extractor.py:12-13 | every item `findall` returns holds as many strings as the pattern has groups |
| MappingExtractor.FindAllHit | backend/utils/mapping_extractor.py:12-13 | `findall` takes a match where one starts and resumes after its end |
| MappingExtractor.FindAllMiss | backend/utils/mapping_extractor.py:12-13 | where no match starts, `findall` moves on by one character |
| MappingExtractor.ExtractTempTableName | backend/utils/mapping_extractor.py:7-9 | a found temporary table name is `#` followed by at least one word character |
| MappingExtractor.TempTableGroupShape | backend/utils/mapping_extractor.py:8 | the captured group of `INTO\s+(#\w+)` is `#` followed by word characters |
| MappingExtractor.TempTableOfInto | backend/utils/mapping_extractor.py:7-9 | `INTO #name` followed by a non-word character yields exactly `#name` |
| MappingExtractor.ExtractSelectMappings | backend/utils/mapping_extractor.py:11-13 | one (source, alias) pair per match of `(\w+)\s+AS\s+(\w+)` |
| MappingExtractor.ExtractSelectMappingsOfRender | backend/utils/mapping_extractor.py:11-13 | a select list written `a1 AS b1, a2 AS b2, …` of word pairs is read back as exactly those pairs, in order |
| MappingExtractor.SelectStarMatches | backend/utils/mapping_extractor.py:24 | `SELECT * INTO #t FROM src` matches the select-star pattern from its first character, capturing `#t` and `src` |
| MappingExtractor.SelectStarSwaps | backend/utils/mapping_extractor.py:23-25 | `extract_select_star_from` returns (source, temporary table), the reverse of the capture order |
| MappingExtractor.ExtractProcedureMappings | backend/utils/mapping_extractor.py:27-65 | the loop over the split statements computes the left fold `Fold` of one statement step |
| MappingExtractor.InertStatementsGiveInitial | backend/utils/mapping_extractor.py:29-65 | statements that are neither SELECT … INTO … FROM, INSERT INTO nor MERGE INTO … USING leave every field null and the mappings empty |
| MappingExtractor.SelectIntoTakesPrecedence | backend/utils/mapping_extractor.py:37-51 | a SELECT … INTO … FROM statement never sets the target table, even if it also contains INSERT INTO |
| MappingExtractor.SelectIntoOverwrites | backend/utils/mapping_extractor.py:43-48 | without `*`, such a statement replaces the temporary table (possibly by null) and the mappings whatever came before, and replaces the source table only when a FROM is found |
| MappingExtractor.InsertGuard | backend/utils/mapping_extractor.py:50-51 | INSERT INTO sets the target table only once a temporary table is known or when the statement has no `#`; otherwise, unless it is a MERGE, the state is unchanged |
| MappingExtractor.MergeKeepsFirstTemp | backend/utils/mapping_extractor.py:53-58 | MERGE INTO … USING #t sets the target and adopts `#t` only when no temporary table is known yet |
| SourceToStage.RequiredField | backend/models/source_stage.py:6-15 | a required field is accepted exactly when the body carries it with a non-null value |
| SourceToStage.OptionalField | backend/models/source_stage.py:7-18 | an optional field missing from the body defaults to null |
| SourceToStage.ParseRecordIff | backend/models/source_stage.py:5-18 | a body is a valid record exactly when the five required fields are present and non-null; the record then carries their values, and every absent optional field is null |
| SourceToStage.AddSourceToStageMapping | backend/api/source_to_stage.py:11-35 | the answer and the table afterwards are those of the specification `AddSpec` |
| SourceToStage.AddAppendsOneRow | backend/api/source_to_stage.py:14-33 | an inserted record adds exactly one row at the end, holding every field of the body and `created_at` set to the request time |
| SourceToStage.AddFailureInsertsNothing | backend/api/source_to_stage.py:15-35 | a rejected body or a failed insert leaves the table as it was |
| SourceToStage.AddTwiceAddsTwoRows | backend/api/source_to_stage.py:16-33 | the insert does not deduplicate: posting the same record twice adds two equal rows |
| SourceStageMap.NullableLeAntisymmetric | backend/api/source_stage_map.py:13 | the SQL ordering of nullable texts, nulls first, is antisymmetric |
| SourceStageMap.ListingLeIsTotalPreorder | backend/api/source_stage_map.py:13 | `ORDER BY source_type, source_schema, source_table` is a total preorder on rows |
| SourceStageMap.ListingIsOrderedTable | backend/api/source_stage_map.py:9-15 | the listing returns every row of the table, each as often as stored, ordered by source type, schema and table |
| SourceStageMap.ListingGroupsBySourceType | backend/api/source_stage_map.py:13 | in the listing, source types never decrease |
| SourceStageMap.MissingBind | backend/api/source_stage_map.py:22-30 | the insert's binds are all satisfied exactly when the dictionary has all nine named keys; otherwise a missing one is reported |
| SourceStageMap.AddMapping | backend/api/source_stage_map.py:17-33 | the answer, the table and the manager's engine cache afterwards are those of the specification `AddMappingSpec`, in which the "lineage" engine and `begin()` come before the parameters are bound |
| SourceStageMap.AddMappingAppendsIff | backend/api/source_stage_map.py:17-33 | the answer is "added" exactly when the engine is obtained, the transaction begins, all nine keys are present and the insert is accepted, and then one row is appended; on an error the table is unchanged |
| SourceStageMap.ConnectFailsBeforeBinding | backend/api/source_stage_map.py:19-21 | a failing engine request or `begin()` is the error whatever was posted, and no row is written |
| SourceStageMap.MappingRowColumns | backend/api/source_stage_map.py:23-29 | the inserted row takes the nine named columns from the dictionary and leaves connection name, notes and creation time NULL, whatever other keys the dictionary carries |
| SourceStageMap.MissingKeyRejected | backend/api/source_stage_map.py:17-33 | a dictionary missing any bound key is rejected and adds no row; once connected, the error names the first missing key |
| SourceStageMap.AddMappingTwiceAddsTwoRows | backend/api/source_stage_map.py:22-31 | posting the same mapping twice appends it twice |
| SourceToStageDiscovery.ProposalOf | backend/api/source_to_stage_discovery.py:25-33 | a proposal pairs the source catalog row with the stage alias, the configured stage schema and the prefixed lower-case table name |
| SourceToStageDiscovery.DiscoverStageMappings | backend/api/source_to_stage_discovery.py:9-39 | the handler answers as the specification `DiscoverSpec` says |
| SourceToStageDiscovery.OneProposalPerRow | backend/api/source_to_stage_discovery.py:15-36 | one proposal per catalog row, in order: the source's type, both aliases, owner and table, stage schema defaulting to "dbo" and stage table `prefix + lower(table)` with an empty default prefix |
| SourceToStageDiscovery.StageTableLowerCase | backend/api/source_to_stage_discovery.py:32 | with a lower-case prefix, every proposed stage table name is lower-case |
| SourceToStageDiscovery.UnknownAliasFailsFirst | backend/api/source_to_stage_discovery.py:12-39 | an unknown source or stage alias fails with its KeyError before the catalog is consulted, whatever the catalog holds |
| StageBronze.BronzeLookupKeys | backend/api/stage_bronze.py:26-29 | the bronze lookup has a key exactly for the lower-cased (schema, table) of some bronze row |
| StageBronze.BronzeLookupLastWins | backend/api/stage_bronze.py:26-29 | under a shared key the lookup holds the last bronze row with that key |
| StageBronze.SuggestStageToBronze | backend/api/stage_bronze.py:9-45 | the answer and the manager's engine cache are those of the specification `SuggestSpec`: the Silver and Bronze engines, the two connections, then the two queries fail in that order; otherwise one suggestion per matched stage row |
| StageBronze.SuggestSucceedsIff | backend/api/stage_bronze.py:9-45 | the endpoint answers exactly when both engines, both connections and both queries succeed, with the suggestions for the two table lists; a failing Bronze connection is reported even when the stage query would also fail |
| StageBronze.SuggestionIffKeyMatches | backend/api/stage_bronze.py:32-41 | a stage row is suggested exactly when some bronze row has the same schema and table ignoring case; the suggestion keeps the stage row's own spelling, the spelling of the last such bronze row, and "exact" |
| StageBronze.SuggestionsInStageOrder | backend/api/stage_bronze.py:32 | suggestions follow the order of the stage rows, at most one per row |
| StageBronze.SuggestionsAreStageSuggestions | backend/api/stage_bronze.py:32-43 | every suggestion is the suggestion of some stage row, and every such suggestion is listed |
| StageToBronze.BestOf | backend/api/stage_to_bronze.py:38-44 | the fuzzy search finds a table only with a positive score, and reports 0 when it finds none |
| StageToBronze.BestIsEarliestMaximum | backend/api/stage_to_bronze.py:38-44 | because the comparison is strict, the best match is the first bronze table with the highest ratio, and none is found when no ratio is positive |
| StageToBronze.BestMatch | backend/api/stage_to_bronze.py:38-44 | the inner loop computes the best match and its score as `BestOf` defines them |
| StageToBronze.CollectSuggestions | backend/api/stage_to_bronze.py:25-53 | the outer loop collects the suggestion of each stage table, in stage order |
| StageToBronze.SuggestStageToBronzeMap | backend/api/stage_to_bronze.py:12-53 | the handler's answer and the manager's engine cache afterwards are those of the specification `SuggestSpec`: engines for Silver then Bronze, their table lists, then the collected suggestions |
| StageToBronze.MissingSilverRaises | backend/api/stage_to_bronze.py:12-14 | without a configured or cached Silver connection the request raises `ValueError("Unsupported connection: Silver")` and the cache is unchanged |
| StageToBronze.SuggestAnswersWhenConnected | backend/api/stage_to_bronze.py:12-53 | an answered request has cached both engines, both table queries succeeded, and the answer is the suggestions for those two table lists |
| StageToBronze.ExactMatchWins | backend/api/stage_to_bronze.py:29-35 | a stage table that is also a bronze table, with the same spelling, is suggested as itself, "exact", score 100 |
| StageToBronze.FuzzyMatchIsEarliestBest | backend/api/stage_to_bronze.py:36-51 | otherwise a suggestion exists exactly when some bronze table scores at least 80; it is "fuzzy", names the first table with the highest score and carries that score |
| StageToBronze.NoFuzzyMatchWithoutPositiveScore | backend/api/stage_to_bronze.py:38-45 | with no positive score there is no suggestion |
| StageToBronze.SuggestionsInStageOrder | backend/api/stage_to_bronze.py:27 | suggestions follow the stage table order, at most one per table |
| StageToBronzeMap.StagePairsAreLowerCase | backend/api/stage_to_bronze_map.py:32 | every stage pair is lower-cased |
| StageToBronzeMap.SuggestsExactlyMeans | backend/api/stage_to_bronze_map.py:35-43 | a list of suggestions for a set of pairs has no duplicates and suggests exactly the pairs of the set |
| StageToBronzeMap.SuggestUncovered | backend/api/stage_to_bronze_map.py:35-43 | the loop over the stage set suggests each stage pair missing from the bronze set exactly once, and nothing else |
| StageToBronzeMap.SuggestStageToBronze | backend/api/stage_to_bronze_map.py:19-47 | a failing engine request, stage query or bronze query is the error, in that order; with both queries answered, a null stage schema or table makes the request fail (`.lower()` of None); otherwise the suggestions are duplicate-free and are exactly the lower-cased stage pairs not yet in `stage_to_bronze_map`, one each |
| StageToBronzeMap.SuggestionShape | backend/api/stage_to_bronze_map.py:36-43 | a stage pair is uncovered exactly when no bronze row has it ignoring case, and its suggestion proposes the same lower-cased schema and table on the bronze side |
| StageToBronzeMap.BulkRowsIff | backend/api/stage_to_bronze_map.py:54-73 | the insert loop succeeds exactly when every row is accepted, and then writes one row per mapping, in order, with the common timestamp |
| StageToBronzeMap.SaveStageToBronzeBulk | backend/api/stage_to_bronze_map.py:49-76 | the manager's engine cache, the answer and the table afterwards are those of the specification `BulkSpec`, which fails on a failing engine request, `begin()` or INSERT, even for an empty batch |
| StageToBronzeMap.BulkAppendsOneRowPerMapping | backend/api/stage_to_bronze_map.py:49-76 | a bulk save succeeds exactly when the engine is obtained, the transaction begins and every insert is accepted; it then reports `rows` equal to the number of mappings and appends one row per mapping; a failure rolls every insert back |
| StageToBronzeMap.BronzePairsAppend | backend/api/stage_to_bronze_map.py:29-33 | the bronze pairs of appended rows are those of each part |
| StageToBronzeMap.EmptyBatchStillConnects | backend/api/stage_to_bronze_map.py:49-76 | an empty batch changes no row, and answers 0 rows exactly when the engine is obtained and the transaction begins |
| StageToBronzeMap.SavedPairsNoLongerSuggested | backend/api/stage_to_bronze_map.py:19-76 | after a successful bulk save, the next suggestion run omits exactly the pairs just saved |
| Frontend.FieldText | frontend/components/SchemaLineagePanel.js:32 | a template literal prints a missing field as "undefined" |
| Frontend.DetailKeyIsSkipped | frontend/pages/manage-stage-to-bronze.js:83-85 | an error body holding only `detail` (the shape of FastAPI's HTTPException) offers none of the keys the page reads, so the fallback text is used (lines 27-28 read suggestion errors the same way) |
| Frontend.DetailIsNotShown | frontend/pages/manage-source-to-stage.js:74-76 | for a backend error answer the page shows "Error: <status text>", never the backend's `detail` (together with `frontend/pages/manage-stage-to-bronze.js` lines 83-85) |
| ManageStageToBronze.SelectedItems | frontend/pages/manage-stage-to-bronze.js:46-48 | the selected items are a sub-list of the suggestions |
| ManageStageToBronze.AllIndices | frontend/pages/manage-stage-to-bronze.js:129-133 | checking the header marks every row index, and only those, as selected |
| ManageStageToBronze.StageToBronzePage.constructor | frontend/pages/manage-stage-to-bronze.js:5-15 | the page starts with no suggestions, nothing selected, empty database names and no messages |
| ManageStageToBronze.StageToBronzePage.StartSuggest | frontend/pages/manage-stage-to-bronze.js:17-25 | asking for suggestions clears the list, the selection and both messages and shows the loading state |
| ManageStageToBronze.StageToBronzePage.FinishSuggest | frontend/pages/manage-stage-to-bronze.js:26-36 | a good answer becomes the list; an error answer sets the suggestion error from `message` or the status text; loading ends either way |
| ManageStageToBronze.StageToBronzePage.ToggleSelection | frontend/pages/manage-stage-to-bronze.js:39-44 | clicking a row flips that row's selection and nothing else |
| ManageStageToBronze.StageToBronzePage.SelectAllChanged | frontend/pages/manage-stage-to-bronze.js:128-134 | the header checkbox selects every row, or clears the selection |
| ManageStageToBronze.StageToBronzePage.SaveSelected | frontend/pages/manage-stage-to-bronze.js:50-82 | with nothing selected or a blank database name the page shows the error and sends nothing; otherwise it sends one mapping per selected item and enters the saving state |
| ManageStageToBronze.StageToBronzePage.FinishSave | frontend/pages/manage-stage-to-bronze.js:83-96 | a good answer shows the success message and clears the selection; an error answer shows `error`, `message` or the status text and keeps the selection |
| ManageStageToBronze.ToggleFlipsOnlyIndex | frontend/pages/manage-stage-to-bronze.js:40-43 | after a toggle, the toggled row's selection is flipped and every other row's is unchanged |
| ManageStageToBronze.SelectedItemsMembers | frontend/pages/manage-stage-to-bronze.js:46-48 | an item is selected exactly when it is the suggestion at a selected index |
| ManageStageToBronze.AllSelectedIff | frontend/pages/manage-stage-to-bronze.js:46-48 | every suggestion is in the selection exactly when every index is selected, and then the selection is the whole list (the header checkbox at line 135 is checked on this condition) |
| ManageStageToBronze.NoneSelected | frontend/pages/manage-stage-to-bronze.js:21 | an empty selection object selects nothing (as does the reset at line 89) |
| ManageStageToBronze.HeaderCheckedIff | frontend/pages/manage-stage-to-bronze.js:135 | the header checkbox is checked exactly when the list is non-empty and every row is selected |
| ManageStageToBronze.SelectAllSelectsEverything | frontend/pages/manage-stage-to-bronze.js:128-135 | checking the header selects the whole list (and shows checked when the list is non-empty); unchecking it selects nothing |
| ManageStageToBronze.SaveErrorIff | frontend/pages/manage-stage-to-bronze.js:51-59 | a save is sent exactly when something is selected and neither database name is blank after trimming; with nothing selected the message is "No suggestions selected to save." |
| ManageStageToBronze.PayloadEntries | frontend/pages/manage-stage-to-bronze.js:65-75 | the payload has one mapping per selected item, in order, with the typed database names and the item's schemas and tables |
| ManageStageToBronze.SuccessMessageCountsPayload | frontend/pages/manage-stage-to-bronze.js:88 | the backend answers `status` and `rows`, never `saved_count`, so the message always counts the payload: "<n> mappings saved successfully!" (together with `backend/api/stage_to_bronze_map.py` lines 74) |
| ManageSourceToStage.InitialForm | frontend/pages/manage-source-to-stage.js:4-15 | the form has exactly the ten fields, all empty |
| ManageSourceToStage.SourceToStagePage.constructor | frontend/pages/manage-source-to-stage.js:22-32 | the page starts with the empty form, no saving state, no success and no error, and empty discovery aliases |
| ManageSourceToStage.SourceToStagePage.HandleFormChange | frontend/pages/manage-source-to-stage.js:58-61 | typing into a field replaces that field's value and nothing else |
| ManageSourceToStage.SourceToStagePage.PromoteDiscoveredMapping | frontend/pages/manage-source-to-stage.js:132-144 | promoting a discovered mapping replaces the whole form by the promoted form |
| ManageSourceToStage.SourceToStagePage.StartSave | frontend/pages/manage-source-to-stage.js:63-73 | saving posts the form as it stands and enters the saving state with no error and no success |
| ManageSourceToStage.SourceToStagePage.FinishSave | frontend/pages/manage-source-to-stage.js:74-85 | a good answer sets success and resets the form; an error answer shows `message` or the status text and keeps the form |
| ManageSourceToStage.RequiredFields | frontend/pages/manage-source-to-stage.js:210 | every field but `source_host` and `notes` is required |
| ManageSourceToStage.PromotedFormFields | frontend/pages/manage-source-to-stage.js:133-144 | the promoted form has the ten fields; `source_db`, `source_schema` and `stage_table` are read from the `*_name` keys; `connection_name` falls back to the source alias; `notes` names both aliases |
| ManageSourceToStage.PromotedProposalLosesSourceNames | frontend/pages/manage-source-to-stage.js:134-138 | promoting a proposal of the discovery endpoint leaves source database, schema, table and host empty, since the proposal has no `*_name` keys (together with `backend/api/source_to_stage_discovery.py` lines 25-33) |
| ManageSourceToStage.PromotedProposalLosesStageNames | frontend/pages/manage-source-to-stage.js:139-142 | it leaves the stage database, schema and table empty too, and the connection name is the source alias (together with `backend/api/source_to_stage_discovery.py` lines 25-33) |
| ManageSourceToStage.FormPostAlwaysFails | frontend/pages/manage-source-to-stage.js:69-73 | the form's keys (`source_db`, `stage_db`, no `source_tns`) never satisfy the insert's binds, so posting it always fails and adds no row, with the missing `source_database` bind as the error once the engine is obtained and the transaction begun (together with `backend/api/source_stage_map.py` lines 17-33) |
| ManageSourceToStage.SavedFormIsReset | frontend/pages/manage-source-to-stage.js:79 | after a successful save every field is empty again |
| SchemaExplorer.FilteredProcedures | frontend/pages/index.js:97-99 | a procedure is listed exactly when its lower-cased name contains the lower-cased search text; the list never grows |
| SchemaExplorer.FilteredProceduresAppend | frontend/pages/index.js:97-99 | the filter keeps the order of the procedure list |
| SchemaExplorer.EmptySearchKeepsAll | frontend/pages/index.js:97-99 | an empty search lists every procedure, in order |
| SchemaExplorer.SearchIgnoresCase | frontend/pages/index.js:98 | the search is case-insensitive: lower-casing the search text changes nothing |
| SchemaExplorer.StatusBadgeIff | frontend/pages/index.js:101-108 | a badge is drawn exactly for the three status strings, and every status the backend reports gets one (together with `backend/api/analyze_status.py` lines 39-44) |
| SchemaExplorer.AnalysisAfterCases | frontend/pages/index.js:79-94 | the summary, its cached flag and the refreshed statuses are shown exactly when both requests succeed; otherwise the first failure's message follows "Error analyzing procedure: " and the statuses stay |
| SchemaExplorer.FailedRefreshKeepsCachedFlag | frontend/pages/index.js:85-91 | when the analysis succeeds but the status refresh fails, the error replaces the summary while the cached flag of the discarded answer stays set |
| SchemaExplorer.ExplorerPage.constructor | frontend/pages/index.js:10-23 | the page starts with no connections, tables, columns, procedures, selection, analysis, error or statuses |
| SchemaExplorer.ExplorerPage.Listed | frontend/pages/index.js:97-99 | the listed procedures are those whose name matches the current search |
| SchemaExplorer.ExplorerPage.ConnectionsLoaded | frontend/pages/index.js:27-31 | the connection list is the answer, or the error message is shown |
| SchemaExplorer.ExplorerPage.FetchTables | frontend/pages/index.js:33-43 | choosing a connection selects it and clears table, columns, procedures, search, procedure, body, analysis, cached flag and statuses, leaving the table list until it arrives |
| SchemaExplorer.ExplorerPage.TablesLoaded | frontend/pages/index.js:45-47 | the table list is the answer, or the error message is shown |
| SchemaExplorer.ExplorerPage.ProceduresLoaded | frontend/pages/index.js:49-51 | the procedure list is the answer, or the error message is shown |
| SchemaExplorer.ExplorerPage.StatusLoaded | frontend/pages/index.js:53-55 | the statuses are the answer; a failure is only logged and sets no error |
| SchemaExplorer.ExplorerPage.FetchColumns | frontend/pages/index.js:58-60 | choosing a table selects it and empties the columns |
| SchemaExplorer.ExplorerPage.ColumnsLoaded | frontend/pages/index.js:61-63 | the columns are the answer, or the error message is shown |
| SchemaExplorer.ExplorerPage.FetchProcedure | frontend/pages/index.js:66-69 | choosing a procedure selects it and clears the analysis and cached flag; the old body stays until the new one arrives |
| SchemaExplorer.ExplorerPage.ProcedureLoaded | frontend/pages/index.js:70-72 | the body is the answer's definition, or the error message is shown |
| SchemaExplorer.ExplorerPage.StartAnalyze | frontend/pages/index.js:75-84 | analysing clears the analysis and cached flag and posts the body, the connection and the procedure name |
| SchemaExplorer.ExplorerPage.FinishAnalyze | frontend/pages/index.js:85-94 | what the page shows afterwards is `AnalysisAfter` of the two answers, and analysing ends |
| SchemaExplorer.NewConnectionListsAllProcedures | frontend/pages/index.js:97-99 | after choosing a connection the search is empty, so every procedure that arrives is listed (the search having been reset at lines 37-38) |
| SchemaLineagePanel.Distinct | frontend/components/SchemaLineagePanel.js:18 | `[...new Set(xs)]` keeps each value once, in order of first occurrence |
| SchemaLineagePanel.DistinctOfDistinct | frontend/components/SchemaLineagePanel.js:18 | a list without repeats passes through the set unchanged |
| SchemaLineagePanel.UniqueSchemas | frontend/components/SchemaLineagePanel.js:18 | the schema list holds, once each, exactly the text before the first dot of each table name, starting with that of the first table |
| SchemaLineagePanel.SchemaOfListedTable | frontend/components/SchemaLineagePanel.js:18 | for a `schema.table` name from the tables endpoint whose schema has no dot, the panel recovers that schema (together with `backend/api/schema.py` lines 20) |
| SchemaLineagePanel.SuccessNeverShowsCount | frontend/components/SchemaLineagePanel.js:33 | the backend answers `procedures_analyzed`, but the panel reads `total`: every success shows "✅ Processed undefined procedures." (together with `backend/api/lineage_bulk.py` lines 81) |
| SchemaLineagePanel.ErrorShowsDetail | frontend/components/SchemaLineagePanel.js:35 | a failed bulk run shows the backend's `detail`, or the request's own error message when the detail is empty (together with `backend/api/lineage_bulk.py` lines 82-83) |
| SchemaLineagePanel.BulkRequestStatus | frontend/components/SchemaLineagePanel.js:24-38 | for every bulk run, whatever its outcome, the status line is the fixed success text or the error text with the backend's detail (together with `backend/api/lineage_bulk.py` lines 19-83) |
| SchemaLineagePanel.Panel.constructor | frontend/components/SchemaLineagePanel.js:6-10 | the panel starts with nothing chosen, no schemas, no status and not loading |
| SchemaLineagePanel.Panel.SelectConnection | frontend/components/SchemaLineagePanel.js:14-46 | choosing a connection records it; the tables are requested exactly when the value changed and is not empty |
| SchemaLineagePanel.Panel.SelectSchema | frontend/components/SchemaLineagePanel.js:54 | choosing a schema records it and changes nothing else |
| SchemaLineagePanel.Panel.TablesLoaded | frontend/components/SchemaLineagePanel.js:17-21 | an answer replaces the schema list by its unique schemas and selects the first one when there is one; a failure changes nothing |
| SchemaLineagePanel.Panel.StartAnalyze | frontend/components/SchemaLineagePanel.js:24-32 | a request for the chosen connection and schema is sent exactly when both are chosen and non-empty; it clears the status and starts loading |
| SchemaLineagePanel.Panel.FinishAnalyze | frontend/components/SchemaLineagePanel.js:33-38 | the status line is the text for the answer and loading ends |

## Left out

- **External libraries.** These are parameters, and no property of their own is assumed beyond what a lemma's `requires` states:
  - SHA-256 (`hashlib.sha256`);
  - the language model (`call_llm` and the Azure client);
  - `rapidfuzz.fuzz.ratio`;
  - `urllib.parse.quote_plus`;
  - `sqlparse.split`;
  - `json.loads` of the model's answer;
  - the two INSERT/MERGE target regular expressions of `backend/utils/mapping_extractor.py`;
  - the wall clock (`datetime.utcnow`, `datetime.now`).
- **Database access.** SQLAlchemy's `create_engine`, `inspect`, connections and statement execution are not modelled. An engine is an opaque value built from its URL. What a query returns, and whether a DELETE, `begin()` or INSERT fails, are inputs.
- **Transaction boundaries.** A failing COMMIT is not modelled: a transaction whose statements all succeed commits. Statements are not modelled as running inside the database.
- **INSERT failures.** Whether an INSERT fails depends on the inserted row only (an `InsertCheck`), not on the rows already in the table, so constraint violations against earlier rows are not modelled separately.
- **Bulk lineage engine.** `backend/api/lineage_bulk.py` asks the connection manager for the "lineage" engine once per procedure. The model gives one answer for the whole request (`BulkEnv.lineageEngine`), and the bulk handler does not update the manager's cache.
- **Connect order in the fuzzy suggestion.** `backend/api/stage_to_bronze.py` connects to both engines before running either query. The model folds connecting and querying per engine (`TableNames`), so when the stage query fails and connecting to Bronze also fails, the model reports the stage error where the code reports the Bronze one.
- **Handlers without a connection manager.** `SourceToStage.AddSourceToStageMapping` folds the "lineage" engine request and `begin()` into its INSERT check, and `SourceToStageDiscovery.DiscoverStageMappings` and `LineageBulk.BulkAnalyzeBySchema` fold the engine request and the connection into their catalog query. In each, nothing else can fail between those steps, so the first error is the same; only the connection manager's engine cache is not followed for them.
- **Listing source-to-stage mappings.** `list_source_to_stage_mappings` (`backend/api/source_stage_map.py` lines 9-15) has no `try`. A failing engine request or query therefore reaches the client as an unhandled 500 without `detail`. The model covers the listing of the table's rows (`SourceStageMap.ListingIsOrderedTable`) and not that failure.
- GetAfterAppend: assumes `fetchone()` returns the earliest-inserted matching row. The lookup query of `backend/storage/procedure_cache.py` has no `ORDER BY`, so with several matching rows the database may return any of them.
- EmptySummaryAlwaysMisses: the key stays without a usable summary only while the lookup keeps returning the empty row; after a later non-empty row for the same key, a database may return either row, since the lookup query has no `ORDER BY`.
- SecondCallHits: when the key already had matching rows before the first call, the second call returns the summary of the earliest-inserted one, which relies on the same insertion order.
- StoreMakesUpToDate: relies on the cache query returning rows in insertion order. The query of `backend/api/analyze_status.py` has no `ORDER BY`, so which row is last is up to the database.
- RevertedDefinitionReportedOutdated: relies on the same insertion order of the cache query's rows; a database that returns them in another order can report the reverted procedure differently.
- **Row access.** Reading a field of a result row by attribute or by index is assumed to succeed.
- **Character handling.**
  - Case mapping is ASCII only: `lower()`, `upper()`, `toLowerCase()` and `re.IGNORECASE`.
  - The regular-expression classes `\w` and `\s` are ASCII only.
  - Python and JavaScript map the whole of Unicode.
  - `strip()` and `trim()` (`Common.IsSpace`, `Common.Trim`, `Common.IsBlank`) remove ASCII whitespace only; Python and JavaScript also remove other Unicode white space.
- **String order.** `sorted` and SQL `ORDER BY` are modelled as code-point order. The database collation is not modelled.
- **JSON values.** Only strings, integers, booleans and null are modelled in generic JSON. The fuzzy-match score is a Dafny `real`, so floating-point rounding of `fuzz.ratio` is not modelled.
- **Error messages.** These texts are modelled as abstract strings:
  - the text of Python exceptions raised by libraries (`str(e)`);
  - axios error messages;
  - network failures of `fetch`.
- **Duplicate aliases** in `connections.json`. The lookup takes the first connection with the alias; the file's own shape is not modelled.
- **Set iteration order.** The iteration order of the Python sets in `backend/api/stage_to_bronze_map.py` is an arbitrary choice in the model, and no lemma depends on it.
- **Presentation.** Rendering, JSX, CSS, scrolling and the `useEffect` scheduling of the pages are not modelled. The pages are modelled by their state and by the request and response of each handler.
- **Unmodelled handlers.** `fetchMappings`, `handleAutoMap` and `handleDiscoverMappings` of `frontend/pages/manage-source-to-stage.js` are not modelled. They only copy a response or an axios error message into state, and their endpoints are routed elsewhere or do not exist.
- **Concurrency.**
  - Requests are modelled one at a time, with no interleaving.
  - A response that arrives after a later request is not modelled; the pages' asynchronous handlers are split into a start and a finish step, in order.
  - The connection manager's engine cache has no lock, and concurrent builds for one alias are not modelled.
- **Routing.** Request routing, the `/api` paths of the frontend, CORS and router mounting are not modelled. The behaviour those would give is described above.
- **Model types.** The Pydantic request models are modelled only by the fields the handlers read.

