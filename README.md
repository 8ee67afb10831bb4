# ClickHouse MCP read-only query path, modelled in Dafny

This project models the read-only query path of a ClickHouse MCP server. It
covers four parts of the Python code:

- **Result normalisation** (`clickhouse_mcp/func.py`). Parameter substitution
  into the statement. The HTTP JSON, TSV and plain-text response parsers and
  the native result-set classifier, each of which produces one record
  `{success, data, error, row_count, column_names}` (`QueryResult`). The
  renderer that turns that record into text.
- **The query gateway** (`clickhouse_mcp/main.py`). The read-only validator
  (allowed prefix and single statement), then the primary transport, then the
  other transport, then a combined error. The result goes to the renderer.
- **The connection lifecycle** (`clickhouse_mcp/lifespan_code.py`). The
  start-up probe cascade (HTTP first, native second) over a shared
  `AppContext` object, its teardown, and that file's own HTTP query helper
  and `HTTPConnection.execute`.
- **The office server** (`mcp_server_office.py`). Configuration resolution
  from the environment, the required-variable check, the configuration
  singleton, the client configuration, the `readonly` setting, row building
  in `execute_query`, and the error mapping of `run_select_query`.

Python values are a `Value` datatype. Rows are `Mapping | Positional |
Scalar`. A raised exception is `Outcome.Err(message)`. Every network
transport, driver client, server reply and environment is a parameter:
`HttpServer`, `NativeConnector`, `NativeServer`, `Connector`, `QueryServer`,
and an environment map. State the Python code updates in place is a class:
`Lifespan.AppContext` and `OfficeServer.ConfigSlot`. Loops are methods whose
`ensures` tie them to a specification function. The properties are proved
about those functions.

Modules: `Outcomes` (Option and Outcome), `PyStr` (the Python string
operations used: strip, lower, split, join, slices, `int()`/`str()` of
integers), `PyValues` (values, rows, the result record), `Substitution`,
`Normalizer`, `Formatter`, `Lifespan`, `Gateway`, `OfficeServer`.

## Model

| member | source | states |
|---|---|---|
| Substitution.SubstituteParams | clickhouse_mcp/func.py:14-20 | the loop's statement equals `Substituted`: each parameter in order replaces its `{key}` placeholder when present |
| Substitution.SubstituteParamsLifespan | clickhouse_mcp/lifespan_code.py:78-88 | the lifespan copy of the loop, which branches on the value type, computes the same `Substituted` text |
| Substitution.ReplaceAbsent | clickhouse_mcp/func.py:19-20 | `replace` of a pattern that does not occur returns the text unchanged |
| Substitution.StepIsReplace | clickhouse_mcp/func.py:18-20 | the presence test only saves work: one step equals an unconditional `replace` |
| Substitution.NoPlaceholderUnchanged | clickhouse_mcp/func.py:17-20 | a statement containing none of the parameters' placeholders comes back unchanged |
| Substitution.ReplaceOne | clickhouse_mcp/func.py:20 | a single placeholder between brace-free text is replaced by the replacement and nothing else changes |
| Substitution.SingleParam | clickhouse_mcp/func.py:17-20 | with one parameter, substitution is exactly one `replace` of its placeholder |
| Substitution.OnePlaceholder | clickhouse_mcp/func.py:17-20 | `a{key}b` bound to `v` becomes `a` + the text for `v` + `b` |
| Substitution.StringIsQuoted | clickhouse_mcp/func.py:20 | a string value `x` is substituted as `'x'` |
| Substitution.IntegerIsBare | clickhouse_mcp/func.py:20 | an integer value is substituted as `str(n)`, without quotes |
| Normalizer.ColumnNames | clickhouse_mcp/func.py:102 | the synthetic names are `column_<base+k>` for k below n, exactly n of them |
| Normalizer.ProcessClickhouseResult | clickhouse_mcp/func.py:151-179 | raises iff `data` is present and `meta` or `data` is null, with `'NoneType' object is not iterable` for a null `meta` and `... not subscriptable` for a null `data`; otherwise a success without error: no `data` gives the empty success, else data is `rows[:max_rows]`, row_count is `len(rows)`, and names come from `meta` when present, else the first mapping row's keys, else `[]` |
| Normalizer.ParseTsvLines | clickhouse_mcp/func.py:90-112 | the TSV loop computes `TsvResult`: non-blank rows, columns switched once, data truncated |
| Normalizer.ProcessClickhouseResponse | clickhouse_mcp/func.py:56-149 | the response handler equals its specification: JSON first, JSON decode failures fall through to TSV, then plain text |
| Normalizer.ExecuteHttpQuery | clickhouse_mcp/func.py:8-54 | substitution, then the request, then the normaliser; a failed request gives a failure record with its error |
| Normalizer.ProcessNativeResult | clickhouse_mcp/func.py:181-266 | a falsy result or empty list gives the empty success; a truthy non-list gives `[[str(x)]]` under `result`; show and describe rows get the preset names, scalar show rows are boxed under `value`; select mapping rows get the first row's keys and other rows `column_0..`; data truncated and row_count untruncated |
| Normalizer.ColumnNamesDistinct | clickhouse_mcp/func.py:102 | the synthetic column names are pairwise distinct |
| Normalizer.SyntheticNamesDiverge | clickhouse_mcp/func.py:102 | TSV names (from 1) are the native names (from 0) shifted by one and differ from them for the same width |
| Normalizer.TsvRowRoundTrip | clickhouse_mcp/func.py:97-104 | joining a parsed TSV row's cells with tabs gives back the line |
| Normalizer.TsvRowsOfNonBlank | clickhouse_mcp/func.py:93-104 | the rows are exactly the non-blank lines, each parsed, in order |
| Normalizer.TsvColumnsNoTab | clickhouse_mcp/func.py:91-104 | without a tab line the column names stay `["value"]` |
| Normalizer.TsvColumnsFirstTab | clickhouse_mcp/func.py:101-102 | the names are `column_1..column_n` for the width of the first tab line and later lines never change them |
| Normalizer.ResponseWithinLimit | clickhouse_mcp/func.py:56-149 | for `max_rows >= 1` an HTTP response fails iff it is a JSON document with a null member, and then with that exception's text; every response keeps at most `max_rows` data rows |
| Normalizer.NullDataIsAFailure | clickhouse_mcp/func.py:140-179 | a JSON body `{"data": null}` gives a failure record with `'NoneType' object is not subscriptable` |
| Normalizer.TsvWithinLimit | clickhouse_mcp/func.py:71-112 | the TSV branch is a success and keeps at most `max_rows` rows |
| Normalizer.PlainWithinLimit | clickhouse_mcp/func.py:115-139 | the plain-text branch is a success and keeps at most `max_rows` rows |
| Normalizer.ZeroLimitKeepsNoRow | clickhouse_mcp/func.py:173-179 | `max_rows = 0` keeps no row but still counts them all |
| Normalizer.NegativeLimitDropsLast | clickhouse_mcp/func.py:175 | `max_rows = -1` is a Python slice that drops the last row |
| Normalizer.NativeWithinLimit | clickhouse_mcp/func.py:181-266 | for `max_rows >= 1` a native result keeps at most `max_rows` rows |
| Normalizer.NativeSelectOne | clickhouse_mcp/func.py:256-266 | the tuple row `(1,)` for `select 1` gives one row under `column_0` |
| Normalizer.NativeScalarSelectOne | clickhouse_mcp/func.py:256-266 | the list `[1]` for `select 1` gives one scalar row under `column_0` |
| Normalizer.TsvShortBodies | clickhouse_mcp/func.py:71-87 | a blank TSV body gives the empty success; a single line without a tab gives that line under `result` with row_count 1 |
| Formatter.NamedCells | clickhouse_mcp/func.py:293 | one cell per column name: the key's text when present, `""` when missing |
| Formatter.ShownCells | clickhouse_mcp/func.py:296 | one cell per list element, in order, each its text |
| Formatter.DataLines | clickhouse_mcp/func.py:290-299 | the data lines are one per row in order, and succeed iff every row's line does; with no column names every row of a dict-first table renders as `""` |
| Formatter.FormatQueryResults | clickhouse_mcp/func.py:268-306 | the method's text, or the exception it raises, equals `FormatSpec` |
| Formatter.ErrorIsFirst | clickhouse_mcp/func.py:290-299 | the first row that cannot be rendered decides the exception |
| Formatter.FailureIsReported | clickhouse_mcp/func.py:271-272 | a failure record renders as `Error executing query: <error>` |
| Formatter.EmptyDataReported | clickhouse_mcp/func.py:275-276 | a success without rows renders as `Query executed. Rows returned: <row_count>` |
| Formatter.FormatLayout | clickhouse_mcp/func.py:287-306 | a table starts with the tab-joined column names and a newline and ends with an empty line and `Total rows: <row_count> (showing first <shown>)` |
| Formatter.FormatSplits | clickhouse_mcp/func.py:287-306 | splitting the table on newlines gives back header, data lines, `""` and footer |
| Formatter.TsvRoundTrip | clickhouse_mcp/func.py:90-104 | rendering the rows parsed from TSV gives back exactly the non-blank input lines |
| Formatter.FirstNonMappingRaises | clickhouse_mcp/func.py:290-293 | with a mapping first row and at least one column name, the first non-mapping row raises `AttributeError` about `get` |
| Formatter.NoColumnsNeverRaise | clickhouse_mcp/func.py:287-293 | with a mapping first row and no column names, every row, dict or not, renders as `""` and the table renders |
| Formatter.FirstNonIterableRaises | clickhouse_mcp/func.py:294-296 | with a list first row, the first non-iterable row raises `TypeError` |
| Formatter.JsonTableExample | clickhouse_mcp/func.py:151-179 | a JSON body with meta `a`, `b` and the row `{"a": 1, "b": 2}` renders as `a\tb`, `1\t2`, `""`, `Total rows: 1 (showing first 1)` |
| Lifespan.DbConfigFromEnv | clickhouse_mcp/lifespan_code.py:15-24 | every setting is the environment value or its default; the ports and MAX_ROWS must parse as integers |
| Lifespan.PortSettingRoundTrip | clickhouse_mcp/lifespan_code.py:18 | a port written as decimal text is read back as that port |
| Lifespan.AppContext.constructor | clickhouse_mcp/lifespan_code.py:37-46 | a new context has no connection, no mode and a TTL of 3600 |
| Lifespan.LifespanResponse | clickhouse_mcp/lifespan_code.py:113-156 | fails iff the body is JSON and either does not decode or has a null `data` (`len()` of None), with `Failed to parse JSON response: <error>`; a success has data and row_count equal to its length; a text body is one row of the stripped text |
| Lifespan.LifespanExecuteHttpQuery | clickhouse_mcp/lifespan_code.py:72-156 | the lifespan HTTP helper equals its specification: substitution, the request, then `LifespanResponse` |
| Lifespan.HttpConnectionExecute | clickhouse_mcp/lifespan_code.py:167-181 | raises with the error exactly when the query fails, otherwise returns exactly `data` |
| Lifespan.LifespanJsonKeepsAllRows | clickhouse_mcp/lifespan_code.py:118-128 | a JSON body keeps every row, untruncated, with no column names |
| Lifespan.LifespanJsonWithoutData | clickhouse_mcp/lifespan_code.py:118-128 | a JSON body without `data` defaults to `[]`: a success with no row |
| Lifespan.LifespanTextIsOneRow | clickhouse_mcp/lifespan_code.py:140-147 | any other body is one row of the stripped text under `result`, row_count 1 |
| Lifespan.HttpAttempt | clickhouse_mcp/lifespan_code.py:196-249 | HTTP is chosen iff HTTP is available, the raw probe succeeds and `execute("SELECT 1")` succeeds |
| Lifespan.NativeAttempt | clickhouse_mcp/lifespan_code.py:252-286 | native is chosen iff the client connects and `SELECT 1` succeeds on it |
| Lifespan.AppLifespanStartup | clickhouse_mcp/lifespan_code.py:185-301 | the context is assigned only by the native branch, as written; otherwise it keeps its fields; validity is kept |
| Lifespan.AppLifespanStartupCorrected | clickhouse_mcp/lifespan_code.py:185-301 | the context holds whichever probe succeeded, HTTP first, and is valid |
| Lifespan.HttpSuccessIsDiscarded | clickhouse_mcp/lifespan_code.py:252-301 | as written, a successful HTTP probe assigns nothing, while the corrected start-up stores it |
| Lifespan.StoredConnectionIsNative | clickhouse_mcp/lifespan_code.py:295-299 | as written, any connection stored is a native one |
| Lifespan.CorrectedStartupChoosesWorkingMode | clickhouse_mcp/lifespan_code.py:196-301 | the corrected start-up connects iff a probe succeeded, prefers HTTP, uses native only after HTTP failed, and stores a well-typed connection |
| Lifespan.AppLifespanTeardown | clickhouse_mcp/lifespan_code.py:303-330 | the release follows the connection kind, then both fields are reset to None; with no connection nothing changes |
| Lifespan.HttpConnectionClosesNothing | clickhouse_mcp/lifespan_code.py:309-326 | tearing down an HTTP connection releases nothing |
| Gateway.Validate | clickhouse_mcp/main.py:71-78 | accepted iff the trimmed, lower-cased text has an allowed prefix and `query[:-1]` has no `;`; the prefix check comes first; both rejections echo the query |
| Gateway.HttpOutcome | clickhouse_mcp/main.py:93-104 | the HTTP transport succeeds iff the record's success is true, otherwise it raises with the record's error |
| Gateway.GetConnection | clickhouse_mcp/main.py:59-64 | returns the context's connection |
| Gateway.TryPrimary | clickhouse_mcp/main.py:89-113 | the primary step equals `PrimaryAttempt`: HTTP iff the mode is `http`, native otherwise |
| Gateway.TryAlternate | clickhouse_mcp/main.py:116-156 | the alternate step equals `AlternateAttempt`, including the unavailable-mode error |
| Gateway.ExecuteDbQuery | clickhouse_mcp/main.py:67-174 | the method's text equals `DbQuerySpec` |
| Gateway.ClickhouseExecuteRead | clickhouse_mcp/main.py:42-50 | missing parameters become `{}` before the gateway runs |
| Gateway.RejectedBeforeConnecting | clickhouse_mcp/main.py:71-78 | a rejected query gives the validator's text whatever the connection, mode and transports are |
| Gateway.WriteStatementsRejected | clickhouse_mcp/main.py:72-74 | statements starting with a write keyword are rejected as not read-only |
| Gateway.InnerSemicolonRejected | clickhouse_mcp/main.py:77-78 | a `;` followed by anything is rejected |
| Gateway.TrailingSemicolonTolerated | clickhouse_mcp/main.py:71-78 | appending one final `;` to a statement without `;` does not change acceptance |
| Gateway.NoConnectionMessage | clickhouse_mcp/main.py:81-83 | a valid query with no connection gives `Error: Could not connect to ClickHouse database` |
| Gateway.PrimaryMatchesStoredConnection | clickhouse_mcp/lifespan_code.py:298-299 | in a valid context the primary transport is HTTP iff the stored connection is an HTTP one, and native iff it is a native one |
| Gateway.AlternateIsTheOtherMode | clickhouse_mcp/main.py:91-118 | primary is HTTP iff the mode is `http`; alternate is HTTP iff the mode is `native`; an unset mode uses native twice |
| Gateway.FallbackRule | clickhouse_mcp/main.py:89-171 | primary success is rendered; primary failure then alternate success renders the alternate's result; both failing gives the labelled combined error |
| Gateway.UnavailableAlternate | clickhouse_mcp/main.py:155-156 | an unavailable alternate mode fails with `Alternate connection mode <m> not available` |
| Gateway.HttpPrimaryServes | clickhouse_mcp/main.py:91-104 | in HTTP mode a successful HTTP query is rendered directly |
| Gateway.QueryAfterStartup | clickhouse_mcp/lifespan_code.py:196-301 | after the start-up as written, a successful HTTP probe leaves every valid query answered with the no-connection error |
| Gateway.QueryAfterCorrectedStartup | clickhouse_mcp/lifespan_code.py:196-301 | after the corrected start-up, a valid query answered over HTTP is rendered |
| OfficeServer.Required | mcp_server_office.py:44-68 | a required variable reads its value, or raises `KeyError` naming it |
| OfficeServer.Database | mcp_server_office.py:70-73 | the database is present iff the variable is set |
| OfficeServer.Flag | mcp_server_office.py:75-89 | a flag is true iff its lower-cased value, default `"true"`, equals `"true"` |
| OfficeServer.Port | mcp_server_office.py:49-58 | `int(CLICKHOUSE_PORT)` when set, else 8443 when secure and 8123 otherwise |
| OfficeServer.Missing | mcp_server_office.py:137-140 | the missing names are names the environment lacks, no more of them than were checked |
| OfficeServer.ValidateRequiredVars | mcp_server_office.py:131-143 | raises iff HOST, USER or PASSWORD is missing, with the missing names in that order |
| OfficeServer.MissingInOrder | mcp_server_office.py:137-140 | the missing list is exactly HOST, USER, PASSWORD filtered by absence, in order |
| OfficeServer.OnlyPasswordMissing | mcp_server_office.py:142-143 | only the password missing gives a message naming only it |
| OfficeServer.AllMissing | mcp_server_office.py:142-143 | all three missing gives the comma-separated list of all three |
| OfficeServer.NewConfig | mcp_server_office.py:40-42 | constructing the configuration succeeds iff the three required variables are set, else raises the validation message |
| OfficeServer.EntriesKeys | mcp_server_office.py:113-129 | the client dict has the nine fixed keys, plus `database` only when one is set |
| OfficeServer.ClientConfig | mcp_server_office.py:107-129 | every field is the property's value, including both timeouts (defaults 30 and 300), `client_name` is `mcp_clickhouse`, `database` is present iff set and non-empty; a missing host raises first |
| OfficeServer.ValidatedConfigBuilds | mcp_server_office.py:107-143 | after validation, the client configuration fails only on an unparsable integer |
| OfficeServer.DefaultClientConfig | mcp_server_office.py:49-129 | with no optional variables: port 8443, secure and verify true, timeouts 30 and 300, no database |
| OfficeServer.PlainPortAndFlagSpelling | mcp_server_office.py:56-81 | `false` gives port 8123, `TRUE` gives 8443, and `1` or `yes` are not secure |
| OfficeServer.ExplicitPortWins | mcp_server_office.py:56-57 | an explicit port written as decimal text is used as it is |
| OfficeServer.ConfigSlot.constructor | mcp_server_office.py:147 | the singleton starts empty |
| OfficeServer.ConfigSlot.GetConfig | mcp_server_office.py:150-159 | the first successful call builds and keeps the configuration; later calls return the kept one unchanged |
| OfficeServer.StaleConfig | mcp_server_office.py:107-159 | once the singleton exists, a later missing host surfaces as `KeyError` from the client config, not as the validation error |
| OfficeServer.ReadonlySettingAsWritten | mcp_server_office.py:383-392 | as written: `"1"` when absent, otherwise the server's value, `"0"` included |
| OfficeServer.ReadonlyZeroPassesThrough | mcp_server_office.py:385-388 | as written, a server `readonly` of `"0"` is passed on as `"0"` |
| OfficeServer.ReadonlySetting | mcp_server_office.py:365-392 | corrected: never `"0"`; `"1"` when absent or zero, otherwise the server's value |
| OfficeServer.ReadonlyReadingsAgreeElsewhere | mcp_server_office.py:383-392 | the two readings differ exactly when the server value is `"0"` |
| OfficeServer.RowDictStep | mcp_server_office.py:292-293 | one inner-loop step is one dict assignment |
| OfficeServer.BuildRowDict | mcp_server_office.py:291-293 | the inner loop builds `RowDict` when the row is wide enough, else raises `IndexError` |
| OfficeServer.BuildRows | mcp_server_office.py:290-295 | the nested loops build one row dict per result row, or raise on the first short row |
| OfficeServer.Zip | mcp_server_office.py:292-293 | the zipped pairs have exactly the column names as keys, each paired with its cell |
| OfficeServer.AssignNew | mcp_server_office.py:293 | assigning a new key appends it at the end |
| OfficeServer.RowDictZips | mcp_server_office.py:291-293 | with distinct names, the row dict maps `column_names[i]` to `row[i]` in order |
| OfficeServer.RowsZip | mcp_server_office.py:290-295 | as many output rows as result rows, each keyed by the column names with its own cells |
| OfficeServer.RepeatedColumnLastWins | mcp_server_office.py:292-293 | a repeated column name keeps the later cell only |
| OfficeServer.QueryOnClient | mcp_server_office.py:286-302 | the query runs with the given `readonly` value; a failing query gives `{"error": str(err)}`; rows are the built dicts of the result set, and come back iff every row is wide enough |
| OfficeServer.QueryRows | mcp_server_office.py:287-302 | the query and its row-building loops equal `QueryOnClient` |
| OfficeServer.CreateClickhouseClient | mcp_server_office.py:344-362 | the client is built from the singleton's client configuration; a failed validation raises its message |
| OfficeServer.ExecuteQuery | mcp_server_office.py:283-302 | as written: runs with `ReadonlySettingAsWritten` of the server settings; client creation errors escape; the singleton is set iff it was set or validation succeeds |
| OfficeServer.ExecuteQueryCorrected | mcp_server_office.py:283-302 | the same query path with the corrected `ReadonlySetting` |
| OfficeServer.ZeroServerQueries | mcp_server_office.py:287-288 | with a server `readonly` of `"0"`, the query as written runs with `"0"` and the corrected one with `"1"` |
| OfficeServer.Reply | mcp_server_office.py:313-341 | a timeout, an escaped error and an error dict become status-error replies with their messages; rows pass through |
| OfficeServer.RunSelectQuery | mcp_server_office.py:305-341 | the tool's reply equals `Reply` of the as-written query outcome, or the timeout reply |
| OfficeServer.ReplyNeverLeaksErrorDict | mcp_server_office.py:318-325 | a row list is returned iff the query produced rows |

## Left out

- Network I/O, the HTTP library and both ClickHouse drivers are parameters.
  The model does not capture request timeouts, `raise_for_status` details or
  connection pooling.
- Concurrency: the thread pool, `future.result(timeout=30)`, `future.cancel()`
  and the `atexit` hook are replaced by a boolean `inTime` input of
  `RunSelectQuery`. The async context-manager plumbing is not modelled.
- `list_databases`, `list_tables`, `result_to_table`, `result_to_column` and
  `to_json` (mcp_server_office.py:163-280) are not modelled. They are thin
  driver pass-throughs and reflection-based serialisation.
- `load_resource_description`, tool registration, logging, `load_dotenv` and
  the text of `traceback.format_exc()` are not modelled. The traceback text is
  a parameter of `Gateway.ExecuteDbQuery`.
- Gateway.ClickhouseExecuteRead: the `KeyError` and generic-exception handlers
  (clickhouse_mcp/main.py:52-55) are not modelled. `execute_db_query` catches
  every exception itself, so nothing reaches them.
- Gateway.ExecuteDbQuery: the `"Query executed but no results were
  returned."` branch (clickhouse_mcp/main.py:170-171) is not modelled. A
  result record is always a non-empty dict at that point.
- Formatter.FormatQueryResults: the `"Query executed. No data returned."`
  branch (clickhouse_mcp/func.py:277-278) is unreachable after the previous
  test and is not modelled.
- `AppContext.last_used` and the connection TTL are stored but never used by
  the core, so no property is stated about them.
- Python `str()` of objects other than `None`, booleans, integers, strings,
  lists, tuples and dicts (floats, dates, decimals) is not computed: such a
  value (`VOther`) carries its own `str()` and `repr()` text. Containers are
  shown through `repr` of their items, without Python's string escaping.
- `lower()` and `strip()` cover ASCII letters and ASCII whitespace only.
  `int()` accepts an optional sign and decimal digits with surrounding
  whitespace. Underscores and non-ASCII digits are not modelled.
- The JSON decoder is a parameter: a response carries its decoded document or
  the decode error. A decoded document that is not a dict is not modelled. A
  document's `data` and `meta` are each missing, null or a list.
- ProcessClickhouseResult: a `data` that is a string, number or dict, a `meta`
  that is not a list, and `meta` entries that are not dicts or lack `name`
  (which give `None` column names) are not modelled. A JSON document's `data`
  is a list of rows or null, and `meta` a list of names or null.
- ResponseWithinLimit: inherits the shapes left out of
  ProcessClickhouseResult; it states nothing about a `data` or `meta` that is
  neither a list nor null.
- LifespanResponse: a `data` that is a string or dict (whose `len()`
  succeeds) is not modelled; only list, missing and null `data` are.
- Parameter-processing failures in `execute_http_query`
  (clickhouse_mcp/func.py:21-29) cannot occur in the model, because
  rendering a `Value` never raises.
- The server-settings object of the driver is a record with a `value` field.
  The driver's own setting types are not modelled.
- The code disagrees with the written description of the server in three
  places, and the model follows the code:
  - a native `SELECT 1` is named `column_0`, not `result`;
  - TSV synthetic names start at `column_1`, while native ones start at
    `column_0`;
  - the lifespan JSON parser never truncates and names no columns.

## Findings

| source | as written | input that shows it | evidently intended | confidence | as-written member | corrected member |
|---|---|---|---|---|---|---|
| clickhouse_mcp/lifespan_code.py:252-301 | the context assignment sits inside the native-probe branch, so a successful HTTP probe takes the `else` and stores nothing | HTTP available, both HTTP probes succeed: `app_context.connection` stays None, and every valid query then answers `Error: Could not connect to ClickHouse database` | store the HTTP connection and mode `http` when the HTTP probe succeeds | not executed | Lifespan.HttpSuccessIsDiscarded | Lifespan.AppLifespanStartupCorrected |
| mcp_server_office.py:385-388 | the setting object itself is compared with `"0"`, which is never equal, so the object's value is returned | server setting `readonly` with value `"0"`: the query runs with `readonly="0"`, without read-only protection | compare the setting's value with `"0"` and force `"1"` | not executed | OfficeServer.ReadonlyZeroPassesThrough | OfficeServer.ExecuteQueryCorrected |
