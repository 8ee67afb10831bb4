/** The query gateway of clickhouse_mcp/main.py: the read-only validator,
    the choice of the primary and the alternate transport, the one-shot
    fallback between them, and the hand-over to the formatter. */
module Gateway {
  import opened Outcomes
  import opened PyStr
  import opened PyValues
  import opened Normalizer
  import opened Formatter
  import opened Lifespan

  // ---- validation ----------------------------------------------------------

  /** `query_lower.startswith(("select", "show", "describe", "desc", "explain"))`. */
  predicate ReadPrefixed(queryLower: string) {
    || StartsWith(queryLower, "select")
    || StartsWith(queryLower, "show")
    || StartsWith(queryLower, "describe")
    || StartsWith(queryLower, "desc")
    || StartsWith(queryLower, "explain")
  }

  function ReadOnlyRejection(query: string): string {
    "Error: Only read operations (SELECT, SHOW, DESCRIBE, EXPLAIN) are allowed. Rejected query: " + query
  }

  function MultiStatementRejection(query: string): string {
    "Error: Multiple statements are not allowed. Rejected query: " + query
  }

  /** The two checks at the top of `execute_db_query`: the text returned for
      a rejected statement, `None` for an accepted one. */
  function Validate(query: string): (r: Option<string>)
    // accepted exactly when the trimmed, lower-cased text has a read prefix
    // and no `;` occurs before the last character of the untrimmed text
    ensures r.None? <==>
      ReadPrefixed(Lower(Strip(query))) && forall k :: 0 <= k < |query| - 1 ==> query[k] != ';'
    // the prefix check comes first and echoes the original text
    ensures !ReadPrefixed(Lower(Strip(query))) ==> r == Some(ReadOnlyRejection(query))
    ensures ReadPrefixed(Lower(Strip(query))) && r.Some? ==> r == Some(MultiStatementRejection(query))
  {
    if !ReadPrefixed(Lower(Strip(query))) then Some(ReadOnlyRejection(query))
    else if ';' in Prefix(query, -1) then Some(MultiStatementRejection(query))
    else None
  }

  // ---- transports ----------------------------------------------------------

  /** What the gateway reaches beyond the context: `DB_CONFIG`, which driver
      libraries imported, the HTTP server, the native client factory and the
      native server. */
  datatype Backend = Backend(
    config: DbConfig,
    httpAvailable: bool,
    nativeAvailable: bool,
    server: HttpServer,
    connector: NativeConnector,
    nativeServer: NativeServer)

  /** `str(app_context.connection_mode)`. */
  function ModeText(mode: Option<Mode>): string {
    match mode
    case Some(m) => ModeName(m)
    case None => "None"
  }

  /** The primary transport: HTTP exactly when the mode is `"http"`. */
  function PrimaryMode(mode: Option<Mode>): Mode {
    if mode == Some(Http) then Http else Native
  }

  /** The alternate transport: HTTP exactly when the mode is `"native"`. */
  function AlternateMode(mode: Option<Mode>): Mode {
    if mode == Some(Native) then Http else Native
  }

  /** A query through func.py's `execute_http_query` at `DB_CONFIG`'s HTTP
      port; a failure record is raised with its `error` as the message. */
  function HttpOutcome(b: Backend, database: string, query: string,
                       params: seq<(string, Value)>, maxRows: int): (r: Outcome<QueryResult>)
    ensures var result := ExecuteHttpQuerySpec(b.config.host, b.config.httpPort, database, query,
                                               b.config.username, b.config.password, params, maxRows, b.server);
      && (r.Ok? <==> result.success)
      && (r.Ok? ==> r.value == result)
      && (r.Err? ==> r.msg == ShowOpt(result.error))
  {
    var result := ExecuteHttpQuerySpec(b.config.host, b.config.httpPort, database, query,
                                       b.config.username, b.config.password, params, maxRows, b.server);
    if result.success then Ok(result) else Err(ShowOpt(result.error))
  }

  /** `conn.connection.execute(query, params)` followed by `process_native_result`;
      the wrapped object is a native client or an `HTTPConnection`. */
  function HandleOutcome(conn: DatabaseConnection, b: Backend, query: string,
                         params: seq<(string, Value)>, maxRows: int): Outcome<QueryResult>
  {
    var resultSet :=
      match conn.connection
      case ViaNative(client) => b.nativeServer(client, query, params)
      case ViaHttp(h) =>
        match HttpConnectionExecute(h, query, params, b.server)
        case Ok(rows) => Ok(RowSet(rows))
        case Err(e) => Err(e);
    match resultSet
    case Ok(rs) => Ok(ProcessNativeResult(rs, Lower(Strip(query)), maxRows))
    case Err(e) => Err(e)
  }

  /** The first attempt, over the connection made at start-up. */
  function PrimaryAttempt(conn: DatabaseConnection, mode: Option<Mode>, b: Backend, query: string,
                          params: seq<(string, Value)>, maxRows: int): Outcome<QueryResult>
  {
    if PrimaryMode(mode) == Http then HttpOutcome(b, conn.database, query, params, maxRows)
    else HandleOutcome(conn, b, query, params, maxRows)
  }

  /** The second attempt, over the other transport: HTTP if its library is
      there, or a temporary read-only native client whose failures are
      labelled; an unavailable transport is a failure of its own. */
  function AlternateAttempt(conn: DatabaseConnection, mode: Option<Mode>, b: Backend, query: string,
                            params: seq<(string, Value)>, maxRows: int): Outcome<QueryResult>
  {
    var alternate := AlternateMode(mode);
    if alternate == Http && b.httpAvailable then HttpOutcome(b, conn.database, query, params, maxRows)
    else if alternate == Native && b.nativeAvailable then
      match b.connector(NativeSettingsOf(b.config))
      case Err(e) => Err("Native connection failed: " + e)
      case Ok(client) =>
        match b.nativeServer(client, query, params)
        case Err(e) => Err("Native connection failed: " + e)
        case Ok(rs) => Ok(ProcessNativeResult(rs, Lower(Strip(query)), maxRows))
    else Err("Alternate connection mode " + ModeName(alternate) + " not available")
  }

  const NoConnection: string := "Error: Could not connect to ClickHouse database"

  /** The labelled message when both transports failed. */
  function BothFailed(mode: Option<Mode>, primaryError: string, alternateError: string): string {
    "Database error: Primary connection (" + ModeText(mode) + ") error: " + primaryError
    + "\nAlternate connection error: " + alternateError
  }

  /** The formatted result, or the outer handler's text when the formatter raises. */
  function Answer(result: QueryResult, traceback: string): string {
    match FormatSpec(result)
    case Ok(text) => text
    case Err(e) => "Database error: " + e + "\n" + traceback
  }

  /** The text `execute_db_query` returns, given the context's connection and
      mode; `traceback` stands for `traceback.format_exc()`. */
  function DbQuerySpec(query: string, params: seq<(string, Value)>, maxRows: int,
                       connection: Option<DatabaseConnection>, mode: Option<Mode>,
                       b: Backend, traceback: string): string
  {
    match Validate(query)
    case Some(rejection) => rejection
    case None =>
      match connection
      case None => NoConnection
      case Some(conn) =>
        match PrimaryAttempt(conn, mode, b, query, params, maxRows)
        case Ok(result) => Answer(result, traceback)
        case Err(e1) =>
          match AlternateAttempt(conn, mode, b, query, params, maxRows)
          case Ok(result) => Answer(result, traceback)
          case Err(e2) => BothFailed(mode, e1, e2)
  }

  // ---- the gateway -----------------------------------------------------------

  /** `get_connection`: the connection start-up stored, if any. */
  method GetConnection(ctx: AppContext) returns (conn: Option<DatabaseConnection>)
    ensures conn == ctx.connection
  {
    if ctx.connection.None? {
      return None;
    }
    return ctx.connection;
  }

  /** The first `try` block of `execute_db_query`. */
  method TryPrimary(conn: DatabaseConnection, mode: Option<Mode>, b: Backend, query: string,
                    params: seq<(string, Value)>, maxRows: int) returns (r: Outcome<QueryResult>)
    ensures r == PrimaryAttempt(conn, mode, b, query, params, maxRows)
  {
    if mode == Some(Http) {
      var result := ExecuteHttpQuery(b.config.host, b.config.httpPort, conn.database, query,
                                     b.config.username, b.config.password, params, maxRows, b.server);
      if !result.success {
        return Err(ShowOpt(result.error));
      }
      return Ok(result);
    }
    var resultSet: Outcome<NativeResult>;
    match conn.connection {
      case ViaNative(client) =>
        resultSet := b.nativeServer(client, query, params);
      case ViaHttp(h) =>
        var rows := HttpConnectionExecute(h, query, params, b.server);
        resultSet := if rows.Ok? then Ok(RowSet(rows.value)) else Err(rows.msg);
    }
    if resultSet.Err? {
      return Err(resultSet.msg);
    }
    return Ok(ProcessNativeResult(resultSet.value, Lower(Strip(query)), maxRows));
  }

  /** The second `try` block of `execute_db_query`. */
  method TryAlternate(conn: DatabaseConnection, mode: Option<Mode>, b: Backend, query: string,
                      params: seq<(string, Value)>, maxRows: int) returns (r: Outcome<QueryResult>)
    ensures r == AlternateAttempt(conn, mode, b, query, params, maxRows)
  {
    var alternate := if mode == Some(Native) then Http else Native;
    if alternate == Http && b.httpAvailable {
      var result := ExecuteHttpQuery(b.config.host, b.config.httpPort, conn.database, query,
                                     b.config.username, b.config.password, params, maxRows, b.server);
      if !result.success {
        return Err(ShowOpt(result.error));
      }
      return Ok(result);
    } else if alternate == Native && b.nativeAvailable {
      var client := b.connector(NativeSettingsOf(b.config));
      if client.Err? {
        return Err("Native connection failed: " + client.msg);
      }
      var resultSet := b.nativeServer(client.value, query, params);
      if resultSet.Err? {
        return Err("Native connection failed: " + resultSet.msg);
      }
      return Ok(ProcessNativeResult(resultSet.value, Lower(Strip(query)), maxRows));
    }
    return Err("Alternate connection mode " + ModeName(alternate) + " not available");
  }

  /** `execute_db_query`. */
  method ExecuteDbQuery(ctx: AppContext, query: string, params: seq<(string, Value)>, maxRows: int,
                        b: Backend, traceback: string) returns (out: string)
    ensures out == DbQuerySpec(query, params, maxRows, ctx.connection, ctx.connectionMode, b, traceback)
  {
    var rejection := Validate(query);
    if rejection.Some? {
      return rejection.value;
    }
    var conn := GetConnection(ctx);
    if conn.None? {
      return NoConnection;
    }
    var mode := ctx.connectionMode;
    var result: Option<QueryResult> := None;
    var connectionError := "";
    // 1. the mode chosen at start-up
    var primary := TryPrimary(conn.value, mode, b, query, params, maxRows);
    match primary {
      case Ok(r) => result := Some(r);
      case Err(e) => connectionError := e;
    }
    // 2. the other mode, once
    if result.None? {
      var alternate := TryAlternate(conn.value, mode, b, query, params, maxRows);
      match alternate {
        case Ok(r) => result := Some(r);
        case Err(e) =>
          return "Database error: Primary connection (" + ModeText(mode) + ") error: "
                 + connectionError + "\nAlternate connection error: " + e;
      }
    }
    // 3. format
    var text := FormatQueryResults(result.value);
    match text {
      case Ok(t) => out := t;
      case Err(e) => out := "Database error: " + e + "\n" + traceback;
    }
  }

  /** The `clickhouse_execute_read` tool: absent parameters are an empty mapping. */
  method ClickhouseExecuteRead(ctx: AppContext, sqlQuery: string, maxRows: int,
                               params: Option<seq<(string, Value)>>, b: Backend,
                               traceback: string) returns (out: string)
    ensures out == DbQuerySpec(sqlQuery, params.GetOr([]), maxRows, ctx.connection, ctx.connectionMode, b, traceback)
  {
    out := ExecuteDbQuery(ctx, sqlQuery, params.GetOr([]), maxRows, b, traceback);
  }

  // ---- properties ----------------------------------------------------------

  /** A rejected statement gets its rejection text whatever the connection,
      the mode and the transports are: nothing is reached before validation. */
  lemma RejectedBeforeConnecting(query: string, params: seq<(string, Value)>, maxRows: int,
                                 c1: Option<DatabaseConnection>, m1: Option<Mode>, b1: Backend, t1: string,
                                 c2: Option<DatabaseConnection>, m2: Option<Mode>, b2: Backend, t2: string)
    requires Validate(query).Some?
    ensures DbQuerySpec(query, params, maxRows, c1, m1, b1, t1) == Validate(query).value
    ensures DbQuerySpec(query, params, maxRows, c1, m1, b1, t1) == DbQuerySpec(query, params, maxRows, c2, m2, b2, t2)
  {
  }

  const WriteKeywords: seq<string> :=
    ["insert", "update", "delete", "drop", "alter", "create", "truncate",
     "rename", "attach", "detach", "grant", "optimize", "kill"]

  /** The first three letters of `w` begin no read prefix. */
  predicate NoReadLetters(w: string) {
    && |w| >= 3
    && (w[0] != 's' || (w[1] != 'e' && w[1] != 'h'))
    && (w[0] != 'd' || w[1] != 'e' || w[2] != 's')
    && (w[0] != 'e' || w[1] != 'x')
  }

  lemma WriteKeywordsLetters(kw: string)
    requires kw in WriteKeywords
    ensures NoReadLetters(kw)
  {
  }

  /** A text that starts with such a word is not read-prefixed. */
  lemma NotReadPrefixed(ql: string, w: string)
    requires NoReadLetters(w) && StartsWith(ql, w)
    ensures !ReadPrefixed(ql)
  {
    assert ql[0] == w[0] && ql[1] == w[1] && ql[2] == w[2];
  }

  /** The validator fails closed for writes: a statement that starts with a
      writing keyword, in any case and after any blanks, is rejected as not read-only. */
  lemma WriteStatementsRejected(query: string, kw: string)
    requires kw in WriteKeywords && StartsWith(Lower(Strip(query)), kw)
    ensures Validate(query) == Some(ReadOnlyRejection(query))
  {
    WriteKeywordsLetters(kw);
    NotReadPrefixed(Lower(Strip(query)), kw);
  }

  /** A `;` followed by anything is a second statement and rejected. */
  lemma InnerSemicolonRejected(a: string, b: string)
    requires |b| > 0
    ensures Validate(a + ";" + b).Some?
  {
    assert (a + ";" + b)[|a|] == ';';
  }

  predicate LowerWord(p: string) {
    |p| > 0 && forall i :: 0 <= i < |p| ==> 'a' <= p[i] <= 'z'
  }

  /** `lower()` agrees on texts that agree on their first `n` characters. */
  lemma LowerPrefix(x: string, y: string, n: nat)
    requires n <= |x| && n <= |y| && x[..n] == y[..n]
    ensures Lower(x)[..n] == Lower(y)[..n]
  {
    assert forall i :: 0 <= i < n ==> x[i] == x[..n][i] == y[..n][i] == y[i];
  }

  /** `(q + ";").strip()` is `q.lstrip() + ";"`, which extends `q.strip()`. */
  lemma StripBeforeSemicolon(q: string)
    ensures Strip(q + ";") == StripLeft(q) + ";"
    ensures Strip(q) == StripLeft(q)[..|Strip(q)|]
  {
    StripSnoc(q, ';');
  }

  /** A prefix of a text read-starts with whatever the text does not exceed. */
  lemma StartsWithOfLowerPrefix(r: string, u: string, p: string)
    requires |r| <= |u| && r == u[..|r|]
    requires |p| <= |r|
    ensures StartsWith(Lower(u), p) <==> StartsWith(Lower(r), p)
  {
    assert u[..|p|] == r[..|p|];
    LowerPrefix(u, r, |p|);
  }

  /** A lower-case word at the start of `lower(l + ";")` lies within `l`
      and ends on a non-blank character of `l`. */
  lemma WordWithinText(l: string, p: string)
    requires LowerWord(p) && StartsWith(Lower(l + ";"), p)
    ensures |p| <= |l| && !IsSpace(l[|p| - 1])
  {
    var lu := Lower(l + ";");
    assert forall i :: 0 <= i < |p| ==> p[i] == lu[i] == LowerChar((l + ";")[i]);
    assert (l + ";")[|l|] == ';';
    assert |p| <= |l|;
    var c := l[|p| - 1];
    assert LowerChar(c) == p[|p| - 1];
    assert 'a' <= LowerChar(c) <= 'z';
  }

  /** `rstrip` keeps every character up to the last non-blank one. */
  lemma StripRightKeeps(l: string, n: nat)
    requires 0 < n <= |l| && !IsSpace(l[n - 1])
    ensures |StripRight(l)| >= n
  {
  }

  /** A word starts `lower(l + ";")` exactly when it starts `lower(l.rstrip())`. */
  lemma WordBeforeSemicolonLeft(l: string, p: string)
    requires LowerWord(p)
    ensures StartsWith(Lower(l + ";"), p) <==> StartsWith(Lower(StripRight(l)), p)
  {
    var r := StripRight(l);
    var u := l + ";";
    assert r == u[..|r|];
    if StartsWith(Lower(u), p) {
      WordWithinText(l, p);
      StripRightKeeps(l, |p|);
      StartsWithOfLowerPrefix(r, u, p);
    }
    if StartsWith(Lower(r), p) {
      StartsWithOfLowerPrefix(r, u, p);
    }
  }

  /** Whether the trimmed, lower-cased text starts with a word does not
      depend on a `;` appended to the untrimmed text. */
  lemma WordBeforeSemicolon(q: string, p: string)
    requires LowerWord(p)
    ensures StartsWith(Lower(Strip(q + ";")), p) <==> StartsWith(Lower(Strip(q)), p)
  {
    StripBeforeSemicolon(q);
    WordBeforeSemicolonLeft(StripLeft(q), p);
  }

  /** The read-prefix check gives the same verdict with a `;` appended. */
  lemma ReadPrefixedBeforeSemicolon(q: string)
    ensures ReadPrefixed(Lower(Strip(q + ";"))) <==> ReadPrefixed(Lower(Strip(q)))
  {
    var a, b := Lower(Strip(q + ";")), Lower(Strip(q));
    ReadWordsAreLower();
    assert StartsWith(a, "select") <==> StartsWith(b, "select") by { WordBeforeSemicolon(q, "select"); }
    assert StartsWith(a, "show") <==> StartsWith(b, "show") by { WordBeforeSemicolon(q, "show"); }
    assert StartsWith(a, "describe") <==> StartsWith(b, "describe") by { WordBeforeSemicolon(q, "describe"); }
    assert StartsWith(a, "desc") <==> StartsWith(b, "desc") by { WordBeforeSemicolon(q, "desc"); }
    assert StartsWith(a, "explain") <==> StartsWith(b, "explain") by { WordBeforeSemicolon(q, "explain"); }
  }

  lemma ReadWordsAreLower()
    ensures LowerWord("select") && LowerWord("show") && LowerWord("describe")
    ensures LowerWord("desc") && LowerWord("explain")
  {
  }

  /** A text free of `;` and the same text with one `;` appended get the same
      verdict: only the very last character may be a `;`. */
  lemma TrailingSemicolonTolerated(q: string)
    requires ';' !in q
    ensures Validate(q + ";").None? <==> Validate(q).None?
  {
    ReadPrefixedBeforeSemicolon(q);
    assert forall k :: 0 <= k < |q| ==> (q + ";")[k] == q[k];
  }

  /** Without a connection, an accepted statement gets the connection error. */
  lemma NoConnectionMessage(query: string, params: seq<(string, Value)>, maxRows: int,
                            mode: Option<Mode>, b: Backend, traceback: string)
    requires Validate(query).None?
    ensures DbQuerySpec(query, params, maxRows, None, mode, b, traceback) == NoConnection
  {
  }

  /** In a context kept valid by start-up and teardown, the primary attempt
      uses the stored connection's own transport: HTTP exactly for an HTTP
      connection, the native client exactly for a native one. */
  lemma PrimaryMatchesStoredConnection(ctx: AppContext)
    requires ctx.Valid() && ctx.connection.Some?
    ensures PrimaryMode(ctx.connectionMode) == Http <==> ctx.connection.value.connection.ViaHttp?
    ensures PrimaryMode(ctx.connectionMode) == Native <==> ctx.connection.value.connection.ViaNative?
  {
  }

  /** The alternate is the other transport whenever a mode is recorded; with
      no mode both attempts go native. */
  lemma AlternateIsTheOtherMode(mode: Option<Mode>)
    ensures mode.Some? ==> AlternateMode(mode) != PrimaryMode(mode)
    ensures PrimaryMode(mode) == Http <==> mode == Some(Http)
    ensures AlternateMode(mode) == Http <==> mode == Some(Native)
    ensures mode.None? ==> PrimaryMode(mode) == Native && AlternateMode(mode) == Native
  {
    match mode
    case Some(Http) =>
    case Some(Native) =>
    case None =>
  }

  /** The one-shot fallback: a working primary is used as is; otherwise the
      alternate's result is formatted; if both fail, both messages are
      reported under their labels. */
  lemma FallbackRule(query: string, params: seq<(string, Value)>, maxRows: int,
                     conn: DatabaseConnection, mode: Option<Mode>, b: Backend, traceback: string)
    requires Validate(query).None?
    ensures var out := DbQuerySpec(query, params, maxRows, Some(conn), mode, b, traceback);
      var primary := PrimaryAttempt(conn, mode, b, query, params, maxRows);
      var alternate := AlternateAttempt(conn, mode, b, query, params, maxRows);
      && (primary.Ok? ==> out == Answer(primary.value, traceback))
      && (primary.Err? && alternate.Ok? ==> out == Answer(alternate.value, traceback))
      && (primary.Err? && alternate.Err? ==> out == BothFailed(mode, primary.msg, alternate.msg))
  {
  }

  /** An alternate transport whose library is missing fails with its own message. */
  lemma UnavailableAlternate(conn: DatabaseConnection, mode: Option<Mode>, b: Backend, query: string,
                             params: seq<(string, Value)>, maxRows: int)
    requires AlternateMode(mode) == Http ==> !b.httpAvailable
    requires AlternateMode(mode) == Native ==> !b.nativeAvailable
    ensures AlternateAttempt(conn, mode, b, query, params, maxRows)
            == Err("Alternate connection mode " + ModeName(AlternateMode(mode)) + " not available")
  {
  }

  /** A success of the HTTP primary is formatted without trying anything else. */
  lemma HttpPrimaryServes(query: string, params: seq<(string, Value)>, maxRows: int,
                          conn: DatabaseConnection, b: Backend, traceback: string)
    requires Validate(query).None?
    requires HttpOutcome(b, conn.database, query, params, maxRows).Ok?
    ensures DbQuerySpec(query, params, maxRows, Some(conn), Some(Http), b, traceback)
            == Answer(HttpOutcome(b, conn.database, query, params, maxRows).value, traceback)
  {
  }

  // ---- start-up followed by a query ----------------------------------------

  /** A fresh context, start-up as written, then one query: once the HTTP
      attempt works, every accepted statement gets the connection error. */
  method QueryAfterStartup(config: DbConfig, httpAvailable: bool, nativeAvailable: bool,
                           server: HttpServer, connector: NativeConnector, nativeServer: NativeServer,
                           query: string, params: seq<(string, Value)>, maxRows: int,
                           traceback: string) returns (out: string)
    ensures HttpAttempt(config, httpAvailable, server).Some? && Validate(query).None? ==> out == NoConnection
    ensures HttpAttempt(config, httpAvailable, server).None? ==>
      var c := if nativeAvailable then NativeAttempt(config, connector, nativeServer) else None;
      out == DbQuerySpec(query, params, maxRows, c, ModeOf(c),
                         Backend(config, httpAvailable, nativeAvailable, server, connector, nativeServer), traceback)
  {
    var ctx := new AppContext();
    AppLifespanStartup(ctx, config, httpAvailable, nativeAvailable, server, connector, nativeServer);
    out := ExecuteDbQuery(ctx, query, params, maxRows,
                          Backend(config, httpAvailable, nativeAvailable, server, connector, nativeServer), traceback);
  }

  /** The same with the corrected start-up: a working HTTP attempt serves
      the query over HTTP. */
  method QueryAfterCorrectedStartup(config: DbConfig, httpAvailable: bool, nativeAvailable: bool,
                                    server: HttpServer, connector: NativeConnector, nativeServer: NativeServer,
                                    query: string, params: seq<(string, Value)>, maxRows: int,
                                    traceback: string) returns (out: string)
    ensures var b := Backend(config, httpAvailable, nativeAvailable, server, connector, nativeServer);
      HttpAttempt(config, httpAvailable, server).Some? && Validate(query).None? &&
      HttpOutcome(b, config.database, query, params, maxRows).Ok? ==>
        out == Answer(HttpOutcome(b, config.database, query, params, maxRows).value, traceback)
    ensures var c := StartupAssignmentCorrected(config, httpAvailable, nativeAvailable, server, connector, nativeServer);
      out == DbQuerySpec(query, params, maxRows, c, ModeOf(c),
                         Backend(config, httpAvailable, nativeAvailable, server, connector, nativeServer), traceback)
  {
    var ctx := new AppContext();
    AppLifespanStartupCorrected(ctx, config, httpAvailable, nativeAvailable, server, connector, nativeServer);
    out := ExecuteDbQuery(ctx, query, params, maxRows,
                          Backend(config, httpAvailable, nativeAvailable, server, connector, nativeServer), traceback);
  }
}
