/** The connection lifecycle of clickhouse_mcp/lifespan_code.py: the
    configuration read at import, the module's own HTTP query helper and
    `HTTPConnection`, the start-up probes that choose a connection mode, and
    the shutdown clean-up, all acting on the shared application context. */
module Lifespan {
  import opened Outcomes
  import opened PyStr
  import opened PyValues
  import opened Substitution
  import opened Normalizer

  // ---- configuration -----------------------------------------------------

  /** `DB_CONFIG`. */
  datatype DbConfig = DbConfig(
    enabled: string,
    host: string,
    port: int,
    httpPort: int,
    database: string,
    username: string,
    password: string,
    maxRows: int)

  /** `DB_CONFIG` as built from the environment at import; an integer
      setting that `int()` rejects makes the import raise. */
  function DbConfigFromEnv(env: map<string, string>): (r: Outcome<DbConfig>)
    ensures r.Ok? <==>
      && ParseInt(EnvOr(env, "CLICKHOUSE_PORT", "9000")).Ok?
      && ParseInt(EnvOr(env, "CLICKHOUSE_HTTP_PORT", "8123")).Ok?
      && ParseInt(EnvOr(env, "MAX_ROWS", "10")).Ok?
    ensures r.Ok? ==>
      && r.value.port == ParseInt(EnvOr(env, "CLICKHOUSE_PORT", "9000")).value
      && r.value.httpPort == ParseInt(EnvOr(env, "CLICKHOUSE_HTTP_PORT", "8123")).value
      && r.value.maxRows == ParseInt(EnvOr(env, "MAX_ROWS", "10")).value
      && r.value.host == EnvOr(env, "CLICKHOUSE_HOST", "localhost")
      && r.value.database == EnvOr(env, "CLICKHOUSE_DATABASE", "default")
      && r.value.username == EnvOr(env, "CLICKHOUSE_USERNAME", "default")
      && r.value.password == EnvOr(env, "CLICKHOUSE_PASSWORD", "")
  {
    var port := ParseInt(EnvOr(env, "CLICKHOUSE_PORT", "9000"));
    var httpPort := ParseInt(EnvOr(env, "CLICKHOUSE_HTTP_PORT", "8123"));
    var maxRows := ParseInt(EnvOr(env, "MAX_ROWS", "10"));
    if port.Err? then Err(port.msg)
    else if httpPort.Err? then Err(httpPort.msg)
    else if maxRows.Err? then Err(maxRows.msg)
    else Ok(DbConfig(EnvOr(env, "CLICKHOUSE_ENABLED", "true"),
                     EnvOr(env, "CLICKHOUSE_HOST", "localhost"),
                     port.value, httpPort.value,
                     EnvOr(env, "CLICKHOUSE_DATABASE", "default"),
                     EnvOr(env, "CLICKHOUSE_USERNAME", "default"),
                     EnvOr(env, "CLICKHOUSE_PASSWORD", ""),
                     maxRows.value))
  }

  /** A port written out as an integer is read back as that integer. */
  lemma PortSettingRoundTrip(env: map<string, string>, port: int)
    requires "CLICKHOUSE_PORT" in env && env["CLICKHOUSE_PORT"] == IntToString(port)
    requires DbConfigFromEnv(env).Ok?
    ensures DbConfigFromEnv(env).value.port == port
  {
    ParseIntOfIntToString(port);
  }

  // ---- connections -------------------------------------------------------

  datatype Mode = Http | Native

  /** `connection_mode` as the source spells it. */
  function ModeName(m: Mode): string {
    match m
    case Http => "http"
    case Native => "native"
  }

  /** The keyword arguments a native `Client` is created with. */
  datatype NativeSettings = NativeSettings(
    host: string, port: int, database: string, user: string, password: string, readonly: int)

  /** A native driver client, with the attributes shutdown probes for. */
  datatype NativeClient = NativeClient(settings: NativeSettings, hasDisconnect: bool, hasSocket: bool)

  /** Creating a native client: either an object or the exception raised. */
  type NativeConnector = NativeSettings -> Outcome<NativeClient>

  /** `client.execute(query, params)` on a native client. */
  type NativeServer = (NativeClient, string, seq<(string, Value)>) -> Outcome<NativeResult>

  /** `HTTPConnection`: the coordinates its `execute` sends queries to. */
  datatype HttpHandle = HttpHandle(host: string, port: int, database: string, username: string, password: string)

  /** The object a `DatabaseConnection` wraps. */
  datatype Handle = ViaHttp(http: HttpHandle) | ViaNative(client: NativeClient)

  /** `DatabaseConnection`; `last_used` is left out. */
  datatype DatabaseConnection = DatabaseConnection(connection: Handle, database: string, connectionType: Mode)

  /** The wrapped object matches the connection type. */
  predicate WellTyped(c: DatabaseConnection) {
    c.connection.ViaHttp? <==> c.connectionType == Http
  }

  /** The shared `app_context`. */
  class AppContext {
    var connection: Option<DatabaseConnection>
    var connectionMode: Option<Mode>
    const connectionTtl: int

    /** A connection is present exactly when a mode is, and they agree. */
    predicate Valid()
      reads this
    {
      && (connection.Some? <==> connectionMode.Some?)
      && (connection.Some? ==> WellTyped(connection.value) && connection.value.connectionType == connectionMode.value)
    }

    constructor()
      ensures connection == None && connectionMode == None && connectionTtl == 3600
      ensures Valid()
    {
      connection := None;
      connectionMode := None;
      connectionTtl := 3600;
    }
  }

  // ---- the module's own HTTP helper ---------------------------------------

  /** The request lifespan_code.py's `execute_http_query` sends: no row limit. */
  function LifespanRequest(host: string, port: int, database: string, query: string,
                           username: string, password: string): HttpRequest
  {
    HttpRequest("http://" + host + ":" + IntToString(port) + "/", query, username, password,
                database, Some("JSONCompact"), None)
  }

  /** What `len(None)` raises (`TypeError`). */
  const NoneHasNoLen: string := "object of type 'NoneType' has no len()"

  /** The simplified response handling: JSON data is kept whole and unnamed
      (an absent `data` is `[]`, a `null` one fails on `len`), anything else
      is one stripped text cell. */
  function LifespanResponse(response: HttpResponse): (r: QueryResult)
    ensures r.success ==> r.data.Some? && r.error.None? && r.rowCount == |r.data.value|
    ensures r.success && r.columnNames != [] ==> r.data == Some([TextRow(Strip(response.text))])
    ensures !r.success <==>
      Contains(Lower(response.contentType.GetOr("")), "json") && (response.json.Err? || response.json.value.data.Null?)
    ensures !r.success ==>
      r == Failure("Failed to parse JSON response: " + (if response.json.Err? then response.json.msg else NoneHasNoLen))
  {
    if Contains(Lower(response.contentType.GetOr("")), "json") then
      match response.json
      case Err(e) => Failure("Failed to parse JSON response: " + e)
      case Ok(doc) =>
        match doc.data
        case Null => Failure("Failed to parse JSON response: " + NoneHasNoLen)
        case Missing => QueryResult(true, Some([]), None, 0, [])
        case Present(data) => QueryResult(true, Some(data), None, |data|, [])
    else
      QueryResult(true, Some([TextRow(Strip(response.text))]), None, 1, ["result"])
  }

  function LifespanHttpQuerySpec(host: string, port: int, database: string, query: string,
                                 username: string, password: string,
                                 params: seq<(string, Value)>, server: HttpServer): QueryResult
  {
    match server(LifespanRequest(host, port, database, Substituted(query, params), username, password))
    case Err(e) => Failure(e)
    case Ok(response) => LifespanResponse(response)
  }

  /** lifespan_code.py's `execute_http_query`. */
  method LifespanExecuteHttpQuery(host: string, port: int, database: string, query: string,
                                  username: string, password: string,
                                  params: seq<(string, Value)>, server: HttpServer) returns (r: QueryResult)
    ensures r == LifespanHttpQuerySpec(host, port, database, query, username, password, params, server)
  {
    var q := SubstituteParamsLifespan(query, params);
    var answer := server(LifespanRequest(host, port, database, q, username, password));
    if answer.Err? {
      return Failure(answer.msg);
    }
    var response := answer.value;
    if Contains(Lower(response.contentType.GetOr("")), "json") {
      match response.json {
        case Err(e) => return Failure("Failed to parse JSON response: " + e);
        case Ok(doc) =>
          match doc.data {
            case Null => return Failure("Failed to parse JSON response: " + NoneHasNoLen);
            case Missing => return QueryResult(true, Some([]), None, 0, []);
            case Present(data) => return QueryResult(true, Some(data), None, |data|, []);
          }
      }
    }
    var text := Strip(response.text);
    return QueryResult(true, Some([TextRow(text)]), None, 1, ["result"]);
  }

  /** `HTTPConnection.execute`: the rows, or the failure's message raised. */
  function HttpConnectionExecute(h: HttpHandle, query: string, params: seq<(string, Value)>,
                                 server: HttpServer): (r: Outcome<seq<Row>>)
    ensures var result := LifespanHttpQuerySpec(h.host, h.port, h.database, query, h.username, h.password, params, server);
      && (r.Ok? <==> result.success)
      && (r.Ok? ==> result.data == Some(r.value))
      && (r.Err? ==> r.msg == ShowOpt(result.error))
  {
    var result := LifespanHttpQuerySpec(h.host, h.port, h.database, query, h.username, h.password, params, server);
    if !result.success then Err(ShowOpt(result.error))
    else match result.data
      case Some(rows) => Ok(rows)
      case None => Ok([])
  }

  /** The module's helper never truncates and names no JSON columns. */
  lemma LifespanJsonKeepsAllRows(response: HttpResponse, doc: JsonDoc, rows: seq<Row>)
    requires Contains(Lower(response.contentType.GetOr("")), "json")
    requires response.json == Ok(doc) && doc.data == Present(rows)
    ensures LifespanResponse(response) == QueryResult(true, Some(rows), None, |rows|, [])
  {
  }

  /** A JSON body without `data` gives an empty success, whatever else it holds. */
  lemma LifespanJsonWithoutData(response: HttpResponse, doc: JsonDoc)
    requires Contains(Lower(response.contentType.GetOr("")), "json")
    requires response.json == Ok(doc) && doc.data.Missing?
    ensures LifespanResponse(response) == QueryResult(true, Some([]), None, 0, [])
  {
  }

  /** Any other body, even an empty one, is one row holding the stripped text. */
  lemma LifespanTextIsOneRow(response: HttpResponse)
    requires !Contains(Lower(response.contentType.GetOr("")), "json")
    ensures LifespanResponse(response) == QueryResult(true, Some([TextRow(Strip(response.text))]), None, 1, ["result"])
  {
  }

  // ---- start-up ------------------------------------------------------------

  /** The bare probe request: `SELECT 1`, without a format. */
  function ProbeRequest(config: DbConfig): HttpRequest {
    HttpRequest("http://" + config.host + ":" + IntToString(config.httpPort) + "/", "SELECT 1",
                config.username, config.password, config.database, None, None)
  }

  function HttpHandleOf(config: DbConfig): HttpHandle {
    HttpHandle(config.host, config.httpPort, config.database, config.username, config.password)
  }

  /** The HTTP attempt: the probe and a test query through `HTTPConnection`
      must both succeed. */
  function HttpAttempt(config: DbConfig, httpAvailable: bool, server: HttpServer): (c: Option<DatabaseConnection>)
    ensures c.Some? <==>
      httpAvailable && server(ProbeRequest(config)).Ok? && HttpConnectionExecute(HttpHandleOf(config), "SELECT 1", [], server).Ok?
    ensures c.Some? ==> c.value == DatabaseConnection(ViaHttp(HttpHandleOf(config)), config.database, Http)
  {
    if !httpAvailable then None
    else if server(ProbeRequest(config)).Err? then None
    else if HttpConnectionExecute(HttpHandleOf(config), "SELECT 1", [], server).Err? then None
    else Some(DatabaseConnection(ViaHttp(HttpHandleOf(config)), config.database, Http))
  }

  /** The read-only native client start-up creates. */
  function NativeSettingsOf(config: DbConfig): NativeSettings {
    NativeSettings(config.host, config.port, config.database, config.username, config.password, 1)
  }

  /** The native attempt: create a read-only client and run `SELECT 1` on it. */
  function NativeAttempt(config: DbConfig, connector: NativeConnector, nativeServer: NativeServer): (c: Option<DatabaseConnection>)
    ensures c.Some? <==>
      connector(NativeSettingsOf(config)).Ok? && nativeServer(connector(NativeSettingsOf(config)).value, "SELECT 1", []).Ok?
    ensures c.Some? ==> c.value == DatabaseConnection(ViaNative(connector(NativeSettingsOf(config)).value), config.database, Native)
  {
    match connector(NativeSettingsOf(config))
    case Err(_) => None
    case Ok(client) =>
      if nativeServer(client, "SELECT 1", []).Err? then None
      else Some(DatabaseConnection(ViaNative(client), config.database, Native))
  }

  function ModeOf(c: Option<DatabaseConnection>): Option<Mode> {
    match c
    case Some(conn) => Some(conn.connectionType)
    case None => None
  }

  /** What `app_lifespan` as written stores in the context: `None` when the
      assignments are skipped, which happens whenever the HTTP attempt succeeded. */
  function StartupAssignment(config: DbConfig, httpAvailable: bool, nativeAvailable: bool,
                             server: HttpServer, connector: NativeConnector,
                             nativeServer: NativeServer): Option<Option<DatabaseConnection>>
  {
    if HttpAttempt(config, httpAvailable, server).None? && nativeAvailable
    then Some(NativeAttempt(config, connector, nativeServer))
    else None
  }

  /** What start-up evidently means to store: the HTTP connection if it
      works, else the native one, else nothing. */
  function StartupAssignmentCorrected(config: DbConfig, httpAvailable: bool, nativeAvailable: bool,
                                      server: HttpServer, connector: NativeConnector,
                                      nativeServer: NativeServer): Option<DatabaseConnection>
  {
    var http := HttpAttempt(config, httpAvailable, server);
    if http.Some? then http
    else if nativeAvailable then NativeAttempt(config, connector, nativeServer)
    else None
  }

  /** `app_lifespan` up to `yield`, as written. */
  method AppLifespanStartup(ctx: AppContext, config: DbConfig, httpAvailable: bool, nativeAvailable: bool,
                            server: HttpServer, connector: NativeConnector, nativeServer: NativeServer)
    modifies ctx
    ensures var a := StartupAssignment(config, httpAvailable, nativeAvailable, server, connector, nativeServer);
      && (a.None? ==> ctx.connection == old(ctx.connection) && ctx.connectionMode == old(ctx.connectionMode))
      && (a.Some? ==> ctx.connection == a.value && ctx.connectionMode == ModeOf(a.value))
    ensures old(ctx.Valid()) ==> ctx.Valid()
  {
    var conn: Option<DatabaseConnection> := None;
    var connectionMode: Option<Mode> := None;
    if httpAvailable {
      var probe := server(ProbeRequest(config));
      if probe.Ok? {
        var httpConn := HttpHandleOf(config);
        var test := HttpConnectionExecute(httpConn, "SELECT 1", [], server);
        if test.Ok? {
          conn := Some(DatabaseConnection(ViaHttp(httpConn), config.database, Http));
          connectionMode := Some(Http);
        }
      }
    }
    if connectionMode.None? && nativeAvailable {
      var client := connector(NativeSettingsOf(config));
      if client.Ok? {
        var probe := nativeServer(client.value, "SELECT 1", []);
        if probe.Ok? {
          conn := Some(DatabaseConnection(ViaNative(client.value), config.database, Native));
          connectionMode := Some(Native);
        }
      }
      ctx.connection := conn;
      ctx.connectionMode := connectionMode;
    }
  }

  /** `app_lifespan` up to `yield` with the final assignments made after both attempts. */
  method AppLifespanStartupCorrected(ctx: AppContext, config: DbConfig, httpAvailable: bool, nativeAvailable: bool,
                                     server: HttpServer, connector: NativeConnector, nativeServer: NativeServer)
    modifies ctx
    ensures var c := StartupAssignmentCorrected(config, httpAvailable, nativeAvailable, server, connector, nativeServer);
      ctx.connection == c && ctx.connectionMode == ModeOf(c)
    ensures ctx.Valid()
  {
    var conn: Option<DatabaseConnection> := None;
    var connectionMode: Option<Mode> := None;
    if httpAvailable {
      var probe := server(ProbeRequest(config));
      if probe.Ok? {
        var httpConn := HttpHandleOf(config);
        var test := HttpConnectionExecute(httpConn, "SELECT 1", [], server);
        if test.Ok? {
          conn := Some(DatabaseConnection(ViaHttp(httpConn), config.database, Http));
          connectionMode := Some(Http);
        }
      }
    }
    if connectionMode.None? && nativeAvailable {
      var client := connector(NativeSettingsOf(config));
      if client.Ok? {
        var probe := nativeServer(client.value, "SELECT 1", []);
        if probe.Ok? {
          conn := Some(DatabaseConnection(ViaNative(client.value), config.database, Native));
          connectionMode := Some(Native);
        }
      }
    }
    ctx.connection := conn;
    ctx.connectionMode := connectionMode;
  }

  /** As written, a working HTTP server leaves the context unassigned, so
      no mode is ever recorded; the corrected start-up records the HTTP connection. */
  lemma HttpSuccessIsDiscarded(config: DbConfig, nativeAvailable: bool, server: HttpServer,
                               connector: NativeConnector, nativeServer: NativeServer)
    requires server(ProbeRequest(config)).Ok?
    requires HttpConnectionExecute(HttpHandleOf(config), "SELECT 1", [], server).Ok?
    ensures StartupAssignment(config, true, nativeAvailable, server, connector, nativeServer).None?
    ensures StartupAssignmentCorrected(config, true, nativeAvailable, server, connector, nativeServer)
            == Some(DatabaseConnection(ViaHttp(HttpHandleOf(config)), config.database, Http))
  {
  }

  /** As written, a connection that is stored is always a native one. */
  lemma StoredConnectionIsNative(config: DbConfig, httpAvailable: bool, nativeAvailable: bool,
                                 server: HttpServer, connector: NativeConnector, nativeServer: NativeServer)
    ensures var a := StartupAssignment(config, httpAvailable, nativeAvailable, server, connector, nativeServer);
      a.Some? && a.value.Some? ==> a.value.value.connectionType == Native
  {
  }

  /** Corrected start-up connects exactly when one of the attempts works,
      prefers HTTP, and falls back to native only when HTTP did not work. */
  lemma CorrectedStartupChoosesWorkingMode(config: DbConfig, httpAvailable: bool, nativeAvailable: bool,
                                           server: HttpServer, connector: NativeConnector, nativeServer: NativeServer)
    ensures var c := StartupAssignmentCorrected(config, httpAvailable, nativeAvailable, server, connector, nativeServer);
      var http := HttpAttempt(config, httpAvailable, server);
      var native := NativeAttempt(config, connector, nativeServer);
      && (c.Some? <==> http.Some? || (nativeAvailable && native.Some?))
      && (http.Some? ==> c == http)
      && (c.Some? && c.value.connectionType == Native ==> http.None? && c == native)
      && (c.Some? ==> WellTyped(c.value))
  {
  }

  // ---- shutdown ------------------------------------------------------------

  /** What shutdown does to the underlying client. */
  datatype Release = Disconnected | SocketClosed | NothingClosed

  /** Only a native client is closed: by `disconnect()` if it has it, else by
      closing its socket if it has one. */
  function ReleaseOf(connection: Option<DatabaseConnection>): Release {
    match connection
    case Some(DatabaseConnection(ViaNative(client), _, Native)) =>
      if client.hasDisconnect then Disconnected
      else if client.hasSocket then SocketClosed
      else NothingClosed
    case _ => NothingClosed
  }

  /** `app_lifespan` after `yield`. */
  method AppLifespanTeardown(ctx: AppContext) returns (release: Release)
    modifies ctx
    ensures release == ReleaseOf(old(ctx.connection))
    ensures old(ctx.connection).Some? ==> ctx.connection.None? && ctx.connectionMode.None?
    ensures old(ctx.connection).None? ==> ctx.connection.None? && ctx.connectionMode == old(ctx.connectionMode)
    ensures old(ctx.Valid()) ==> ctx.Valid() && ctx.connectionMode.None?
  {
    release := NothingClosed;
    if ctx.connection.Some? {
      var c := ctx.connection.value;
      if c.connectionType == Native && c.connection.ViaNative? {
        var client := c.connection.client;
        if client.hasDisconnect {
          release := Disconnected;
        } else if client.hasSocket {
          release := SocketClosed;
        }
      }
      ctx.connection := None;
      ctx.connectionMode := None;
    }
  }

  /** HTTP connections are dropped without closing anything. */
  lemma HttpConnectionClosesNothing(c: DatabaseConnection)
    requires c.connectionType == Http
    ensures ReleaseOf(Some(c)) == NothingClosed
  {
  }
}
