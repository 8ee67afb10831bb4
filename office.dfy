/** The configuration and the query tool of mcp_server_office.py: the
    `ClickHouseConfig` properties as functions of the environment, the check
    for required variables, the client configuration dictionary, the
    configuration singleton, the `readonly` setting sent with each query, the
    rows-as-dictionaries result of `execute_query` and the replies of
    `run_select_query`. */
module OfficeServer {
  import opened Outcomes
  import opened PyStr
  import opened PyValues

  /** `os.environ` at the moment a property is read. */
  type Env = map<string, string>

  /** `str(KeyError(key))`: the key in single quotes. */
  function KeyErrorText(key: string): string {
    "'" + key + "'"
  }

  /** `os.environ[key]`: the value, or `KeyError` when the variable is unset. */
  function Required(env: Env, key: string): (r: Outcome<string>)
    ensures r.Ok? <==> key in env
    ensures r.Ok? ==> r.value == env[key]
    ensures r.Err? ==> r.msg == KeyErrorText(key)
  {
    if key in env then Ok(env[key]) else Err(KeyErrorText(key))
  }

  // ---- ClickHouseConfig properties -------------------------------------------

  function Host(env: Env): Outcome<string> {
    Required(env, "CLICKHOUSE_HOST")
  }

  function Username(env: Env): Outcome<string> {
    Required(env, "CLICKHOUSE_USER")
  }

  function Password(env: Env): Outcome<string> {
    Required(env, "CLICKHOUSE_PASSWORD")
  }

  /** `os.getenv("CLICKHOUSE_DATABASE")`. */
  function Database(env: Env): (r: Option<string>)
    ensures r.Some? <==> "CLICKHOUSE_DATABASE" in env
    ensures r.Some? ==> r.value == env["CLICKHOUSE_DATABASE"]
  {
    if "CLICKHOUSE_DATABASE" in env then Some(env["CLICKHOUSE_DATABASE"]) else None
  }

  /** A boolean setting: true exactly when its lower-cased value, `"true"` by
      default, is `"true"`. */
  function Flag(env: Env, key: string): (b: bool)
    ensures key !in env ==> b
    ensures key in env ==> (b <==> Lower(env[key]) == "true")
  {
    Lower(EnvOr(env, key, "true")) == "true"
  }

  function Secure(env: Env): bool {
    Flag(env, "CLICKHOUSE_SECURE")
  }

  function Verify(env: Env): bool {
    Flag(env, "CLICKHOUSE_VERIFY")
  }

  /** `int(os.getenv(key, default))`. */
  function IntSetting(env: Env, key: string, default: string): Outcome<int> {
    ParseInt(EnvOr(env, key, default))
  }

  function ConnectTimeout(env: Env): Outcome<int> {
    IntSetting(env, "CLICKHOUSE_CONNECT_TIMEOUT", "30")
  }

  function SendReceiveTimeout(env: Env): Outcome<int> {
    IntSetting(env, "CLICKHOUSE_SEND_RECEIVE_TIMEOUT", "300")
  }

  /** The port: `CLICKHOUSE_PORT` read as an integer when it is set, otherwise
      8443 for a secure connection and 8123 for a plain one. */
  function Port(env: Env): (r: Outcome<int>)
    ensures "CLICKHOUSE_PORT" in env ==> r == ParseInt(env["CLICKHOUSE_PORT"])
    ensures "CLICKHOUSE_PORT" !in env ==> r == Ok(if Secure(env) then 8443 else 8123)
  {
    if "CLICKHOUSE_PORT" in env then ParseInt(env["CLICKHOUSE_PORT"])
    else Ok(if Secure(env) then 8443 else 8123)
  }

  // ---- required variables --------------------------------------------------------

  const RequiredVars: seq<string> := ["CLICKHOUSE_HOST", "CLICKHOUSE_USER", "CLICKHOUSE_PASSWORD"]

  /** The names among `names` that the environment lacks, in their order. */
  function Missing(names: seq<string>, env: Env): (m: seq<string>)
    ensures |m| <= |names|
    ensures forall k :: 0 <= k < |m| ==> m[k] !in env
  {
    if |names| == 0 then []
    else
      var front := names[..|names| - 1];
      var last := names[|names| - 1];
      assert names == front + [last];
      Missing(front, env) + (if last in env then [] else [last])
  }

  function MissingVarsMessage(missing: seq<string>): string {
    "Missing required environment variables: " + Join(missing, ", ")
  }

  /** `_validate_required_vars`: `Some(message)` is the `ValueError` it raises. */
  method ValidateRequiredVars(env: Env) returns (error: Option<string>)
    ensures error.None? <==> "CLICKHOUSE_HOST" in env && "CLICKHOUSE_USER" in env && "CLICKHOUSE_PASSWORD" in env
    ensures error.Some? ==> error.value == MissingVarsMessage(Missing(RequiredVars, env))
  {
    var missingVars: seq<string> := [];
    var i := 0;
    while i < |RequiredVars|
      invariant 0 <= i <= |RequiredVars|
      invariant missingVars == Missing(RequiredVars[..i], env)
    {
      var name := RequiredVars[i];
      assert RequiredVars[..i + 1][..i] == RequiredVars[..i];
      if name !in env {
        missingVars := missingVars + [name];
      }
      i := i + 1;
    }
    assert RequiredVars[..|RequiredVars|] == RequiredVars;
    MissingInOrder(env);
    if |missingVars| > 0 {
      return Some(MissingVarsMessage(missingVars));
    }
    return None;
  }

  /** The message names the missing variables in the order HOST, USER,
      PASSWORD, separated by `", "`. */
  lemma {:induction false} MissingInOrder(env: Env)
    ensures Missing(RequiredVars, env) ==
      (if "CLICKHOUSE_HOST" in env then [] else ["CLICKHOUSE_HOST"])
      + (if "CLICKHOUSE_USER" in env then [] else ["CLICKHOUSE_USER"])
      + (if "CLICKHOUSE_PASSWORD" in env then [] else ["CLICKHOUSE_PASSWORD"])
  {
    var r := RequiredVars;
    assert r[..2][..1] == [r[0]] && r[..2] == [r[0], r[1]] && r[..3][..2] == r[..2];
    assert [r[0]][..0] == [];
    assert Missing([r[0]], env) == (if r[0] in env then [] else [r[0]]);
    assert Missing(r[..2], env) == Missing([r[0]], env) + (if r[1] in env then [] else [r[1]]);
    assert r == r[..3];
  }

  /** With only the password unset, the message names it alone. */
  lemma OnlyPasswordMissing(env: Env)
    requires "CLICKHOUSE_HOST" in env && "CLICKHOUSE_USER" in env && "CLICKHOUSE_PASSWORD" !in env
    ensures MissingVarsMessage(Missing(RequiredVars, env))
            == "Missing required environment variables: CLICKHOUSE_PASSWORD"
  {
    MissingInOrder(env);
  }

  /** With nothing set, all three are named, comma-separated. */
  lemma AllMissing(env: Env)
    requires "CLICKHOUSE_HOST" !in env && "CLICKHOUSE_USER" !in env && "CLICKHOUSE_PASSWORD" !in env
    ensures MissingVarsMessage(Missing(RequiredVars, env))
            == "Missing required environment variables: "
               + "CLICKHOUSE_HOST" + ", " + "CLICKHOUSE_USER" + ", " + "CLICKHOUSE_PASSWORD"
  {
    MissingInOrder(env);
    assert Missing(RequiredVars, env) == ["CLICKHOUSE_HOST", "CLICKHOUSE_USER", "CLICKHOUSE_PASSWORD"];
    JoinThree("CLICKHOUSE_HOST", "CLICKHOUSE_USER", "CLICKHOUSE_PASSWORD", ", ");
  }

  lemma JoinThree(a: string, b: string, c: string, sep: string)
    ensures Join([a, b, c], sep) == a + sep + b + sep + c
  {
    assert [a, b, c][1..] == [b, c] && [b, c][1..] == [c];
    assert Join([c], sep) == c;
    assert Join([b, c], sep) == b + sep + c;
    assert Join([a, b, c], sep) == a + sep + (b + sep + c);
  }

  // ---- the configuration object --------------------------------------------------

  /** A `ClickHouseConfig` instance. It stores nothing: every property reads
      the environment again when it is accessed. */
  datatype ClickHouseConfig = ClickHouseConfig

  /** `ClickHouseConfig()`: the instance, or the `ValueError` of the check. */
  function NewConfig(env: Env): (r: Outcome<ClickHouseConfig>)
    ensures r.Ok? <==> Host(env).Ok? && Username(env).Ok? && Password(env).Ok?
    ensures r.Err? ==> r.msg == MissingVarsMessage(Missing(RequiredVars, env))
  {
    MissingInOrder(env);
    if |Missing(RequiredVars, env)| > 0 then Err(MissingVarsMessage(Missing(RequiredVars, env)))
    else Ok(ClickHouseConfig)
  }

  /** The keyword arguments of `clickhouse_connect.get_client`; `database`
      is `None` when the key is left out of the dictionary. */
  datatype ClientSettings = ClientSettings(
    host: string,
    port: int,
    username: string,
    password: string,
    secure: bool,
    verify: bool,
    connectTimeout: int,
    sendReceiveTimeout: int,
    clientName: string,
    database: Option<string>)

  const FixedKeys: seq<string> :=
    ["host", "port", "username", "password", "secure", "verify",
     "connect_timeout", "send_receive_timeout", "client_name"]

  /** The dictionary `get_client_config` returns, in insertion order. */
  function Entries(c: ClientSettings): seq<(string, Value)> {
    [("host", VStr(c.host)), ("port", VInt(c.port)),
     ("username", VStr(c.username)), ("password", VStr(c.password)),
     ("secure", VBool(c.secure)), ("verify", VBool(c.verify)),
     ("connect_timeout", VInt(c.connectTimeout)),
     ("send_receive_timeout", VInt(c.sendReceiveTimeout)),
     ("client_name", VStr(c.clientName))]
    + (match c.database case Some(d) => [("database", VStr(d))] case None => [])
  }

  /** The dictionary always holds the nine fixed keys in order, and
      `database` last exactly when a database is configured. */
  lemma EntriesKeys(c: ClientSettings)
    ensures Keys(Entries(c)) == FixedKeys + (if c.database.Some? then ["database"] else [])
  {
  }

  /** `get_client_config`: the settings read from the environment; the first
      property that raises, in evaluation order, makes the call raise. */
  function ClientConfig(env: Env): (r: Outcome<ClientSettings>)
    ensures r.Ok? <==>
      && "CLICKHOUSE_HOST" in env && "CLICKHOUSE_USER" in env && "CLICKHOUSE_PASSWORD" in env
      && Port(env).Ok? && ConnectTimeout(env).Ok? && SendReceiveTimeout(env).Ok?
    ensures "CLICKHOUSE_HOST" !in env ==> r == Err(KeyErrorText("CLICKHOUSE_HOST"))
    ensures r.Ok? ==>
      && r.value.host == env["CLICKHOUSE_HOST"]
      && r.value.username == env["CLICKHOUSE_USER"]
      && r.value.password == env["CLICKHOUSE_PASSWORD"]
      && r.value.port == (if "CLICKHOUSE_PORT" in env then ParseInt(env["CLICKHOUSE_PORT"]).value
                          else if Secure(env) then 8443 else 8123)
      && r.value.secure == Secure(env) && r.value.verify == Verify(env)
      && r.value.connectTimeout == ParseInt(EnvOr(env, "CLICKHOUSE_CONNECT_TIMEOUT", "30")).value
      && r.value.sendReceiveTimeout == ParseInt(EnvOr(env, "CLICKHOUSE_SEND_RECEIVE_TIMEOUT", "300")).value
      && r.value.clientName == "mcp_clickhouse"
      && (r.value.database.Some? <==> "CLICKHOUSE_DATABASE" in env && env["CLICKHOUSE_DATABASE"] != "")
      && (r.value.database.Some? ==> r.value.database.value == env["CLICKHOUSE_DATABASE"])
  {
    var host := Host(env);
    var port := Port(env);
    var username := Username(env);
    var password := Password(env);
    var connectTimeout := ConnectTimeout(env);
    var sendReceiveTimeout := SendReceiveTimeout(env);
    if host.Err? then Err(host.msg)
    else if port.Err? then Err(port.msg)
    else if username.Err? then Err(username.msg)
    else if password.Err? then Err(password.msg)
    else if connectTimeout.Err? then Err(connectTimeout.msg)
    else if sendReceiveTimeout.Err? then Err(sendReceiveTimeout.msg)
    else
      var database := Database(env);
      Ok(ClientSettings(host.value, port.value, username.value, password.value,
                        Secure(env), Verify(env), connectTimeout.value, sendReceiveTimeout.value,
                        "mcp_clickhouse",
                        if database.Some? && database.value != "" then database else None))
  }

  /** An environment that passed the check and whose integer settings parse
      always yields a client configuration. */
  lemma ValidatedConfigBuilds(env: Env)
    requires NewConfig(env).Ok?
    requires Port(env).Ok? && ConnectTimeout(env).Ok? && SendReceiveTimeout(env).Ok?
    ensures ClientConfig(env).Ok?
  {
  }

  lemma SmallNumbersText()
    ensures IntToString(30) == "30" && IntToString(300) == "300"
  {
    assert NatToString(3) == "3";
    assert NatToString(30) == "30";
  }

  /** With none of the optional variables set the configuration is the
      secure default: port 8443, verification on, timeouts 30 and 300, no database. */
  lemma DefaultClientConfig(env: Env)
    requires NewConfig(env).Ok?
    requires "CLICKHOUSE_PORT" !in env && "CLICKHOUSE_SECURE" !in env && "CLICKHOUSE_VERIFY" !in env
    requires "CLICKHOUSE_CONNECT_TIMEOUT" !in env && "CLICKHOUSE_SEND_RECEIVE_TIMEOUT" !in env
    requires "CLICKHOUSE_DATABASE" !in env
    ensures ClientConfig(env).Ok?
    ensures var c := ClientConfig(env).value;
      && c.port == 8443 && c.secure && c.verify
      && c.connectTimeout == 30 && c.sendReceiveTimeout == 300
      && c.database.None?
  {
    SmallNumbersText();
    ParseIntOfIntToString(30);
    ParseIntOfIntToString(300);
  }

  /** `CLICKHOUSE_SECURE=false` without a port gives 8123; only the exact word
      `true`, in any case, switches a flag on: `1` and `yes` switch it off. */
  lemma PlainPortAndFlagSpelling(env: Env)
    requires "CLICKHOUSE_PORT" !in env && "CLICKHOUSE_SECURE" in env
    ensures env["CLICKHOUSE_SECURE"] == "false" ==> Port(env) == Ok(8123)
    ensures env["CLICKHOUSE_SECURE"] == "TRUE" ==> Port(env) == Ok(8443)
    ensures env["CLICKHOUSE_SECURE"] == "1" ==> !Secure(env)
    ensures env["CLICKHOUSE_SECURE"] == "yes" ==> !Secure(env)
  {
    var v := env["CLICKHOUSE_SECURE"];
    if v == "false" { assert Lower(v)[0] == 'f'; }
    if v == "1" { assert |Lower(v)| == 1; }
    if v == "yes" { assert |Lower(v)| == 3; }
  }

  /** A port given as an integer's text is that integer, whatever `secure` says. */
  lemma ExplicitPortWins(env: Env, port: int)
    requires "CLICKHOUSE_PORT" in env && env["CLICKHOUSE_PORT"] == IntToString(port)
    ensures Port(env) == Ok(port)
  {
    ParseIntOfIntToString(port);
  }

  /** The module-level `_CONFIG_INSTANCE`. */
  class ConfigSlot {
    var instance: Option<ClickHouseConfig>

    constructor()
      ensures instance == None
    {
      instance := None;
    }

    /** `get_config`: the first successful call validates the environment and
        keeps the instance; later calls return it without checking again. */
    method GetConfig(env: Env) returns (r: Outcome<ClickHouseConfig>)
      modifies this
      ensures old(instance).Some? ==> r == Ok(old(instance).value) && instance == old(instance)
      ensures old(instance).None? ==> r == NewConfig(env)
      ensures old(instance).None? ==> instance == (if r.Ok? then Some(r.value) else None)
    {
      if instance.None? {
        var error := ValidateRequiredVars(env);
        if error.Some? {
          return Err(error.value);
        }
        instance := Some(ClickHouseConfig);
      }
      return Ok(instance.value);
    }
  }


  /** After the singleton exists, the environment is no longer checked: a
      later call with the host unset still returns the instance, and the
      client configuration then fails on the missing host. */
  method StaleConfig(env1: Env, env2: Env) returns (r: Outcome<ClickHouseConfig>, cfg: Outcome<ClientSettings>)
    requires NewConfig(env1).Ok? && "CLICKHOUSE_HOST" !in env2
    ensures r.Ok?
    ensures cfg == Err(KeyErrorText("CLICKHOUSE_HOST"))
  {
    var slot := new ConfigSlot();
    var first := slot.GetConfig(env1);
    r := slot.GetConfig(env2);
    cfg := ClientConfig(env2);
  }

  // ---- the readonly setting ------------------------------------------------------

  /** An entry of the client's `server_settings`: a named tuple, always truthy. */
  datatype SettingDef = SettingDef(name: string, value: string, readOnly: int)

  /** The connected client, as far as the query tool looks at it. */
  datatype Client = Client(serverSettings: map<string, SettingDef>)

  /** `get_readonly_setting` as written. `read_only` is the `SettingDef`
      object, not its value, so the test `read_only == "0"` compares a tuple
      with a string and never holds: a present setting is passed on as its
      value, `"0"` included; an absent one gives `"1"`. */
  function ReadonlySettingAsWritten(serverSettings: map<string, SettingDef>): (r: string)
    ensures "readonly" !in serverSettings ==> r == "1"
    ensures "readonly" in serverSettings ==> r == serverSettings["readonly"].value
  {
    if "readonly" in serverSettings then serverSettings["readonly"].value else "1"
  }

  /** A server with read-only off makes the tool send `readonly=0`, so a
      query runs with no read-only restriction at all. */
  lemma ReadonlyZeroPassesThrough()
    ensures ReadonlySettingAsWritten(map["readonly" := SettingDef("readonly", "0", 0)]) == "0"
  {
  }

  /** `get_readonly_setting` as its documentation describes it: the server's
      value is kept unless it is `"0"`, which is raised to `"1"`; no value gives `"1"`. */
  function ReadonlySetting(serverSettings: map<string, SettingDef>): (r: string)
    // read-only is never switched off
    ensures r != "0"
    ensures r == "1" || ("readonly" in serverSettings && r == serverSettings["readonly"].value)
    ensures "readonly" in serverSettings && serverSettings["readonly"].value != "0" ==>
      r == serverSettings["readonly"].value
  {
    if "readonly" in serverSettings then
      var readOnly := serverSettings["readonly"].value;
      if readOnly == "0" then "1" else readOnly
    else "1"
  }

  /** The two readings differ only on a server with `readonly=0`. */
  lemma ReadonlyReadingsAgreeElsewhere(serverSettings: map<string, SettingDef>)
    ensures ReadonlySettingAsWritten(serverSettings) != ReadonlySetting(serverSettings) <==>
      "readonly" in serverSettings && serverSettings["readonly"].value == "0"
  {
  }

  // ---- rows as dictionaries ------------------------------------------------------

  /** `d[key] = v` on a dictionary whose keys are distinct: an existing key
      keeps its place and takes the new value, a new key goes last. */
  function Assign(entries: seq<(string, Value)>, key: string, v: Value): seq<(string, Value)> {
    if |entries| == 0 then [(key, v)]
    else if entries[0].0 == key then [(key, v)] + entries[1..]
    else [entries[0]] + Assign(entries[1..], key, v)
  }

  /** The dictionary the inner loop builds from the first `|cols|` cells. */
  function RowDict(cols: seq<string>, row: seq<Value>): seq<(string, Value)>
    requires |cols| <= |row|
  {
    if |cols| == 0 then []
    else Assign(RowDict(cols[..|cols| - 1], row), cols[|cols| - 1], row[|cols| - 1])
  }

  /** The rows of a `client.query` result. */
  datatype ResultSet = ResultSet(columnNames: seq<string>, resultRows: seq<seq<Value>>, rowKind: SeqKind)

  /** `str(IndexError)` for `row[i]` past the end of a row. */
  function IndexErrorText(kind: SeqKind): string {
    match kind
    case TupleKind => "tuple index out of range"
    case ListKind => "list index out of range"
  }

  /** Every row has a cell for every column. */
  predicate WideEnough(cols: seq<string>, rows: seq<seq<Value>>) {
    forall k :: 0 <= k < |rows| ==> |cols| <= |rows[k]|
  }

  /** What the two loops produce: one dictionary per row, or the
      `IndexError` raised by a row narrower than the columns. */
  function RowsOf(cols: seq<string>, rows: seq<seq<Value>>, kind: SeqKind): Outcome<seq<seq<(string, Value)>>> {
    if WideEnough(cols, rows) then Ok(seq(|rows|, k requires 0 <= k < |rows| => RowDict(cols, rows[k])))
    else Err(IndexErrorText(kind))
  }

  lemma RowDictStep(cols: seq<string>, row: seq<Value>, i: nat)
    requires i < |cols| && i < |row|
    ensures RowDict(cols[..i + 1], row) == Assign(RowDict(cols[..i], row), cols[i], row[i])
  {
    assert cols[..i + 1][..i] == cols[..i];
  }

  /** The dictionary for one row (mcp_server_office.py:292-294). */
  method BuildRowDict(columnNames: seq<string>, row: seq<Value>) returns (rowDict: Option<seq<(string, Value)>>)
    ensures rowDict.Some? <==> |columnNames| <= |row|
    ensures rowDict.Some? ==> rowDict.value == RowDict(columnNames, row)
  {
    var d: seq<(string, Value)> := [];
    var i := 0;
    while i < |columnNames|
      invariant 0 <= i <= |columnNames| && i <= |row|
      invariant d == RowDict(columnNames[..i], row)
    {
      if i >= |row| {
        return None;
      }
      RowDictStep(columnNames, row, i);
      d := Assign(d, columnNames[i], row[i]);
      i := i + 1;
    }
    assert columnNames[..|columnNames|] == columnNames;
    return Some(d);
  }

  /** The nested loops of `execute_query` (mcp_server_office.py:290-295). */
  method BuildRows(rs: ResultSet) returns (r: Outcome<seq<seq<(string, Value)>>>)
    ensures r == RowsOf(rs.columnNames, rs.resultRows, rs.rowKind)
  {
    var columnNames, resultRows := rs.columnNames, rs.resultRows;
    var rows: seq<seq<(string, Value)>> := [];
    var j := 0;
    while j < |resultRows|
      invariant 0 <= j <= |resultRows|
      invariant WideEnough(columnNames, resultRows[..j])
      invariant |rows| == j
      invariant forall k :: 0 <= k < j ==> |columnNames| <= |resultRows[k]| && rows[k] == RowDict(columnNames, resultRows[k])
    {
      var rowDict := BuildRowDict(columnNames, resultRows[j]);
      if rowDict.None? {
        assert !WideEnough(columnNames, resultRows);
        return Err(IndexErrorText(rs.rowKind));
      }
      rows := rows + [rowDict.value];
      j := j + 1;
    }
    assert WideEnough(columnNames, resultRows);
    assert rows == seq(|resultRows|, k requires 0 <= k < |resultRows| => RowDict(columnNames, resultRows[k]));
    return Ok(rows);
  }

  predicate Distinct(xs: seq<string>) {
    forall i, j :: 0 <= i < j < |xs| ==> xs[i] != xs[j]
  }

  /** Each column name paired with the cell at its position. */
  function Zip(cols: seq<string>, row: seq<Value>): (z: seq<(string, Value)>)
    requires |cols| <= |row|
    ensures |z| == |cols| && Keys(z) == cols
    ensures forall i :: 0 <= i < |cols| ==> z[i] == (cols[i], row[i])
  {
    seq(|cols|, i requires 0 <= i < |cols| => (cols[i], row[i]))
  }

  /** Assigning a key not yet present appends it. */
  lemma {:induction false} AssignNew(entries: seq<(string, Value)>, key: string, v: Value)
    requires key !in Keys(entries)
    ensures Assign(entries, key, v) == entries + [(key, v)]
  {
    if |entries| > 0 {
      assert entries[0].0 == Keys(entries)[0];
      assert Keys(entries[1..]) == Keys(entries)[1..];
      AssignNew(entries[1..], key, v);
      assert entries == [entries[0]] + entries[1..];
    }
  }

  /** With distinct column names a row's dictionary pairs each name with the
      cell at the same position, in column order. */
  lemma {:induction false} RowDictZips(cols: seq<string>, row: seq<Value>)
    requires |cols| <= |row| && Distinct(cols)
    ensures RowDict(cols, row) == Zip(cols, row)
  {
    if |cols| > 0 {
      var n := |cols| - 1;
      var front := cols[..n];
      assert Distinct(front) by {
        forall i, j | 0 <= i < j < |front| ensures front[i] != front[j] {
          assert front[i] == cols[i] && front[j] == cols[j];
        }
      }
      RowDictZips(front, row);
      assert cols[n] !in front by {
        forall i | 0 <= i < n ensures front[i] != cols[n] {
          assert front[i] == cols[i];
        }
      }
      AssignNew(Zip(front, row), cols[n], row[n]);
      assert Zip(front, row) + [(cols[n], row[n])] == Zip(cols, row);
    }
  }

  /** The `execute_query` rows for distinct column names: as many rows as
      the result has, each mapping `column_names[i]` to `row[i]`. */
  lemma RowsZip(cols: seq<string>, rows: seq<seq<Value>>, kind: SeqKind, k: nat, i: nat)
    requires Distinct(cols) && RowsOf(cols, rows, kind).Ok?
    requires k < |rows| && i < |cols|
    ensures |RowsOf(cols, rows, kind).value| == |rows|
    ensures Keys(RowsOf(cols, rows, kind).value[k]) == cols
    ensures RowsOf(cols, rows, kind).value[k][i] == (cols[i], rows[k][i])
  {
    RowDictZips(cols, rows[k]);
  }

  /** A repeated column name keeps its first place and the value of its
      last occurrence. */
  lemma RepeatedColumnLastWins(x: Value, y: Value)
    ensures RowDict(["a", "a"], [x, y]) == [("a", y)]
  {
    assert ["a", "a"][..1] == ["a"] && ["a"][..0] == [];
    assert RowDict(["a"], [x, y]) == [("a", x)];
    assert Assign([("a", x)], "a", y) == [("a", y)] + [("a", x)][1..];
  }

  // ---- execute_query and run_select_query ----------------------------------------

  /** `clickhouse_connect.get_client(**config)` followed by `server_version`. */
  type Connector = ClientSettings -> Outcome<Client>

  /** `client.query(query, settings={"readonly": read_only})`. */
  type QueryServer = (Client, string, string) -> Outcome<ResultSet>

  /** What `execute_query` returns: the row dictionaries, or `{"error": str(err)}`. */
  datatype ExecuteQueryResult = Rows(rows: seq<seq<(string, Value)>>) | ErrorDict(error: string)

  /** The `try` block of `execute_query` on a connected client, given the
      `readonly` value sent with the query. */
  function QueryOnClient(client: Client, server: QueryServer, query: string, readOnly: string): (r: ExecuteQueryResult)
    ensures server(client, query, readOnly).Err? ==> r == ErrorDict(server(client, query, readOnly).msg)
    ensures r.Rows? ==>
      var rs := server(client, query, readOnly).value;
      RowsOf(rs.columnNames, rs.resultRows, rs.rowKind) == Ok(r.rows)
    ensures server(client, query, readOnly).Ok? ==>
      var rs := server(client, query, readOnly).value;
      (r.Rows? <==> WideEnough(rs.columnNames, rs.resultRows))
  {
    match server(client, query, readOnly)
    case Err(e) => ErrorDict(e)
    case Ok(rs) =>
      match RowsOf(rs.columnNames, rs.resultRows, rs.rowKind)
      case Err(e) => ErrorDict(e)
      case Ok(rows) => Rows(rows)
  }

  /** The query and the row building of `execute_query`; a failure of
      either becomes the error dictionary. */
  method QueryRows(client: Client, server: QueryServer, query: string, readOnly: string)
    returns (r: ExecuteQueryResult)
    ensures r == QueryOnClient(client, server, query, readOnly)
  {
    var res := server(client, query, readOnly);
    if res.Err? {
      return ErrorDict(res.msg);
    }
    var rows := BuildRows(res.value);
    if rows.Err? {
      return ErrorDict(rows.msg);
    }
    return Rows(rows.value);
  }

  /** `create_clickhouse_client`: the singleton's configuration, then a
      connection; every failure propagates. */
  method CreateClickhouseClient(slot: ConfigSlot, env: Env, connect: Connector) returns (r: Outcome<Client>)
    modifies slot
    ensures old(slot.instance).Some? ==> slot.instance == old(slot.instance)
    ensures old(slot.instance).None? ==> slot.instance == (if NewConfig(env).Ok? then Some(ClickHouseConfig) else None)
    ensures old(slot.instance).None? && NewConfig(env).Err? ==> r == Err(NewConfig(env).msg)
    ensures old(slot.instance).Some? || NewConfig(env).Ok? ==>
      r == match ClientConfig(env) case Err(e) => Err(e) case Ok(cfg) => connect(cfg)
  {
    var config := slot.GetConfig(env);
    if config.Err? {
      return Err(config.msg);
    }
    var clientConfig := ClientConfig(env);
    if clientConfig.Err? {
      return Err(clientConfig.msg);
    }
    r := connect(clientConfig.value);
  }

  /** `execute_query` as written: failures to create the client are raised
      (`Err`); failures of the query or of the row building are returned as
      an error dictionary. The `readonly` value sent is the one
      `get_readonly_setting` computes as written. */
  method ExecuteQuery(slot: ConfigSlot, env: Env, connect: Connector, server: QueryServer, query: string)
    returns (r: Outcome<ExecuteQueryResult>)
    modifies slot
    ensures old(slot.instance).Some? || NewConfig(env).Ok? ==>
      r == match ClientConfig(env)
           case Err(e) => Err(e)
           case Ok(cfg) =>
             match connect(cfg)
             case Err(e) => Err(e)
             case Ok(client) => Ok(QueryOnClient(client, server, query, ReadonlySettingAsWritten(client.serverSettings)))
    ensures old(slot.instance).None? && NewConfig(env).Err? ==> r == Err(NewConfig(env).msg)
    ensures slot.instance.Some? <==> old(slot.instance).Some? || NewConfig(env).Ok?
  {
    var client := CreateClickhouseClient(slot, env, connect);
    if client.Err? {
      return Err(client.msg);
    }
    var readOnly := ReadonlySettingAsWritten(client.value.serverSettings);
    var result := QueryRows(client.value, server, query, readOnly);
    return Ok(result);
  }

  /** `execute_query` with the corrected `readonly` reading: the same steps,
      but the value sent is never `"0"`. */
  method ExecuteQueryCorrected(slot: ConfigSlot, env: Env, connect: Connector, server: QueryServer, query: string)
    returns (r: Outcome<ExecuteQueryResult>)
    modifies slot
    ensures old(slot.instance).Some? || NewConfig(env).Ok? ==>
      r == match ClientConfig(env)
           case Err(e) => Err(e)
           case Ok(cfg) =>
             match connect(cfg)
             case Err(e) => Err(e)
             case Ok(client) => Ok(QueryOnClient(client, server, query, ReadonlySetting(client.serverSettings)))
    ensures old(slot.instance).None? && NewConfig(env).Err? ==> r == Err(NewConfig(env).msg)
    ensures slot.instance.Some? <==> old(slot.instance).Some? || NewConfig(env).Ok?
  {
    var client := CreateClickhouseClient(slot, env, connect);
    if client.Err? {
      return Err(client.msg);
    }
    var readOnly := ReadonlySetting(client.value.serverSettings);
    var result := QueryRows(client.value, server, query, readOnly);
    return Ok(result);
  }

  /** On a client whose server has `readonly` set to `"0"`, the query as
      written is sent with `readonly="0"`, the corrected one with `"1"`. */
  lemma ZeroServerQueries(client: Client, server: QueryServer, query: string)
    requires "readonly" in client.serverSettings && client.serverSettings["readonly"].value == "0"
    ensures QueryOnClient(client, server, query, ReadonlySettingAsWritten(client.serverSettings))
            == QueryOnClient(client, server, query, "0")
    ensures QueryOnClient(client, server, query, ReadonlySetting(client.serverSettings))
            == QueryOnClient(client, server, query, "1")
  {
  }

  /** What the tool hands back: the row dictionaries, or `{"status": "error", "message": ...}`. */
  datatype ToolReply = RowList(rows: seq<seq<(string, Value)>>) | StatusError(message: string)

  const SelectQueryTimeoutSecs: int := 30

  /** The reply for the worker's outcome: `None` when the 30-second wait ran
      out first, `Err` when `execute_query` raised. */
  function Reply(outcome: Option<Outcome<ExecuteQueryResult>>): (reply: ToolReply)
    ensures outcome.None? ==> reply == StatusError("Query timed out after 30 seconds")
    ensures outcome.Some? && outcome.value.Err? ==> reply == StatusError("Unexpected error: " + outcome.value.msg)
    ensures outcome.Some? && outcome.value.Ok? && outcome.value.value.ErrorDict? ==>
      reply == StatusError("Query failed: " + outcome.value.value.error)
    ensures outcome.Some? && outcome.value.Ok? && outcome.value.value.Rows? ==>
      reply == RowList(outcome.value.value.rows)
  {
    match outcome
    case None =>
      SmallNumbersText();
      assert "Query timed out after " + "30" + " seconds" == "Query timed out after 30 seconds";
      StatusError("Query timed out after " + IntToString(SelectQueryTimeoutSecs) + " seconds")
    case Some(Err(e)) => StatusError("Unexpected error: " + e)
    case Some(Ok(ErrorDict(e))) => StatusError("Query failed: " + e)
    case Some(Ok(Rows(rows))) => RowList(rows)
  }

  /** `run_select_query`; `inTime` says whether the worker finished within
      the deadline. */
  method RunSelectQuery(slot: ConfigSlot, env: Env, connect: Connector, server: QueryServer,
                        query: string, inTime: bool) returns (reply: ToolReply)
    modifies slot
    ensures !inTime ==> reply == StatusError("Query timed out after 30 seconds")
    ensures inTime && (old(slot.instance).Some? || NewConfig(env).Ok?) ==>
      reply == Reply(Some(match ClientConfig(env)
                          case Err(e) => Err(e)
                          case Ok(cfg) =>
                            match connect(cfg)
                            case Err(e) => Err(e)
                            case Ok(client) =>
                              Ok(QueryOnClient(client, server, query, ReadonlySettingAsWritten(client.serverSettings)))))
    ensures inTime && old(slot.instance).None? && NewConfig(env).Err? ==>
      reply == StatusError("Unexpected error: " + NewConfig(env).msg)
  {
    var result := ExecuteQuery(slot, env, connect, server, query);
    if !inTime {
      return Reply(None);
    }
    return Reply(Some(result));
  }

  /** No path of the tool raises: every outcome is a row list or a status
      error, and an error dictionary never reaches the caller as rows. */
  lemma ReplyNeverLeaksErrorDict(outcome: Option<Outcome<ExecuteQueryResult>>)
    ensures Reply(outcome).RowList? <==> outcome.Some? && outcome.value.Ok? && outcome.value.value.Rows?
  {
  }
}
