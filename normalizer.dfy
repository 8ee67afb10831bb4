/** The result normaliser of clickhouse_mcp/func.py: the HTTP transport
    (substitution, request, response parsing by content type) and the native
    result-set classifier, all producing the canonical `QueryResult`. */
module Normalizer {
  import opened Outcomes
  import opened PyStr
  import opened PyValues
  import opened Substitution

  // ---- shared vocabulary ---------------------------------------------------

  /** `[f"column_{i}" for i in range(base, base + n)]`. */
  function ColumnNames(base: nat, n: nat): (names: seq<string>)
    ensures |names| == n
    ensures forall k :: 0 <= k < n ==> names[k] == "column_" + IntToString(base + k)
  {
    seq(n, k requires 0 <= k < n => "column_" + IntToString(base + k))
  }

  /** Every successful result keeps at most `maxRows` rows. */
  predicate WithinLimit(r: QueryResult, maxRows: int) {
    r.data.Some? ==> |r.data.value| <= maxRows
  }

  /** `data` is `rows[:maxRows]` and `row_count` is the count before truncation. */
  predicate TruncatedFrom(r: QueryResult, rows: seq<Row>, maxRows: int) {
    && r.data.Some?
    && |r.data.value| == SliceStop(|rows|, maxRows)
    && r.data.value == rows[..|r.data.value|]
    && r.rowCount == |rows|
  }

  function StrCells(xs: seq<string>): (cells: seq<Value>)
    ensures |cells| == |xs|
    ensures forall k :: 0 <= k < |xs| ==> cells[k] == VStr(xs[k])
  {
    seq(|xs|, k requires 0 <= k < |xs| => VStr(xs[k]))
  }

  /** A one-cell list row `[text]`. */
  function TextRow(text: string): Row {
    Positional(ListKind, [VStr(text)])
  }

  // ---- HTTP JSON ---------------------------------------------------------

  /** A member of a decoded JSON object: absent, `null`, or present with a value. */
  datatype JsonField<+T> = Missing | Null | Present(value: T)

  /** A decoded JSON body: its `data` member (a list of rows) and its `meta`
      member (reduced to the `name` of each entry). */
  datatype JsonDoc = JsonDoc(data: JsonField<seq<Row>>, meta: JsonField<seq<string>>)

  /** What iterating over `None` raises (`TypeError`). */
  const NoneNotIterable: string := "'NoneType' object is not iterable"

  /** What slicing `None` raises (`TypeError`). */
  const NoneNotSubscriptable: string := "'NoneType' object is not subscriptable"

  /** The documents on which `process_clickhouse_result` raises: `data` is
      there, and `meta` or `data` is `null`. */
  predicate HasNullMember(doc: JsonDoc) {
    !doc.data.Missing? && (doc.meta.Null? || doc.data.Null?)
  }

  /** `process_clickhouse_result`; `Err` is the exception it raises. */
  function ProcessClickhouseResult(doc: JsonDoc, maxRows: int): (r: Outcome<QueryResult>)
    ensures r.Err? <==> HasNullMember(doc)
    ensures r.Err? ==> r.msg == (if doc.meta.Null? then NoneNotIterable else NoneNotSubscriptable)
    ensures r.Ok? ==> r.value.success && r.value.error.None?
    ensures doc.data.Missing? ==> r == Ok(EmptySuccess())
    ensures doc.data.Present? && r.Ok? ==> TruncatedFrom(r.value, doc.data.value, maxRows)
    ensures doc.data.Present? && doc.meta.Present? ==> r.Ok? && r.value.columnNames == doc.meta.value
    ensures doc.data.Present? && doc.meta.Missing? ==>
      r.Ok? && r.value.columnNames == (if |doc.data.value| > 0 && doc.data.value[0].Mapping?
                                       then Keys(doc.data.value[0].entries) else [])
  {
    match doc.data
    case Missing => Ok(EmptySuccess())
    case Null => Err(if doc.meta.Null? then NoneNotIterable else NoneNotSubscriptable)
    case Present(rows) =>
      if doc.meta.Null? then Err(NoneNotIterable)
      else
        var columnNames :=
          if doc.meta.Present? then doc.meta.value
          else if |rows| > 0 then (if rows[0].Mapping? then Keys(rows[0].entries) else [])
          else [];
        Ok(QueryResult(true, Some(Prefix(rows, maxRows)), None, |rows|, columnNames))
  }

  // ---- HTTP TSV ----------------------------------------------------------

  /** A line containing a tab is split on tabs; any other line is one cell. */
  function TsvRow(line: string): Row {
    if '\t' in line then Positional(ListKind, StrCells(Split(line, '\t')))
    else TextRow(line)
  }

  /** The non-blank lines, in order. */
  function NonBlank(lines: seq<string>): (kept: seq<string>)
    ensures |kept| <= |lines|
    ensures forall k :: 0 <= k < |kept| ==> !IsBlank(kept[k])
  {
    if |lines| == 0 then []
    else NonBlank(lines[..|lines| - 1]) + (if IsBlank(lines[|lines| - 1]) then [] else [lines[|lines| - 1]])
  }

  /** The rows the TSV loop appends: one per non-blank line. */
  function TsvRows(lines: seq<string>): seq<Row>
  {
    if |lines| == 0 then []
    else
      var last := lines[|lines| - 1];
      TsvRows(lines[..|lines| - 1]) + (if IsBlank(last) then [] else [TsvRow(last)])
  }

  /** A non-blank line holding a tab. */
  predicate IsTabLine(line: string) {
    !IsBlank(line) && '\t' in line
  }

  /** One line's effect on `column_names`: while only `value` is known, a
      tab line with more fields replaces it by synthetic names. */
  function ColumnsAfter(names: seq<string>, line: string): seq<string> {
    if IsTabLine(line) && |names| == 1 && |names| < |Split(line, '\t')|
    then ColumnNames(1, |Split(line, '\t')|)
    else names
  }

  /** How the loop updates `column_names` after reading `lines`, from `init`. */
  function TsvColumnsFrom(lines: seq<string>, init: seq<string>): seq<string>
  {
    if |lines| == 0 then init
    else ColumnsAfter(TsvColumnsFrom(lines[..|lines| - 1], init), lines[|lines| - 1])
  }

  /** `column_names` after the loop: it starts as `["value"]` when there are lines. */
  function TsvColumns(lines: seq<string>): seq<string> {
    TsvColumnsFrom(lines, if |lines| > 0 then ["value"] else [])
  }

  lemma TsvStep(lines: seq<string>, i: nat, init: seq<string>)
    requires i < |lines|
    ensures TsvRows(lines[..i + 1]) ==
      TsvRows(lines[..i]) + (if IsBlank(lines[i]) then [] else [TsvRow(lines[i])])
    ensures TsvColumnsFrom(lines[..i + 1], init) == ColumnsAfter(TsvColumnsFrom(lines[..i], init), lines[i])
  {
    assert lines[..i + 1][..i] == lines[..i];
  }

  /** The record the multi-line TSV branch returns. */
  function TsvResult(lines: seq<string>, maxRows: int): QueryResult {
    var rows := TsvRows(lines);
    QueryResult(true, Some(Prefix(rows, maxRows)), None, |rows|, TsvColumns(lines))
  }

  /** The loop over the lines of a multi-line TSV body (func.py:90-112). */
  method ParseTsvLines(lines: seq<string>, maxRows: int) returns (r: QueryResult)
    ensures r == TsvResult(lines, maxRows)
  {
    var rows: seq<Row> := [];
    var columnNames: seq<string> := if |lines| > 0 then ["value"] else [];
    ghost var init := columnNames;
    var i := 0;
    while i < |lines|
      invariant 0 <= i <= |lines|
      invariant rows == TsvRows(lines[..i])
      invariant columnNames == TsvColumnsFrom(lines[..i], init)
    {
      var line := lines[i];
      TsvStep(lines, i, init);
      if Strip(line) != [] {
        if '\t' in line {
          var rowValues := Split(line, '\t');
          rows := rows + [Positional(ListKind, StrCells(rowValues))];
          if |columnNames| == 1 && |columnNames| < |rowValues| {
            columnNames := ColumnNames(1, |rowValues|);
          }
        } else {
          rows := rows + [TextRow(line)];
        }
      }
      i := i + 1;
    }
    assert lines[..|lines|] == lines;
    r := QueryResult(true, Some(Prefix(rows, maxRows)), None, |rows|, columnNames);
  }

  /** The TSV branch on the stripped body (func.py:71-112). */
  function TsvBranch(text: string, maxRows: int): QueryResult {
    if text == [] then EmptySuccess()
    else
      var lines := Split(text, '\n');
      if |lines| == 1 && '\t' !in lines[0] then QueryResult(true, Some([TextRow(lines[0])]), None, 1, ["result"])
      else TsvResult(lines, maxRows)
  }

  /** The branch for any other text on the stripped body (func.py:115-139). */
  function PlainBranch(text: string, maxRows: int): QueryResult {
    if text == [] then EmptySuccess()
    else if '\n' !in text then QueryResult(true, Some([TextRow(text)]), None, 1, ["result"])
    else
      var lines := NonBlank(Split(text, '\n'));
      var shown := Prefix(lines, maxRows);
      QueryResult(true, Some(seq(|shown|, k requires 0 <= k < |shown| => TextRow(shown[k]))), None,
                  |lines|, ["result"])
  }

  // ---- HTTP transport ----------------------------------------------------

  /** What came back from the server: the `Content-Type` header if any, the
      body text, and what `response.json()` gives (`Err` for a body that is not JSON). */
  datatype HttpResponse = HttpResponse(contentType: Option<string>, text: string, json: Outcome<JsonDoc>)

  /** The GET request: its URL and query-string parameters. */
  datatype HttpRequest = HttpRequest(
    url: string,
    query: string,
    user: string,
    password: string,
    database: string,
    defaultFormat: Option<string>,
    maxResultRows: Option<string>)

  /** The server as seen from the client: `requests.get` followed by
      `raise_for_status`, which either raises (`Err`) or yields a response. */
  type HttpServer = HttpRequest -> Outcome<HttpResponse>

  /** `process_clickhouse_response`: dispatch on the lower-cased content type. */
  function ProcessClickhouseResponseSpec(response: HttpResponse, maxRows: int): QueryResult {
    var contentType := Lower(response.contentType.GetOr(""));
    if Contains(contentType, "json") && response.json.Ok? then
      match ProcessClickhouseResult(response.json.value, maxRows)
      case Ok(r) => r
      case Err(e) => Failure(e)
    else if Contains(contentType, "text/tab-separated-values") || Contains(contentType, "tsv") then
      TsvBranch(Strip(response.text), maxRows)
    else
      PlainBranch(Strip(response.text), maxRows)
  }

  method ProcessClickhouseResponse(response: HttpResponse, maxRows: int) returns (r: QueryResult)
    ensures r == ProcessClickhouseResponseSpec(response, maxRows)
  {
    var contentType := Lower(response.contentType.GetOr(""));
    if Contains(contentType, "json") && response.json.Ok? {
      var processed := ProcessClickhouseResult(response.json.value, maxRows);
      if processed.Err? {
        return Failure(processed.msg);
      }
      return processed.value;
    }
    var text := Strip(response.text);
    if Contains(contentType, "text/tab-separated-values") || Contains(contentType, "tsv") {
      if text == [] {
        return EmptySuccess();
      }
      var lines := Split(text, '\n');
      if |lines| == 1 && '\t' !in lines[0] {
        return QueryResult(true, Some([TextRow(lines[0])]), None, 1, ["result"]);
      }
      r := ParseTsvLines(lines, maxRows);
      return;
    }
    return PlainBranch(text, maxRows);
  }

  /** The request func.py's `execute_http_query` sends for an already substituted statement. */
  function FuncRequest(host: string, port: int, database: string, query: string,
                       username: string, password: string, maxRows: int): HttpRequest
  {
    HttpRequest("http://" + host + ":" + IntToString(port) + "/", query, username, password,
                database, Some("JSONCompact"), Some(IntToString(maxRows)))
  }

  /** What func.py's `execute_http_query` returns for a given server. */
  function ExecuteHttpQuerySpec(host: string, port: int, database: string, query: string,
                                username: string, password: string,
                                params: seq<(string, Value)>, maxRows: int,
                                server: HttpServer): QueryResult
  {
    match server(FuncRequest(host, port, database, Substituted(query, params), username, password, maxRows))
    case Err(e) => Failure(e)
    case Ok(response) => ProcessClickhouseResponseSpec(response, maxRows)
  }

  /** func.py's `execute_http_query`: substitute, send, normalise; a failed
      request becomes a failure record carrying `str(e)`. */
  method ExecuteHttpQuery(host: string, port: int, database: string, query: string,
                          username: string, password: string,
                          params: seq<(string, Value)>, maxRows: int,
                          server: HttpServer) returns (r: QueryResult)
    ensures r == ExecuteHttpQuerySpec(host, port, database, query, username, password, params, maxRows, server)
  {
    var q := SubstituteParams(query, params);
    var request := HttpRequest("http://" + host + ":" + IntToString(port) + "/", q, username, password,
                               database, Some("JSONCompact"), Some(IntToString(maxRows)));
    var answer := server(request);
    match answer {
      case Err(e) => r := Failure(e);
      case Ok(response) => r := ProcessClickhouseResponse(response, maxRows);
    }
  }

  // ---- native result sets ------------------------------------------------

  /** A value that is not a Python list. */
  type NonList = v: Value | !(v.VSeq? && v.kind == ListKind) witness VNone

  /** What the native driver's `execute` returned: a list of rows, or some
      other object (a row count, for example). */
  datatype NativeResult = RowSet(rows: seq<Row>) | Bare(value: NonList)

  /** The one-cell rows of the scalar-list branch, `[[item] for item in rows]`. */
  function Boxed(rows: seq<Row>): (boxed: seq<Row>)
    ensures |boxed| == |rows|
    ensures forall k :: 0 <= k < |rows| ==> boxed[k] == Positional(ListKind, [RowValue(rows[k])])
  {
    seq(|rows|, k requires 0 <= k < |rows| => Positional(ListKind, [RowValue(rows[k])]))
  }

  const DescribeColumns: seq<string> := ["name", "type", "default_type", "default_expression"]

  predicate IsShowQuery(queryLower: string) {
    StartsWith(queryLower, "show") || StartsWith(queryLower, "describe") || StartsWith(queryLower, "desc")
  }

  /** `process_native_result`. */
  function ProcessNativeResult(resultSet: NativeResult, queryLower: string, maxRows: int): (r: QueryResult)
    ensures r.success && r.error.None?
    // a falsy result (None, 0, "", an empty list) is an empty success
    ensures (resultSet.Bare? && !Truthy(resultSet.value)) || resultSet == RowSet([]) ==> r == EmptySuccess()
    // any other non-list object becomes one text cell under "result"
    ensures resultSet.Bare? && Truthy(resultSet.value) ==>
      r == QueryResult(true, Some([TextRow(Show(resultSet.value))]), None, 1, ["result"])
    ensures resultSet.RowSet? && |resultSet.rows| > 0 ==> r.rowCount == |resultSet.rows|
    // SHOW / DESCRIBE with positional rows: rows kept, preset column names
    ensures resultSet.RowSet? && |resultSet.rows| > 0 && IsShowQuery(queryLower) && resultSet.rows[0].Positional? ==>
      && TruncatedFrom(r, resultSet.rows, maxRows)
      && r.columnNames == (if StartsWith(queryLower, "show tables") then ["table_name"]
                           else if StartsWith(queryLower, "desc") then DescribeColumns
                           else ColumnNames(0, |resultSet.rows[0].cells|))
    // SHOW / DESCRIBE with other rows: each one boxed in a one-cell row under "value"
    ensures resultSet.RowSet? && |resultSet.rows| > 0 && IsShowQuery(queryLower) && !resultSet.rows[0].Positional? ==>
      r.data == Some(Boxed(Prefix(resultSet.rows, maxRows))) && r.columnNames == ["value"]
    // SELECT and the rest: rows kept, mapping keys or zero-based synthetic names
    ensures resultSet.RowSet? && |resultSet.rows| > 0 && !IsShowQuery(queryLower) ==>
      && TruncatedFrom(r, resultSet.rows, maxRows)
      && r.columnNames == (match resultSet.rows[0]
                           case Mapping(e) => Keys(e)
                           case Positional(_, cells) => ColumnNames(0, |cells|)
                           case Scalar(_) => ColumnNames(0, 1))
  {
    match resultSet
    case Bare(v) =>
      if !Truthy(v) then EmptySuccess()
      else QueryResult(true, Some([TextRow(Show(v))]), None, 1, ["result"])
    case RowSet(rows) =>
      if |rows| == 0 then EmptySuccess()
      else if IsShowQuery(queryLower) then
        if rows[0].Positional? then
          var columnNames :=
            if StartsWith(queryLower, "show tables") then ["table_name"]
            else if StartsWith(queryLower, "describe") || StartsWith(queryLower, "desc") then DescribeColumns
            else ColumnNames(0, |rows[0].cells|);
          QueryResult(true, Some(Prefix(rows, maxRows)), None, |rows|, columnNames)
        else
          QueryResult(true, Some(Boxed(Prefix(rows, maxRows))), None, |rows|, ["value"])
      else if rows[0].Mapping? then
        QueryResult(true, Some(Prefix(rows, maxRows)), None, |rows|, Keys(rows[0].entries))
      else
        var numCols := if rows[0].Positional? then |rows[0].cells| else 1;
        QueryResult(true, Some(Prefix(rows, maxRows)), None, |rows|, ColumnNames(0, numCols))
  }

  // ---- properties --------------------------------------------------------

  /** The synthetic names are pairwise distinct. */
  lemma ColumnNamesDistinct(base: nat, n: nat, a: nat, b: nat)
    requires a < b < n
    ensures ColumnNames(base, n)[a] != ColumnNames(base, n)[b]
  {
    var names := ColumnNames(base, n);
    if names[a] == names[b] {
      assert IntToString(base + a) == names[a][7..] && IntToString(base + b) == names[b][7..];
      IntToStringInjective(base + a, base + b);
    }
  }

  /** The TSV path numbers its synthetic columns from 1, the native path from 0:
      the same width gives different names, one shifted against the other. */
  lemma SyntheticNamesDiverge(n: nat)
    requires n > 0
    ensures ColumnNames(1, n) == ColumnNames(0, n + 1)[1..]
    ensures ColumnNames(1, n) != ColumnNames(0, n)
  {
    assert IntToString(1) == "1" && IntToString(0) == "0";
    assert ColumnNames(1, n)[0] == "column_1" && ColumnNames(0, n)[0] == "column_0";
    assert "column_1"[7] != "column_0"[7];
  }

  /** The text of each cell of a row, as `str()` shows it. */
  function CellTexts(r: Row): seq<string>
    requires r.Positional?
  {
    seq(|r.cells|, k requires 0 <= k < |r.cells| => Show(r.cells[k]))
  }

  /** Joining the cells of a TSV row with tabs gives back its line. */
  lemma TsvRowRoundTrip(line: string)
    ensures TsvRow(line).Positional?
    ensures Join(CellTexts(TsvRow(line)), "\t") == line
  {
    if '\t' in line {
      var pieces := Split(line, '\t');
      assert CellTexts(TsvRow(line)) == pieces;
      JoinSplit(line, '\t');
    } else {
      assert CellTexts(TsvRow(line)) == [line];
    }
  }

  /** One TSV row per line, in order. */
  function TsvRowsOf(ls: seq<string>): (rows: seq<Row>)
    ensures |rows| == |ls|
    ensures forall k :: 0 <= k < |ls| ==> rows[k] == TsvRow(ls[k])
  {
    seq(|ls|, k requires 0 <= k < |ls| => TsvRow(ls[k]))
  }

  lemma TsvRowsOfSnoc(ls: seq<string>, x: string)
    ensures TsvRowsOf(ls + [x]) == TsvRowsOf(ls) + [TsvRow(x)]
  {
    var a, b := TsvRowsOf(ls + [x]), TsvRowsOf(ls) + [TsvRow(x)];
    forall k | 0 <= k < |a| ensures a[k] == b[k] {
      if k < |ls| { assert (ls + [x])[k] == ls[k]; }
    }
  }

  /** The TSV loop keeps exactly the non-blank lines, one row each, in order. */
  lemma {:induction false} TsvRowsOfNonBlank(lines: seq<string>)
    ensures TsvRows(lines) == TsvRowsOf(NonBlank(lines))
  {
    if |lines| > 0 {
      var init, last := lines[..|lines| - 1], lines[|lines| - 1];
      assert TsvRows(init) == TsvRowsOf(NonBlank(init)) by {
        TsvRowsOfNonBlank(init);
      }
      if !IsBlank(last) {
        assert NonBlank(lines) == NonBlank(init) + [last];
        TsvRowsOfSnoc(NonBlank(init), last);
      }
    }
  }

  lemma {:induction false} TsvColumnsNoTabFrom(lines: seq<string>)
    requires forall k :: 0 <= k < |lines| ==> !IsTabLine(lines[k])
    ensures TsvColumnsFrom(lines, ["value"]) == ["value"]
  {
    if |lines| > 0 {
      TsvColumnsNoTabFrom(lines[..|lines| - 1]);
    }
  }

  /** Without a non-blank line holding a tab, the only column is `value`. */
  lemma TsvColumnsNoTab(lines: seq<string>)
    requires |lines| > 0
    requires forall k :: 0 <= k < |lines| ==> !IsTabLine(lines[k])
    ensures TsvColumns(lines) == ["value"]
  {
    TsvColumnsNoTabFrom(lines);
  }

  lemma ColumnsAfterFirstTab(line: string)
    requires IsTabLine(line)
    ensures ColumnsAfter(["value"], line) == ColumnNames(1, |Split(line, '\t')|)
  {
    SplitWide(line, '\t');
  }

  lemma ColumnsAfterWide(names: seq<string>, line: string)
    requires |names| != 1
    ensures ColumnsAfter(names, line) == names
  {
  }

  /** Columns that are no longer just `value` stay as they are. */
  lemma {:induction false} TsvColumnsStay(lines: seq<string>, m: nat, init: seq<string>)
    requires m <= |lines|
    requires |TsvColumnsFrom(lines[..m], init)| != 1
    ensures TsvColumnsFrom(lines, init) == TsvColumnsFrom(lines[..m], init)
  {
    if m < |lines| {
      var front := lines[..|lines| - 1];
      assert front[..m] == lines[..m];
      TsvColumnsStay(front, m, init);
      ColumnsAfterWide(TsvColumnsFrom(front, init), lines[|lines| - 1]);
    } else {
      assert lines[..m] == lines;
    }
  }

  /** The first non-blank line holding a tab fixes the columns for good:
      `column_1` ... `column_n`, one per field of that line. */
  lemma TsvColumnsFirstTab(lines: seq<string>, j: nat)
    requires j < |lines|
    requires IsTabLine(lines[j])
    requires forall k :: 0 <= k < j ==> !IsTabLine(lines[k])
    ensures TsvColumns(lines) == ColumnNames(1, |Split(lines[j], '\t')|)
  {
    var n := |Split(lines[j], '\t')|;
    assert n >= 2 by { SplitWide(lines[j], '\t'); }
    assert TsvColumnsFrom(lines[..j + 1], ["value"]) == ColumnNames(1, n) by {
      TsvStep(lines, j, ["value"]);
      forall k | 0 <= k < |lines[..j]| ensures !IsTabLine(lines[..j][k]) {
        assert lines[..j][k] == lines[k];
      }
      TsvColumnsNoTabFrom(lines[..j]);
      ColumnsAfterFirstTab(lines[j]);
    }
    TsvColumnsStay(lines, j + 1, ["value"]);
  }

  /** With a limit of at least one the HTTP normaliser keeps at most
      `maxRows` rows, and it fails only on a JSON document with a `null`
      member, which it reports with the exception's message. */
  lemma ResponseWithinLimit(response: HttpResponse, maxRows: int)
    requires maxRows >= 1
    ensures var r := ProcessClickhouseResponseSpec(response, maxRows);
      !r.success <==>
        Contains(Lower(response.contentType.GetOr("")), "json") && response.json.Ok? && HasNullMember(response.json.value)
    ensures var r := ProcessClickhouseResponseSpec(response, maxRows);
      !r.success ==> r == Failure(ProcessClickhouseResult(response.json.value, maxRows).msg)
    ensures WithinLimit(ProcessClickhouseResponseSpec(response, maxRows), maxRows)
  {
    TsvWithinLimit(Strip(response.text), maxRows);
    PlainWithinLimit(Strip(response.text), maxRows);
  }

  lemma TsvWithinLimit(text: string, maxRows: int)
    requires maxRows >= 1
    ensures TsvBranch(text, maxRows).success && WithinLimit(TsvBranch(text, maxRows), maxRows)
  {
    if text != [] {
      var lines := Split(text, '\n');
      if !(|lines| == 1 && '\t' !in lines[0]) {
        assert TsvBranch(text, maxRows) == TsvResult(lines, maxRows);
      }
    }
  }

  lemma PlainWithinLimit(text: string, maxRows: int)
    requires maxRows >= 1
    ensures PlainBranch(text, maxRows).success && WithinLimit(PlainBranch(text, maxRows), maxRows)
  {
  }

  /** `{"data": null}` served as JSON raises inside the parser, and the
      handler turns that into a failure carrying the exception's text. */
  lemma NullDataIsAFailure(response: HttpResponse, maxRows: int)
    requires Contains(Lower(response.contentType.GetOr("")), "json")
    requires response.json == Ok(JsonDoc(Null, Missing))
    ensures ProcessClickhouseResponseSpec(response, maxRows) == Failure("'NoneType' object is not subscriptable")
  {
  }

  /** A limit of zero keeps no row on a truncating path, while `row_count`
      still reports every row. */
  lemma ZeroLimitKeepsNoRow(rows: seq<Row>, meta: seq<string>)
    ensures ProcessClickhouseResult(JsonDoc(Present(rows), Present(meta)), 0)
            == Ok(QueryResult(true, Some([]), None, |rows|, meta))
  {
  }

  /** A negative limit counts from the end, as a Python slice does:
      `rows[:-1]` drops the last row. */
  lemma NegativeLimitDropsLast(rows: seq<Row>)
    requires |rows| > 0
    ensures ProcessClickhouseResult(JsonDoc(Present(rows), Missing), -1).value.data == Some(rows[..|rows| - 1])
  {
  }

  lemma NativeWithinLimit(resultSet: NativeResult, queryLower: string, maxRows: int)
    requires maxRows >= 1
    ensures WithinLimit(ProcessNativeResult(resultSet, queryLower, maxRows), maxRows)
  {
  }

  /** `SELECT 1` through the native driver: one tuple row, one synthetic
      column numbered from zero. */
  lemma NativeSelectOne(maxRows: int)
    requires maxRows >= 1
    ensures ProcessNativeResult(RowSet([Positional(TupleKind, [VInt(1)])]), "select 1", maxRows)
            == QueryResult(true, Some([Positional(TupleKind, [VInt(1)])]), None, 1, ["column_0"])
  {
    var q := "select 1";
    assert q[..4] == "sele" && q[..8] == q;
    assert !IsShowQuery(q);
    assert IntToString(0) == "0";
    var rows := [Positional(TupleKind, [VInt(1)])];
    assert Prefix(rows, maxRows) == rows;
    assert ColumnNames(0, 1)[0] == "column_0";
    assert ColumnNames(0, 1) == ["column_0"];
  }

  /** The list `[1]` that the native driver may return for `SELECT 1`: one
      scalar row kept as it is, under the zero-based name `column_0`. */
  lemma NativeScalarSelectOne(maxRows: int)
    requires maxRows >= 1
    ensures ProcessNativeResult(RowSet([Scalar(VInt(1))]), "select 1", maxRows)
            == QueryResult(true, Some([Scalar(VInt(1))]), None, 1, ["column_0"])
  {
    var q := "select 1";
    assert q[..4] == "sele" && q[..8] == q;
    assert !IsShowQuery(q);
    assert IntToString(0) == "0";
    var rows := [Scalar(VInt(1))];
    assert Prefix(rows, maxRows) == rows;
    assert ColumnNames(0, 1)[0] == "column_0";
    assert ColumnNames(0, 1) == ["column_0"];
  }

  /** A TSV body that is blank gives an empty success; one line without a tab
      gives that line as the single row under `result`. */
  lemma TsvShortBodies(response: HttpResponse, maxRows: int)
    requires !Contains(Lower(response.contentType.GetOr("")), "json")
    requires Contains(Lower(response.contentType.GetOr("")), "tsv")
    ensures (forall k :: 0 <= k < |response.text| ==> IsSpace(response.text[k])) ==>
      ProcessClickhouseResponseSpec(response, maxRows) == EmptySuccess()
    ensures var text := Strip(response.text);
      text != [] && '\n' !in text && '\t' !in text ==>
      ProcessClickhouseResponseSpec(response, maxRows)
        == QueryResult(true, Some([TextRow(text)]), None, 1, ["result"])
  {
    var text := Strip(response.text);
    if text != [] && '\n' !in text {
      assert Split(text, '\n') == [text];
    }
  }
}
