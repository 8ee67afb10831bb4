/** `format_query_results` of clickhouse_mcp/func.py: the text handed back
    to the assistant, a tab-separated header line, one line per kept row and
    a summary line, all joined by newlines. */
module Formatter {
  import opened Outcomes
  import opened PyStr
  import opened PyValues
  import opened Normalizer

  /** How the rows are rendered, chosen by the shape of the first row. */
  datatype Layout = ByName | ByPosition | AsText

  function LayoutOf(first: Row): Layout {
    match first
    case Mapping(_) => ByName
    case Positional(ListKind, _) => ByPosition
    case _ => AsText
  }

  /** `str(row.get(col, ''))` for each column name. */
  function NamedCells(entries: seq<(string, Value)>, columnNames: seq<string>): (texts: seq<string>)
    ensures |texts| == |columnNames|
    ensures forall k :: 0 <= k < |columnNames| && columnNames[k] !in Keys(entries) ==> texts[k] == ""
    ensures forall k :: 0 <= k < |columnNames| && columnNames[k] in Keys(entries) ==>
      texts[k] == Show(Lookup(entries, columnNames[k]).value)
  {
    seq(|columnNames|, k requires 0 <= k < |columnNames| =>
      match Lookup(entries, columnNames[k])
      case Some(v) => Show(v)
      case None => "")
  }

  /** `str(cell)` for each cell of a list or tuple. */
  function ShownCells(cells: seq<Value>): (texts: seq<string>)
    ensures |texts| == |cells|
    ensures forall k :: 0 <= k < |cells| ==> texts[k] == Show(cells[k])
  {
    seq(|cells|, k requires 0 <= k < |cells| => Show(cells[k]))
  }

  /** The one-character strings a Python string iterates over. */
  function Chars(s: string): (cs: seq<string>)
    ensures |cs| == |s|
    ensures forall k :: 0 <= k < |s| ==> cs[k] == [s[k]]
  {
    seq(|s|, k requires 0 <= k < |s| => [s[k]])
  }

  /** A data line of a table whose first row is a dictionary: `get` is
      called once per column name, so a row without `get` raises
      `AttributeError` unless there are no column names at all. */
  function ByNameLine(row: Row, columnNames: seq<string>): Outcome<string> {
    match row
    case Mapping(entries) => Ok(Join(NamedCells(entries, columnNames), "\t"))
    case _ =>
      if columnNames == [] then Ok("")
      else Err("'" + TypeName(RowValue(row)) + "' object has no attribute 'get'")
  }

  /** A data line of a table whose first row is a list: every row is iterated
      (a dictionary gives its keys, a string its characters); a row that is
      not iterable raises `TypeError`. */
  function ByPositionLine(row: Row): Outcome<string> {
    match row
    case Mapping(entries) => Ok(Join(Keys(entries), "\t"))
    case Positional(_, cells) => Ok(Join(ShownCells(cells), "\t"))
    case Scalar(v) =>
      if v.VStr? then Ok(Join(Chars(v.s), "\t"))
      else Err("'" + TypeName(v) + "' object is not iterable")
  }

  function LineOf(layout: Layout, row: Row, columnNames: seq<string>): Outcome<string> {
    match layout
    case ByName => ByNameLine(row, columnNames)
    case ByPosition => ByPositionLine(row)
    case AsText => Ok(Show(RowValue(row)))
  }

  /** The data lines in row order; the first row that raises ends the
      rendering with its error. */
  function DataLines(layout: Layout, rows: seq<Row>, columnNames: seq<string>): (r: Outcome<seq<string>>)
    ensures r.Ok? <==> forall k :: 0 <= k < |rows| ==> LineOf(layout, rows[k], columnNames).Ok?
    ensures r.Ok? ==> |r.value| == |rows|
    ensures r.Ok? ==> forall k :: 0 <= k < |rows| ==> r.value[k] == LineOf(layout, rows[k], columnNames).value
  {
    if |rows| == 0 then Ok([])
    else
      var front := rows[..|rows| - 1];
      var last := rows[|rows| - 1];
      match DataLines(layout, front, columnNames)
      case Err(e) =>
        assert forall k :: 0 <= k < |front| ==> front[k] == rows[k];
        Err(e)
      case Ok(lines) =>
        var line := LineOf(layout, last, columnNames);
        if line.Err? then Err(line.msg)
        else
          assert forall k :: 0 <= k < |front| ==> front[k] == rows[k];
          Ok(lines + [line.value])
  }

  function Footer(rowCount: nat, shown: nat): string {
    "Total rows: " + IntToString(rowCount) + " (showing first " + IntToString(shown) + ")"
  }

  /** The text `format_query_results` returns, or the exception it raises. */
  function FormatSpec(result: QueryResult): Outcome<string> {
    if !result.success then Ok("Error executing query: " + ShowOpt(result.error))
    else if result.error.Some? && result.error.value != "" then Ok("Error: " + result.error.value)
    else if result.data.None? || |result.data.value| == 0 then
      Ok("Query executed. Rows returned: " + IntToString(result.rowCount))
    else
      var data := result.data.value;
      match DataLines(LayoutOf(data[0]), data, result.columnNames)
      case Err(e) => Err(e)
      case Ok(lines) =>
        Ok(Join([Join(result.columnNames, "\t")] + lines + ["", Footer(result.rowCount, |data|)], "\n"))
  }

  method FormatQueryResults(result: QueryResult) returns (out: Outcome<string>)
    ensures out == FormatSpec(result)
  {
    if !result.success {
      return Ok("Error executing query: " + ShowOpt(result.error));
    }
    if result.error.Some? && result.error.value != "" {
      return Ok("Error: " + result.error.value);
    }
    if result.data.None? || |result.data.value| == 0 {
      return Ok("Query executed. Rows returned: " + IntToString(result.rowCount));
    }
    var data := result.data.value;
    var columnNames := result.columnNames;
    var layout := LayoutOf(data[0]);
    var outputLines := [Join(columnNames, "\t")];
    var i := 0;
    while i < |data|
      invariant 0 <= i <= |data|
      invariant DataLines(layout, data[..i], columnNames).Ok?
      invariant outputLines == [Join(columnNames, "\t")] + DataLines(layout, data[..i], columnNames).value
    {
      var line := LineOf(layout, data[i], columnNames);
      if line.Err? {
        ErrorIsFirst(layout, data, columnNames, i);
        return Err(line.msg);
      }
      DataLinesStep(layout, data, columnNames, i);
      outputLines := outputLines + [line.value];
      i := i + 1;
    }
    assert data[..|data|] == data;
    outputLines := outputLines + ["", Footer(result.rowCount, |data|)];
    out := Ok(Join(outputLines, "\n"));
  }

  lemma DataLinesStep(layout: Layout, rows: seq<Row>, columnNames: seq<string>, i: nat)
    requires i < |rows|
    requires DataLines(layout, rows[..i], columnNames).Ok?
    requires LineOf(layout, rows[i], columnNames).Ok?
    ensures DataLines(layout, rows[..i + 1], columnNames)
            == Ok(DataLines(layout, rows[..i], columnNames).value + [LineOf(layout, rows[i], columnNames).value])
  {
    assert rows[..i + 1][..i] == rows[..i];
  }

  /** When the rows before `i` render and row `i` does not, the rendering
      fails with the error of row `i`. */
  lemma {:induction false} ErrorIsFirst(layout: Layout, rows: seq<Row>, columnNames: seq<string>, i: nat)
    requires i < |rows|
    requires DataLines(layout, rows[..i], columnNames).Ok?
    requires LineOf(layout, rows[i], columnNames).Err?
    ensures DataLines(layout, rows, columnNames) == Err(LineOf(layout, rows[i], columnNames).msg)
    decreases |rows|
  {
    var front := rows[..|rows| - 1];
    if i == |rows| - 1 {
      assert front == rows[..i];
    } else {
      assert front[..i] == rows[..i] && front[i] == rows[i];
      ErrorIsFirst(layout, front, columnNames, i);
    }
  }

  // ---- properties --------------------------------------------------------

  /** A failure record is reported with its message. */
  lemma FailureIsReported(msg: string)
    ensures FormatSpec(Failure(msg)) == Ok("Error executing query: " + msg)
  {
  }

  /** A successful record whose rows render is laid out as header line, data
      lines, an empty line and the summary. */
  lemma FormatLayout(result: QueryResult, lines: seq<string>)
    requires result.success && (result.error.None? || result.error.value == "")
    requires result.data.Some? && |result.data.value| > 0
    requires DataLines(LayoutOf(result.data.value[0]), result.data.value, result.columnNames) == Ok(lines)
    ensures FormatSpec(result).Ok?
    ensures StartsWith(FormatSpec(result).value, Join(result.columnNames, "\t") + "\n")
    ensures EndsWith(FormatSpec(result).value, "\n\n" + Footer(result.rowCount, |result.data.value|))
  {
    var header := Join(result.columnNames, "\t");
    var footer := Footer(result.rowCount, |result.data.value|);
    assert FormatSpec(result) == Ok(Join([header] + lines + ["", footer], "\n"));
    JoinLayout(header, lines, footer);
  }

  lemma JoinLayout(header: string, lines: seq<string>, footer: string)
    ensures StartsWith(Join([header] + lines + ["", footer], "\n"), header + "\n")
    ensures EndsWith(Join([header] + lines + ["", footer], "\n"), "\n\n" + footer)
  {
    var body := [header] + lines;
    var text := Join(body + ["", footer], "\n");
    assert body + ["", footer] == (body + [""]) + [footer];
    JoinSnoc(body + [""], footer, "\n");
    JoinSnoc(body, "", "\n");
    assert text == Join(body, "\n") + "\n" + "" + "\n" + footer;
    assert text == Join(body, "\n") + ("\n\n" + footer);
    assert body + ["", footer] == [header] + (lines + ["", footer]);
    JoinSnocHead(header, lines + ["", footer], "\n");
  }

  lemma JoinSnocHead(x: string, ys: seq<string>, sep: string)
    requires |ys| > 0
    ensures StartsWith(Join([x] + ys, sep), x + sep)
  {
    assert ([x] + ys)[1..] == ys;
  }

  lemma NoNewlineInFooter(rowCount: nat, shown: nat)
    ensures '\n' !in Footer(rowCount, shown)
  {
    var a, b := IntToString(rowCount), IntToString(shown);
    assert forall k :: 0 <= k < |a| ==> IsDigit(a[k]);
    assert forall k :: 0 <= k < |b| ==> IsDigit(b[k]);
  }

  /** When no line holds a newline, splitting the text on newlines gives the
      header, the data lines, an empty line and the summary back. */
  lemma FormatSplits(result: QueryResult, lines: seq<string>)
    requires result.success && (result.error.None? || result.error.value == "")
    requires result.data.Some? && |result.data.value| > 0
    requires DataLines(LayoutOf(result.data.value[0]), result.data.value, result.columnNames) == Ok(lines)
    requires '\n' !in Join(result.columnNames, "\t")
    requires forall k :: 0 <= k < |lines| ==> '\n' !in lines[k]
    ensures Split(FormatSpec(result).value, '\n') ==
      [Join(result.columnNames, "\t")] + lines + ["", Footer(result.rowCount, |result.data.value|)]
  {
    var header := Join(result.columnNames, "\t");
    var footer := Footer(result.rowCount, |result.data.value|);
    assert FormatSpec(result) == Ok(Join([header] + lines + ["", footer], "\n"));
    NoNewlineInFooter(result.rowCount, |result.data.value|);
    SplitLayout(header, lines, footer);
  }

  lemma SplitLayout(header: string, lines: seq<string>, footer: string)
    requires '\n' !in header && '\n' !in footer
    requires forall k :: 0 <= k < |lines| ==> '\n' !in lines[k]
    ensures Split(Join([header] + lines + ["", footer], "\n"), '\n') == [header] + lines + ["", footer]
  {
    NoNewlineParts(header, lines, footer);
    SplitJoin([header] + lines + ["", footer], '\n');
  }

  lemma NoNewlineParts(header: string, lines: seq<string>, footer: string)
    requires '\n' !in header && '\n' !in footer
    requires forall k :: 0 <= k < |lines| ==> '\n' !in lines[k]
    ensures forall k :: 0 <= k < |[header] + lines + ["", footer]| ==> '\n' !in ([header] + lines + ["", footer])[k]
  {
    var all := [header] + lines + ["", footer];
    forall k | 0 <= k < |all| ensures '\n' !in all[k] {
      if 1 <= k <= |lines| { assert all[k] == lines[k - 1]; }
    }
  }

  /** The rows the TSV normaliser builds render back to the lines they came from. */
  lemma TsvLinesRenderBack(ls: seq<string>, rows: seq<Row>, columnNames: seq<string>)
    requires |rows| == |ls|
    requires forall k :: 0 <= k < |ls| ==> rows[k] == TsvRow(ls[k])
    ensures |rows| > 0 ==> LayoutOf(rows[0]) == ByPosition
    ensures DataLines(ByPosition, rows, columnNames) == Ok(ls)
  {
    forall k | 0 <= k < |ls| ensures LineOf(ByPosition, rows[k], columnNames) == Ok(ls[k]) {
      TsvRowRoundTrip(ls[k]);
      assert ShownCells(rows[k].cells) == CellTexts(rows[k]);
    }
    var r := DataLines(ByPosition, rows, columnNames);
    assert r.value == ls;
  }

  /** The rows of a TSV body are tab-separated list rows that render back
      as the body's non-blank lines; with a large enough limit all are shown. */
  lemma TsvRoundTrip(tsvLines: seq<string>)
    requires |NonBlank(tsvLines)| > 0
    ensures |TsvRows(tsvLines)| == |NonBlank(tsvLines)|
    ensures LayoutOf(TsvRows(tsvLines)[0]) == ByPosition
    ensures DataLines(ByPosition, TsvRows(tsvLines), TsvColumns(tsvLines)) == Ok(NonBlank(tsvLines))
  {
    TsvRowsOfNonBlank(tsvLines);
    TsvLinesRenderBack(NonBlank(tsvLines), TsvRowsOf(NonBlank(tsvLines)), TsvColumns(tsvLines));
  }

  /** In a table whose first row is a dictionary and which has column names,
      the first row that is not a dictionary raises `AttributeError`. */
  lemma FirstNonMappingRaises(rows: seq<Row>, columnNames: seq<string>, j: nat)
    requires columnNames != []
    requires j < |rows| && !rows[j].Mapping?
    requires forall k :: 0 <= k < j ==> rows[k].Mapping?
    requires rows[0].Mapping?
    ensures FormatSpec(QueryResult(true, Some(rows), None, |rows|, columnNames))
            == Err("'" + TypeName(RowValue(rows[j])) + "' object has no attribute 'get'")
  {
    assert DataLines(ByName, rows[..j], columnNames).Ok? by {
      forall k | 0 <= k < j ensures LineOf(ByName, rows[..j][k], columnNames).Ok? {
        assert rows[..j][k] == rows[k];
      }
    }
    ErrorIsFirst(ByName, rows, columnNames, j);
  }

  /** In a table whose first row is a dictionary but which has no column
      names, `get` is never called: every row, whatever its shape, renders as
      an empty line and nothing raises. */
  lemma NoColumnsNeverRaise(rows: seq<Row>, rowCount: nat)
    requires |rows| > 0 && rows[0].Mapping?
    ensures DataLines(ByName, rows, []) == Ok(seq(|rows|, k requires 0 <= k < |rows| => ""))
    ensures FormatSpec(QueryResult(true, Some(rows), None, rowCount, [])).Ok?
  {
    forall k | 0 <= k < |rows| ensures LineOf(ByName, rows[k], []) == Ok("") {
      if rows[k].Mapping? {
        assert NamedCells(rows[k].entries, []) == [];
      }
    }
    var d := DataLines(ByName, rows, []);
    assert d.Ok?;
    assert d.value == seq(|rows|, k requires 0 <= k < |rows| => "");
  }

  /** A row is iterable unless it is a scalar other than a string. */
  predicate Iterable(r: Row) {
    !r.Scalar? || r.value.VStr?
  }

  /** In a table whose first row is a list, the first scalar row that is not
      a string raises `TypeError`. */
  lemma FirstNonIterableRaises(rows: seq<Row>, columnNames: seq<string>, j: nat)
    requires j < |rows| && !Iterable(rows[j])
    requires forall k :: 0 <= k < j ==> Iterable(rows[k])
    requires rows[0].Positional? && rows[0].kind == ListKind
    ensures FormatSpec(QueryResult(true, Some(rows), None, |rows|, columnNames))
            == Err("'" + TypeName(rows[j].value) + "' object is not iterable")
  {
    assert DataLines(ByPosition, rows[..j], columnNames).Ok? by {
      forall k | 0 <= k < j ensures LineOf(ByPosition, rows[..j][k], columnNames).Ok? {
        assert rows[..j][k] == rows[k];
      }
    }
    ErrorIsFirst(ByPosition, rows, columnNames, j);
  }

  /** A successful record without rows reports only its row count. */
  lemma EmptyDataReported(result: QueryResult)
    requires result.success && (result.error.None? || result.error.value == "")
    requires result.data.None? || result.data.value == []
    ensures FormatSpec(result) == Ok("Query executed. Rows returned: " + IntToString(result.rowCount))
  {
  }

  /** A JSON body with `meta` names `a`, `b` and one row `{"a": 1, "b": 2}`
      renders as the header `a<TAB>b`, the line `1<TAB>2`, an empty line and
      `Total rows: 1 (showing first 1)`. */
  lemma JsonTableExample(maxRows: int)
    requires maxRows >= 1
    ensures var row := Mapping([("a", VInt(1)), ("b", VInt(2))]);
      var result := ProcessClickhouseResult(JsonDoc(Present([row]), Present(["a", "b"])), maxRows).value;
      FormatSpec(result) == Ok(Join(["a\tb", "1\t2", "", Footer(1, 1)], "\n"))
  {
    var row := Mapping([("a", VInt(1)), ("b", VInt(2))]);
    assert Prefix([row], maxRows) == [row];
    var result := ProcessClickhouseResult(JsonDoc(Present([row]), Present(["a", "b"])), maxRows).value;
    assert result == QueryResult(true, Some([row]), None, 1, ["a", "b"]);
    assert IntToString(1) == "1" && IntToString(2) == "2";
    assert Lookup(row.entries, "a") == Some(VInt(1));
    assert Lookup(row.entries, "b") == Some(VInt(2));
    assert NamedCells(row.entries, ["a", "b"]) == ["1", "2"];
    assert Join(["1", "2"], "\t") == "1\t2" by { assert ["1", "2"][1..] == ["2"]; }
    assert Join(["a", "b"], "\t") == "a\tb" by { assert ["a", "b"][1..] == ["b"]; }
    assert ByNameLine(row, ["a", "b"]) == Ok("1\t2");
    assert DataLines(ByName, [row], ["a", "b"]) == Ok(["1\t2"]) by {
      var d := DataLines(ByName, [row], ["a", "b"]);
      assert LineOf(ByName, [row][0], ["a", "b"]) == Ok("1\t2");
      assert d.Ok? && |d.value| == 1 && d.value[0] == "1\t2";
      assert d.value == ["1\t2"];
    }
    assert [Join(["a", "b"], "\t")] + ["1\t2"] + ["", Footer(1, 1)] == ["a\tb", "1\t2", "", Footer(1, 1)];
  }
}
