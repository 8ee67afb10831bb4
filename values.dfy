/** The Python values that flow through the query path: cells of result rows,
    query parameters and native result sets, with the text that `str()` and
    `repr()` give for them; the tagged row shape; and the canonical result
    record `{success, data, error, row_count, column_names}`. */
module PyValues {
  import opened Outcomes
  import opened PyStr

  datatype SeqKind = ListKind | TupleKind

  /** A Python value. `VOther` stands for any other object (a float, a date,
      a decimal, ...): it carries its type name and the text `str()` and
      `repr()` produce for it. Dictionary keys are strings, in insertion order. */
  datatype Value =
    | VNone
    | VBool(b: bool)
    | VInt(i: int)
    | VStr(s: string)
    | VOther(typeName: string, text: string, reprText: string)
    | VDict(entries: seq<(string, Value)>)
    | VSeq(kind: SeqKind, items: seq<Value>)

  /** Python truthiness: `None`, `False`, `0`, `""` and empty containers are
      false; other objects are taken to be true. */
  predicate Truthy(v: Value) {
    match v
    case VNone => false
    case VBool(b) => b
    case VInt(i) => i != 0
    case VStr(s) => s != ""
    case VOther(_, _, _) => true
    case VDict(e) => |e| > 0
    case VSeq(_, items) => |items| > 0
  }

  /** `type(v).__name__`. */
  function TypeName(v: Value): string {
    match v
    case VNone => "NoneType"
    case VBool(_) => "bool"
    case VInt(_) => "int"
    case VStr(_) => "str"
    case VOther(t, _, _) => t
    case VDict(_) => "dict"
    case VSeq(ListKind, _) => "list"
    case VSeq(TupleKind, _) => "tuple"
  }

  /** `str(v)`. */
  function Show(v: Value): string
    decreases v, 1
  {
    match v
    case VNone => "None"
    case VBool(b) => if b then "True" else "False"
    case VInt(i) => IntToString(i)
    case VStr(s) => s
    case VOther(_, text, _) => text
    case _ => Repr(v)
  }

  /** `repr(v)`; strings are shown in single quotes, without escaping. */
  function Repr(v: Value): string
    decreases v, 0
  {
    match v
    case VStr(s) => "'" + s + "'"
    case VOther(_, _, r) => r
    case VDict(entries) =>
      "{" + Join(seq(|entries|, k requires 0 <= k < |entries| =>
                   "'" + entries[k].0 + "': " + Repr(entries[k].1)), ", ") + "}"
    case VSeq(ListKind, items) =>
      "[" + Join(seq(|items|, k requires 0 <= k < |items| => Repr(items[k])), ", ") + "]"
    case VSeq(TupleKind, items) =>
      "(" + Join(seq(|items|, k requires 0 <= k < |items| => Repr(items[k])), ", ")
      + (if |items| == 1 then ",)" else ")")
    case VNone => "None"
    case VBool(b) => if b then "True" else "False"
    case VInt(i) => IntToString(i)
  }

  /** The values that are not containers. */
  type ScalarValue = v: Value | !v.VDict? && !v.VSeq? witness VNone

  /** A result row, tagged by shape instead of probed for `keys`: a mapping
      from column name to value, a list or tuple of values, or a bare scalar. */
  datatype Row =
    | Mapping(entries: seq<(string, Value)>)
    | Positional(kind: SeqKind, cells: seq<Value>)
    | Scalar(value: ScalarValue)

  /** The Python object a row is. */
  function RowValue(r: Row): (v: Value)
    ensures r.Mapping? <==> v.VDict?
    ensures r.Positional? <==> v.VSeq?
  {
    match r
    case Mapping(e) => VDict(e)
    case Positional(k, cells) => VSeq(k, cells)
    case Scalar(x) => x
  }

  /** `list(d.keys())` for dictionary entries. */
  function Keys(entries: seq<(string, Value)>): (ks: seq<string>)
    ensures |ks| == |entries|
    ensures forall k :: 0 <= k < |entries| ==> ks[k] == entries[k].0
  {
    seq(|entries|, k requires 0 <= k < |entries| => entries[k].0)
  }

  /** `d.get(key)`: the value stored under `key`. */
  function Lookup(entries: seq<(string, Value)>, key: string): (r: Option<Value>)
    ensures r.None? <==> key !in Keys(entries)
    ensures r.Some? ==> exists k :: 0 <= k < |entries| && entries[k] == (key, r.value)
  {
    if |entries| == 0 then None
    else if entries[0].0 == key then Some(entries[0].1)
    else
      assert Keys(entries) == [entries[0].0] + Keys(entries[1..]);
      var r := Lookup(entries[1..], key);
      assert r.Some? ==> exists k :: 0 <= k < |entries[1..]| && entries[1..][k] == (key, r.value);
      r
  }

  /** The canonical result record. `data == None` is Python's `None`. */
  datatype QueryResult = QueryResult(
    success: bool,
    data: Option<seq<Row>>,
    error: Option<string>,
    rowCount: nat,
    columnNames: seq<string>)

  /** `{"success": False, "data": None, "error": msg, "row_count": 0, "column_names": []}`. */
  function Failure(msg: string): QueryResult {
    QueryResult(false, None, Some(msg), 0, [])
  }

  /** `{"success": True, "data": [], "error": None, "row_count": 0, "column_names": []}`. */
  function EmptySuccess(): QueryResult {
    QueryResult(true, Some([]), None, 0, [])
  }

  /** `os.environ.get(key, default)`. */
  function EnvOr(env: map<string, string>, key: string, default: string): (v: string)
    ensures key in env ==> v == env[key]
    ensures key !in env ==> v == default
  {
    if key in env then env[key] else default
  }

  /** `str(x)` for an optional text: `None` shows as `"None"`. */
  function ShowOpt(x: Option<string>): string {
    match x
    case Some(s) => s
    case None => "None"
  }
}
