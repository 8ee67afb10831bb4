/** Parameter substitution for the HTTP transport: each `{name}` placeholder
    present in the statement is replaced by the bound value, strings in single
    quotes and other values as `str(value)`, one parameter after the other in
    the order of the parameter mapping. */
module Substitution {
  import opened PyStr
  import opened PyValues

  /** `query.replace(pattern, replacement)`: every non-overlapping occurrence
      of `pattern`, scanning left to right, is replaced. */
  function ReplaceAll(s: string, pattern: string, replacement: string): string
    requires |pattern| > 0
    decreases |s|
  {
    if |s| < |pattern| then s
    else if StartsWith(s, pattern) then replacement + ReplaceAll(s[|pattern|..], pattern, replacement)
    else [s[0]] + ReplaceAll(s[1..], pattern, replacement)
  }

  function Placeholder(key: string): (p: string)
    ensures |p| >= 2 && p[0] == '{' && p[|p| - 1] == '}'
  {
    "{" + key + "}"
  }

  /** The text that stands for a bound value: `'v'` for a string, `str(v)` otherwise. */
  function Rendered(v: Value): string {
    if v.VStr? then "'" + v.s + "'" else Show(v)
  }

  /** One iteration of the loop: replace the placeholder if it is present. */
  function Step(query: string, param: (string, Value)): string {
    var placeholder := Placeholder(param.0);
    if Contains(query, placeholder) then ReplaceAll(query, placeholder, Rendered(param.1))
    else query
  }

  /** The whole loop over the parameters, in their order. */
  function Substituted(query: string, params: seq<(string, Value)>): string
  {
    if |params| == 0 then query
    else Step(Substituted(query, params[..|params| - 1]), params[|params| - 1])
  }

  /** The loop of func.py's `execute_http_query`. */
  method SubstituteParams(query: string, params: seq<(string, Value)>) returns (q: string)
    ensures q == Substituted(query, params)
  {
    q := query;
    var i := 0;
    while i < |params|
      invariant 0 <= i <= |params|
      invariant q == Substituted(query, params[..i])
    {
      var (key, value) := params[i];
      var placeholder := "{" + key + "}";
      if Contains(q, placeholder) {
        q := ReplaceAll(q, placeholder, if value.VStr? then "'" + value.s + "'" else Show(value));
      }
      assert params[..i + 1][..i] == params[..i];
      i := i + 1;
    }
    assert params[..|params|] == params;
  }

  /** The loop of lifespan_code.py's `execute_http_query`, which branches on
      the value's type before replacing; it computes the same text. */
  method SubstituteParamsLifespan(query: string, params: seq<(string, Value)>) returns (q: string)
    ensures q == Substituted(query, params)
  {
    q := query;
    for i := 0 to |params|
      invariant q == Substituted(query, params[..i])
    {
      var (key, value) := params[i];
      var placeholder := "{" + key + "}";
      if Contains(q, placeholder) {
        match value {
          case VStr(s) => q := ReplaceAll(q, placeholder, "'" + s + "'");
          case _ => q := ReplaceAll(q, placeholder, Show(value));
        }
      }
      assert params[..i + 1][..i] == params[..i];
    }
    assert params[..|params|] == params;
  }

  // ---- properties --------------------------------------------------------

  /** Text without an occurrence of the pattern is left as it is. */
  lemma {:induction false} ReplaceAbsent(s: string, pattern: string, replacement: string)
    requires |pattern| > 0 && !Contains(s, pattern)
    ensures ReplaceAll(s, pattern, replacement) == s
    decreases |s|
  {
    if |s| >= |pattern| {
      assert s[0..] == s;
      assert !StartsWith(s, pattern);
      assert !Contains(s[1..], pattern) by {
        forall k | 0 <= k <= |s[1..]| - |pattern|
          ensures !StartsWith(s[1..][k..], pattern)
        {
          assert s[1..][k..] == s[k + 1..];
        }
      }
      ReplaceAbsent(s[1..], pattern, replacement);
    }
  }

  /** The presence test in the loop only saves work: a missing placeholder
      would have been replaced nowhere anyway. */
  lemma StepIsReplace(query: string, param: (string, Value))
    ensures Step(query, param) == ReplaceAll(query, Placeholder(param.0), Rendered(param.1))
  {
    if !Contains(query, Placeholder(param.0)) {
      ReplaceAbsent(query, Placeholder(param.0), Rendered(param.1));
    }
  }

  /** A statement in which no parameter's placeholder occurs comes back unchanged. */
  lemma {:induction false} NoPlaceholderUnchanged(query: string, params: seq<(string, Value)>)
    requires forall k :: 0 <= k < |params| ==> !Contains(query, Placeholder(params[k].0))
    ensures Substituted(query, params) == query
  {
    if |params| > 0 {
      NoPlaceholderUnchanged(query, params[..|params| - 1]);
    }
  }

  /** A text in which no `{` occurs has no placeholder in it. */
  lemma NoBraceNoPlaceholder(s: string, key: string)
    requires '{' !in s
    ensures !Contains(s, Placeholder(key))
  {
    forall k | 0 <= k <= |s| - |Placeholder(key)|
      ensures !StartsWith(s[k..], Placeholder(key))
    {
      assert s[k..][0] == s[k];
    }
  }

  /** A single placeholder between brace-free text is replaced by the value's text. */
  lemma {:induction false} ReplaceOne(a: string, key: string, b: string, replacement: string)
    requires '{' !in a && '{' !in b && '{' !in key
    ensures ReplaceAll(a + Placeholder(key) + b, Placeholder(key), replacement) == a + replacement + b
    decreases |a|
  {
    var p := Placeholder(key);
    var s := a + p + b;
    if |a| == 0 {
      assert s == p + b && StartsWith(s, p);
      assert s[|p|..] == b;
      NoBraceNoPlaceholder(b, key);
      ReplaceAbsent(b, p, replacement);
    } else {
      assert s[0] == a[0] != '{';
      assert !StartsWith(s, p);
      assert s[1..] == a[1..] + p + b;
      ReplaceOne(a[1..], key, b, replacement);
    }
  }

  /** With a single parameter, substitution is one `replace`. */
  lemma SingleParam(query: string, key: string, v: Value)
    ensures Substituted(query, [(key, v)]) == ReplaceAll(query, Placeholder(key), Rendered(v))
  {
    assert [(key, v)][..0] == [];
    StepIsReplace(query, (key, v));
  }

  /** A single placeholder between brace-free text is replaced by the text
      standing for its value. */
  lemma OnePlaceholder(a: string, key: string, b: string, v: Value)
    requires '{' !in a && '{' !in b && '{' !in key
    ensures Substituted(a + Placeholder(key) + b, [(key, v)]) == a + Rendered(v) + b
  {
    SingleParam(a + Placeholder(key) + b, key, v);
    ReplaceOne(a, key, b, Rendered(v));
  }

  /** The placeholder `{p}` bound to a string `x` becomes `'x'`. */
  lemma StringIsQuoted(x: string)
    ensures Substituted("SELECT {p}", [("p", VStr(x))]) == "SELECT '" + x + "'"
  {
    assert "SELECT {p}" == "SELECT " + Placeholder("p") + "";
    OnePlaceholder("SELECT ", "p", "", VStr(x));
  }

  /** The placeholder `{p}` bound to an integer `n` becomes `str(n)`, unquoted. */
  lemma IntegerIsBare(n: int)
    ensures Substituted("SELECT {p} + 1", [("p", VInt(n))]) == "SELECT " + IntToString(n) + " + 1"
  {
    assert "SELECT {p} + 1" == "SELECT " + Placeholder("p") + " + 1";
    OnePlaceholder("SELECT ", "p", " + 1", VInt(n));
  }
}
