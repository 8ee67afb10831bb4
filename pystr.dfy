/** The Python `str` operations the query path relies on, over `seq<char>`:
    `strip`, `lower`, `startswith`, `in`, `split`, `join`, `replace`, slicing
    with `[:n]`, and the conversions `str(int)` and `int(str)`. */
module PyStr {
  import opened Outcomes

  /** `str.isspace()` restricted to ASCII: space, \t \n \v \f \r and the
      separators \x1c-\x1f. */
  predicate IsSpace(c: char) {
    c == ' ' || (9 <= c as int <= 13) || (28 <= c as int <= 31)
  }

  function StripLeft(s: string): (r: string)
    ensures |r| <= |s| && r == s[|s| - |r|..]
    ensures r == [] || !IsSpace(r[0])
    ensures forall k :: 0 <= k < |s| - |r| ==> IsSpace(s[k])
  {
    if |s| > 0 && IsSpace(s[0]) then StripLeft(s[1..]) else s
  }

  function StripRight(s: string): (r: string)
    ensures |r| <= |s| && r == s[..|r|]
    ensures r == [] || !IsSpace(r[|r| - 1])
    ensures forall k :: |r| <= k < |s| ==> IsSpace(s[k])
  {
    if |s| > 0 && IsSpace(s[|s| - 1]) then StripRight(s[..|s| - 1]) else s
  }

  /** `s.strip()`: `s` without its leading and trailing whitespace. */
  function Strip(s: string): (r: string)
    ensures |r| <= |s|
    ensures r == [] || (!IsSpace(r[0]) && !IsSpace(r[|r| - 1]))
    ensures r == [] <==> forall k :: 0 <= k < |s| ==> IsSpace(s[k])
  {
    StripEmpty(s);
    StripRight(StripLeft(s))
  }

  lemma StripEmpty(s: string)
    ensures StripRight(StripLeft(s)) == [] <==> forall k :: 0 <= k < |s| ==> IsSpace(s[k])
  {
    var l := StripLeft(s);
    var n := |s| - |l|;
    if StripRight(l) == [] {
      forall k | 0 <= k < |s| ensures IsSpace(s[k]) {
        if k >= n { assert s[k] == l[k - n]; }
      }
    } else {
      assert l[0] == s[n];
    }
  }

  /** A line is blank when `line.strip()` is empty, i.e. it is all whitespace. */
  predicate IsBlank(s: string) {
    Strip(s) == []
  }

  function LowerChar(c: char): char {
    if 'A' <= c <= 'Z' then (c as int + 32) as char else c
  }

  /** `s.lower()` on ASCII letters; every other character is kept. */
  function Lower(s: string): (r: string)
    ensures |r| == |s|
    ensures forall k :: 0 <= k < |s| ==> r[k] == LowerChar(s[k])
  {
    seq(|s|, k requires 0 <= k < |s| => LowerChar(s[k]))
  }

  predicate StartsWith(s: string, prefix: string) {
    |prefix| <= |s| && s[..|prefix|] == prefix
  }

  predicate EndsWith(s: string, suffix: string) {
    |suffix| <= |s| && s[|s| - |suffix|..] == suffix
  }

  /** `needle in s` for a (possibly empty) substring `needle`. */
  predicate Contains(s: string, needle: string) {
    exists k {:trigger s[k..]} :: 0 <= k <= |s| - |needle| && StartsWith(s[k..], needle)
  }

  /** Index of the first occurrence of `c` in `s`. */
  function IndexOf(s: string, c: char): (i: nat)
    requires c in s
    ensures i < |s| && s[i] == c && c !in s[..i]
  {
    if s[0] == c then 0 else 1 + IndexOf(s[1..], c)
  }

  /** `s.split(c)` for a one-character separator: the pieces between the
      occurrences of `c`, never an empty list. */
  function Split(s: string, c: char): (pieces: seq<string>)
    ensures |pieces| >= 1
    ensures forall k :: 0 <= k < |pieces| ==> c !in pieces[k]
    ensures c !in s <==> pieces == [s]
    decreases |s|
  {
    if c !in s then [s]
    else
      var i := IndexOf(s, c);
      [s[..i]] + Split(s[i + 1..], c)
  }

  /** `sep.join(xs)`. */
  function Join(xs: seq<string>, sep: string): string
  {
    if |xs| == 0 then ""
    else if |xs| == 1 then xs[0]
    else xs[0] + sep + Join(xs[1..], sep)
  }

  lemma {:induction false} JoinSnoc(xs: seq<string>, y: string, sep: string)
    ensures Join(xs + [y], sep) == if |xs| == 0 then y else Join(xs, sep) + sep + y
  {
    if |xs| > 1 {
      assert (xs + [y])[1..] == xs[1..] + [y];
      JoinSnoc(xs[1..], y, sep);
    } else if |xs| == 1 {
      assert (xs + [y])[1..] == [y];
    }
  }

  lemma JoinCons(x: string, xs: seq<string>, sep: string)
    requires |xs| > 0
    ensures Join([x] + xs, sep) == x + sep + Join(xs, sep)
  {
    assert ([x] + xs)[1..] == xs;
  }

  /** Splitting on `c` and joining with `c` gives back the text. */
  lemma {:induction false} JoinSplit(s: string, c: char)
    ensures Join(Split(s, c), [c]) == s
    decreases |s|
  {
    if c in s {
      var i := IndexOf(s, c);
      var rest := Split(s[i + 1..], c);
      assert Split(s, c) == [s[..i]] + rest;
      assert Join([s[..i]] + rest, [c]) == s[..i] + [c] + Join(rest, [c]) by {
        JoinCons(s[..i], rest, [c]);
      }
      assert Join(rest, [c]) == s[i + 1..] by {
        JoinSplit(s[i + 1..], c);
      }
      assert s == s[..i] + [c] + s[i + 1..];
    }
  }

  /** Joining pieces free of `c` with `c` and splitting on `c` gives back the pieces. */
  lemma {:induction false} SplitJoin(xs: seq<string>, c: char)
    requires |xs| >= 1
    requires forall k :: 0 <= k < |xs| ==> c !in xs[k]
    ensures Split(Join(xs, [c]), c) == xs
  {
    if |xs| > 1 {
      var s := Join(xs, [c]);
      SplitJoin(xs[1..], c);
      assert s == xs[0] + [c] + Join(xs[1..], [c]);
      assert s[|xs[0]|] == c;
      assert IndexOf(s, c) == |xs[0]| by {
        IndexOfPrefix(xs[0], [c] + Join(xs[1..], [c]), c);
      }
      assert s[..|xs[0]|] == xs[0];
      assert s[|xs[0]| + 1..] == Join(xs[1..], [c]);
    }
  }

  lemma {:induction false} IndexOfPrefix(a: string, b: string, c: char)
    requires c !in a && |b| > 0 && b[0] == c
    ensures c in a + b && IndexOf(a + b, c) == |a|
  {
    assert (a + b)[|a|] == c;
    if |a| > 0 {
      assert (a + b)[0] == a[0] && (a + b)[1..] == a[1..] + b;
      IndexOfPrefix(a[1..], b, c);
    }
  }

  /** A text containing `c` splits into at least two pieces. */
  lemma SplitWide(s: string, c: char)
    requires c in s
    ensures |Split(s, c)| >= 2
  {
  }

  /** The stop index of the Python slice `s[:n]`: negative `n` counts from the end. */
  function SliceStop(len: nat, n: int): (stop: nat)
    ensures stop <= len
    ensures n >= 0 ==> stop == if n < len then n else len
    ensures n < 0 ==> stop == if len + n > 0 then len + n else 0
  {
    if n >= 0 then (if n < len then n else len)
    else if len + n > 0 then len + n else 0
  }

  /** The Python slice `s[:n]`. */
  function Prefix<T>(s: seq<T>, n: int): (r: seq<T>)
    ensures |r| == SliceStop(|s|, n) && r == s[..|r|]
    ensures n >= 0 ==> |r| <= n
  {
    s[..SliceStop(|s|, n)]
  }

  // ---- decimal conversion ----------------------------------------------

  predicate IsDigit(c: char) {
    '0' <= c <= '9'
  }

  function DigitChar(d: nat): (c: char)
    requires d < 10
    ensures IsDigit(c) && c as int - '0' as int == d
  {
    ('0' as int + d) as char
  }

  /** `str(n)` for a natural number: its decimal digits, most significant first. */
  function NatToString(n: nat): (r: string)
    ensures |r| >= 1
    ensures forall k :: 0 <= k < |r| ==> IsDigit(r[k])
  {
    if n < 10 then [DigitChar(n)] else NatToString(n / 10) + [DigitChar(n % 10)]
  }

  /** `str(i)` for an integer. */
  function IntToString(i: int): (r: string)
    ensures |r| >= 1
    ensures r[0] == '-' <==> i < 0
    ensures i >= 0 ==> forall k :: 0 <= k < |r| ==> IsDigit(r[k])
  {
    if i < 0 then "-" + NatToString(-i) else NatToString(i)
  }

  function DigitsValue(s: string): nat
    requires forall k :: 0 <= k < |s| ==> IsDigit(s[k])
  {
    if |s| == 0 then 0
    else
      assert IsDigit(s[|s| - 1]);
      DigitsValue(s[..|s| - 1]) * 10 + (s[|s| - 1] as int - '0' as int)
  }

  /** `int(s)` in base 10: surrounding whitespace, an optional sign and at
      least one digit; anything else raises `ValueError`. */
  function ParseInt(s: string): Outcome<int>
  {
    var t := Strip(s);
    var negative := |t| > 0 && t[0] == '-';
    var digits := if |t| > 0 && (t[0] == '-' || t[0] == '+') then t[1..] else t;
    if |digits| > 0 && forall k :: 0 <= k < |digits| ==> IsDigit(digits[k]) then
      Ok(if negative then -(DigitsValue(digits) as int) else DigitsValue(digits))
    else
      Err("invalid literal for int() with base 10: '" + s + "'")
  }

  lemma {:induction false} DigitsOfNat(n: nat)
    ensures DigitsValue(NatToString(n)) == n
  {
    if n >= 10 {
      var r := NatToString(n);
      assert r[..|r| - 1] == NatToString(n / 10);
      DigitsOfNat(n / 10);
    }
  }

  lemma StripUnchanged(s: string)
    requires |s| > 0 && !IsSpace(s[0]) && !IsSpace(s[|s| - 1])
    ensures Strip(s) == s
  {
  }

  /** A non-blank character appended to a text stays after `lstrip`. */
  lemma {:induction false} StripLeftSnoc(s: string, c: char)
    requires !IsSpace(c)
    ensures StripLeft(s + [c]) == StripLeft(s) + [c]
    decreases |s|
  {
    if |s| > 0 && IsSpace(s[0]) {
      assert (s + [c])[1..] == s[1..] + [c];
      StripLeftSnoc(s[1..], c);
    }
  }

  /** `(s + c).strip()` for a non-blank `c` is `s.lstrip() + c`. */
  lemma StripSnoc(s: string, c: char)
    requires !IsSpace(c)
    ensures Strip(s + [c]) == StripLeft(s) + [c]
  {
    StripLeftSnoc(s, c);
  }

  /** `int(str(i)) == i`: reading back a rendered integer gives the integer. */
  lemma ParseIntOfIntToString(i: int)
    ensures ParseInt(IntToString(i)) == Ok(i)
  {
    var r := IntToString(i);
    StripUnchanged(r);
    if i < 0 {
      var d := NatToString(-i);
      assert r == "-" + d && r[1..] == d;
      DigitsOfNat(-i);
      assert DigitsValue(d) == -i;
    } else {
      assert r == NatToString(i) && r[0] != '-' && r[0] != '+';
      DigitsOfNat(i);
    }
  }

  /** Distinct integers render to distinct text. */
  lemma IntToStringInjective(i: int, j: int)
    requires IntToString(i) == IntToString(j)
    ensures i == j
  {
    ParseIntOfIntToString(i);
    ParseIntOfIntToString(j);
  }
}
