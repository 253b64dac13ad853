/**
 * The Python `str` operations the bridge and the backend rely on, over
 * `seq<char>`: `strip()`, `rstrip(c)`, `startswith`, the `in` operator,
 * `replace(pat, "")`, `str(int)`, `int(str)`, `", ".join(...)` and a
 * one-argument `format`.
 */
module Text {
  import opened Common

  /** Python's `str.isspace()` for one character: the characters `strip()` and `int()` discard. */
  predicate IsSpace(c: char) {
    c == ' ' || c == '\t' || c == '\n' || c == '\U{B}' || c == '\U{C}' || c == '\r'
    || ('\U{1C}' <= c <= '\U{1F}') || c == '\U{85}' || c == '\U{A0}' || c == '\U{1680}'
    || ('\U{2000}' <= c <= '\U{200A}') || c == '\U{2028}' || c == '\U{2029}' || c == '\U{202F}'
    || c == '\U{205F}' || c == '\U{3000}'
  }

  predicate AllSpace(s: string) {
    forall k :: 0 <= k < |s| ==> IsSpace(s[k])
  }

  predicate NoSpace(s: string) {
    forall k :: 0 <= k < |s| ==> !IsSpace(s[k])
  }

  /** Number of leading whitespace characters. */
  function LeadingSpaces(s: string): (i: nat)
    ensures i <= |s|
    ensures AllSpace(s[..i])
    ensures i < |s| ==> !IsSpace(s[i])
  {
    if s == [] || !IsSpace(s[0]) then 0
    else
      var i := 1 + LeadingSpaces(s[1..]);
      assert s[..i] == [s[0]] + s[1..][..i - 1];
      i
  }

  /** Length of `s` once its trailing whitespace is removed. */
  function WithoutTrailingSpaces(s: string): (j: nat)
    ensures j <= |s|
    ensures AllSpace(s[j..])
    ensures j > 0 ==> !IsSpace(s[j - 1])
  {
    if s == [] || !IsSpace(s[|s| - 1]) then |s|
    else
      var j := WithoutTrailingSpaces(s[..|s| - 1]);
      assert s[j..] == s[..|s| - 1][j..] + [s[|s| - 1]];
      j
  }

  /** Python's `s.strip()`: `s` without leading and trailing whitespace. */
  function Strip(s: string): (r: string)
    ensures r == [] || (!IsSpace(r[0]) && !IsSpace(r[|r| - 1]))
    ensures exists a, b :: s == a + r + b && AllSpace(a) && AllSpace(b)
  {
    var i := LeadingSpaces(s);
    var rest := s[i..];
    var j := WithoutTrailingSpaces(rest);
    assert s == s[..i] + rest[..j] + rest[j..];
    assert rest[..j] != [] ==> rest[..j][0] == rest[0];
    rest[..j]
  }

  lemma StripNoSpace(s: string)
    requires NoSpace(s)
    ensures Strip(s) == s
  {
    if s != [] {
      assert !IsSpace(s[0]) && !IsSpace(s[|s| - 1]);
      assert LeadingSpaces(s) == 0;
      assert s[0..] == s;
    }
  }

  /** Stripping twice is stripping once. */
  lemma StripIdempotent(s: string)
    ensures Strip(Strip(s)) == Strip(s)
  {
    var r := Strip(s);
    if r != [] {
      assert LeadingSpaces(r) == 0;
      assert r[0..] == r;
      assert WithoutTrailingSpaces(r) == |r|;
    }
  }

  /** Python's `s.rstrip(c)` for a one-character argument. */
  function RStripChar(s: string, c: char): (r: string)
    ensures r <= s
    ensures r == [] || r[|r| - 1] != c
    ensures forall k :: |r| <= k < |s| ==> s[k] == c
  {
    if s != [] && s[|s| - 1] == c then RStripChar(s[..|s| - 1], c) else s
  }

  predicate StartsWith(s: string, prefix: string) {
    |prefix| <= |s| && s[..|prefix|] == prefix
  }

  /** `sub` occurs in `s` starting at index `i`. */
  predicate OccursAt(s: string, sub: string, i: int) {
    0 <= i <= |s| - |sub| && s[i..i + |sub|] == sub
  }

  lemma OccursShift(s: string, sub: string, i: nat)
    requires s != []
    ensures OccursAt(s, sub, i + 1) <==> OccursAt(s[1..], sub, i)
  {
    if i + 1 <= |s| - |sub| {
      assert s[i + 1..i + 1 + |sub|] == s[1..][i..i + |sub|];
    }
  }

  /** Python's `sub in s`. */
  function Contains(s: string, sub: string): (r: bool)
    ensures r <==> exists i :: OccursAt(s, sub, i)
    decreases |s|
  {
    if StartsWith(s, sub) then
      assert OccursAt(s, sub, 0);
      true
    else if s == [] then false
    else
      var r := Contains(s[1..], sub);
      assert !OccursAt(s, sub, 0);
      forall i: nat ensures OccursAt(s, sub, i + 1) <==> OccursAt(s[1..], sub, i) {
        OccursShift(s, sub, i);
      }
      assert r ==> exists i :: OccursAt(s, sub, i) by {
        if r {
          var j :| OccursAt(s[1..], sub, j);
          assert OccursAt(s, sub, j + 1);
        }
      }
      assert (exists i :: OccursAt(s, sub, i)) ==> r by {
        if i :| OccursAt(s, sub, i) {
          assert OccursAt(s[1..], sub, i - 1);
        }
      }
      r
  }

  /** Python's `s.replace(pat, "")`: every occurrence found scanning left to right is removed. */
  function RemoveAll(s: string, pat: string): (r: string)
    requires pat != []
    ensures |r| <= |s|
    decreases |s|
  {
    if |s| < |pat| then s
    else if s[..|pat|] == pat then RemoveAll(s[|pat|..], pat)
    else [s[0]] + RemoveAll(s[1..], pat)
  }

  /** Removing a pattern from a text that does not contain it changes nothing. */
  lemma {:induction false} RemoveAbsent(s: string, pat: string)
    requires pat != [] && !Contains(s, pat)
    ensures RemoveAll(s, pat) == s
    decreases |s|
  {
    if |s| >= |pat| {
      assert !OccursAt(s, pat, 0);
      forall i: nat ensures !OccursAt(s[1..], pat, i) {
        OccursShift(s, pat, i);
      }
      RemoveAbsent(s[1..], pat);
    }
  }

  // ---------------------------------------------------------------- integers

  predicate IsDigit(c: char) {
    '0' <= c <= '9'
  }

  predicate AllDigits(s: string) {
    forall k :: 0 <= k < |s| ==> IsDigit(s[k])
  }

  function DigitChar(d: nat): (c: char)
    requires d < 10
    ensures IsDigit(c) && c as int - '0' as int == d
  {
    ('0' as int + d) as char
  }

  /** The value of a string of decimal digits. */
  function DigitsValue(s: string): nat
    requires AllDigits(s)
  {
    if s == [] then 0 else DigitsValue(s[..|s| - 1]) * 10 + (s[|s| - 1] as int - '0' as int)
  }

  /** Python's `str(n)` for `n >= 0`: decimal digits, no leading zero. */
  function NatToString(n: nat): (r: string)
    ensures r != [] && AllDigits(r)
    decreases n
  {
    if n < 10 then [DigitChar(n)] else NatToString(n / 10) + [DigitChar(n % 10)]
  }

  lemma {:induction false} NatToStringValue(n: nat)
    ensures DigitsValue(NatToString(n)) == n
    decreases n
  {
    var r := NatToString(n);
    if n >= 10 {
      NatToStringValue(n / 10);
      assert r[..|r| - 1] == NatToString(n / 10);
    }
  }

  /** Python's `str(n)` for an `int`: a `-` sign before the digits of a negative number. */
  function IntToString(n: int): (r: string)
    ensures r != [] && NoSpace(r) && '_' !in r
  {
    var r := if n < 0 then "-" + NatToString(-n) else NatToString(n);
    assert forall k :: 0 <= k < |r| ==> IsDigit(r[k]) || r[k] == '-';
    r
  }

  /**
   * Python's `int(s)` for a string: surrounding whitespace, an optional sign
   * and at least one ASCII digit; `None` where Python raises `ValueError`.
   */
  function PyIntText(s: string): (r: Option<int>)
    ensures r.Some? ==> Strip(s) != []
  {
    var t := Strip(s);
    if t == [] then None
    else if t[0] == '-' || t[0] == '+' then
      var body := t[1..];
      if body != [] && AllDigits(body) then
        var v: int := DigitsValue(body);
        Some(if t[0] == '-' then -v else v)
      else None
    else if AllDigits(t) then Some(DigitsValue(t))
    else None
  }

  /** `int(str(n)) == n`. */
  lemma IntToStringRoundTrip(n: int)
    ensures PyIntText(IntToString(n)) == Some(n)
  {
    var r := IntToString(n);
    StripNoSpace(r);
    if n < 0 {
      NatToStringValue(-n);
      assert r[1..] == NatToString(-n);
    } else {
      NatToStringValue(n);
    }
  }

  /** `str` on integers is injective. */
  lemma IntToStringInjective(m: int, n: int)
    requires IntToString(m) == IntToString(n)
    ensures m == n
  {
    IntToStringRoundTrip(m);
    IntToStringRoundTrip(n);
  }

  // ---------------------------------------------------------------- splitting and joining

  /** Splits `s` at the first occurrence of `c`. */
  function SplitFirst(s: string, c: char): (r: Option<(string, string)>)
    ensures r.Some? ==> s == r.value.0 + [c] + r.value.1 && c !in r.value.0
    ensures r.None? ==> c !in s
  {
    if s == [] then None
    else if s[0] == c then Some(([], s[1..]))
    else match SplitFirst(s[1..], c)
      case None => None
      case Some((a, b)) => Some(([s[0]] + a, b))
  }

  lemma {:induction false} SplitFirstAt(a: string, c: char, b: string)
    requires c !in a
    ensures SplitFirst(a + [c] + b, c) == Some((a, b))
  {
    if a != [] {
      assert (a + [c] + b)[1..] == a[1..] + [c] + b;
      SplitFirstAt(a[1..], c, b);
      assert [a[0]] + a[1..] == a;
    }
  }

  /** Python's `sep.join(items)`. */
  function Join(items: seq<string>, sep: string): (r: string)
    ensures items == [] ==> r == []
    ensures |items| == 1 ==> r == items[0]
  {
    if items == [] then []
    else if |items| == 1 then items[0]
    else items[0] + sep + Join(items[1..], sep)
  }

  /**
   * Python's `template.format(arg)` for a template whose only replacement
   * field is `{}`: the first `{}` becomes `arg`.
   */
  function FormatOne(template: string, arg: string): (r: string)
    ensures !Contains(template, "{}") ==> r == template
    decreases |template|
  {
    if StartsWith(template, "{}") then arg + template[2..]
    else if template == [] then []
    else
      assert !Contains(template, "{}") ==> !Contains(template[1..], "{}") by {
        if Contains(template[1..], "{}") {
          var i :| 0 <= i <= |template[1..]| - 2 && template[1..][i..i + 2] == "{}";
          assert template[i + 1..i + 3] == "{}";
        }
      }
      [template[0]] + FormatOne(template[1..], arg)
  }

  lemma FormatOneSkip(t: string, arg: string)
    requires t != [] && t[0] != '{'
    ensures FormatOne(t, arg) == [t[0]] + FormatOne(t[1..], arg)
  {
    assert !StartsWith(t, "{}") by {
      if |t| >= 2 { assert t[..2][0] == t[0]; }
    }
  }

  /** A template that starts with its placeholder gets the argument in front. */
  lemma FormatOneHead(b: string, arg: string)
    ensures FormatOne("{}" + b, arg) == arg + b
  {
    var t := "{}" + b;
    assert t[..2] == "{}" && t[2..] == b;
  }

  /** A template whose first brace opens its placeholder gets the argument in that place. */
  lemma {:induction false} FormatOneAt(a: string, b: string, arg: string)
    requires '{' !in a
    ensures FormatOne(a + "{}" + b, arg) == a + arg + b
    decreases |a|
  {
    if a == [] {
      assert a + "{}" + b == "{}" + b;
      FormatOneHead(b, arg);
    } else {
      var t := a + "{}" + b;
      assert t[0] == a[0] && t[1..] == a[1..] + "{}" + b;
      assert '{' !in a[1..] && t[0] != '{';
      calc {
        FormatOne(t, arg);
        { FormatOneSkip(t, arg); }
        [t[0]] + FormatOne(t[1..], arg);
        { FormatOneAt(a[1..], b, arg); }
        [a[0]] + (a[1..] + arg + b);
        { assert a == [a[0]] + a[1..]; }
        a + arg + b;
      }
    }
  }
}
