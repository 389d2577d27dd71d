/**
 * The pieces of JavaScript's string library the plugin relies on:
 * the whitespace class used by `String.prototype.trim` and by `\s` in a
 * regular expression, `trim`/`trimStart`, `parseInt` with no radix, and
 * `Number.prototype.toString` for integers.
 */
module JsString {
  import opened Wrappers

  /** WhiteSpace and LineTerminator code points of ECMAScript (the `\s` class). */
  predicate IsSpace(c: char) {
    || c == '\t' || c == '\n' || c == '\U{000B}' || c == '\U{000C}' || c == '\r' || c == ' '
    || c == '\U{00A0}' || c == '\U{1680}' || ('\U{2000}' <= c <= '\U{200A}')
    || c == '\U{2028}' || c == '\U{2029}' || c == '\U{202F}' || c == '\U{205F}'
    || c == '\U{3000}' || c == '\U{FEFF}'
  }

  predicate AllSpace(s: string) {
    forall k :: 0 <= k < |s| ==> IsSpace(s[k])
  }

  /** Neither end of `s` is whitespace. */
  predicate Trimmed(s: string) {
    s == [] || (!IsSpace(s[0]) && !IsSpace(s[|s| - 1]))
  }

  /** `s.trimStart()`: the suffix of `s` left after its leading whitespace. */
  function TrimStart(s: string): (r: string)
    ensures |r| <= |s| && r == s[|s| - |r|..]
    ensures forall k :: 0 <= k < |s| - |r| ==> IsSpace(s[k])
    ensures r == [] || !IsSpace(r[0])
  {
    if s == [] || !IsSpace(s[0]) then s
    else
      var r := TrimStart(s[1..]);
      assert forall k :: 1 <= k < |s| - |r| ==> s[k] == s[1..][k - 1];
      r
  }

  /** `s.trimEnd()`: the prefix of `s` left after its trailing whitespace. */
  function TrimEnd(s: string): (r: string)
    ensures |r| <= |s| && r == s[..|r|]
    ensures forall k :: |r| <= k < |s| ==> IsSpace(s[k])
    ensures r == [] || !IsSpace(r[|r| - 1])
  {
    if s == [] || !IsSpace(s[|s| - 1]) then s
    else
      var r := TrimEnd(s[..|s| - 1]);
      assert forall k :: |r| <= k < |s| - 1 ==> s[k] == s[..|s| - 1][k];
      r
  }

  /** `r` is the part of `s` from `i` on, with only whitespace before it and after it. */
  predicate Window(s: string, r: string, i: nat) {
    && i + |r| <= |s|
    && r == s[i..i + |r|]
    && AllSpace(s[..i])
    && AllSpace(s[i + |r|..])
  }

  /** `s.trim()`: `s` without its leading and trailing whitespace. */
  function Trim(s: string): (r: string)
    ensures exists i :: Window(s, r, i)
    ensures Trimmed(r)
    ensures r == [] <==> AllSpace(s)
  {
    TrimBlank(s);
    TrimWindow(s);
    TrimEnd(TrimStart(s))
  }

  /** Trimming both ends keeps a window of `s` with only whitespace around it. */
  lemma TrimWindow(s: string)
    ensures Window(s, TrimEnd(TrimStart(s)), |s| - |TrimStart(s)|)
  {
    var t := TrimStart(s);
    var r := TrimEnd(t);
    var d := |s| - |t|;
    LeadingSpace(s);
    TrailingSpace(t);
    WindowOf(s, t, r, d);
  }

  /** A prefix `r` of the suffix `t` of `s` from `d` is a window of `s` when what surrounds it is whitespace. */
  lemma WindowOf(s: string, t: string, r: string, d: nat)
    requires d <= |s| && t == s[d..] && |r| <= |t| && r == t[..|r|]
    requires AllSpace(s[..d]) && AllSpace(t[|r|..])
    ensures Window(s, r, d)
  {
    SliceOfSuffix(s, d, |r|);
  }

  /** What `TrimStart` drops is whitespace. */
  lemma LeadingSpace(s: string)
    ensures AllSpace(s[..|s| - |TrimStart(s)|])
  {
    var head := s[..|s| - |TrimStart(s)|];
    forall k | 0 <= k < |head| ensures IsSpace(head[k]) {
      assert head[k] == s[k];
    }
  }

  /** What `TrimEnd` drops is whitespace. */
  lemma TrailingSpace(t: string)
    ensures AllSpace(t[|TrimEnd(t)|..])
  {
    var n := |TrimEnd(t)|;
    var tail := t[n..];
    forall k | 0 <= k < |tail| ensures IsSpace(tail[k]) {
      assert tail[k] == t[n + k];
    }
  }

  lemma SliceOfSuffix(s: string, d: nat, n: nat)
    requires d + n <= |s|
    ensures s[d..][..n] == s[d..d + n]
    ensures s[d..][n..] == s[d + n..]
  {
  }

  /** What is left of `s` after trimming both ends is empty exactly when `s` is all whitespace. */
  lemma TrimBlank(s: string)
    ensures var r := TrimEnd(TrimStart(s)); r == [] <==> AllSpace(s)
    ensures Trimmed(TrimEnd(TrimStart(s)))
  {
    var t := TrimStart(s);
    var r := TrimEnd(t);
    var d := |s| - |t|;
    assert t != [] ==> IsSpace(t[0]) || r != [];
    if r != [] {
      assert r[0] == t[0] == s[d];
    }
  }

  /** Trimming the start keeps the last character, if any is left. */
  lemma TrimStartKeepsLast(s: string)
    ensures var r := TrimStart(s); r == [] || r[|r| - 1] == s[|s| - 1]
  {
    var r := TrimStart(s);
    if r != [] {
      assert r == s[|s| - |r|..];
    }
  }

  /** Trimming the start of a suffix of a string that does not end in whitespace leaves both ends non-blank. */
  lemma TrimStartOfSuffix(t: string, n: nat)
    requires n <= |t|
    requires Trimmed(t)
    ensures Trimmed(TrimStart(t[n..]))
  {
    var s := t[n..];
    TrimStartKeepsLast(s);
    assert s == [] || s[|s| - 1] == t[|t| - 1];
  }

  /** The value of an ASCII digit or letter as a digit (letters count from 10), or 36. */
  function DigitValue(c: char): (d: nat)
    ensures d <= 36
  {
    if '0' <= c <= '9' then c as int - '0' as int
    else if 'a' <= c <= 'z' then c as int - 'a' as int + 10
    else if 'A' <= c <= 'Z' then c as int - 'A' as int + 10
    else 36
  }

  predicate IsDigit(c: char, radix: nat) {
    DigitValue(c) < radix
  }

  /** The length of the longest prefix of `s` made of digits in `radix`. */
  function DigitRun(s: string, radix: nat): (n: nat)
    ensures n <= |s|
    ensures forall k :: 0 <= k < n ==> IsDigit(s[k], radix)
    ensures n == |s| || !IsDigit(s[n], radix)
  {
    if s == [] || !IsDigit(s[0], radix) then 0 else 1 + DigitRun(s[1..], radix)
  }

  /** The number written by the digit string `z` in `radix`, most significant digit first. */
  function DigitsValue(z: string, radix: nat): nat {
    if z == [] then 0
    else DigitsValue(z[..|z| - 1], radix) * radix + DigitValue(z[|z| - 1])
  }

  /**
   * `parseInt(s)` with no radix: skip leading whitespace, read an optional
   * sign, then an unsigned numeral. `None` is `NaN` (no digit at all).
   */
  function ParseInt(s: string): Option<int> {
    var t := TrimStart(s);
    if |t| > 0 && (t[0] == '-' || t[0] == '+') then
      match ParseMagnitude(t[1..])
      case None => None
      case Some(m) =>
        var v: int := if t[0] == '-' then -(m as int) else m;
        Some(v)
    else
      match ParseMagnitude(t)
      case None => None
      case Some(m) => Some(m)
  }

  /** The unsigned part of `parseInt`: radix 16 after a `0x`/`0X` prefix, else 10; the longest digit run. */
  function ParseMagnitude(u: string): Option<nat> {
    var hex := |u| >= 2 && u[0] == '0' && (u[1] == 'x' || u[1] == 'X');
    var radix := if hex then 16 else 10;
    var body := if hex then u[2..] else u;
    var n := DigitRun(body, radix);
    if n == 0 then None else Some(DigitsValue(body[..n], radix))
  }

  function DecimalDigit(d: nat): (c: char)
    requires d < 10
    ensures DigitValue(c) == d
  {
    ('0' as int + d) as char
  }

  /** The decimal numeral of `n`, as `Number.prototype.toString` writes an integer. */
  function NatToString(n: nat): (s: string)
    ensures |s| >= 1
    ensures forall k :: 0 <= k < |s| ==> '0' <= s[k] <= '9'
  {
    if n < 10 then [DecimalDigit(n)] else NatToString(n / 10) + [DecimalDigit(n % 10)]
  }

  function IntToString(n: int): string {
    if n < 0 then "-" + NatToString(-n) else NatToString(n)
  }

  lemma {:induction false} DecimalValue(n: nat)
    ensures DigitsValue(NatToString(n), 10) == n
  {
    var s := NatToString(n);
    if n >= 10 {
      assert s[..|s| - 1] == NatToString(n / 10);
      DecimalValue(n / 10);
    } else {
      assert s[..|s| - 1] == [];
    }
  }

  /** A decimal numeral reads back, through `parseInt`'s unsigned part, as its value. */
  lemma ParseMagnitudeOfDecimal(n: nat)
    ensures ParseMagnitude(NatToString(n)) == Some(n)
  {
    var u := NatToString(n);
    assert !(|u| >= 2 && u[0] == '0' && (u[1] == 'x' || u[1] == 'X'));
    assert DigitRun(u, 10) == |u|;
    assert u[..|u|] == u;
    DecimalValue(n);
  }

  /** A string that does not start with whitespace is its own `trimStart`. */
  lemma TrimStartNoop(s: string)
    requires s != [] && !IsSpace(s[0])
    ensures TrimStart(s) == s
  {
  }

  /** Printing an integer and reading it back with `parseInt` gives the same integer. */
  lemma ParseIntOfToString(n: int)
    ensures ParseInt(IntToString(n)) == Some(n)
  {
    if n < 0 {
      var m: nat := -n;
      var s := "-" + NatToString(m);
      TrimStartNoop(s);
      assert s[1..] == NatToString(m);
      ParseMagnitudeOfDecimal(m);
      assert ParseInt(s) == Some(-(m as int));
    } else {
      var s := NatToString(n);
      assert '0' <= s[0] <= '9';
      TrimStartNoop(s);
      ParseMagnitudeOfDecimal(n);
    }
  }
}
