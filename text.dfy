/**
 * The handful of Python string operations the backend applies to request
 * fields and signed messages: `str.strip()`, `str.lower()` (on ASCII letters)
 * and the decimal rendering an f-string gives an integer.
 */
module Text {

  /** The characters for which Python's `str.isspace()` holds; `str.strip()` removes exactly these. */
  predicate IsSpace(c: char) {
    var n := c as int;
    (9 <= n <= 13) || (28 <= n <= 32) || n == 0x85 || n == 0xA0 || n == 0x1680
    || (0x2000 <= n <= 0x200A) || n == 0x2028 || n == 0x2029 || n == 0x202F
    || n == 0x205F || n == 0x3000
  }

  predicate AllSpace(s: string) {
    forall i :: 0 <= i < |s| ==> IsSpace(s[i])
  }

  /** Number of whitespace characters at the front of `s`. */
  function LeadingSpaces(s: string): (k: nat)
    ensures k <= |s|
    ensures forall j :: 0 <= j < k ==> IsSpace(s[j])
    ensures k < |s| ==> !IsSpace(s[k])
    decreases |s|
  {
    if s == [] || !IsSpace(s[0]) then 0 else 1 + LeadingSpaces(s[1..])
  }

  /** Number of whitespace characters at the end of `s`. */
  function TrailingSpaces(s: string): (k: nat)
    ensures k <= |s|
    ensures forall j :: |s| - k <= j < |s| ==> IsSpace(s[j])
    ensures k < |s| ==> !IsSpace(s[|s| - 1 - k])
    decreases |s|
  {
    if s == [] || !IsSpace(s[|s| - 1]) then 0 else 1 + TrailingSpaces(s[..|s| - 1])
  }

  /** Python's `s.strip()`: the middle of `s` between its leading and trailing whitespace. */
  function Strip(s: string): (r: string)
    ensures |r| <= |s|
    ensures r == [] <==> AllSpace(s)
    ensures r != [] ==> !IsSpace(r[0]) && !IsSpace(r[|r| - 1])
    ensures exists i, j :: 0 <= i <= j <= |s| && r == s[i..j] && AllSpace(s[..i]) && AllSpace(s[j..])
  {
    var i := LeadingSpaces(s);
    var t := TrailingSpaces(s[i..]);
    StripBlank(s, i, t);
    StripMargins(s, i, t);
    s[i..|s| - t]
  }

  lemma StripMargins(s: string, i: nat, t: nat)
    requires i == LeadingSpaces(s) && t == TrailingSpaces(s[i..])
    ensures i <= |s| - t
    ensures AllSpace(s[..i]) && AllSpace(s[|s| - t..])
  {
    var u := s[i..];
    SpacePrefix(s, i);
    SpaceSuffix(u, t);
    assert s[|s| - t..] == u[|u| - t..];
  }

  lemma SpacePrefix(s: string, k: nat)
    requires k <= |s| && forall j :: 0 <= j < k ==> IsSpace(s[j])
    ensures AllSpace(s[..k])
  {
    forall j | 0 <= j < k ensures IsSpace(s[..k][j]) {
      assert s[..k][j] == s[j];
    }
  }

  lemma SpaceSuffix(s: string, k: nat)
    requires k <= |s| && forall j :: |s| - k <= j < |s| ==> IsSpace(s[j])
    ensures AllSpace(s[|s| - k..])
  {
    var v := s[|s| - k..];
    forall j | 0 <= j < |v| ensures IsSpace(v[j]) {
      assert v[j] == s[|s| - k + j];
    }
  }

  lemma StripBlank(s: string, i: nat, t: nat)
    requires i == LeadingSpaces(s) && t == TrailingSpaces(s[i..])
    ensures i <= |s| - t
    ensures s[i..|s| - t] == [] <==> AllSpace(s)
    ensures s[i..|s| - t] != [] ==> !IsSpace(s[i]) && !IsSpace(s[|s| - t - 1])
  {
    if i < |s| {
      // a non-blank remainder starts with a non-space, so it is not all trailing whitespace
      assert !IsSpace(s[i..][0]);
    }
  }

  function LowerChar(c: char): char {
    if 'A' <= c <= 'Z' then (c as int - 'A' as int + 'a' as int) as char else c
  }

  /** Python's `s.lower()` restricted to ASCII letters (addresses are hexadecimal). */
  function Lower(s: string): (r: string)
    ensures |r| == |s|
    ensures forall i :: 0 <= i < |s| ==> r[i] == LowerChar(s[i])
  {
    seq(|s|, i requires 0 <= i < |s| => LowerChar(s[i]))
  }

  /** Lower-casing twice is lower-casing once: a lower-cased key is its own normal form. */
  lemma LowerIdempotent(s: string)
    ensures Lower(Lower(s)) == Lower(s)
  {
    assert forall i :: 0 <= i < |s| ==> LowerChar(LowerChar(s[i])) == LowerChar(s[i]);
  }

  predicate IsDigit(c: char) {
    '0' <= c <= '9'
  }

  function DigitChar(d: nat): (c: char)
    requires d < 10
    ensures IsDigit(c) && c as int - '0' as int == d
  {
    ('0' as int + d) as char
  }

  /** Python's `str(n)` for a natural number: its decimal digits, most significant first. */
  function NatToString(n: nat): (s: string)
    ensures |s| >= 1
    ensures forall i :: 0 <= i < |s| ==> IsDigit(s[i])
    decreases n
  {
    if n < 10 then [DigitChar(n)] else NatToString(n / 10) + [DigitChar(n % 10)]
  }

  /** The value of a string of decimal digits (the reading-back direction of `NatToString`). */
  function DigitsValue(s: string): nat
    requires forall i :: 0 <= i < |s| ==> IsDigit(s[i])
  {
    if s == [] then 0
    else
      var last := s[|s| - 1];
      assert IsDigit(last);
      10 * DigitsValue(s[..|s| - 1]) + (last as int - '0' as int)
  }

  lemma {:induction false} DigitsValueOfNatToString(n: nat)
    ensures DigitsValue(NatToString(n)) == n
    decreases n
  {
    if n >= 10 {
      var s := NatToString(n);
      assert s[..|s| - 1] == NatToString(n / 10);
      DigitsValueOfNatToString(n / 10);
    }
  }

  /** The f-string rendering `f"{i}"` of a Python integer. */
  function IntToString(i: int): (s: string)
    ensures |s| >= 1
  {
    if i < 0 then "-" + NatToString(-i) else NatToString(i)
  }

  /** Distinct integers render differently, so two messages that differ only in a number differ. */
  lemma IntToStringInjective(a: int, b: int)
    requires IntToString(a) == IntToString(b)
    ensures a == b
  {
    var m: nat := if a < 0 then -a else a;
    var n: nat := if b < 0 then -b else b;
    assert IsDigit(NatToString(m)[0]) && IsDigit(NatToString(n)[0]);
    assert IntToString(a) == (if a < 0 then "-" else "") + NatToString(m);
    assert IntToString(b) == (if b < 0 then "-" else "") + NatToString(n);
    assert (a < 0) == (IntToString(a)[0] == '-') == (b < 0);
    assert NatToString(m) == NatToString(n) by {
      if a < 0 {
        assert NatToString(m) == IntToString(a)[1..];
        assert NatToString(n) == IntToString(b)[1..];
      }
    }
    DigitsValueOfNatToString(m);
    DigitsValueOfNatToString(n);
  }
}
