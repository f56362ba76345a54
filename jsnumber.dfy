/**
 * `parseInt(s, 10)` and the decimal form of an integer, over mathematical
 * integers (no 2^53 rounding).
 */
module JsNumber {
  import opened Wrappers
  import opened Text

  function DigitValue(c: char): (n: nat)
    requires IsDigit(c)
    ensures n < 10
  {
    (c as int - '0' as int) as nat
  }

  function DigitChar(n: nat): (c: char)
    requires n < 10
    ensures IsDigit(c) && DigitValue(c) == n
  {
    ('0' as int + n) as char
  }

  /** The value of a string of decimal digits; leading zeros are allowed. */
  function DecimalValue(d: string): nat
    requires AllDigits(d)
  {
    if d == [] then 0 else 10 * DecimalValue(d[..|d| - 1]) + DigitValue(d[|d| - 1])
  }

  /** The decimal digits of `n`, without leading zeros: `String(n)` for n >= 0. */
  function DecimalString(n: nat): (d: string)
    ensures |d| > 0 && AllDigits(d)
    ensures DecimalValue(d) == n
    ensures d[0] == '0' ==> n == 0
  {
    if n < 10 then [DigitChar(n)]
    else
      var d := DecimalString(n / 10) + [DigitChar(n % 10)];
      assert d[..|d| - 1] == DecimalString(n / 10);
      d
  }

  /** `String(n)` for an integer `n`. */
  function IntString(n: int): string
  {
    if n < 0 then "-" + DecimalString(-n) else DecimalString(n)
  }

  /** The length of the run of digits at the start of `s`. */
  function DigitRun(s: string): (k: nat)
    ensures k <= |s| && AllDigits(s[..k])
    ensures k < |s| ==> !IsDigit(s[k])
  {
    if |s| > 0 && IsDigit(s[0]) then
      var k := 1 + DigitRun(s[1..]);
      assert forall i :: 1 <= i < k ==> s[..k][i] == s[1..][..k - 1][i - 1];
      k
    else 0
  }

  /**
   * `parseInt(s, 10)`, None standing for NaN: skip leading white space, take
   * one optional sign, then the longest run of digits; no digits is NaN.
   */
  function ParseInt10(s: string): Option<int>
  {
    var t := TrimStart(s);
    var negative := |t| > 0 && t[0] == '-';
    var u := if |t| > 0 && (t[0] == '-' || t[0] == '+') then t[1..] else t;
    var k := DigitRun(u);
    var v: int := if k == 0 then 0 else DecimalValue(u[..k]);
    if k == 0 then None else if negative then Some(-v) else Some(v)
  }

  /** `parseInt` reads a whole digit string as its decimal value. */
  lemma ParseDigits(d: string)
    requires |d| > 0 && AllDigits(d)
    ensures ParseInt10(d) == Some(DecimalValue(d))
  {
    assert !IsJsSpace(d[0]);
    assert TrimStart(d) == d;
    DigitRunAll(d);
    assert d[..|d|] == d;
  }

  /** `parseInt` reads a minus sign and a digit string as the negated value. */
  lemma ParseNegatedDigits(d: string)
    requires |d| > 0 && AllDigits(d)
    ensures ParseInt10("-" + d) == Some(-(DecimalValue(d) as int))
  {
    var m := "-" + d;
    assert !IsJsSpace(m[0]);
    assert TrimStart(m) == m;
    assert m[1..] == d;
    DigitRunAll(d);
    assert d[..|d|] == d;
  }

  lemma {:induction false} DigitRunAll(d: string)
    requires AllDigits(d)
    ensures DigitRun(d) == |d|
  {
    if d != [] {
      DigitRunAll(d[1..]);
    }
  }

  /** `parseInt(String(n), 10) == n` for every integer `n`. */
  lemma ParseIntString(n: int)
    ensures ParseInt10(IntString(n)) == Some(n)
  {
    if n < 0 {
      ParseNegatedDigits(DecimalString(-n));
    } else {
      ParseDigits(DecimalString(n));
    }
  }
}
