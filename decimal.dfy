/**
 * Base-10 integer text. `strconv.ParseInt(s, 10, 64)` reads the `id` route
 * variable of the handlers in gorm_crud.go, and the `%v` verb of `fmt.Sprintf`
 * writes an integer primary key into a cache key (cache.go).
 */
module Decimal {
  import opened Wrappers

  const MinInt64: int := -0x8000_0000_0000_0000
  const MaxInt64: int := 0x7fff_ffff_ffff_ffff

  predicate InInt64(n: int) {
    MinInt64 <= n <= MaxInt64
  }

  predicate IsDigit(c: char) {
    '0' <= c <= '9'
  }

  predicate AllDigits(s: string) {
    forall i :: 0 <= i < |s| ==> IsDigit(s[i])
  }

  function DigitValue(c: char): (d: nat)
    requires IsDigit(c)
    ensures d < 10
  {
    c as int - '0' as int
  }

  function DigitChar(d: nat): (c: char)
    requires d < 10
    ensures IsDigit(c) && DigitValue(c) == d
  {
    ('0' as int + d) as char
  }

  /** The value of a run of digits, most significant digit first. */
  function DigitsValue(ds: string): nat
    requires AllDigits(ds)
    decreases |ds|
  {
    if ds == [] then 0 else 10 * DigitsValue(ds[..|ds| - 1]) + DigitValue(ds[|ds| - 1])
  }

  /** `%v` of a non-negative integer: its shortest digit string. */
  function FormatNat(n: nat): (s: string)
    ensures |s| > 0 && AllDigits(s)
    ensures DigitsValue(s) == n
    ensures s[0] == '0' ==> s == "0"
    decreases n
  {
    if n < 10 then [DigitChar(n)]
    else
      var s := FormatNat(n / 10) + [DigitChar(n % 10)];
      assert s[..|s| - 1] == FormatNat(n / 10);
      s
  }

  /** `%v` of an integer: a minus sign for negative values, then the digits. */
  function FormatInt(n: int): (s: string)
    ensures |s| > 0
    ensures n < 0 <==> s[0] == '-'
  {
    if n < 0 then "-" + FormatNat(-n) else FormatNat(n)
  }

  /**
   * `strconv.ParseInt(s, 10, 64)`: an optional sign, at least one digit and
   * nothing else, whose value fits in a signed 64-bit integer; anything else
   * is an error (None).
   */
  function ParseInt64(s: string): (r: Option<int>)
    ensures r.Some? ==> InInt64(r.value)
    ensures r.Some? ==> |s| > 0 && (IsDigit(s[0]) || s[0] == '+' || s[0] == '-')
    ensures r.Some? ==> forall i :: 0 < i < |s| ==> IsDigit(s[i])
    ensures r.Some? <==>
      && |s| > 0
      && var d := if s[0] == '+' || s[0] == '-' then s[1..] else s;
         && d != [] && AllDigits(d)
         && InInt64(if s[0] == '-' then -(DigitsValue(d) as int) else DigitsValue(d))
    ensures r.Some? && s[0] == '-' ==> r.value == -(DigitsValue(s[1..]) as int)
    ensures r.Some? && s[0] == '+' ==> r.value == DigitsValue(s[1..])
    ensures r.Some? && IsDigit(s[0]) ==> r.value == DigitsValue(s)
  {
    if s == [] then None
    else
      var neg := s[0] == '-';
      var digits := if s[0] == '+' || s[0] == '-' then s[1..] else s;
      if digits == [] || !AllDigits(digits) then None
      else
        var v: int := if neg then -(DigitsValue(digits) as int) else DigitsValue(digits);
        if InInt64(v) then Some(v) else None
  }

  /** A digit run with no redundant leading zero. */
  predicate NoLeadingZero(ds: string) {
    |ds| > 0 && (ds[0] == '0' ==> |ds| == 1)
  }

  /** The text `%v` would print for the value `s` parses to: no `+`, no leading zero, no `-0`. */
  predicate Canonical(s: string) {
    if |s| > 0 && s[0] == '-' then AllDigits(s[1..]) && NoLeadingZero(s[1..]) && s[1..] != "0"
    else AllDigits(s) && NoLeadingZero(s)
  }

  lemma {:induction false} DigitsValuePositive(ds: string)
    requires AllDigits(ds) && NoLeadingZero(ds) && ds != "0"
    ensures DigitsValue(ds) > 0
    decreases |ds|
  {
    var n := |ds|;
    if n > 1 {
      var front := ds[..n - 1];
      assert front[0] == ds[0] != '0';
      DigitsValuePositive(front);
    } else {
      assert ds[..0] == [];
    }
  }

  /** Formatting the value of a canonical digit run gives the run back. */
  lemma {:induction false} FormatDigitsValue(ds: string)
    requires AllDigits(ds) && NoLeadingZero(ds)
    ensures FormatNat(DigitsValue(ds)) == ds
    decreases |ds|
  {
    var n := |ds|;
    if n == 1 {
      assert ds[..0] == [];
    } else {
      var front := ds[..n - 1];
      assert front[0] == ds[0];
      DigitsValuePositive(front);
      FormatDigitsValue(front);
      var v := DigitsValue(ds);
      assert v == 10 * DigitsValue(front) + DigitValue(ds[n - 1]);
      assert v / 10 == DigitsValue(front) && v % 10 == DigitValue(ds[n - 1]);
      assert ds == front + [ds[n - 1]];
    }
  }

  /** Every integer of the signed 64-bit range parses back from its `%v` text. */
  lemma ParseFormat(n: int)
    requires InInt64(n)
    ensures ParseInt64(FormatInt(n)) == Some(n)
  {
    var s := FormatInt(n);
    if n < 0 {
      assert s[1..] == FormatNat(-n);
    }
  }

  /** Two integers with the same `%v` text are equal. */
  lemma FormatIntInjective(a: int, b: int)
    requires FormatInt(a) == FormatInt(b)
    ensures a == b
  {
    if a < 0 {
      assert FormatInt(a)[1..] == FormatNat(-a);
      assert FormatInt(b)[1..] == FormatNat(-b);
    }
  }

  /** A canonical text that parses is exactly the `%v` text of its value. */
  lemma FormatParse(s: string)
    requires ParseInt64(s).Some? && Canonical(s)
    ensures FormatInt(ParseInt64(s).value) == s
  {
    if s[0] == '-' {
      FormatParseNegative(s, ParseInt64(s).value);
    } else {
      assert IsDigit(s[0]);
      FormatDigitsValue(s);
    }
  }

  lemma FormatParseNegative(s: string, v: int)
    requires |s| > 1 && s[0] == '-' && AllDigits(s[1..]) && NoLeadingZero(s[1..]) && s[1..] != "0"
    requires v == -(DigitsValue(s[1..]) as int)
    ensures FormatInt(v) == s
  {
    var ds := s[1..];
    DigitsValuePositive(ds);
    FormatDigitsValue(ds);
    assert s == "-" + ds;
  }

  /** A sign, leading zeros and a negative zero are accepted; an empty text, a bare sign or a stray letter is not. */
  lemma ParseInt64Accepts()
    ensures ParseInt64("+5") == Some(5)
    ensures ParseInt64("007") == Some(7)
    ensures ParseInt64("-0") == Some(0)
    ensures ParseInt64("") == None
    ensures ParseInt64("-") == None
    ensures ParseInt64("1a") == None
  {
    assert DigitsValue("5") == 5;
    assert DigitsValue("0") == 0;
    assert DigitsValue("00") == 0;
    assert DigitsValue("007") == 7;
    assert !IsDigit('a');
  }
}
