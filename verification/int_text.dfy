/** Decimal text of integers as the configuration file holds them:
    `std::stoi` on the way in and `operator<<(int)` on the way out. */
module IntText {
  import opened Base

  /** The two exceptions `std::stoi` throws. */
  datatype StoiError = InvalidArgument | OutOfRange

  /** `isspace` in the C locale. */
  predicate IsSpace(c: char)
  {
    c == ' ' || c == '\t' || c == '\n' || c == '\r' || c as int == 11 || c as int == 12
  }

  predicate IsDigit(c: char)
  {
    '0' <= c <= '9'
  }

  predicate AllDigits(s: string)
  {
    forall i :: 0 <= i < |s| ==> IsDigit(s[i])
  }

  function DigitChar(d: nat): (c: char)
    requires d < 10
    ensures IsDigit(c) && c as int - '0' as int == d
  {
    ('0' as int + d) as char
  }

  /** The value of a run of decimal digits, most significant first. */
  function DigitsValue(ds: string): nat
    requires AllDigits(ds)
  {
    if ds == [] then 0
    else DigitsValue(ds[..|ds| - 1]) * 10 + (ds[|ds| - 1] as int - '0' as int)
  }

  /** The text left after `strtol` skips leading white space. */
  function SkipSpace(s: string): (r: string)
    ensures r == [] || !IsSpace(r[0])
    ensures exists k :: 0 <= k <= |s| && r == s[k..]
  {
    if s != [] && IsSpace(s[0]) then
      var r := SkipSpace(s[1..]);
      assert forall k :: 0 <= k <= |s| - 1 ==> s[1..][k..] == s[k + 1..];
      r
    else
      assert s == s[0..];
      s
  }

  /** The length of the longest run of digits at the start of `s`. */
  function DigitRun(s: string): (n: nat)
    ensures n <= |s| && AllDigits(s[..n])
    ensures n < |s| ==> !IsDigit(s[n])
  {
    if s != [] && IsDigit(s[0]) then
      var n := DigitRun(s[1..]);
      assert s[..n + 1] == [s[0]] + s[1..][..n];
      n + 1
    else 0
  }

  /** `std::stoi(s)` in base 10: leading white space, an optional sign, then
      the longest run of digits; anything after that run is ignored. No digit
      throws `invalid_argument`; a value outside `int` throws `out_of_range`. */
  function Stoi(s: string): (r: Result<int32, StoiError>)
    ensures (forall i :: 0 <= i < |s| ==> !IsDigit(s[i])) ==> r == Err(InvalidArgument)
  {
    var t := SkipSpace(s);
    var negative := t != [] && t[0] == '-';
    var u := if t != [] && (t[0] == '-' || t[0] == '+') then t[1..] else t;
    var n := DigitRun(u);
    if n == 0 then Err(InvalidArgument)
    else
      var magnitude: int := DigitsValue(u[..n]);
      var v: int := if negative then -magnitude else magnitude;
      if INT_MIN <= v <= INT_MAX then Ok(v) else Err(OutOfRange)
  }

  /** The decimal digits of a natural number, without leading zeros. */
  function NatToString(n: nat): (r: string)
    ensures r != [] && AllDigits(r)
    ensures r[0] != '0' || n == 0
  {
    if n < 10 then [DigitChar(n)] else NatToString(n / 10) + [DigitChar(n % 10)]
  }

  /** `std::ostream << int`: an optional '-' followed by the digits. */
  function IntToString(n: int): (r: string)
    ensures r != [] && (r[0] == '-' || IsDigit(r[0]))
    ensures '=' !in r
  {
    if n < 0 then "-" + NatToString(-n) else NatToString(n)
  }

  lemma {:induction false} DigitsValueOfNatToString(n: nat)
    ensures DigitsValue(NatToString(n)) == n
  {
    if n >= 10 {
      var s := NatToString(n);
      DigitsValueOfNatToString(n / 10);
      assert s[..|s| - 1] == NatToString(n / 10);
    }
  }

  /** Writing an `int` and reading it back with `std::stoi` gives the same value. */
  lemma StoiOfIntToString(n: int32)
    ensures Stoi(IntToString(n)) == Ok(n)
  {
    var m: int := n;
    var s := IntToString(m);
    var digits := if m < 0 then NatToString(-m) else NatToString(m);
    assert SkipSpace(s) == s;
    var u := if s[0] == '-' || s[0] == '+' then s[1..] else s;
    assert u == digits;
    assert DigitRun(u) == |digits| by {
      DigitRunOfDigits(digits);
    }
    assert u[..|digits|] == digits;
    DigitsValueOfNatToString(if m < 0 then -m else m);
  }

  lemma {:induction false} DigitRunOfDigits(s: string)
    requires AllDigits(s)
    ensures DigitRun(s) == |s|
  {
    if s != [] {
      DigitRunOfDigits(s[1..]);
    }
  }
}
