/** Decimal text as the app reads it: `isDigitsOnly()`, and Kotlin's
    `String.toInt()` (on the JVM, `Integer.parseInt` in radix 10), which
    throws instead of wrapping when the value leaves the 32-bit range.
    Only the ASCII digits '0'..'9' are modelled. */
module NumericText {
  import opened Base

  /** Bounds of Kotlin's 32-bit `Int`. */
  const IntMin: int := -0x8000_0000
  const IntMax: int := 0x7fff_ffff

  predicate InIntRange(n: int) {
    IntMin <= n <= IntMax
  }

  predicate IsDigit(c: char) {
    '0' <= c <= '9'
  }

  /** `isDigitsOnly()`: every character is a digit. Holds of "" as well. */
  predicate IsDigitsOnly(s: string) {
    forall i :: 0 <= i < |s| ==> IsDigit(s[i])
  }

  function DigitValue(c: char): (d: nat)
    requires IsDigit(c)
    ensures d < 10
  {
    (c as int) - ('0' as int)
  }

  function DigitChar(d: nat): (c: char)
    requires d < 10
    ensures IsDigit(c) && DigitValue(c) == d
  {
    (('0' as int) + d) as char
  }

  /** The unbounded natural number a digit string denotes (leading zeros allowed). */
  function DigitsValue(s: string): nat
    requires IsDigitsOnly(s)
    decreases |s|
  {
    if s == [] then 0 else DigitsValue(s[..|s| - 1]) * 10 + DigitValue(s[|s| - 1])
  }

  /** One unfolding of `DigitsValue`, for evaluating it on concrete texts. */
  lemma DigitsValueStep(s: string, prefix: string, n: nat)
    requires IsDigitsOnly(s) && s != [] && prefix == s[..|s| - 1] && DigitsValue(prefix) == n
    ensures DigitsValue(s) == n * 10 + DigitValue(s[|s| - 1])
  {
  }

  /** The canonical decimal rendering of `n` (Kotlin's `Int.toString()` for n >= 0). */
  function DecimalString(n: nat): (s: string)
    ensures s != [] && IsDigitsOnly(s)
    ensures s[0] != '0' || n == 0
    decreases n
  {
    if n < 10 then [DigitChar(n)] else DecimalString(n / 10) + [DigitChar(n % 10)]
  }

  /** `Int.toString()`: a minus sign for negative values. */
  function IntToString(n: int): (s: string)
    ensures s != []
  {
    if n < 0 then "-" + DecimalString(-n) else DecimalString(n)
  }

  /** `n` zero characters. */
  function Zeros(n: nat): (s: string)
    ensures |s| == n && IsDigitsOnly(s)
    ensures forall i :: 0 <= i < n ==> s[i] == '0'
  {
    if n == 0 then [] else Zeros(n - 1) + "0"
  }

  /** `String.toInt()`: an optional sign followed by at least one digit, whose
      value fits in `Int`; every other string throws `NumberFormatException`. */
  function ToInt(s: string): (r: Checked<int>)
    ensures r.Returns? ==> InIntRange(r.value)
    ensures r.NumberFormatError? ==> r.input == s
    ensures s == [] ==> r.NumberFormatError?
    ensures s != [] && IsDigitsOnly(s) ==>
              (r.Returns? <==> DigitsValue(s) <= IntMax) &&
              (r.Returns? ==> r.value == DigitsValue(s))
  {
    if s == [] then NumberFormatError(s)
    else if s[0] == '-' || s[0] == '+' then
      var body := s[1..];
      if body == [] || !IsDigitsOnly(body) then NumberFormatError(s)
      else
        var v: int := if s[0] == '-' then -(DigitsValue(body) as int) else DigitsValue(body);
        if InIntRange(v) then Returns(v) else NumberFormatError(s)
    else if !IsDigitsOnly(s) then NumberFormatError(s)
    else if DigitsValue(s) <= IntMax then Returns(DigitsValue(s))
    else NumberFormatError(s)
  }

  /** Reading back the canonical rendering of `n` gives `n`. */
  lemma {:induction false} DecimalStringValue(n: nat)
    ensures DigitsValue(DecimalString(n)) == n
    decreases n
  {
    if n >= 10 {
      var p := DecimalString(n / 10);
      var s := p + [DigitChar(n % 10)];
      assert s[..|s| - 1] == p;
      DecimalStringValue(n / 10);
    }
  }

  /** `toInt()` inverts `toString()` on every `Int`. */
  lemma ToIntRoundTrip(n: int)
    requires InIntRange(n)
    ensures ToInt(IntToString(n)) == Returns(n)
  {
    var s := IntToString(n);
    if n < 0 {
      var body := DecimalString(-n);
      assert s[0] == '-' && s[1..] == body;
      DecimalStringValue(-n);
      assert -(DigitsValue(body) as int) == n;
    } else {
      assert IsDigit(s[0]);
      DecimalStringValue(n);
    }
  }

  /** A digit string without a leading zero denotes a positive number. */
  lemma {:induction false} LeadingNonZeroPositive(s: string)
    requires s != [] && IsDigitsOnly(s) && s[0] != '0'
    ensures DigitsValue(s) >= 1
    decreases |s|
  {
    if |s| > 1 {
      var p := s[..|s| - 1];
      assert p[0] == s[0];
      LeadingNonZeroPositive(p);
    }
  }

  /** A digit string without a leading zero is the canonical rendering of its value. */
  lemma {:induction false} CanonicalDecimal(s: string)
    requires s != [] && IsDigitsOnly(s) && s[0] != '0'
    ensures DecimalString(DigitsValue(s)) == s
    decreases |s|
  {
    if |s| > 1 {
      var p := s[..|s| - 1];
      var d := DigitValue(s[|s| - 1]);
      assert p[0] == s[0];
      LeadingNonZeroPositive(p);
      CanonicalDecimal(p);
      var n := DigitsValue(s);
      assert n == DigitsValue(p) * 10 + d;
      assert n / 10 == DigitsValue(p) && n % 10 == d;
      assert DigitChar(d) == s[|s| - 1];
      assert s == p + [s[|s| - 1]];
    }
  }

  /** A run of zeros denotes 0. */
  lemma {:induction false} ZerosValue(n: nat)
    ensures DigitsValue(Zeros(n)) == 0
    decreases n
  {
    if n > 0 {
      assert Zeros(n)[..n - 1] == Zeros(n - 1);
      ZerosValue(n - 1);
    }
  }

  /** Leading zeros do not change the value. */
  lemma {:induction false} LeadingZerosValue(k: nat, t: string)
    requires IsDigitsOnly(t)
    ensures IsDigitsOnly(Zeros(k) + t)
    ensures DigitsValue(Zeros(k) + t) == DigitsValue(t)
    decreases |t|
  {
    var s := Zeros(k) + t;
    if t == [] {
      assert s == Zeros(k);
      ZerosValue(k);
    } else {
      assert s[..|s| - 1] == Zeros(k) + t[..|t| - 1];
      LeadingZerosValue(k, t[..|t| - 1]);
    }
  }

  /** The longest suffix of `s` that does not start with '0'. */
  function StripLeadingZeros(s: string): (t: string)
    ensures |t| <= |s| && t == s[|s| - |t|..]
    ensures t == [] || t[0] != '0'
    ensures forall i :: 0 <= i < |s| - |t| ==> s[i] == '0'
    decreases |s|
  {
    if s != [] && s[0] == '0' then StripLeadingZeros(s[1..]) else s
  }

  /** Every digit string is some zeros followed by a canonical number, or by nothing. */
  lemma DigitsDecompose(s: string)
    requires IsDigitsOnly(s)
    ensures var t := StripLeadingZeros(s);
            && IsDigitsOnly(t)
            && s == Zeros(|s| - |t|) + t
            && DigitsValue(s) == DigitsValue(t)
  {
    var t := StripLeadingZeros(s);
    var k := |s| - |t|;
    assert s == Zeros(k) + t;
    LeadingZerosValue(k, t);
  }
}
