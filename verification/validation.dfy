/** The generator's validation engine: the range check on width and height,
    the format-dependent check on the payload, the gate that combines them,
    and the mapping from the selected format button to a symbology. */
module Validation {
  import opened Base
  import opened NumericText
  import opened UiStates

  /** The symbologies the generator can produce. */
  datatype BarcodeFormat = QrCode | Ean13 | Aztec | DataMatrix

  /** Position of each symbology among the generator's format buttons. */
  function FormatIndex(f: BarcodeFormat): (i: int)
    ensures 0 <= i <= 3
  {
    match f
    case QrCode => 0
    case Ean13 => 1
    case Aztec => 2
    case DataMatrix => 3
  }

  /** The symbology `generate()` asks the encoder for. Total: an index
      outside the buttons falls back to QR code. */
  function FormatOf(formatIndex: int): (f: BarcodeFormat)
    ensures 0 <= formatIndex <= 3 ==> FormatIndex(f) == formatIndex
    ensures !(0 <= formatIndex <= 3) ==> f == QrCode
  {
    if formatIndex == 1 then Ean13
    else if formatIndex == 2 then Aztec
    else if formatIndex == 3 then DataMatrix
    else QrCode
  }

  /** Every symbology is reached from its own button. */
  lemma FormatIndexRoundTrip(f: BarcodeFormat)
    ensures FormatOf(FormatIndex(f)) == f
  {
  }

  const MinDimension: nat := 200
  const MaxDimension: nat := 800

  /** An all-digit text whose value does not fit in a Kotlin `Int`. */
  predicate Overflows(s: string) {
    s != [] && IsDigitsOnly(s) && DigitsValue(s) > IntMax
  }

  /** The range check exactly as the Kotlin expression evaluates it: the
      value is read with `toInt()`, which throws on an all-digit text too
      large for an `Int`. */
  function IsNotInRangeAsWritten(s: string): (r: Checked<bool>)
    ensures r.Returns? ==> r.value == IsNotInRange(s)
    ensures r.NumberFormatError? <==> Overflows(s)
    ensures r.NumberFormatError? ==> r.input == s
  {
    if s == [] || !IsDigitsOnly(s) then Returns(true)
    else
      match ToInt(s)
      case NumberFormatError(input) => NumberFormatError(input)
      case Returns(n) => Returns(!(MinDimension <= n <= MaxDimension))
  }

  /** A valid dimension, described without parsing: some leading zeros
      followed by the canonical decimal text of a number in 200..800. */
  ghost predicate IsDimensionText(s: string) {
    exists k: nat, n: nat :: MinDimension <= n <= MaxDimension && s == Zeros(k) + DecimalString(n)
  }

  /** A non-empty digit text with a value in 200..800 is exactly a dimension text. */
  lemma DimensionTextCharacterization(s: string)
    ensures (s != [] && IsDigitsOnly(s) && MinDimension <= DigitsValue(s) <= MaxDimension) <==> IsDimensionText(s)
  {
    if s != [] && IsDigitsOnly(s) && MinDimension <= DigitsValue(s) <= MaxDimension {
      DigitsDecompose(s);
      var t := StripLeadingZeros(s);
      var k := |s| - |t|;
      CanonicalDecimal(t);
      assert s == Zeros(k) + DecimalString(DigitsValue(s));
    }
    if IsDimensionText(s) {
      var k: nat, n: nat :| MinDimension <= n <= MaxDimension && s == Zeros(k) + DecimalString(n);
      LeadingZerosValue(k, DecimalString(n));
      DecimalStringValue(n);
    }
  }

  /** The range check on a width or height text, with the digits read as an
      unbounded number: empty, a non-digit, or a value outside 200..800. It
      rejects a text exactly when the text is not a dimension text. */
  function IsNotInRange(s: string): (r: bool)
    ensures r <==> !IsDimensionText(s)
    ensures !r ==> 3 <= |s| && IsDigitsOnly(s)
  {
    DimensionTextCharacterization(s);
    DigitsBelowHundred(s);
    s == [] || !IsDigitsOnly(s) || !(MinDimension <= DigitsValue(s) <= MaxDimension)
  }

  /** A digit text of at most two characters denotes less than 100. */
  lemma DigitsBelowHundred(s: string)
    ensures IsDigitsOnly(s) && |s| <= 2 ==> DigitsValue(s) < 100
  {
  }

  function IsWidthError(g: GeneratorUiState): (r: bool)
    ensures r <==> !IsDimensionText(g.width)
  {
    IsNotInRange(g.width)
  }

  function IsHeightError(g: GeneratorUiState): (r: bool)
    ensures r <==> !IsDimensionText(g.height)
  {
    IsNotInRange(g.height)
  }

  /** The payload rule each symbology imposes: EAN-13 takes 12 or 13 digits
      (the encoder adds or checks the check digit), the others any non-empty text. */
  predicate AcceptsCode(f: BarcodeFormat, code: string) {
    if f == Ean13 then IsDigitsOnly(code) && 12 <= |code| <= 13 else code != []
  }

  /** The payload check, switching on the raw index as the view model does.
      Its index switch agrees with the one of the format mapping: the payload
      is wrong exactly when the symbology `generate()` would request rejects it. */
  function IsCodeError(g: GeneratorUiState): (r: bool)
    ensures r <==> !AcceptsCode(FormatOf(g.formatIndex), g.code)
    ensures g.formatIndex != 1 ==> (r <==> g.code == [])
  {
    if g.formatIndex == 1 then !(IsDigitsOnly(g.code) && 12 <= |g.code| <= 13)
    else g.code == []
  }

  /** The gate for the generate button: open exactly when both dimensions are
      dimension texts and the chosen symbology accepts the payload. */
  function CanGenerate(g: GeneratorUiState): (r: bool)
    ensures r <==>
              && IsDimensionText(g.width)
              && IsDimensionText(g.height)
              && AcceptsCode(FormatOf(g.formatIndex), g.code)
    ensures r ==> IsDigitsOnly(g.width) && IsDigitsOnly(g.height) && g.code != []
  {
    !IsWidthError(g) && !IsHeightError(g) && !IsCodeError(g)
  }

  /** `canGenerate()` as the Kotlin `&&` chain evaluates it: the height is only
      read when the width passed, and either read may throw. */
  function CanGenerateAsWritten(g: GeneratorUiState): (r: Checked<bool>)
    ensures r.Returns? ==> r.value == CanGenerate(g)
    ensures r.NumberFormatError? <==>
              Overflows(g.width) || (!IsWidthError(g) && Overflows(g.height))
    ensures r.NumberFormatError? ==>
              r.input == if Overflows(g.width) then g.width else g.height
  {
    match IsNotInRangeAsWritten(g.width)
    case NumberFormatError(input) => NumberFormatError(input)
    case Returns(widthError) =>
      if widthError then Returns(false)
      else
        match IsNotInRangeAsWritten(g.height)
        case NumberFormatError(input) => NumberFormatError(input)
        case Returns(heightError) => Returns(!heightError && !IsCodeError(g))
  }

  /** Every all-digit text beyond the `Int` range makes the check as written
      throw, where the intended answer is "not in range". */
  lemma AsWrittenThrowsBeyondInt(n: nat)
    requires n > IntMax
    ensures IsNotInRangeAsWritten(DecimalString(n)) == NumberFormatError(DecimalString(n))
    ensures IsNotInRange(DecimalString(n))
  {
    DecimalStringValue(n);
  }

  /** The value of the ten-digit text one past `Int.MAX_VALUE`. */
  lemma OnePastIntMaxValue()
    ensures IsDigitsOnly("2147483648") && DigitsValue("2147483648") == IntMax + 1
  {
    DigitsValueStep("2", "", 0);
    DigitsValueStep("21", "2", 2);
    DigitsValueStep("214", "21", 21);
    DigitsValueStep("2147", "214", 214);
    DigitsValueStep("21474", "2147", 2147);
    DigitsValueStep("214748", "21474", 21474);
    DigitsValueStep("2147483", "214748", 214748);
    DigitsValueStep("21474836", "2147483", 2147483);
    DigitsValueStep("214748364", "21474836", 21474836);
    DigitsValueStep("2147483648", "214748364", 214748364);
  }

  /** A concrete width that crashes the form: ten digits, one past `Int.MAX_VALUE`. */
  lemma OverflowingWidthCrashesCanGenerate()
    ensures IsNotInRangeAsWritten("2147483648") == NumberFormatError("2147483648")
    ensures IsNotInRange("2147483648")
    ensures CanGenerateAsWritten(DefaultGeneratorUiState.(width := "2147483648")).NumberFormatError?
  {
    OnePastIntMaxValue();
  }

  /** The value of a three-digit text, from its digits. */
  lemma ThreeDigitValue(s: string, a: nat, b: nat, c: nat)
    requires |s| == 3 && IsDigitsOnly(s)
    requires DigitValue(s[0]) == a && DigitValue(s[1]) == b && DigitValue(s[2]) == c
    ensures DigitsValue(s) == a * 100 + b * 10 + c
  {
    DigitsValueStep(s[..1], [], 0);
    DigitsValueStep(s[..2], s[..1], a);
    DigitsValueStep(s, s[..2], a * 10 + b);
  }

  /** Boundary cases of the range check. */
  lemma RangeBoundaries()
    ensures !IsNotInRange("200") && !IsNotInRange("800") && !IsNotInRange("0400")
    ensures IsNotInRange("199") && IsNotInRange("801")
    ensures IsNotInRange("") && IsNotInRange("12a") && IsNotInRange("-400")
  {
    ThreeDigitValue("199", 1, 9, 9);
    ThreeDigitValue("200", 2, 0, 0);
    ThreeDigitValue("800", 8, 0, 0);
    ThreeDigitValue("801", 8, 0, 1);
    ThreeDigitValue("400", 4, 0, 0);
    assert "0400" == Zeros(1) + "400";
    LeadingZerosValue(1, "400");
    assert !IsDigit("12a"[2]) && !IsDigit("-400"[0]);
  }

  /** Payload cases for EAN-13. */
  lemma Ean13Cases(g: GeneratorUiState)
    requires g.formatIndex == 1
    ensures !IsCodeError(g.(code := "123456789012"))
    ensures !IsCodeError(g.(code := "1234567890128"))
    ensures IsCodeError(g.(code := "1234567890"))
    ensures IsCodeError(g.(code := "12a456789012"))
  {
    assert !IsDigit("12a456789012"[2]);
  }

  /** The form starts with valid dimensions but no payload, so it cannot generate. */
  lemma DefaultCannotGenerate()
    ensures !IsWidthError(DefaultGeneratorUiState) && !IsHeightError(DefaultGeneratorUiState)
    ensures IsCodeError(DefaultGeneratorUiState)
    ensures !CanGenerate(DefaultGeneratorUiState)
    ensures CanGenerateAsWritten(DefaultGeneratorUiState) == Returns(false)
  {
    ThreeDigitValue("400", 4, 0, 0);
  }
}
