/** Request defaulting, validation and check digits of the barcode generator
    (internal/services/generator/barcode.go, lines 23-217).

    The request's `data` is a Go string, which is a sequence of bytes: the
    Code128 rule counts bytes and asks for valid UTF-8, so the model keeps the
    data as bytes. The check digits are the weighted modulo-10 check digits of
    the GS1 General Specifications, section 7.9. */
module BarcodeValidation {
  import opened Wrappers
  import opened Text

  const TypeUPCA := "UPC-A"
  const TypeEAN13 := "EAN-13"
  const TypeCode128 := "Code128"

  const FormatPNG := "png"
  const FormatSVG := "svg"

  const DefaultBarcodeWidth := 300
  const DefaultBarcodeHeight := 150
  const MinBarcodeWidth := 50
  const MaxBarcodeWidth := 1024
  const MinBarcodeHeight := 50
  const MaxBarcodeHeight := 1024
  const MaxCode128Length := 500

  /** The fields of the request that any part of the generator reads. */
  datatype GenerateRequest = GenerateRequest(
    data: seq<byte>,
    barcodeType: string,
    format: string,
    width: int,
    height: int,
    includeText: bool)

  /** The detail that the Go code attaches to ErrInvalidData. */
  datatype DataProblem =
    | DataRequired
    | NotNumeric
    | WrongLength
    | NotUtf8
    | TooLong
    | WidthOutOfRange
    | HeightOutOfRange
    | EncoderRejected

  /** ErrInvalidType, ErrInvalidFormat, ErrInvalidData (wrapped with a
      detail), ErrChecksumMismatch (with the expected and the supplied digit),
      and the failure of the raster library to scale the pattern. */
  datatype BarcodeError =
    | InvalidType
    | InvalidFormat
    | InvalidData(problem: DataProblem)
    | ChecksumMismatch(expected: int, actual: int)
    | ScaleFailed

  predicate SupportedType(t: string) {
    t == TypeUPCA || t == TypeEAN13 || t == TypeCode128
  }

  predicate SupportedFormat(f: string) {
    f == FormatPNG || f == FormatSVG
  }

  predicate InDimensionRange(v: int, lo: int, hi: int) {
    lo <= v <= hi
  }

  // ---------------------------------------------------------------------------
  // Defaults

  /** applyBarcodeDefaults: the Go function updates the request through a
      pointer; here the updated request is returned. A zero width or height
      takes its default; any other value, negative ones included, stays. */
  method ApplyBarcodeDefaults(req: GenerateRequest) returns (r: GenerateRequest)
    ensures r.width == if req.width == 0 then DefaultBarcodeWidth else req.width
    ensures r.height == if req.height == 0 then DefaultBarcodeHeight else req.height
    ensures r == req.(width := r.width, height := r.height)
    ensures r == Defaulted(req)
  {
    r := req;
    if r.width == 0 {
      r := r.(width := DefaultBarcodeWidth);
    }
    if r.height == 0 {
      r := r.(height := DefaultBarcodeHeight);
    }
  }

  /** The request as applyBarcodeDefaults leaves it. */
  function Defaulted(req: GenerateRequest): GenerateRequest {
    req.(width := if req.width == 0 then DefaultBarcodeWidth else req.width,
         height := if req.height == 0 then DefaultBarcodeHeight else req.height)
  }

  // ---------------------------------------------------------------------------
  // Digits and check digits

  predicate IsDigitByte(b: byte) {
    '0' as int <= b <= '9' as int
  }

  /** isNumeric: non-empty and every element an ASCII digit. The Go loop reads
      runes; a byte at or above 0x80 always belongs to a rune at or above 0x80
      (or to U+FFFD), so "every rune is a digit" and "every byte is a digit"
      agree. */
  predicate IsNumeric(s: seq<byte>) {
    |s| > 0 && forall i :: 0 <= i < |s| ==> IsDigitByte(s[i])
  }

  /** `int(b - '0')` on a Go byte: the subtraction wraps modulo 256. */
  function DigitValue(b: byte): (d: int)
    ensures 0 <= d < 256
    ensures IsDigitByte(b) ==> d == b - '0' as int && d <= 9
  {
    (b - '0' as int) % 256
  }

  function Weight(i: nat, evenWeight: nat, oddWeight: nat): nat {
    if i % 2 == 0 then evenWeight else oddWeight
  }

  /** The sum of DigitValue(ds[i]) * Weight(i) over every position i. */
  function WeightedSum(ds: seq<byte>, evenWeight: nat, oddWeight: nat): nat {
    if |ds| == 0 then 0
    else WeightedSum(ds[..|ds| - 1], evenWeight, oddWeight)
         + DigitValue(ds[|ds| - 1]) * Weight(|ds| - 1, evenWeight, oddWeight)
  }

  predicate CompletesTen(sum: nat, d: int) {
    (sum + d) % 10 == 0
  }

  /** `(10 - sum % 10) % 10`: the only digit that completes `sum` to a
      multiple of ten. Go's `%` and Dafny's agree here, the sum being
      non-negative. */
  function CheckDigitFor(sum: nat): (d: int)
    ensures 0 <= d <= 9
    ensures CompletesTen(sum, d)
    ensures forall e :: 0 <= e <= 9 && CompletesTen(sum, e) ==> e == d
  {
    (10 - sum % 10) % 10
  }

  /** The UPC-A check digit of the first eleven digits (weights 3, 1, 3, ...). */
  function UpcCheckDigit(digits: seq<byte>): int
    requires |digits| >= 11
  {
    CheckDigitFor(WeightedSum(digits[..11], 3, 1))
  }

  /** The EAN-13 check digit of the first twelve digits (weights 1, 3, 1, ...). */
  function EanCheckDigit(digits: seq<byte>): int
    requires |digits| >= 12
  {
    CheckDigitFor(WeightedSum(digits[..12], 1, 3))
  }

  /** computeUPCAChecksum: accumulates the weighted sum of the first eleven
      digits and returns the digit that makes it a multiple of ten. */
  method ComputeUPCAChecksum(digits: seq<byte>) returns (check: int)
    requires |digits| >= 11
    ensures 0 <= check <= 9
    ensures (WeightedSum(digits[..11], 3, 1) + check) % 10 == 0
    ensures check == UpcCheckDigit(digits)
  {
    var sum := 0;
    for i := 0 to 11
      invariant sum == WeightedSum(digits[..i], 3, 1)
    {
      var d := DigitValue(digits[i]);
      if i % 2 == 0 {
        sum := sum + d * 3;
      } else {
        sum := sum + d * 1;
      }
      assert digits[..i + 1][..i] == digits[..i];
    }
    check := (10 - (sum % 10)) % 10;
  }

  /** computeEAN13Checksum: the same over twelve digits with weights 1 and 3. */
  method ComputeEAN13Checksum(digits: seq<byte>) returns (check: int)
    requires |digits| >= 12
    ensures 0 <= check <= 9
    ensures (WeightedSum(digits[..12], 1, 3) + check) % 10 == 0
    ensures check == EanCheckDigit(digits)
  {
    var sum := 0;
    for i := 0 to 12
      invariant sum == WeightedSum(digits[..i], 1, 3)
    {
      var d := DigitValue(digits[i]);
      if i % 2 == 0 {
        sum := sum + d * 1;
      } else {
        sum := sum + d * 3;
      }
      assert digits[..i + 1][..i] == digits[..i];
    }
    check := (10 - (sum % 10)) % 10;
  }

  /** validateUPCAChecksum: compares the twelfth digit with the computed one.
      Go calls the loop computeUPCAChecksum here; a function cannot call a
      method, so the digit is read from UpcCheckDigit, which
      ComputeUPCAChecksum is proved to return. */
  function ValidateUPCAChecksum(data: seq<byte>): (r: Outcome<BarcodeError>)
    requires |data| >= 12
    ensures r.Fail? ==> r.error == ChecksumMismatch(UpcCheckDigit(data), DigitValue(data[11]))
    ensures IsNumeric(data) && |data| == 12 ==> (r.Pass? <==> Gs1Valid(data, 3, 1))
  {
    assert IsNumeric(data) && |data| == 12 ==>
      (CheckDigitFor(WeightedSum(data[..11], 3, 1)) == DigitValue(data[11]) <==> Gs1Valid(data, 3, 1)) by {
      if IsNumeric(data) && |data| == 12 {
        CheckDigitComparison(data, 12, 3, 1);
      }
    }
    var expected := UpcCheckDigit(data);
    var actual := DigitValue(data[11]);
    if expected != actual then Fail(ChecksumMismatch(expected, actual)) else Pass
  }

  /** validateEAN13Checksum: compares the thirteenth digit with the computed
      one, read from EanCheckDigit, which ComputeEAN13Checksum is proved to
      return. */
  function ValidateEAN13Checksum(data: seq<byte>): (r: Outcome<BarcodeError>)
    requires |data| >= 13
    ensures r.Fail? ==> r.error == ChecksumMismatch(EanCheckDigit(data), DigitValue(data[12]))
    ensures IsNumeric(data) && |data| == 13 ==> (r.Pass? <==> Gs1Valid(data, 1, 3))
  {
    assert IsNumeric(data) && |data| == 13 ==>
      (CheckDigitFor(WeightedSum(data[..12], 1, 3)) == DigitValue(data[12]) <==> Gs1Valid(data, 1, 3)) by {
      if IsNumeric(data) && |data| == 13 {
        CheckDigitComparison(data, 13, 1, 3);
      }
    }
    var expected := EanCheckDigit(data);
    var actual := DigitValue(data[12]);
    if expected != actual then Fail(ChecksumMismatch(expected, actual)) else Pass
  }

  // ---------------------------------------------------------------------------
  // UTF-8 well-formedness: utf8.ValidString

  predicate InRange(b: byte, lo: int, hi: int) {
    lo <= b <= hi
  }

  /** Length of the well-formed UTF-8 sequence at the head of `s` (Table 3-7
      of the Unicode Standard), or 0 when the head is ill-formed. */
  function SequenceLength(s: seq<byte>): (n: nat)
    requires |s| > 0
    ensures n <= 4 && n <= |s|
  {
    var b0 := s[0];
    if b0 < 0x80 then 1
    else if InRange(b0, 0xC2, 0xDF) then
      if |s| >= 2 && InRange(s[1], 0x80, 0xBF) then 2 else 0
    else if InRange(b0, 0xE0, 0xEF) then
      var lo := if b0 == 0xE0 then 0xA0 else 0x80;
      var hi := if b0 == 0xED then 0x9F else 0xBF;
      if |s| >= 3 && InRange(s[1], lo, hi) && InRange(s[2], 0x80, 0xBF) then 3 else 0
    else if InRange(b0, 0xF0, 0xF4) then
      var lo := if b0 == 0xF0 then 0x90 else 0x80;
      var hi := if b0 == 0xF4 then 0x8F else 0xBF;
      if |s| >= 4 && InRange(s[1], lo, hi) && InRange(s[2], 0x80, 0xBF) && InRange(s[3], 0x80, 0xBF)
      then 4 else 0
    else 0
  }

  /** utf8.ValidString: the bytes split into well-formed UTF-8 sequences. */
  predicate ValidUtf8(s: seq<byte>)
    decreases |s|
  {
    |s| == 0 || (SequenceLength(s) > 0 && ValidUtf8(s[SequenceLength(s)..]))
  }

  // ---------------------------------------------------------------------------
  // Data and request validation

  /** What GS1 calls a valid code: the weighted sum of ALL digits, the check
      digit included, is a multiple of ten. For a 12-digit UPC-A the weights
      are 3, 1, ..., 3, 1; for a 13-digit EAN-13 they are 1, 3, ..., 3, 1. */
  predicate Gs1Valid(code: seq<byte>, evenWeight: nat, oddWeight: nat) {
    WeightedSum(code, evenWeight, oddWeight) % 10 == 0
  }

  /** The data rules of the table in validateBarcodeData, stated declaratively. */
  predicate DataAcceptable(barcodeType: string, data: seq<byte>) {
    if barcodeType == TypeUPCA then
      IsNumeric(data) && (|data| == 11 || (|data| == 12 && Gs1Valid(data, 3, 1)))
    else if barcodeType == TypeEAN13 then
      IsNumeric(data) && (|data| == 12 || (|data| == 13 && Gs1Valid(data, 1, 3)))
    else if barcodeType == TypeCode128 then
      ValidUtf8(data) && |data| <= MaxCode128Length
    else
      true
  }

  /** A full-length numeric code passes its check-digit comparison exactly when
      it is GS1-valid. */
  lemma {:induction false} CheckDigitComparison(data: seq<byte>, n: nat, evenWeight: nat, oddWeight: nat)
    requires 1 <= n == |data| && IsNumeric(data)
    requires Weight(n - 1, evenWeight, oddWeight) == 1
    ensures CheckDigitFor(WeightedSum(data[..n - 1], evenWeight, oddWeight)) == DigitValue(data[n - 1])
            <==> Gs1Valid(data, evenWeight, oddWeight)
  {
    assert data[..n] == data;
    var sum := WeightedSum(data[..n - 1], evenWeight, oddWeight);
    var d := DigitValue(data[n - 1]);
    assert IsDigitByte(data[n - 1]);
    assert WeightedSum(data, evenWeight, oddWeight) == sum + d * 1;
    assert Gs1Valid(data, evenWeight, oddWeight) <==> CompletesTen(sum, d);
    if CompletesTen(sum, d) {
      assert d == CheckDigitFor(sum);
    }
  }

  /** validateBarcodeData: numeric-and-length rules with the check digit for
      UPC-A and EAN-13, UTF-8 and byte length for Code128, nothing for any
      other type. */
  function ValidateBarcodeData(barcodeType: string, data: seq<byte>): (r: Outcome<BarcodeError>)
    ensures r.Pass? <==> DataAcceptable(barcodeType, data)
    ensures r.Fail? ==> r.error.InvalidData? || r.error.ChecksumMismatch?
    ensures r.Fail? && r.error.ChecksumMismatch? ==>
              (barcodeType == TypeUPCA && |data| == 12) || (barcodeType == TypeEAN13 && |data| == 13)
    ensures (barcodeType == TypeUPCA || barcodeType == TypeEAN13) && !IsNumeric(data) ==>
              r == Fail(InvalidData(NotNumeric))
    ensures barcodeType == TypeUPCA && IsNumeric(data) && |data| != 11 && |data| != 12 ==>
              r == Fail(InvalidData(WrongLength))
    ensures barcodeType == TypeEAN13 && IsNumeric(data) && |data| != 12 && |data| != 13 ==>
              r == Fail(InvalidData(WrongLength))
    ensures barcodeType == TypeUPCA && IsNumeric(data) && |data| == 12 ==> r == ValidateUPCAChecksum(data)
    ensures barcodeType == TypeEAN13 && IsNumeric(data) && |data| == 13 ==> r == ValidateEAN13Checksum(data)
    ensures barcodeType == TypeCode128 && !ValidUtf8(data) ==> r == Fail(InvalidData(NotUtf8))
    ensures barcodeType == TypeCode128 && ValidUtf8(data) && |data| > MaxCode128Length ==>
              r == Fail(InvalidData(TooLong))
  {
    if barcodeType == TypeUPCA then
      if !IsNumeric(data) then Fail(InvalidData(NotNumeric))
      else if |data| != 11 && |data| != 12 then Fail(InvalidData(WrongLength))
      else if |data| == 12 then ValidateUPCAChecksum(data)
      else Pass
    else if barcodeType == TypeEAN13 then
      if !IsNumeric(data) then Fail(InvalidData(NotNumeric))
      else if |data| != 12 && |data| != 13 then Fail(InvalidData(WrongLength))
      else if |data| == 13 then ValidateEAN13Checksum(data)
      else Pass
    else if barcodeType == TypeCode128 then
      if !ValidUtf8(data) then Fail(InvalidData(NotUtf8))
      else if |data| > MaxCode128Length then Fail(InvalidData(TooLong))
      else Pass
    else
      Pass
  }

  /** The checks that come before the dimension checks all pass. */
  predicate ContentAcceptable(req: GenerateRequest) {
    SupportedType(req.barcodeType) && SupportedFormat(req.format)
    && |req.data| > 0 && DataAcceptable(req.barcodeType, req.data)
  }

  /** validateBarcodeRequest: type, format, non-empty data, data rules, width,
      height, in this order; the first failing check decides the error. */
  function ValidateBarcodeRequest(req: GenerateRequest): (r: Outcome<BarcodeError>)
    ensures r == Fail(InvalidType) <==> !SupportedType(req.barcodeType)
    ensures r == Fail(InvalidFormat) <==> SupportedType(req.barcodeType) && !SupportedFormat(req.format)
    ensures r == Fail(InvalidData(DataRequired)) <==>
              SupportedType(req.barcodeType) && SupportedFormat(req.format) && |req.data| == 0
    ensures r == Fail(InvalidData(WidthOutOfRange)) <==>
              ContentAcceptable(req) && !InDimensionRange(req.width, MinBarcodeWidth, MaxBarcodeWidth)
    ensures r == Fail(InvalidData(HeightOutOfRange)) <==>
              ContentAcceptable(req) && InDimensionRange(req.width, MinBarcodeWidth, MaxBarcodeWidth)
              && !InDimensionRange(req.height, MinBarcodeHeight, MaxBarcodeHeight)
    ensures r.Pass? <==>
              ContentAcceptable(req)
              && InDimensionRange(req.width, MinBarcodeWidth, MaxBarcodeWidth)
              && InDimensionRange(req.height, MinBarcodeHeight, MaxBarcodeHeight)
    ensures SupportedType(req.barcodeType) && SupportedFormat(req.format) && |req.data| > 0
            && ValidateBarcodeData(req.barcodeType, req.data).Fail? ==>
              r == ValidateBarcodeData(req.barcodeType, req.data)
  {
    if !SupportedType(req.barcodeType) then Fail(InvalidType)
    else if !SupportedFormat(req.format) then Fail(InvalidFormat)
    else if |req.data| == 0 then Fail(InvalidData(DataRequired))
    else
      var d := ValidateBarcodeData(req.barcodeType, req.data);
      if d.Fail? then d
      else if req.width < MinBarcodeWidth || req.width > MaxBarcodeWidth then Fail(InvalidData(WidthOutOfRange))
      else if req.height < MinBarcodeHeight || req.height > MaxBarcodeHeight then Fail(InvalidData(HeightOutOfRange))
      else Pass
  }

  // ---------------------------------------------------------------------------
  // Properties of the check digits

  lemma {:induction false} WeightedSumShift(x: seq<byte>)
    ensures WeightedSum(Ascii("0") + x, 1, 3) == WeightedSum(x, 3, 1)
  {
    var zero := Ascii("0");
    assert |zero| == 1;
    var y := zero + x;
    if |x| == 0 {
      assert y[..0] == [];
    } else {
      var x' := x[..|x| - 1];
      WeightedSumShift(x');
      DropLastAppend(zero, x);
      assert Weight(|y| - 1, 1, 3) == Weight(|x| - 1, 3, 1);
    }
  }

  /** encodeBarcode hands UPC-A data to the EAN encoder with a "0" in front.
      This is sound because a UPC-A string passes the data rules exactly when
      the same string with a leading zero passes the EAN-13 rules: 11 digits
      become 12, and a 12-digit code keeps its check digit. */
  lemma UpcAIsEan13WithLeadingZero(data: seq<byte>)
    ensures DataAcceptable(TypeUPCA, data) <==> DataAcceptable(TypeEAN13, Ascii("0") + data)
  {
    var y := Ascii("0") + data;
    WeightedSumShift(data);
    assert IsNumeric(y) <==> IsNumeric(data) || data == [] by {
      assert forall i :: 0 < i < |y| ==> y[i] == data[i - 1];
      if IsNumeric(data) {
        assert IsNumeric(y);
      }
      if IsNumeric(y) && |data| > 0 {
        forall i | 0 <= i < |data| ensures IsDigitByte(data[i]) {
          assert data[i] == y[i + 1];
        }
      }
    }
  }

  /** Changing the digit at one position by `b` in place of `a` moves the
      weighted sum by (b - a) times that position's weight. */
  lemma {:induction false} WeightedSumUpdate(ds: seq<byte>, i: nat, b: byte, evenWeight: nat, oddWeight: nat)
    requires i < |ds|
    ensures WeightedSum(ds[i := b], evenWeight, oddWeight) + DigitValue(ds[i]) * Weight(i, evenWeight, oddWeight)
         == WeightedSum(ds, evenWeight, oddWeight) + DigitValue(b) * Weight(i, evenWeight, oddWeight)
  {
    var n := |ds|;
    var es := ds[i := b];
    if i == n - 1 {
      assert es[..n - 1] == ds[..n - 1];
    } else {
      WeightedSumUpdate(ds[..n - 1], i, b, evenWeight, oddWeight);
      assert es[..n - 1] == ds[..n - 1][i := b];
    }
  }

  lemma TimesWeightNotMultipleOfTen(delta: int, w: int)
    requires -9 <= delta <= 9 && delta != 0 && (w == 1 || w == 3)
    ensures (delta * w) % 10 != 0
  {
    if w == 3 {
      assert delta * w == 3 * delta;
    }
  }

  lemma AddMultipleOfTen(s: int, m: int)
    requires s % 10 == 0
    ensures (s + m) % 10 == m % 10
  {
    var k := s / 10;
    assert s == 10 * k;
  }

  /** Weights 1 and 3 catch every single-digit substitution: a GS1-valid code
      with one digit replaced by a different digit is no longer valid. */
  lemma SingleDigitErrorDetected(code: seq<byte>, i: nat, b: byte, evenWeight: nat, oddWeight: nat)
    requires IsNumeric(code) && i < |code| && IsDigitByte(b) && b != code[i]
    requires (evenWeight == 1 && oddWeight == 3) || (evenWeight == 3 && oddWeight == 1)
    requires Gs1Valid(code, evenWeight, oddWeight)
    ensures !Gs1Valid(code[i := b], evenWeight, oddWeight)
  {
    WeightedSumUpdate(code, i, b, evenWeight, oddWeight);
    var w := Weight(i, evenWeight, oddWeight);
    var delta := DigitValue(b) - DigitValue(code[i]);
    assert -9 <= delta <= 9 && delta != 0;
    TimesWeightNotMultipleOfTen(delta, w);
    var s := WeightedSum(code, evenWeight, oddWeight);
    assert WeightedSum(code[i := b], evenWeight, oddWeight) == s + delta * w;
    AddMultipleOfTen(s, delta * w);
  }

  /** A full-length EAN-13 code that passes validation, with one digit mistyped,
      is rejected with ChecksumMismatch. */
  lemma Ean13MistypedDigitRejected(data: seq<byte>, i: nat, b: byte)
    requires |data| == 13 && DataAcceptable(TypeEAN13, data)
    requires i < 13 && IsDigitByte(b) && b != data[i]
    ensures ValidateBarcodeData(TypeEAN13, data[i := b]).Fail?
    ensures ValidateBarcodeData(TypeEAN13, data[i := b]).error.ChecksumMismatch?
  {
    SingleDigitErrorDetected(data, i, b, 1, 3);
    assert IsNumeric(data[i := b]);
  }

  /** A full-length UPC-A code that passes validation, with one digit mistyped,
      is rejected with ChecksumMismatch. */
  lemma UpcAMistypedDigitRejected(data: seq<byte>, i: nat, b: byte)
    requires |data| == 12 && DataAcceptable(TypeUPCA, data)
    requires i < 12 && IsDigitByte(b) && b != data[i]
    ensures ValidateBarcodeData(TypeUPCA, data[i := b]).Fail?
    ensures ValidateBarcodeData(TypeUPCA, data[i := b]).error.ChecksumMismatch?
  {
    SingleDigitErrorDetected(data, i, b, 3, 1);
    assert IsNumeric(data[i := b]);
  }
}
