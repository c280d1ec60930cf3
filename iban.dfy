/** IBAN validation (internal/services/validation/iban.go; the same helpers
    and ValidateIBAN appear line for line in iban-handling.go, lines 244-390).

    The structure checks follow ISO 13616 and the check digits ISO 7064
    MOD 97-10: the first four characters move to the end, each letter becomes
    the two digits of 10..35, and the resulting decimal number must leave
    remainder 1 when divided by 97. */
module Iban {
  import opened Text
  import opened IbanCountries

  /** isIBANLetter: an ASCII letter of either case. */
  predicate IsIbanLetter(c: char) {
    IsUpper(c) || IsLower(c)
  }

  /** isIBANDigit: an ASCII digit. */
  predicate IsIbanDigit(c: char) {
    IsDigit(c)
  }

  predicate IsUpperAlnum(c: char) {
    IsUpper(c) || IsDigit(c)
  }

  predicate AllUpperAlnum(s: string) {
    forall i :: 0 <= i < |s| ==> IsUpperAlnum(s[i])
  }

  predicate AllDigits(s: string) {
    forall i :: 0 <= i < |s| ==> IsDigit(s[i])
  }

  lemma UpperAlnumIsAscii(s: string)
    requires AllUpperAlnum(s)
    ensures IsAsciiString(s) && Utf8Len(s) == |s|
  {
    AsciiUtf8Len(s);
  }

  // ---------------------------------------------------------------------------
  // Grouping by four: formatIBANWithSpaces

  /** The text formatIBANWithSpaces builds: each rune is preceded by a space
      when the byte offset at which it starts is a positive multiple of four. */
  function Spaced(s: string): string {
    if |s| == 0 then ""
    else
      var q := s[..|s| - 1];
      var offset := Utf8Len(q);
      Spaced(q) + (if offset > 0 && offset % 4 == 0 then " " else "") + [s[|s| - 1]]
  }

  /** formatIBANWithSpaces: one pass over the runes; Go's `range` gives the
      byte offset of each rune. */
  method FormatIbanWithSpaces(iban: string) returns (formatted: string)
    ensures formatted == Spaced(iban)
    ensures RemoveAll(formatted, ' ') == RemoveAll(iban, ' ')
    ensures AllUpperAlnum(iban) && |iban| > 0 ==> |formatted| == |iban| + (|iban| - 1) / 4
  {
    formatted := "";
    var offset := 0;
    for k := 0 to |iban|
      invariant offset == Utf8Len(iban[..k])
      invariant formatted == Spaced(iban[..k])
    {
      assert iban[..k + 1][..k] == iban[..k];
      if offset > 0 && offset % 4 == 0 {
        formatted := formatted + " ";
      }
      formatted := formatted + [iban[k]];
      offset := offset + Utf8Width(iban[k]);
    }
    assert iban[..|iban|] == iban;
    SpacedRemovesToInput(iban);
    if AllUpperAlnum(iban) && |iban| > 0 {
      UpperAlnumIsAscii(iban);
      SpacedAscii(iban);
    }
  }

  /** Deleting the spaces from the grouped text deletes them from the input:
      for an input without spaces, the grouping is undone exactly. */
  lemma {:induction false} SpacedRemovesToInput(s: string)
    ensures RemoveAll(Spaced(s), ' ') == RemoveAll(s, ' ')
  {
    if |s| > 0 {
      var q := s[..|s| - 1];
      var sep: string := if Utf8Len(q) > 0 && Utf8Len(q) % 4 == 0 then " " else "";
      SpacedRemovesToInput(q);
      RemoveAllAppend(Spaced(q) + sep, [s[|s| - 1]], ' ');
      RemoveAllAppend(Spaced(q), sep, ' ');
      assert RemoveAll(sep, ' ') == [] by {
        if sep == " " {
          assert sep[1..] == [];
        }
      }
      RemoveAllAppend(q, [s[|s| - 1]], ' ');
      assert s == q + [s[|s| - 1]];
    }
  }

  /** On ASCII text the byte offset of the last character is its index. */
  lemma SpacedAsciiStep(s: string)
    requires IsAsciiString(s) && |s| > 1
    ensures IsAsciiString(s[..|s| - 1])
    ensures Spaced(s) == Spaced(s[..|s| - 1]) + (if (|s| - 1) % 4 == 0 then " " else "") + [s[|s| - 1]]
  {
    var q := s[..|s| - 1];
    assert forall i :: 0 <= i < |q| ==> q[i] == s[i];
    AsciiUtf8Len(q);
  }

  lemma {:induction false} SpacedAsciiLength(s: string)
    requires IsAsciiString(s) && |s| > 0
    ensures |Spaced(s)| == |s| + (|s| - 1) / 4
  {
    if |s| == 1 {
      assert Spaced(s[..0]) == "";
    } else {
      SpacedAsciiStep(s);
      SpacedAsciiLength(s[..|s| - 1]);
    }
  }

  lemma {:induction false} SpacedAsciiChars(s: string)
    requires IsAsciiString(s) && |s| > 0
    ensures |Spaced(s)| == |s| + (|s| - 1) / 4
    ensures forall i :: 0 <= i < |s| ==> Spaced(s)[i + i / 4] == s[i]
  {
    var n := |s|;
    SpacedAsciiLength(s);
    if n == 1 {
      assert Spaced(s[..0]) == "";
    } else {
      var q := s[..n - 1];
      SpacedAsciiStep(s);
      SpacedAsciiChars(q);
      SpacedAsciiLength(q);
      var r, rq := Spaced(s), Spaced(q);
      forall i | 0 <= i < n ensures r[i + i / 4] == s[i] {
        if i < n - 1 {
          assert r[i + i / 4] == rq[i + i / 4];
          assert rq[i + i / 4] == q[i];
        } else {
          assert i + i / 4 == |r| - 1;
        }
      }
    }
  }

  lemma {:induction false} SpacedAsciiSpaces(s: string)
    requires IsAsciiString(s) && |s| > 0
    ensures |Spaced(s)| == |s| + (|s| - 1) / 4
    ensures forall t :: 0 < t && 4 * t < |s| ==> Spaced(s)[5 * t - 1] == ' '
  {
    var n := |s|;
    SpacedAsciiLength(s);
    if n > 1 {
      var q := s[..n - 1];
      SpacedAsciiStep(s);
      SpacedAsciiSpaces(q);
      SpacedAsciiLength(q);
      var r, rq := Spaced(s), Spaced(q);
      forall t | 0 < t && 4 * t < n ensures r[5 * t - 1] == ' ' {
        if 4 * t < n - 1 {
          assert r[5 * t - 1] == rq[5 * t - 1];
        } else {
          assert 5 * t - 1 == |rq|;
        }
      }
    }
  }

  /** On ASCII text byte offsets are indices: character i lands at
      i + i / 4, and a space sits just before the characters 4, 8, 12, ... */
  lemma SpacedAscii(s: string)
    requires IsAsciiString(s) && |s| > 0
    ensures |Spaced(s)| == |s| + (|s| - 1) / 4
    ensures forall i :: 0 <= i < |s| ==> Spaced(s)[i + i / 4] == s[i]
    ensures forall t :: 0 < t && 4 * t < |s| ==> Spaced(s)[5 * t - 1] == ' '
  {
    SpacedAsciiLength(s);
    SpacedAsciiChars(s);
    SpacedAsciiSpaces(s);
  }

  /** For an input of capital letters and digits, a space precedes the
      character at index i (i > 0) exactly when i is a multiple of four. */
  lemma SpaceBeforeEveryFourth(s: string, i: int)
    requires AllUpperAlnum(s) && 0 < i < |s|
    ensures |Spaced(s)| == |s| + (|s| - 1) / 4
    ensures Spaced(s)[i + i / 4 - 1] == ' ' <==> i % 4 == 0
  {
    UpperAlnumIsAscii(s);
    SpacedAscii(s);
    if i % 4 == 0 {
      assert Spaced(s)[5 * (i / 4) - 1] == ' ';
    } else {
      assert (i - 1) + (i - 1) / 4 == i + i / 4 - 1;
      assert Spaced(s)[(i - 1) + (i - 1) / 4] == s[i - 1];
    }
  }

  // ---------------------------------------------------------------------------
  // MOD 97-10: calculateMod97

  /** The number a string of decimal digits denotes. */
  function DecimalValue(s: string): int {
    if |s| == 0 then 0
    else DecimalValue(s[..|s| - 1]) * 10 + (s[|s| - 1] as int - '0' as int)
  }

  lemma ModStep(v: int, d: int)
    ensures ((v % 97) * 10 + d) % 97 == (v * 10 + d) % 97
  {
    var q := v / 97;
    assert v * 10 + d == (v % 97) * 10 + d + 97 * (q * 10);
    ModAddMultiple((v % 97) * 10 + d, q * 10);
  }

  lemma ModAddMultiple(a: int, k: int)
    ensures (a + 97 * k) % 97 == a % 97
  {
    var q := a / 97;
    assert a + 97 * k == 97 * (q + k) + a % 97;
  }

  /** calculateMod97: the remainder of the number, one digit at a time, so
      that no intermediate value exceeds 97 * 10 + 9. */
  method CalculateMod97(numStr: string) returns (remainder: int)
    ensures AllDigits(numStr) ==> 0 <= remainder < 97 && remainder == DecimalValue(numStr) % 97
  {
    remainder := 0;
    for i := 0 to |numStr|
      invariant AllDigits(numStr) ==> remainder == DecimalValue(numStr[..i]) % 97
    {
      var digitVal := numStr[i] as int - '0' as int;
      remainder := GoRem(remainder * 10 + digitVal, 97);
      if AllDigits(numStr) {
        var prefix := numStr[..i + 1];
        assert prefix[..i] == numStr[..i];
        ModStep(DecimalValue(numStr[..i]), digitVal);
      }
    }
    assert numStr[..|numStr|] == numStr;
  }

  // ---------------------------------------------------------------------------
  // validateIBANChecksum

  /** The two decimal digits of a number in 0..99, with a leading zero. */
  function TwoDigits(n: int): (s: string)
    requires 0 <= n <= 99
    ensures |s| == 2 && AllDigits(s)
  {
    [('0' as int + n / 10) as char, ('0' as int + n % 10) as char]
  }

  /** A capital letter becomes the two digits of 10..35; a digit stays. */
  function ExpandChar(c: char): (s: string)
    ensures IsUpperAlnum(c) ==> AllDigits(s)
    ensures IsDigit(c) ==> s == [c]
  {
    if IsUpper(c) then TwoDigits(c as int - 'A' as int + 10) else [c]
  }

  /** Every character replaced by its expansion. */
  function Expand(s: string): (e: string)
    ensures AllUpperAlnum(s) ==> AllDigits(e)
  {
    if |s| == 0 then ""
    else Expand(s[..|s| - 1]) + ExpandChar(s[|s| - 1])
  }

  /** The text validateIBANChecksum works on: spaces removed, upper-cased. */
  function ChecksumInput(iban: string): string {
    ToUpper(RemoveAll(iban, ' '))
  }

  /** Four characters at least, all capital letters or digits, and the
      rotated, letter-expanded number is 1 modulo 97. */
  predicate IbanChecksumHolds(iban: string) {
    var c := ChecksumInput(iban);
    |c| >= 4 && AllUpperAlnum(c) && DecimalValue(Expand(c[4..] + c[..4])) % 97 == 1
  }

  // One character of the loop of validateIBANChecksum at a time.

  lemma ExpandUpperStep(s: string, i: int, n: int)
    requires 0 <= i < |s| && IsUpper(s[i]) && AllUpperAlnum(s[..i])
    requires n == s[i] as int - 'A' as int + 10
    ensures 10 <= n <= 35
    ensures Expand(s[..i + 1]) == Expand(s[..i]) + TwoDigits(n)
    ensures AllUpperAlnum(s[..i + 1])
  {
    assert s[..i + 1][..i] == s[..i];
  }

  lemma ExpandDigitStep(s: string, i: int)
    requires 0 <= i < |s| && IsDigit(s[i]) && AllUpperAlnum(s[..i])
    ensures Expand(s[..i + 1]) == Expand(s[..i]) + [s[i]]
    ensures AllUpperAlnum(s[..i + 1])
  {
    assert s[..i + 1][..i] == s[..i];
  }

  /** Moving the first four characters to the end keeps the characters. */
  lemma RotationKeepsClass(c: string)
    requires |c| >= 4
    ensures AllUpperAlnum(c[4..] + c[..4]) <==> AllUpperAlnum(c)
  {
    var r := c[4..] + c[..4];
    if AllUpperAlnum(c) {
      forall j | 0 <= j < |r| ensures IsUpperAlnum(r[j]) {
        if j < |c| - 4 {
          assert r[j] == c[j + 4];
        } else {
          assert r[j] == c[j - (|c| - 4)];
        }
      }
    }
    if AllUpperAlnum(r) {
      forall j | 0 <= j < |c| ensures IsUpperAlnum(c[j]) {
        if j < 4 {
          assert c[j] == r[|c| - 4 + j];
        } else {
          assert c[j] == r[j - 4];
        }
      }
    }
  }

  /** validateIBANChecksum. Go slices the cleaned string by bytes, so when it
      holds a non-ASCII rune the rotation may split that rune; the loop then
      meets either the rune or U+FFFD and returns false. Rotating by runes
      gives the same answer, and so does giving up when fewer than four runes
      carry four or more bytes. */
  method ValidateIbanChecksum(iban: string) returns (valid: bool)
    ensures valid == IbanChecksumHolds(iban)
  {
    var c := ToUpper(RemoveAll(iban, ' '));
    assert c == ChecksumInput(iban);
    if Utf8Len(c) < 4 {
      if AllUpperAlnum(c) {
        UpperAlnumIsAscii(c);
      }
      return false;
    }
    if |c| < 4 {
      if AllUpperAlnum(c) {
        UpperAlnumIsAscii(c);
      }
      return false;
    }
    var rearranged := c[4..] + c[..4];
    RotationKeepsClass(c);
    var numericString := "";
    for i := 0 to |rearranged|
      invariant AllUpperAlnum(rearranged[..i])
      invariant numericString == Expand(rearranged[..i])
    {
      var ch := rearranged[i];
      if IsUpper(ch) {
        var n := ch as int - 'A' as int + 10;
        ExpandUpperStep(rearranged, i, n);
        numericString := numericString + TwoDigits(n);
      } else if IsDigit(ch) {
        ExpandDigitStep(rearranged, i);
        numericString := numericString + [ch];
      } else {
        assert !AllUpperAlnum(rearranged) by {
          assert !IsUpperAlnum(rearranged[i]);
        }
        return false;
      }
    }
    assert rearranged[..|rearranged|] == rearranged;
    assert AllUpperAlnum(c) && numericString == Expand(rearranged);
    var remainder := CalculateMod97(numericString);
    assert remainder == DecimalValue(Expand(rearranged)) % 97;
    valid := remainder == 1;
  }

  // ---------------------------------------------------------------------------
  // Properties of MOD 97-10

  lemma {:induction false} DecimalValueAppend(a: string, b: string)
    ensures DecimalValue(a + b) == DecimalValue(a) * Pow10(|b|) + DecimalValue(b)
  {
    var ab := a + b;
    if |b| == 0 {
      assert ab == a;
    } else {
      var b' := b[..|b| - 1];
      var d := b[|b| - 1] as int - '0' as int;
      DecimalValueAppend(a, b');
      DropLastAppend(a, b);
      var x, p, y := DecimalValue(a), Pow10(|b'|), DecimalValue(b');
      assert DecimalValue(ab) == (x * p + y) * 10 + d;
      assert (x * p + y) * 10 == x * (10 * p) + y * 10;
      assert Pow10(|b|) == 10 * p;
      assert DecimalValue(b) == y * 10 + d;
    }
  }

  function Pow10(n: nat): nat {
    if n == 0 then 1 else 10 * Pow10(n - 1)
  }

  lemma {:induction false} ExpandAppend(a: string, b: string)
    ensures Expand(a + b) == Expand(a) + Expand(b)
  {
    var ab := a + b;
    if |b| == 0 {
      assert ab == a;
    } else {
      var b' := b[..|b| - 1];
      ExpandAppend(a, b');
      DropLastAppend(a, b);
      var c := ExpandChar(b[|b| - 1]);
      assert Expand(ab) == Expand(a + b') + c;
      assert Expand(b) == Expand(b') + c;
      AppendAssoc(Expand(a), Expand(b'), c);
    }
  }

  /** Expanding digits changes nothing. */
  lemma {:induction false} ExpandDigits(s: string)
    requires AllDigits(s)
    ensures Expand(s) == s
  {
    if |s| > 0 {
      ExpandDigits(s[..|s| - 1]);
      assert s == s[..|s| - 1] + [s[|s| - 1]];
    }
  }

  /** The check digits ISO 7064 MOD 97-10 assigns to a country code and a
      BBAN: 98 minus the remainder of the number with "00" in their place. */
  function CheckDigitsFor(countryCode: string, bban: string): (n: int)
    ensures 2 <= n <= 98
  {
    98 - DecimalValue(Expand(bban + countryCode + "00")) % 97
  }

  /** Text that is already capital letters and digits is its own checksum input. */
  lemma CleanInputUnchanged(s: string)
    requires AllUpperAlnum(s)
    ensures ChecksumInput(s) == s
  {
    assert ' ' !in s by {
      forall j | 0 <= j < |s| ensures s[j] != ' ' {
        assert IsUpperAlnum(s[j]);
      }
    }
    RemoveAbsent(s, ' ');
  }

  lemma TwoDigitsValue(n: int)
    requires 0 <= n <= 99
    ensures DecimalValue(TwoDigits(n)) == n
  {
    var t := TwoDigits(n);
    assert t[..1][..0] == "";
    assert DecimalValue(t[..1]) == n / 10;
  }

  lemma ChecksumHoldsWhenClean(s: string)
    requires |s| >= 4 && AllUpperAlnum(s)
    requires DecimalValue(Expand(s[4..] + s[..4])) % 97 == 1
    ensures IbanChecksumHolds(s)
  {
    CleanInputUnchanged(s);
  }

  /** The value of a number followed by two given digits. */
  lemma AppendTwoDigits(front: string, k: int)
    requires 0 <= k <= 99
    ensures DecimalValue(Expand(front + TwoDigits(k))) == DecimalValue(Expand(front)) * 100 + k
  {
    var cd := TwoDigits(k);
    ExpandDigits(cd);
    ExpandAppend(front, cd);
    DecimalValueAppend(Expand(front), cd);
    TwoDigitsValue(k);
    assert Pow10(2) == 100;
  }

  /** Moving the first four characters of `a + b + c` to the end, when `a`
      and `b` are those four. */
  lemma RotateFour(a: string, b: string, c: string)
    requires |a| + |b| == 4
    ensures (a + b + c)[4..] + (a + b + c)[..4] == c + a + b
  {
    var s := a + b + c;
    assert s[4..] == c;
    assert s[..4] == a + b;
    AppendAssoc(c, a, b);
  }

  lemma UpperAlnumJoin(a: string, b: string, c: string)
    requires AllUpperAlnum(a) && AllDigits(b) && AllUpperAlnum(c)
    ensures AllUpperAlnum(a + b + c)
  {
    var s := a + b + c;
    forall j | 0 <= j < |s| ensures IsUpperAlnum(s[j]) {
      if j < |a| {
        assert s[j] == a[j];
      } else if j < |a| + |b| {
        assert s[j] == b[j - |a|];
      } else {
        assert s[j] == c[j - |a| - |b|];
      }
    }
  }

  /** Appending 98 - (100 v mod 97) to v leaves remainder 1. */
  lemma CheckDigitArithmetic(v: int, z: int, k: int, w: int)
    requires z == v * 100 && k == 98 - z % 97 && w == z + k
    ensures 2 <= k <= 98 && w % 97 == 1
  {
    assert w == 1 + 97 * (z / 97 + 1);
    ModAddMultiple(1, z / 97 + 1);
  }

  /** The number followed by the check digits computed for it leaves
      remainder 1. */
  lemma CheckDigitsSettle(front: string, k: int)
    requires k == 98 - DecimalValue(Expand(front + "00")) % 97
    ensures 2 <= k <= 98 && DecimalValue(Expand(front + TwoDigits(k))) % 97 == 1
  {
    var v := DecimalValue(Expand(front));
    assert TwoDigits(0) == "00";
    AppendTwoDigits(front, 0);
    var z := DecimalValue(Expand(front + "00"));
    AppendTwoDigits(front, k);
    CheckDigitArithmetic(v, z, k, DecimalValue(Expand(front + TwoDigits(k))));
  }

  /** Any capital-letters-and-digits country code and BBAN, with the check
      digits computed for them, pass validateIBANChecksum. */
  lemma ComputedCheckDigitsPass(countryCode: string, bban: string)
    requires |countryCode| == 2 && AllUpperAlnum(countryCode) && AllUpperAlnum(bban)
    ensures IbanChecksumHolds(countryCode + TwoDigits(CheckDigitsFor(countryCode, bban)) + bban)
  {
    var front := bban + countryCode;
    var k := CheckDigitsFor(countryCode, bban);
    CheckDigitsSettle(front, k);
    var cd := TwoDigits(k);
    var iban := countryCode + cd + bban;
    RotateFour(countryCode, cd, bban);
    UpperAlnumJoin(countryCode, cd, bban);
    ChecksumHoldsWhenClean(iban);
  }

  // ---------------------------------------------------------------------------
  // ValidateIBAN

  /** IBANValidation: the input as given and the outcome of every stage. */
  datatype IbanValidation = IbanValidation(
    iban: string,
    isValid: bool,
    formattedIban: string,
    countryCode: string,
    countryName: string,
    checkDigits: string,
    bban: string,
    bankCode: string,
    accountNumber: string,
    isFormatValid: bool,
    isCountrySupported: bool,
    isLengthValid: bool,
    isChecksumValid: bool)

  /** The result ValidateIBAN starts from: only the input is filled in. */
  function Blank(iban: string): (r: IbanValidation)
    ensures r.iban == iban
    ensures !r.isValid && !r.isFormatValid && !r.isCountrySupported && !r.isLengthValid && !r.isChecksumValid
  {
    IbanValidation(iban, false, "", "", "", "", "", "", "", false, false, false, false)
  }

  /** The cleaned input: white space trimmed, inner spaces removed, upper-cased. */
  function CleanIban(s: string): string {
    ToUpper(RemoveAll(TrimSpace(s), ' '))
  }

  /** Stage 1: fifteen bytes or more, and two letters first. Fifteen bytes are
      at least four runes, so the first four characters exist. */
  predicate HasCountryLetters(c: string) {
    Utf8Len(c) >= 15 && |c| >= 4 && IsIbanLetter(c[0]) && IsIbanLetter(c[1])
  }

  /** Stage 1 continued: two digits after the letters. */
  predicate HasCheckDigits(c: string) {
    HasCountryLetters(c) && IsIbanDigit(c[2]) && IsIbanDigit(c[3])
  }

  // The later stages read the country table `specs`; ValidateIBAN passes
  // ibanCountrySpecs, and the properties below hold for any consistent table.

  /** Stage 2: the country code is in the table. */
  predicate CountrySupported(c: string, specs: map<string, CountrySpec>) {
    HasCheckDigits(c) && c[..2] in specs
  }

  /** Stage 3: the byte length is the one the country prescribes. */
  predicate LengthValid(c: string, specs: map<string, CountrySpec>) {
    CountrySupported(c, specs) && Utf8Len(c) == specs[c[..2]].length
  }

  /** Stage 4: the BBAN matches the country's pattern. */
  predicate FormatValid(c: string, specs: map<string, CountrySpec>) {
    LengthValid(c, specs) && MatchesFormat(c[4..], specs[c[..2]].bbanFormat)
  }

  /** A field the table locates inside the IBAN lies within it. */
  predicate FieldInRange(c: string, start: int, length: int) {
    0 < length && 4 <= start && start + length <= |c|
  }

  /** An IBAN that passes the format stage is ASCII capital letters and digits
      from the fifth character on, and ASCII throughout. */
  lemma FormatValidAscii(c: string, specs: map<string, CountrySpec>)
    requires FormatValid(c, specs)
    ensures AllUpperAlnum(c[4..]) && IsAsciiString(c) && Utf8Len(c) == |c|
  {
    BbanShape(c, specs[c[..2]]);
  }

  /** The bank and account fields the table gives for a country lie inside
      any IBAN that passes the format stage for it. */
  lemma FormatValidFields(c: string, specs: map<string, CountrySpec>)
    requires WellFormedTable(specs) && FormatValid(c, specs)
    ensures FieldInRange(c, specs[c[..2]].bankCodeStart, specs[c[..2]].bankCodeLen)
    ensures FieldInRange(c, specs[c[..2]].accountStart, specs[c[..2]].accountLen)
  {
    var spec := specs[c[..2]];
    assert SpecConsistent(c[..2], spec);
    BbanShape(c, spec);
  }

  lemma BbanShape(c: string, spec: CountrySpec)
    requires |c| >= 4 && IsIbanLetter(c[0]) && IsIbanLetter(c[1]) && IsIbanDigit(c[2]) && IsIbanDigit(c[3])
    requires MatchesFormat(c[4..], spec.bbanFormat)
    ensures AllUpperAlnum(c[4..]) && IsAsciiString(c) && Utf8Len(c) == |c|
  {
    var b := c[4..];
    MatchesFormatShape(b, spec.bbanFormat);
    assert AllUpperAlnum(b);
    forall i | 0 <= i < |c| ensures c[i] as int < 0x80 {
      if i >= 4 {
        assert c[i] == b[i - 4];
        assert IsUpperAlnum(b[i - 4]);
      }
    }
    AsciiUtf8Len(c);
  }

  /** Everything ValidateIBAN reports about the input `iban` once it has
      been cleaned to `c`. */
  predicate Reports(r: IbanValidation, iban: string, c: string, specs: map<string, CountrySpec>) {
    && r.iban == iban
    && (Utf8Len(c) < 15 ==> r == Blank(iban))
    && r.countryCode == (if HasCountryLetters(c) then c[..2] else "")
    && r.checkDigits == (if HasCheckDigits(c) then c[2..4] else "")
    && r.isCountrySupported == CountrySupported(c, specs)
    && r.countryName == (if CountrySupported(c, specs) then specs[c[..2]].countryName else "")
    && r.isLengthValid == LengthValid(c, specs)
    && r.bban == (if LengthValid(c, specs) then c[4..] else "")
    && r.isFormatValid == FormatValid(c, specs)
    && (FormatValid(c, specs) ==>
          var spec := specs[c[..2]];
          && FieldInRange(c, spec.bankCodeStart, spec.bankCodeLen)
          && r.bankCode == c[spec.bankCodeStart..spec.bankCodeStart + spec.bankCodeLen]
          && FieldInRange(c, spec.accountStart, spec.accountLen)
          && r.accountNumber == c[spec.accountStart..spec.accountStart + spec.accountLen])
    && (!FormatValid(c, specs) ==> r.bankCode == "" && r.accountNumber == "")
    && r.isChecksumValid == (FormatValid(c, specs) && IbanChecksumHolds(c))
    && r.formattedIban == (if FormatValid(c, specs) then Spaced(c) else "")
    && r.isValid == (r.isCountrySupported && r.isLengthValid && r.isFormatValid && r.isChecksumValid)
  }

  /** ValidateIBAN. The Go code indexes the cleaned string by bytes; up to the
      format stage it reads only ASCII positions, and after it the whole string
      is ASCII, so byte and rune positions agree throughout. */
  method ValidateIban(iban: string) returns (r: IbanValidation)
    ensures Reports(r, iban, CleanIban(iban), IbanCountrySpecs)
  {
    IbanCountrySpecsWellFormed();
    r := ValidateStages(iban, CleanIban(iban), IbanCountrySpecs);
  }

  /** What any reported result says about its flags: they are staged (format,
      then length, then country), a supported country has two letters and two
      digits first and a table key as its code, a valid length is the table's,
      a valid IBAN has passed MOD 97-10, and the grouped form is filled in only
      after the format stage. */
  lemma ReportsStaged(r: IbanValidation, iban: string, c: string, specs: map<string, CountrySpec>)
    requires Reports(r, iban, c, specs)
    ensures r.isFormatValid ==> r.isLengthValid
    ensures r.isLengthValid ==> r.isCountrySupported
    ensures r.isCountrySupported ==>
      |c| >= 4 && IsIbanLetter(c[0]) && IsIbanLetter(c[1]) && IsIbanDigit(c[2]) && IsIbanDigit(c[3])
      && r.countryCode == c[..2] && r.countryCode in specs
    ensures r.isLengthValid ==> Utf8Len(c) == specs[r.countryCode].length
    ensures r.isValid ==> r.isChecksumValid && IbanChecksumHolds(c)
    ensures !r.isFormatValid ==> r.formattedIban == ""
  {
  }

  /** The stages of ValidateIBAN that follow the cleaning step, on the cleaned
      text `c` and with the country table `specs`; each early return leaves
      the later fields as they were. */
  method ValidateStages(iban: string, c: string, specs: map<string, CountrySpec>) returns (r: IbanValidation)
    requires WellFormedTable(specs)
    ensures Reports(r, iban, c, specs)
  {
    r := Blank(iban);
    if Utf8Len(c) < 15 {
      return;
    }
    if !IsIbanLetter(c[0]) || !IsIbanLetter(c[1]) {
      return;
    }
    r := r.(countryCode := c[..2]);
    if !IsIbanDigit(c[2]) || !IsIbanDigit(c[3]) {
      return;
    }
    r := r.(checkDigits := c[2..4]);
    if c[..2] !in specs {
      return;
    }
    var spec := specs[c[..2]];
    r := r.(isCountrySupported := true, countryName := spec.countryName);
    if Utf8Len(c) != spec.length {
      return;
    }
    r := r.(isLengthValid := true, bban := c[4..]);
    if !MatchesFormat(r.bban, spec.bbanFormat) {
      return;
    }
    r := r.(isFormatValid := true);
    assert HasCheckDigits(c) && CountrySupported(c, specs) && LengthValid(c, specs) && FormatValid(c, specs);
    FormatValidAscii(c, specs);
    FormatValidFields(c, specs);
    assert FieldInRange(c, spec.bankCodeStart, spec.bankCodeLen);
    assert FieldInRange(c, spec.accountStart, spec.accountLen);
    if spec.bankCodeLen > 0 && spec.bankCodeStart + spec.bankCodeLen <= Utf8Len(c) {
      r := r.(bankCode := c[spec.bankCodeStart..spec.bankCodeStart + spec.bankCodeLen]);
    }
    if spec.accountLen > 0 && spec.accountStart + spec.accountLen <= Utf8Len(c) {
      r := r.(accountNumber := c[spec.accountStart..spec.accountStart + spec.accountLen]);
    }
    var checksumValid := ValidateIbanChecksum(c);
    var formatted := FormatIbanWithSpaces(c);
    r := r.(isChecksumValid := checksumValid, formattedIban := formatted);
    r := r.(isValid := r.isCountrySupported && r.isLengthValid && r.isFormatValid && r.isChecksumValid);
    ReportsFormatValid(r, iban, c, specs, spec);
  }

  /** The result of the last stages, for a cleaned input that passes the
      format stage. */
  lemma ReportsFormatValid(r: IbanValidation, iban: string, c: string, specs: map<string, CountrySpec>, spec: CountrySpec)
    requires FormatValid(c, specs) && spec == specs[c[..2]]
    requires FieldInRange(c, spec.bankCodeStart, spec.bankCodeLen)
    requires FieldInRange(c, spec.accountStart, spec.accountLen)
    requires r.iban == iban && r.countryCode == c[..2] && r.checkDigits == c[2..4]
    requires r.isCountrySupported && r.countryName == spec.countryName
    requires r.isLengthValid && r.bban == c[4..] && r.isFormatValid
    requires r.bankCode == c[spec.bankCodeStart..spec.bankCodeStart + spec.bankCodeLen]
    requires r.accountNumber == c[spec.accountStart..spec.accountStart + spec.accountLen]
    requires r.isChecksumValid == IbanChecksumHolds(c) && r.formattedIban == Spaced(c)
    requires r.isValid == r.isChecksumValid
    ensures Reports(r, iban, c, specs)
  {
  }

  /** Upper-casing never leaves an ASCII lower-case letter. */
  lemma CleanIbanHasNoLower(s: string, i: int)
    requires 0 <= i < |CleanIban(s)|
    ensures !IsLower(CleanIban(s)[i])
  {
  }

  /** What a cleaned input that passes the format stage looks like: ASCII
      capital letters and digits only, so the checksum is exactly the MOD
      97-10 test on the rotated text and the grouping by four is undone by
      deleting the spaces. */
  lemma FormatValidIbanShape(iban: string, specs: map<string, CountrySpec>)
    requires FormatValid(CleanIban(iban), specs)
    ensures AllUpperAlnum(CleanIban(iban))
    ensures var c := CleanIban(iban);
      IbanChecksumHolds(c) <==> DecimalValue(Expand(c[4..] + c[..4])) % 97 == 1
    ensures RemoveAll(Spaced(CleanIban(iban)), ' ') == CleanIban(iban)
    ensures |Spaced(CleanIban(iban))| == |CleanIban(iban)| + (|CleanIban(iban)| - 1) / 4
  {
    CleanIbanHasNoLower(iban, 0);
    CleanIbanHasNoLower(iban, 1);
    UpperFormatValidShape(CleanIban(iban), specs);
  }

  lemma UpperFormatValidShape(c: string, specs: map<string, CountrySpec>)
    requires FormatValid(c, specs) && !IsLower(c[0]) && !IsLower(c[1])
    ensures AllUpperAlnum(c)
    ensures IbanChecksumHolds(c) <==> DecimalValue(Expand(c[4..] + c[..4])) % 97 == 1
    ensures RemoveAll(Spaced(c), ' ') == c
    ensures |Spaced(c)| == |c| + (|c| - 1) / 4
  {
    FormatValidAscii(c, specs);
    var b := c[4..];
    forall i | 0 <= i < |c| ensures IsUpperAlnum(c[i]) {
      if i >= 4 {
        assert c[i] == b[i - 4];
      }
    }
    UpperAlnumShape(c);
  }

  /** Capital letters and digits: the checksum input is the text itself, and
      the grouping by four is undone by deleting the spaces. */
  lemma UpperAlnumShape(c: string)
    requires |c| >= 4 && AllUpperAlnum(c)
    ensures IbanChecksumHolds(c) <==> DecimalValue(Expand(c[4..] + c[..4])) % 97 == 1
    ensures RemoveAll(Spaced(c), ' ') == c
    ensures |Spaced(c)| == |c| + (|c| - 1) / 4
  {
    CleanInputUnchanged(c);
    SpacedRemovesToInput(c);
    assert ' ' !in c by {
      forall j | 0 <= j < |c| ensures c[j] != ' ' {
        assert IsUpperAlnum(c[j]);
      }
    }
    RemoveAbsent(c, ' ');
    UpperAlnumIsAscii(c);
    SpacedAscii(c);
  }
}
