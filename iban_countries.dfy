/** The table of supported IBAN countries (iban-handling.go, lines 26-242).

    Every BBAN pattern of the table is an anchored concatenation of fixed-count
    character classes (`^[A-Z]{4}[0-9]{14}$` and the like); the model keeps a
    pattern as that list of segments, which Go's `regexp` matches exactly when
    the BBAN is the segments one after the other and nothing more. */
module IbanCountries {
  import opened Text

  /** `[0-9]`, `[A-Z]` and `[A-Z0-9]`: ASCII only, as in Go's `regexp`. */
  datatype CharClass = Digit | Upper | UpperOrDigit

  /** `[class]{count}`; a bare class counts once. */
  datatype Segment = Segment(cls: CharClass, count: nat)

  /** IBANCountrySpec. Positions count from the start of the cleaned IBAN,
      country code and check digits included. */
  datatype CountrySpec = CountrySpec(
    countryCode: string,
    countryName: string,
    length: int,
    bbanFormat: seq<Segment>,
    bankCodeStart: int,
    bankCodeLen: int,
    accountStart: int,
    accountLen: int,
    example: string)

  predicate InClass(c: char, cls: CharClass) {
    match cls
    case Digit => IsDigit(c)
    case Upper => IsUpper(c)
    case UpperOrDigit => IsUpper(c) || IsDigit(c)
  }

  /** Number of characters a pattern matches. */
  function FormatLength(f: seq<Segment>): nat {
    if |f| == 0 then 0 else f[0].count + FormatLength(f[1..])
  }

  /** `regexp.MustCompile(format).MatchString(s)` for an anchored pattern. */
  predicate MatchesFormat(s: string, f: seq<Segment>)
    decreases |f|
  {
    if |f| == 0 then |s| == 0
    else
      var n := f[0].count;
      n <= |s| && (forall i :: 0 <= i < n ==> InClass(s[i], f[0].cls)) && MatchesFormat(s[n..], f[1..])
  }

  /** A matching BBAN has the pattern's length and holds only ASCII capital
      letters and digits. */
  lemma {:induction false} MatchesFormatShape(s: string, f: seq<Segment>)
    requires MatchesFormat(s, f)
    ensures |s| == FormatLength(f)
    ensures forall i :: 0 <= i < |s| ==> IsUpper(s[i]) || IsDigit(s[i])
    decreases |f|
  {
    if |f| > 0 {
      var n := f[0].count;
      MatchesFormatShape(s[n..], f[1..]);
      forall i | 0 <= i < |s| ensures IsUpper(s[i]) || IsDigit(s[i]) {
        if i >= n {
          assert s[i] == s[n..][i - n];
        }
      }
    }
  }

  // SEPA countries (European Union), lines 41-147, in four parts by the
  // first letter of the key.

  /** SEPA, A to C, lines 42-62. */
  const SepaAToC: map<string, CountrySpec> := map[
    "AD" := CountrySpec("AD", "Andorra", 24, [Segment(Digit, 8), Segment(UpperOrDigit, 12)], 4, 8, 12, 12, "AD1200012030200359100100"),
    "AT" := CountrySpec("AT", "Austria", 20, [Segment(Digit, 16)], 4, 5, 9, 11, "AT611904300234573201"),
    "BE" := CountrySpec("BE", "Belgium", 16, [Segment(Digit, 12)], 4, 3, 7, 9, "BE68539007547034"),
    "BG" := CountrySpec("BG", "Bulgaria", 22, [Segment(Upper, 4), Segment(Digit, 6), Segment(UpperOrDigit, 8)], 4, 4, 8, 14, "BG80BNBG96611020345678"),
    "CH" := CountrySpec("CH", "Switzerland", 21, [Segment(Digit, 5), Segment(UpperOrDigit, 12)], 4, 5, 9, 12, "CH9300762011623852957"),
    "CY" := CountrySpec("CY", "Cyprus", 28, [Segment(Digit, 8), Segment(UpperOrDigit, 16)], 4, 8, 12, 16, "CY17002001280000001200527600"),
    "CZ" := CountrySpec("CZ", "Czech Republic", 24, [Segment(Digit, 20)], 4, 4, 8, 16, "CZ6508000000192000145399")
  ]

  /** SEPA, D to G, lines 63-89. */
  const SepaDToG: map<string, CountrySpec> := map[
    "DE" := CountrySpec("DE", "Germany", 22, [Segment(Digit, 18)], 4, 8, 12, 10, "DE89370400440532013000"),
    "DK" := CountrySpec("DK", "Denmark", 18, [Segment(Digit, 14)], 4, 4, 8, 10, "DK5000400440116243"),
    "EE" := CountrySpec("EE", "Estonia", 20, [Segment(Digit, 16)], 4, 2, 6, 14, "EE382200221020145685"),
    "ES" := CountrySpec("ES", "Spain", 24, [Segment(Digit, 20)], 4, 8, 12, 12, "ES9121000418450200051332"),
    "FI" := CountrySpec("FI", "Finland", 18, [Segment(Digit, 14)], 4, 6, 10, 8, "FI2112345600000785"),
    "FR" := CountrySpec("FR", "France", 27, [Segment(Digit, 10), Segment(UpperOrDigit, 11), Segment(Digit, 2)], 4, 10, 14, 13, "FR1420041010050500013M02606"),
    "GB" := CountrySpec("GB", "United Kingdom", 22, [Segment(Upper, 4), Segment(Digit, 14)], 4, 4, 8, 14, "GB29NWBK60161331926819"),
    "GI" := CountrySpec("GI", "Gibraltar", 23, [Segment(Upper, 4), Segment(UpperOrDigit, 15)], 4, 4, 8, 15, "GI75NWBK000000007099453"),
    "GR" := CountrySpec("GR", "Greece", 27, [Segment(Digit, 7), Segment(UpperOrDigit, 16)], 4, 7, 11, 16, "GR1601101250000000012300695")
  ]

  /** SEPA, H to L, lines 90-116. */
  const SepaHToL: map<string, CountrySpec> := map[
    "HR" := CountrySpec("HR", "Croatia", 21, [Segment(Digit, 17)], 4, 7, 11, 10, "HR1210010051863000160"),
    "HU" := CountrySpec("HU", "Hungary", 28, [Segment(Digit, 24)], 4, 7, 11, 17, "HU42117730161111101800000000"),
    "IE" := CountrySpec("IE", "Ireland", 22, [Segment(Upper, 4), Segment(Digit, 14)], 4, 4, 8, 14, "IE29AIBK93115212345678"),
    "IS" := CountrySpec("IS", "Iceland", 26, [Segment(Digit, 22)], 4, 4, 8, 18, "IS140159260076545510730339"),
    "IT" := CountrySpec("IT", "Italy", 27, [Segment(Upper, 1), Segment(Digit, 10), Segment(UpperOrDigit, 12)], 5, 10, 15, 12, "IT60X0542811101000000123456"),
    "LI" := CountrySpec("LI", "Liechtenstein", 21, [Segment(Digit, 5), Segment(UpperOrDigit, 12)], 4, 5, 9, 12, "LI21088100002324013AA"),
    "LT" := CountrySpec("LT", "Lithuania", 20, [Segment(Digit, 16)], 4, 5, 9, 11, "LT121000011101001000"),
    "LU" := CountrySpec("LU", "Luxembourg", 20, [Segment(Digit, 3), Segment(UpperOrDigit, 13)], 4, 3, 7, 13, "LU280019400644750000"),
    "LV" := CountrySpec("LV", "Latvia", 21, [Segment(Upper, 4), Segment(UpperOrDigit, 13)], 4, 4, 8, 13, "LV80BANK0000435195001")
  ]

  /** SEPA, M to S, lines 117-146. */
  const SepaMToS: map<string, CountrySpec> := map[
    "MC" := CountrySpec("MC", "Monaco", 27, [Segment(Digit, 10), Segment(UpperOrDigit, 11), Segment(Digit, 2)], 4, 10, 14, 13, "MC5811222000010123456789030"),
    "MT" := CountrySpec("MT", "Malta", 31, [Segment(Upper, 4), Segment(Digit, 5), Segment(UpperOrDigit, 18)], 4, 4, 8, 23, "MT84MALT011000012345MTLCAST001S"),
    "NL" := CountrySpec("NL", "Netherlands", 18, [Segment(Upper, 4), Segment(Digit, 10)], 4, 4, 8, 10, "NL91ABNA0417164300"),
    "NO" := CountrySpec("NO", "Norway", 15, [Segment(Digit, 11)], 4, 4, 8, 7, "NO9386011117947"),
    "PL" := CountrySpec("PL", "Poland", 28, [Segment(Digit, 24)], 4, 8, 12, 16, "PL61109010140000071219812874"),
    "PT" := CountrySpec("PT", "Portugal", 25, [Segment(Digit, 21)], 4, 8, 12, 13, "PT50000201231234567890154"),
    "RO" := CountrySpec("RO", "Romania", 24, [Segment(Upper, 4), Segment(UpperOrDigit, 16)], 4, 4, 8, 16, "RO49AAAA1B31007593840000"),
    "SE" := CountrySpec("SE", "Sweden", 24, [Segment(Digit, 20)], 4, 3, 7, 17, "SE4550000000058398257466"),
    "SI" := CountrySpec("SI", "Slovenia", 19, [Segment(Digit, 15)], 4, 5, 9, 10, "SI56263300012039086"),
    "SK" := CountrySpec("SK", "Slovakia", 24, [Segment(Digit, 20)], 4, 4, 8, 16, "SK3112000000198742637541")
  ]

  /** SEPA countries (European Union), lines 41-147. */
  const SepaSpecs: map<string, CountrySpec> := SepaAToC + SepaDToG + SepaHToL + SepaMToS

  /** Non-SEPA European countries, lines 148-155. */
  const NonSepaEuropeSpecs: map<string, CountrySpec> := map[
    "SM" := CountrySpec("SM", "San Marino", 27, [Segment(Upper, 1), Segment(Digit, 10), Segment(UpperOrDigit, 12)], 5, 10, 15, 12, "SM86U0322509800000000270100"),
    "VA" := CountrySpec("VA", "Vatican City", 22, [Segment(Digit, 18)], 4, 3, 7, 15, "VA59001123000012345678")
  ]

  /** Middle East and North Africa, lines 156-187. */
  const MiddleEastNorthAfricaSpecs: map<string, CountrySpec> := map[
    "AE" := CountrySpec("AE", "United Arab Emirates", 23, [Segment(Digit, 19)], 4, 3, 7, 16, "AE070331234567890123456"),
    "BH" := CountrySpec("BH", "Bahrain", 22, [Segment(Upper, 4), Segment(UpperOrDigit, 14)], 4, 4, 8, 14, "BH67BMAG00001299123456"),
    "IL" := CountrySpec("IL", "Israel", 23, [Segment(Digit, 19)], 4, 6, 10, 13, "IL620108000000099999999"),
    "JO" := CountrySpec("JO", "Jordan", 30, [Segment(Upper, 4), Segment(Digit, 4), Segment(UpperOrDigit, 18)], 4, 4, 8, 22, "JO94CBJO0010000000000131000302"),
    "KW" := CountrySpec("KW", "Kuwait", 30, [Segment(Upper, 4), Segment(UpperOrDigit, 22)], 4, 4, 8, 22, "KW81CBKU0000000000001234560101"),
    "LB" := CountrySpec("LB", "Lebanon", 28, [Segment(Digit, 4), Segment(UpperOrDigit, 20)], 4, 4, 8, 20, "LB62099900000001001901229114"),
    "PS" := CountrySpec("PS", "Palestine", 29, [Segment(Upper, 4), Segment(UpperOrDigit, 21)], 4, 4, 8, 21, "PS92PALS000000000400123456702"),
    "QA" := CountrySpec("QA", "Qatar", 29, [Segment(Upper, 4), Segment(UpperOrDigit, 21)], 4, 4, 8, 21, "QA58DOHB00001234567890ABCDEFG"),
    "SA" := CountrySpec("SA", "Saudi Arabia", 24, [Segment(Digit, 2), Segment(UpperOrDigit, 18)], 4, 2, 6, 18, "SA0380000000608010167519"),
    "TR" := CountrySpec("TR", "Turkey", 26, [Segment(Digit, 5), Segment(UpperOrDigit, 17)], 4, 5, 9, 17, "TR330006100519786457841326")
  ]

  /** Caribbean and Latin America, lines 188-204. */
  const CaribbeanLatinAmericaSpecs: map<string, CountrySpec> := map[
    "BR" := CountrySpec("BR", "Brazil", 29, [Segment(Digit, 23), Segment(Upper, 1), Segment(UpperOrDigit, 1)], 4, 8, 12, 17, "BR1800360305000010009795493C1"),
    "CR" := CountrySpec("CR", "Costa Rica", 22, [Segment(Digit, 18)], 4, 4, 8, 14, "CR05015202001026284066"),
    "DO" := CountrySpec("DO", "Dominican Republic", 28, [Segment(Upper, 4), Segment(Digit, 20)], 4, 4, 8, 20, "DO28BAGR00000001212453611324"),
    "GT" := CountrySpec("GT", "Guatemala", 28, [Segment(UpperOrDigit, 24)], 4, 4, 8, 20, "GT82TRAJ01020000001210029690"),
    "SV" := CountrySpec("SV", "El Salvador", 28, [Segment(Upper, 4), Segment(Digit, 20)], 4, 4, 8, 20, "SV62CENR00000000000000700025")
  ]

  /** Other regions, lines 205-241. */
  const OtherRegionSpecs: map<string, CountrySpec> := map[
    "AZ" := CountrySpec("AZ", "Azerbaijan", 28, [Segment(Upper, 4), Segment(UpperOrDigit, 20)], 4, 4, 8, 20, "AZ21NABZ00000000137010001944"),
    "BY" := CountrySpec("BY", "Belarus", 28, [Segment(UpperOrDigit, 4), Segment(Digit, 4), Segment(UpperOrDigit, 16)], 4, 4, 8, 20, "BY13NBRB3600900000002Z00AB00"),
    "EG" := CountrySpec("EG", "Egypt", 29, [Segment(Digit, 25)], 4, 4, 8, 21, "EG380019000500000000263180002"),
    "GE" := CountrySpec("GE", "Georgia", 22, [Segment(Upper, 2), Segment(Digit, 16)], 4, 2, 6, 16, "GE29NB0000000101904917"),
    "IQ" := CountrySpec("IQ", "Iraq", 23, [Segment(Upper, 4), Segment(Digit, 15)], 4, 4, 8, 15, "IQ98NBIQ850123456789012"),
    "KZ" := CountrySpec("KZ", "Kazakhstan", 20, [Segment(Digit, 3), Segment(UpperOrDigit, 13)], 4, 3, 7, 13, "KZ86125KZT5004100100"),
    "MD" := CountrySpec("MD", "Moldova", 24, [Segment(UpperOrDigit, 20)], 4, 2, 6, 18, "MD24AG000225100013104168"),
    "MU" := CountrySpec("MU", "Mauritius", 30, [Segment(Upper, 4), Segment(Digit, 19), Segment(Upper, 3)], 4, 6, 10, 20, "MU17BOMM0101101030300200000MUR"),
    "PK" := CountrySpec("PK", "Pakistan", 24, [Segment(Upper, 4), Segment(UpperOrDigit, 16)], 4, 4, 8, 16, "PK36SCBL0000001123456702"),
    "TN" := CountrySpec("TN", "Tunisia", 24, [Segment(Digit, 20)], 4, 5, 9, 15, "TN5910006035183598478831"),
    "UA" := CountrySpec("UA", "Ukraine", 29, [Segment(Digit, 6), Segment(UpperOrDigit, 19)], 4, 6, 10, 19, "UA213223130000026007233566001"),
    "XK" := CountrySpec("XK", "Kosovo", 20, [Segment(Digit, 16)], 4, 4, 8, 12, "XK051212012345678906")
  ]

  /** ibanCountrySpecs: the five groups of the Go map literal, which has no
      key twice. */
  const IbanCountrySpecs: map<string, CountrySpec> :=
    SepaSpecs + NonSepaEuropeSpecs + MiddleEastNorthAfricaSpecs + CaribbeanLatinAmericaSpecs + OtherRegionSpecs

  // ---------------------------------------------------------------------------
  // Consistency of the table

  /** An entry agrees with its key and with itself: the key is two capital
      letters and is the entry's country code, the pattern covers exactly the
      characters after the four-character prefix, and the bank-code and
      account ranges are non-empty and lie inside the BBAN. */
  predicate SpecConsistent(code: string, spec: CountrySpec) {
    |code| == 2 && IsUpper(code[0]) && IsUpper(code[1])
    && spec.countryCode == code
    && 15 <= spec.length
    && FormatLength(spec.bbanFormat) == spec.length - 4
    && 4 <= spec.bankCodeStart && 0 < spec.bankCodeLen && spec.bankCodeStart + spec.bankCodeLen <= spec.length
    && 4 <= spec.accountStart && 0 < spec.accountLen && spec.accountStart + spec.accountLen <= spec.length
  }

  lemma SepaAToCEntryConsistent(code: string)
    requires code in SepaAToC
    ensures SpecConsistent(code, SepaAToC[code])
  {
  }

  lemma SepaDToGEntryConsistent(code: string)
    requires code in SepaDToG
    ensures SpecConsistent(code, SepaDToG[code])
  {
  }

  lemma SepaHToLEntryConsistent(code: string)
    requires code in SepaHToL
    ensures SpecConsistent(code, SepaHToL[code])
  {
  }

  lemma SepaMToSEntryConsistent(code: string)
    requires code in SepaMToS
    ensures SpecConsistent(code, SepaMToS[code])
  {
  }

  lemma NonSepaEuropeEntryConsistent(code: string)
    requires code in NonSepaEuropeSpecs
    ensures SpecConsistent(code, NonSepaEuropeSpecs[code])
  {
  }

  lemma MiddleEastNorthAfricaEntryConsistent(code: string)
    requires code in MiddleEastNorthAfricaSpecs
    ensures SpecConsistent(code, MiddleEastNorthAfricaSpecs[code])
  {
  }

  lemma CaribbeanLatinAmericaEntryConsistent(code: string)
    requires code in CaribbeanLatinAmericaSpecs
    ensures SpecConsistent(code, CaribbeanLatinAmericaSpecs[code])
  {
  }

  lemma OtherRegionEntryConsistent(code: string)
    requires code in OtherRegionSpecs
    ensures SpecConsistent(code, OtherRegionSpecs[code])
  {
  }

  /** Every entry of a table is consistent with its key. */
  predicate WellFormedTable(specs: map<string, CountrySpec>) {
    forall code :: code in specs ==> SpecConsistent(code, specs[code])
  }

  /** Merging two consistent tables gives a consistent table: an entry of the
      merge is an entry of one of them. */
  lemma MergeWellFormed(a: map<string, CountrySpec>, b: map<string, CountrySpec>)
    requires WellFormedTable(a) && WellFormedTable(b)
    ensures WellFormedTable(a + b)
  {
    forall code | code in a + b
      ensures SpecConsistent(code, (a + b)[code])
    {
      if code in b {
        assert (a + b)[code] == b[code];
      } else {
        assert (a + b)[code] == a[code];
      }
    }
  }

  lemma SepaAToCWellFormed()
    ensures WellFormedTable(SepaAToC)
  {
    forall code | code in SepaAToC
      ensures SpecConsistent(code, SepaAToC[code])
    {
      SepaAToCEntryConsistent(code);
    }
  }

  lemma SepaDToGWellFormed()
    ensures WellFormedTable(SepaDToG)
  {
    forall code | code in SepaDToG
      ensures SpecConsistent(code, SepaDToG[code])
    {
      SepaDToGEntryConsistent(code);
    }
  }

  lemma SepaHToLWellFormed()
    ensures WellFormedTable(SepaHToL)
  {
    forall code | code in SepaHToL
      ensures SpecConsistent(code, SepaHToL[code])
    {
      SepaHToLEntryConsistent(code);
    }
  }

  lemma SepaMToSWellFormed()
    ensures WellFormedTable(SepaMToS)
  {
    forall code | code in SepaMToS
      ensures SpecConsistent(code, SepaMToS[code])
    {
      SepaMToSEntryConsistent(code);
    }
  }

  lemma NonSepaEuropeWellFormed()
    ensures WellFormedTable(NonSepaEuropeSpecs)
  {
    forall code | code in NonSepaEuropeSpecs
      ensures SpecConsistent(code, NonSepaEuropeSpecs[code])
    {
      NonSepaEuropeEntryConsistent(code);
    }
  }

  lemma MiddleEastNorthAfricaWellFormed()
    ensures WellFormedTable(MiddleEastNorthAfricaSpecs)
  {
    forall code | code in MiddleEastNorthAfricaSpecs
      ensures SpecConsistent(code, MiddleEastNorthAfricaSpecs[code])
    {
      MiddleEastNorthAfricaEntryConsistent(code);
    }
  }

  lemma CaribbeanLatinAmericaWellFormed()
    ensures WellFormedTable(CaribbeanLatinAmericaSpecs)
  {
    forall code | code in CaribbeanLatinAmericaSpecs
      ensures SpecConsistent(code, CaribbeanLatinAmericaSpecs[code])
    {
      CaribbeanLatinAmericaEntryConsistent(code);
    }
  }

  lemma OtherRegionWellFormed()
    ensures WellFormedTable(OtherRegionSpecs)
  {
    forall code | code in OtherRegionSpecs
      ensures SpecConsistent(code, OtherRegionSpecs[code])
    {
      OtherRegionEntryConsistent(code);
    }
  }

  /** ibanCountrySpecs is a consistent table. */
  lemma IbanCountrySpecsWellFormed()
    ensures WellFormedTable(IbanCountrySpecs)
  {
    SepaAToCWellFormed();
    SepaDToGWellFormed();
    SepaHToLWellFormed();
    SepaMToSWellFormed();
    NonSepaEuropeWellFormed();
    MiddleEastNorthAfricaWellFormed();
    CaribbeanLatinAmericaWellFormed();
    OtherRegionWellFormed();
    var s1 := SepaAToC + SepaDToG;
    MergeWellFormed(SepaAToC, SepaDToG);
    var s2 := s1 + SepaHToL;
    MergeWellFormed(s1, SepaHToL);
    MergeWellFormed(s2, SepaMToS);
    var m1 := SepaSpecs + NonSepaEuropeSpecs;
    MergeWellFormed(SepaSpecs, NonSepaEuropeSpecs);
    var m2 := m1 + MiddleEastNorthAfricaSpecs;
    MergeWellFormed(m1, MiddleEastNorthAfricaSpecs);
    var m3 := m2 + CaribbeanLatinAmericaSpecs;
    MergeWellFormed(m2, CaribbeanLatinAmericaSpecs);
    MergeWellFormed(m3, OtherRegionSpecs);
  }

  /** Every entry of ibanCountrySpecs is consistent with its key. */
  lemma TableConsistent(code: string)
    requires code in IbanCountrySpecs
    ensures SpecConsistent(code, IbanCountrySpecs[code])
  {
    IbanCountrySpecsWellFormed();
  }
}
