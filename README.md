# microtools-api core, modelled in Dafny

This project models the deterministic core of the microtools-api Go service:

- **Barcode generator** (`internal/services/generator/barcode.go`):
  - request defaults and the ordered request and data validation;
  - the UPC-A and EAN-13 check digits, the weighted modulo-10 check digits of the GS1 General Specifications, section 7.9;
  - the Code128 UTF-8 and length rule;
  - the UPC-A to EAN-13 promotion in `encodeBarcode`;
  - the SVG renderer's run-length scan of the bar pattern and its caption escaping;
  - the caption placement of the PNG renderer;
  - the `Generate` dispatch.
- **IBAN validation** (`internal/services/validation/iban.go` and its line-for-line duplicate `iban-handling.go`, together with that file's country table):
  - the ISO 13616 structure checks;
  - the ISO 7064 MOD 97-10 checksum with its digit-by-digit remainder loop;
  - the grouping by four;
  - the staged validity flags and the bank and account extraction of `ValidateIBAN`.
- **QR payloads**, two separate implementations, each modelled on its own:
  - `internal/services/generator/qr.go`: defaults, validation, `BuildPayload`, `ParseErrorCorrection` and the step order of `GenerateQR`;
  - `qr_handler.go`: defaults, validation, `buildPayloadByType`, the SMS, geo, WIFI, vCard 3.0 and VCALENDAR builders, `parseErrorCorrection` and the step order and status codes of `QRHandler`.
- **E-mail checks** (`internal/services/validation/email.go` and its duplicate `email-handling.go`): `extractDomain`, the disposable-domain lookup, the address pattern, `verifyMxRecords`, and how `ValidateEmail` fills in its result.

The modules are:

- `Wrappers`: Option, Result and Outcome.
- `Text`: the Go `strings` operations the core uses, Go's truncating `/` and `%`, and the UTF-8 byte length that Go's `len` returns.
- `BarcodeValidation`, `BarcodeSvg` and `BarcodeService`.
- `IbanCountries` and `Iban`.
- `QrLibrary`: what both QR files share.
- `QrGenerator` and `QrHandler`.
- `Email`.

Each Go function that changes state step by step is a method with loops and invariants:

- `calculateMod97`, `validateIBANChecksum` and `formatIBANWithSpaces`;
- the checksum loops and the SVG scan;
- `isDisposableEmail`;
- the `strings.Builder` writes of `buildVCard` and `buildEvent`;
- the field-by-field filling of `ValidateIBAN` and `ValidateEmail`.

Each method is proved against a specification function. The defaulting functions update a request through a pointer to the caller's copy; they are methods that return the updated request.

These library calls are parameters of the model:

- the symbology encoders;
- the raster scaler;
- `qrcode.Encode`;
- the JSON decoder (a `JsonReading` for each data string);
- RFC 3339 parsing with UTC formatting (`vcalTime`);
- the DNS lookups.

## Model

| member | source | states |
|---|---|---|
| BarcodeValidation.ApplyBarcodeDefaults | internal/services/generator/barcode.go:86-93 | A width of 0 becomes 300 and a height of 0 becomes 150. Every other value stays, negative ones included. Every other field is unchanged. |
| BarcodeValidation.DigitValue | internal/services/generator/barcode.go:178 | `digits[i] - '0'` is a byte subtraction, so it wraps into 0..255. For an ASCII digit it is the digit's value, at most 9. |
| BarcodeValidation.CheckDigitFor | internal/services/generator/barcode.go:185 | `(10 - sum % 10) % 10` lies in 0..9. It is the one digit in 0..9 that brings the sum to a multiple of ten. |
| BarcodeValidation.ComputeUPCAChecksum | internal/services/generator/barcode.go:175-186 | The loop over the first 11 digits, with weight 3 at even and 1 at odd positions, returns a digit in 0..9. That digit completes the weighted sum to a multiple of ten. |
| BarcodeValidation.ComputeEAN13Checksum | internal/services/generator/barcode.go:197-208 | The same over 12 digits, with weight 1 at even and 3 at odd positions. |
| BarcodeValidation.ValidateUPCAChecksum | internal/services/generator/barcode.go:188-195 | A mismatch carries the computed and the supplied digit. A 12-digit numeric code passes exactly when it is GS1-valid. |
| BarcodeValidation.ValidateEAN13Checksum | internal/services/generator/barcode.go:210-217 | A mismatch carries the computed and the supplied digit. A 13-digit numeric code passes exactly when it is GS1-valid. |
| BarcodeValidation.CheckDigitComparison | internal/services/generator/barcode.go:189-191 | Comparing the last digit with the check digit of the others is the same as asking that the weighted sum of all digits be a multiple of ten. |
| BarcodeValidation.ValidateBarcodeData | internal/services/generator/barcode.go:126-173 | It passes exactly when the data obeys its type's rule (stated in the next rows). Any failure is ErrInvalidData or ErrChecksumMismatch. ChecksumMismatch comes only from a 12-digit UPC-A or a 13-digit EAN-13. Each failure is named, in Go's order. UPC-A and EAN-13 data that is not all digits gives NotNumeric. Digits of the wrong count give WrongLength. A full-length code gives its checksum validator's answer. Code128 data that is not UTF-8 gives NotUtf8, and UTF-8 data over 500 bytes gives TooLong. |
| BarcodeValidation.ValidateBarcodeRequest | internal/services/generator/barcode.go:95-124 | Checks run in the order type, format, empty data, data rules, width in [50,1024], height in [50,1024]. Each error is returned exactly when every earlier check passes and its own fails. A data-rule failure is passed on unchanged, as validateBarcodeData reports it. The request passes exactly when all checks pass. |
| BarcodeValidation.UpcAIsEan13WithLeadingZero | internal/services/generator/barcode.go:221-223 | UPC-A data is acceptable exactly when "0" followed by that data is acceptable EAN-13 data, which is why the encoder receives "0" + data. |
| BarcodeValidation.WeightedSumShift | internal/services/generator/barcode.go:175-208 | A leading "0" turns the EAN-13 weighting (1,3) into the UPC-A weighting (3,1) of the remaining digits. |
| BarcodeValidation.SingleDigitErrorDetected | internal/services/generator/barcode.go:175-217 | Changing any single digit of a GS1-valid code gives a code that is not GS1-valid. |
| BarcodeValidation.Ean13MistypedDigitRejected | internal/services/generator/barcode.go:148-150 | A 13-digit EAN-13 that validates is refused with ChecksumMismatch once any one digit is mistyped. |
| BarcodeValidation.UpcAMistypedDigitRejected | internal/services/generator/barcode.go:136-138 | A 12-digit UPC-A that validates is refused with ChecksumMismatch once any one digit is mistyped. |
| BarcodeSvg.Runs | internal/services/generator/barcode.go:313-330 | Every run starts in the row, is non-empty and ends within the row. The last column is dark exactly when the last run ends at the end of the row. |
| BarcodeSvg.RunsAreRunCover | internal/services/generator/barcode.go:313-330 | The runs are the maximal dark runs of the row, left to right: every dark column is in exactly one run, no light column is in a run, and neighbouring runs are separated by light columns. |
| BarcodeSvg.RunCoverUnique | internal/services/generator/barcode.go:313-330 | Any list of maximal dark runs of a row, left to right, is `Runs` of that row. |
| BarcodeSvg.ScanBars | internal/services/generator/barcode.go:313-330 | The scan over the columns plus one light sentinel step, with `startX` as loop state, emits exactly the maximal dark runs, a trailing run included. |
| BarcodeSvg.ReplaceAll | internal/services/generator/barcode.go:344-348 | `strings.ReplaceAll` with a replacement that lacks the byte leaves none of it behind and adds no bytes beyond those of the input and the replacement. |
| BarcodeSvg.SvgEscapeIsEscapeEach | internal/services/generator/barcode.go:343-350 | The five chained replacements, `&` first, escape each byte on its own, so no entity is escaped twice. |
| BarcodeSvg.UnescapeSvgEscape | internal/services/generator/barcode.go:343-350 | Decoding the five entities of the escaped label gives back the label. |
| BarcodeSvg.SvgEscapeIsSafe | internal/services/generator/barcode.go:343-350 | The escaped label holds no raw `<`, `>`, `"` or `'`. |
| BarcodeSvg.RenderBarcodeSvg | internal/services/generator/barcode.go:295-341 | The image is `width` wide, with bars `height` tall. It is 20 taller when there is a caption. The bars are the maximal dark runs. The caption exists exactly when `includeText` holds; it sits at x = width/2 (Go division) and y = height + 18, and its escaped text decodes back to the data. |
| BarcodeService.EncodeBarcode | internal/services/generator/barcode.go:219-246 | UPC-A goes to the EAN encoder with a leading "0", EAN-13 goes to it unchanged, and Code128 goes to the Code128 encoder. An encoder rejection becomes ErrInvalidData. Exactly the unknown types give ErrInvalidType. |
| BarcodeService.LabelX | internal/services/generator/barcode.go:277-281 | The left edge of the caption is never negative. A caption that fits is centred to within a pixel. A caption at least as wide as the canvas starts at 0. |
| BarcodeService.RenderBarcodePng | internal/services/generator/barcode.go:248-266 | It fails exactly when the scaler fails. Otherwise the canvas is height tall, or height + 20 with a caption. The caption, at baseline height + 16, exists exactly when `includeText` holds. |
| BarcodeService.Generate | internal/services/generator/barcode.go:62-84 | Defaults are applied, then validation runs; a refusal returns its error before anything is encoded. For a request that passes, an encoder rejection gives InvalidData, a PNG whose scaling fails gives ScaleFailed, and every other request succeeds. On success the content type and the image kind follow the format. A PNG is as wide as the defaulted width, with the defaulted height as bar height, 20 more pixels with a caption, the encoder's modules, and the caption at LabelX and 4 pixels above the bottom. An SVG has the same sizes, the maximal runs of the modules, and the escaped caption centred at width/2 and 2 pixels above the bottom. |
| IbanCountries.MatchesFormatShape | iban-handling.go:42 | A BBAN that matches a country's anchored pattern has the pattern's length and consists of ASCII capital letters and digits only. |
| IbanCountries.TableConsistent | iban-handling.go:40-242 | Every table key is two capital letters and equals the entry's CountryCode. The length is at least 15. The pattern covers exactly Length - 4 characters. The bank-code and account ranges are non-empty and lie inside the IBAN. |
| Iban.FormatIbanWithSpaces | internal/services/validation/iban.go:20-29 | The loop builds the grouped text. Deleting its spaces gives back the input. For n capital letters and digits the output has n + (n-1)/4 characters. |
| Iban.SpacedRemovesToInput | internal/services/validation/iban.go:20-29 | For any input, the grouping only inserts spaces. |
| Iban.SpacedAscii | internal/services/validation/iban.go:22-26 | For ASCII input, character i lands at position i + i/4, and a space stands at every position 5t - 1. |
| Iban.SpaceBeforeEveryFourth | internal/services/validation/iban.go:23-25 | A space precedes character i exactly when i is a positive multiple of 4. |
| Iban.CalculateMod97 | internal/services/validation/iban.go:31-38 | For a digit string, the loop keeps remainder = value(prefix read) mod 97, and the result is the number's remainder, in 0..96. |
| Iban.ExpandChar | internal/services/validation/iban.go:51-55 | A capital letter becomes two digits (A=10 .. Z=35). A digit stays as it is. |
| Iban.Expand | internal/services/validation/iban.go:50-58 | Expanding capital letters and digits gives digits only. |
| Iban.ValidateIbanChecksum | internal/services/validation/iban.go:40-62 | After removing spaces and upper-casing, the result is true exactly when the text has at least 4 characters, all capital letters or digits, and the first four moved to the end with letters expanded leave remainder 1 mod 97. |
| Iban.CleanInputUnchanged | internal/services/validation/iban.go:41 | Removing spaces and upper-casing does not change a text of capital letters and digits. |
| Iban.ComputedCheckDigitsPass | internal/services/validation/iban.go:40-62 | Any country code and BBAN of capital letters and digits, with check digits computed the ISO 7064 way (98 - (value * 100 mod 97)), passes the checksum. |
| Iban.Blank | internal/services/validation/iban.go:66-80 | The starting result holds the input, and every flag is false. |
| Iban.FormatValidFields | internal/services/validation/iban.go:119-124 | Once the format stage passes, the table's bank-code and account ranges are in bounds, so both extractions happen and never read out of range. |
| Iban.ValidateIban | internal/services/validation/iban.go:65-133 | The result satisfies `Reports` for the cleaned input and the ibanCountrySpecs table. The input is echoed, and a cleaned input under 15 bytes gives the blank result. The country code, check digits, country name, BBAN, bank code and account number are filled in exactly at their stage. IsValid is the conjunction of the four flags. |
| Iban.ReportsStaged | internal/services/validation/iban.go:84-133 | In any reported result the flags are staged: format ⇒ length ⇒ country ⇒ letters, digits and a table key. Length valid means the byte length is the table's. IsValid implies the MOD 97-10 check. FormattedIBAN is empty unless the format stage passed. |
| Iban.ValidateStages | internal/services/validation/iban.go:84-132 | For any consistent country table, the early returns of ValidateIBAN on the cleaned text establish every field equation of `Reports`. |
| Iban.CleanIbanHasNoLower | internal/services/validation/iban.go:82 | The cleaned input holds no ASCII lower-case letter. |
| Iban.FormatValidIbanShape | internal/services/validation/iban.go:117-127 | A cleaned input that passes the format stage is capital letters and digits only. Its checksum flag is exactly the MOD 97-10 test. Its grouped form, with the spaces deleted, gives it back, and has n + (n-1)/4 characters. |
| QrLibrary.WifiPayloadFields | internal/services/generator/qr.go:68 | When no field holds ";", splitting the WIFI payload at ";" gives back the T, S and P fields and the two empty pieces of the ending. |
| QrGenerator.ApplyDefaults | internal/services/generator/qr.go:21-28 | Size 0 becomes 256 and an empty error correction becomes "M". Type and data are untouched. |
| QrGenerator.ValidateRequest | internal/services/generator/qr.go:31-45 | Checks run in order: the type is missing, the type is not among the ten, data is empty for a type other than wifi/vcard/event, the size is outside [64,2048]. Each error is returned exactly when the earlier checks pass and its own fails. |
| QrGenerator.BuildPayload | internal/services/generator/qr.go:48-90 | It succeeds exactly for a supported type whose url has a web scheme and whose JSON decodes. Data types yield their scheme (mailto:, tel:, sms:, geo:, or none) followed by the data unchanged. wifi, vcard and event yield their fixed layouts, all vCard fields included. Each failure is named. A url without a web scheme gives UrlSchemeRequired. JSON that does not decode gives InvalidWifiData, InvalidVCardData or InvalidEventData for wifi, vcard and event. An unknown type gives UnsupportedType. |
| QrGenerator.ParseErrorCorrection | internal/services/generator/qr.go:93-106 | L/l gives Low, Q/q High and H/h Highest. Every other level, M and m included, gives Medium. |
| QrGenerator.GenerateQr | internal/services/generator/qr.go:109-129 | Defaults, then validation, then the payload, then the encoder. A validation or payload error is returned before encoding. Success means the encoder's PNG for the payload, the parsed level and the defaulted size. |
| QrHandler.ApplyDefaults | qr_handler.go:100-110 | An empty type becomes "text", size 0 becomes 256 and an empty error correction becomes "medium". Data is untouched. |
| QrHandler.ValidateRequest | qr_handler.go:115-133 | Checks run in order: empty data, data over 2000 bytes, unsupported type, size outside [128,1024], error correction not in {low, medium, high, highest}. Each error is returned exactly when the earlier checks pass and its own fails. |
| QrHandler.BuildSms | qr_handler.go:183-189 | It fails exactly when there is no "|". Otherwise the result starts with "smsto:". |
| QrHandler.BuildSmsOfPair | qr_handler.go:184-188 | For a number without "|", the result is "smsto:" + number + ":" + message, where the message may hold more "|". |
| QrHandler.BuildGeo | qr_handler.go:237-243 | It succeeds exactly when there is a "," and both trimmed parts are non-empty. The result starts with "geo:". |
| QrHandler.BuildGeoOfPair | qr_handler.go:238-242 | For any lat without "," and any long, the result is "geo:" + TrimSpace(lat) + "," + TrimSpace(long) when both trimmed parts are non-empty, and GeoFormat otherwise. |
| QrHandler.BuildGeoRefusesBlank | qr_handler.go:238-240 | Such a pair is refused exactly when lat or long is white space only. |
| QrHandler.BuildGeoIdempotent | qr_handler.go:237-243 | Building again from a result's coordinates gives the same result. |
| QrHandler.BuildWifi | qr_handler.go:193-206 | It fails on bad JSON, then on an empty ssid, then on a security outside {WPA, WEP, nopass}, each with its own error. Otherwise it yields the WIFI payload. |
| QrHandler.JoinCrlfLines | qr_handler.go:218-233 | Lines without "\n", joined by CRLF, split at "\n" into the lines, each but the last ending in "\r". |
| QrHandler.VCardLines | qr_handler.go:219-232 | The vCard has BEGIN, VERSION:3.0, N:last;first;;;, FN:first last, then ORG, TEL and EMAIL only when non-empty, then END:VCARD. That is 5 to 8 lines. |
| QrHandler.VCardReadsBack | qr_handler.go:218-233 | The written vCard splits back into its lines. It starts "BEGIN:VCARD\r" and ends "END:VCARD" with no CRLF after it. |
| QrHandler.BuildVCard | qr_handler.go:209-234 | It fails on bad JSON and on a missing first or last name. Otherwise the writes produce exactly the vCard lines joined by CRLF. Its answer is VCardPayload, the same rules as a value. |
| QrHandler.BuildEvent | qr_handler.go:247-276 | Failures in order: bad JSON, a missing field, an unparsable start, an unparsable end. Otherwise the output is the eight CRLF-joined lines with the UTC times. Its answer is EventPayload, the same rules as a value. |
| QrHandler.BuildPayloadByType | qr_handler.go:139-180 | It dispatches per type. Text returns the data. A url needs http:// or https://. email and tel get mailto: and tel:. sms, wifi and geo return their builders' answers. vcard and event succeed under their builders' conditions with their CRLF-joined lines and fail with their builders' errors. json passes only when valid. Unknown types fail. |
| QrHandler.ParseErrorCorrection | qr_handler.go:281-294 | The exact lower-case names low, high and highest give their levels. Everything else, "medium" and other spellings included, gives Medium. |
| QrHandler.HandleQr | qr_handler.go:64-96 | A body that does not decode answers 400. A request that validation refuses after the defaults answers 400 with that error. So does a payload its builder refuses. Otherwise the reply is the encoder's PNG for the payload, the parsed level and the defaulted size, or 500 when the encoder fails. No other status occurs. |
| Email.ExtractDomain | internal/services/validation/email.go:34-40 | It returns "" unless the address holds exactly one "@". With one "@", the address is local part + "@" + result. The result never holds "@". |
| Email.ExtractDomainOfAddress | internal/services/validation/email.go:34-40 | For any local part and domain without "@", the domain is what comes back. |
| Email.ValidSyntaxHasDomain | internal/services/validation/email.go:28-40 | An address that matches `^[a-zA-Z0-9._%+-]+@[a-zA-Z0-9.-]+\.[a-zA-Z]{2,}$` always yields its non-empty domain, the text after its "@". |
| Email.IsDisposableEmail | internal/services/validation/email.go:67-80 | It is false when no domain is extracted. Otherwise it is true exactly when the lower-cased domain is one of the 13 listed providers. |
| Email.DisposableIgnoresCase | internal/services/validation/email.go:75 | A domain and its lower-case form are judged alike. |
| Email.VerifyMxRecords | internal/services/validation/email.go:51-65 | It is true exactly when a domain is extracted and the MX lookup for it returns records. |
| Email.ValidateEmail | internal/services/validation/email.go:83-110 | Email echoes the input. IsSyntaxValid is the pattern match. IsDomainValid is the lookup on the extracted domain. MxRecordsFound is verifyMxRecords. IsDisposable is isDisposableEmail. Neither of the last two holds without a domain. |

`email-handling.go` (lines 10-48, 154-198) and `iban-handling.go` (lines 244-389) repeat the functions of `email.go` and `iban.go` line for line. The rows above cover both copies.

## Left out

- Symbology encoding (`ean.Encode`, `code128.Encode`), `barcode.Scale`, `qrcode.Encode`: outside libraries. Each is a parameter; an encoder yields the first row of modules as `seq<bool>`.
- PNG drawing and encoding (`draw.Draw`, the font drawer, `png.Encode`): graphics-library work. The model records the canvas size, the bar area and the caption placement; a PNG encoding failure is not modelled.
- SVG coordinates: the `%.2f` floating-point scaling (`startX * scaleX`) and the textual SVG document are not modelled. Bars are stated in integer columns (start, length) before scaling.
- JSON decoding in the QR builders, `json.Valid`, and RFC 3339 parsing with UTC formatting in `buildEvent`: library behaviour. They are parameters (`JsonReading`, `vcalTime`).
- `isValidDomain` and the MX lookup of `verifyMxRecords`: DNS I/O. Their answers are parameters of `ValidateEmail` and `VerifyMxRecords`. The diagnostic `fmt.Println` output is left out.
- `writeJSONError` (qr_handler.go:299-303) and the HTTP plumbing of `QRHandler`: response headers and the JSON encoding of the error body. The model's reply carries the status and the error, or the PNG.
- BBAN patterns: every pattern in the table is an anchored run of fixed-count classes. The model keeps the pattern as that list of segments rather than interpreting regular expressions.
- `models.IBANCountrySpecs`, used at internal/services/validation/iban.go:98, is not part of this model. `ValidateIban` reads the table of iban-handling.go:40-242 instead.
- The `Example` IBANs of the country table: they are kept as data, but the model does not prove that each passes the checksum.
- Upper- and lower-casing (`strings.ToUpper`, `strings.ToLower`): folded for ASCII and for the non-ASCII runes that Go maps to ASCII letters (U+0131, U+017F upward; U+0130, U+212A downward). Other non-ASCII runes are left unchanged. The QR level names and the disposable-domain list are ASCII, so those comparisons come out the same either way.
- Iban.ValidateIban: for an input holding a non-ASCII rune that Go upper-cases, the model keeps the rune as it is. The bban then keeps the lower-case rune. When the two forms differ in UTF-8 length (U+0250 becomes U+2C6F, 2 bytes becoming 3), the 15-byte minimum and the length check can go the other way. Then countryCode, checkDigits, isCountrySupported, countryName, isLengthValid and bban can differ from Go's. isFormatValid, isChecksumValid, isValid, formattedIban, bankCode and accountNumber agree, because every BBAN pattern admits only ASCII.
- UTF-8 decoding of invalid byte sequences in the QR and IBAN texts: those texts are sequences of runes. Go's `len` is their UTF-8 byte length. Barcode data is kept as bytes, because the Code128 rule counts bytes and checks UTF-8.
- The smtpVerify function of email-handling.go: commented out in the source.
- The cosmetic request fields that no renderer reads (background and foreground colours and the like).

Facts of the code worth knowing:

- The barcode request has no format default (internal/services/generator/barcode.go:86-93): an empty format is refused with ErrInvalidFormat (internal/services/generator/barcode.go:100-107).
- The Code128 limit of 500 counts bytes, not characters (internal/services/generator/barcode.go:152-158).
- The 2000 limit of the QR handler counts bytes, although its message says characters (qr_handler.go:119-120).
