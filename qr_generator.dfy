/** The QR code generator service (internal/services/generator/qr.go):
    request defaults, validation, the payload text for each QR type, the
    recovery level, and the order of the steps of GenerateQR. The PNG itself
    comes from the go-qrcode library and is a parameter here. */
module QrGenerator {
  import opened Wrappers
  import opened Text
  import opened QrLibrary

  const DefaultSize := 256
  const DefaultErrorCorrection := "M"
  const MinSize := 64
  const MaxSize := 2048

  /** The ten QR types of supportedTypes. */
  const SupportedTypes: set<string> :=
    {"text", "url", "email", "tel", "sms", "wifi", "vcard", "geo", "event", "json"}

  /** The types whose payload comes from JSON in the data field, so that
      an empty data field is not refused up front. */
  const JsonTypes: set<string> := {"wifi", "vcard", "event"}

  datatype QrOptions = QrOptions(size: int, errorCorrection: string)

  /** models.QRRequest. */
  datatype QrRequest = QrRequest(qrType: string, data: string, options: QrOptions)

  /** The errors of ValidateRequest, BuildPayload and GenerateQR. */
  datatype QrError =
    | TypeRequired
    | UnsupportedType(qrType: string)
    | DataRequired
    | SizeOutOfRange
    | UrlSchemeRequired
    | InvalidWifiData
    | InvalidVCardData
    | InvalidEventData
    | EncodeFailed

  // ---------------------------------------------------------------------------
  // ApplyDefaults

  /** ApplyDefaults: the Go function updates the request through a pointer;
      here the updated request is returned. Size 0 becomes 256 and an empty
      error correction becomes "M"; type and data are not touched. */
  method ApplyDefaults(req: QrRequest) returns (r: QrRequest)
    ensures r.options.size == if req.options.size == 0 then DefaultSize else req.options.size
    ensures r.options.errorCorrection ==
              if req.options.errorCorrection == "" then DefaultErrorCorrection else req.options.errorCorrection
    ensures r.qrType == req.qrType && r.data == req.data
    ensures r == Defaulted(req)
  {
    r := req;
    if r.options.size == 0 {
      r := r.(options := r.options.(size := DefaultSize));
    }
    if r.options.errorCorrection == "" {
      r := r.(options := r.options.(errorCorrection := DefaultErrorCorrection));
    }
  }

  /** The request as ApplyDefaults leaves it. */
  function Defaulted(req: QrRequest): QrRequest {
    req.(options := QrOptions(
      if req.options.size == 0 then DefaultSize else req.options.size,
      if req.options.errorCorrection == "" then DefaultErrorCorrection else req.options.errorCorrection))
  }

  // ---------------------------------------------------------------------------
  // ValidateRequest

  /** ValidateRequest: a type, a supported type, data unless the type reads
      JSON, and a size in 64..2048, checked in that order. */
  function ValidateRequest(req: QrRequest): (r: Outcome<QrError>)
    ensures r == Fail(TypeRequired) <==> req.qrType == ""
    ensures r == Fail(UnsupportedType(req.qrType)) <==> req.qrType != "" && req.qrType !in SupportedTypes
    ensures r == Fail(DataRequired) <==>
              req.qrType in SupportedTypes && req.data == "" && req.qrType !in JsonTypes
    ensures r == Fail(SizeOutOfRange) <==>
              req.qrType in SupportedTypes && (req.data != "" || req.qrType in JsonTypes)
              && !(MinSize <= req.options.size <= MaxSize)
    ensures r.Pass? <==>
              req.qrType in SupportedTypes && (req.data != "" || req.qrType in JsonTypes)
              && MinSize <= req.options.size <= MaxSize
  {
    if req.qrType == "" then Fail(TypeRequired)
    else if req.qrType !in SupportedTypes then Fail(UnsupportedType(req.qrType))
    else if req.data == "" && req.qrType != "wifi" && req.qrType != "vcard" && req.qrType != "event" then
      Fail(DataRequired)
    else if req.options.size < MinSize || req.options.size > MaxSize then Fail(SizeOutOfRange)
    else Pass
  }

  // ---------------------------------------------------------------------------
  // BuildPayload

  /** The scheme a data-carrying type puts before the data; text, url and
      json carry the data bare. */
  function Scheme(qrType: string): string {
    if qrType == "email" then "mailto:"
    else if qrType == "tel" then "tel:"
    else if qrType == "sms" then "sms:"
    else if qrType == "geo" then "geo:"
    else ""
  }

  /** The types whose payload is the data itself behind a scheme. */
  const DataTypes: set<string> := {"text", "url", "email", "tel", "sms", "geo", "json"}

  /** The vCard of BuildPayload: newline-separated, every field present even
      when empty. */
  function VCardPayload(v: VCardData): string {
    "BEGIN:VCARD\nVERSION:3.0\nFN:" + v.firstName + " " + v.lastName + "\nORG:" + v.org
    + "\nTEL:" + v.phone + "\nEMAIL:" + v.email + "\nEND:VCARD"
  }

  function EventPayload(e: EventData): string {
    "BEGIN:VEVENT\nSUMMARY:" + e.summary + "\nDTSTART:" + e.start + "\nDTEND:" + e.end + "\nEND:VEVENT"
  }

  /** BuildPayload. `json` is what the JSON decoder makes of `data`. */
  function BuildPayload(qrType: string, data: string, json: JsonReading): (r: Result<string, QrError>)
    ensures r.Success? <==>
              qrType in SupportedTypes
              && (qrType == "url" ==> HasWebScheme(data))
              && (qrType == "wifi" ==> json.wifi.Some?)
              && (qrType == "vcard" ==> json.vcard.Some?)
              && (qrType == "event" ==> json.event.Some?)
    ensures qrType !in SupportedTypes ==> r == Failure(UnsupportedType(qrType))
    ensures qrType == "url" && !HasWebScheme(data) ==> r == Failure(UrlSchemeRequired)
    ensures qrType == "wifi" && json.wifi.None? ==> r == Failure(InvalidWifiData)
    ensures qrType == "vcard" && json.vcard.None? ==> r == Failure(InvalidVCardData)
    ensures qrType == "event" && json.event.None? ==> r == Failure(InvalidEventData)
    ensures r.Success? && qrType in DataTypes ==>
              HasPrefix(r.value, Scheme(qrType)) && r.value[|Scheme(qrType)|..] == data
    ensures r.Success? && qrType == "wifi" ==> r.value == WifiPayload(json.wifi.value)
    ensures r.Success? && qrType == "vcard" ==> r.value == VCardPayload(json.vcard.value)
    ensures r.Success? && qrType == "event" ==> r.value == EventPayload(json.event.value)
  {
    match qrType
    case "text" => Success(data)
    case "url" => if !HasWebScheme(data) then Failure(UrlSchemeRequired) else Success(data)
    case "email" => Success("mailto:" + data)
    case "tel" => Success("tel:" + data)
    case "sms" => Success("sms:" + data)
    case "wifi" => if json.wifi.None? then Failure(InvalidWifiData) else Success(WifiPayload(json.wifi.value))
    case "vcard" => if json.vcard.None? then Failure(InvalidVCardData) else Success(VCardPayload(json.vcard.value))
    case "geo" => Success("geo:" + data)
    case "event" => if json.event.None? then Failure(InvalidEventData) else Success(EventPayload(json.event.value))
    case "json" => Success(data)
    case _ => Failure(UnsupportedType(qrType))
  }

  // ---------------------------------------------------------------------------
  // ParseErrorCorrection

  /** The one-rune strings that upper-case to the capital letter `c`: `c`
      and its lower-case form (I and S also have a non-ASCII source, so they
      are excluded). */
  lemma UpperSingle(level: string, c: char)
    requires IsUpper(c) && c != 'I' && c != 'S'
    ensures ToUpper(level) == [c] <==> level == [c] || level == [(c as int + 32) as char]
  {
    if ToUpper(level) == [c] {
      assert UpperRune(level[0]) == c;
    }
  }

  /** ParseErrorCorrection: L, M, Q and H in either case name the four
      levels; anything else is Medium. */
  function ParseErrorCorrection(level: string): (l: RecoveryLevel)
    ensures l == Low <==> level == "L" || level == "l"
    ensures l == High <==> level == "Q" || level == "q"
    ensures l == Highest <==> level == "H" || level == "h"
    ensures l == Medium <==> level !in {"L", "l", "Q", "q", "H", "h"}
  {
    UpperSingle(level, 'L');
    UpperSingle(level, 'Q');
    UpperSingle(level, 'H');
    var u := ToUpper(level);
    if u == "L" then Low
    else if u == "M" then Medium
    else if u == "Q" then High
    else if u == "H" then Highest
    else Medium
  }

  // ---------------------------------------------------------------------------
  // GenerateQR

  /** GenerateQR: defaults first, then validation, then the payload, and only
      then the encoder, which receives the defaulted size and the parsed
      recovery level. `json` is what the JSON decoder makes of the data and
      `encode` is qrcode.Encode. */
  method GenerateQr(req: QrRequest, json: JsonReading, encode: QrEncoder)
    returns (r: Result<seq<byte>, QrError>)
    ensures ValidateRequest(Defaulted(req)).Fail? ==> r == Failure(ValidateRequest(Defaulted(req)).error)
    ensures ValidateRequest(Defaulted(req)).Pass? && BuildPayload(req.qrType, req.data, json).Failure? ==>
              r == Failure(BuildPayload(req.qrType, req.data, json).error)
    ensures r.Success? <==>
              ValidateRequest(Defaulted(req)).Pass?
              && BuildPayload(req.qrType, req.data, json).Success?
              && encode(BuildPayload(req.qrType, req.data, json).value,
                        ParseErrorCorrection(Defaulted(req).options.errorCorrection),
                        Defaulted(req).options.size).Some?
    ensures r.Success? ==>
              r.value == encode(BuildPayload(req.qrType, req.data, json).value,
                                ParseErrorCorrection(Defaulted(req).options.errorCorrection),
                                Defaulted(req).options.size).value
    ensures (r.Failure? && ValidateRequest(Defaulted(req)).Pass?
             && BuildPayload(req.qrType, req.data, json).Success?) ==> r.error == EncodeFailed
  {
    var d := ApplyDefaults(req);
    var valid := ValidateRequest(d);
    if valid.Fail? {
      return Failure(valid.error);
    }
    var payload := BuildPayload(d.qrType, d.data, json);
    if payload.Failure? {
      return Failure(payload.error);
    }
    var level := ParseErrorCorrection(d.options.errorCorrection);
    var png := encode(payload.value, level, d.options.size);
    if png.None? {
      return Failure(EncodeFailed);
    }
    r := Success(png.value);
  }
}
