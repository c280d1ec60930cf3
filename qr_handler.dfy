/** The QR code handler of the stand-alone service (qr_handler.go): its own
    defaults, validation bounds and level names, and payload builders that
    check their fields — smsto: with a number|message split, geo: with
    trimmed coordinates, the WIFI: text, a vCard 3.0 block (RFC 2426) with
    CRLF line ends, and an iCalendar event. Times in an event are read and
    re-formatted by Go's `time` package, which is a parameter here. */
module QrHandler {
  import opened Wrappers
  import opened Text
  import opened QrLibrary

  const DefaultType := "text"
  const DefaultSize := 256
  const DefaultErrorCorrection := "medium"
  const MaxDataLength := 2000
  const MinSize := 128
  const MaxSize := 1024

  const SupportedTypes: set<string> :=
    {"text", "url", "email", "tel", "sms", "wifi", "vcard", "geo", "event", "json"}

  /** The names validateRequest accepts for the recovery level. */
  const ErrorCorrectionLevels: set<string> := {"low", "medium", "high", "highest"}

  const WifiSecurities: set<string> := {"WPA", "WEP", "nopass"}

  datatype QrOptions = QrOptions(size: int, errorCorrection: string)

  datatype QrRequest = QrRequest(qrType: string, data: string, options: QrOptions)

  /** The error messages of the handler, one constructor per message. */
  datatype QrError =
    | DataRequired
    | DataTooLong
    | UnsupportedType(qrType: string)
    | SizeOutOfRange
    | ErrorCorrectionUnknown
    | UrlSchemeRequired
    | JsonInvalid
    | SmsFormat
    | WifiJsonInvalid
    | WifiSsidRequired
    | WifiSecurityUnknown
    | VCardJsonInvalid
    | VCardNamesRequired
    | GeoFormat
    | EventJsonInvalid
    | EventFieldsRequired
    | EventStartInvalid
    | EventEndInvalid
    | BodyInvalid
    | EncodeFailed

  // ---------------------------------------------------------------------------
  // applyDefaults

  /** applyDefaults: the Go function updates the request through a pointer;
      here the updated request is returned. An empty type becomes "text",
      size 0 becomes 256 and an empty level becomes "medium"; the data is not
      touched. */
  method ApplyDefaults(req: QrRequest) returns (r: QrRequest)
    ensures r.qrType == if req.qrType == "" then DefaultType else req.qrType
    ensures r.options.size == if req.options.size == 0 then DefaultSize else req.options.size
    ensures r.options.errorCorrection ==
              if req.options.errorCorrection == "" then DefaultErrorCorrection else req.options.errorCorrection
    ensures r.data == req.data
    ensures r == Defaulted(req)
  {
    r := req;
    if r.qrType == "" {
      r := r.(qrType := DefaultType);
    }
    if r.options.size == 0 {
      r := r.(options := r.options.(size := DefaultSize));
    }
    if r.options.errorCorrection == "" {
      r := r.(options := r.options.(errorCorrection := DefaultErrorCorrection));
    }
  }

  /** The request as applyDefaults leaves it. */
  function Defaulted(req: QrRequest): QrRequest {
    QrRequest(
      if req.qrType == "" then DefaultType else req.qrType,
      req.data,
      QrOptions(
        if req.options.size == 0 then DefaultSize else req.options.size,
        if req.options.errorCorrection == "" then DefaultErrorCorrection else req.options.errorCorrection))
  }

  // ---------------------------------------------------------------------------
  // validateRequest

  /** validateRequest: data present and at most 2000 bytes, a supported type,
      a size in 128..1024 and a known level name, checked in that order. */
  function ValidateRequest(req: QrRequest): (r: Outcome<QrError>)
    ensures r == Fail(DataRequired) <==> req.data == ""
    ensures r == Fail(DataTooLong) <==> req.data != "" && Utf8Len(req.data) > MaxDataLength
    ensures r == Fail(UnsupportedType(req.qrType)) <==>
              req.data != "" && Utf8Len(req.data) <= MaxDataLength && req.qrType !in SupportedTypes
    ensures r == Fail(SizeOutOfRange) <==>
              req.data != "" && Utf8Len(req.data) <= MaxDataLength && req.qrType in SupportedTypes
              && !(MinSize <= req.options.size <= MaxSize)
    ensures r.Pass? <==>
              req.data != "" && Utf8Len(req.data) <= MaxDataLength && req.qrType in SupportedTypes
              && MinSize <= req.options.size <= MaxSize
              && req.options.errorCorrection in ErrorCorrectionLevels
    ensures r.Fail? && r.error == ErrorCorrectionUnknown <==>
              req.data != "" && Utf8Len(req.data) <= MaxDataLength && req.qrType in SupportedTypes
              && MinSize <= req.options.size <= MaxSize
              && req.options.errorCorrection !in ErrorCorrectionLevels
  {
    if req.data == "" then Fail(DataRequired)
    else if Utf8Len(req.data) > MaxDataLength then Fail(DataTooLong)
    else if req.qrType !in SupportedTypes then Fail(UnsupportedType(req.qrType))
    else if req.options.size < MinSize || req.options.size > MaxSize then Fail(SizeOutOfRange)
    else if req.options.errorCorrection !in ErrorCorrectionLevels then Fail(ErrorCorrectionUnknown)
    else Pass
  }

  /** The defaults always satisfy the size and level rules, so a request that
      names only its data and a supported type passes validation. */
  lemma DefaultsPassValidation(req: QrRequest)
    requires req.options.size == 0 && req.options.errorCorrection == ""
    requires req.data != "" && Utf8Len(req.data) <= MaxDataLength
    requires req.qrType == "" || req.qrType in SupportedTypes
    ensures ValidateRequest(Defaulted(req)).Pass?
  {
  }

  // ---------------------------------------------------------------------------
  // buildSMS and buildGeo

  /** buildSMS: "number|message" becomes "smsto:number:message"; the cut is
      at the first "|", so the message may hold further bars. */
  function BuildSms(data: string): (r: Result<string, QrError>)
    ensures r.Failure? <==> '|' !in data
    ensures r.Failure? ==> r.error == SmsFormat
    ensures r.Success? ==> HasPrefix(r.value, "smsto:")
  {
    var parts := SplitFirst(data, '|');
    if |parts| != 2 then Failure(SmsFormat)
    else
      var rest := parts[0] + ":" + parts[1];
      PrefixOfAppend("smsto:", rest);
      Success("smsto:" + rest)
  }

  /** Every "number|message" with a bar-free number: the number and the whole
      rest reach the payload unchanged. With the failure case above this
      fixes buildSMS on every input, since any text holding a bar is such a
      pair for the part before its first bar. */
  lemma BuildSmsOfPair(number: string, message: string)
    requires '|' !in number
    ensures BuildSms(number + "|" + message) == Success("smsto:" + (number + ":" + message))
  {
    assert number + "|" + message == number + ['|'] + message;
    SplitFirstAt(number, message, '|');
  }

  /** buildGeo: "lat,long" cut at the first comma; both parts trimmed of
      white space must be non-empty, and the payload joins the trimmed parts. */
  function BuildGeo(data: string): (r: Result<string, QrError>)
    ensures r.Success? <==>
              ',' in data
              && TrimSpace(SplitFirst(data, ',')[0]) != ""
              && TrimSpace(SplitFirst(data, ',')[1]) != ""
    ensures r.Failure? ==> r.error == GeoFormat
    ensures r.Success? ==> HasPrefix(r.value, "geo:")
  {
    var parts := SplitFirst(data, ',');
    if |parts| != 2 || TrimSpace(parts[0]) == "" || TrimSpace(parts[1]) == "" then Failure(GeoFormat)
    else
      var coordinates := TrimSpace(parts[0]) + "," + TrimSpace(parts[1]);
      PrefixOfAppend("geo:", coordinates);
      Success("geo:" + coordinates)
  }

  /** Any latitude without a comma and any longitude: both halves reach the
      payload with their surrounding white space removed, and the request is
      refused when one half trims to nothing. */
  lemma BuildGeoOfPair(lat: string, long: string)
    requires ',' !in lat
    ensures BuildGeo(lat + "," + long) ==
              if TrimSpace(lat) != "" && TrimSpace(long) != "" then
                Success("geo:" + TrimSpace(lat) + "," + TrimSpace(long))
              else Failure(GeoFormat)
  {
    var data := lat + "," + long;
    assert data == lat + [','] + long;
    SplitFirstAt(lat, long, ',');
    var a, b := TrimSpace(lat), TrimSpace(long);
    assert SplitFirst(data, ',') == [lat, long];
    if a != "" && b != "" {
      assert "geo:" + (a + "," + b) == "geo:" + a + "," + b;
    }
  }

  /** A pair is refused exactly when one of its halves is white space only. */
  lemma BuildGeoRefusesBlank(lat: string, long: string)
    requires ',' !in lat
    ensures BuildGeo(lat + "," + long).Failure? <==>
              (forall i :: 0 <= i < |lat| ==> IsSpace(lat[i]))
              || (forall i :: 0 <= i < |long| ==> IsSpace(long[i]))
  {
    BuildGeoOfPair(lat, long);
    TrimSpaceBlank(lat);
    TrimSpaceBlank(long);
  }

  /** Normalising twice changes nothing: feeding the coordinates of a geo
      payload back to buildGeo yields the same payload. */
  lemma BuildGeoIdempotent(data: string)
    requires BuildGeo(data).Success?
    ensures BuildGeo(BuildGeo(data).value[4..]) == BuildGeo(data)
  {
    var parts := SplitFirst(data, ',');
    assert data == parts[0] + "," + parts[1];
    BuildGeoOfPair(parts[0], parts[1]);
    var lat, long := TrimSpace(parts[0]), TrimSpace(parts[1]);
    var g := "geo:" + lat + "," + long;
    assert BuildGeo(data) == Success(g);
    assert g[4..] == lat + "," + long;
    TrimSpaceKeeps(parts[0], ',');
    TrimSpaceIdempotent(parts[0]);
    TrimSpaceIdempotent(parts[1]);
    BuildGeoOfPair(lat, long);
  }

  // ---------------------------------------------------------------------------
  // buildWifi

  /** buildWifi: decoded JSON with a network name and one of WPA, WEP and
      nopass as security; the password is not checked. */
  function BuildWifi(decoded: Option<WifiData>): (r: Result<string, QrError>)
    ensures r.Success? <==>
              decoded.Some? && decoded.value.ssid != "" && decoded.value.security in WifiSecurities
    ensures r.Success? ==> r.value == WifiPayload(decoded.value)
    ensures decoded.None? ==> r == Failure(WifiJsonInvalid)
    ensures decoded.Some? && decoded.value.ssid == "" ==> r == Failure(WifiSsidRequired)
    ensures decoded.Some? && decoded.value.ssid != "" && decoded.value.security !in WifiSecurities ==>
              r == Failure(WifiSecurityUnknown)
  {
    match decoded
    case None => Failure(WifiJsonInvalid)
    case Some(w) =>
      if w.ssid == "" then Failure(WifiSsidRequired)
      else if w.security !in WifiSecurities then Failure(WifiSecurityUnknown)
      else Success(WifiPayload(w))
  }

  // ---------------------------------------------------------------------------
  // Multi-line payloads: buildVCard and buildEvent

  const Crlf := "\r\n"

  /** The lines joined with CRLF, with none after the last. */
  function JoinCrlf(lines: seq<string>): string {
    if |lines| == 0 then ""
    else if |lines| == 1 then lines[0]
    else lines[0] + Crlf + JoinCrlf(lines[1..])
  }

  /** Appending one more line to the text a builder has written. */
  lemma {:induction false} JoinCrlfSnoc(lines: seq<string>, last: string)
    requires |lines| > 0
    ensures JoinCrlf(lines + [last]) == JoinCrlf(lines) + Crlf + last
  {
    if |lines| > 1 {
      assert (lines + [last])[1..] == lines[1..] + [last];
      JoinCrlfSnoc(lines[1..], last);
    }
  }

  /** Splitting the joined text at its first line feed peels off the first
      line with its carriage return. */
  lemma SplitJoinCrlfFirst(lines: seq<string>)
    requires |lines| > 1 && '\n' !in lines[0]
    ensures Split(JoinCrlf(lines), '\n') == [lines[0] + "\r"] + Split(JoinCrlf(lines[1..]), '\n')
  {
    var head := lines[0] + "\r";
    var rest := JoinCrlf(lines[1..]);
    assert JoinCrlf(lines) == head + ['\n'] + rest;
    assert '\n' !in head;
    SplitAt(head, rest, '\n');
  }

  /** Lines without a line feed can be read back: splitting the text at each
      line feed gives every line, the ones before the last still ending in
      the carriage return of their CRLF. */
  lemma {:induction false} JoinCrlfLines(lines: seq<string>)
    requires |lines| > 0
    requires forall k :: 0 <= k < |lines| ==> '\n' !in lines[k]
    ensures |Split(JoinCrlf(lines), '\n')| == |lines|
    ensures forall k :: 0 <= k < |lines| - 1 ==> Split(JoinCrlf(lines), '\n')[k] == lines[k] + "\r"
    ensures Split(JoinCrlf(lines), '\n')[|lines| - 1] == lines[|lines| - 1]
  {
    if |lines| == 1 {
      SplitNone(lines[0], '\n');
    } else {
      var later := lines[1..];
      SplitJoinCrlfFirst(lines);
      forall k | 0 <= k < |later| ensures '\n' !in later[k] {
        assert later[k] == lines[k + 1];
      }
      JoinCrlfLines(later);
      PrependLine(lines, Split(JoinCrlf(later), '\n'), Split(JoinCrlf(lines), '\n'));
    }
  }

  /** The read-back lines of all but the first line, preceded by the first
      line and its carriage return, are the read-back lines of all of them. */
  lemma PrependLine(lines: seq<string>, tail: seq<string>, parts: seq<string>)
    requires |lines| > 1 && |tail| == |lines| - 1
    requires forall k :: 0 <= k < |tail| - 1 ==> tail[k] == lines[k + 1] + "\r"
    requires tail[|tail| - 1] == lines[|lines| - 1]
    requires parts == [lines[0] + "\r"] + tail
    ensures |parts| == |lines|
    ensures forall k :: 0 <= k < |lines| - 1 ==> parts[k] == lines[k] + "\r"
    ensures parts[|lines| - 1] == lines[|lines| - 1]
  {
    forall k | 0 <= k < |lines| - 1 ensures parts[k] == lines[k] + "\r" {
      if k > 0 {
        assert parts[k] == tail[k - 1];
      }
    }
  }

  /** The lines of the vCard 3.0 block: header, version, structured and
      formatted name, then organisation, telephone and e-mail only when
      given, then the trailer. */
  function VCardLines(v: VCardData): (lines: seq<string>)
    ensures 5 <= |lines| <= 8
    ensures lines[0] == "BEGIN:VCARD" && lines[1] == "VERSION:3.0" && lines[|lines| - 1] == "END:VCARD"
    ensures lines[2] == "N:" + v.lastName + ";" + v.firstName + ";;;"
    ensures lines[3] == "FN:" + v.firstName + " " + v.lastName
    ensures |lines| == 5 + (if v.org != "" then 1 else 0) + (if v.phone != "" then 1 else 0)
                         + (if v.email != "" then 1 else 0)
  {
    VCardHead(v) + OptionalLine("ORG:", v.org) + OptionalLine("TEL:", v.phone) + OptionalLine("EMAIL:", v.email)
    + ["END:VCARD"]
  }

  /** The four lines every vCard starts with. */
  function VCardHead(v: VCardData): seq<string> {
    ["BEGIN:VCARD", "VERSION:3.0", "N:" + v.lastName + ";" + v.firstName + ";;;",
     "FN:" + v.firstName + " " + v.lastName]
  }

  /** A tagged line for a field that is given, nothing for an empty one. */
  function OptionalLine(tag: string, value: string): seq<string> {
    if value != "" then [tag + value] else []
  }

  /** A vCard whose fields hold no line feed reads back line by line: the
      text splits at its line feeds into exactly its lines, the last one,
      END:VCARD, without a line end after it. */
  lemma VCardReadsBack(v: VCardData)
    requires '\n' !in v.firstName && '\n' !in v.lastName && '\n' !in v.org
    requires '\n' !in v.phone && '\n' !in v.email
    ensures |Split(JoinCrlf(VCardLines(v)), '\n')| == |VCardLines(v)|
    ensures Split(JoinCrlf(VCardLines(v)), '\n')[0] == "BEGIN:VCARD\r"
    ensures Split(JoinCrlf(VCardLines(v)), '\n')[|VCardLines(v)| - 1] == "END:VCARD"
  {
    var lines := VCardLines(v);
    forall k | 0 <= k < |lines| ensures '\n' !in lines[k] {
      assert forall x :: x in "N:" + v.lastName + ";" + v.firstName + ";;;" ==> x != '\n';
      assert forall x :: x in "FN:" + v.firstName + " " + v.lastName ==> x != '\n';
      assert forall x :: x in "ORG:" + v.org ==> x != '\n';
      assert forall x :: x in "TEL:" + v.phone ==> x != '\n';
      assert forall x :: x in "EMAIL:" + v.email ==> x != '\n';
    }
    JoinCrlfLines(lines);
  }

  /** strings.Builder.WriteString of one line and its CRLF. */
  method Write(b: string, ghost lines: seq<string>, line: string) returns (b': string, ghost lines': seq<string>)
    requires |lines| > 0 && b == JoinCrlf(lines) + Crlf
    ensures b' == b + (line + Crlf)
    ensures lines' == lines + [line] && b' == JoinCrlf(lines') + Crlf
  {
    b' := b + (line + Crlf);
    lines' := lines + [line];
    JoinCrlfSnoc(lines, line);
  }

  /** What buildVCard answers for a decoded record, as a value. */
  function VCardPayload(decoded: Option<VCardData>): Result<string, QrError> {
    match decoded
    case None => Failure(VCardJsonInvalid)
    case Some(v) =>
      if v.firstName == "" || v.lastName == "" then Failure(VCardNamesRequired)
      else Success(JoinCrlf(VCardLines(v)))
  }

  /** buildVCard: decoded JSON with first and last name; the text is written
      line by line into a builder, each line but the last followed by CRLF. */
  method BuildVCard(decoded: Option<VCardData>) returns (r: Result<string, QrError>)
    ensures r == VCardPayload(decoded)
    ensures r.Success? <==> decoded.Some? && decoded.value.firstName != "" && decoded.value.lastName != ""
    ensures r.Success? ==> r.value == JoinCrlf(VCardLines(decoded.value))
    ensures decoded.None? ==> r == Failure(VCardJsonInvalid)
    ensures decoded.Some? && !r.Success? ==> r == Failure(VCardNamesRequired)
  {
    if decoded.None? {
      return Failure(VCardJsonInvalid);
    }
    var v := decoded.value;
    if v.firstName == "" || v.lastName == "" {
      return Failure(VCardNamesRequired);
    }
    // `lines` records what the builder holds: those lines, each with its CRLF.
    var b := "BEGIN:VCARD" + Crlf;
    ghost var lines: seq<string> := ["BEGIN:VCARD"];
    b, lines := Write(b, lines, "VERSION:3.0");
    b, lines := Write(b, lines, "N:" + v.lastName + ";" + v.firstName + ";;;");
    b, lines := Write(b, lines, "FN:" + v.firstName + " " + v.lastName);
    assert lines == VCardHead(v);
    if v.org != "" {
      b, lines := Write(b, lines, "ORG:" + v.org);
    }
    assert lines == VCardHead(v) + OptionalLine("ORG:", v.org);
    if v.phone != "" {
      b, lines := Write(b, lines, "TEL:" + v.phone);
    }
    assert lines == VCardHead(v) + OptionalLine("ORG:", v.org) + OptionalLine("TEL:", v.phone);
    if v.email != "" {
      b, lines := Write(b, lines, "EMAIL:" + v.email);
    }
    assert lines == VCardHead(v) + OptionalLine("ORG:", v.org) + OptionalLine("TEL:", v.phone)
                    + OptionalLine("EMAIL:", v.email);
    b := b + "END:VCARD";
    JoinCrlfSnoc(lines, "END:VCARD");
    r := Success(b);
  }

  /** The lines of the iCalendar event: calendar and event headers, the
      summary, the start and end times, and the two trailers. */
  function EventLines(summary: string, start: string, end: string): (lines: seq<string>)
    ensures |lines| == 8
    ensures lines[0] == "BEGIN:VCALENDAR" && lines[|lines| - 1] == "END:VCALENDAR"
  {
    ["BEGIN:VCALENDAR", "VERSION:2.0", "BEGIN:VEVENT", "SUMMARY:" + summary, "DTSTART:" + start,
     "DTEND:" + end, "END:VEVENT", "END:VCALENDAR"]
  }

  /** What buildEvent answers for a decoded record, as a value. */
  function EventPayload(decoded: Option<EventData>, vcalTime: string -> Option<string>): Result<string, QrError> {
    match decoded
    case None => Failure(EventJsonInvalid)
    case Some(e) =>
      if e.summary == "" || e.start == "" || e.end == "" then Failure(EventFieldsRequired)
      else if vcalTime(e.start).None? then Failure(EventStartInvalid)
      else if vcalTime(e.end).None? then Failure(EventEndInvalid)
      else Success(JoinCrlf(EventLines(e.summary, vcalTime(e.start).value, vcalTime(e.end).value)))
  }

  /** buildEvent: decoded JSON with summary, start and end, both times
      readable. `vcalTime` stands for time.Parse with RFC 3339 followed by
      formatting the instant in UTC as 20060102T150405Z; `None` is a parse
      error. */
  method BuildEvent(decoded: Option<EventData>, vcalTime: string -> Option<string>)
    returns (r: Result<string, QrError>)
    ensures r == EventPayload(decoded, vcalTime)
    ensures decoded.None? ==> r == Failure(EventJsonInvalid)
    ensures decoded.Some? && (decoded.value.summary == "" || decoded.value.start == "" || decoded.value.end == "") ==>
              r == Failure(EventFieldsRequired)
    ensures r.Success? <==>
              decoded.Some? && decoded.value.summary != "" && decoded.value.start != "" && decoded.value.end != ""
              && vcalTime(decoded.value.start).Some? && vcalTime(decoded.value.end).Some?
    ensures r.Success? ==>
              r.value == JoinCrlf(EventLines(decoded.value.summary, vcalTime(decoded.value.start).value,
                                             vcalTime(decoded.value.end).value))
    ensures r.Failure? && decoded.Some? && decoded.value.summary != "" && decoded.value.start != ""
              && decoded.value.end != "" ==>
              r.error == (if vcalTime(decoded.value.start).None? then EventStartInvalid else EventEndInvalid)
  {
    if decoded.None? {
      return Failure(EventJsonInvalid);
    }
    var e := decoded.value;
    if e.summary == "" || e.start == "" || e.end == "" {
      return Failure(EventFieldsRequired);
    }
    var startTime := vcalTime(e.start);
    if startTime.None? {
      return Failure(EventStartInvalid);
    }
    var endTime := vcalTime(e.end);
    if endTime.None? {
      return Failure(EventEndInvalid);
    }
    var b := "BEGIN:VCALENDAR" + Crlf;
    ghost var lines: seq<string> := ["BEGIN:VCALENDAR"];
    b, lines := Write(b, lines, "VERSION:2.0");
    b, lines := Write(b, lines, "BEGIN:VEVENT");
    b, lines := Write(b, lines, "SUMMARY:" + e.summary);
    b, lines := Write(b, lines, "DTSTART:" + startTime.value);
    b, lines := Write(b, lines, "DTEND:" + endTime.value);
    b, lines := Write(b, lines, "END:VEVENT");
    b := b + "END:VCALENDAR";
    JoinCrlfSnoc(lines, "END:VCALENDAR");
    assert lines + ["END:VCALENDAR"] == EventLines(e.summary, startTime.value, endTime.value);
    r := Success(b);
  }

  // ---------------------------------------------------------------------------
  // buildPayloadByType

  /** What buildPayloadByType answers, as a value. The method below builds
      the vCard and event texts with writes to a builder, so a contract cannot
      call it; this function is what HandleQr's contract refers to. */
  function Payload(qrType: string, data: string, json: JsonReading, vcalTime: string -> Option<string>)
    : Result<string, QrError>
  {
    match qrType
    case "text" => Success(data)
    case "url" => if HasWebScheme(data) then Success(data) else Failure(UrlSchemeRequired)
    case "email" => Success("mailto:" + data)
    case "tel" => Success("tel:" + data)
    case "sms" => BuildSms(data)
    case "wifi" => BuildWifi(json.wifi)
    case "vcard" => VCardPayload(json.vcard)
    case "geo" => BuildGeo(data)
    case "event" => EventPayload(json.event, vcalTime)
    case "json" => if json.valid then Success(data) else Failure(JsonInvalid)
    case _ => Failure(UnsupportedType(qrType))
  }

  /** buildPayloadByType: the payload for each supported type. `json` is what
      the JSON decoder makes of `data` and `vcalTime` the time conversion of
      buildEvent. */
  method BuildPayloadByType(qrType: string, data: string, json: JsonReading, vcalTime: string -> Option<string>)
    returns (r: Result<string, QrError>)
    ensures r == Payload(qrType, data, json, vcalTime)
    ensures qrType !in SupportedTypes ==> r == Failure(UnsupportedType(qrType))
    ensures qrType == "text" ==> r == Success(data)
    ensures qrType == "url" ==> r == (if HasWebScheme(data) then Success(data) else Failure(UrlSchemeRequired))
    ensures qrType == "email" ==> r == Success("mailto:" + data)
    ensures qrType == "tel" ==> r == Success("tel:" + data)
    ensures qrType == "sms" ==> r == BuildSms(data)
    ensures qrType == "wifi" ==> r == BuildWifi(json.wifi)
    ensures qrType == "vcard" ==>
              (r.Success? <==> json.vcard.Some? && json.vcard.value.firstName != "" && json.vcard.value.lastName != "")
              && (r.Success? ==> r.value == JoinCrlf(VCardLines(json.vcard.value)))
              && (json.vcard.None? ==> r == Failure(VCardJsonInvalid))
              && (json.vcard.Some? && r.Failure? ==> r == Failure(VCardNamesRequired))
    ensures qrType == "geo" ==> r == BuildGeo(data)
    ensures qrType == "event" ==>
              (r.Success? <==>
                 json.event.Some? && json.event.value.summary != "" && json.event.value.start != ""
                 && json.event.value.end != ""
                 && vcalTime(json.event.value.start).Some? && vcalTime(json.event.value.end).Some?)
    ensures qrType == "event" && r.Success? ==>
              r.value == JoinCrlf(EventLines(json.event.value.summary, vcalTime(json.event.value.start).value,
                                             vcalTime(json.event.value.end).value))
    ensures qrType == "event" && json.event.None? ==> r == Failure(EventJsonInvalid)
    ensures qrType == "event" && json.event.Some?
            && (json.event.value.summary == "" || json.event.value.start == "" || json.event.value.end == "") ==>
              r == Failure(EventFieldsRequired)
    ensures qrType == "event" && r.Failure? && json.event.Some? && json.event.value.summary != ""
            && json.event.value.start != "" && json.event.value.end != "" ==>
              r.error == (if vcalTime(json.event.value.start).None? then EventStartInvalid else EventEndInvalid)
    ensures qrType == "json" ==> r == (if json.valid then Success(data) else Failure(JsonInvalid))
  {
    match qrType
    case "text" => r := Success(data);
    case "url" =>
      if !HasWebScheme(data) {
        r := Failure(UrlSchemeRequired);
      } else {
        r := Success(data);
      }
    case "email" => r := Success("mailto:" + data);
    case "tel" => r := Success("tel:" + data);
    case "sms" => r := BuildSms(data);
    case "wifi" => r := BuildWifi(json.wifi);
    case "vcard" => r := BuildVCard(json.vcard);
    case "geo" => r := BuildGeo(data);
    case "event" => r := BuildEvent(json.event, vcalTime);
    case "json" =>
      if !json.valid {
        r := Failure(JsonInvalid);
      } else {
        r := Success(data);
      }
    case _ => r := Failure(UnsupportedType(qrType));
  }

  // ---------------------------------------------------------------------------
  // parseErrorCorrection

  /** parseErrorCorrection: the four level names, exactly as spelled (no case
      folding); anything else is Medium. */
  function ParseErrorCorrection(level: string): (l: RecoveryLevel)
    ensures l == Low <==> level == "low"
    ensures l == High <==> level == "high"
    ensures l == Highest <==> level == "highest"
    ensures l == Medium <==> level !in {"low", "high", "highest"}
    ensures level in ErrorCorrectionLevels ==> level == "medium" || l != Medium
  {
    match level
    case "low" => Low
    case "medium" => Medium
    case "high" => High
    case "highest" => Highest
    case _ => Medium
  }

  // ---------------------------------------------------------------------------
  // QRHandler

  const StatusBadRequest := 400
  const StatusInternalServerError := 500

  /** What the handler writes: a JSON error with its status, or the PNG with
      status 200 and content type image/png. */
  datatype Reply = ErrorReply(status: int, error: QrError) | PngReply(png: seq<byte>)

  /** QRHandler from the decoded body to the reply. `body` is what the JSON
      decoder makes of the request body, `json` what it makes of the data,
      `vcalTime` the time conversion of buildEvent and `encode` is
      qrcode.Encode. A body that does not decode, a request validation
      refuses and a payload its builder refuses all answer 400 with that
      error; an encoder failure answers 500; otherwise the encoder's PNG for
      the payload, the parsed level and the defaulted size. */
  method HandleQr(body: Option<QrRequest>, json: JsonReading, vcalTime: string -> Option<string>, encode: QrEncoder)
    returns (reply: Reply)
    ensures body.None? ==> reply == ErrorReply(StatusBadRequest, BodyInvalid)
    ensures body.Some? && ValidateRequest(Defaulted(body.value)).Fail? ==>
              reply == ErrorReply(StatusBadRequest, ValidateRequest(Defaulted(body.value)).error)
    ensures body.Some? && ValidateRequest(Defaulted(body.value)).Pass?
            && Payload(Defaulted(body.value).qrType, body.value.data, json, vcalTime).Failure? ==>
              reply == ErrorReply(StatusBadRequest,
                                  Payload(Defaulted(body.value).qrType, body.value.data, json, vcalTime).error)
    ensures reply.PngReply? <==>
              body.Some? && ValidateRequest(Defaulted(body.value)).Pass?
              && Payload(Defaulted(body.value).qrType, body.value.data, json, vcalTime).Success?
              && encode(Payload(Defaulted(body.value).qrType, body.value.data, json, vcalTime).value,
                        ParseErrorCorrection(Defaulted(body.value).options.errorCorrection),
                        Defaulted(body.value).options.size).Some?
    ensures reply.PngReply? ==>
              reply.png == encode(Payload(Defaulted(body.value).qrType, body.value.data, json, vcalTime).value,
                                  ParseErrorCorrection(Defaulted(body.value).options.errorCorrection),
                                  Defaulted(body.value).options.size).value
    ensures body.Some? && ValidateRequest(Defaulted(body.value)).Pass?
            && Payload(Defaulted(body.value).qrType, body.value.data, json, vcalTime).Success?
            && encode(Payload(Defaulted(body.value).qrType, body.value.data, json, vcalTime).value,
                      ParseErrorCorrection(Defaulted(body.value).options.errorCorrection),
                      Defaulted(body.value).options.size).None? ==>
              reply == ErrorReply(StatusInternalServerError, EncodeFailed)
    ensures reply.ErrorReply? ==>
              (reply.status == StatusInternalServerError <==> reply.error == EncodeFailed)
              && (reply.status == StatusBadRequest || reply.status == StatusInternalServerError)
  {
    if body.None? {
      return ErrorReply(StatusBadRequest, BodyInvalid);
    }
    var req := ApplyDefaults(body.value);
    var valid := ValidateRequest(req);
    if valid.Fail? {
      return ErrorReply(StatusBadRequest, valid.error);
    }
    var payload := BuildPayloadByType(req.qrType, req.data, json, vcalTime);
    if payload.Failure? {
      return ErrorReply(StatusBadRequest, payload.error);
    }
    var level := ParseErrorCorrection(req.options.errorCorrection);
    var png := encode(payload.value, level, req.options.size);
    if png.None? {
      return ErrorReply(StatusInternalServerError, EncodeFailed);
    }
    reply := PngReply(png.value);
  }
}
