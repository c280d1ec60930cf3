/** What both QR generators share: the error-recovery levels of the
    go-qrcode library, and the records that JSON-encoded payload data decodes
    into (internal/models/requests.go, lines 39-60, and qr_handler.go,
    lines 32-50, declare the same three records).

    Decoding JSON is library behaviour: the builders receive what
    `json.Unmarshal` made of the data as a `JsonReading`, and `None` stands
    for a decoding error. */
module QrLibrary {
  import opened Wrappers
  import opened Text

  /** qrcode.RecoveryLevel: roughly 7%, 15%, 25% and 30% of the code words
      may be lost. */
  datatype RecoveryLevel = Low | Medium | High | Highest

  datatype WifiData = WifiData(ssid: string, password: string, security: string)

  datatype VCardData = VCardData(firstName: string, lastName: string, org: string, phone: string, email: string)

  datatype EventData = EventData(summary: string, start: string, end: string)

  /** What the JSON decoder makes of one data string: whether it is valid
      JSON, and the record it yields for each payload type. */
  datatype JsonReading = JsonReading(
    valid: bool,
    wifi: Option<WifiData>,
    vcard: Option<VCardData>,
    event: Option<EventData>)

  /** qrcode.Encode(payload, level, size): a PNG or a failure. */
  type QrEncoder = (string, RecoveryLevel, int) -> Option<seq<byte>>

  /** The url rule of both generators: the data must start with http:// or
      https://. */
  predicate HasWebScheme(data: string) {
    HasPrefix(data, "http://") || HasPrefix(data, "https://")
  }

  /** The WIFI: payload both generators write: security type, network name
      and password, each after its tag and ended by ";", and a closing ";". */
  function WifiPayload(w: WifiData): string {
    "WIFI:T:" + w.security + ";S:" + w.ssid + ";P:" + w.password + ";;"
  }

  /** When no field holds a ";", splitting the payload at ";" gives back the
      three tagged fields, followed by the two empty pieces of the ending. */
  lemma WifiPayloadFields(w: WifiData)
    requires ';' !in w.security && ';' !in w.ssid && ';' !in w.password
    ensures Split(WifiPayload(w), ';') == ["WIFI:T:" + w.security, "S:" + w.ssid, "P:" + w.password, "", ""]
  {
    var t, sn, pw := "WIFI:T:" + w.security, "S:" + w.ssid, "P:" + w.password;
    NoSeparatorInTagged("WIFI:T:", w.security);
    NoSeparatorInTagged("S:", w.ssid);
    NoSeparatorInTagged("P:", w.password);
    assert WifiPayload(w) == t + [';'] + (sn + [';'] + (pw + [';'] + [';']));
    SplitThreeFields(t, sn, pw);
  }

  /** Three fields, each ended by ";", and one more ";". */
  lemma SplitThreeFields(t: string, sn: string, pw: string)
    requires ';' !in t && ';' !in sn && ';' !in pw
    ensures Split(t + [';'] + (sn + [';'] + (pw + [';'] + [';'])), ';') == [t, sn, pw, "", ""]
  {
    var end: string := [';'];
    var r2 := pw + [';'] + end;
    var r1 := sn + [';'] + r2;
    SplitNone("", ';');
    SplitAt("", "", ';');
    assert "" + [';'] + "" == end;
    SplitAt(pw, end, ';');
    assert Split(r2, ';') == [pw, "", ""];
    SplitBeforeThree(sn, r2, pw);
    SplitBeforeFour(t, r1, sn, pw);
  }

  lemma SplitBeforeThree(a: string, rest: string, x: string)
    requires ';' !in a && Split(rest, ';') == [x, "", ""]
    ensures Split(a + [';'] + rest, ';') == [a, x, "", ""]
  {
    SplitAt(a, rest, ';');
  }

  lemma SplitBeforeFour(a: string, rest: string, x: string, y: string)
    requires ';' !in a && Split(rest, ';') == [x, y, "", ""]
    ensures Split(a + [';'] + rest, ';') == [a, x, y, "", ""]
  {
    SplitAt(a, rest, ';');
  }

  lemma NoSeparatorInTagged(tag: string, field: string)
    requires ';' !in tag && ';' !in field
    ensures ';' !in tag + field
  {
  }
}
