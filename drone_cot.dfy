/** djidrone_cot.py: native-order decoding of a package-type 0x01 payload
    (`parse_data`) and assembly of the Cursor-on-Target XML event
    (`create_cot_xml_payload_point`). Its `parse_frame` is
    `AntSdr.ParseFrameNative`. */
module DroneCot {
  import opened Python
  import opened AntSdr

  // ---------------------------------------------------------------------------
  // parse_data

  /** `parse_data`: strict UTF-8 texts, native doubles, RSSI from
      `data[225:227]`. Only UnicodeDecodeError is caught, and its handler
      cannot return normally; a short payload raises out of the function. */
  function ParseData(host: Host, data: seq<Byte>): (r: Outcome<DroneInfo>)
    ensures r.Returns? <==> TextsDecode(host, data) && |data| >= RECORD_LEN
    ensures r.Returns? ==> r.value == FieldsAt(host, data)
    ensures !TextsDecode(host, data) ==> r == Raises(UnboundLocalError)
    ensures TextsDecode(host, data) && |data| <= DEVICE_TYPE_8 ==> r == Raises(IndexError)
    ensures TextsDecode(host, data) && DEVICE_TYPE_8 < |data| < RECORD_LEN ==> r == Raises(StructError)
  {
    DecodeStrict(host, data, 227)
  }

  /** Bytes after the 227th are never read. */
  lemma ParseDataIgnoresTrailingBytes(host: Host, d1: seq<Byte>, d2: seq<Byte>)
    requires |d1| >= RECORD_LEN && |d2| >= RECORD_LEN
    requires forall i :: 0 <= i < RECORD_LEN ==> d1[i] == d2[i]
    ensures ParseData(host, d1) == ParseData(host, d2)
  {
    SameWindow(d1, d2, SERIAL_NUMBER, DEVICE_TYPE);
    SameWindow(d1, d2, DEVICE_TYPE, TEXT_END);
    if TextsDecode(host, d1) {
      FieldsAtReadsRecordOnly(host, d1, d2);
    }
  }

  // ---------------------------------------------------------------------------
  // create_cot_xml_payload_point

  /** `stale` lies 75 seconds (in microseconds) after the second clock read. */
  const STALE_AFTER_US := 75 * 1_000_000

  const XML_DECLARATION := "<?xml version=\"1.0\"?>"
  const USERICON := "<usericon iconsetpath=\"-256\"/>"
  const DETAIL_CLOSE := "\n    </detail>\n</event>"
  const DEFAULT_CALLSIGN := "Drone"

  /** `s.replace(" ", "_")`. */
  function ReplaceSpaces(s: string): (r: string)
    ensures |r| == |s|
    ensures forall i :: 0 <= i < |s| ==> r[i] == (if s[i] == ' ' then '_' else s[i])
  {
    if s == [] then [] else (if s[0] == ' ' then "_" else [s[0]]) + ReplaceSpaces(s[1..])
  }

  /** The callsign rule: the drone type with every space turned into an
      underscore, or "Drone" when the type is empty. */
  function Callsign(droneType: string): (r: string)
    ensures droneType == "" ==> r == DEFAULT_CALLSIGN
    ensures droneType != "" ==> |r| == |droneType|
    ensures droneType != "" ==> forall i :: 0 <= i < |r| ==> r[i] != ' '
    ensures droneType != "" ==> forall i :: 0 <= i < |r| && droneType[i] != ' ' ==> r[i] == droneType[i]
    ensures droneType != "" ==> forall i :: 0 <= i < |r| && droneType[i] == ' ' ==> r[i] == '_'
  {
    if droneType != "" then ReplaceSpaces(droneType) else DEFAULT_CALLSIGN
  }

  /** The other values interpolated into the document, verbatim. */
  datatype PointArgs = PointArgs(
    endpointPoint: string,
    phonePoint: string,
    uidPoint: string,
    groupNamePoint: string,
    groupRolePoint: string,
    geopointsrcPoint: string,
    altsrcPoint: string,
    batteryPoint: string,
    devicePoint: string,
    platformPoint: string,
    osPoint: string,
    versionPoint: string,
    speedPoint: string,
    coursePoint: string,
    serialNumber: string)

  /** The strings of `pieces`, joined in order. */
  function Concat(pieces: seq<string>): string {
    if pieces == [] then "" else Concat(pieces[..|pieces| - 1]) + pieces[|pieces| - 1]
  }

  /** ` name="value"` for each attribute, in order. */
  function Attributes(attrs: seq<(string, string)>): string {
    if attrs == [] then ""
    else Attributes(attrs[..|attrs| - 1]) + " " + attrs[|attrs| - 1].0 + "=\"" + attrs[|attrs| - 1].1 + "\""
  }

  /** A start tag (or an empty-element tag when `close` ends in "/>"). */
  function Tag(name: string, attrs: seq<(string, string)>, close: string): string {
    "<" + name + Attributes(attrs) + close
  }

  /** The f-string template, line by line and as the pieces each line is made
      of; lines are separated by newlines, the elements inside `<detail>` are
      indented by eight spaces, the others by four. */
  function TemplatePieces(lat: string, lon: string, timeStamp: string, staleTime: string,
                          callsign: string, a: PointArgs): (r: seq<string>)
    ensures |r| > 1 && r[0] == XML_DECLARATION && r[|r| - 1] == USERICON
  {
    [XML_DECLARATION, "\n"] + EventPieces(lat, lon, timeStamp, staleTime, callsign, a) + [USERICON]
  }

  const INDENT := "    "
  const INNER_INDENT := "        "
  const SELF_CLOSE := " />"

  /** The template between the XML declaration and the usericon element. */
  function EventPieces(lat: string, lon: string, timeStamp: string, staleTime: string,
                       callsign: string, a: PointArgs): seq<string>
  {
    [ Tag("event", [("version", "2.0"), ("uid", a.uidPoint), ("type", "a-f-G-U-C"), ("time", timeStamp),
                    ("start", timeStamp), ("stale", staleTime), ("how", "m-g")], ">"), "\n",
      INDENT, Tag("point", [("lat", lat), ("lon", lon), ("hae", "999999"), ("ce", "35.0"), ("le", "999999")],
                  SELF_CLOSE), "\n",
      INDENT, Tag("detail", [], ">"), "\n",
      INNER_INDENT, Tag("contact", [("endpoint", a.endpointPoint), ("phone", a.phonePoint), ("callsign", callsign)],
                        SELF_CLOSE), "\n",
      INNER_INDENT, Tag("uid", [("Droid", a.serialNumber)], SELF_CLOSE), "\n",
      INNER_INDENT, Tag("__group", [("name", a.groupNamePoint), ("role", a.groupRolePoint)], SELF_CLOSE), "\n",
      INNER_INDENT, Tag("precisionlocation", [("geopointsrc", a.geopointsrcPoint), ("altsrc", a.altsrcPoint)],
                        SELF_CLOSE), "\n",
      INNER_INDENT, Tag("status", [("battery", a.batteryPoint)], SELF_CLOSE), "\n",
      INNER_INDENT, Tag("takv", [("device", a.devicePoint), ("platform", a.platformPoint), ("os", a.osPoint),
                                 ("version", a.versionPoint)], SELF_CLOSE), "\n",
      INNER_INDENT, Tag("track", [("speed", a.speedPoint), ("course", a.coursePoint)], SELF_CLOSE), "\n",
      INNER_INDENT, Tag("color", [("argb", "-256")], "/>"), "\n",
      INNER_INDENT ]
  }

  /** The filled-in template, up to and including the usericon element. */
  function Preamble(lat: string, lon: string, timeStamp: string, staleTime: string,
                    callsign: string, a: PointArgs): string
  {
    Concat(TemplatePieces(lat, lon, timeStamp, staleTime, callsign, a))
  }

  /** One extra detail element, key and value inserted without escaping. */
  function DetailLine(key: string, value: string): string {
    "\n        <" + key + ">" + value + "</" + key + ">"
  }

  /** The extra detail elements for `items`, in iteration order. */
  function DetailLines(items: seq<(string, string)>): string {
    if items == [] then ""
    else DetailLines(items[..|items| - 1]) + DetailLine(items[|items| - 1].0, items[|items| - 1].1)
  }

  /** The items of `additional_details`: none when it is None or empty. */
  function Entries(additionalDetails: Option<seq<(string, string)>>): seq<(string, string)> {
    if additionalDetails.Some? then additionalDetails.value else []
  }

  /** The document `create_cot_xml_payload_point` returns, given the two clock
      reads (UTC, microseconds). */
  function CotDocument(host: Host, clock1: int, clock2: int, latitude: real, longitude: real,
                       droneType: string, a: PointArgs,
                       additionalDetails: Option<seq<(string, string)>>): string
  {
    Preamble(host.floatStr(latitude), host.floatStr(longitude), host.isoTime(clock1),
             host.isoTime(clock2 + STALE_AFTER_US), Callsign(droneType), a)
    + DetailLines(Entries(additionalDetails)) + DETAIL_CLOSE
  }

  /** `create_cot_xml_payload_point`: fill the template, then append one
      element per additional detail, then close `<detail>` and `<event>`.
      The `callsign_point` argument is overwritten before it is used. */
  method CreateCotXmlPayloadPoint(host: Host, clock1: int, clock2: int, latitude: real, longitude: real,
                                  droneType: string, callsignPoint: string, a: PointArgs,
                                  additionalDetails: Option<seq<(string, string)>>)
    returns (cotXmlPayload: string)
    ensures cotXmlPayload == CotDocument(host, clock1, clock2, latitude, longitude, droneType, a, additionalDetails)
  {
    var timeStamp := host.isoTime(clock1);
    var staleTime := host.isoTime(clock2 + STALE_AFTER_US);

    var callsign := callsignPoint;
    if droneType != "" {
      callsign := ReplaceSpaces(droneType);
    } else {
      callsign := DEFAULT_CALLSIGN;
    }

    cotXmlPayload := Preamble(host.floatStr(latitude), host.floatStr(longitude), timeStamp, staleTime, callsign, a);

    if additionalDetails.Some? && additionalDetails.value != [] {
      cotXmlPayload := AppendDetails(cotXmlPayload, additionalDetails.value);
    }

    cotXmlPayload := cotXmlPayload + DETAIL_CLOSE;
  }

  /** The `for key, value in additional_details.items()` loop: one element per
      item, appended in iteration order. */
  method AppendDetails(payload: string, items: seq<(string, string)>) returns (r: string)
    ensures r == payload + DetailLines(items)
  {
    r := payload;
    var i := 0;
    while i < |items|
      invariant 0 <= i <= |items|
      invariant r == payload + DetailLines(items[..i])
    {
      var (key, value) := items[i];
      assert items[..i + 1][..i] == items[..i];
      r := r + DetailLine(key, value);
      i := i + 1;
    }
    assert items[..i] == items;
  }

  /** Appending items appends their elements, in order. */
  lemma {:induction false} DetailLinesAppend(xs: seq<(string, string)>, ys: seq<(string, string)>)
    ensures DetailLines(xs + ys) == DetailLines(xs) + DetailLines(ys)
    decreases |ys|
  {
    if ys == [] {
      assert xs + ys == xs;
    } else {
      var init := ys[..|ys| - 1];
      var line := DetailLine(ys[|ys| - 1].0, ys[|ys| - 1].1);
      assert (xs + ys)[..|xs + ys| - 1] == xs + init;
      assert (xs + ys)[|xs + ys| - 1] == ys[|ys| - 1];
      assert DetailLines(xs + ys) == DetailLines(xs + init) + line;
      DetailLinesAppend(xs, init);
      assert DetailLines(ys) == DetailLines(init) + line;
      assert (DetailLines(xs) + DetailLines(init)) + line == DetailLines(xs) + (DetailLines(init) + line);
    }
  }

  /** The document starts with the XML declaration and ends with the usericon
      element, the extra detail elements and the closing tags of `<detail>`
      and `<event>`, in that order; None and an empty dictionary add no
      element. */
  lemma CotDocumentShape(host: Host, clock1: int, clock2: int, latitude: real, longitude: real,
                         droneType: string, a: PointArgs, additionalDetails: Option<seq<(string, string)>>)
    ensures var doc := CotDocument(host, clock1, clock2, latitude, longitude, droneType, a, additionalDetails);
      var tail := USERICON + DetailLines(Entries(additionalDetails)) + DETAIL_CLOSE;
      && XML_DECLARATION <= doc
      && |doc| >= |tail| && doc[|doc| - |tail|..] == tail
      && (additionalDetails.None? || additionalDetails.value == [] ==>
            doc[|doc| - |USERICON + DETAIL_CLOSE|..] == USERICON + DETAIL_CLOSE)
  {
    var pieces := TemplatePieces(host.floatStr(latitude), host.floatStr(longitude), host.isoTime(clock1),
                                 host.isoTime(clock2 + STALE_AFTER_US), Callsign(droneType), a);
    JoinShape(pieces, DetailLines(Entries(additionalDetails)));
  }

  lemma JoinShape(pieces: seq<string>, mid: string)
    requires |pieces| > 1 && pieces[0] == XML_DECLARATION && pieces[|pieces| - 1] == USERICON
    ensures var doc := Concat(pieces) + mid + DETAIL_CLOSE;
      var tail := USERICON + mid + DETAIL_CLOSE;
      && XML_DECLARATION <= doc
      && |doc| >= |tail| && doc[|doc| - |tail|..] == tail
  {
    var head := Concat(pieces[..|pieces| - 1]);
    ConcatStartsWithFirst(pieces);
    assert Concat(pieces) == head + USERICON;
    var doc := Concat(pieces) + mid + DETAIL_CLOSE;
    assert doc == head + (USERICON + mid + DETAIL_CLOSE);
  }

  /** A join of pieces starts with its first piece. */
  lemma {:induction false} ConcatStartsWithFirst(pieces: seq<string>)
    requires pieces != []
    ensures pieces[0] <= Concat(pieces)
    decreases |pieces|
  {
    var init := pieces[..|pieces| - 1];
    if init != [] {
      ConcatStartsWithFirst(init);
    }
  }

  /** One more entry adds exactly its element before `</detail>`: entries
      appear in iteration order. */
  lemma DetailAppendedBeforeClose(host: Host, clock1: int, clock2: int, latitude: real, longitude: real,
                                  droneType: string, a: PointArgs, items: seq<(string, string)>,
                                  key: string, value: string)
    ensures var before := CotDocument(host, clock1, clock2, latitude, longitude, droneType, a, Some(items));
      var after := CotDocument(host, clock1, clock2, latitude, longitude, droneType, a, Some(items + [(key, value)]));
      && |before| >= |DETAIL_CLOSE|
      && after == before[..|before| - |DETAIL_CLOSE|] + DetailLine(key, value) + DETAIL_CLOSE
  {
    var pre := Preamble(host.floatStr(latitude), host.floatStr(longitude), host.isoTime(clock1),
                        host.isoTime(clock2 + STALE_AFTER_US), Callsign(droneType), a);
    AppendBeforeClose(pre, items, key, value);
  }

  lemma AppendBeforeClose(pre: string, items: seq<(string, string)>, key: string, value: string)
    ensures var before := pre + DetailLines(items) + DETAIL_CLOSE;
      && |before| >= |DETAIL_CLOSE|
      && pre + DetailLines(items + [(key, value)]) + DETAIL_CLOSE
         == before[..|before| - |DETAIL_CLOSE|] + DetailLine(key, value) + DETAIL_CLOSE
  {
    var lines := DetailLines(items);
    var line := DetailLine(key, value);
    assert DetailLines(items + [(key, value)]) == lines + line by {
      assert (items + [(key, value)])[..|items|] == items;
    }
    assert pre + (lines + line) == (pre + lines) + line;
    PrefixBeforeSuffix(pre + lines, line, DETAIL_CLOSE);
  }

  lemma PrefixBeforeSuffix(head: string, middle: string, tail: string)
    ensures (head + tail)[..|head + tail| - |tail|] + middle + tail == head + middle + tail
  {
    assert (head + tail)[..|head|] == head;
  }

  /** Keys and values are inserted verbatim, with no XML escaping: the value
      sits unchanged between `<key>` and `</key>`. */
  lemma DetailLineVerbatim(key: string, value: string)
    ensures var line := DetailLine(key, value);
      var open := |"\n        <"| + |key| + 1;
      && |line| == open + |value| + |key| + 3
      && line[open - |key| - 1..open - 1] == key
      && line[open..open + |value|] == value
  {
    var line := DetailLine(key, value);
    var open := |"\n        <"| + |key| + 1;
    assert line == "\n        <" + key + ">" + value + ("</" + key + ">");
  }
}
