/** dji_receiver.py: frame parsing with explicit little-endian formats,
    decoding of a package-type 0x01 payload followed by the fallback policy
    for implausible values, and the list of tagged messages published as
    JSON. */
module DjiReceiver {
  import opened Python
  import opened AntSdr

  /** Above this horizontal speed (m/s) the value is treated as invalid. */
  const MAX_HORIZONTAL_SPEED: real := 200.0
  /** Published in place of a blank or bogus serial number. */
  const FALLBACK_SERIAL_NUMBER: string := "9999999999"
  /** A stripped serial number shorter than this is replaced. */
  const MIN_SERIAL_CHARS := 5

  // ---------------------------------------------------------------------------
  // parse_frame

  /** What `parse_frame` returns: `(package_type, data)`, or `(None, None)`
      after a caught struct.error. */
  datatype FrameParse = Frame(packageType: Byte, data: seq<Byte>) | NoFrame

  /** `parse_frame`: the header is read with '<H' and only struct.error is
      caught, so a frame too short to index byte 2 still raises. */
  function ParseFrame(frame: seq<Byte>): (r: Outcome<FrameParse>)
    ensures |frame| < 3 <==> r == Raises(IndexError)
    ensures 3 <= |frame| < 5 <==> r == Returns(NoFrame)
    ensures |frame| >= 5 ==>
      var declared := DeclaredLength(LittleEndian, frame);
      && r.Returns? && r.value.Frame?
      && r.value.packageType == frame[2]
      && declared == frame[3] as int + 256 * frame[4] as int
      && |r.value.data| == Max(0, Min(declared, |frame|) - 5)
      && r.value.data == frame[5..Max(5, Min(declared, |frame|))]
  {
    if |frame| < 3 then Raises(IndexError)
    else
      var packageType := frame[2];
      match UnpackU16(LittleEndian, Slice(frame, 3, 5))
      case Raises(_) => Returns(NoFrame)
      case Returns(packageLength) => Returns(Frame(packageType, Slice(frame, 5, 5 + packageLength - 5)))
  }

  /** A frame that is shorter than its declared length is truncated, not
      rejected: its payload is everything after the header. */
  lemma ShortFrameTruncated(frame: seq<Byte>)
    requires |frame| >= 5 && DeclaredLength(LittleEndian, frame) >= |frame|
    ensures ParseFrame(frame) == Returns(Frame(frame[2], frame[5..]))
  {
    assert frame[5..Max(5, Min(DeclaredLength(LittleEndian, frame), |frame|))] == frame[5..];
  }

  /** A frame whose declared length is at most 5 carries an empty payload. */
  lemma TinyDeclaredLengthGivesEmptyPayload(frame: seq<Byte>)
    requires |frame| >= 5 && DeclaredLength(LittleEndian, frame) <= 5
    ensures ParseFrame(frame) == Returns(Frame(frame[2], []))
  {
  }

  // ---------------------------------------------------------------------------
  // parse_data_1

  /** The 13-key dictionary that `parse_data_1` returns on success. */
  datatype ParsedData = ParsedData(
    serialNumber: string,
    deviceType: string,
    appLat: real,
    appLon: real,
    droneLat: real,
    droneLon: real,
    heightAgl: real,
    geodeticAltitude: real,
    horizontalSpeed: real,
    verticalSpeed: real,
    rssi: int,
    homeLat: real,
    homeLon: real)

  /** Latitude in [-90, 90] and longitude in [-180, 180]. */
  predicate InRange(lat: real, lon: real) {
    -90.0 <= lat <= 90.0 && -180.0 <= lon <= 180.0
  }

  /** Rule 1: the serial number survives only if it strips to 5 characters or more. */
  function SerialOrFallback(serial: string): string {
    if |Strip(serial)| < MIN_SERIAL_CHARS then FALLBACK_SERIAL_NUMBER else serial
  }

  /** Rules 2-4: a coordinate pair out of range is replaced by (0, 0). */
  function PairOrZero(lat: real, lon: real): (real, real) {
    if !(-90.0 <= lat <= 90.0) || !(-180.0 <= lon <= 180.0) then (0.0, 0.0) else (lat, lon)
  }

  /** Rule 5: an implausible horizontal speed is reset to 0. */
  function SpeedOrZero(speed: real): real {
    if speed > MAX_HORIZONTAL_SPEED then 0.0 else speed
  }

  /** A text field: replace-decoded, trailing NULs removed. */
  function TextAt(host: Host, data: seq<Byte>, off: nat): string
    requires off + 64 <= |data|
  {
    RStripNul(host.utf8Replace(data[off..off + 64]))
  }

  /** The locals of the try block once every field has been decoded, before
      any fallback rule has run. */
  datatype RawFields = RawFields(
    serialNumber: string,
    deviceType: string,
    appLat: real,
    appLon: real,
    droneLat: real,
    droneLon: real,
    heightAgl: real,
    geodeticAltitude: real,
    homeLat: real,
    homeLon: real,
    speedE: real,
    speedN: real,
    speedU: real,
    rssi: int)

  /** The fields read from the layout table with '<d' and '<h'. */
  function RawAt(host: Host, data: seq<Byte>): RawFields
    requires |data| >= RECORD_LEN
  {
    RawFields(
      TextAt(host, data, SERIAL_NUMBER),
      TextAt(host, data, DEVICE_TYPE),
      F64At(host, LittleEndian, data, APP_LAT),
      F64At(host, LittleEndian, data, APP_LON),
      F64At(host, LittleEndian, data, DRONE_LAT),
      F64At(host, LittleEndian, data, DRONE_LON),
      F64At(host, LittleEndian, data, HEIGHT),
      F64At(host, LittleEndian, data, ALTITUDE),
      F64At(host, LittleEndian, data, HOME_LAT),
      F64At(host, LittleEndian, data, HOME_LON),
      F64At(host, LittleEndian, data, SPEED_E),
      F64At(host, LittleEndian, data, SPEED_N),
      F64At(host, LittleEndian, data, SPEED_U),
      I16At(LittleEndian, data, RSSI))
  }

  /** The horizontal speed `(speed_e**2 + speed_n**2)**0.5`. */
  function HorizontalSpeed(host: Host, speedE: real, speedN: real): real {
    host.pow(host.pow(speedE, 2.0) + host.pow(speedN, 2.0), 0.5)
  }

  /** The fallback rules applied to decoded fields. */
  function Fallback(host: Host, raw: RawFields): ParsedData {
    var app := PairOrZero(raw.appLat, raw.appLon);
    var drone := PairOrZero(raw.droneLat, raw.droneLon);
    var home := PairOrZero(raw.homeLat, raw.homeLon);
    ParsedData(
      serialNumber := SerialOrFallback(raw.serialNumber),
      deviceType := raw.deviceType,
      appLat := app.0, appLon := app.1,
      droneLat := drone.0, droneLon := drone.1,
      heightAgl := raw.heightAgl,
      geodeticAltitude := raw.geodeticAltitude,
      horizontalSpeed := SpeedOrZero(HorizontalSpeed(host, raw.speedE, raw.speedN)),
      verticalSpeed := raw.speedU,
      rssi := raw.rssi,
      homeLat := home.0, homeLon := home.1)
  }

  /** What `parse_data_1` returns, stated from the layout table and the
      fallback rules: None stands for the empty dictionary. */
  function Parsed(host: Host, data: seq<Byte>): Option<ParsedData> {
    if |data| < RECORD_LEN then None else Some(Fallback(host, RawAt(host, data)))
  }

  /** The decoding half of `parse_data_1`'s try block: each slice is
      unpacked in turn and the first struct.error is caught, giving the empty
      dictionary (None). Replace-decoding cannot raise UnicodeDecodeError. */
  function DecodeFields(host: Host, data: seq<Byte>): (r: Option<RawFields>)
    ensures r.None? <==> |data| < RECORD_LEN
    ensures r.Some? ==> r.value == RawAt(host, data)
  {
    var serialNumber := RStripNul(host.utf8Replace(Slice(data, 0, 64)));
    var deviceType := RStripNul(host.utf8Replace(Slice(data, 64, 128)));
    var appLat :- UnpackF64At(host, LittleEndian, data, 129).ToOption();
    var appLon :- UnpackF64At(host, LittleEndian, data, 137).ToOption();
    var droneLat :- UnpackF64At(host, LittleEndian, data, 145).ToOption();
    var droneLon :- UnpackF64At(host, LittleEndian, data, 153).ToOption();
    var heightAgl :- UnpackF64At(host, LittleEndian, data, 161).ToOption();
    var geodeticAltitude :- UnpackF64At(host, LittleEndian, data, 169).ToOption();
    var homeLat :- UnpackF64At(host, LittleEndian, data, 177).ToOption();
    var homeLon :- UnpackF64At(host, LittleEndian, data, 185).ToOption();
    var speedE :- UnpackF64At(host, LittleEndian, data, 201).ToOption();
    var speedN :- UnpackF64At(host, LittleEndian, data, 209).ToOption();
    var speedU :- UnpackF64At(host, LittleEndian, data, 217).ToOption();
    var rssi :- UnpackI16(LittleEndian, Slice(data, 225, 227)).ToOption();
    Some(RawFields(serialNumber, deviceType, appLat, appLon, droneLat, droneLon, heightAgl,
                   geodeticAltitude, homeLat, homeLon, speedE, speedN, speedU, rssi))
  }

  /** `parse_data_1`: decode, return `{}` (None) on struct.error, then let the
      fallback rules overwrite the locals one after another. */
  method ParseData1(host: Host, data: seq<Byte>) returns (r: Option<ParsedData>)
    ensures r.None? <==> |data| < RECORD_LEN
    ensures r == Parsed(host, data)
  {
    var decoded := DecodeFields(host, data);
    if decoded.None? {
      return None;
    }
    var raw := decoded.value;
    var serialNumber, deviceType := raw.serialNumber, raw.deviceType;
    var appLat, appLon := raw.appLat, raw.appLon;
    var droneLat, droneLon := raw.droneLat, raw.droneLon;
    var homeLat, homeLon := raw.homeLat, raw.homeLon;
    var horizontalSpeed := HorizontalSpeed(host, raw.speedE, raw.speedN);

    if |Strip(serialNumber)| < MIN_SERIAL_CHARS {
      serialNumber := FALLBACK_SERIAL_NUMBER;
    }
    assert serialNumber == SerialOrFallback(raw.serialNumber);
    if !(-90.0 <= droneLat <= 90.0) || !(-180.0 <= droneLon <= 180.0) {
      droneLat := 0.0;
      droneLon := 0.0;
    }
    assert (droneLat, droneLon) == PairOrZero(raw.droneLat, raw.droneLon);
    if !(-90.0 <= appLat <= 90.0) || !(-180.0 <= appLon <= 180.0) {
      appLat := 0.0;
      appLon := 0.0;
    }
    assert (appLat, appLon) == PairOrZero(raw.appLat, raw.appLon);
    if !(-90.0 <= homeLat <= 90.0) || !(-180.0 <= homeLon <= 180.0) {
      homeLat := 0.0;
      homeLon := 0.0;
    }
    assert (homeLat, homeLon) == PairOrZero(raw.homeLat, raw.homeLon);
    if horizontalSpeed > MAX_HORIZONTAL_SPEED {
      horizontalSpeed := 0.0;
    }
    assert horizontalSpeed == SpeedOrZero(HorizontalSpeed(host, raw.speedE, raw.speedN));

    r := Some(ParsedData(serialNumber, deviceType, appLat, appLon, droneLat, droneLon, raw.heightAgl,
                         raw.geodeticAltitude, horizontalSpeed, raw.speedU, raw.rssi, homeLat, homeLon));
    assert r == Some(Fallback(host, raw));
  }

  /** The serial number is replaced by the sentinel exactly when it strips to
      fewer than 5 characters (or already is the sentinel); otherwise it is
      kept verbatim, surrounding and inner whitespace included. */
  lemma SerialFallbackIff(serial: string)
    ensures SerialOrFallback(serial) == FALLBACK_SERIAL_NUMBER <==>
              |Strip(serial)| < MIN_SERIAL_CHARS || serial == FALLBACK_SERIAL_NUMBER
    ensures |Strip(serial)| >= MIN_SERIAL_CHARS ==> SerialOrFallback(serial) == serial
  {
  }

  /** A serial field holding only whitespace followed by NUL padding (ten
      spaces, say) is published as the sentinel. */
  lemma BlankSerialFallsBack(spaces: string, padding: nat)
    requires forall i :: 0 <= i < |spaces| ==> spaces[i] == ' '
    ensures SerialOrFallback(RStripNul(spaces + seq(padding, _ => '\0'))) == FALLBACK_SERIAL_NUMBER
  {
    RStripNulPadding(spaces, padding);
    StripProperties(spaces);
  }

  /** Whitespace inside the serial number counts toward the 5 characters. */
  lemma InnerSpacesCount()
    ensures SerialOrFallback("a   b") == "a   b"
  {
    StripProperties("a   b");
  }

  /** A pair is zeroed as a whole, and exactly when it is out of range; the
      result is always in range. */
  lemma PairFallbackIff(lat: real, lon: real)
    ensures PairOrZero(lat, lon) != (lat, lon) <==> !InRange(lat, lon)
    ensures PairOrZero(lat, lon) == (lat, lon) || PairOrZero(lat, lon) == (0.0, 0.0)
    ensures InRange(PairOrZero(lat, lon).0, PairOrZero(lat, lon).1)
  {
  }

  /** The speed is reset to exactly 0 above 200 m/s and kept otherwise, never
      clamped to the limit. */
  lemma SpeedFallbackIff(speed: real)
    ensures SpeedOrZero(speed) != speed <==> speed > MAX_HORIZONTAL_SPEED
    ensures speed > MAX_HORIZONTAL_SPEED ==> SpeedOrZero(speed) == 0.0
    ensures SpeedOrZero(speed) <= MAX_HORIZONTAL_SPEED
    ensures SpeedOrZero(speed) == MAX_HORIZONTAL_SPEED ==> speed == MAX_HORIZONTAL_SPEED
  {
  }

  /** The fallback rules touch only their own fields: each coordinate pair
      depends on its own two doubles alone, the vertical speed is the raw
      value, and the height, altitude, device type and RSSI pass through. */
  lemma FallbackFieldsIndependent(host: Host, raw: RawFields)
    ensures var p := Fallback(host, raw);
      && (p.droneLat, p.droneLon) == PairOrZero(raw.droneLat, raw.droneLon)
      && (p.appLat, p.appLon) == PairOrZero(raw.appLat, raw.appLon)
      && (p.homeLat, p.homeLon) == PairOrZero(raw.homeLat, raw.homeLon)
      && p.verticalSpeed == raw.speedU
      && p.heightAgl == raw.heightAgl
      && p.geodeticAltitude == raw.geodeticAltitude
      && p.deviceType == raw.deviceType
      && p.rssi == raw.rssi
  {
  }

  /** Byte 128, the frequency bytes 193..200 and anything after byte 226 are
      never read: payloads that differ only there decode identically. */
  lemma ParsedIgnoresUnreadBytes(host: Host, d1: seq<Byte>, d2: seq<Byte>)
    requires |d1| >= RECORD_LEN && |d2| >= RECORD_LEN
    requires forall i :: 0 <= i < DEVICE_TYPE_8 ==> d1[i] == d2[i]
    requires forall i :: APP_LAT <= i < FREQ ==> d1[i] == d2[i]
    requires forall i :: SPEED_E <= i < RECORD_LEN ==> d1[i] == d2[i]
    ensures Parsed(host, d1) == Parsed(host, d2)
  {
    var r1, r2 := RawAt(host, d1), RawAt(host, d2);
    assert r1.serialNumber == r2.serialNumber by { SameWindow(d1, d2, SERIAL_NUMBER, SERIAL_NUMBER + 64); }
    assert r1.deviceType == r2.deviceType by { SameWindow(d1, d2, DEVICE_TYPE, DEVICE_TYPE + 64); }
    assert r1.appLat == r2.appLat by { SameWindow(d1, d2, APP_LAT, APP_LAT + 8); }
    assert r1.appLon == r2.appLon by { SameWindow(d1, d2, APP_LON, APP_LON + 8); }
    assert r1.droneLat == r2.droneLat by { SameWindow(d1, d2, DRONE_LAT, DRONE_LAT + 8); }
    assert r1.droneLon == r2.droneLon by { SameWindow(d1, d2, DRONE_LON, DRONE_LON + 8); }
    assert r1.heightAgl == r2.heightAgl by { SameWindow(d1, d2, HEIGHT, HEIGHT + 8); }
    assert r1.geodeticAltitude == r2.geodeticAltitude by { SameWindow(d1, d2, ALTITUDE, ALTITUDE + 8); }
    assert r1.homeLat == r2.homeLat by { SameWindow(d1, d2, HOME_LAT, HOME_LAT + 8); }
    assert r1.homeLon == r2.homeLon by { SameWindow(d1, d2, HOME_LON, HOME_LON + 8); }
    assert r1.speedE == r2.speedE by { SameWindow(d1, d2, SPEED_E, SPEED_E + 8); }
    assert r1.speedN == r2.speedN by { SameWindow(d1, d2, SPEED_N, SPEED_N + 8); }
    assert r1.speedU == r2.speedU by { SameWindow(d1, d2, SPEED_U, SPEED_U + 8); }
    assert r1 == r2;
  }

  // ---------------------------------------------------------------------------
  // is_valid_latlon and format_as_zmq_json

  /** `is_valid_latlon`: in range and neither coordinate exactly zero. */
  function IsValidLatLon(lat: real, lon: real): (r: bool)
    ensures r ==> InRange(lat, lon)
    ensures lat == 0.0 || lon == 0.0 ==> !r
    ensures InRange(lat, lon) && lat != 0.0 && lon != 0.0 ==> r
  {
    -90.0 <= lat <= 90.0 && -180.0 <= lon <= 180.0 && lat != 0.0 && lon != 0.0
  }

  /** A pair that fallback zeroed is never valid, so a pilot or home position
      that was out of range never reaches the System Message; and fallback
      changes nothing about a pair's validity. */
  lemma FallbackPreservesValidity(lat: real, lon: real)
    ensures IsValidLatLon(PairOrZero(lat, lon).0, PairOrZero(lat, lon).1) <==> IsValidLatLon(lat, lon)
    ensures !InRange(lat, lon) ==> !IsValidLatLon(PairOrZero(lat, lon).0, PairOrZero(lat, lon).1)
  {
  }

  const ID_TYPE := "Serial Number (ANSI/CTA-2063-A)"

  /** One entry of the published list; each is a one-key JSON object whose key
      is the message name. */
  datatype Message =
    | BasicId(idType: string, id: string, description: string, rssi: int)   // "Basic ID"
    | LocationVector(latitude: real, longitude: real, geodeticAltitude: real,
                     heightAgl: real, speed: real, vertSpeed: real)         // "Location/Vector Message"
    | SelfId(text: string)                                                  // "Self-ID Message"
    | SystemMessage(fields: seq<(string, real)>)                            // "System Message"

  /** The keys of an ordered dictionary, in insertion order. */
  function Keys(fields: seq<(string, real)>): (ks: seq<string>)
    ensures |ks| == |fields|
    ensures forall i :: 0 <= i < |fields| ==> ks[i] == fields[i].0
  {
    if fields == [] then [] else [fields[0].0] + Keys(fields[1..])
  }

  /** The value stored under `key`, if any. */
  function Lookup(fields: seq<(string, real)>, key: string): Option<real> {
    if fields == [] then None
    else if fields[0].0 == key then Some(fields[0].1)
    else Lookup(fields[1..], key)
  }

  /** Looking a key up in a two-entry dictionary. */
  lemma LookupTwo(k1: string, v1: real, k2: string, v2: real, key: string)
    ensures Lookup([(k1, v1), (k2, v2)], key) ==
              if key == k1 then Some(v1) else if key == k2 then Some(v2) else None
  {
    var last: seq<(string, real)> := [(k2, v2)];
    assert last[1..] == [];
    assert Lookup(last, key) == if key == k2 then Some(v2) else None;
    var both: seq<(string, real)> := [(k1, v1), (k2, v2)];
    assert both[0] == (k1, v1) && both[1..] == last;
  }

  lemma KeysAppend(a: seq<(string, real)>, b: seq<(string, real)>)
    ensures Keys(a + b) == Keys(a) + Keys(b)
  {
  }

  /** Looking a key up in `a + b` finds it in `a` first. */
  lemma {:induction false} LookupAppend(a: seq<(string, real)>, b: seq<(string, real)>, key: string)
    ensures Lookup(a + b, key) == if Lookup(a, key).Some? then Lookup(a, key) else Lookup(b, key)
  {
    if a != [] {
      assert (a + b)[1..] == a[1..] + b;
      LookupAppend(a[1..], b, key);
    } else {
      assert a + b == b;
    }
  }

  /** The System Message dictionary built from the two validity flags: the
      pilot keys first, then the home keys. */
  lemma SystemFieldsLookup(fields: seq<(string, real)>, pilotValid: bool, homeValid: bool,
                           appLat: real, appLon: real, homeLat: real, homeLon: real)
    requires fields == (if pilotValid then [("latitude", appLat), ("longitude", appLon)] else []) +
                       (if homeValid then [("home_lat", homeLat), ("home_lon", homeLon)] else [])
    ensures Keys(fields) == (if pilotValid then ["latitude", "longitude"] else []) +
                            (if homeValid then ["home_lat", "home_lon"] else [])
    ensures Lookup(fields, "latitude") == (if pilotValid then Some(appLat) else None)
    ensures Lookup(fields, "longitude") == (if pilotValid then Some(appLon) else None)
    ensures Lookup(fields, "home_lat") == (if homeValid then Some(homeLat) else None)
    ensures Lookup(fields, "home_lon") == (if homeValid then Some(homeLon) else None)
  {
    var pilot: seq<(string, real)> := if pilotValid then [("latitude", appLat), ("longitude", appLon)] else [];
    var home: seq<(string, real)> := if homeValid then [("home_lat", homeLat), ("home_lon", homeLon)] else [];
    KeysAppend(pilot, home);
    LookupTwo("latitude", appLat, "longitude", appLon, "home_lat");
    LookupTwo("latitude", appLat, "longitude", appLon, "home_lon");
    LookupTwo("home_lat", homeLat, "home_lon", homeLon, "home_lat");
    LookupTwo("home_lat", homeLat, "home_lon", homeLon, "home_lon");
    LookupAppend(pilot, home, "latitude");
    LookupAppend(pilot, home, "longitude");
    LookupAppend(pilot, home, "home_lat");
    LookupAppend(pilot, home, "home_lon");
  }

  /** `format_as_zmq_json`: nothing for an empty dictionary; otherwise Basic
      ID, Location/Vector and Self-ID in that order, then a System Message
      only when the pilot or the home position is valid, holding the pilot
      keys iff the pilot is valid and the home keys iff home is valid. */
  method FormatAsZmqJson(parsed: Option<ParsedData>) returns (messageList: seq<Message>)
    ensures parsed.None? <==> messageList == []
    ensures parsed.Some? ==>
      var p := parsed.value;
      var pilotValid := IsValidLatLon(p.appLat, p.appLon);
      var homeValid := IsValidLatLon(p.homeLat, p.homeLon);
      && |messageList| == (if pilotValid || homeValid then 4 else 3)
      && messageList[0] == BasicId(ID_TYPE, p.serialNumber, p.deviceType, p.rssi)
      && messageList[1] == LocationVector(p.droneLat, p.droneLon, p.geodeticAltitude, p.heightAgl,
                                          p.horizontalSpeed, p.verticalSpeed)
      && messageList[2] == SelfId(p.deviceType)
      && (|messageList| == 4 ==>
            && messageList[3].SystemMessage?
            && Keys(messageList[3].fields) ==
                 (if pilotValid then ["latitude", "longitude"] else []) +
                 (if homeValid then ["home_lat", "home_lon"] else [])
            && Lookup(messageList[3].fields, "latitude") == (if pilotValid then Some(p.appLat) else None)
            && Lookup(messageList[3].fields, "longitude") == (if pilotValid then Some(p.appLon) else None)
            && Lookup(messageList[3].fields, "home_lat") == (if homeValid then Some(p.homeLat) else None)
            && Lookup(messageList[3].fields, "home_lon") == (if homeValid then Some(p.homeLon) else None))
  {
    if parsed.None? {
      return [];
    }
    var p := parsed.value;
    messageList := [];
    messageList := messageList + [BasicId(ID_TYPE, p.serialNumber, p.deviceType, p.rssi)];
    messageList := messageList + [LocationVector(p.droneLat, p.droneLon, p.geodeticAltitude, p.heightAgl,
                                                 p.horizontalSpeed, p.verticalSpeed)];
    messageList := messageList + [SelfId(p.deviceType)];

    var hasValidPilot := IsValidLatLon(p.appLat, p.appLon);
    var hasValidHome := IsValidLatLon(p.homeLat, p.homeLon);
    if hasValidPilot || hasValidHome {
      var systemMsg: seq<(string, real)> := [];
      if hasValidPilot {
        systemMsg := systemMsg + [("latitude", p.appLat)];
        systemMsg := systemMsg + [("longitude", p.appLon)];
      }
      if hasValidHome {
        systemMsg := systemMsg + [("home_lat", p.homeLat)];
        systemMsg := systemMsg + [("home_lon", p.homeLon)];
      }
      SystemFieldsLookup(systemMsg, hasValidPilot, hasValidHome, p.appLat, p.appLon, p.homeLat, p.homeLon);
      if systemMsg != [] {
        messageList := messageList + [SystemMessage(systemMsg)];
      }
    }
  }
}
