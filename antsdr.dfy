/** The AntSDR wire format shared by the three receiver scripts: the 5-byte
    frame header, the fixed layout of a package-type 0x01 record, Python's
    `struct.unpack` for the formats they use, and the decoder that
    djidrone_cot.py and rece_info.py share (strict UTF-8, native byte order,
    a choice of slice for the final RSSI field). */
module AntSdr {
  import opened Python

  type Byte = b: int | 0 <= b < 256

  datatype ByteOrder = LittleEndian | BigEndian

  /** What the model leaves abstract about the machine running the script.
      Every property proved here holds for every `Host`. */
  datatype Host = Host(
    /** native byte order, used by the struct formats without a prefix ('H', 'h', 'd') */
    order: ByteOrder,
    /** value of the IEEE-754 double whose 8 bytes are given least significant first */
    binary64: seq<Byte> -> real,
    /** float exponentiation `x ** y` (rounded, so not modelled as real arithmetic) */
    pow: (real, real) -> real,
    /** `bytes.decode('utf-8', errors='replace')`, which never raises */
    utf8Replace: seq<Byte> -> string,
    /** `bytes.decode('utf-8')`; None when it raises UnicodeDecodeError */
    utf8Strict: seq<Byte> -> Option<string>,
    /** how an f-string renders a float */
    floatStr: real -> string,
    /** `strftime('%Y-%m-%dT%H:%M:%S.995Z')` of a UTC instant given in microseconds */
    isoTime: int -> string)

  // ---------------------------------------------------------------------------
  // Integers and struct.unpack

  /** The unsigned 16-bit value of two bytes, `b0` coming first on the wire. */
  function U16(order: ByteOrder, b0: Byte, b1: Byte): (r: int)
    ensures 0 <= r < 0x1_0000
    ensures order == LittleEndian ==> r % 256 == b0 && r / 256 == b1
    ensures order == BigEndian ==> r % 256 == b1 && r / 256 == b0
  {
    if order == LittleEndian then b0 + 256 * b1 else 256 * b0 + b1
  }

  /** The signed (two's-complement) 16-bit value of two bytes. */
  function I16(order: ByteOrder, b0: Byte, b1: Byte): (r: int)
    ensures -0x8000 <= r < 0x8000
    ensures (r + 0x1_0000) % 0x1_0000 == U16(order, b0, b1)
  {
    var u := U16(order, b0, b1);
    if u < 0x8000 then u else u - 0x1_0000
  }

  function Reverse<T>(s: seq<T>): (r: seq<T>)
    ensures |r| == |s|
    ensures forall i :: 0 <= i < |s| ==> r[i] == s[|s| - 1 - i]
  {
    if s == [] then [] else Reverse(s[1..]) + [s[0]]
  }

  /** The 8 bytes of a double put least significant first. */
  function LeastFirst(order: ByteOrder, b: seq<Byte>): seq<Byte> {
    if order == LittleEndian then b else Reverse(b)
  }

  /** `struct.unpack(fmt, b)[0]` for 'H' (or '<H'): struct.error unless exactly 2 bytes. */
  function UnpackU16(order: ByteOrder, b: seq<Byte>): Outcome<int> {
    if |b| != 2 then Raises(StructError) else Returns(U16(order, b[0], b[1]))
  }

  /** `struct.unpack(fmt, b)[0]` for 'h' (or '<h'). */
  function UnpackI16(order: ByteOrder, b: seq<Byte>): Outcome<int> {
    if |b| != 2 then Raises(StructError) else Returns(I16(order, b[0], b[1]))
  }

  /** `struct.unpack(fmt, b)[0]` for 'd' (or '<d'). */
  function UnpackF64(host: Host, order: ByteOrder, b: seq<Byte>): Outcome<real> {
    if |b| != 8 then Raises(StructError) else Returns(host.binary64(LeastFirst(order, b)))
  }

  // ---------------------------------------------------------------------------
  // Frame header

  /** Bytes 3..4 of a frame: the declared total length, header included. */
  function DeclaredLength(order: ByteOrder, frame: seq<Byte>): int
    requires |frame| >= 5
  {
    U16(order, frame[3], frame[4])
  }

  /** `parse_frame` in its native-order, uncaught form: the type is byte 2,
      the length is `struct.unpack('H', frame[3:5])[0]`, and the payload is
      `frame[5:5 + length - 5]`. */
  function ParseFrameNative(order: ByteOrder, frame: seq<Byte>): (r: Outcome<(Byte, seq<Byte>)>)
    ensures |frame| < 3 <==> r == Raises(IndexError)
    ensures 3 <= |frame| < 5 <==> r == Raises(StructError)
    ensures |frame| >= 5 ==>
      var end := Min(DeclaredLength(order, frame), |frame|);
      && r.Returns?
      && r.value.0 == frame[2]
      && r.value.1 == (if end <= 5 then [] else frame[5..end])
      && |r.value.1| == Max(0, end - 5)
  {
    if |frame| < 3 then Raises(IndexError)
    else
      var packageType := frame[2];
      var packageLength :- UnpackU16(order, Slice(frame, 3, 5));
      Returns((packageType, Slice(frame, 5, 5 + packageLength - 5)))
  }

  // ---------------------------------------------------------------------------
  // Record layout of package type 0x01 (offsets into the payload)

  const SERIAL_NUMBER := 0
  const DEVICE_TYPE := 64
  const TEXT_END := 128
  const DEVICE_TYPE_8 := 128
  const APP_LAT := 129
  const APP_LON := 137
  const DRONE_LAT := 145
  const DRONE_LON := 153
  const HEIGHT := 161
  const ALTITUDE := 169
  const HOME_LAT := 177
  const HOME_LON := 185
  const FREQ := 193
  const SPEED_E := 201
  const SPEED_N := 209
  const SPEED_U := 217
  const RSSI := 225
  /** Length of a complete record: the RSSI field ends here. */
  const RECORD_LEN := 227

  /** The double stored at `off`, read in the given byte order. */
  function F64At(host: Host, order: ByteOrder, data: seq<Byte>, off: nat): real
    requires off + 8 <= |data|
  {
    host.binary64(LeastFirst(order, data[off..off + 8]))
  }

  /** `struct.unpack(fmt, data[off:off + 8])[0]` for 'd' (or '<d'): it
      succeeds exactly when the payload holds all 8 bytes. */
  function UnpackF64At(host: Host, order: ByteOrder, data: seq<Byte>, off: nat): (r: Outcome<real>)
    ensures r.Returns? <==> off + 8 <= |data|
    ensures r.Returns? ==> r.value == F64At(host, order, data, off)
    ensures r.Raises? ==> r.error == StructError
  {
    UnpackF64(host, order, Slice(data, off, off + 8))
  }

  /** The signed 16-bit value stored at `off`. */
  function I16At(order: ByteOrder, data: seq<Byte>, off: nat): int
    requires off + 2 <= |data|
  {
    I16(order, data[off], data[off + 1])
  }

  /** The 16-key dictionary that djidrone_cot.py and rece_info.py return. */
  datatype DroneInfo = DroneInfo(
    serialNumber: string,
    deviceType: string,
    deviceType8: Byte,
    appLat: real,
    appLon: real,
    droneLat: real,
    droneLon: real,
    height: real,
    altitude: real,
    homeLat: real,
    homeLon: real,
    freq: real,
    speedE: real,
    speedN: real,
    speedU: real,
    rssi: int)

  /** Both 64-byte text fields are valid UTF-8. */
  predicate TextsDecode(host: Host, data: seq<Byte>) {
    host.utf8Strict(Slice(data, SERIAL_NUMBER, DEVICE_TYPE)).Some? &&
    host.utf8Strict(Slice(data, DEVICE_TYPE, TEXT_END)).Some?
  }

  /** The record read straight from the layout table: texts strictly decoded
      with trailing NULs removed, numbers in the host's native order. */
  function FieldsAt(host: Host, data: seq<Byte>): DroneInfo
    requires |data| >= RECORD_LEN && TextsDecode(host, data)
  {
    DroneInfo(
      RStripNul(host.utf8Strict(data[SERIAL_NUMBER..DEVICE_TYPE]).value),
      RStripNul(host.utf8Strict(data[DEVICE_TYPE..TEXT_END]).value),
      data[DEVICE_TYPE_8],
      F64At(host, host.order, data, APP_LAT),
      F64At(host, host.order, data, APP_LON),
      F64At(host, host.order, data, DRONE_LAT),
      F64At(host, host.order, data, DRONE_LON),
      F64At(host, host.order, data, HEIGHT),
      F64At(host, host.order, data, ALTITUDE),
      F64At(host, host.order, data, HOME_LAT),
      F64At(host, host.order, data, HOME_LON),
      F64At(host, host.order, data, FREQ),
      F64At(host, host.order, data, SPEED_E),
      F64At(host, host.order, data, SPEED_N),
      F64At(host, host.order, data, SPEED_U),
      I16At(host.order, data, RSSI))
  }

  /** The body of `parse_data` / `parse_data_1` in djidrone_cot.py and
      rece_info.py, with the RSSI read from `data[225:rssiStop]`. A failed
      text decode jumps to the UnicodeDecodeError handler, which binds only
      `device_type` and `device_type_8`, so the `return` that follows reads an
      unbound `serial_number` or `app_lat`. Any other exception escapes. */
  function DecodeStrict(host: Host, data: seq<Byte>, rssiStop: nat): (r: Outcome<DroneInfo>)
    requires rssiStop >= RECORD_LEN
    ensures !TextsDecode(host, data) ==> r == Raises(UnboundLocalError)
    ensures TextsDecode(host, data) && |data| <= DEVICE_TYPE_8 ==> r == Raises(IndexError)
    ensures TextsDecode(host, data) && |data| > DEVICE_TYPE_8 && Min(|data|, rssiStop) != RECORD_LEN ==>
              r == Raises(StructError)
    ensures TextsDecode(host, data) && |data| >= RECORD_LEN && Min(|data|, rssiStop) == RECORD_LEN ==>
              r == Returns(FieldsAt(host, data))
  {
    match host.utf8Strict(Slice(data, SERIAL_NUMBER, DEVICE_TYPE))
    case None => Raises(UnboundLocalError)
    case Some(serialText) =>
      match host.utf8Strict(Slice(data, DEVICE_TYPE, TEXT_END))
      case None => Raises(UnboundLocalError)
      case Some(deviceText) =>
        if |data| <= DEVICE_TYPE_8 then Raises(IndexError)
        else
          var serialNumber := RStripNul(serialText);
          var deviceType := RStripNul(deviceText);
          var deviceType8 := data[DEVICE_TYPE_8];
          var appLat :- UnpackF64At(host, host.order, data, 129);
          var appLon :- UnpackF64At(host, host.order, data, 137);
          var droneLat :- UnpackF64At(host, host.order, data, 145);
          var droneLon :- UnpackF64At(host, host.order, data, 153);
          var height :- UnpackF64At(host, host.order, data, 161);
          var altitude :- UnpackF64At(host, host.order, data, 169);
          var homeLat :- UnpackF64At(host, host.order, data, 177);
          var homeLon :- UnpackF64At(host, host.order, data, 185);
          var freq :- UnpackF64At(host, host.order, data, 193);
          var speedE :- UnpackF64At(host, host.order, data, 201);
          var speedN :- UnpackF64At(host, host.order, data, 209);
          var speedU :- UnpackF64At(host, host.order, data, 217);
          var rssi :- UnpackI16(host.order, Slice(data, 225, rssiStop));
          Returns(DroneInfo(serialNumber, deviceType, deviceType8, appLat, appLon, droneLat, droneLon,
                            height, altitude, homeLat, homeLon, freq, speedE, speedN, speedU, rssi))
  }

  /** Two payloads that agree on their first 227 bytes give the same record. */
  lemma FieldsAtReadsRecordOnly(host: Host, d1: seq<Byte>, d2: seq<Byte>)
    requires |d1| >= RECORD_LEN && |d2| >= RECORD_LEN
    requires forall i :: 0 <= i < RECORD_LEN ==> d1[i] == d2[i]
    requires TextsDecode(host, d1)
    ensures TextsDecode(host, d2) && FieldsAt(host, d1) == FieldsAt(host, d2)
  {
    SameWindow(d1, d2, SERIAL_NUMBER, DEVICE_TYPE);
    SameWindow(d1, d2, DEVICE_TYPE, TEXT_END);
    var f1, f2 := FieldsAt(host, d1), FieldsAt(host, d2);
    assert f1.serialNumber == f2.serialNumber && f1.deviceType == f2.deviceType;
    assert f1.deviceType8 == f2.deviceType8 && f1.rssi == f2.rssi;
    assert f1.appLat == f2.appLat by { SameWindow(d1, d2, APP_LAT, APP_LAT + 8); }
    assert f1.appLon == f2.appLon by { SameWindow(d1, d2, APP_LON, APP_LON + 8); }
    assert f1.droneLat == f2.droneLat by { SameWindow(d1, d2, DRONE_LAT, DRONE_LAT + 8); }
    assert f1.droneLon == f2.droneLon by { SameWindow(d1, d2, DRONE_LON, DRONE_LON + 8); }
    assert f1.height == f2.height by { SameWindow(d1, d2, HEIGHT, HEIGHT + 8); }
    assert f1.altitude == f2.altitude by { SameWindow(d1, d2, ALTITUDE, ALTITUDE + 8); }
    assert f1.homeLat == f2.homeLat by { SameWindow(d1, d2, HOME_LAT, HOME_LAT + 8); }
    assert f1.homeLon == f2.homeLon by { SameWindow(d1, d2, HOME_LON, HOME_LON + 8); }
    assert f1.freq == f2.freq by { SameWindow(d1, d2, FREQ, FREQ + 8); }
    assert f1.speedE == f2.speedE by { SameWindow(d1, d2, SPEED_E, SPEED_E + 8); }
    assert f1.speedN == f2.speedN by { SameWindow(d1, d2, SPEED_N, SPEED_N + 8); }
    assert f1.speedU == f2.speedU by { SameWindow(d1, d2, SPEED_U, SPEED_U + 8); }
  }

  /** A window inside the part where two payloads agree reads the same. */
  lemma SameWindow(d1: seq<Byte>, d2: seq<Byte>, lo: nat, hi: nat)
    requires lo <= hi <= |d1| && hi <= |d2|
    requires forall i :: lo <= i < hi ==> d1[i] == d2[i]
    ensures d1[lo..hi] == d2[lo..hi]
    ensures Slice(d1, lo, hi) == Slice(d2, lo, hi)
  {
    assert d1[lo..hi] == d2[lo..hi];
  }
}
