/** rece_info.py: the earliest variant of the receiver's decoder. Its
    `parse_frame` is `AntSdr.ParseFrameNative` (the length is printed, which
    is not modelled); its `parse_data_1` reads the RSSI from `data[225:233]`. */
module ReceInfo {
  import opened Python
  import opened AntSdr
  import DroneCot
  import DjiReceiver

  /** `parse_data_1`: strict UTF-8 texts, native doubles, and an RSSI slice
      eight bytes wide, which `struct.unpack('h', …)` accepts only when it
      holds exactly two bytes, i.e. when the payload is exactly 227 bytes. */
  function ParseData1(host: Host, data: seq<Byte>): (r: Outcome<DroneInfo>)
    ensures r.Returns? <==> TextsDecode(host, data) && |data| == RECORD_LEN
    ensures r.Returns? ==> r.value == FieldsAt(host, data)
    ensures !TextsDecode(host, data) ==> r == Raises(UnboundLocalError)
    ensures TextsDecode(host, data) && |data| <= DEVICE_TYPE_8 ==> r == Raises(IndexError)
    ensures TextsDecode(host, data) && DEVICE_TYPE_8 < |data| && |data| != RECORD_LEN ==> r == Raises(StructError)
  {
    DecodeStrict(host, data, 233)
  }

  /** On a record of exactly 227 bytes this variant and `DroneCot.ParseData`
      agree, whatever the outcome. */
  lemma AgreesWithDroneCotOnExactRecord(host: Host, data: seq<Byte>)
    requires |data| == RECORD_LEN
    ensures ParseData1(host, data) == DroneCot.ParseData(host, data)
  {
  }

  /** As written, one trailing byte after the record is enough to make this
      variant raise, while `DroneCot.ParseData` (whose RSSI slice stops at
      byte 227) decodes the same payload. */
  lemma TrailingByteRejected(host: Host, data: seq<Byte>)
    requires TextsDecode(host, data) && |data| > RECORD_LEN
    ensures ParseData1(host, data) == Raises(StructError)
    ensures DroneCot.ParseData(host, data) == Returns(FieldsAt(host, data))
  {
  }

  /** A concrete payload that shows it: a 228-byte record of zero bytes whose
      texts decode (the decoder is described by `host`). */
  lemma TrailingByteExample(host: Host)
    requires host.utf8Strict(seq(64, _ => 0)) == Some(seq(64, _ => '\0'))
    ensures var data: seq<Byte> := seq(228, _ => 0);
      && ParseData1(host, data).Raises?
      && DroneCot.ParseData(host, data).Returns?
  {
    var data: seq<Byte> := seq(228, _ => 0);
    assert Slice(data, SERIAL_NUMBER, DEVICE_TYPE) == seq(64, _ => 0);
    assert Slice(data, DEVICE_TYPE, TEXT_END) == seq(64, _ => 0);
    TrailingByteRejected(host, data);
  }

  /** On a little-endian host the frame parsers of this variant (and of
      djidrone_cot.py, which is the same) and of dji_receiver.py produce the
      same package type and payload; they differ only on a frame of three or
      four bytes, which raises here and gives no frame there. */
  lemma NativeFrameMatchesReceiver(frame: seq<Byte>)
    ensures |frame| < 3 ==>
      ParseFrameNative(LittleEndian, frame) == Raises(IndexError)
      && DjiReceiver.ParseFrame(frame) == Raises(IndexError)
    ensures 3 <= |frame| < 5 ==>
      ParseFrameNative(LittleEndian, frame) == Raises(StructError)
      && DjiReceiver.ParseFrame(frame) == Returns(DjiReceiver.NoFrame)
    ensures |frame| >= 5 ==>
      var native := ParseFrameNative(LittleEndian, frame).value;
      DjiReceiver.ParseFrame(frame) == Returns(DjiReceiver.Frame(native.0, native.1))
  {
    if |frame| >= 5 {
      var end := Min(DeclaredLength(LittleEndian, frame), |frame|);
      if end <= 5 {
        assert frame[5..Max(5, end)] == [];
      }
    }
  }

  /** As written the header length is read in the host's byte order. On a
      big-endian host the 7-byte frame below, whose little-endian length field
      declares 6 bytes in total, yields two payload bytes instead of one. */
  lemma NativeOrderMisreadsLength()
    ensures var frame: seq<Byte> := [0, 0, 1, 6, 0, 7, 8];
      && ParseFrameNative(BigEndian, frame) == Returns((1, [7, 8]))
      && DjiReceiver.ParseFrame(frame) == Returns(DjiReceiver.Frame(1, [7]))
  {
    var frame: seq<Byte> := [0, 0, 1, 6, 0, 7, 8];
    assert DeclaredLength(BigEndian, frame) == 1536;
    assert DeclaredLength(LittleEndian, frame) == 6;
    assert frame[5..7] == [7, 8];
    assert frame[5..6] == [7];
  }
}
