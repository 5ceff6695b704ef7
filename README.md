# DJI DroneID receiver: a Dafny model of the decode and formatting core

The repository talks to an AntSDR receiver that picks up DJI DroneID
broadcasts. Over TCP it receives frames, each with a 5-byte header: a 2-byte
marker, a package type and a 16-bit total length. A package of type 0x01
carries a 227-byte record: two 64-byte NUL-padded texts (serial number and
device type), a device-type byte, twelve doubles (pilot, drone and home
positions, height, altitude, frequency, east/north/up speed) and a 16-bit
RSSI. Three scripts decode that record:

- `dji_receiver.py` reads it with explicit little-endian formats. It then
  replaces implausible values: a blank serial number becomes `"9999999999"`,
  an out-of-range coordinate pair becomes (0, 0), and a horizontal speed
  above 200 m/s becomes 0. It republishes the result as a list of tagged
  messages (Basic ID, Location/Vector, Self-ID, and an optional System
  Message).
- `djidrone_cot.py` reads it in the host's native byte order and turns it
  into a Cursor-on-Target XML event.
- `rece_info.py` is an earlier variant of the same decoder.

The model is split into modules:

- `Python` (python.dfy): the pieces of Python semantics the decoders rely
  on.
  - An exception that escapes a function is an `Outcome` (`Returns` or
    `Raises(IndexError | StructError | UnboundLocalError)`).
  - Slices clamp their bounds.
  - It also models `rstrip('\x00')` and `strip()` (with the characters
    `str.isspace` accepts).
- `AntSdr` (antsdr.dfy): what the three scripts share.
  - Bytes and `struct.unpack` for `H`, `h` and `d`, which raise unless the
    buffer has exactly the right size.
  - The native-order frame parser, the record layout table, and the strict
    decoder, parameterised by where its RSSI slice stops.
- `DjiReceiver` (dji_receiver.dfy): `parse_frame`, `parse_data_1` with its
  fallback rules, `is_valid_latlon` and `format_as_zmq_json`.
- `DroneCot` (drone_cot.dfy): `parse_data` and `create_cot_xml_payload_point`.
- `ReceInfo` (rece_info.dfy): `parse_data_1`, plus lemmas comparing the
  three variants.

Some numeric and text primitives are not modelled as operations. They are
fields of a `Host` value that every decoder takes as a parameter, so each
property holds for every choice of them:

- the IEEE-754 meaning of 8 bytes;
- float `**`;
- UTF-8 decoding, with and without `errors='replace'`;
- how an f-string prints a float;
- `strftime` of an instant.

The host's native byte order is also a `Host` field. The wall clock is read
twice in `create_cot_xml_payload_point`; both readings are passed in as
parameters.

The model follows the code as written, including these points where a
reader might expect otherwise:

- `is_valid_latlon` rejects a pair when *either* coordinate is exactly zero,
  not only when both are.
- The drone position is zeroed when out of range, like the pilot and home
  positions.
- The code keeps no cache of the sensor's own position, tags no position
  source and publishes no frequency message, so the model has none of these.
- The byte order and the RSSI slice width differ between variants, and each
  variant is modelled as written (see Findings).

`DjiReceiver.ParseData1`, `DroneCot.CreateCotXmlPayloadPoint` and its loop
`DroneCot.AppendDetails` are proved equal to specification functions (the
fallback policy applied to the decoded record, the XML document, the detail
elements), and lemmas state what those functions promise.
`DjiReceiver.FormatAsZmqJson` is instead specified directly: its contract
states the length of the message list, each entry, and the keys and values
of the System Message.

## Model

| member | source | states |
|---|---|---|
| Python.Slice | dji_receiver.py:71 | Python slicing with non-negative bounds: the length is the overlap of [start, stop) with the sequence, each element is the one at that offset, and a slice within bounds equals Dafny's slice |
| Python.RStripNul | dji_receiver.py:84-85 | `rstrip('\x00')` returns a prefix that does not end in NUL, and everything it removed is NUL |
| Python.RStripSpace | dji_receiver.py:119 | `rstrip()` returns a prefix that does not end in whitespace, and everything it removed is whitespace |
| Python.LStripSpace | dji_receiver.py:119 | `lstrip()` returns a suffix that does not start with whitespace, and everything it removed is whitespace |
| Python.StripProperties | dji_receiver.py:119 | `strip()` empties exactly the all-whitespace strings, never lengthens, and leaves a string unchanged when it neither starts nor ends with whitespace |
| Python.RStripNulPadding | dji_receiver.py:84 | a text that does not end in NUL comes back unchanged from `rstrip('\x00')` whatever NUL padding follows it |
| AntSdr.U16 | djidrone_cot.py:24 | a 16-bit unsigned value in [0, 65536) whose low and high bytes are the two input bytes, in the given order |
| AntSdr.I16 | djidrone_cot.py:45 | a signed 16-bit value in [-32768, 32768) that is congruent to the unsigned reading modulo 65536 (two's complement) |
| AntSdr.ParseFrameNative | djidrone_cot.py:20-26 | fewer than 3 bytes raises IndexError and 3 or 4 bytes raises StructError (both iff). Otherwise it returns byte 2 and the bytes from 5 up to the declared total length, truncated at the end of the frame and empty when the length is at most 5 |
| AntSdr.UnpackF64At | djidrone_cot.py:33-44 | unpacking a double at an offset succeeds iff 8 bytes are there and yields the double stored there; any failure is StructError |
| AntSdr.DecodeStrict | djidrone_cot.py:28-68 | a text that fails strict UTF-8 makes the function raise UnboundLocalError, because the handler leaves the returned locals unbound. A payload of at most 128 bytes raises IndexError; an RSSI slice that is not exactly 2 bytes raises StructError; everything else returns the record read from the layout table |
| AntSdr.FieldsAtReadsRecordOnly | djidrone_cot.py:30-45 | two payloads that agree on their first 227 bytes decode to the same record |
| DjiReceiver.ParseFrame | dji_receiver.py:66-75 | fewer than 3 bytes raises IndexError; 3 or 4 bytes gives `(None, None)` (the caught struct.error); otherwise it returns byte 2 and `frame[5:L]`, where L is bytes 3..4 read little-endian, clamped to the frame and empty when L is at most 5 |
| DjiReceiver.ShortFrameTruncated | dji_receiver.py:71 | a frame shorter than its declared length is not rejected; its payload is everything after the header |
| DjiReceiver.TinyDeclaredLengthGivesEmptyPayload | dji_receiver.py:71 | a declared length of at most 5 gives an empty payload |
| DjiReceiver.DecodeFields | dji_receiver.py:82-109 | decoding fails (the `{}` of the struct.error handler) iff the payload is shorter than 227 bytes; otherwise it yields the fields of the little-endian layout table, with replace-decoded, NUL-stripped texts |
| DjiReceiver.ParseData1 | dji_receiver.py:77-166 | the result is empty iff the payload is shorter than 227 bytes; otherwise it is the decoded record with the five fallback rules applied |
| DjiReceiver.SerialFallbackIff | dji_receiver.py:118-121 | the serial becomes `"9999999999"` exactly when it strips to fewer than 5 characters (or already is that string); otherwise it is kept verbatim |
| DjiReceiver.BlankSerialFallsBack | dji_receiver.py:84-121 | a serial field of spaces followed by NUL padding is published as `"9999999999"` |
| DjiReceiver.InnerSpacesCount | dji_receiver.py:119 | inner whitespace counts toward the 5 characters: `"a   b"` is kept |
| DjiReceiver.PairFallbackIff | dji_receiver.py:123-139 | a coordinate pair is changed iff it is out of range; it is then zeroed as a whole, and the result is always in range |
| DjiReceiver.SpeedFallbackIff | dji_receiver.py:141-144 | the horizontal speed changes iff it exceeds 200 m/s; it is then reset to exactly 0, never clamped; the result never exceeds 200 |
| DjiReceiver.FallbackFieldsIndependent | dji_receiver.py:112-161 | each coordinate pair's fallback depends only on its own two doubles. The vertical speed, height, altitude, device type and RSSI pass through unchanged |
| DjiReceiver.ParsedIgnoresUnreadBytes | dji_receiver.py:82-109 | byte 128, the frequency bytes 193..200, and every byte after 226 never influence the result |
| DjiReceiver.IsValidLatLon | dji_receiver.py:168-173 | valid implies in range; either coordinate exactly zero implies invalid; in range with both coordinates nonzero implies valid |
| DjiReceiver.FallbackPreservesValidity | dji_receiver.py:123-139 | zeroing never changes a pair's validity, and a pair that was out of range is never valid afterwards |
| DjiReceiver.Keys | dji_receiver.py:221-229 | the keys of an insertion-ordered dictionary, one per entry, in order |
| DjiReceiver.SystemFieldsLookup | dji_receiver.py:217-233 | the System Message dictionary holds the pilot keys first (iff the pilot is valid), then the home keys (iff home is valid), each with its own value |
| DjiReceiver.FormatAsZmqJson | dji_receiver.py:175-235 | empty input gives the empty list and only then. Otherwise the list is Basic ID, Location/Vector and Self-ID with the given values, plus a System Message iff the pilot or home position is valid, keyed as above |
| DroneCot.ParseData | djidrone_cot.py:28-68 | returns iff both texts decode and the payload has at least 227 bytes, and then returns the layout-table record. Otherwise it raises UnboundLocalError (text), IndexError (at most 128 bytes) or StructError (129 to 226 bytes) |
| DroneCot.ParseDataIgnoresTrailingBytes | djidrone_cot.py:28-45 | bytes after the 227th never change the outcome |
| DroneCot.ReplaceSpaces | djidrone_cot.py:80 | `replace(" ", "_")`: same length, every space turned into an underscore, every other character kept |
| DroneCot.Callsign | djidrone_cot.py:78-82 | an empty drone type gives `"Drone"`. Otherwise the callsign has the type's length, holds no space, and matches the type except that each space is an underscore |
| DroneCot.TemplatePieces | djidrone_cot.py:85-97 | the template starts with the XML declaration and ends with the usericon element |
| DroneCot.CreateCotXmlPayloadPoint | djidrone_cot.py:70-105 | the payload is the template filled with the arguments, the callsign and the two formatted clock readings (the second 75 s later), then one element per additional detail, then the closing tags |
| DroneCot.AppendDetails | djidrone_cot.py:99-102 | the loop appends exactly the detail elements of the items, in iteration order |
| DroneCot.DetailLinesAppend | djidrone_cot.py:101-102 | the elements of `xs + ys` are those of `xs` followed by those of `ys` |
| DroneCot.CotDocumentShape | djidrone_cot.py:85-105 | the document starts with the XML declaration. It ends with the usericon element, then the detail elements, then `</detail>` and `</event>`. None and an empty dictionary add no element |
| DroneCot.DetailAppendedBeforeClose | djidrone_cot.py:100-104 | one more item inserts exactly its element just before `</detail>`, after all earlier ones |
| DroneCot.DetailLineVerbatim | djidrone_cot.py:102 | keys and values are inserted without XML escaping: the value stands unchanged between `<key>` and `</key>` |
| ReceInfo.ParseData1 | rece_info.py:15-53 | returns iff both texts decode and the payload is exactly 227 bytes, and then returns the layout-table record. Otherwise it raises UnboundLocalError (text), IndexError (at most 128 bytes) or StructError (any other length) |
| ReceInfo.AgreesWithDroneCotOnExactRecord | rece_info.py:32 | on a 227-byte payload the two strict decoders give the same outcome |
| ReceInfo.TrailingByteRejected | rece_info.py:32 | with any byte past the record this variant raises StructError, while the djidrone_cot.py decoder returns the record |
| ReceInfo.TrailingByteExample | rece_info.py:32 | a concrete 228-byte payload that one decoder rejects and the other accepts |
| ReceInfo.NativeFrameMatchesReceiver | rece_info.py:5-13 | on a little-endian host the native frame parser and dji_receiver.py's agree on every frame of at least 5 bytes and on the IndexError for fewer than 3. For 3 or 4 bytes one raises StructError and the other returns no frame |
| ReceInfo.NativeOrderMisreadsLength | rece_info.py:10 | on a big-endian host a frame declaring 6 bytes yields a 2-byte payload where dji_receiver.py yields 1 byte |

## Left out

- Sockets and the receive loops: `tcp_client`, `main`, the reconnect and back-off logic, and chunking `recv(1024)` into frames. These are I/O.
- Publishing: the ZMQ XPUB socket, `json.dumps`, `send_zmq_message`, `send_cot_payload`, UDP unicast and multicast. These are I/O.
- Process setup and diagnostics: configuration loading, argument parsing, logging setup, the `logging.error`/`logging.debug` calls inside the modelled functions (dji_receiver.py:74, 120, 125, 131, 137, 143 and 164), and the `print` of the package length in `rece_info.py`. These are I/O.
- Floating point: doubles are real numbers read through an abstract `binary64`, and float `**` is an abstract `pow`. So NaN comparisons and the OverflowError that `speed_e**2` raises for huge speeds (which would escape `parse_data_1`, since only UnicodeDecodeError and struct.error are caught) are not modelled.
- UTF-8 decoding and the printed form of floats and times are abstract functions of the `Host` parameter, not implementations.
- The wall clock is two injected instants in microseconds. `iso_timestamp_now` is not modelled.
- DjiReceiver.FormatAsZmqJson: takes `Option<ParsedData>` rather than an arbitrary dictionary. This matches what `parse_data_1` returns, but it means the `.get` defaults ("unknown", "DJI Drone", None) and the KeyError a partial dictionary would raise are not modelled. The JSON objects are a datatype; only the System Message keys are strings.
- DroneCot.CreateCotXmlPayloadPoint: every interpolated argument is already a string (the `str()` an f-string applies is left out), except latitude and longitude, which are printed with the abstract float formatter. `additional_details` is a sequence of key/value pairs in iteration order, so duplicate keys, which a dictionary cannot hold, are not excluded.

## Findings

| source | as written | input that shows it | evidently intended | confidence | as-written member | corrected member |
|---|---|---|---|---|---|---|
| rece_info.py:32 | the RSSI is unpacked from `data[225:233]`, a slice that is 2 bytes only when the payload ends at byte 227 | a 228-byte payload whose texts decode: the StructError escapes `parse_data_1`. The `except Exception` that catches it (rece_info.py:79) lies outside the receive loop (rece_info.py:66-77), so one such payload closes the connection and ends `tcp_client`, and with it the script | `data[225:227]`, as djidrone_cot.py:45 reads it ("fix indexing"), which accepts any payload of 227 bytes or more | medium, not executed | ReceInfo.TrailingByteExample | DroneCot.ParseData |
| djidrone_cot.py:24 | the length field and all numbers are unpacked in the host's native byte order ('H', 'd', 'h') | on a big-endian host, the frame `00 00 01 06 00 07 08` yields payload `07 08` instead of `07` | the little-endian formats of dji_receiver.py ('<H', '<d', '<h') | low (only big-endian hosts), not executed | ReceInfo.NativeOrderMisreadsLength | DjiReceiver.ParseFrame |
