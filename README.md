# Anytone 878UV protocol layer, modelled in Dafny

This project models the byte-level protocol layer of a WebSerial driver for
the Anytone 878UV radio:

- `utils.dfy` (module `Utils`): the 8-bit wrap-around checksum and the
  byte-array comparison. Each is a method with a loop, proved against a
  specification function (`Checksum`, `SameBytes`).
- `dataview.dfy` (module `DataView`): the part of JavaScript's `DataView`
  that the frames use. It covers `setUint8`, `setUint32` and `getUint32` on
  a buffer, with `RangeError` outside the buffer. It also holds the 32-bit
  little- and big-endian codec and its round trips.
- `protocol.dfy` (module `Protocol`): the frames. `ReadRequest` and
  `WriteRequest` allocate a zero-filled buffer and fill it in place.
  `ReadResponse` reads the address and the data slice of a received buffer.
- `radio.dfy` (module `Radio`): the programming-mode handshake.
  `Anytone878UVProtocol` is a class whose writer and reader are null until
  `Open`. `EnterProgramMode`, `ExitProgramMode` and `GetRadioID` run
  `checkIO`, write one command to the transport and read one chunk.
  `Anytone878UV` adds the USB identifiers and `readCodeplug` / `getRadioID`.
  The serial port is an abstract transport. It holds the queue of chunks its
  reader will return and the log of chunks its writer was given. The pure
  functions `AckExchange`, `RadioIDExchange` and `ReadCodeplugExchange`
  specify the class methods over that transport state.
- `common.dfy` (module `Common`): bytes, `Option`, `Result`, `Outcome` and
  the errors the driver throws.

Where the code departs from the protocol it evidently targets, the model
follows the code:
- `exitProgramMode` accepts only `"QX\x06"`, the enter acknowledgement, not
  a lone `0x06`.
- A read request asks for 16 bytes, not 255.
- `getRadioID` needs only an opened writer and reader. The code has no
  "in program mode" state.
- `readCodeplug` reads no memory and returns an empty array. When entering
  program mode fails, it throws before sending `"END"`.
- A write request carries its address big-endian, while `ReadResponse`
  decodes addresses little-endian (`WriteRequestAddressByteOrder`).

Three defects are modelled in both forms, as written and corrected (see
"Findings"). The rest of the model uses the corrected forms. `src/protocol.ts:40`
writes the parameter list as `address number`; the model reads it as
`address: number`.

## Model

| member | source | states |
|---|---|---|
| Utils.CalculateChecksum | src/utils.ts:16-23 | the result is the sum of all bytes modulo 256 and lies in 0..255; the loop keeps the running sum equal to the sum of the prefix processed so far |
| Utils.SumAppend | src/utils.ts:18-20 | one loop step: appending byte b adds b to the running sum |
| Utils.ChecksumAppend | src/utils.ts:18-20 | appending byte b turns checksum c into (c + b) mod 256 |
| Utils.ChecksumConcat | src/utils.ts:16-23 | the checksum of a concatenation is the 8-bit sum of the two checksums |
| Utils.ChecksumOfEmpty | src/utils.ts:17-22 | an empty array has checksum 0 |
| Utils.ChecksumOneToTen | src/utils.ts:16-23 | the bytes 1..10 have checksum 55 |
| Utils.CompareByteArrays | src/utils.ts:5-14 | throws "a or b is undefined" exactly when an argument is undefined; otherwise returns true iff the lengths and every byte agree, and false whenever the lengths differ |
| Utils.SameBytesIsEquality | src/utils.ts:9-13 | length-then-element-wise comparison holds iff the two arrays are equal sequences (both directions) |
| Utils.SameBytesReflexiveSymmetric | src/utils.ts:9-13 | the comparison is reflexive and symmetric |
| DataView.ToUint32 | src/protocol.ts:9 | the address stored by setUint32 is the number reduced into 0..2^32-1 |
| DataView.DecodeEncode | src/protocol.ts:9 | reading back four stored bytes in the same byte order gives the stored value, for both byte orders |
| DataView.EncodeDecode | src/protocol.ts:28 | storing a value read from four bytes in the same byte order gives those bytes back |
| DataView.Uint32BytesInjective | src/protocol.ts:9 | distinct 32-bit addresses are stored as distinct bytes |
| DataView.GetUint32 | src/protocol.ts:28 | getUint32 throws RangeError iff the four bytes do not fit in the buffer; otherwise its value is the one whose encoding is exactly those bytes |
| DataView.SetUint8 | src/protocol.ts:8 | setUint8 throws RangeError outside the buffer and leaves it intact; otherwise only the one byte changes |
| DataView.SetUint32 | src/protocol.ts:9 | setUint32 throws RangeError unless all four bytes fit; otherwise exactly those four bytes become the encoding and the rest is untouched |
| Protocol.NewReadRequestBytes | src/protocol.ts:7-10 | the fresh 6-byte buffer written through the DataView holds the read-request frame |
| Protocol.ReadRequestLayout | src/protocol.ts:6-11 | a read request is 6 bytes: 82 ('R'), bytes 1..4 decoding little-endian to the address, and 16 |
| Protocol.ReadRequestFrameInjective | src/protocol.ts:9 | two 32-bit addresses giving the same read request are the same address |
| Protocol.ReadRequest.constructor | src/protocol.ts:6-11 | corrected constructor: the buffer holds the read-request frame and is the buffer the view wrote |
| Protocol.ReadRequest.AsWritten | src/protocol.ts:6-11 | constructor as written: the view holds the frame, `buffer` stays undefined |
| Protocol.ReadRequest.ToUint8Array | src/protocol.ts:13-15 | returns the bytes of `buffer`, and an empty array when `buffer` is undefined |
| Protocol.SerializeReadRequest | src/protocol.ts:6-15 | with the corrected constructor, toUint8Array yields exactly the 6-byte frame |
| Protocol.SerializeReadRequestAsWritten | src/protocol.ts:13-15 | as written, toUint8Array yields no bytes, never the frame |
| Protocol.ReadResponse.constructor | src/protocol.ts:22-25 | the response shares the received buffer |
| Protocol.ReadResponse.GetAddress | src/protocol.ts:27-29 | throws RangeError iff the buffer is shorter than 5 bytes; otherwise returns the 32-bit value whose little-endian encoding is bytes 1..4 |
| Protocol.ReadResponse.GetData | src/protocol.ts:31-33 | throws RangeError iff the buffer is shorter than 21 bytes; otherwise returns exactly the 16 bytes at offsets 5..20 |
| Protocol.ReadResponseAddressRoundTrip | src/protocol.ts:27-29 | a response echoing the address bytes of a read request for a 32-bit address decodes to that address |
| Protocol.ReadResponseEcho | src/protocol.ts:22-29 | the same round trip through the ReadResponse class |
| Protocol.WriteRequestLayout | src/protocol.ts:40-47 | a write request is 24 bytes: 87 ('W'), bytes 1..4 decoding big-endian to the address, data[i] at offset 5+i, zeros after the data |
| Protocol.WriteRequestAddressByteOrder | src/protocol.ts:43 | the write request's address is big-endian: address 1 parses as 0x01000000 little-endian |
| Protocol.ViewSetUint8 | src/protocol.ts:42 | `view.setUint8` on an undefined view throws TypeError; on a view it stores the byte at the offset or throws RangeError outside the buffer, leaving the buffer unchanged |
| Protocol.ViewSetUint32 | src/protocol.ts:43 | `view.setUint32` on an undefined view throws TypeError; on a view it stores the four bytes at the offset or throws RangeError, leaving the buffer unchanged |
| Protocol.WriteRequest.constructor | src/protocol.ts:41 | corrected allocation: a fresh zero-filled 24-byte buffer with a view over it |
| Protocol.WriteRequest.AsWritten | src/protocol.ts:40-41 | allocation as written: a fresh zero-filled 24-byte buffer and no view |
| Protocol.WriteRequest.Fill | src/protocol.ts:42-46 | with no view the first write throws TypeError and the buffer is untouched; with a view, filling succeeds iff the data fits in 19 bytes, fails otherwise with RangeError, and on success the buffer holds the write-request frame |
| Protocol.NewWriteRequest | src/protocol.ts:40-47 | construction with a view throws RangeError iff the data is longer than 19 bytes; otherwise the new request holds the frame |
| Protocol.NewWriteRequestAsWritten | src/protocol.ts:40-47 | as written, the allocation leaves `view` undefined and every construction throws TypeError at the first `setUint8` |
| Radio.IsAck | src/radio.ts:89 | a response is accepted iff it is defined and its bytes are exactly "QX\x06" |
| Radio.AckExchange | src/radio.ts:85-101 | when checkIO throws, its error is returned and the transport is untouched; otherwise the command is appended to the write log, exactly one chunk is consumed, and the exchange succeeds iff that chunk is "QX\x06" |
| Radio.RadioIDExchange | src/radio.ts:103-116 | when checkIO throws, nothing happens; otherwise 0x02 is written, one chunk is consumed and returned verbatim, or "No response from radio" is thrown when the read has no value |
| Radio.SessionWhenClosed | src/radio.ts:118-125 | while the writer or reader is null, no sequence of exchanges writes or consumes anything |
| Radio.SessionWhenOpen | src/radio.ts:85-116 | once open, n exchanges append exactly their n commands to the log and consume exactly n chunks |
| Radio.ReadCodeplugExchange | src/radio.ts:40-47 | a successful readCodeplug returns an empty image |
| Radio.ReadCodeplugEnterThenExit | src/radio.ts:40-47 | with two acknowledgements queued, readCodeplug succeeds with an empty image after writing "PROGRAM" then "END" |
| Radio.ReadCodeplugOutcome | src/radio.ts:40-47 | readCodeplug succeeds iff the next two chunks are both "QX\x06"; a rejected enter throws "Failed to enter program mode" and "END" is never written |
| Radio.PortWriter.Write | src/radio.ts:87 | a write appends its chunk to the port's log and consumes nothing |
| Radio.PortReader.Read | src/radio.ts:88 | a read returns the next chunk and removes it, writing nothing |
| Radio.Anytone878UVProtocol.constructor | src/radio.ts:69-73 | a new protocol holds no writer and no reader |
| Radio.Anytone878UVProtocol.Open | src/radio.ts:75-79 | after open both writer and reader are set, on the protocol's port |
| Radio.Anytone878UVProtocol.Close | src/radio.ts:81-83 | closing changes neither the held writer and reader nor the transport's state |
| Radio.Anytone878UVProtocol.CheckIO | src/radio.ts:118-125 | passes iff writer and reader are both set; "Writer is null" is reported before "Reader is null" |
| Radio.Anytone878UVProtocol.EnterProgramMode | src/radio.ts:85-92 | result and new transport state are those of AckExchange with "PROGRAM" |
| Radio.Anytone878UVProtocol.ExitProgramMode | src/radio.ts:94-101 | result and new transport state are those of AckExchange with "END", against the enter acknowledgement |
| Radio.Anytone878UVProtocol.GetRadioID | src/radio.ts:103-116 | result and new transport state are those of RadioIDExchange |
| Radio.CheckIOBeforeAndAfterOpen | src/radio.ts:69-79 | checkIO throws "Writer is null" after construction and passes after open |
| Radio.ResponseIsAckAsWritten | src/radio.ts:89 | the identity comparison as written rejects every received response |
| Radio.AckCheckDiscrepancy | src/radio.ts:89 | on the exact bytes "QX\x06" the comparison as written rejects and the byte-wise one accepts |
| Radio.Anytone878UV.constructor | src/radio.ts:24-26 | a new radio owns a fresh, unopened protocol on the given port |
| Radio.Anytone878UV.GetProductID | src/radio.ts:28-30 | the USB product id is 0x018a |
| Radio.Anytone878UV.GetVendorID | src/radio.ts:32-34 | the USB vendor id is 0x28e9 |
| Radio.Anytone878UV.ReadCodeplug | src/radio.ts:40-47 | opens the protocol, then result and new transport state are those of ReadCodeplugExchange |
| Radio.Anytone878UV.GetRadioID | src/radio.ts:49-54 | opens the protocol, then result and new transport state are those of RadioIDExchange on an opened protocol |

## Left out

- `getBackend` (src/radio.ts:128-131) is a dynamic import of a foreign serial library.
- `writeCodeplug` (src/radio.ts:36-38) has no behaviour.
- Opening the serial port, its 921600 baud setting and stream locking are left out. `Open` only acquires a writer and a reader, and `Close` changes nothing. Reopening a port that is already open, which the platform rejects, is not modelled.
- Promise scheduling is left out, and with it one consequence of the source as written. `readCodeplug` and `getRadioID` (src/radio.ts:41 and :50) call `this.protocol.open()` without `await`. `open` always suspends at `await this.serialPort.open(...)` (src/radio.ts:76) before it sets the writer and reader (lines 77-78), while `checkIO` runs synchronously at src/radio.ts:86 and :104. So on a new `Anytone878UV`, `readCodeplug` and `getRadioID` as written always reject with "Writer is null" and write nothing (the closed-session behaviour that `SessionWhenClosed` states). `Anytone878UV.ReadCodeplug` and `Anytone878UV.GetRadioID` describe the behaviour with `open` awaited.
- A read on a transport with nothing more to deliver would wait forever. The model treats it as end of stream (`value` undefined).
- The second, older `Anytone878UVProtocol` class in src/protocol.ts:50-83 is not modelled. It duplicates the one in src/radio.ts.
- `log`, its `debugMode` flag and the `console.log` in `calculateChecksum` are logging only.
- src/read_codeplug.ts, index.ts, the hardware-dependent tests and the build configuration are not part of this model.
- No memory-read loop, response checksum check or acknowledgement check exists in this code, so none is modelled.
- Protocol.ReadResponse.constructor: the received array is taken to be its whole `ArrayBuffer`. A `Uint8Array` viewing a slice at a non-zero `byteOffset` would make `getAddress` and `getData` read from the start of the underlying buffer; that is not modelled.
- Protocol.ReadResponse.GetData: returns the 16 bytes as a value. The source returns a view that shares the buffer, so later writes to the buffer would show through it.
- Protocol.ReadRequest.ToUint8Array: returns the bytes as a value, not a view sharing the buffer.
- DataView.ToUint32: addresses are integers. Fractional, infinite or NaN numbers, which ToUint32 truncates or maps to 0, are not modelled.
- Utils.CalculateChecksum: the running sum is an unbounded integer. A JavaScript number is exact below 2^53, far beyond any buffer, and `& 0xFF` of a non-negative integer is its value modulo 256.

## Findings

| source | as written | input that shows it | evidently intended | confidence | as-written member | corrected member |
|---|---|---|---|---|---|---|
| src/radio.ts:89 | `response?.value !== ENTER_PROGRAM_MODE_ACK` compares object identity, and the reader always returns a new `Uint8Array`, so every handshake throws; line 98 does the same in `exitProgramMode` | the radio answers `enterProgramMode` with the bytes 0x51 0x58 0x06 | accept a response whose bytes equal "QX\x06", as `compareByteArrays` (src/utils.ts:5-14) would decide | high; not executed | Radio.AckCheckDiscrepancy | Radio.IsAck |
| src/protocol.ts:13-15 | `toUint8Array` wraps `this.buffer`, which the constructor never assigns; `new Uint8Array(undefined)` is empty | `new ReadRequest(0).toUint8Array()` | the 6 bytes the constructor wrote through its DataView | high; not executed | Protocol.SerializeReadRequestAsWritten | Protocol.SerializeReadRequest |
| src/protocol.ts:42 | `this.view` is never assigned, so `this.view.setUint8(0, 87)` throws `TypeError` | `new WriteRequest(0, new Uint8Array(0))` | a 24-byte frame written through a view over `this.buffer` | high; not executed | Protocol.NewWriteRequestAsWritten | Protocol.NewWriteRequest |
