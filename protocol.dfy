/** The frames of src/protocol.ts. `ReadRequest` and `WriteRequest` allocate
    a zero-filled buffer and fill it through a `DataView`; `ReadResponse`
    reads an address and a data slice out of a received buffer.

    Two lines of the source do not do what the surrounding code evidently
    means (see "Findings" in the README):
    - the `ReadRequest` constructor writes through a `DataView` over an
      anonymous buffer and never assigns `buffer`, which `toUint8Array`
      returns; `ReadRequest.AsWritten` keeps that, the unnamed constructor
      assigns `buffer` to the bytes the view wrote;
    - the `WriteRequest` constructor never assigns `view` (and spells its
      first parameter `address number`); `NewWriteRequestAsWritten` keeps
      that, `NewWriteRequest` builds the frame the code describes. */
module Protocol {
  import opened Common
  import opened DataView

  const READ_COMMAND: byte := 82        // 'R'
  const WRITE_COMMAND: byte := 87       // 'W'
  const READ_LENGTH: byte := 16         // a read always asks for 16 bytes
  const READ_REQUEST_SIZE: nat := 6
  const WRITE_REQUEST_SIZE: nat := 24
  const DATA_OFFSET: nat := 5
  const WRITE_DATA_CAPACITY: nat := WRITE_REQUEST_SIZE - DATA_OFFSET

  function Zeros(n: nat): (z: seq<byte>)
    ensures |z| == n && forall i :: 0 <= i < n ==> z[i] == 0
  {
    seq(n, _ => 0)
  }

  // ---------------------------------------------------------------- ReadRequest

  /** The bytes a read request for `address` consists of. */
  function ReadRequestFrame(address: int): seq<byte>
  {
    [READ_COMMAND] + Uint32Bytes(ToUint32(address), true) + [READ_LENGTH]
  }

  /** A read request is six bytes: 'R', the address little-endian, and 16. */
  lemma ReadRequestLayout(address: int)
    ensures |ReadRequestFrame(address)| == READ_REQUEST_SIZE
    ensures ReadRequestFrame(address)[0] == 82 && ReadRequestFrame(address)[5] == 16
    ensures Uint32Value(ReadRequestFrame(address)[1..5], true) == ToUint32(address)
  {
    var f := ReadRequestFrame(address);
    assert f[1..5] == Uint32Bytes(ToUint32(address), true);
    DecodeEncode(ToUint32(address), true);
  }

  /** Two addresses in 32-bit range give different read requests. */
  lemma ReadRequestFrameInjective(a: int, b: int)
    requires 0 <= a < TwoTo32 && 0 <= b < TwoTo32
    requires ReadRequestFrame(a) == ReadRequestFrame(b)
    ensures a == b
  {
    ReadRequestLayout(a);
    ReadRequestLayout(b);
  }

  /** Allocates the six-byte buffer and writes the request through the
      DataView, as the constructor does. */
  method NewReadRequestBytes(address: int) returns (bytes: array<byte>)
    ensures fresh(bytes)
    ensures bytes[..] == ReadRequestFrame(address)
  {
    bytes := new byte[READ_REQUEST_SIZE](_ => 0);
    var outcome := SetUint8(bytes, 0, READ_COMMAND);
    assert outcome.Pass?;
    outcome := SetUint32(bytes, 1, address, true);
    assert outcome.Pass?;
    outcome := SetUint8(bytes, 5, READ_LENGTH);
    assert outcome.Pass?;
    assert bytes[..] == ReadRequestFrame(address);
  }

  class ReadRequest {
    /** The `ArrayBuffer` that `toUint8Array` wraps. */
    var buffer: array?<byte>
    /** The bytes behind the constructor's `DataView`. */
    var view: array<byte>

    /** The constructor as evidently intended: `buffer` is the buffer the
        view writes into. */
    constructor (address: int)
      ensures fresh(view) && buffer == view
      ensures view[..] == ReadRequestFrame(address)
    {
      var bytes := NewReadRequestBytes(address);
      view := bytes;
      buffer := bytes;
    }

    /** The constructor as written: `buffer` is left undefined. */
    constructor AsWritten(address: int)
      ensures fresh(view) && buffer == null
      ensures view[..] == ReadRequestFrame(address)
    {
      var bytes := NewReadRequestBytes(address);
      view := bytes;
      buffer := null;
    }

    /** toUint8Array: the bytes of `buffer`; `new Uint8Array(undefined)` is
        an empty array. */
    method ToUint8Array() returns (r: seq<byte>)
      ensures buffer == null ==> r == []
      ensures buffer != null ==> r == buffer[..]
    {
      if buffer == null {
        r := [];
      } else {
        r := buffer[..];
      }
    }
  }

  /** A request built by the corrected constructor serialises to its frame. */
  method SerializeReadRequest(address: int) returns (r: seq<byte>)
    ensures r == ReadRequestFrame(address)
    ensures |r| == READ_REQUEST_SIZE
  {
    var request := new ReadRequest(address);
    r := request.ToUint8Array();
    ReadRequestLayout(address);
  }

  /** As written, serialising a read request yields no bytes at all. */
  method SerializeReadRequestAsWritten(address: int) returns (r: seq<byte>)
    ensures r == []
    ensures r != ReadRequestFrame(address)
  {
    var request := new ReadRequest.AsWritten(address);
    r := request.ToUint8Array();
    ReadRequestLayout(address);
  }

  // --------------------------------------------------------------- ReadResponse

  class ReadResponse {
    /** `data.buffer`: the received bytes, shared with the caller. */
    var buffer: array<byte>

    constructor (data: array<byte>)
      ensures buffer == data
    {
      buffer := data;
    }

    /** getAddress: the 32-bit little-endian value at offset 1. */
    function GetAddress(): (r: Result<nat, JsError>)
      reads this, buffer
      ensures r.Success? <==> buffer.Length >= 5
      ensures r.Failure? ==> r.error == RangeError
      ensures r.Success? ==> r.value < TwoTo32 && Uint32Bytes(r.value, true) == buffer[1..5]
    {
      GetUint32(buffer[..], 1, true)
    }

    /** getData: the 16 bytes at offsets 5 to 20. */
    function GetData(): (r: Result<seq<byte>, JsError>)
      reads this, buffer
      ensures r.Success? <==> buffer.Length >= DATA_OFFSET + READ_LENGTH
      ensures r.Failure? ==> r.error == RangeError
      ensures r.Success? ==> |r.value| == READ_LENGTH as nat
      ensures r.Success? ==> forall i :: 0 <= i < |r.value| ==> r.value[i] == buffer[DATA_OFFSET + i]
    {
      if buffer.Length >= DATA_OFFSET + READ_LENGTH then
        Success(buffer[DATA_OFFSET..DATA_OFFSET + READ_LENGTH as nat])
      else
        Failure(RangeError)
    }
  }

  /** A response that echoes the address bytes of a read request decodes to
      that address. */
  lemma ReadResponseAddressRoundTrip(address: int, response: seq<byte>)
    requires 0 <= address < TwoTo32
    requires |response| >= 5
    requires response[1..5] == ReadRequestFrame(address)[1..5]
    ensures GetUint32(response, 1, true) == Success(address)
  {
    var r := GetUint32(response, 1, true);
    assert ReadRequestFrame(address)[1..5] == Uint32Bytes(address, true);
    Uint32BytesInjective(r.value, address, true);
  }

  /** The same through the class: a response built over a buffer holding an
      echoed read request reports the requested address. */
  method ReadResponseEcho(address: int, data: array<byte>) returns (r: Result<nat, JsError>)
    requires 0 <= address < TwoTo32
    requires data.Length >= 5 && data[1..5] == ReadRequestFrame(address)[1..5]
    ensures r == Success(address)
  {
    var response := new ReadResponse(data);
    r := response.GetAddress();
    assert response.buffer[..][1..5] == data[1..5];
    ReadResponseAddressRoundTrip(address, data[..]);
  }

  // --------------------------------------------------------------- WriteRequest

  /** The bytes a write request for `address` and `data` consists of. */
  function WriteRequestFrame(address: int, data: seq<byte>): seq<byte>
    requires |data| <= WRITE_DATA_CAPACITY
  {
    [WRITE_COMMAND] + Uint32Bytes(ToUint32(address), false) + data + Zeros(WRITE_DATA_CAPACITY - |data|)
  }

  /** A write request is 24 bytes: 'W', the address big-endian, the data
      from offset 5, and zeros after it. */
  lemma WriteRequestLayout(address: int, data: seq<byte>)
    requires |data| <= WRITE_DATA_CAPACITY
    ensures |WriteRequestFrame(address, data)| == WRITE_REQUEST_SIZE
    ensures WriteRequestFrame(address, data)[0] == 87
    ensures Uint32Value(WriteRequestFrame(address, data)[1..5], false) == ToUint32(address)
    ensures forall i :: 0 <= i < |data| ==> WriteRequestFrame(address, data)[DATA_OFFSET + i] == data[i]
    ensures forall k :: DATA_OFFSET + |data| <= k < WRITE_REQUEST_SIZE ==> WriteRequestFrame(address, data)[k] == 0
  {
    var f := WriteRequestFrame(address, data);
    assert f[1..5] == Uint32Bytes(ToUint32(address), false);
    DecodeEncode(ToUint32(address), false);
  }

  /** The address of a write request is big-endian, so parsing it the way
      `ReadResponse.getAddress` does (little-endian) gives another value:
      address 1 reads back as 0x01000000. */
  lemma WriteRequestAddressByteOrder()
    ensures GetUint32(WriteRequestFrame(1, []), 1, false) == Success(1)
    ensures GetUint32(WriteRequestFrame(1, []), 1, true) == Success(0x0100_0000)
  {
    var f := WriteRequestFrame(1, []);
    assert f[1..5] == [0, 0, 0, 1];
  }

  /** `view.setUint8(offset, value)` where `view` may be undefined: reading
      a method off `undefined` throws `TypeError` before anything is
      written. */
  method ViewSetUint8(view: array?<byte>, offset: int, value: int) returns (r: Outcome<JsError>)
    modifies view
    ensures view == null ==> r == Fail(TypeError)
    ensures view != null ==> (r.Pass? <==> 0 <= offset < view.Length)
    ensures view != null && r.Fail? ==> r.error == RangeError && view[..] == old(view[..])
    ensures view != null && r.Pass? ==> view[..] == old(view[..])[offset := value % 256]
  {
    if view == null {
      return Fail(TypeError);
    }
    r := SetUint8(view, offset, value);
  }

  /** `view.setUint32(offset, value, littleEndian)` where `view` may be
      undefined. */
  method ViewSetUint32(view: array?<byte>, offset: int, value: int, littleEndian: bool) returns (r: Outcome<JsError>)
    modifies view
    ensures view == null ==> r == Fail(TypeError)
    ensures view != null ==> (r.Pass? <==> 0 <= offset && offset + 4 <= view.Length)
    ensures view != null && r.Fail? ==> r.error == RangeError && view[..] == old(view[..])
    ensures view != null && r.Pass? ==>
              view[..] == old(view[..offset]) + Uint32Bytes(ToUint32(value), littleEndian) + old(view[offset + 4..])
  {
    if view == null {
      return Fail(TypeError);
    }
    r := SetUint32(view, offset, value, littleEndian);
  }

  class WriteRequest {
    var buffer: array<byte>
    /** The `DataView` the constructor writes through; undefined as written. */
    var view: array?<byte>

    /** The view, when there is one, writes into `buffer`. */
    ghost predicate Valid()
      reads this
    {
      view == null || view == buffer
    }

    /** The allocation step as evidently intended: a zero-filled 24-byte
        buffer and a view over it. */
    constructor ()
      ensures Valid() && fresh(buffer) && view == buffer
      ensures buffer[..] == Zeros(WRITE_REQUEST_SIZE)
    {
      buffer := new byte[WRITE_REQUEST_SIZE](_ => 0);
      view := buffer;
    }

    /** The allocation step as written: the buffer is allocated and `view`
        is never assigned. */
    constructor AsWritten()
      ensures Valid() && fresh(buffer) && view == null
      ensures buffer[..] == Zeros(WRITE_REQUEST_SIZE)
    {
      buffer := new byte[WRITE_REQUEST_SIZE](_ => 0);
      view := null;
    }

    /** The rest of the constructor: 'W' at 0, the address big-endian at 1,
        and `data` copied from offset 5, all through `view`. With no view the
        first write throws `TypeError` and nothing is written; with one, the
        copy throws `RangeError` at the first byte past the buffer. */
    method Fill(address: int, data: seq<byte>) returns (r: Outcome<JsError>)
      requires Valid()
      requires buffer[..] == Zeros(WRITE_REQUEST_SIZE)
      modifies buffer
      ensures view == null ==> r == Fail(TypeError) && buffer[..] == old(buffer[..])
      ensures view != null ==> (r.Pass? <==> |data| <= WRITE_DATA_CAPACITY)
      ensures view != null && r.Fail? ==> r.error == RangeError
      ensures r.Pass? ==> |data| <= WRITE_DATA_CAPACITY && buffer[..] == WriteRequestFrame(address, data)
    {
      r := ViewSetUint8(view, 0, WRITE_COMMAND);
      if r.Fail? {
        return;
      }
      r := ViewSetUint32(view, 1, address, false);
      assert r.Pass?;
      var header := [WRITE_COMMAND] + Uint32Bytes(ToUint32(address), false);
      assert buffer[..] == header + Zeros(WRITE_DATA_CAPACITY);
      for i := 0 to |data|
        invariant view == buffer && r.Pass?
        invariant i <= WRITE_DATA_CAPACITY
        invariant buffer[..] == header + data[..i] + Zeros(WRITE_DATA_CAPACITY - i)
      {
        r := ViewSetUint8(view, DATA_OFFSET + i, data[i]);
        if r.Fail? {
          return;
        }
        assert data[..i + 1] == data[..i] + [data[i]];
        assert buffer[..] == header + data[..i + 1] + Zeros(WRITE_DATA_CAPACITY - (i + 1));
      }
      assert data[..|data|] == data;
    }
  }

  /** `new WriteRequest(address, data)` as evidently intended: data longer
      than the 19 bytes after offset 5 makes `setUint8` throw `RangeError`. */
  method NewWriteRequest(address: int, data: seq<byte>) returns (r: Result<WriteRequest, JsError>)
    ensures r.Failure? <==> |data| > WRITE_DATA_CAPACITY
    ensures r.Failure? ==> r.error == RangeError
    ensures r.Success? ==> fresh(r.value) && r.value.buffer[..] == WriteRequestFrame(address, data)
  {
    var request := new WriteRequest();
    var outcome := request.Fill(address, data);
    if outcome.Fail? {
      return Failure(outcome.error);
    }
    return Success(request);
  }

  /** `new WriteRequest(address, data)` as written: `this.view` is undefined
      when `setUint8(0, 87)` is called on it, so every construction throws a
      `TypeError` and no frame is produced. */
  method NewWriteRequestAsWritten(address: int, data: seq<byte>) returns (r: Result<WriteRequest, JsError>)
    ensures r.Failure? && r.error == TypeError
  {
    var request := new WriteRequest.AsWritten();
    var outcome := request.Fill(address, data);
    if outcome.Fail? {
      return Failure(outcome.error);
    }
    return Success(request);
  }
}
