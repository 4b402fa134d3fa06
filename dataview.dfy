/** The part of JavaScript's `DataView` that the frame builders and parsers
    rely on: `setUint8`, `setUint32` and `getUint32` over the bytes of an
    `ArrayBuffer`, here an `array<byte>`. A call outside the buffer throws
    `RangeError`. */
module DataView {
  import opened Common

  const TwoTo32: nat := 0x1_0000_0000

  /** ToUint32 on an integer-valued number: reduction modulo 2^32. */
  function ToUint32(x: int): (r: nat)
    ensures r < TwoTo32
  {
    x % TwoTo32
  }

  /** The four bytes of a 32-bit value, least significant first. */
  function LittleEndian(v: nat): seq<byte>
    requires v < TwoTo32
  {
    [v % 256, (v / 256) % 256, (v / 256 / 256) % 256, v / 256 / 256 / 256]
  }

  /** The value of four bytes read least significant first. */
  function LittleEndianValue(b: seq<byte>): nat
    requires |b| == 4
  {
    b[0] as int + 256 * (b[1] as int + 256 * (b[2] as int + 256 * b[3] as int))
  }

  function Reverse4(b: seq<byte>): seq<byte>
    requires |b| == 4
  {
    [b[3], b[2], b[1], b[0]]
  }

  /** The bytes `setUint32` stores for `v`, in the order its third argument
      selects. */
  function Uint32Bytes(v: nat, littleEndian: bool): (r: seq<byte>)
    requires v < TwoTo32
    ensures |r| == 4
  {
    if littleEndian then LittleEndian(v) else Reverse4(LittleEndian(v))
  }

  /** The value `getUint32` reads from four bytes, in the order its second
      argument selects. */
  function Uint32Value(b: seq<byte>, littleEndian: bool): (r: nat)
    requires |b| == 4
    ensures r < TwoTo32
  {
    if littleEndian then LittleEndianValue(b) else LittleEndianValue(Reverse4(b))
  }

  /** Reading back what was stored in the same byte order gives the value. */
  lemma DecodeEncode(v: nat, littleEndian: bool)
    requires v < TwoTo32
    ensures Uint32Value(Uint32Bytes(v, littleEndian), littleEndian) == v
  {
    var q1 := v / 256;
    var q2 := q1 / 256;
    var q3 := q2 / 256;
    assert v == v % 256 + 256 * q1;
    assert q1 == q1 % 256 + 256 * q2;
    assert q2 == q2 % 256 + 256 * q3;
    assert q3 < 256;
    assert LittleEndian(v) == [v % 256, q1 % 256, q2 % 256, q3];
  }

  /** Storing what was read in the same byte order gives the bytes back. */
  lemma EncodeDecode(b: seq<byte>, littleEndian: bool)
    requires |b| == 4
    ensures Uint32Bytes(Uint32Value(b, littleEndian), littleEndian) == b
  {
    var c := if littleEndian then b else Reverse4(b);
    var v := LittleEndianValue(c);
    var t2: int := c[2] as int + 256 * c[3] as int;
    var t1: int := c[1] as int + 256 * t2;
    assert v == c[0] as int + 256 * t1;
    assert v / 256 == t1 && v % 256 == c[0];
    assert t1 / 256 == t2 && t1 % 256 == c[1];
    assert t2 / 256 == c[3] && t2 % 256 == c[2];
    assert LittleEndian(v) == c;
  }

  /** Distinct 32-bit values are stored as distinct bytes. */
  lemma Uint32BytesInjective(v: nat, w: nat, littleEndian: bool)
    requires v < TwoTo32 && w < TwoTo32
    requires Uint32Bytes(v, littleEndian) == Uint32Bytes(w, littleEndian)
    ensures v == w
  {
    DecodeEncode(v, littleEndian);
    DecodeEncode(w, littleEndian);
  }

  /** getUint32(offset, littleEndian) on the bytes of a buffer. */
  function GetUint32(buffer: seq<byte>, offset: int, littleEndian: bool): (r: Result<nat, JsError>)
    ensures r.Success? <==> 0 <= offset && offset + 4 <= |buffer|
    ensures r.Failure? ==> r.error == RangeError
    ensures r.Success? ==> r.value < TwoTo32 && Uint32Bytes(r.value, littleEndian) == buffer[offset..offset + 4]
  {
    if 0 <= offset && offset + 4 <= |buffer| then
      EncodeDecode(buffer[offset..offset + 4], littleEndian);
      Success(Uint32Value(buffer[offset..offset + 4], littleEndian))
    else
      Failure(RangeError)
  }

  /** setUint8(offset, value): stores ToUint8(value) at `offset`. */
  method SetUint8(buffer: array<byte>, offset: int, value: int) returns (r: Outcome<JsError>)
    modifies buffer
    ensures r.Pass? <==> 0 <= offset < buffer.Length
    ensures r.Fail? ==> r.error == RangeError && buffer[..] == old(buffer[..])
    ensures r.Pass? ==> buffer[..] == old(buffer[..])[offset := value % 256]
  {
    if 0 <= offset < buffer.Length {
      buffer[offset] := value % 256;
      return Pass;
    }
    return Fail(RangeError);
  }

  /** setUint32(offset, value, littleEndian): stores the four bytes of
      ToUint32(value) at `offset`, leaving every other byte as it was. */
  method SetUint32(buffer: array<byte>, offset: int, value: int, littleEndian: bool) returns (r: Outcome<JsError>)
    modifies buffer
    ensures r.Pass? <==> 0 <= offset && offset + 4 <= buffer.Length
    ensures r.Fail? ==> r.error == RangeError && buffer[..] == old(buffer[..])
    ensures r.Pass? ==> buffer[..] == old(buffer[..offset]) + Uint32Bytes(ToUint32(value), littleEndian) + old(buffer[offset + 4..])
  {
    if !(0 <= offset && offset + 4 <= buffer.Length) {
      return Fail(RangeError);
    }
    var b := Uint32Bytes(ToUint32(value), littleEndian);
    buffer[offset] := b[0];
    buffer[offset + 1] := b[1];
    buffer[offset + 2] := b[2];
    buffer[offset + 3] := b[3];
    return Pass;
  }
}
