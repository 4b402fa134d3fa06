/** The programming-mode handshake of src/radio.ts.

    The serial port is an abstract transport: the chunks its reader will
    resolve to, in order (`None` is a read whose `value` is `undefined`,
    that is, a closed stream), and the log of every chunk its writer was
    given. `Anytone878UVProtocol` holds a writer and a reader that are null
    until `open`; every exchange first runs `checkIO`, then writes one
    command and reads one chunk.

    The source compares the response with the acknowledgement using `!==`,
    which compares object identity: a freshly received `Uint8Array` is never
    the static constant, so as written every handshake fails. The model
    compares bytes, as `compareByteArrays` does (see
    `ResponseIsAckAsWritten` and "Findings" in the README). */
module Radio {
  import opened Common
  import opened Utils

  const ENTER_PROGRAM_MODE: seq<byte> := [80, 82, 79, 71, 82, 65, 77]   // "PROGRAM"
  const ENTER_PROGRAM_MODE_ACK: seq<byte> := [81, 88, 6]              // "QX\x06"
  const EXIT_PROGRAM_MODE: seq<byte> := [69, 78, 68]                  // "END"
  const IDENTIFY_COMMAND: seq<byte> := [2]                            // "\x02"

  const ENTER_FAILED := "Failed to enter program mode"
  const EXIT_FAILED := "Failed to exit program mode"
  const NO_RESPONSE := "No response from radio"
  const WRITER_IS_NULL := "Writer is null"
  const READER_IS_NULL := "Reader is null"

  // ------------------------------------------------- the transport, as values

  /** The observable state of the transport. */
  datatype Port = Port(incoming: seq<Option<seq<byte>>>, written: seq<seq<byte>>)

  /** What the next read resolves to; an exhausted transport reads as closed. */
  function NextChunk(incoming: seq<Option<seq<byte>>>): Option<seq<byte>>
  {
    if incoming == [] then None else incoming[0]
  }

  function Remaining(incoming: seq<Option<seq<byte>>>): seq<Option<seq<byte>>>
  {
    if incoming == [] then [] else incoming[1..]
  }

  /** The chunks left after `n` reads. */
  function Drop(incoming: seq<Option<seq<byte>>>, n: nat): seq<Option<seq<byte>>>
  {
    if n >= |incoming| then [] else incoming[n..]
  }

  /** Whether a response is the acknowledgement, compared byte by byte as
      compareByteArrays does; an `undefined` value is not. */
  predicate IsAck(response: Option<seq<byte>>)
    ensures IsAck(response) <==> response == Some(ENTER_PROGRAM_MODE_ACK)
  {
    var bytes := if response.Some? then response.value else [];
    SameBytesIsEquality(bytes, ENTER_PROGRAM_MODE_ACK);
    response.Some? && SameBytes(response.value, ENTER_PROGRAM_MODE_ACK)
  }

  /** enterProgramMode and exitProgramMode on a transport: unless `checkIO`
      threw, write `command`, read one chunk, and succeed exactly when that
      chunk is "QX\x06". Both use the same acknowledgement. */
  function AckExchange(io: Outcome<JsError>, p: Port, command: seq<byte>, failure: string): (r: (Outcome<JsError>, Port))
    ensures io.Fail? ==> r == (io, p)
    ensures io.Pass? ==> r.1 == Port(Remaining(p.incoming), p.written + [command])
    ensures r.0.Pass? <==> io.Pass? && NextChunk(p.incoming) == Some(ENTER_PROGRAM_MODE_ACK)
    ensures io.Pass? && r.0.Fail? ==> r.0.error == Thrown(failure)
  {
    if io.Fail? then
      (io, p)
    else
      var response := NextChunk(p.incoming);
      var p' := Port(Remaining(p.incoming), p.written + [command]);
      (if IsAck(response) then Pass else Fail(Thrown(failure)), p')
  }

  /** getRadioID on a transport: unless `checkIO` threw, write 0x02, read one
      chunk and return it as it is, or throw when the read has no value. */
  function RadioIDExchange(io: Outcome<JsError>, p: Port): (r: (Result<seq<byte>, JsError>, Port))
    ensures io.Fail? ==> r == (Failure(io.error), p)
    ensures io.Pass? ==> r.1 == Port(Remaining(p.incoming), p.written + [IDENTIFY_COMMAND])
    ensures r.0.Success? <==> io.Pass? && NextChunk(p.incoming).Some?
    ensures r.0.Success? ==> Some(r.0.value) == NextChunk(p.incoming)
    ensures io.Pass? && r.0.Failure? ==> r.0.error == Thrown(NO_RESPONSE)
  {
    if io.Fail? then
      (Failure(io.error), p)
    else
      var response := NextChunk(p.incoming);
      var p' := Port(Remaining(p.incoming), p.written + [IDENTIFY_COMMAND]);
      match response
      case None => (Failure(Thrown(NO_RESPONSE)), p')
      case Some(value) => (Success(value), p')
  }

  /** The exchanges a caller can run on an `Anytone878UVProtocol`. */
  datatype Exchange = EnterProgramMode | ExitProgramMode | GetRadioID

  function Command(e: Exchange): seq<byte>
  {
    match e
    case EnterProgramMode => ENTER_PROGRAM_MODE
    case ExitProgramMode => EXIT_PROGRAM_MODE
    case GetRadioID => IDENTIFY_COMMAND
  }

  /** The transport after one exchange, whatever the exchange returned. */
  function Perform(io: Outcome<JsError>, p: Port, e: Exchange): Port
  {
    match e
    case EnterProgramMode => AckExchange(io, p, ENTER_PROGRAM_MODE, ENTER_FAILED).1
    case ExitProgramMode => AckExchange(io, p, EXIT_PROGRAM_MODE, EXIT_FAILED).1
    case GetRadioID => RadioIDExchange(io, p).1
  }

  /** The transport after a caller runs `es` in order, catching every
      failure. `io` is what `checkIO` gives; no exchange changes it. */
  function Session(io: Outcome<JsError>, p: Port, es: seq<Exchange>): Port
    decreases |es|
  {
    if es == [] then p else Session(io, Perform(io, p, es[0]), es[1..])
  }

  function Commands(es: seq<Exchange>): seq<seq<byte>>
  {
    if es == [] then [] else [Command(es[0])] + Commands(es[1..])
  }

  /** While the writer or the reader is null, no sequence of exchanges
      writes or reads anything. */
  lemma {:induction false} SessionWhenClosed(io: Outcome<JsError>, p: Port, es: seq<Exchange>)
    requires io.Fail?
    ensures Session(io, p, es) == p
    decreases |es|
  {
    if es != [] {
      SessionWhenClosed(io, Perform(io, p, es[0]), es[1..]);
    }
  }

  /** Once open, every exchange writes exactly its command and consumes
      exactly one incoming chunk, and nothing else changes. */
  lemma {:induction false} SessionWhenOpen(p: Port, es: seq<Exchange>)
    ensures Session(Pass, p, es) == Port(Drop(p.incoming, |es|), p.written + Commands(es))
    decreases |es|
  {
    if es != [] {
      var p' := Perform(Pass, p, es[0]);
      assert p' == Port(Remaining(p.incoming), p.written + [Command(es[0])]);
      SessionWhenOpen(p', es[1..]);
      assert Drop(Remaining(p.incoming), |es| - 1) == Drop(p.incoming, |es|);
      assert p.written + [Command(es[0])] + Commands(es[1..]) == p.written + Commands(es);
    }
  }

  /** readCodeplug on a transport, after `open`: enter program mode, exit
      program mode, and return an empty image. A failed enter throws before
      the exit is attempted. */
  function ReadCodeplugExchange(p: Port): (r: (Result<seq<byte>, JsError>, Port))
    ensures r.0.Success? ==> r.0.value == []
  {
    var (entered, p1) := AckExchange(Pass, p, ENTER_PROGRAM_MODE, ENTER_FAILED);
    if entered.Fail? then
      (Failure(entered.error), p1)
    else
      var (exited, p2) := AckExchange(Pass, p1, EXIT_PROGRAM_MODE, EXIT_FAILED);
      if exited.Fail? then (Failure(exited.error), p2) else (Success([]), p2)
  }

  /** Entering then exiting on a radio that acknowledges both succeeds with
      an empty image, having written "PROGRAM" then "END". */
  lemma ReadCodeplugEnterThenExit(p: Port)
    requires |p.incoming| >= 2
    requires p.incoming[0] == Some(ENTER_PROGRAM_MODE_ACK) && p.incoming[1] == Some(ENTER_PROGRAM_MODE_ACK)
    ensures ReadCodeplugExchange(p) == (Success([]), Port(p.incoming[2..], p.written + [ENTER_PROGRAM_MODE, EXIT_PROGRAM_MODE]))
  {
    assert Remaining(p.incoming)[0] == p.incoming[1];
    assert Remaining(Remaining(p.incoming)) == p.incoming[2..];
    assert p.written + [ENTER_PROGRAM_MODE] + [EXIT_PROGRAM_MODE] == p.written + [ENTER_PROGRAM_MODE, EXIT_PROGRAM_MODE];
  }

  /** readCodeplug succeeds exactly when both of the next two chunks are the
      acknowledgement; when the first is not, "END" is never sent. */
  lemma ReadCodeplugOutcome(p: Port)
    ensures ReadCodeplugExchange(p).0.Success? <==>
              NextChunk(p.incoming) == Some(ENTER_PROGRAM_MODE_ACK) &&
              NextChunk(Remaining(p.incoming)) == Some(ENTER_PROGRAM_MODE_ACK)
    ensures NextChunk(p.incoming) != Some(ENTER_PROGRAM_MODE_ACK) ==>
              ReadCodeplugExchange(p) == (Failure(Thrown(ENTER_FAILED)), Port(Remaining(p.incoming), p.written + [ENTER_PROGRAM_MODE]))
  {
  }

  // ------------------------------------------------- the transport, as objects

  /** The serial port the protocol borrows. */
  class SerialPort {
    var incoming: seq<Option<seq<byte>>>
    var written: seq<seq<byte>>

    constructor (incoming: seq<Option<seq<byte>>>)
      ensures this.incoming == incoming && written == []
    {
      this.incoming := incoming;
      written := [];
    }

    function State(): Port
      reads this
    {
      Port(incoming, written)
    }
  }

  /** The writer `getWriter()` hands out: every write goes to the port. */
  class PortWriter {
    const port: SerialPort

    constructor (port: SerialPort)
      ensures this.port == port
    {
      this.port := port;
    }

    method Write(chunk: seq<byte>)
      modifies port
      ensures port.State() == Port(old(port.incoming), old(port.written) + [chunk])
    {
      port.written := port.written + [chunk];
    }
  }

  /** The reader `getReader()` hands out: every read takes the next chunk. */
  class PortReader {
    const port: SerialPort

    constructor (port: SerialPort)
      ensures this.port == port
    {
      this.port := port;
    }

    method Read() returns (value: Option<seq<byte>>)
      modifies port
      ensures value == NextChunk(old(port.incoming))
      ensures port.State() == Port(Remaining(old(port.incoming)), old(port.written))
    {
      value := NextChunk(port.incoming);
      port.incoming := Remaining(port.incoming);
    }
  }

  class Anytone878UVProtocol {
    const serialPort: SerialPort
    var writer: PortWriter?
    var reader: PortReader?

    /** Whatever writer and reader are held belong to `serialPort`. */
    ghost predicate Valid()
      reads this
    {
      (writer != null ==> writer.port == serialPort) &&
      (reader != null ==> reader.port == serialPort)
    }

    constructor (serialPort: SerialPort)
      ensures this.serialPort == serialPort
      ensures writer == null && reader == null
      ensures Valid()
    {
      this.serialPort := serialPort;
      writer := null;
      reader := null;
    }

    /** open: acquires a writer and a reader on the port. Opening the port
        itself and its baud rate are the transport's business. */
    method Open()
      modifies this
      ensures Valid()
      ensures writer != null && reader != null && fresh(writer) && fresh(reader)
    {
      writer := new PortWriter(serialPort);
      reader := new PortReader(serialPort);
    }

    /** close: closing the port is the transport's business; no protocol
        state changes. */
    method Close()
      ensures writer == old(writer) && reader == old(reader)
      ensures serialPort.State() == old(serialPort.State())
    {
    }

    /** checkIO: throws while the writer or the reader is null. */
    function CheckIO(): (r: Outcome<JsError>)
      reads this
      ensures r.Pass? <==> writer != null && reader != null
      ensures writer == null ==> r == Fail(Thrown(WRITER_IS_NULL))
      ensures writer != null && reader == null ==> r == Fail(Thrown(READER_IS_NULL))
    {
      if writer == null then Fail(Thrown(WRITER_IS_NULL))
      else if reader == null then Fail(Thrown(READER_IS_NULL))
      else Pass
    }

    method EnterProgramMode() returns (r: Outcome<JsError>)
      requires Valid()
      modifies serialPort
      ensures (r, serialPort.State()) == AckExchange(CheckIO(), old(serialPort.State()), ENTER_PROGRAM_MODE, ENTER_FAILED)
    {
      r := CheckIO();
      if r.Fail? {
        return;
      }
      writer.Write(ENTER_PROGRAM_MODE);
      var response := reader.Read();
      r := if IsAck(response) then Pass else Fail(Thrown(ENTER_FAILED));
    }

    /** exitProgramMode: checks the reply against the enter acknowledgement
        "QX\x06", as the source does. */
    method ExitProgramMode() returns (r: Outcome<JsError>)
      requires Valid()
      modifies serialPort
      ensures (r, serialPort.State()) == AckExchange(CheckIO(), old(serialPort.State()), EXIT_PROGRAM_MODE, EXIT_FAILED)
    {
      r := CheckIO();
      if r.Fail? {
        return;
      }
      writer.Write(EXIT_PROGRAM_MODE);
      var response := reader.Read();
      r := if IsAck(response) then Pass else Fail(Thrown(EXIT_FAILED));
    }

    method GetRadioID() returns (r: Result<seq<byte>, JsError>)
      requires Valid()
      modifies serialPort
      ensures (r, serialPort.State()) == RadioIDExchange(CheckIO(), old(serialPort.State()))
    {
      var io := CheckIO();
      if io.Fail? {
        return Failure(io.error);
      }
      writer.Write(IDENTIFY_COMMAND);
      var response := reader.Read();
      match response
      case None =>
        r := Failure(Thrown(NO_RESPONSE));
      case Some(value) =>
        r := Success(value);
    }
  }

  /** A protocol object cannot talk before `open` and can after it. */
  method CheckIOBeforeAndAfterOpen(port: SerialPort) returns (before: Outcome<JsError>, after: Outcome<JsError>)
    ensures before == Fail(Thrown(WRITER_IS_NULL))
    ensures after == Pass
  {
    var protocol := new Anytone878UVProtocol(port);
    before := protocol.CheckIO();
    protocol.Open();
    after := protocol.CheckIO();
  }

  /** `ResponseIsAckAsWritten` is the comparison the source writes,
      `response?.value !== ENTER_PROGRAM_MODE_ACK`, negated: an identity test
      between the `Uint8Array` the reader just produced and the static
      acknowledgement. It never holds, even when the bytes are the ones
      expected. */
  method ResponseIsAckAsWritten(ack: array<byte>, received: seq<byte>) returns (accepted: bool)
    ensures !accepted
  {
    var response := new byte[|received|](i requires 0 <= i < |received| => received[i]);
    accepted := response == ack;
  }

  /** The radio answers exactly "QX\x06": the comparison as written rejects
      the answer, the byte-wise comparison the model uses accepts it. */
  method AckCheckDiscrepancy() returns (asWritten: bool, corrected: bool)
    ensures !asWritten
    ensures corrected
  {
    var ack := new byte[3](i requires 0 <= i < 3 => ENTER_PROGRAM_MODE_ACK[i]);
    asWritten := ResponseIsAckAsWritten(ack, ENTER_PROGRAM_MODE_ACK);
    corrected := IsAck(Some(ENTER_PROGRAM_MODE_ACK));
  }

  /** The radio: its USB identifiers and the two operations built on the
      protocol. */
  class Anytone878UV {
    const protocol: Anytone878UVProtocol

    constructor (serialPort: SerialPort)
      ensures fresh(protocol) && protocol.serialPort == serialPort
      ensures protocol.writer == null && protocol.reader == null && protocol.Valid()
    {
      protocol := new Anytone878UVProtocol(serialPort);
    }

    /** The USB product id the port is requested with. */
    function GetProductID(): (id: int)
      ensures id == 0x018a
    {
      0x018a
    }

    /** The USB vendor id the port is requested with. */
    function GetVendorID(): (id: int)
      ensures id == 0x28e9
    {
      0x28e9
    }

    /** readCodeplug: open, enter and exit program mode, close, and return
        an empty image; reading the memory is not implemented. */
    method ReadCodeplug() returns (r: Result<seq<byte>, JsError>)
      requires protocol.Valid()
      modifies protocol, protocol.serialPort
      ensures protocol.Valid() && protocol.CheckIO().Pass?
      ensures (r, protocol.serialPort.State()) == ReadCodeplugExchange(old(protocol.serialPort.State()))
    {
      protocol.Open();
      var entered := protocol.EnterProgramMode();
      if entered.Fail? {
        return Failure(entered.error);
      }
      var exited := protocol.ExitProgramMode();
      if exited.Fail? {
        return Failure(exited.error);
      }
      protocol.Close();
      return Success([]);
    }

    /** getRadioID: open, then the protocol's identify exchange. */
    method GetRadioID() returns (r: Result<seq<byte>, JsError>)
      requires protocol.Valid()
      modifies protocol, protocol.serialPort
      ensures protocol.Valid() && protocol.CheckIO().Pass?
      ensures (r, protocol.serialPort.State()) == RadioIDExchange(Pass, old(protocol.serialPort.State()))
    {
      protocol.Open();
      r := protocol.GetRadioID();
    }
  }
}
