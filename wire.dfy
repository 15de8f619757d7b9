/** The I²C transport the driver talks through (Arduino's `Wire`), reduced
    to what a caller can observe: a log of bus transactions, the bytes the
    devices will answer with, and the buffers of the transmission or
    reception in progress. Signalling, timing and return codes are not
    modelled. */
module Wire {
  import opened Basics

  /** One transaction on the bus. */
  datatype Transaction =
    | Transmit(target: byte, payload: seq<byte>)  // beginTransmission … endTransmission
    | Request(target: byte, count: nat)           // requestFrom

  class TwoWire {
    /** Every transaction so far, oldest first; only ever appended to. */
    var log: seq<Transaction>
    /** The bytes the addressed devices will send back, in order. */
    var input: seq<byte>
    var txTarget: byte
    var txBuffer: seq<byte>
    var rxBuffer: seq<byte>

    constructor (responses: seq<byte>)
      ensures log == [] && input == responses && txBuffer == [] && rxBuffer == []
    {
      log := [];
      input := responses;
      txTarget := 0;
      txBuffer := [];
      rxBuffer := [];
    }

    /** Opens a transmission to `target`. */
    method BeginTransmission(target: byte)
      modifies this`txTarget, this`txBuffer
      ensures txTarget == target && txBuffer == []
    {
      txTarget := target;
      txBuffer := [];
    }

    /** Queues one byte of the transmission in progress. */
    method Write(b: byte)
      modifies this`txBuffer
      ensures txBuffer == old(txBuffer) + [b]
    {
      txBuffer := txBuffer + [b];
    }

    /** Sends the queued bytes as one transaction. */
    method EndTransmission()
      modifies this`log, this`txBuffer
      ensures log == old(log) + [Transmit(txTarget, old(txBuffer))]
      ensures txBuffer == []
    {
      log := log + [Transmit(txTarget, txBuffer)];
      txBuffer := [];
    }

    /** Reads up to `count` bytes from `target` into the receive buffer;
        fewer arrive when the device has fewer to give. */
    method RequestFrom(target: byte, count: nat)
      modifies this`log, this`input, this`rxBuffer
      ensures log == old(log) + [Request(target, count)]
      ensures var n := if count <= |old(input)| then count else |old(input)|;
        rxBuffer == old(input)[..n] && input == old(input)[n..]
    {
      var n := if count <= |input| then count else |input|;
      log := log + [Request(target, count)];
      rxBuffer := input[..n];
      input := input[n..];
    }

    /** Takes the next received byte, or -1 when none is left. */
    method Read() returns (r: int)
      modifies this`rxBuffer
      ensures old(rxBuffer) == [] ==> r == -1 && rxBuffer == []
      ensures old(rxBuffer) != [] ==> r == old(rxBuffer)[0] as int && rxBuffer == old(rxBuffer)[1..]
    {
      if rxBuffer == [] {
        r := -1;
      } else {
        r := rxBuffer[0] as int;
        rxBuffer := rxBuffer[1..];
      }
    }
  }
}
