/**
  The framing of display data: eight payload bytes sent as one I2C write
  behind the data control byte 0x40, which sets it apart from command writes.
 */
module Framing {
  import opened Bytes
  import opened Commands

  /** Control byte that marks a data write. */
  const DataControl: byte := 0x40

  /** Eight payload bytes, the argument of a data write. */
  type Block = s: seq<byte> | |s| == 8 witness [0, 0, 0, 0, 0, 0, 0, 0]

  /** A data write: the data control byte followed by the eight payload bytes in order. */
  function DataFrame(data: Block): (frame: seq<byte>)
    ensures |frame| == 9
    ensures frame[0] == DataControl && frame[1..] == data
  {
    [0x40, data[0], data[1], data[2], data[3], data[4], data[5], data[6], data[7]]
  }

  /** The payload of a data write, read back from the bytes on the bus. */
  function DataPayload(frame: seq<byte>): Option<Block> {
    if |frame| == 9 && frame[0] == DataControl then Some(frame[1..]) else None
  }

  /** Reading a data write back gives the payload that was sent, and only its frame carries it. */
  lemma DataRoundTrip(data: Block, frame: seq<byte>)
    ensures DataPayload(DataFrame(data)) == Some(data)
    ensures DataPayload(frame) == Some(data) ==> DataFrame(data) == frame
  {
  }

  /** A data write can never be mistaken for a command write, nor the other way round. */
  lemma DataIsNotCommand(data: Block, c: Command)
    ensures DataFrame(data) != Encode(c)
    ensures Decode(DataFrame(data)) == None
    ensures DataPayload(Encode(c)) == None
  {
  }
}
