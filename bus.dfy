/**
  The blocking I2C write capability the driver is given. Only what the driver
  can observe is modelled: each write is recorded together with the reply the
  bus gave, and the reply is arbitrary, since the transport may fail at any
  time for reasons outside the driver.
 */
module I2c {
  import opened Bytes

  /** One bus transaction: the target address and the bytes written. */
  datatype Transaction = Transaction(address: byte, bytes: seq<byte>)

  /** The outcome of one write. The transport's error value is opaque. */
  datatype WriteResult = Ok | Err

  class Bus {
    /** Every write issued so far, oldest first. */
    ghost var trace: seq<Transaction>
    /** The reply the bus gave to each write in the trace. */
    ghost var replies: seq<WriteResult>

    constructor ()
      ensures trace == [] && replies == []
    {
      trace, replies := [], [];
    }

    /** One write of `bytes` to `address`; it may succeed or fail. */
    method Write(address: byte, bytes: seq<byte>) returns (r: WriteResult)
      modifies this
      ensures trace == old(trace) + [Transaction(address, bytes)]
      ensures replies == old(replies) + [r]
    {
      var failed: bool :| true;
      r := if failed then Err else Ok;
      trace := trace + [Transaction(address, bytes)];
      replies := replies + [r];
    }
  }
}
