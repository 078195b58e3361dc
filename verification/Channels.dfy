/** Bounded channels with explicit sender counts.

    What the model assumes of the runtime's channels: they are first-in first-out with exact
    capacity; a receive yields "closed" only when the buffer is empty and no sender is left; a send
    that is cancelled has not sent; a non-blocking send fails only when the channel is full or its
    receiver is gone; and dropping the receiver discards whatever was still buffered.
  */
module Channels {

  /** `open` says that the receiver is still alive. */
  datatype Chan<T> = Chan(buf: seq<T>, cap: nat, senders: nat, open: bool) {

    /** A pending (or non-blocking) send completes successfully. */
    predicate CanSend() {
      open && |buf| < cap
    }

    /** A pending receive completes with a message. */
    predicate CanRecv() {
      |buf| > 0
    }

    /** A pending receive completes with "closed". */
    predicate AtEnd() {
      |buf| == 0 && senders == 0
    }

    function Send(x: T): Chan<T>
      requires CanSend()
    {
      this.(buf := buf + [x])
    }

    function Recv(): Chan<T>
      requires CanRecv()
    {
      this.(buf := buf[1..])
    }

    function AddSender(): Chan<T> {
      this.(senders := senders + 1)
    }

    function DropSender(): Chan<T> {
      this.(senders := if senders == 0 then 0 else senders - 1)
    }

    function DropReceiver(): Chan<T> {
      this.(open := false, buf := [])
    }
  }

  function New<T>(cap: nat, senders: nat): Chan<T> {
    Chan([], cap, senders, true)
  }

  /** One sender if the owner is alive. */
  function Count(alive: bool): nat {
    if alive then 1 else 0
  }
}
