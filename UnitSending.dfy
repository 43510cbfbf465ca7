/** The unit sender: writes one length-prefixed frame onto a socket's write half. */
module UnitSending {
  import opened Wrappers
  import opened Sockets
  import opened Framing

  class UnitSender {
    const writeHalf: WriteHalf

    constructor (writeHalf: WriteHalf)
      ensures this.writeHalf == writeHalf
    {
      this.writeHalf := writeHalf;
    }

    /** The write half this sender owns; reading it changes nothing. */
    method WriteHalfRef() returns (w: WriteHalf)
      ensures w == writeHalf
    {
      w := writeHalf;
    }

    /**
     * Writes the size prefix of `msg`, then `msg`. The write half receives as much of the
     * frame as it accepts; a failed prefix write stops before any payload byte.
     */
    method Send(msg: seq<byte>) returns (r: Result<(), IoError>)
      modifies writeHalf
      ensures writeHalf.sent == old(writeHalf.sent) + Accepted(Frame(msg), old(writeHalf.room))
      ensures writeHalf.room == old(writeHalf.room) - |Accepted(Frame(msg), old(writeHalf.room))|
      ensures r.Ok? <==> |Frame(msg)| <= old(writeHalf.room)
      ensures r.Err? ==> r.error == BrokenPipe
      ensures old(writeHalf.room) < PREFIX_LEN ==>
                writeHalf.sent == old(writeHalf.sent) + SizePrefix(|msg|)[..old(writeHalf.room)]
    {
      var size := SizePrefix(|msg|);
      AcceptedFrame(msg, writeHalf.room);
      r := writeHalf.WriteAll(size);
      if r.Err? {
        return;
      }
      r := writeHalf.WriteAll(msg);
    }
  }
}
