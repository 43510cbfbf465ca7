/**
 * The plain sender: serialises a message into a scratch buffer that it appends to, and writes
 * the buffer as one length-prefixed frame. The buffer is cleared only after a successful send.
 */
module PlainSending {
  import opened Wrappers
  import opened Sockets
  import opened Framing

  datatype PlainConnectionError =
    | SerializeFailed
    | WriteFailed(cause: IoError)

  class PlainSender {
    const writeHalf: WriteHalf
    var buffer: seq<byte>

    /** Buffer discipline: nothing is left over between successful sends. */
    ghost predicate Idle()
      reads this
    {
      buffer == []
    }

    constructor (sendHalf: WriteHalf)
      ensures writeHalf == sendHalf && Idle()
    {
      writeHalf := sendHalf;
      buffer := [];
    }

    /** The write half this sender owns; reading it changes nothing. */
    method SendHalfRef() returns (w: WriteHalf)
      ensures w == writeHalf
    {
      w := writeHalf;
    }

    /**
     * Appends the serialisation of `message` to the buffer and writes the whole buffer as a
     * frame. A serialisation failure writes nothing; a write failure keeps the buffer.
     */
    method Send<M>(message: M, serialize: M -> Option<seq<byte>>) returns (r: Result<(), PlainConnectionError>)
      modifies this, writeHalf
      ensures serialize(message).None? ==>
                && r == Err(SerializeFailed)
                && buffer == old(buffer)
                && writeHalf.sent == old(writeHalf.sent) && writeHalf.room == old(writeHalf.room)
      ensures serialize(message).Some? ==>
                writeHalf.sent == old(writeHalf.sent) + Accepted(Frame(old(buffer) + serialize(message).value), old(writeHalf.room))
      ensures serialize(message).Some? ==>
                writeHalf.room == old(writeHalf.room) - |Accepted(Frame(old(buffer) + serialize(message).value), old(writeHalf.room))|
      ensures serialize(message).Some? ==>
                (r.Ok? <==> |Frame(old(buffer) + serialize(message).value)| <= old(writeHalf.room))
      ensures r.Err? && serialize(message).Some? ==> r == Err(WriteFailed(BrokenPipe))
      ensures serialize(message).Some? ==> buffer == if r.Ok? then [] else old(buffer) + serialize(message).value
      ensures old(Idle()) && serialize(message).Some? ==>
                writeHalf.sent == old(writeHalf.sent) + Accepted(Frame(serialize(message).value), old(writeHalf.room))
      ensures r.Ok? ==> Idle()
    {
      var serialized := serialize(message);
      if serialized.None? {
        return Err(SerializeFailed);
      }
      buffer := buffer + serialized.value;
      var written := WriteBuffer();
      if written.Err? {
        return written;
      }
      buffer := [];
      r := Ok(());
    }

    /** Writes the size of the buffer and then the buffer itself: one frame of the buffer. */
    method WriteBuffer() returns (r: Result<(), PlainConnectionError>)
      modifies writeHalf
      ensures writeHalf.sent == old(writeHalf.sent) + Accepted(Frame(buffer), old(writeHalf.room))
      ensures writeHalf.room == old(writeHalf.room) - |Accepted(Frame(buffer), old(writeHalf.room))|
      ensures r.Ok? <==> |Frame(buffer)| <= old(writeHalf.room)
      ensures r.Err? ==> r == Err(WriteFailed(BrokenPipe))
    {
      AcceptedFrame(buffer, writeHalf.room);
      r := SendSize(|buffer|);
      if r.Err? {
        return;
      }
      var written := writeHalf.WriteAll(buffer);
      if written.Err? {
        return Err(WriteFailed(written.error));
      }
    }

    /** Writes `(size as u32).to_le_bytes()`. */
    method SendSize(size: nat) returns (r: Result<(), PlainConnectionError>)
      modifies writeHalf
      ensures writeHalf.sent == old(writeHalf.sent) + Accepted(SizePrefix(size), old(writeHalf.room))
      ensures writeHalf.room == old(writeHalf.room) - |Accepted(SizePrefix(size), old(writeHalf.room))|
      ensures r.Ok? <==> PREFIX_LEN <= old(writeHalf.room)
      ensures r.Err? ==> r == Err(WriteFailed(BrokenPipe))
    {
      var written := writeHalf.WriteAll(SizePrefix(size));
      r := if written.Ok? then Ok(()) else Err(WriteFailed(written.error));
    }
  }
}
