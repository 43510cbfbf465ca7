/** The unit receiver: reads one length-prefixed frame into a buffer it reuses across calls. */
module UnitReceiving {
  import opened Wrappers
  import opened Sockets
  import opened Framing

  class UnitReceiver {
    const readHalf: ReadHalf
    var buffer: seq<byte>

    constructor (readHalf: ReadHalf)
      ensures this.readHalf == readHalf && buffer == []
    {
      this.readHalf := readHalf;
      buffer := [];
    }

    /** The read half this receiver owns; reading it changes nothing. */
    method ReadHalfRef() returns (h: ReadHalf)
      ensures h == readHalf
    {
      h := readHalf;
    }

    /**
     * Reads 4 bytes, decodes them as the size, resizes the buffer to that size and fills it.
     * The result and what is left of the stream are those of `ReadFrame`, whatever the
     * buffer held before.
     */
    method Receive() returns (r: Result<seq<byte>, IoError>)
      modifies this, readHalf
      ensures FrameRead(r, readHalf.pending) == ReadFrame(old(readHalf.pending))
      ensures r.Ok? ==> buffer == r.value
      ensures |old(readHalf.pending)| < PREFIX_LEN ==> buffer == old(buffer)
      ensures |old(readHalf.pending)| >= PREFIX_LEN && r.Err? ==>
                var size := LeDecode(old(readHalf.pending)[..PREFIX_LEN]);
                var got := old(readHalf.pending)[PREFIX_LEN..];
                buffer == got + Resize(old(buffer), size)[|got|..]
    {
      ghost var stream := readHalf.pending;
      var sizeBytes, read := readHalf.ReadExact(PREFIX_LEN);
      if read.Err? {
        r := Err(read.error);
        return;
      }
      var size := LeDecode(sizeBytes);
      buffer := Resize(buffer, size);
      var got;
      got, read := readHalf.ReadExact(size);
      buffer := got + buffer[|got|..];
      if read.Err? {
        r := Err(read.error);
        return;
      }
      assert buffer == got;
      assert stream[PREFIX_LEN..][..size] == stream[PREFIX_LEN..PREFIX_LEN + size];
      assert stream[PREFIX_LEN..][size..] == stream[PREFIX_LEN + size..];
      r := Ok(buffer);
    }
  }
}
