/**
 * The two halves of a socket, as the framing layers see them.
 *
 * A write half records every byte the peer has accepted, in order, and how many more
 * bytes it will accept before the connection breaks. A read half holds the bytes the
 * peer has sent and not yet been read; the stream ends after them.
 */
module Sockets {
  import opened Wrappers

  newtype byte = x: int | 0 <= x < 256

  /** The I/O failures the halves can report. */
  datatype IoError =
    | UnexpectedEof   // `read_exact` reached the end of the stream
    | BrokenPipe      // the peer stopped accepting bytes

  function Min(a: nat, b: nat): nat { if a <= b then a else b }

  /** The part of `data` that a write half with `room` bytes left accepts. */
  function Accepted(data: seq<byte>, room: nat): (a: seq<byte>)
    ensures a <= data
    ensures |a| == Min(|data|, room)
    ensures |data| <= room ==> a == data
  {
    data[..Min(|data|, room)]
  }

  class WriteHalf {
    var sent: seq<byte>
    var room: nat

    constructor (room: nat)
      ensures sent == [] && this.room == room
    {
      sent := [];
      this.room := room;
    }

    /** `write_all`: writes as much of `data` as the peer accepts; fails if that is not all of it. */
    method WriteAll(data: seq<byte>) returns (r: Result<(), IoError>)
      modifies this
      ensures sent == old(sent) + Accepted(data, old(room))
      ensures room == old(room) - |Accepted(data, old(room))|
      ensures r.Ok? <==> |data| <= old(room)
      ensures r.Err? ==> r.error == BrokenPipe
    {
      var taken := Accepted(data, room);
      sent := sent + taken;
      room := room - |taken|;
      r := if |taken| == |data| then Ok(()) else Err(BrokenPipe);
    }
  }

  class ReadHalf {
    var pending: seq<byte>

    constructor (pending: seq<byte>)
      ensures this.pending == pending
    {
      this.pending := pending;
    }

    /**
     * `read_exact` of `n` bytes. On success `got` is the next `n` bytes; at the end of the
     * stream `got` is whatever was left, which is consumed, and the read fails.
     */
    method ReadExact(n: nat) returns (got: seq<byte>, r: Result<(), IoError>)
      modifies this
      ensures r.Ok? <==> n <= |old(pending)|
      ensures r.Ok? ==> got == old(pending)[..n] && pending == old(pending)[n..]
      ensures r.Err? ==> got == old(pending) && pending == [] && r.error == UnexpectedEof
    {
      if n <= |pending| {
        got := pending[..n];
        pending := pending[n..];
        r := Ok(());
      } else {
        got := pending;
        pending := [];
        r := Err(UnexpectedEof);
      }
    }
  }
}
