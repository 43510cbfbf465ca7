/**
 * The wire format shared by the unit sender and receiver: a frame is the payload's length
 * as a 4-byte little-endian `u32`, followed by the payload.
 */
module Framing {
  import opened Wrappers
  import opened Sockets

  /** The number of bytes in the length prefix, `size_of::<u32>()`. */
  const PREFIX_LEN: nat := 4

  /** The number of `u32` values. */
  const U32_RANGE: nat := 0x1_0000_0000

  /** 256 to the power `k`: the number of values `k` bytes can hold. */
  function Pow256(k: nat): (p: nat)
    ensures p >= 1
  {
    if k == 0 then 1 else 256 * Pow256(k - 1)
  }

  /** `width` bytes holding `n` least significant byte first. */
  function LeEncode(n: nat, width: nat): (b: seq<byte>)
    ensures |b| == width
  {
    if width == 0 then [] else [(n % 256) as byte] + LeEncode(n / 256, width - 1)
  }

  /** The number whose little-endian bytes are `b`. */
  function LeDecode(b: seq<byte>): (n: nat)
    ensures n < Pow256(|b|)
  {
    if |b| == 0 then 0 else b[0] as nat + 256 * LeDecode(b[1..])
  }

  /** Decoding undoes encoding for every number that fits in the width. */
  lemma {:induction false} LeDecodeEncode(n: nat, width: nat)
    requires n < Pow256(width)
    ensures LeDecode(LeEncode(n, width)) == n
  {
    if width > 0 {
      var b := LeEncode(n, width);
      assert b[1..] == LeEncode(n / 256, width - 1);
      LeDecodeEncode(n / 256, width - 1);
    }
  }

  /** Encoding undoes decoding: every byte string is the encoding of exactly one number. */
  lemma {:induction false} LeEncodeDecode(b: seq<byte>)
    ensures LeEncode(LeDecode(b), |b|) == b
  {
    if |b| > 0 {
      var d := LeDecode(b[1..]);
      var n := b[0] as nat + 256 * d;
      assert n % 256 == b[0] as nat && n / 256 == d;
      LeEncodeDecode(b[1..]);
      assert b == [b[0]] + b[1..];
    }
  }

  /** `n as u32` for a `usize` length: the value modulo 2^32. */
  function AsU32(n: nat): (r: nat)
    ensures r < U32_RANGE
    ensures n < U32_RANGE ==> r == n
  {
    n % U32_RANGE
  }

  /** `(size as u32).to_le_bytes()`. */
  function SizePrefix(size: nat): (p: seq<byte>)
    ensures |p| == PREFIX_LEN
    ensures LeDecode(p) == AsU32(size)
  {
    assert Pow256(4) == U32_RANGE;
    LeDecodeEncode(AsU32(size), 4);
    LeEncode(AsU32(size), 4)
  }

  /** The bytes one unit send puts on the wire for `payload`. */
  function Frame(payload: seq<byte>): (f: seq<byte>)
    ensures |f| == PREFIX_LEN + |payload|
    ensures f[..PREFIX_LEN] == SizePrefix(|payload|)
    ensures f[PREFIX_LEN..] == payload
  {
    SizePrefix(|payload|) + payload
  }

  /** What a write half with `room` bytes left takes of a frame: prefix first, then payload. */
  lemma AcceptedFrame(payload: seq<byte>, room: nat)
    ensures room < PREFIX_LEN ==> Accepted(Frame(payload), room) == Accepted(SizePrefix(|payload|), room)
    ensures room >= PREFIX_LEN ==>
              Accepted(Frame(payload), room) == SizePrefix(|payload|) + Accepted(payload, room - PREFIX_LEN)
  {
  }

  /** A length of 2^32 or more is written truncated, so it does not decode to itself. */
  lemma PrefixTruncates(size: nat)
    requires size >= U32_RANGE
    ensures LeDecode(SizePrefix(size)) == size % U32_RANGE
    ensures LeDecode(SizePrefix(size)) != size
  {
  }

  /** What one frame read takes off the front of a stream: the payload or a failure, and what is left. */
  datatype FrameRead = FrameRead(result: Result<seq<byte>, IoError>, rest: seq<byte>)

  /**
   * Reading one frame from a stream: 4 prefix bytes, then as many payload bytes as they
   * decode to. A stream that ends early fails with `UnexpectedEof` and is used up.
   */
  function ReadFrame(s: seq<byte>): (r: FrameRead)
    ensures r.result.Ok? <==> |s| >= PREFIX_LEN && |s| - PREFIX_LEN >= LeDecode(s[..PREFIX_LEN])
    ensures r.result.Ok? ==> |r.result.value| == LeDecode(s[..PREFIX_LEN])
    ensures r.result.Ok? ==> s == Frame(r.result.value) + r.rest
    ensures r.result.Err? ==> r.result.error == UnexpectedEof && r.rest == []
  {
    if |s| < PREFIX_LEN then FrameRead(Err(UnexpectedEof), [])
    else
      var size := LeDecode(s[..PREFIX_LEN]);
      if |s| - PREFIX_LEN < size then FrameRead(Err(UnexpectedEof), [])
      else
        assert Pow256(4) == U32_RANGE;
        LeEncodeDecode(s[..PREFIX_LEN]);
        assert SizePrefix(size) == s[..PREFIX_LEN];
        assert s == s[..PREFIX_LEN] + s[PREFIX_LEN..PREFIX_LEN + size] + s[PREFIX_LEN + size..];
        FrameRead(Ok(s[PREFIX_LEN..PREFIX_LEN + size]), s[PREFIX_LEN + size..])
  }

  /** Reading from a stream that starts with the frame of `payload` gives `payload` and leaves the rest. */
  lemma FrameRoundTrip(payload: seq<byte>, rest: seq<byte>)
    requires |payload| < U32_RANGE
    ensures ReadFrame(Frame(payload) + rest) == FrameRead(Ok(payload), rest)
  {
    var s := Frame(payload) + rest;
    assert s[..PREFIX_LEN] == SizePrefix(|payload|);
    assert s[PREFIX_LEN..PREFIX_LEN + |payload|] == payload;
    assert s[PREFIX_LEN + |payload|..] == rest;
  }

  /** The stream that successive unit sends of `payloads` produce. */
  function Frames(payloads: seq<seq<byte>>): (s: seq<byte>)
  {
    if payloads == [] then [] else Frame(payloads[0]) + Frames(payloads[1..])
  }

  /** The payloads of `count` successive frame reads, or the first failure. */
  datatype FramesRead = FramesRead(result: Result<seq<seq<byte>>, IoError>, rest: seq<byte>)

  function ReadFrames(s: seq<byte>, count: nat): (r: FramesRead)
    ensures r.result.Ok? ==> |r.result.value| == count
  {
    if count == 0 then FramesRead(Ok([]), s)
    else
      var first := ReadFrame(s);
      match first.result
      case Err(e) => FramesRead(Err(e), first.rest)
      case Ok(payload) =>
        var others := ReadFrames(first.rest, count - 1);
        match others.result
        case Err(e) => FramesRead(Err(e), others.rest)
        case Ok(payloads) => FramesRead(Ok([payload] + payloads), others.rest)
  }

  /** Frames sent one after another are received one after another, in order, and unchanged. */
  lemma {:induction false} FramesRoundTrip(payloads: seq<seq<byte>>, rest: seq<byte>)
    requires forall i :: 0 <= i < |payloads| ==> |payloads[i]| < U32_RANGE
    ensures ReadFrames(Frames(payloads) + rest, |payloads|) == FramesRead(Ok(payloads), rest)
  {
    if payloads != [] {
      var tail := payloads[1..];
      assert Frames(payloads) + rest == Frame(payloads[0]) + (Frames(tail) + rest);
      FrameRoundTrip(payloads[0], Frames(tail) + rest);
      FramesRoundTrip(tail, rest);
      assert [payloads[0]] + tail == payloads;
    }
  }

  /** `Vec::resize(n, 0)`: cut to `n` bytes, or padded with zeros up to `n`. */
  function Resize(b: seq<byte>, n: nat): (r: seq<byte>)
    ensures |r| == n
    ensures forall i :: 0 <= i < n ==> r[i] == (if i < |b| then b[i] else 0)
  {
    if n <= |b| then b[..n] else b + seq(n - |b|, _ => 0)
  }
}
