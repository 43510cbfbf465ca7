/**
 * End-to-end transfers over one direction of a connection: the peer's read half holds exactly
 * the bytes this side's write half accepted. These state what each layer's send and receive
 * achieve together.
 */
module RoundTrips {
  import opened Wrappers
  import opened Sockets
  import opened Framing
  import opened Timing
  import opened Settings
  import opened Channel
  import opened UnitSending
  import opened UnitReceiving
  import opened PlainSending
  import opened SecureSending
  import opened SecureReceiving

  /** One unit frame: the peer receives `msg` whenever the whole frame was accepted. */
  method UnitTransfer(msg: seq<byte>, room: nat) returns (sent: Result<(), IoError>, received: Result<seq<byte>, IoError>)
    ensures sent.Ok? <==> PREFIX_LEN + |msg| <= room
    ensures sent.Ok? && |msg| < U32_RANGE ==> received == Ok(msg)
    ensures sent.Err? && |msg| < U32_RANGE ==> received == Err(UnexpectedEof)
  {
    var writeHalf := new WriteHalf(room);
    var sender := new UnitSender(writeHalf);
    sent := sender.Send(msg);
    assert writeHalf.sent == Accepted(Frame(msg), room);
    if sent.Err? && room >= PREFIX_LEN {
      AcceptedFrame(msg, room);
      assert writeHalf.sent[..PREFIX_LEN] == SizePrefix(|msg|);
    }
    var readHalf := new ReadHalf(writeHalf.sent);
    var receiver := new UnitReceiver(readHalf);
    received := receiver.Receive();
    if sent.Ok? && |msg| < U32_RANGE {
      FrameRoundTrip(msg, []);
      assert Frame(msg) + [] == Frame(msg);
    }
  }

  /** Two unit frames on one connection arrive in order, unchanged, and nothing is left over. */
  method UnitTransferTwice(first: seq<byte>, second: seq<byte>, room: nat)
    returns (received1: Result<seq<byte>, IoError>, received2: Result<seq<byte>, IoError>)
    requires |first| < U32_RANGE && |second| < U32_RANGE
    ensures 2 * PREFIX_LEN + |first| + |second| <= room ==> received1 == Ok(first) && received2 == Ok(second)
  {
    var writeHalf := new WriteHalf(room);
    var sender := new UnitSender(writeHalf);
    var sent1 := sender.Send(first);
    var sent2 := sender.Send(second);
    if 2 * PREFIX_LEN + |first| + |second| <= room {
      assert writeHalf.sent == Frame(first) + Frame(second);
    }
    var readHalf := new ReadHalf(writeHalf.sent);
    var receiver := new UnitReceiver(readHalf);
    received1 := receiver.Receive();
    received2 := receiver.Receive();
    if 2 * PREFIX_LEN + |first| + |second| <= room {
      FrameRoundTrip(first, Frame(second));
      FrameRoundTrip(second, []);
      assert Frame(second) + [] == Frame(second);
    }
  }

  /**
   * One plain send from a fresh sender: the peer's frame holds exactly the serialisation of
   * `message`; when serialisation fails nothing reaches the peer.
   */
  method PlainTransfer<M>(message: M, serialize: M -> Option<seq<byte>>, room: nat)
    returns (sent: Result<(), PlainConnectionError>, received: Result<seq<byte>, IoError>)
    ensures serialize(message).None? ==> sent == Err(SerializeFailed) && received == Err(UnexpectedEof)
    ensures sent.Ok? <==> serialize(message).Some? && PREFIX_LEN + |serialize(message).value| <= room
    ensures sent.Ok? && |serialize(message).value| < U32_RANGE ==> received == Ok(serialize(message).value)
  {
    var writeHalf := new WriteHalf(room);
    var sender := new PlainSender(writeHalf);
    sent := sender.Send(message, serialize);
    if sent.Ok? {
      assert [] + serialize(message).value == serialize(message).value;
      assert writeHalf.sent == Frame(serialize(message).value);
    }
    var readHalf := new ReadHalf(writeHalf.sent);
    var receiver := new UnitReceiver(readHalf);
    received := receiver.Receive();
    if sent.Ok? && |serialize(message).value| < U32_RANGE {
      FrameRoundTrip(serialize(message).value, []);
      assert Frame(serialize(message).value) + [] == Frame(serialize(message).value);
    }
  }

  /** Two plain sends from a fresh sender, with room for both: the peer receives both serialisations in order. */
  method PlainTransferTwice<M>(first: M, second: M, serialize: M -> Option<seq<byte>>, room: nat)
    returns (received1: Result<seq<byte>, IoError>, received2: Result<seq<byte>, IoError>)
    requires serialize(first).Some? && |serialize(first).value| < U32_RANGE
    requires serialize(second).Some? && |serialize(second).value| < U32_RANGE
    ensures 2 * PREFIX_LEN + |serialize(first).value| + |serialize(second).value| <= room ==>
              received1 == Ok(serialize(first).value) && received2 == Ok(serialize(second).value)
  {
    var a, b := serialize(first).value, serialize(second).value;
    var writeHalf := new WriteHalf(room);
    var sender := new PlainSender(writeHalf);
    ghost var fits := 2 * PREFIX_LEN + |a| + |b| <= room;
    var sent1 := sender.Send(first, serialize);
    if fits {
      assert [] + a == a;
      assert writeHalf.sent == Frame(a) && writeHalf.room == room - |Frame(a)|;
      assert sent1.Ok? && sender.buffer == [];
    }
    var sent2 := sender.Send(second, serialize);
    if fits {
      assert [] + b == b;
      assert writeHalf.sent == Frame(a) + Frame(b);
    }
    var readHalf := new ReadHalf(writeHalf.sent);
    var receiver := new UnitReceiver(readHalf);
    received1 := receiver.Receive();
    received2 := receiver.Receive();
    if fits {
      FrameRoundTrip(a, Frame(b));
      FrameRoundTrip(b, []);
      assert Frame(b) + [] == Frame(b);
    }
  }

  /**
   * A plain send after a failed write: the failed write used up the peer's room, so the retry
   * fails too and writes nothing. The bytes the first send left in the buffer never reach the peer.
   */
  method PlainSendAfterWriteFailure<M>(first: M, second: M, serialize: M -> Option<seq<byte>>, room: nat)
    returns (sent1: Result<(), PlainConnectionError>, sent2: Result<(), PlainConnectionError>, wire: seq<byte>)
    ensures sent1.Err? && sent1.error.WriteFailed? && serialize(first).Some? && serialize(second).Some? ==>
              && sent2 == Err(PlainConnectionError.WriteFailed(BrokenPipe))
              && wire == Accepted(Frame(serialize(first).value), room)
  {
    var writeHalf := new WriteHalf(room);
    var sender := new PlainSender(writeHalf);
    sent1 := sender.Send(first, serialize);
    if sent1.Err? && sent1.error.WriteFailed? {
      assert [] + serialize(first).value == serialize(first).value;
    }
    sent2 := sender.Send(second, serialize);
    wire := writeHalf.sent;
  }

  /**
   * One secure transfer in `mode` between matching channel halves, with each side's half of
   * `settings`: the peer gets `message` back whenever the frame was sent, fits the `u32`
   * prefix and is read before the receive timeout.
   */
  method SecureTransfer<M(!new)>(
    mode: Mode, message: M, channelSender: ChannelSender<M>, channelReceiver: ChannelReceiver<M>,
    settings: ConnectionSettings, room: nat, sendLatency: Duration, receiveLatency: Duration)
    returns (sent: Result<(), SecureConnectionError>, received: Result<M, SecureConnectionError>)
    requires Matches(channelSender, channelReceiver)
    ensures Seal(mode, channelSender, message).None? ==> sent == Err(SealFailure(mode))
    ensures Seal(mode, channelSender, message).Some? && Elapses(settings.sendTimeout, sendLatency) ==>
              sent == Err(SendTimeout)
    ensures sent.Ok? ==>
              && Seal(mode, channelSender, message).Some?
              && !Elapses(settings.sendTimeout, sendLatency)
              && PREFIX_LEN + |Seal(mode, channelSender, message).value| <= room
    ensures Elapses(settings.receiveTimeout, receiveLatency) ==> received == Err(ReceiveTimeout)
    ensures && sent.Ok?
            && |Seal(mode, channelSender, message).value| < U32_RANGE
            && !Elapses(settings.receiveTimeout, receiveLatency)
            ==> received == Ok(message)
  {
    var (senderSettings, receiverSettings) := settings.Split();
    var writeHalf := new WriteHalf(room);
    var unitSender := new UnitSender(writeHalf);
    var sender := new SecureSender(unitSender, channelSender, senderSettings);
    if mode == Confidential {
      sent := sender.Send(message, sendLatency);
    } else {
      sent := sender.SendPlain(message, sendLatency);
    }
    if sent.Ok? {
      assert writeHalf.sent == Frame(Seal(mode, channelSender, message).value);
    }
    var readHalf := new ReadHalf(writeHalf.sent);
    var unitReceiver := new UnitReceiver(readHalf);
    var receiver := new SecureReceiver(unitReceiver, channelReceiver, receiverSettings);
    if mode == Confidential {
      received := receiver.Receive(receiveLatency);
    } else {
      received := receiver.ReceivePlain(receiveLatency);
    }
    if sent.Ok? && |Seal(mode, channelSender, message).value| < U32_RANGE {
      var sealed := Seal(mode, channelSender, message).value;
      FrameRoundTrip(sealed, []);
      assert Frame(sealed) + [] == Frame(sealed);
    }
  }
}
