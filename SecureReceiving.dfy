/**
 * The secure receiver: reads one unit frame, bounded by the configured receive timeout, and
 * opens it with the channel.
 */
module SecureReceiving {
  import opened Wrappers
  import opened Sockets
  import opened Framing
  import opened Timing
  import opened Settings
  import opened Channel
  import opened UnitReceiving

  class SecureReceiver<M> {
    const unitReceiver: UnitReceiver
    const channel: ChannelReceiver<M>
    var settings: ReceiverSettings

    constructor (unitReceiver: UnitReceiver, channel: ChannelReceiver<M>, settings: ReceiverSettings)
      ensures this.unitReceiver == unitReceiver && this.channel == channel && this.settings == settings
    {
      this.unitReceiver := unitReceiver;
      this.channel := channel;
      this.settings := settings;
    }

    /** Replaces the settings, which the next receive uses; nothing else changes. */
    method Configure(settings: ReceiverSettings)
      modifies this
      ensures this.settings == settings
    {
      this.settings := settings;
    }

    /**
     * The outcome of a receive in `mode` whose read needs `latency`: an elapsed receive
     * timeout first, before anything is read; then the frame read, whose failure is a
     * `ReadFailed`; only a frame that was read is opened, and failing to open it is the
     * mode's crypto error.
     */
    twostate predicate ReceivedAs(mode: Mode, latency: Duration, new r: Result<M, SecureConnectionError>)
      reads this, unitReceiver, unitReceiver.readHalf
    {
      var h := unitReceiver.readHalf;
      if Elapses(settings.receiveTimeout, latency) then
        && r == Err(ReceiveTimeout)
        && h.pending == old(h.pending) && unitReceiver.buffer == old(unitReceiver.buffer)
      else
        var frame := ReadFrame(old(h.pending));
        && h.pending == frame.rest
        && match frame.result
           case Err(e) => r == Err(ReadFailed(e))
           case Ok(payload) =>
             r == match Open(mode, channel, payload)
                     case Some(m) => Ok(m)
                     case None => Err(OpenFailure(mode))
    }

    /** `receive`: reads a frame and decrypts it. */
    method Receive(latency: Duration) returns (r: Result<M, SecureConnectionError>)
      modifies unitReceiver, unitReceiver.readHalf
      ensures ReceivedAs(Confidential, latency, r)
    {
      r := ReceiveSealed(Confidential, latency);
    }

    /** `receive_plain`: reads a frame and checks its MAC. */
    method ReceivePlain(latency: Duration) returns (r: Result<M, SecureConnectionError>)
      modifies unitReceiver, unitReceiver.readHalf
      ensures ReceivedAs(IntegrityOnly, latency, r)
    {
      r := ReceiveSealed(IntegrityOnly, latency);
    }

    /** The shared body of `receive` and `receive_plain`: read under the timeout, then open in `mode`. */
    method ReceiveSealed(mode: Mode, latency: Duration) returns (r: Result<M, SecureConnectionError>)
      modifies unitReceiver, unitReceiver.readHalf
      ensures ReceivedAs(mode, latency, r)
    {
      if Elapses(settings.receiveTimeout, latency) {
        return Err(ReceiveTimeout);
      }
      var read := unitReceiver.Receive();
      if read.Err? {
        return Err(ReadFailed(read.error));
      }
      var message := Open(mode, channel, read.value);
      r := if message.Some? then Ok(message.value) else Err(OpenFailure(mode));
    }
  }
}
