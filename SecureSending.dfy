/**
 * The secure sender: seals each message with the channel into a scratch buffer, cleared first,
 * and sends the buffer as one unit frame, bounded by the configured send timeout.
 */
module SecureSending {
  import opened Wrappers
  import opened Sockets
  import opened Framing
  import opened Timing
  import opened Settings
  import opened Channel
  import opened UnitSending

  class SecureSender<!M> {
    const unitSender: UnitSender
    var sendBuffer: seq<byte>
    const channel: ChannelSender<M>
    var settings: SenderSettings

    constructor (unitSender: UnitSender, channel: ChannelSender<M>, settings: SenderSettings)
      ensures this.unitSender == unitSender && this.channel == channel && this.settings == settings
      ensures sendBuffer == []
    {
      this.unitSender := unitSender;
      sendBuffer := [];
      this.channel := channel;
      this.settings := settings;
    }

    /** Replaces the settings, which the next send uses; nothing else changes. */
    method Configure(settings: SenderSettings)
      modifies this
      ensures this.settings == settings
      ensures sendBuffer == old(sendBuffer)
    {
      this.settings := settings;
    }

    /**
     * The outcome of sealing `message` in `mode` and sending it with an operation that needs
     * `latency`: a sealing failure first, before anything is written; then an elapsed send
     * timeout; then the unit send, whose I/O failure is a `WriteFailed`. After a successful
     * seal the buffer holds exactly the sealed bytes, whatever it held before.
     */
    twostate predicate SentAs(mode: Mode, message: M, latency: Duration, new r: Result<(), SecureConnectionError>)
      reads this, unitSender.writeHalf
    {
      var w := unitSender.writeHalf;
      && settings == old(settings)
      && match Seal(mode, channel, message)
         case None =>
           && r == Err(SealFailure(mode))
           && w.sent == old(w.sent) && w.room == old(w.room)
         case Some(sealed) =>
           && sendBuffer == sealed
           && if Elapses(old(settings).sendTimeout, latency) then
                && r == Err(SendTimeout)
                && w.sent == old(w.sent) && w.room == old(w.room)
              else
                && w.sent == old(w.sent) + Accepted(Frame(sealed), old(w.room))
                && w.room == old(w.room) - |Accepted(Frame(sealed), old(w.room))|
                && r == (if |Frame(sealed)| <= old(w.room) then Ok(()) else Err(WriteFailed(BrokenPipe)))
    }

    /** `send`: encrypts `message` and sends it. */
    method Send(message: M, latency: Duration) returns (r: Result<(), SecureConnectionError>)
      modifies this, unitSender.writeHalf
      ensures SentAs(Confidential, message, latency, r)
    {
      r := SendSealed(Confidential, message, latency);
    }

    /** `send_plain`: attaches a MAC to `message` and sends it. */
    method SendPlain(message: M, latency: Duration) returns (r: Result<(), SecureConnectionError>)
      modifies this, unitSender.writeHalf
      ensures SentAs(IntegrityOnly, message, latency, r)
    {
      r := SendSealed(IntegrityOnly, message, latency);
    }

    /** The shared body of `send` and `send_plain`: clear, seal in `mode`, then send under the timeout. */
    method SendSealed(mode: Mode, message: M, latency: Duration) returns (r: Result<(), SecureConnectionError>)
      modifies this, unitSender.writeHalf
      ensures SentAs(mode, message, latency, r)
    {
      sendBuffer := [];
      var sealed := Seal(mode, channel, message);
      if sealed.None? {
        return Err(SealFailure(mode));
      }
      sendBuffer := sendBuffer + sealed.value;
      if Elapses(settings.sendTimeout, latency) {
        return Err(SendTimeout);
      }
      var sent := unitSender.Send(sendBuffer);
      r := if sent.Ok? then Ok(()) else Err(WriteFailed(sent.error));
    }
  }
}
