/**
 * The cryptographic channel between two peers, reduced to its interface: the sending side
 * turns a message into wire bytes, encrypted or only authenticated; the receiving side turns
 * wire bytes back into a message, or fails. The primitive itself is not modelled; its two sides
 * are given as functions, and `Matches` states what a correct pair promises.
 */
module Channel {
  import opened Wrappers
  import opened Sockets

  /** `encrypt_into` (serialise, then encrypt) and `authenticate_into` (serialise, then attach a MAC). */
  datatype ChannelSender<!M> = ChannelSender(
    encrypt: M -> Option<seq<byte>>,
    authenticate: M -> Option<seq<byte>>)

  /** `decrypt_in_place` and `authenticate` (check the MAC, then deserialise). */
  datatype ChannelReceiver<M> = ChannelReceiver(
    decrypt: seq<byte> -> Option<M>,
    verify: seq<byte> -> Option<M>)

  /** The two ways a secure connection transfers a message. */
  datatype Mode = Confidential | IntegrityOnly

  /** The peers' channel halves belong together: opening what was sealed gives the message back. */
  ghost predicate Matches<M(!new)>(sender: ChannelSender<M>, receiver: ChannelReceiver<M>)
  {
    && (forall m :: sender.encrypt(m).Some? ==> receiver.decrypt(sender.encrypt(m).value) == Some(m))
    && (forall m :: sender.authenticate(m).Some? ==> receiver.verify(sender.authenticate(m).value) == Some(m))
  }

  function Seal<M>(mode: Mode, sender: ChannelSender<M>, message: M): Option<seq<byte>>
  {
    match mode
    case Confidential => sender.encrypt(message)
    case IntegrityOnly => sender.authenticate(message)
  }

  function Open<M>(mode: Mode, receiver: ChannelReceiver<M>, bytes: seq<byte>): Option<M>
  {
    match mode
    case Confidential => receiver.decrypt(bytes)
    case IntegrityOnly => receiver.verify(bytes)
  }

  /** The secure layer's errors. */
  datatype SecureConnectionError =
    | EncryptFailed
    | MacComputeFailed
    | SendTimeout
    | WriteFailed(cause: IoError)
    | ReceiveTimeout
    | ReadFailed(cause: IoError)
    | DecryptFailed
    | MacVerifyFailed

  /** The error a send reports when the channel cannot seal the message. */
  function SealFailure(mode: Mode): SecureConnectionError
  {
    match mode
    case Confidential => EncryptFailed
    case IntegrityOnly => MacComputeFailed
  }

  /** The error a receive reports when the channel cannot open the frame. */
  function OpenFailure(mode: Mode): SecureConnectionError
  {
    match mode
    case Confidential => DecryptFailed
    case IntegrityOnly => MacVerifyFailed
  }
}
