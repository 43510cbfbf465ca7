# Length-prefixed framing stack of a peer-to-peer transport, in Dafny

This project models the connection stack of a peer-to-peer transport and proves what each
layer promises:

- **Unit layer.** `UnitSender` writes one frame: the payload length as a 4-byte little-endian
  `u32`, then the payload. `UnitReceiver` reads the 4 bytes, resizes its reusable buffer to the
  decoded size and fills it exactly.
- **Plain sender.** It serialises a message into a scratch buffer it appends to, and writes that
  buffer as one frame. It clears the buffer only after a successful send.
- **Secure sender and receiver.** They hold a settings record, a scratch buffer and one half of a
  cryptographic channel. Each message is sealed by encryption (`send`/`receive`) or by a MAC only
  (`send_plain`/`receive_plain`) and travels as one unit frame. Each operation is bounded by an
  optional timeout.
- **Connection settings.** An optional send timeout and an optional receive timeout, split into a
  sender half and a receiver half. Every default is "no timeout".
- **Context registration.** On a connect or listen dispatcher, a context name is a single-owner
  lease. Registering a live name panics, and dropping the handle frees the name.

How the environment is modelled:

- **Write half.** A socket's write half (`Sockets.WriteHalf`) records the bytes the peer accepted
  and how many more it will accept before the connection breaks. `write_all` writes what fits and
  fails with `BrokenPipe` if that is not everything.
- **Read half.** A read half (`Sockets.ReadHalf`) holds the bytes the peer sent; the stream ends
  after them. `read_exact` fails with `UnexpectedEof` when too few bytes are left, and consumes
  them.
- **Time.** Time is abstract. Each secure operation takes the latency the wrapped I/O would need.
  The timeout elapses when a duration is configured and the latency exceeds it (`Timing.Elapses`).
- **Channel.** The cryptographic channel and the serialisation codec are function values.
  `Channel.Matches` states the round-trip assumption: opening what the peer sealed gives the
  message back.

The plain sender has no timeout and no `configure`; timeouts exist only in the secure layer.

## Model

| member | source | states |
|---|---|---|
| `Framing.LeEncode` | src/net/unit_sender.rs:22 | `u32::to_le_bytes` gives exactly `width` bytes; `LeDecodeEncode` and `LeEncodeDecode` prove it is the inverse of `LeDecode` |
| `Framing.LeDecode` | src/net/unit_receiver.rs:30 | the little-endian value of `b` is below 256^len(b), so 4 bytes always decode to a `u32` |
| `Framing.LeDecodeEncode` | src/net/unit_receiver.rs:30 | decoding the little-endian encoding of any `n` that fits in the width gives back `n` |
| `Framing.LeEncodeDecode` | src/net/unit_sender.rs:22 | encoding the decoded value of any byte string gives back the same bytes, so the 4-byte prefix and its `u32` value are a bijection |
| `Framing.AsU32` | src/net/unit_sender.rs:22 | `len as u32` is below 2^32 and leaves every length below 2^32 unchanged |
| `Framing.SizePrefix` | src/net/unit_sender.rs:22 | the prefix is 4 bytes, and it decodes to the length modulo 2^32 |
| `Framing.PrefixTruncates` | src/net/unit_sender.rs:22 | a length of 2^32 or more is written truncated and does not decode to itself |
| `Framing.Frame` | src/net/unit_sender.rs:21-27 | a frame is 4 bytes longer than its payload, starts with the size prefix of the payload's length and ends with the payload |
| `Framing.AcceptedFrame` | src/net/unit_sender.rs:24-25 | a write half with fewer than 4 bytes of room takes only part of the prefix and no payload; otherwise it takes the whole prefix, then as much payload as fits |
| `Framing.ReadFrame` | src/net/unit_receiver.rs:27-36 | a read succeeds exactly when 4 prefix bytes and then the decoded number of payload bytes are available; on success the payload is exactly as long as the decoded prefix and the stream was the payload's frame followed by the rest; on failure it is `UnexpectedEof` and the stream is used up |
| `Framing.FrameRoundTrip` | src/net/unit_receiver.rs:27-36 | reading a stream that starts with the frame of a payload below 2^32 bytes returns that payload and leaves exactly the rest |
| `Framing.ReadFrames` | src/net/unit_receiver.rs:27-36 | a successful run of `count` frame reads yields `count` payloads |
| `Framing.FramesRoundTrip` | src/net/unit_sender.rs:21-27 | any number of frames sent one after another are read back one after another, in order and unchanged |
| `Framing.Resize` | src/net/unit_receiver.rs:32 | `Vec::resize(n, 0)` gives `n` bytes: the old bytes where they exist, zeros after |
| `Sockets.WriteHalf.WriteAll` | src/net/unit_sender.rs:24 | `write_all` appends the part of the data the peer accepts and succeeds exactly when that is all of it |
| `Sockets.ReadHalf.ReadExact` | src/net/unit_receiver.rs:29 | `read_exact(n)` takes the next `n` bytes off the front of the stream, or fails with `UnexpectedEof` after consuming what was left |
| `UnitSending.UnitSender.constructor` | src/net/unit_sender.rs:13-15 | the sender owns the given write half |
| `UnitSending.UnitSender.WriteHalfRef` | src/net/unit_sender.rs:17-19 | the accessor returns the owned write half and modifies nothing |
| `UnitSending.UnitSender.Send` | src/net/unit_sender.rs:21-27 | the write half gets the frame of `msg` appended, as far as it accepts; earlier contents stay as a prefix; the send succeeds exactly when the whole frame fits; a prefix that does not fit is followed by no payload byte |
| `UnitReceiving.UnitReceiver.constructor` | src/net/unit_receiver.rs:16-21 | the receiver owns the given read half and starts with an empty buffer |
| `UnitReceiving.UnitReceiver.ReadHalfRef` | src/net/unit_receiver.rs:23-25 | the accessor returns the owned read half and modifies nothing |
| `UnitReceiving.UnitReceiver.Receive` | src/net/unit_receiver.rs:27-36 | the result and the remaining stream are those of `ReadFrame`, whatever the buffer held before; on success the buffer is exactly the payload; a failed prefix read leaves the buffer alone; a failed payload read leaves the resized buffer with the bytes that did arrive at its front |
| `PlainSending.PlainSender.constructor` | src/net/plain_sender.rs:24-29 | a new plain sender owns the write half and has an empty buffer |
| `PlainSending.PlainSender.SendHalfRef` | src/net/plain_sender.rs:31-33 | the accessor returns the owned write half and modifies nothing |
| `PlainSending.PlainSender.Send` | src/net/plain_sender.rs:35-55 | a serialisation failure is `SerializeFailed`, with nothing written and the buffer unchanged; otherwise the frame of old buffer plus serialisation is written as far as it fits, and the peer's remaining room shrinks by what was written; the send succeeds exactly when the whole frame fits; a failed write is `WriteFailed` and keeps the buffer; a success empties it; from an empty buffer the payload is exactly the serialisation |
| `PlainSending.PlainSender.WriteBuffer` | src/net/plain_sender.rs:45-50 | the size prefix and then the buffer are written as one frame, as far as the peer's room allows; the write succeeds exactly when the whole frame fits, and a failure is `WriteFailed(BrokenPipe)` |
| `PlainSending.PlainSender.SendSize` | src/net/plain_sender.rs:57-69 | writes the 4-byte prefix of `size as u32`; failure is `WriteFailed` |
| `Settings.ConnectionSettings.Split` | src/net/connection_settings.rs:21-30 | the sender half carries the send timeout, the receiver half the receive timeout, and joining the halves gives back the original settings |
| `Settings.ConnectionSettings.SendTimeout` | src/net/connection_settings.rs:32-34 | the getter returns the stored send timeout |
| `Settings.ConnectionSettings.ReceiveTimeout` | src/net/connection_settings.rs:36-38 | the getter returns the stored receive timeout |
| `Settings.SplitOfJoin` | src/net/connection_settings.rs:21-30 | splitting joined halves gives back the same halves, so `split` loses nothing in either direction |
| `Settings.DefaultConnectionSettings` | src/net/connection_settings.rs:11-18 | both default timeouts are `None` |
| `Settings.DefaultSenderSettings` | src/net/sender_settings.rs:10-17 | the default equals the sender half of the default connection settings, so its send timeout is `None` |
| `Settings.DefaultReceiverSettings` | src/net/receiver_settings.rs:10-17 | the default equals the receiver half of the default connection settings, so its receive timeout is `None` |
| `Settings.DefaultsNeverElapse` | src/net/sender_settings.rs:13-15 | with the default settings no send and no receive ever times out |
| `SecureSending.SecureSender.constructor` | src/net/secure_sender.rs:18-29 | stores the unit sender, channel and settings, and starts with an empty send buffer |
| `SecureSending.SecureSender.Configure` | src/net/secure_sender.rs:31-33 | replaces the settings and leaves the buffer, unit sender and channel unchanged |
| `SecureSending.SecureSender.Send` | src/net/secure_sender.rs:35-56 | after a successful encryption the buffer holds exactly the ciphertext, whatever it held before; an encryption failure is `EncryptFailed` and writes nothing; then an elapsed send timeout (the current settings) is `SendTimeout` and writes nothing; otherwise the frame of the ciphertext is written, and an I/O failure is `WriteFailed` |
| `SecureSending.SecureSender.SendPlain` | src/net/secure_sender.rs:58-79 | the same as `Send` with the MAC-tagged message; a MAC failure is `MacComputeFailed` and writes nothing |
| `SecureSending.SecureSender.SendSealed` | src/net/secure_sender.rs:42-55 | in either mode: a sealing failure is that mode's error and writes nothing; an elapsed send timeout is `SendTimeout` and writes nothing; otherwise the frame of the sealed bytes is written as far as it fits and the send succeeds exactly when it all fits |
| `SecureReceiving.SecureReceiver.constructor` | src/net/secure_receiver.rs:17-27 | stores the unit receiver, channel and settings |
| `SecureReceiving.SecureReceiver.Configure` | src/net/secure_receiver.rs:29-31 | replaces the settings only |
| `SecureReceiving.SecureReceiver.Receive` | src/net/secure_receiver.rs:33-50 | an elapsed receive timeout is `ReceiveTimeout` and reads nothing; otherwise one frame is read as `ReadFrame` says, and a read failure is `ReadFailed`; only a frame that was read is decrypted, and a decryption failure is `DecryptFailed`; otherwise the decrypted message is returned |
| `SecureReceiving.SecureReceiver.ReceivePlain` | src/net/secure_receiver.rs:52-71 | the same read path as `Receive`; a MAC verification failure is `MacVerifyFailed` |
| `SecureReceiving.SecureReceiver.ReceiveSealed` | src/net/secure_receiver.rs:37-49 | in either mode: an elapsed receive timeout is `ReceiveTimeout` and reads nothing; otherwise one frame is read as `ReadFrame` says, a read failure is `ReadFailed`, and a frame that was read is opened, failing with that mode's error |
| `Timing.Elapses` | src/net/secure_sender.rs:47-52 | no configured timeout never elapses; a configured one elapses when the operation's latency exceeds it |
| `Timing.SlowerElapses` | src/net/secure_receiver.rs:37-42 | an operation slower than one that timed out times out too |
| `Timing.LongerTimeoutElapsesLess` | src/net/secure_sender.rs:47-52 | a longer timeout gives up on an operation only if a shorter one does |
| `Dispatch.Dispatcher.constructor` | src/link/test/tests.rs:21 | a fresh dispatcher has no live context |
| `Dispatch.Dispatcher.Register` | src/link/test/tests.rs:18-25 | a name that is not live gets a fresh handle and becomes live; a live name panics with "called `register` twice for the same `context`" and changes nothing |
| `Dispatch.Dispatcher.Drop` | src/link/test/tests.rs:27-34 | dropping the live handle of a name removes that name and leaves every other registration as it was |
| `Dispatch.DoubleRegister` | src/link/test/tests.rs:18-43 | on a fresh connector or listener dispatcher the first registration of "Context 1" succeeds and the second panics with the double-register message |
| `Dispatch.RegisterAgain` | src/link/test/tests.rs:27-52 | on a fresh connector or listener dispatcher, registering, dropping and registering "Context 1" again succeeds both times, with a new handle |
| `RoundTrips.UnitTransfer` | src/net/unit_sender.rs:21-27 | a frame that fits the peer's room is sent, and the peer receives exactly `msg` when its length is below 2^32; a frame that does not fit is never received |
| `RoundTrips.UnitTransferTwice` | src/net/unit_sender.rs:24-25 | two frames sent on one connection are received in order and unchanged |
| `RoundTrips.PlainTransfer` | src/net/plain_sender.rs:42-54 | the frame from a fresh plain sender carries exactly the serialisation of the message; a serialisation failure sends nothing |
| `RoundTrips.PlainTransferTwice` | src/net/plain_sender.rs:42-54 | two plain sends from a fresh sender with room for both are received in order, each exactly its serialisation: the buffer is empty again after the first send |
| `RoundTrips.PlainSendAfterWriteFailure` | src/net/plain_sender.rs:45-52 | after a send that failed to write, the next send fails too, and the peer holds only the part of the first frame it accepted: the bytes left in the buffer never reach it |
| `RoundTrips.SecureTransfer` | src/net/secure_receiver.rs:37-49 | with matching channel halves, a sealing failure, a send timeout and a receive timeout are reported as such, and a message that was sent fits the `u32` prefix and is read in time comes back unchanged, in both modes |

## Left out

- `PlainSender::secure` (src/net/plain_sender.rs:71-76) is not modelled. It calls `SecureSender::new` with arguments that do not match that constructor's signature, so it belongs to an older version of the code.
- Timeouts: a send or receive that times out is modelled as doing no I/O. The real operation may have written or read part of a frame before its deadline. Callers must discard such a connection anyway.
- A peer that stops sending without closing the stream is modelled only through the latency given to the timeout. A read without a timeout that would wait forever is not modelled.
- Write failures come only from the peer's room running out. Other I/O errors (resets, interruptions) are not modelled separately.
- Write failures are permanent: a failed write leaves no room, so a plain send after `WriteFailed` fails again and writes nothing. A transient write error, after which the bytes kept in the buffer would be framed together with the next serialisation, is not modelled; `PlainSender.Send` does state that the buffer keeps those bytes.
- `SecureSending.SecureSender.Send`: the contents of the send buffer after a failed `encrypt_into` or `authenticate_into` are not stated, because the channel primitive is not part of this model.
- The channel primitive's internal nonce or sequence state is not modelled. Its two halves are fixed functions. The channel source is not part of this model.
- The plaintext that `decrypt_in_place` and `authenticate` leave in the receive buffer is not modelled. The next receive overwrites the whole buffer, and `UnitReceiver.Receive` proves its result does not depend on what the buffer held.
- `PlainSending.PlainSender.Send`: a `serialize_into` that fails after appending part of its output is modelled as leaving the buffer unchanged.
- Lengths assume a 64-bit `usize`, so `u32 as usize` is lossless. Only the `usize as u32` truncation is modelled.
- The dispatchers' routing of connections by context name, the handshake and the concurrent accept loop are not modelled. Their implementation is not part of this model. The tests `simple`, `stress` and `slow_loris` check network behaviour and concurrency.
- The rendezvous server and client are not modelled. Also left out: the hash wrapper over blake3 and bincode, and the asynchronous test harness in src/net/test/system.rs.
- Concurrency and the async runtime are not modelled. Each method runs to completion.
