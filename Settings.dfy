/**
 * Connection settings: a send and a receive timeout, each optional, split into the halves the
 * sender and the receiver of a connection own. Every default is "no timeout".
 */
module Settings {
  import opened Wrappers
  import opened Timing

  datatype SenderSettings = SenderSettings(sendTimeout: Option<Duration>)

  datatype ReceiverSettings = ReceiverSettings(receiveTimeout: Option<Duration>)

  datatype ConnectionSettings = ConnectionSettings(sendTimeout: Option<Duration>, receiveTimeout: Option<Duration>)
  {
    /** The sender's half and the receiver's half; together they keep everything. */
    function Split(): (halves: (SenderSettings, ReceiverSettings))
      ensures halves.0.sendTimeout == sendTimeout
      ensures halves.1.receiveTimeout == receiveTimeout
      ensures Join(halves.0, halves.1) == this
    {
      (SenderSettings(sendTimeout), ReceiverSettings(receiveTimeout))
    }

    /** The stored send timeout. */
    function SendTimeout(): (t: Option<Duration>)
      ensures t == sendTimeout
    {
      sendTimeout
    }

    /** The stored receive timeout. */
    function ReceiveTimeout(): (t: Option<Duration>)
      ensures t == receiveTimeout
    {
      receiveTimeout
    }
  }

  /** The settings whose split gives back `sender` and `receiver`. */
  function Join(sender: SenderSettings, receiver: ReceiverSettings): ConnectionSettings
  {
    ConnectionSettings(sender.sendTimeout, receiver.receiveTimeout)
  }

  /** Splitting joined halves gives back the same halves, so a split is a bijection. */
  lemma SplitOfJoin(sender: SenderSettings, receiver: ReceiverSettings)
    ensures Join(sender, receiver).Split() == (sender, receiver)
  {
  }

  /** `ConnectionSettings::default()`. */
  function DefaultConnectionSettings(): (c: ConnectionSettings)
    ensures c.sendTimeout == None && c.receiveTimeout == None
  {
    ConnectionSettings(None, None)
  }

  /** `SenderSettings::default()`, taken from the default connection settings. */
  function DefaultSenderSettings(): (s: SenderSettings)
    ensures s == DefaultConnectionSettings().Split().0
    ensures s.sendTimeout == None
  {
    SenderSettings(DefaultConnectionSettings().SendTimeout())
  }

  /** `ReceiverSettings::default()`, taken from the default connection settings. */
  function DefaultReceiverSettings(): (s: ReceiverSettings)
    ensures s == DefaultConnectionSettings().Split().1
    ensures s.receiveTimeout == None
  {
    ReceiverSettings(DefaultConnectionSettings().ReceiveTimeout())
  }

  /** With the default settings no operation ever times out, in either direction. */
  lemma DefaultsNeverElapse(latency: Duration)
    ensures !Elapses(DefaultSenderSettings().sendTimeout, latency)
    ensures !Elapses(DefaultReceiverSettings().receiveTimeout, latency)
  {
  }
}
