/**
 * The optional timeout that bounds one send or receive. Time is abstract: an operation is
 * described by how long it would take to complete (`latency`), and the timeout gives up on it
 * when that exceeds the configured duration. No configured duration means no deadline.
 */
module Timing {
  import opened Wrappers

  /** A duration in abstract ticks; only comparisons between durations matter. */
  type Duration = nat

  /** Whether `optional_timeout(timeout, f)` gives up on an `f` that needs `latency`. */
  function Elapses(timeout: Option<Duration>, latency: Duration): (elapsed: bool)
    ensures timeout.None? ==> !elapsed
  {
    timeout.Some? && latency > timeout.value
  }

  /** An operation slower than one that timed out times out too. */
  lemma SlowerElapses(timeout: Option<Duration>, latency: Duration, slower: Duration)
    requires Elapses(timeout, latency) && latency <= slower
    ensures Elapses(timeout, slower)
  {
  }

  /** A longer timeout gives up on an operation only if a shorter one does. */
  lemma LongerTimeoutElapsesLess(shorter: Duration, longer: Duration, latency: Duration)
    requires shorter <= longer && Elapses(Some(longer), latency)
    ensures Elapses(Some(shorter), latency)
  {
  }
}
