/**
 * The mic gate: a single deadline `mic_on_at` (here in integer milliseconds)
 * before which captured frames are dropped, re-armed by playback.
 */
module MicGate {
  /** Trailing suppression after the last full playback chunk, in ms. */
  const REENGAGE_DELAY_MS: int := 500

  /** Observability flag `mic_active`: None, True or False in the source. */
  datatype MicActivity = Unknown | Active | Suppressed

  /** A frame captured at `now` is kept only strictly after the deadline. */
  predicate MicOpen(now: int, micOnAt: int)
  {
    now > micOnAt
  }

  /** The deadline a full playback chunk at time `now` sets. */
  function Rearm(now: int): (deadline: int)
    ensures forall t :: MicOpen(t, deadline) <==> t > now + REENGAGE_DELAY_MS
  {
    now + REENGAGE_DELAY_MS
  }
}
