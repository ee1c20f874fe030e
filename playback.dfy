/**
 * The playback driver: every output callback drains one chunk from the
 * front of the playback buffer, padding with silence on underrun.
 */
module Playback {
  import opened Audio

  /**
   * What one output callback produces: the chunk handed to the device, what
   * stays in the buffer, and whether the mic gate is re-armed.
   */
  datatype Tick = Tick(chunk: seq<byte>, rest: seq<byte>, rearm: bool)

  /**
   * One playback tick over `buffer` when the device asks for `needed` bytes.
   * The real audio at the front of the chunk followed by what remains is the
   * old buffer (nothing lost or reordered), everything after the real audio
   * is zero padding, and the gate is re-armed exactly when the chunk is all
   * real audio.
   */
  function Drain(buffer: seq<byte>, needed: nat): (t: Tick)
    ensures |t.chunk| == needed
    ensures |t.rest| == |buffer| - Min(|buffer|, needed)
    ensures t.chunk[..Min(|buffer|, needed)] + t.rest == buffer
    ensures forall i | Min(|buffer|, needed) <= i < needed :: t.chunk[i] == 0
    ensures t.rearm <==> |buffer| >= needed
    ensures !t.rearm ==> t.rest == []
  {
    if |buffer| >= needed then
      Tick(buffer[..needed], buffer[needed..], true)
    else
      Tick(buffer + Silence(needed - |buffer|), [], false)
  }

  /** The bytes of real audio (not padding) a tick emits. */
  function Played(buffer: seq<byte>, needed: nat): (s: seq<byte>)
    ensures s + Drain(buffer, needed).rest == buffer
    ensures |s| <= needed
  {
    Drain(buffer, needed).chunk[..Min(|buffer|, needed)]
  }
}
