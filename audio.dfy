/**
 * Raw audio as the client handles it: mono 16-bit PCM, carried as bytes.
 */
module Audio {
  newtype byte = x: int | 0 <= x < 256

  /** One captured microphone frame, as the input stream delivers it. */
  type Frame = seq<byte>

  /** paInt16: every sample takes two bytes. */
  const BYTES_PER_SAMPLE: nat := 2

  /** `n` zero bytes: the silence used to pad a playback chunk. */
  function Silence(n: nat): (s: seq<byte>)
    ensures |s| == n
    ensures forall i | 0 <= i < n :: s[i] == 0
  {
    seq(n, _ => 0)
  }

  function Min(a: int, b: int): int
  {
    if a <= b then a else b
  }
}
