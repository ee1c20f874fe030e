/**
 * Naming of saved responses: `response_{n}.wav`, where `n` is the running
 * response counter written in decimal, as Python's f-string prints an int.
 */
module ResponseFiles {
  import opened Audio
  import opened Wrappers

  /** One saved response: the file name and the PCM bytes written to it. */
  datatype Artifact = Artifact(name: string, data: seq<byte>)

  const PREFIX: string := "response_"
  const SUFFIX: string := ".wav"

  predicate IsDigit(c: char)
  {
    '0' <= c <= '9'
  }

  predicate AllDigits(s: string)
  {
    forall i | 0 <= i < |s| :: IsDigit(s[i])
  }

  function DigitChar(d: nat): (c: char)
    requires d < 10
    ensures IsDigit(c) && (c as int) - ('0' as int) == d
  {
    "0123456789"[d]
  }

  /**
   * The decimal digits of `n`: non-empty, digits only, and no leading zero
   * except for zero itself.
   */
  function Decimal(n: nat): (s: string)
    ensures |s| >= 1 && AllDigits(s)
    ensures s[0] == '0' <==> n == 0
    ensures n < 10 ==> |s| == 1
    decreases n
  {
    if n < 10 then [DigitChar(n)] else Decimal(n / 10) + [DigitChar(n % 10)]
  }

  /** The number a string of decimal digits denotes. */
  function DecimalValue(s: string): nat
    requires AllDigits(s)
    decreases |s|
  {
    if s == [] then 0
    else DecimalValue(s[..|s| - 1]) * 10 + ((s[|s| - 1] as int) - ('0' as int))
  }

  lemma {:induction false} DecimalRoundTrip(n: nat)
    ensures DecimalValue(Decimal(n)) == n
    decreases n
  {
    var s := Decimal(n);
    if n >= 10 {
      DecimalRoundTrip(n / 10);
      assert s[..|s| - 1] == Decimal(n / 10);
    }
  }

  /** The file a response is saved under when the counter reads `n`. */
  function ResponseFileName(n: nat): (name: string)
    ensures |name| > |PREFIX| + |SUFFIX|
    ensures name[..|PREFIX|] == PREFIX && name[|name| - |SUFFIX|..] == SUFFIX
  {
    PREFIX + Decimal(n) + SUFFIX
  }

  /** Reads the counter back out of a response file name. */
  function ParseResponseFileName(name: string): (n: Option<nat>)
  {
    if |name| <= |PREFIX| + |SUFFIX| then None
    else if name[..|PREFIX|] != PREFIX || name[|name| - |SUFFIX|..] != SUFFIX then None
    else
      var digits := name[|PREFIX|..|name| - |SUFFIX|];
      if AllDigits(digits) then Some(DecimalValue(digits)) else None
  }

  lemma ResponseFileNameRoundTrip(n: nat)
    ensures ParseResponseFileName(ResponseFileName(n)) == Some(n)
  {
    var name := ResponseFileName(n);
    assert name[|PREFIX|..|name| - |SUFFIX|] == Decimal(n);
    DecimalRoundTrip(n);
  }

  /** Successive counter values never reuse a file name. */
  lemma ResponseFileNamesDistinct(m: nat, n: nat)
    requires m != n
    ensures ResponseFileName(m) != ResponseFileName(n)
  {
    ResponseFileNameRoundTrip(m);
    ResponseFileNameRoundTrip(n);
  }
}
