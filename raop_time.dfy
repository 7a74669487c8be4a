/**
 * Time and byte arithmetic of the sink: microseconds, the sample
 * specification, and PulseAudio's conversions between a byte count and a
 * duration (whole frames only, rounded down).
 */
module RaopTime {

  const USecPerSec: nat := 1000000
  const USecPerMSec: nat := 1000

  type Positive = n: nat | n > 0 witness 1

  /** The device format as far as the conversions need it: bytes per frame and frames per second. */
  datatype SampleSpec = SampleSpec(frameSize: Positive, rate: Positive)

  /** pa_bytes_to_usec: the playing time of the whole frames in `bytes`, rounded down. */
  function BytesToUsec(bytes: nat, spec: SampleSpec): (usec: nat)
    ensures usec * spec.rate * spec.frameSize <= bytes * USecPerSec
  {
    var frames := bytes / spec.frameSize;
    var usec := frames * USecPerSec / spec.rate;
    DivMulBelow(bytes, spec.frameSize);
    DivMulBelow(frames * USecPerSec, spec.rate);
    MulMonotone(usec * spec.rate, frames * USecPerSec, spec.frameSize);
    MulMonotone(frames * spec.frameSize, bytes, USecPerSec);
    usec
  }

  /** pa_usec_to_bytes: the bytes of the whole frames that play within `usec`, rounded down. */
  function UsecToBytes(usec: nat, spec: SampleSpec): (bytes: nat)
    ensures bytes * USecPerSec <= usec * spec.rate * spec.frameSize
  {
    var frames := usec * spec.rate / USecPerSec;
    DivMulBelow(usec * spec.rate, USecPerSec);
    MulMonotone(frames * USecPerSec, usec * spec.rate, spec.frameSize);
    frames * spec.frameSize
  }

  lemma DivMulBelow(a: nat, d: Positive)
    ensures a / d * d <= a
  {
  }

  lemma {:induction false} DivMonotone(a: nat, b: nat, d: Positive)
    requires a <= b
    ensures a / d <= b / d
  {
    DivMulBelow(a, d);
    assert b < (b / d + 1) * d;
    if a / d > b / d {
      MulMonotone(b / d + 1, a / d, d);
    }
  }

  lemma MulMonotone(a: nat, b: nat, k: nat)
    requires a <= b
    ensures a * k <= b * k
  {
  }

  /** A longer byte count never plays for a shorter time. */
  lemma BytesToUsecMonotone(a: nat, b: nat, spec: SampleSpec)
    requires a <= b
    ensures BytesToUsec(a, spec) <= BytesToUsec(b, spec)
  {
    DivMonotone(a, b, spec.frameSize);
    MulMonotone(a / spec.frameSize, b / spec.frameSize, USecPerSec);
    DivMonotone(a / spec.frameSize * USecPerSec, b / spec.frameSize * USecPerSec, spec.rate);
  }

  /** No bytes, no time; no time, no bytes. */
  lemma ConversionsOfZero(spec: SampleSpec)
    ensures BytesToUsec(0, spec) == 0 && UsecToBytes(0, spec) == 0
  {
  }
}
