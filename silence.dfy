/**
 The silence gate of app.js: the per-frame amplitude test (`isBufferSilent`) and the
 timer rule that `checkForSilence` applies to the timestamp `silenceStart`.
 Samples are modelled as reals; time is an integer count of milliseconds.
 */
module Silence {
  import opened Wrappers

  /** Largest sample magnitude that still counts as silence (app.js:80). */
  const Threshold: real := 0.02

  /** Silent time, in milliseconds, after which a recording is stopped (app.js:11). */
  const SilenceDuration: int := 3000

  /** `Math.abs` on a sample. */
  function Abs(x: real): (r: real)
    ensures r >= 0.0
    ensures r == x || r == -x
  {
    if x < 0.0 then -x else x
  }

  /** A sample is loud when its magnitude is strictly above the threshold. */
  predicate IsLoud(sample: real) {
    Abs(sample) > Threshold
  }

  /** The specification of a silent frame: no sample in it is loud. */
  predicate IsSilent(frame: seq<real>) {
    forall i :: 0 <= i < |frame| ==> !IsLoud(frame[i])
  }

  /**
   The scan of app.js:79-87: walks the frame by index and gives up at the first loud
   sample. The answer is exactly the specification above.
   */
  method IsBufferSilent(buffer: seq<real>) returns (silent: bool)
    ensures silent <==> IsSilent(buffer)
  {
    for i := 0 to |buffer|
      invariant forall j :: 0 <= j < i ==> !IsLoud(buffer[j])
    {
      if Abs(buffer[i]) > Threshold {
        return false;
      }
    }
    return true;
  }

  /** A frame with no samples is silent. */
  lemma EmptyFrameIsSilent()
    ensures IsSilent([])
  {
  }

  /** The comparison is strict: a sample of magnitude exactly 0.02, of either sign, is not
      loud, while any sample beyond it, of either sign, is. */
  lemma ThresholdIsStrict(x: real)
    ensures !IsLoud(Threshold) && !IsLoud(-Threshold)
    ensures x > Threshold ==> IsLoud(x) && IsLoud(-x)
  {
  }

  /** One loud sample, wherever it sits, makes the whole frame non-silent. */
  lemma OneLoudSampleSuffices(frame: seq<real>, k: int)
    requires 0 <= k < |frame| && Abs(frame[k]) > Threshold
    ensures !IsSilent(frame)
  {
  }

  /** A frame is silent exactly when both of its parts are: where a frame is cut does not matter. */
  lemma {:induction false} SilentConcat(a: seq<real>, b: seq<real>)
    ensures IsSilent(a + b) <==> IsSilent(a) && IsSilent(b)
  {
    if IsSilent(a + b) {
      forall i | 0 <= i < |a| ensures !IsLoud(a[i]) {
        assert a[i] == (a + b)[i];
      }
      forall i | 0 <= i < |b| ensures !IsLoud(b[i]) {
        assert b[i] == (a + b)[|a| + i];
      }
    }
  }

  /**
   The timer test of app.js:68, `Date.now() - silenceStart > silenceDuration`. Before the
   first start or loud frame `silenceStart` is `undefined`; the difference is then NaN and
   the comparison false, which `None` models.
   */
  predicate SilenceExceeded(silenceStart: Option<int>, now: int) {
    match silenceStart
    case None => false
    case Some(t) => now - t > SilenceDuration
  }

  /** From a timestamp `t`, the countdown runs out strictly after `t + 3000` and never at it. */
  lemma CountdownBoundary(t: int, now: int)
    ensures SilenceExceeded(Some(t), now) <==> now > t + SilenceDuration
    ensures !SilenceExceeded(Some(t), t + SilenceDuration)
    ensures SilenceExceeded(Some(t), t + SilenceDuration + 1)
  {
  }

  /** An unset timestamp never runs out, however late it is. */
  lemma UnsetNeverExceeded(now: int)
    ensures !SilenceExceeded(None, now)
  {
  }
}
