/** The arithmetic of the narration controls of the flow-magnets page: the
    estimated duration of synthesized speech, the 15-second seeks, the
    time-to-character translation used to restart speech at a new position,
    and the 100 ms progress tick. Times are seconds, progress is percent. */
module NarrationTime {
  import opened Common

  /** Speech is estimated to run at ten characters per second. */
  const CharsPerSecond: real := 10.0
  /** Both seek buttons move by fifteen seconds. */
  const SeekStep: real := 15.0
  /** The progress interval fires every 100 ms and adds `100 / 1000` seconds. */
  const TickSeconds: real := 0.1

  /** `text.length / 10`: the estimated length of speaking `textLength` characters. */
  function EstimatedDuration(textLength: nat): (d: real)
    ensures d >= 0.0
    ensures d > 0.0 <==> textLength > 0
    ensures d * CharsPerSecond == textLength as real
  {
    textLength as real / CharsPerSecond
  }

  /** `ttsDuration || (ttsText.length / 10)`: the recorded duration, or the
      estimate when none has been recorded (a recorded 0 is falsy). */
  function EffectiveDuration(ttsDuration: real, textLength: nat): (d: real)
    requires ttsDuration >= 0.0
    ensures textLength > 0 ==> d > 0.0
    ensures ttsDuration > 0.0 ==> d == ttsDuration
    ensures ttsDuration == 0.0 ==> d == EstimatedDuration(textLength)
  {
    if ttsDuration != 0.0 then ttsDuration else EstimatedDuration(textLength)
  }

  /** `Math.min(t + 15, duration)`. */
  function ForwardTime(t: real, duration: real): real
  {
    Min(t + SeekStep, duration)
  }

  /** `Math.max(t - 15, 0)`, as the backward seek computes it. */
  function BackwardTime(t: real): real
  {
    Max(t - SeekStep, 0.0)
  }

  /** The backward seek clamped to `[0, duration]` as well. */
  function ClampedBackwardTime(t: real, duration: real): real
  {
    Min(BackwardTime(t), duration)
  }

  /** `newTime / duration * 100`. */
  function PercentOf(t: real, duration: real): real
    requires duration > 0.0
  {
    t / duration * 100.0
  }

  /** `Math.floor(newTime * (ttsText.length / duration))`: the character at
      which speech restarts after a seek. */
  function StartChar(t: real, textLength: nat, duration: real): int
    requires duration > 0.0
  {
    (t * (textLength as real / duration)).Floor
  }

  /** `text.substring(start)`: a start outside `[0, |text|]` is clamped. */
  function Substring(text: string, start: int): (r: string)
    ensures 0 <= start <= |text| ==> r == text[start..]
    ensures start > |text| ==> r == []
    ensures start < 0 ==> r == text
  {
    if start < 0 then text else if start > |text| then [] else text[start..]
  }

  /** `Math.min(elapsed / fullDuration * 100, 100)`, where a division by a
      zero `fullDuration` gives `Infinity` (the tick only runs after `elapsed`
      has been increased, so it is positive). */
  function TickProgress(elapsed: real, fullDuration: real): (p: real)
    requires elapsed > 0.0 && fullDuration >= 0.0
    ensures 0.0 <= p <= 100.0
    ensures fullDuration > 0.0 && elapsed <= fullDuration ==> p == PercentOf(elapsed, fullDuration)
    ensures elapsed >= fullDuration ==> p == 100.0
  {
    if fullDuration == 0.0 then 100.0 else Min(PercentOf(elapsed, fullDuration), 100.0)
  }

  /** A time in `[0, duration]` is at most 100 percent of it. */
  lemma PercentBounds(t: real, duration: real)
    requires duration > 0.0 && 0.0 <= t <= duration
    ensures 0.0 <= PercentOf(t, duration) <= 100.0
    ensures t < duration ==> PercentOf(t, duration) < 100.0
  {
    assert t / duration <= 1.0 by {
      assert t / duration * duration == t;
    }
    assert t < duration ==> t / duration < 1.0 by {
      assert t / duration * duration == t;
    }
  }

  /** The forward seek never leaves `[0, duration]`. */
  lemma ForwardTimeBounds(t: real, duration: real)
    requires t >= 0.0 && duration >= 0.0
    ensures 0.0 <= ForwardTime(t, duration) <= duration
    ensures ForwardTime(t, duration) <= t + SeekStep
    ensures t + SeekStep <= duration ==> ForwardTime(t, duration) == t + SeekStep
  {
  }

  /** Forward then backward returns to the starting time whenever the
      forward step was not cut short by the end of the narration. */
  lemma SeekRoundTrip(t: real, duration: real)
    requires 0.0 <= t && t + SeekStep <= duration
    ensures BackwardTime(ForwardTime(t, duration)) == t
    ensures ClampedBackwardTime(ForwardTime(t, duration), duration) == t
  {
  }

  /** The restart character of a time in `[0, duration]` lies in
      `[0, textLength]`, and strictly before the end when the time is
      strictly before the end of a non-empty text. */
  lemma StartCharInRange(t: real, textLength: nat, duration: real)
    requires duration > 0.0 && 0.0 <= t <= duration
    ensures 0 <= StartChar(t, textLength, duration) <= textLength
    ensures t < duration && textLength > 0 ==> StartChar(t, textLength, duration) < textLength
  {
    var rate := textLength as real / duration;
    assert rate >= 0.0;
    assert duration * rate == textLength as real;
    var x := t * rate;
    assert 0.0 <= x;
    assert x <= textLength as real by {
      assert t * rate <= duration * rate;
    }
    if t < duration && textLength > 0 {
      assert rate > 0.0;
      assert x < textLength as real by {
        assert t * rate < duration * rate;
      }
    }
  }

  /** Progress never decreases from one tick to a later one. */
  lemma TickProgressMonotone(e1: real, e2: real, fullDuration: real)
    requires 0.0 < e1 <= e2 && fullDuration >= 0.0
    ensures TickProgress(e1, fullDuration) <= TickProgress(e2, fullDuration)
  {
    if fullDuration > 0.0 {
      assert e1 / fullDuration <= e2 / fullDuration by {
        assert e1 / fullDuration * fullDuration == e1;
        assert e2 / fullDuration * fullDuration == e2;
      }
    }
  }

  /** The interval callback run `ticks` times from `startTime`: each round
      adds 0.1 s to `elapsed` and recomputes the progress. `progress` starts
      at the value the page showed before the first tick. */
  method TickLoop(startTime: real, fullDuration: real, ticks: nat, initialProgress: real)
    returns (elapsed: real, progress: real)
    requires startTime >= 0.0 && fullDuration >= 0.0
    ensures elapsed == startTime + ticks as real * TickSeconds
    ensures ticks == 0 ==> progress == initialProgress
    ensures ticks > 0 ==> progress == TickProgress(elapsed, fullDuration)
    ensures ticks > 0 ==> 0.0 <= progress <= 100.0
  {
    elapsed, progress := startTime, initialProgress;
    var i := 0;
    while i < ticks
      invariant 0 <= i <= ticks
      invariant elapsed == startTime + i as real * TickSeconds
      invariant i == 0 ==> progress == initialProgress
      invariant i > 0 ==> elapsed > 0.0 && progress == TickProgress(elapsed, fullDuration)
    {
      elapsed := elapsed + TickSeconds;
      progress := Min(if fullDuration == 0.0 then 100.0 else PercentOf(elapsed, fullDuration), 100.0);
      i := i + 1;
    }
  }

  /** A 200-character text is estimated at 20 s; after 5000 ms of ticking
      (50 ticks from 0) the progress is 25 percent. */
  lemma TwoHundredCharsAfterFiveSeconds()
    ensures EstimatedDuration(200) == 20.0
    ensures TickProgress(0.0 + 50 as real * TickSeconds, EstimatedDuration(200)) == 25.0
  {
  }
}
