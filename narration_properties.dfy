/** Properties of the narration engine that relate several calls or hold
    for every sequence of events. */
module NarrationProperties {
  import opened Common
  import opened NarrationTime
  import opened NarrationEngine

  /** Stopping twice gives the state of stopping once. */
  lemma StopIdempotent(e: Engine)
    requires Valid(e)
    ensures Stop(Stop(e)) == Stop(e)
  {
  }

  /** Stopping changes only the playing flag, the progress, the time, the
      interval's activity, the speaking flag and the media position: pending
      timers, text, title, duration, the utterance and the unlock fact survive. */
  lemma StopChangesOnlyPlayback(e: Engine)
    requires Valid(e)
    ensures var r := Stop(e);
      r.view == e.view.(isPlaying := false, ttsProgress := 0.0, ttsCurrentTime := 0.0) &&
      r.timers == e.timers && r.audioUnlocked == e.audioUnlocked && r.mode == e.mode &&
      r.synth.utterance == e.synth.utterance && r.synth.attached == e.synth.attached &&
      r.media.duration == e.media.duration && r.interval.(active := e.interval.active) == e.interval
  {
  }

  /** The unlock fact is never taken back by any single event. */
  lemma StepKeepsUnlocked(e: Engine, ev: Event)
    requires Core(e) && e.audioUnlocked
    ensures Step(e, ev).audioUnlocked
  {
  }

  /** The backend chosen from the newsletter never changes. */
  lemma StepKeepsMode(e: Engine, ev: Event)
    requires Core(e)
    ensures Step(e, ev).mode == e.mode
  {
    match ev
    case Mounted(o) =>
    case UnlockTapped(o) =>
    case TimeoutFired(i, o) =>
    case _ =>
  }

  /** Once unlocked, audio stays unlocked for every later sequence of events,
      and the backend stays the one the newsletter selected. */
  lemma {:induction false} RunKeepsUnlockedAndMode(e: Engine, evs: seq<Event>)
    requires Core(e)
    ensures Run(e, evs).mode == e.mode
    ensures e.audioUnlocked ==> Run(e, evs).audioUnlocked
    decreases |evs|
  {
    if evs != [] {
      StepKeepsMode(e, evs[0]);
      if e.audioUnlocked {
        StepKeepsUnlocked(e, evs[0]);
      }
      RunKeepsUnlockedAndMode(Step(e, evs[0]), evs[1..]);
    }
  }

  /** The page as written also never takes back the unlock fact and never
      changes its backend, in one event ... */
  lemma StepAsWrittenKeepsUnlockedAndMode(e: Engine, ev: Event)
    requires Core(e)
    ensures StepAsWritten(e, ev).mode == e.mode
    ensures e.audioUnlocked ==> StepAsWritten(e, ev).audioUnlocked
  {
    if ev != TogglePressed && ev != MiniTogglePressed && ev != BackwardPressed {
      StepKeepsMode(e, ev);
      if e.audioUnlocked {
        StepKeepsUnlocked(e, ev);
      }
    }
  }

  /** ... and in every later sequence of events. */
  lemma {:induction false} RunAsWrittenKeepsUnlockedAndMode(e: Engine, evs: seq<Event>)
    requires Core(e)
    ensures RunAsWritten(e, evs).mode == e.mode
    ensures e.audioUnlocked ==> RunAsWritten(e, evs).audioUnlocked
    decreases |evs|
  {
    if evs != [] {
      StepAsWrittenKeepsUnlockedAndMode(e, evs[0]);
      RunAsWrittenKeepsUnlockedAndMode(StepAsWritten(e, evs[0]), evs[1..]);
    }
  }

  /** With a streamed URL the page as written and the corrected page agree
      on every event: the corrections touch only speech. */
  lemma AsWrittenAgreesOnAudio(e: Engine, ev: Event)
    requires Core(e) && e.mode == AudioUrl
    ensures StepAsWritten(e, ev) == Step(e, ev)
  {
  }

  /** ... and so on every sequence of events. */
  lemma {:induction false} RunAsWrittenOnAudio(e: Engine, evs: seq<Event>)
    requires Core(e) && e.mode == AudioUrl
    ensures RunAsWritten(e, evs) == Run(e, evs)
    decreases |evs|
  {
    if evs != [] {
      AsWrittenAgreesOnAudio(e, evs[0]);
      StepKeepsMode(e, evs[0]);
      RunAsWrittenOnAudio(Step(e, evs[0]), evs[1..]);
    }
  }

  /** With a streamed URL no sequence of events ever attaches the speech
      synthesizer, queues an utterance or schedules a speech restart, and the
      progress stays within `[0, 100]`. */
  lemma AudioUrlNeverSpeaks(e: Engine, evs: seq<Event>)
    requires Valid(e) && e.mode == AudioUrl
    ensures var r := Run(e, evs);
      r.mode == AudioUrl && r.synth == Synth(false, None, false) && r.timers == [] &&
      0.0 <= r.view.ttsProgress <= 100.0
  {
    RunKeepsUnlockedAndMode(e, evs);
  }

  /** Source priority at mount: a truthy `ttsUrl` selects the streamed
      backend and speech is never started; otherwise `consume` becomes the
      narration text. Either way the session title is the title's first line. */
  lemma SourcePriority(ttsUrl: Option<string>, consume: string, title: string, speechSupported: bool,
                       outcome: PlayOutcome)
    ensures var r := Mount(Initial(ttsUrl, consume, title, speechSupported), outcome);
      r.view.ttsTitle == FirstLine(title) && '\n' !in r.view.ttsTitle &&
      (ttsUrl.Some? && ttsUrl.value != "" ==>
         r.mode == AudioUrl && r.view.ttsText == "Audio available" && !r.synth.attached && r.view.showUnlockPrompt) &&
      (!(ttsUrl.Some? && ttsUrl.value != "") && consume != "" ==>
         r.mode == Speech && r.view.ttsText == consume && !r.synth.speaking && r.timers == [] && r.view.showUnlockPrompt)
  {
  }

  /** Two ticks in a row never lower the progress. */
  lemma TickNeverDecreases(e: Engine)
    requires Valid(e) && e.interval.active
    ensures Tick(e).interval.active
    ensures Tick(e).view.ttsProgress <= Tick(Tick(e)).view.ttsProgress
  {
    var r := Tick(e);
    TickProgressMonotone(r.interval.elapsed, r.interval.elapsed + TickSeconds, e.interval.fullDuration);
  }

  /** A forward seek while speaking restarts the speech with exactly the
      suffix of `ttsText` from the computed character, which is a proper,
      non-empty suffix. */
  lemma ForwardRestartText(e: Engine)
    requires Valid(e) && SpeechSeekable(e) && e.view.isPlaying
    ensures var d := SeekDuration(e);
      var r := SeekForward(e);
      r.view.ttsCurrentTime < d ==>
        var k := StartChar(r.view.ttsCurrentTime, |e.view.ttsText|, d);
        0 <= k < |e.view.ttsText| &&
        r.timers[|r.timers| - 1].text == e.view.ttsText[k..] && r.timers[|r.timers| - 1].text != []
  {
    var d := SeekDuration(e);
    var r := SeekForward(e);
    ForwardTimeBounds(e.view.ttsCurrentTime, d);
    if r.view.ttsCurrentTime < d {
      StartCharInRange(r.view.ttsCurrentTime, |e.view.ttsText|, d);
    }
  }

  /** A backward seek while speaking restarts, from a time before the end,
      with exactly the suffix of `ttsText` from the computed character, which
      is a proper, non-empty suffix; from the end itself it schedules nothing
      and speech carries on. */
  lemma BackwardRestartText(e: Engine)
    requires Valid(e) && SpeechSeekable(e) && e.view.isPlaying
    ensures var d := SeekDuration(e);
      var r := SeekBackward(e);
      (r.view.ttsCurrentTime < d ==>
         var k := StartChar(r.view.ttsCurrentTime, |e.view.ttsText|, d);
         0 <= k < |e.view.ttsText| &&
         r.timers[|r.timers| - 1].text == e.view.ttsText[k..] && r.timers[|r.timers| - 1].text != []) &&
      (r.view.ttsCurrentTime == d ==> r.view.isPlaying && r.timers == e.timers && r.synth == e.synth)
  {
    var d := SeekDuration(e);
    var r := SeekBackward(e);
    if r.view.ttsCurrentTime < d {
      StartCharInRange(r.view.ttsCurrentTime, |e.view.ttsText|, d);
    }
  }

  /** A seek while not playing moves the position only: no restart is
      scheduled and nothing is spoken. */
  lemma PausedSeekDoesNotRestart(e: Engine)
    requires Valid(e) && SpeechSeekable(e) && !e.view.isPlaying
    ensures SeekForward(e).timers == e.timers && SeekForward(e).synth == e.synth
    ensures SeekBackward(e).timers == e.timers && SeekBackward(e).synth == e.synth
    ensures !SeekForward(e).view.isPlaying && !SeekBackward(e).view.isPlaying
  {
  }

  /** Forward fifteen seconds and back again, while paused, returns to the
      same time whenever the forward step was not cut short by the end. */
  lemma ForwardThenBackward(e: Engine)
    requires Valid(e) && SpeechSeekable(e) && !e.view.isPlaying
    requires e.view.ttsCurrentTime + SeekStep <= SeekDuration(e)
    ensures SeekBackward(SeekForward(e)).view.ttsCurrentTime == e.view.ttsCurrentTime
  {
    SeekRoundTrip(e.view.ttsCurrentTime, SeekDuration(e));
  }

  /** The same round trip on the streamed backend's media position. */
  lemma ForwardThenBackwardAudio(e: Engine)
    requires Valid(e) && e.mode == AudioUrl && e.media.duration.Some?
    requires e.media.currentTime + SeekStep <= e.media.duration.value
    ensures SeekBackward(SeekForward(e)).media.currentTime == e.media.currentTime
  {
    SeekRoundTrip(e.media.currentTime, e.media.duration.value);
  }

  /** A speech state reported as playing, 40 s into a 100-character text
      whose duration was estimated at 10 s (speech ran slower than ten
      characters per second). */
  function OverrunSample(): Engine
  {
    var text := seq(100, _ => 'a');
    Engine(Speech, text, "T", true,
           View(true, true, false, text, "T", 100.0, 40.0, 10.0),
           true, Media(0.0, None), Synth(true, Some(StartCall(text, 0.0, 100, 0.0)), true),
           Interval(true, 40.0, 10.0), [])
  }

  /** The backward seek as written sets the progress to 250 percent and
      restarts speech from character 250 of a 100-character text, that is
      from nothing, leaving the invariant of the corrected page. */
  lemma BackwardSeekOvershoots()
    ensures Valid(OverrunSample())
    ensures !Valid(SeekBackwardAsWritten(OverrunSample()))
    ensures SeekBackwardAsWritten(OverrunSample()).view.ttsCurrentTime == 25.0
    ensures SeekBackwardAsWritten(OverrunSample()).view.ttsProgress == 250.0
    ensures StartChar(25.0, 100, 10.0) == 250
    ensures SeekBackwardAsWritten(OverrunSample()).timers == [StartCall([], 25.0, 100, 10.0)]
  {
    var e := OverrunSample();
    assert SpeechSeekable(e);
    assert SeekDuration(e) == 10.0;
    assert (25.0 * (100 as real / 10.0)).Floor == 250;
  }

  /** With the clamp, the same seek lands on the end of the estimate, shows
      full progress and lets the running speech carry on instead of
      scheduling an empty restart. */
  lemma OverrunSeekClamped()
    ensures var r := SeekBackward(OverrunSample());
      r.view.ttsCurrentTime == 10.0 && r.view.ttsProgress == 100.0 &&
      r.view.isPlaying && r.synth.speaking && r.timers == [] && Valid(r)
  {
    var e := OverrunSample();
    assert SpeechSeekable(e);
    assert SeekDuration(e) == 10.0;
  }

  /** With the clamp, every backward seek keeps the progress within
      `[0, 100]` and the time within `[0, duration]`. */
  lemma BackwardSeekBounded(e: Engine)
    requires Valid(e) && SpeechSeekable(e)
    ensures 0.0 <= SeekBackward(e).view.ttsCurrentTime <= SeekDuration(e)
    ensures 0.0 <= SeekBackward(e).view.ttsProgress <= 100.0
  {
  }

  /** The speech state right after `onstart`, playing with the interval running. */
  function PlayingSample(): Engine
  {
    Engine(Speech, "abc", "T", true,
           View(true, true, false, "abc", "T", 0.0, 0.0, 0.3),
           true, Media(0.0, None), Synth(true, Some(StartCall("abc", 0.0, 3, 0.0)), true),
           Interval(true, 0.0, 0.3), [])
  }

  /** As written, pausing and resuming speech leaves it reported as playing
      with no progress interval, so the progress never moves again until the
      next `onstart`, and the invariant of the corrected page is lost. */
  lemma ResumeFreezesProgress()
    ensures Valid(PlayingSample())
    ensures var r := ToggleAsWritten(ToggleAsWritten(PlayingSample()));
      r.view.isPlaying && r.synth.speaking && !r.interval.active && !Valid(r)
    ensures var m := MiniToggleAsWritten(ToggleAsWritten(PlayingSample()));
      m.view.isPlaying && m.synth.speaking && !m.interval.active && !Valid(m)
  {
  }

  /** With the interval resumed, pause and resume bring back the same
      playing state, ticking from where it paused. */
  lemma PauseResumeKeepsTicking(e: Engine)
    requires Valid(e) && e.mode == Speech && HasUtterance(e) && e.view.isPlaying
    ensures var r := Toggle(Toggle(e));
      r.view.isPlaying && r.interval.active && r.interval.elapsed == e.view.ttsCurrentTime && r.synth == e.synth
  {
  }
}
