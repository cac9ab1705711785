/** The narration controls of the flow-magnets page as an object: one field
    per group of React state and refs, one method per handler or platform
    event. Each method states its new state as the matching transition of
    `NarrationEngine` applied to the old state, so every property proved
    there holds of the object. */
module NarrationPlayer {
  import opened Common
  import opened NarrationTime
  import E = NarrationEngine

  class Player {
    const mode: E.Mode
    const consume: string
    const title: string
    const speechSupported: bool

    var view: E.View              // the useState values
    var audioUnlocked: bool       // audioUnlockedRef
    var media: E.Media            // audioRef.current
    var synth: E.Synth            // synthRef, utteranceRef
    var interval: E.Interval      // progressIntervalRef and its closure
    var timers: seq<E.StartCall>  // pending setTimeout callbacks

    /** The object's state as an engine value. */
    function Snapshot(): E.Engine
      reads this
    {
      E.Engine(mode, consume, title, speechSupported, view, audioUnlocked, media, synth, interval, timers)
    }

    ghost predicate Valid()
      reads this
    {
      E.Valid(Snapshot())
    }

    /** The first render. */
    constructor (ttsUrl: Option<string>, consume: string, title: string, speechSupported: bool)
      ensures Valid()
      ensures Snapshot() == E.Initial(ttsUrl, consume, title, speechSupported)
    {
      this.mode := E.ModeFor(ttsUrl);
      this.consume := consume;
      this.title := title;
      this.speechSupported := speechSupported;
      view := E.View(false, true, false, "", "", 0.0, 0.0, 0.0);
      audioUnlocked := false;
      media := E.Media(0.0, None);
      synth := E.Synth(false, None, false);
      interval := E.Interval(false, 0.0, 0.0);
      timers := [];
    }

    /** Assigning `audio.currentTime`; the element clamps it to the media. */
    method SetAudioTime(t: real)
      requires Valid() && mode == E.AudioUrl
      modifies this
      ensures Valid() && Snapshot() == E.SetAudioTime(old(Snapshot()), t)
    {
      var t0 := Max(t, 0.0);
      media := media.(currentTime := if media.duration.Some? then Min(t0, media.duration.value) else t0);
    }

    /** `stopTTSPlayback`. */
    method Stop()
      requires Valid()
      modifies this
      ensures Valid() && Snapshot() == E.Stop(old(Snapshot()))
    {
      if mode == E.AudioUrl {
        media := media.(currentTime := 0.0);
      }
      if synth.attached {
        synth := synth.(speaking := false);
      }
      view := view.(isPlaying := false, ttsProgress := 0.0, ttsCurrentTime := 0.0);
      interval := interval.(active := false);
    }

    /** `startTTSPlayback(c.text, c.startTime)`. */
    method StartTTSPlayback(c: E.StartCall, outcome: E.PlayOutcome)
      requires Valid() && E.CallOk(c)
      modifies this
      ensures Valid() && Snapshot() == E.StartPlayback(old(Snapshot()), c, outcome)
    {
      if mode == E.AudioUrl {
        SetAudioTime(c.startTime);
        match outcome {
          case Resolved => view := view.(isPlaying := true, showControls := true);
          case NotAllowed => view := view.(isPlaying := false, showControls := true);
          case OtherError =>
        }
        return;
      }
      if !speechSupported {
        return;
      }
      if synth.attached {
        synth := synth.(speaking := false);
      }
      synth := E.Synth(true, Some(c), true);
    }

    /** The init effect. */
    method Mount(outcome: E.PlayOutcome)
      requires Valid()
      modifies this
      ensures Valid() && Snapshot() == E.Mount(old(Snapshot()), outcome)
    {
      var seenTextLength, seenDuration := |view.ttsText|, view.ttsDuration;
      Stop();
      view := view.(ttsTitle := E.FirstLine(title));
      if mode == E.AudioUrl {
        view := view.(ttsText := "Audio available", showControls := true);
        if audioUnlocked && outcome == E.Resolved {
          view := view.(isPlaying := true);
        } else {
          view := view.(showUnlockPrompt := true, isPlaying := false);
        }
        return;
      }
      if consume != "" {
        view := view.(ttsText := consume);
        if audioUnlocked {
          timers := timers + [E.StartCall(consume, 0.0, seenTextLength, seenDuration)];
        } else {
          view := view.(showUnlockPrompt := true, showControls := true);
        }
      }
    }

    /** `handleAudioUnlockTap`. */
    method HandleAudioUnlockTap(outcome: E.PlayOutcome)
      requires Valid()
      modifies this
      ensures Valid() && Snapshot() == E.UnlockTap(old(Snapshot()), outcome)
    {
      if mode == E.Speech {
        audioUnlocked := true;
        view := view.(showUnlockPrompt := false);
        if consume != "" {
          StartTTSPlayback(E.StartCall(consume, 0.0, |view.ttsText|, view.ttsDuration), outcome);
        }
        return;
      }
      audioUnlocked := true;
      if outcome == E.Resolved {
        view := view.(showUnlockPrompt := false, isPlaying := true, showControls := true);
      } else {
        view := view.(showUnlockPrompt := false);
      }
    }

    /** `toggleTTSPlayback`, with resuming speech also resuming the interval. */
    method Toggle()
      requires Valid()
      modifies this
      ensures Valid() && Snapshot() == E.Toggle(old(Snapshot()))
    {
      if mode == E.AudioUrl {
        if view.isPlaying {
          view := view.(isPlaying := false);
        } else {
          view := view.(isPlaying := true, showControls := true);
        }
        return;
      }
      if !synth.attached || synth.utterance.None? {
        return;
      }
      if view.isPlaying {
        view := view.(isPlaying := false);
        interval := interval.(active := false);
      } else {
        view := view.(isPlaying := true, showControls := true);
        interval := interval.(active := true, elapsed := view.ttsCurrentTime);
      }
    }

    /** The mini player's play/pause button. */
    method MiniToggle()
      requires Valid()
      modifies this
      ensures Valid() && Snapshot() == E.MiniToggle(old(Snapshot()))
    {
      if view.ttsText != "" {
        Toggle();
      }
    }

    /** Cancel speech, mark paused, clear the interval and schedule the
        restart of `text` from the character time `t` falls on. */
    method ScheduleRestart(text: string, seenDuration: real, t: real, d: real)
      requires Valid() && mode == E.Speech && t >= 0.0 && d > 0.0 && seenDuration >= 0.0
      modifies this
      ensures Valid() && Snapshot() == E.Restart(old(Snapshot()), text, seenDuration, t, d)
    {
      var k := StartChar(t, |text|, d);
      synth := synth.(speaking := false);
      view := view.(isPlaying := false);
      interval := interval.(active := false);
      timers := timers + [E.StartCall(Substring(text, k), t, |text|, seenDuration)];
    }

    /** `seekForward15`. */
    method SeekForward15()
      requires Valid()
      modifies this
      ensures Valid() && Snapshot() == E.SeekForward(old(Snapshot()))
    {
      if mode == E.AudioUrl {
        if media.duration.Some? {
          ForwardTimeBounds(media.currentTime, media.duration.value);
          SetAudioTime(ForwardTime(media.currentTime, media.duration.value));
        }
        return;
      }
      if view.ttsText == "" || !synth.attached {
        return;
      }
      var wasPlaying := view.isPlaying;
      var d := EffectiveDuration(view.ttsDuration, |view.ttsText|);
      var t := ForwardTime(view.ttsCurrentTime, d);
      ForwardTimeBounds(view.ttsCurrentTime, d);
      PercentBounds(t, d);
      view := view.(ttsCurrentTime := t, ttsProgress := PercentOf(t, d));
      if wasPlaying && t < d {
        ScheduleRestart(view.ttsText, view.ttsDuration, t, d);
      }
    }

    /** `seekBackward15`, with the new time also kept at most the duration
        and speech restarted only from a time before the end. */
    method SeekBackward15()
      requires Valid()
      modifies this
      ensures Valid() && Snapshot() == E.SeekBackward(old(Snapshot()))
    {
      if mode == E.AudioUrl {
        SetAudioTime(BackwardTime(media.currentTime));
        return;
      }
      if view.ttsText == "" || !synth.attached {
        return;
      }
      var wasPlaying := view.isPlaying;
      var d := EffectiveDuration(view.ttsDuration, |view.ttsText|);
      var t := ClampedBackwardTime(view.ttsCurrentTime, d);
      PercentBounds(t, d);
      view := view.(ttsCurrentTime := t, ttsProgress := PercentOf(t, d));
      if wasPlaying && t < d {
        ScheduleRestart(view.ttsText, view.ttsDuration, t, d);
      }
    }

    /** The mini player's stop button. */
    method StopAndClose()
      requires Valid()
      modifies this
      ensures Valid() && Snapshot() == E.StopAndClose(old(Snapshot()))
    {
      if view.ttsText == "" {
        return;
      }
      Stop();
      view := view.(ttsText := "", ttsTitle := "", ttsProgress := 0.0, ttsCurrentTime := 0.0,
                    ttsDuration := 0.0, showControls := false);
    }

    /** The pending `setTimeout` at `index` fires. */
    method FireTimeout(index: nat, outcome: E.PlayOutcome)
      requires Valid()
      modifies this
      ensures Valid() && Snapshot() == E.TimeoutFire(old(Snapshot()), index, outcome)
    {
      if index >= |timers| {
        return;
      }
      var c := timers[index];
      var rest := timers[..index] + timers[index + 1..];
      assert forall i :: 0 <= i < |rest| ==> rest[i] in timers;
      timers := rest;
      StartTTSPlayback(c, outcome);
    }

    /** `utterance.onstart`. */
    method OnSpeechStart()
      requires Valid()
      modifies this
      ensures Valid() && Snapshot() == E.SpeechStart(old(Snapshot()))
    {
      if synth.utterance.None? || !synth.speaking {
        return;
      }
      var u := synth.utterance.value;
      var full := EstimatedDuration(u.seenTextLength);
      view := view.(isPlaying := true, showControls := true, ttsDuration := full);
      interval := E.Interval(true, u.startTime, full);
    }

    /** `utterance.onend`. */
    method OnSpeechEnd()
      requires Valid()
      modifies this
      ensures Valid() && Snapshot() == E.SpeechEnd(old(Snapshot()))
    {
      if synth.utterance.None? || !synth.speaking {
        return;
      }
      view := view.(isPlaying := false, ttsProgress := 100.0, ttsCurrentTime := synth.utterance.value.seenDuration);
      interval := interval.(active := false);
      synth := synth.(speaking := false);
    }

    /** `utterance.onerror`. */
    method OnSpeechError()
      requires Valid()
      modifies this
      ensures Valid() && Snapshot() == E.SpeechError(old(Snapshot()))
    {
      if synth.utterance.None? || !synth.speaking {
        return;
      }
      view := view.(isPlaying := false);
      interval := interval.(active := false);
      synth := synth.(speaking := false);
    }

    /** One run of the 100 ms interval callback. */
    method OnIntervalTick()
      requires Valid()
      modifies this
      ensures Valid() && Snapshot() == E.Tick(old(Snapshot()))
    {
      if !interval.active {
        return;
      }
      var elapsed := interval.elapsed + TickSeconds;
      interval := interval.(elapsed := elapsed);
      view := view.(ttsProgress := TickProgress(elapsed, interval.fullDuration), ttsCurrentTime := elapsed);
    }

    /** The media element learns its duration. */
    method OnLoadedMetadata(d: E.PositiveReal)
      requires Valid()
      modifies this
      ensures Valid() && Snapshot() == E.MetadataLoad(old(Snapshot()), d)
    {
      if mode == E.Speech {
        return;
      }
      media := E.Media(Min(media.currentTime, d), Some(d as real));
    }

    /** The media element's position moves while it plays. */
    method OnMediaAdvance(t: real)
      requires Valid()
      modifies this
      ensures Valid() && Snapshot() == E.MediaAdvance(old(Snapshot()), t)
    {
      if mode == E.Speech {
        return;
      }
      SetAudioTime(t);
    }

    /** `<audio onTimeUpdate>`. */
    method OnTimeUpdate()
      requires Valid()
      modifies this
      ensures Valid() && Snapshot() == E.TimeUpdate(old(Snapshot()))
    {
      if mode == E.Speech || media.duration.None? {
        return;
      }
      var d := media.duration.value;
      PercentBounds(media.currentTime, d);
      view := view.(ttsCurrentTime := media.currentTime, ttsDuration := d, ttsProgress := PercentOf(media.currentTime, d));
    }

    /** `<audio onEnded>`. */
    method OnEnded()
      requires Valid()
      modifies this
      ensures Valid() && Snapshot() == E.MediaEnd(old(Snapshot()))
    {
      if mode == E.AudioUrl {
        view := view.(isPlaying := false, ttsProgress := 100.0);
      }
    }

    /** `<audio onPause>`. */
    method OnPause()
      requires Valid()
      modifies this
      ensures Valid() && Snapshot() == E.MediaPause(old(Snapshot()))
    {
      if mode == E.AudioUrl {
        view := view.(isPlaying := false);
      }
    }

    /** `<audio onPlay>`. */
    method OnPlay()
      requires Valid()
      modifies this
      ensures Valid() && Snapshot() == E.MediaPlay(old(Snapshot()))
    {
      if mode == E.AudioUrl {
        view := view.(isPlaying := true, showControls := true);
      }
    }
  }
}
