/** The narration engine of the flow-magnets page as a state value and one
    pure transition per handler.

    `Engine` holds the React state (`isPlayingTTS`, `ttsText`, `ttsTitle`,
    `ttsProgress`, `ttsCurrentTime`, `ttsDuration`, the prompt and control
    flags), the refs (`audioUnlockedRef`, `synthRef`, `utteranceRef`,
    `progressIntervalRef`), the variables the running interval closes over
    (`elapsed`, `fullDuration`), the native audio element's position and
    duration, and the `setTimeout` calls still pending. The backend is fixed
    by the newsletter: the `<audio>` element is rendered, and `audioRef` set,
    exactly when `ttsUrl` is truthy, so `mode == AudioUrl` stands for
    "`ttsUrl` present and `audioRef.current` non-null".

    Handlers read the state of the render they were created in. A call of
    `startTTSPlayback` therefore carries the length of `ttsText` and the
    value of `ttsDuration` its closure saw (`StartCall`), and each
    transition reads `e` before applying its own updates. */
module NarrationEngine {
  import opened Common
  import opened NarrationTime

  datatype Mode = AudioUrl | Speech

  /** How the platform settles a promise returned by `audio.play()`. */
  datatype PlayOutcome = Resolved | NotAllowed | OtherError

  type PositiveReal = r: real | r > 0.0 witness 1.0

  /** A call `startTTSPlayback(text, startTime)` together with `ttsText.length`
      and `ttsDuration` as its closure saw them. */
  datatype StartCall = StartCall(text: string, startTime: real, seenTextLength: nat, seenDuration: real)

  /** The values the page keeps with `useState`. */
  datatype View = View(
    isPlaying: bool,            // isPlayingTTS
    showControls: bool,         // showPlaybackControls
    showUnlockPrompt: bool,     // showAudioUnlockPrompt
    ttsText: string,
    ttsTitle: string,
    ttsProgress: real,
    ttsCurrentTime: real,
    ttsDuration: real)

  /** `audioRef.current`'s position and duration (`None` while it is NaN). */
  datatype Media = Media(currentTime: real, duration: Option<real>)

  /** `synthRef` and `utteranceRef`: whether the synthesizer is attached, the
      last utterance and the call that made it, and whether that utterance is
      queued or being spoken. */
  datatype Synth = Synth(attached: bool, utterance: Option<StartCall>, speaking: bool)

  /** `progressIntervalRef` and the `elapsed` and `fullDuration` its callback closes over. */
  datatype Interval = Interval(active: bool, elapsed: real, fullDuration: real)

  datatype Engine = Engine(
    mode: Mode,
    consume: string,            // newsletter.consume ("" when absent)
    title: string,              // newsletter.title
    speechSupported: bool,      // 'speechSynthesis' in window
    view: View,
    audioUnlocked: bool,        // audioUnlockedRef.current
    media: Media,
    synth: Synth,
    interval: Interval,
    timers: seq<StartCall>)     // pending setTimeout(() => startTTSPlayback(...))

  /** The handlers and the platform events that drive the engine. */
  datatype Event =
    | Mounted(outcome: PlayOutcome)          // the init effect
    | UnlockTapped(outcome: PlayOutcome)     // handleAudioUnlockTap
    | TogglePressed                          // toggleTTSPlayback (the player modal's button)
    | MiniTogglePressed                      // the mini player's play/pause button
    | StopPressed                            // stopTTSPlayback
    | CloseStopPressed                       // the mini player's stop button
    | ForwardPressed                         // seekForward15
    | BackwardPressed                        // seekBackward15
    | TimeoutFired(index: nat, outcome: PlayOutcome)
    | SpeechStarted                          // utterance.onstart
    | SpeechEnded                            // utterance.onend
    | SpeechErrored                          // utterance.onerror
    | IntervalTicked                         // the 100 ms progress interval
    | MetadataLoaded(duration: PositiveReal) // the media element learns its duration
    | MediaAdvanced(position: real)          // the media element's position moves
    | TimeUpdated                            // <audio onTimeUpdate>
    | MediaEnded                             // <audio onEnded>
    | MediaPaused                            // <audio onPause>
    | MediaPlayed                            // <audio onPlay>

  ghost predicate CallOk(c: StartCall)
  {
    c.startTime >= 0.0 && c.seenDuration >= 0.0
  }

  /** What every state of the page satisfies, as written or corrected:
      times and durations are non-negative, every start call is well
      formed, and each backend keeps to its own objects. */
  ghost predicate Core(e: Engine)
  {
    && e.view.ttsCurrentTime >= 0.0 && e.view.ttsDuration >= 0.0 && e.view.ttsProgress >= 0.0
    && e.interval.elapsed >= 0.0 && e.interval.fullDuration >= 0.0 && e.media.currentTime >= 0.0
    && (e.media.duration.Some? ==> e.media.duration.value > 0.0 && e.media.currentTime <= e.media.duration.value)
    && (e.synth.utterance.Some? ==> CallOk(e.synth.utterance.value))
    && (forall i :: 0 <= i < |e.timers| ==> CallOk(e.timers[i]))
    && (e.synth.speaking ==> e.synth.attached && e.synth.utterance.Some?)
    // with a streamed URL, speech synthesis is never touched
    && (e.mode == AudioUrl ==>
          e.synth == Synth(false, None, false) && !e.interval.active && e.timers == [])
    // the media element exists only with a streamed URL
    && (e.mode == Speech ==> e.media == Media(0.0, None))
  }

  /** What every reachable state of the corrected page satisfies besides
      the core: the progress stays within `[0, 100]` and the progress
      interval runs exactly while speech is reported as playing. The page
      as written breaks both (its resume and its backward seek). */
  ghost predicate Valid(e: Engine)
  {
    && Core(e)
    && e.view.ttsProgress <= 100.0
    && (e.mode == Speech ==> (e.view.isPlaying <==> e.interval.active))
  }

  /** A truthy `ttsUrl` selects the streamed audio backend. */
  function ModeFor(ttsUrl: Option<string>): Mode
  {
    if ttsUrl.Some? && ttsUrl.value != "" then AudioUrl else Speech
  }

  /** `title.split('\n')[0]`. */
  function FirstLine(title: string): (line: string)
    ensures line <= title
    ensures '\n' !in line
    ensures line == title || title[|line|] == '\n'
  {
    if title == [] || title[0] == '\n' then [] else [title[0]] + FirstLine(title[1..])
  }

  /** The state of the first render, before any effect has run. */
  function Initial(ttsUrl: Option<string>, consume: string, title: string, speechSupported: bool): (e: Engine)
    ensures Valid(e)
    ensures e.mode == ModeFor(ttsUrl) && e.consume == consume && e.title == title
    ensures !e.audioUnlocked && !e.view.isPlaying && e.view.ttsText == "" && e.timers == []
  {
    Engine(ModeFor(ttsUrl), consume, title, speechSupported,
           View(false, true, false, "", "", 0.0, 0.0, 0.0),
           false, Media(0.0, None), Synth(false, None, false), Interval(false, 0.0, 0.0), [])
  }

  /** Assigning `audio.currentTime`: the element keeps it within `[0, duration]`. */
  function SetAudioTime(e: Engine, t: real): (r: Engine)
    requires Core(e) && e.mode == AudioUrl
    ensures Core(r) && (Valid(e) ==> Valid(r)) && r == e.(media := r.media) && r.media.duration == e.media.duration
    ensures e.media.duration.Some? && 0.0 <= t <= e.media.duration.value ==> r.media.currentTime == t
    ensures e.media.duration.None? && 0.0 <= t ==> r.media.currentTime == t
  {
    var t0 := Max(t, 0.0);
    e.(media := e.media.(currentTime := if e.media.duration.Some? then Min(t0, e.media.duration.value) else t0))
  }

  /** `stopTTSPlayback`. */
  function Stop(e: Engine): (r: Engine)
    requires Core(e)
    ensures Core(r) && (Valid(e) ==> Valid(r))
    ensures !r.view.isPlaying && r.view.ttsProgress == 0.0 && r.view.ttsCurrentTime == 0.0
    ensures !r.interval.active && !r.synth.speaking && r.media.currentTime == 0.0
  {
    e.(view := e.view.(isPlaying := false, ttsProgress := 0.0, ttsCurrentTime := 0.0),
       media := if e.mode == AudioUrl then e.media.(currentTime := 0.0) else e.media,  // pause, rewind
       synth := if e.synth.attached then e.synth.(speaking := false) else e.synth,     // cancel
       interval := e.interval.(active := false))
  }

  /** `startTTSPlayback(c.text, c.startTime)`. */
  function StartPlayback(e: Engine, c: StartCall, outcome: PlayOutcome): (r: Engine)
    requires Core(e) && CallOk(c)
    ensures Core(r) && (Valid(e) ==> Valid(r)) && r.audioUnlocked == e.audioUnlocked && r.timers == e.timers && r.mode == e.mode
    ensures e.mode == Speech && e.speechSupported ==> r == e.(synth := Synth(true, Some(c), true))
    ensures e.mode == Speech && !e.speechSupported ==> r == e
    ensures e.mode == AudioUrl ==> !r.synth.speaking && r.synth.utterance.None?
  {
    if e.mode == AudioUrl then
      var s := SetAudioTime(e, c.startTime);
      match outcome
      case Resolved => s.(view := s.view.(isPlaying := true, showControls := true))
      case NotAllowed => s.(view := s.view.(isPlaying := false, showControls := true))
      case OtherError => s
    else if !e.speechSupported then
      e
    else
      e.(synth := Synth(true, Some(c), true))
  }

  /** The init effect: stop, take the title's first line, then pick the
      source: a streamed URL first, the `consume` text otherwise. */
  function Mount(e: Engine, outcome: PlayOutcome): (r: Engine)
    requires Core(e)
    ensures Core(r) && (Valid(e) ==> Valid(r)) && r.mode == e.mode
    ensures r.view.ttsTitle == FirstLine(e.title) && r.audioUnlocked == e.audioUnlocked
    ensures r.mode == AudioUrl ==> r.view.ttsText == "Audio available" && !r.synth.speaking && r.timers == []
    ensures r.mode == AudioUrl && !(e.audioUnlocked && outcome == Resolved) ==>
              r.view.showUnlockPrompt && !r.view.isPlaying
    ensures r.mode == Speech && e.consume != "" ==> r.view.ttsText == e.consume && !r.synth.speaking
    ensures r.mode == Speech && e.consume != "" && !e.audioUnlocked ==>
              r.view.showUnlockPrompt && r.timers == e.timers
    ensures r.mode == Speech && e.consume != "" && e.audioUnlocked ==>
              r.timers == e.timers + [StartCall(e.consume, 0.0, |e.view.ttsText|, e.view.ttsDuration)]
    ensures r.mode == Speech && e.consume == "" ==> r.view.ttsText == e.view.ttsText && r.timers == e.timers
  {
    var stopped := Stop(e);
    var s := stopped.(view := stopped.view.(ttsTitle := FirstLine(e.title)));
    if e.mode == AudioUrl then
      var v := s.view.(ttsText := "Audio available", showControls := true);
      if e.audioUnlocked && outcome == Resolved then s.(view := v.(isPlaying := true))
      else s.(view := v.(showUnlockPrompt := true, isPlaying := false))
    else if e.consume != "" then
      var v := s.view.(ttsText := e.consume);
      if e.audioUnlocked then
        s.(view := v, timers := s.timers + [StartCall(e.consume, 0.0, |e.view.ttsText|, e.view.ttsDuration)])
      else s.(view := v.(showUnlockPrompt := true, showControls := true))
    else
      s
  }

  /** `handleAudioUnlockTap`: without an audio element it unlocks and starts
      speech at once; with one, it unlocks whether or not `play()` succeeds. */
  function UnlockTap(e: Engine, outcome: PlayOutcome): (r: Engine)
    requires Core(e)
    ensures Core(r) && (Valid(e) ==> Valid(r)) && r.mode == e.mode
    ensures r.audioUnlocked && !r.view.showUnlockPrompt
    ensures e.mode == AudioUrl ==> (r.view.isPlaying <==> outcome == Resolved || e.view.isPlaying)
    ensures e.mode == AudioUrl ==> r.synth == e.synth && r.timers == e.timers
    ensures e.mode == Speech && e.consume != "" && e.speechSupported ==>
              r.synth == Synth(true, Some(StartCall(e.consume, 0.0, |e.view.ttsText|, e.view.ttsDuration)), true)
  {
    if e.mode == Speech then
      var s := e.(audioUnlocked := true, view := e.view.(showUnlockPrompt := false));
      if e.consume != "" then StartPlayback(s, StartCall(e.consume, 0.0, |e.view.ttsText|, e.view.ttsDuration), outcome)
      else s
    else if outcome == Resolved then
      e.(audioUnlocked := true, view := e.view.(showUnlockPrompt := false, isPlaying := true, showControls := true))
    else
      e.(audioUnlocked := true, view := e.view.(showUnlockPrompt := false))
  }

  /** Whether the speech backend has something to pause or resume. */
  predicate HasUtterance(e: Engine)
  {
    e.synth.attached && e.synth.utterance.Some?
  }

  /** `toggleTTSPlayback` as the page writes it: resuming speech does not
      restart the progress interval. */
  function ToggleAsWritten(e: Engine): (r: Engine)
    requires Core(e)
    ensures Core(r)
    ensures r.audioUnlocked == e.audioUnlocked && r.mode == e.mode
    ensures e.mode == Speech && !HasUtterance(e) ==> r == e
    ensures e.mode == Speech && HasUtterance(e) ==>
              r.view.isPlaying == !e.view.isPlaying && r.interval.active == (e.interval.active && !e.view.isPlaying)
    ensures Valid(e) && e.mode == Speech && HasUtterance(e) ==> !r.interval.active
  {
    if e.mode == AudioUrl then
      if e.view.isPlaying then e.(view := e.view.(isPlaying := false))
      else e.(view := e.view.(isPlaying := true, showControls := true))
    else if !HasUtterance(e) then
      e
    else if e.view.isPlaying then
      e.(view := e.view.(isPlaying := false), interval := e.interval.(active := false))
    else
      e.(view := e.view.(isPlaying := true, showControls := true))
  }

  /** `toggleTTSPlayback` with the evident intent: resuming speech resumes the
      progress interval from the current time. */
  function Toggle(e: Engine): (r: Engine)
    requires Core(e)
    ensures Core(r) && (Valid(e) ==> Valid(r))
    ensures r.audioUnlocked == e.audioUnlocked && r.timers == e.timers && r.synth == e.synth
    ensures e.mode == AudioUrl ==> r.view.isPlaying == !e.view.isPlaying
    ensures e.mode == Speech && !HasUtterance(e) ==> r == e
    ensures e.mode == Speech && HasUtterance(e) ==>
              r.view.isPlaying == !e.view.isPlaying && r.interval.active == r.view.isPlaying
    ensures e.mode == Speech && HasUtterance(e) && !e.view.isPlaying ==>
              r.interval.elapsed == e.view.ttsCurrentTime
  {
    if e.mode == AudioUrl then
      if e.view.isPlaying then e.(view := e.view.(isPlaying := false))
      else e.(view := e.view.(isPlaying := true, showControls := true))
    else if !HasUtterance(e) then
      e
    else if e.view.isPlaying then
      e.(view := e.view.(isPlaying := false), interval := e.interval.(active := false))
    else
      e.(view := e.view.(isPlaying := true, showControls := true),
         interval := e.interval.(active := true, elapsed := e.view.ttsCurrentTime))
  }

  /** The mini player's play/pause button: it toggles only while there is
      narration text. */
  function MiniToggle(e: Engine): (r: Engine)
    requires Core(e)
    ensures Core(r) && (Valid(e) ==> Valid(r))
    ensures e.view.ttsText == "" ==> r == e
    ensures e.view.ttsText != "" ==> r == Toggle(e)
  {
    if e.view.ttsText != "" then Toggle(e) else e
  }

  /** The mini player's play/pause button as the page writes it: the same
      guard over the toggle as written. */
  function MiniToggleAsWritten(e: Engine): (r: Engine)
    requires Core(e)
    ensures Core(r) && r.audioUnlocked == e.audioUnlocked && r.mode == e.mode
    ensures e.view.ttsText == "" ==> r == e
    ensures e.view.ttsText != "" ==> r == ToggleAsWritten(e)
  {
    if e.view.ttsText != "" then ToggleAsWritten(e) else e
  }

  /** The speech restart shared by both seeks: cancel, mark paused, clear the
      interval and schedule `startTTSPlayback(text.substring(startChar), t)`,
      where `text` and `seenDuration` are the values the seek's closure saw. */
  function Restart(s: Engine, text: string, seenDuration: real, t: real, d: real): (r: Engine)
    requires Core(s) && s.mode == Speech && t >= 0.0 && d > 0.0 && seenDuration >= 0.0
    ensures Core(r) && (Valid(s) ==> Valid(r))
    ensures !r.view.isPlaying && !r.synth.speaking && !r.interval.active
    ensures r.timers == s.timers + [StartCall(Substring(text, StartChar(t, |text|, d)), t, |text|, seenDuration)]
  {
    var k := StartChar(t, |text|, d);
    s.(synth := s.synth.(speaking := false), view := s.view.(isPlaying := false),
       interval := s.interval.(active := false),
       timers := s.timers + [StartCall(Substring(text, k), t, |text|, seenDuration)])
  }

  /** Whether a seek applies to speech (there is text and a synthesizer). */
  predicate SpeechSeekable(e: Engine)
  {
    e.mode == Speech && e.view.ttsText != "" && e.synth.attached
  }

  /** The duration a speech seek measures against. */
  function SeekDuration(e: Engine): (d: real)
    requires Core(e)
    ensures e.view.ttsText != "" ==> d > 0.0
  {
    EffectiveDuration(e.view.ttsDuration, |e.view.ttsText|)
  }

  /** A speech seek to `t` within the duration: the shown time and
      percentage move to `t`, and playing speech restarts from `t` unless
      `t` is the end. */
  function SpeechSeekTo(e: Engine, t: real): (r: Engine)
    requires Core(e) && SpeechSeekable(e) && 0.0 <= t <= SeekDuration(e)
    ensures Core(r) && (Valid(e) ==> Valid(r)) && r.audioUnlocked == e.audioUnlocked && r.mode == e.mode
    ensures var d := SeekDuration(e);
              r.view.ttsCurrentTime == t && r.view.ttsProgress == PercentOf(t, d) &&
              (if e.view.isPlaying && t < d
               then !r.view.isPlaying && !r.synth.speaking &&
                    r.timers == e.timers + [StartCall(Substring(e.view.ttsText, StartChar(t, |e.view.ttsText|, d)),
                                                      t, |e.view.ttsText|, e.view.ttsDuration)]
               else r.view.isPlaying == e.view.isPlaying && r.synth == e.synth && r.timers == e.timers)
  {
    var d := SeekDuration(e);
    PercentBounds(t, d);
    var s := e.(view := e.view.(ttsCurrentTime := t, ttsProgress := PercentOf(t, d)));
    if e.view.isPlaying && t < d then Restart(s, e.view.ttsText, e.view.ttsDuration, t, d) else s
  }

  /** `seekForward15`. */
  function SeekForward(e: Engine): (r: Engine)
    requires Core(e)
    ensures Core(r) && (Valid(e) ==> Valid(r)) && r.audioUnlocked == e.audioUnlocked
    ensures e.mode == AudioUrl && e.media.duration.None? ==> r == e
    ensures e.mode == AudioUrl && e.media.duration.Some? ==>
              r == e.(media := e.media.(currentTime := ForwardTime(e.media.currentTime, e.media.duration.value)))
    ensures e.mode == Speech && !SpeechSeekable(e) ==> r == e
    ensures SpeechSeekable(e) ==>
              var d := SeekDuration(e);
              r.view.ttsCurrentTime == ForwardTime(e.view.ttsCurrentTime, d) <= d &&
              r.view.ttsProgress == PercentOf(r.view.ttsCurrentTime, d) &&
              (if e.view.isPlaying && r.view.ttsCurrentTime < d
               then !r.view.isPlaying && !r.synth.speaking &&
                    r.timers == e.timers + [StartCall(Substring(e.view.ttsText, StartChar(r.view.ttsCurrentTime, |e.view.ttsText|, d)),
                                                      r.view.ttsCurrentTime, |e.view.ttsText|, e.view.ttsDuration)]
               else r.view.isPlaying == e.view.isPlaying && r.synth == e.synth && r.timers == e.timers)
  {
    if e.mode == AudioUrl then
      // Math.min(t + 15, NaN) is NaN, and assigning NaN to currentTime throws
      if e.media.duration.None? then e
      else
        ForwardTimeBounds(e.media.currentTime, e.media.duration.value);
        SetAudioTime(e, ForwardTime(e.media.currentTime, e.media.duration.value))
    else if e.view.ttsText == "" || !e.synth.attached then
      e
    else
      ForwardTimeBounds(e.view.ttsCurrentTime, SeekDuration(e));
      SpeechSeekTo(e, ForwardTime(e.view.ttsCurrentTime, SeekDuration(e)))
  }

  /** `seekBackward15` as the page writes it: the new time is only bounded
      below. */
  function SeekBackwardAsWritten(e: Engine): (r: Engine)
    requires Core(e)
    ensures Core(r) && r.audioUnlocked == e.audioUnlocked && r.mode == e.mode
    ensures e.mode == AudioUrl ==> r == e.(media := e.media.(currentTime := BackwardTime(e.media.currentTime)))
    ensures e.mode == Speech && !SpeechSeekable(e) ==> r == e
    ensures SpeechSeekable(e) ==>
              var d := SeekDuration(e);
              r.view.ttsCurrentTime == BackwardTime(e.view.ttsCurrentTime) &&
              r.view.ttsProgress == PercentOf(r.view.ttsCurrentTime, d) &&
              (if e.view.isPlaying
               then !r.view.isPlaying && !r.synth.speaking && !r.interval.active &&
                    r.timers == e.timers + [StartCall(Substring(e.view.ttsText, StartChar(r.view.ttsCurrentTime, |e.view.ttsText|, d)),
                                                      r.view.ttsCurrentTime, |e.view.ttsText|, e.view.ttsDuration)]
               else r.view.isPlaying == e.view.isPlaying && r.synth == e.synth && r.timers == e.timers)
  {
    if e.mode == AudioUrl then
      SetAudioTime(e, BackwardTime(e.media.currentTime))
    else if e.view.ttsText == "" || !e.synth.attached then
      e
    else
      var d := SeekDuration(e);
      var t := BackwardTime(e.view.ttsCurrentTime);
      var s := e.(view := e.view.(ttsCurrentTime := t, ttsProgress := PercentOf(t, d)));
      if e.view.isPlaying && t >= 0.0 then
        s.(synth := s.synth.(speaking := false), view := s.view.(isPlaying := false),
           interval := s.interval.(active := false),
           timers := s.timers + [StartCall(Substring(e.view.ttsText, StartChar(t, |e.view.ttsText|, d)),
                                           t, |e.view.ttsText|, e.view.ttsDuration)])
      else s
  }

  /** `seekBackward15` with the new time clamped to `[0, duration]`; like the
      forward seek, it restarts speech only from a time before the end, so
      the restart never starts from past the last character. */
  function SeekBackward(e: Engine): (r: Engine)
    requires Core(e)
    ensures Core(r) && (Valid(e) ==> Valid(r)) && r.audioUnlocked == e.audioUnlocked
    ensures e.mode == AudioUrl ==> r == e.(media := e.media.(currentTime := BackwardTime(e.media.currentTime)))
    ensures e.mode == Speech && !SpeechSeekable(e) ==> r == e
    ensures SpeechSeekable(e) ==>
              var d := SeekDuration(e);
              r.view.ttsCurrentTime == ClampedBackwardTime(e.view.ttsCurrentTime, d) &&
              r.view.ttsProgress == PercentOf(r.view.ttsCurrentTime, d) &&
              (if e.view.isPlaying && r.view.ttsCurrentTime < d
               then !r.view.isPlaying && !r.synth.speaking &&
                    r.timers == e.timers + [StartCall(Substring(e.view.ttsText, StartChar(r.view.ttsCurrentTime, |e.view.ttsText|, d)),
                                                      r.view.ttsCurrentTime, |e.view.ttsText|, e.view.ttsDuration)]
               else r.view.isPlaying == e.view.isPlaying && r.synth == e.synth && r.timers == e.timers)
  {
    if e.mode == AudioUrl then
      SetAudioTime(e, BackwardTime(e.media.currentTime))
    else if e.view.ttsText == "" || !e.synth.attached then
      e
    else
      SpeechSeekTo(e, ClampedBackwardTime(e.view.ttsCurrentTime, SeekDuration(e)))
  }

  /** The mini player's stop button: stop, then clear the session's text,
      title, progress, time and duration and hide the controls. */
  function StopAndClose(e: Engine): (r: Engine)
    requires Core(e)
    ensures Core(r) && (Valid(e) ==> Valid(r))
    ensures e.view.ttsText == "" ==> r == e
    ensures e.view.ttsText != "" ==>
              r == Stop(e).(view := View(false, false, e.view.showUnlockPrompt, "", "", 0.0, 0.0, 0.0))
  {
    if e.view.ttsText == "" then e
    else
      var stopped := Stop(e);
      stopped.(view := stopped.view.(ttsText := "", ttsTitle := "", ttsProgress := 0.0, ttsCurrentTime := 0.0,
                                     ttsDuration := 0.0, showControls := false))
  }

  /** The pending `setTimeout` at `index` fires and runs its start call. */
  function TimeoutFire(e: Engine, index: nat, outcome: PlayOutcome): (r: Engine)
    requires Core(e)
    ensures Core(r) && (Valid(e) ==> Valid(r)) && r.audioUnlocked == e.audioUnlocked && r.mode == e.mode
    ensures index >= |e.timers| ==> r == e
    ensures index < |e.timers| ==> r.timers == e.timers[..index] + e.timers[index + 1..]
    ensures index < |e.timers| && e.speechSupported ==> r.synth == Synth(true, Some(e.timers[index]), true)
  {
    if index >= |e.timers| then e
    else
      var rest := e.timers[..index] + e.timers[index + 1..];
      assert forall i :: 0 <= i < |rest| ==> rest[i] in e.timers;
      StartPlayback(e.(timers := rest), e.timers[index], outcome)
  }

  /** Whether the current utterance is queued or being spoken, so that its
      handlers can run. */
  predicate Speaking(e: Engine)
  {
    e.synth.utterance.Some? && e.synth.speaking
  }

  /** `utterance.onstart`: report playing, record the duration estimated from
      the text length the start call saw, and start the interval at the call's
      start time. */
  function SpeechStart(e: Engine): (r: Engine)
    requires Core(e)
    ensures Core(r) && (Valid(e) ==> Valid(r)) && r.audioUnlocked == e.audioUnlocked && r.timers == e.timers && r.synth == e.synth
    ensures !Speaking(e) ==> r == e
    ensures Speaking(e) ==>
              var u := e.synth.utterance.value;
              r.view.isPlaying && r.interval == Interval(true, u.startTime, EstimatedDuration(u.seenTextLength)) &&
              r.view.ttsDuration == EstimatedDuration(u.seenTextLength)
  {
    if !Speaking(e) then e
    else
      var u := e.synth.utterance.value;
      var full := EstimatedDuration(u.seenTextLength);
      e.(view := e.view.(isPlaying := true, showControls := true, ttsDuration := full),
         interval := Interval(true, u.startTime, full))
  }

  /** `utterance.onend`: not playing, progress 100, the time set to the
      `ttsDuration` the start call saw, interval cleared. */
  function SpeechEnd(e: Engine): (r: Engine)
    requires Core(e)
    ensures Core(r) && (Valid(e) ==> Valid(r)) && r.audioUnlocked == e.audioUnlocked && r.timers == e.timers
    ensures !Speaking(e) ==> r == e
    ensures Speaking(e) ==>
              !r.view.isPlaying && r.view.ttsProgress == 100.0 && !r.interval.active && !r.synth.speaking &&
              r.view.ttsCurrentTime == e.synth.utterance.value.seenDuration
  {
    if !Speaking(e) then e
    else
      e.(view := e.view.(isPlaying := false, ttsProgress := 100.0,
                         ttsCurrentTime := e.synth.utterance.value.seenDuration),
         interval := e.interval.(active := false), synth := e.synth.(speaking := false))
  }

  /** `utterance.onerror`: not playing, interval cleared, progress kept. */
  function SpeechError(e: Engine): (r: Engine)
    requires Core(e)
    ensures Core(r) && (Valid(e) ==> Valid(r)) && r.audioUnlocked == e.audioUnlocked && r.timers == e.timers
    ensures !Speaking(e) ==> r == e
    ensures Speaking(e) ==>
              !r.view.isPlaying && !r.interval.active && !r.synth.speaking &&
              r.view.ttsProgress == e.view.ttsProgress && r.view.ttsCurrentTime == e.view.ttsCurrentTime
  {
    if !Speaking(e) then e
    else
      e.(view := e.view.(isPlaying := false), interval := e.interval.(active := false),
         synth := e.synth.(speaking := false))
  }

  /** One run of the interval callback. */
  function Tick(e: Engine): (r: Engine)
    requires Core(e)
    ensures Core(r) && (Valid(e) ==> Valid(r)) && r.audioUnlocked == e.audioUnlocked
    ensures !e.interval.active ==> r == e
    ensures e.interval.active ==>
              r.interval.elapsed == e.interval.elapsed + TickSeconds && r.view.ttsCurrentTime == r.interval.elapsed &&
              r.view.ttsProgress == TickProgress(r.interval.elapsed, e.interval.fullDuration)
  {
    if !e.interval.active then e
    else
      var el := e.interval.elapsed + TickSeconds;
      e.(interval := e.interval.(elapsed := el),
         view := e.view.(ttsProgress := TickProgress(el, e.interval.fullDuration), ttsCurrentTime := el))
  }

  /** The media element learns its duration (it ends the position at it). */
  function MetadataLoad(e: Engine, d: PositiveReal): (r: Engine)
    requires Core(e)
    ensures Core(r) && (Valid(e) ==> Valid(r))
    ensures e.mode == Speech ==> r == e
    ensures e.mode == AudioUrl ==> r.media.duration == Some(d as real)
  {
    if e.mode == Speech then e
    else e.(media := Media(Min(e.media.currentTime, d), Some(d as real)))
  }

  /** The media element's position moves while it plays. */
  function MediaAdvance(e: Engine, t: real): (r: Engine)
    requires Core(e)
    ensures Core(r) && (Valid(e) ==> Valid(r))
    ensures e.mode == Speech ==> r == e
  {
    if e.mode == Speech then e else SetAudioTime(e, t)
  }

  /** `onTimeUpdate`: copy position, duration and percent unless the
      duration is still NaN. */
  function TimeUpdate(e: Engine): (r: Engine)
    requires Core(e)
    ensures Core(r) && (Valid(e) ==> Valid(r))
    ensures e.mode == Speech || e.media.duration.None? ==> r == e
    ensures e.mode == AudioUrl && e.media.duration.Some? ==>
              r.view.ttsCurrentTime == e.media.currentTime && r.view.ttsDuration == e.media.duration.value &&
              r.view.ttsProgress == PercentOf(e.media.currentTime, e.media.duration.value)
  {
    if e.mode == Speech || e.media.duration.None? then e
    else
      var d := e.media.duration.value;
      PercentBounds(e.media.currentTime, d);
      e.(view := e.view.(ttsCurrentTime := e.media.currentTime, ttsDuration := d,
                         ttsProgress := PercentOf(e.media.currentTime, d)))
  }

  /** `onEnded`: not playing, progress 100. */
  function MediaEnd(e: Engine): (r: Engine)
    requires Core(e)
    ensures Core(r) && (Valid(e) ==> Valid(r))
    ensures e.mode == Speech ==> r == e
    ensures e.mode == AudioUrl ==> r == e.(view := e.view.(isPlaying := false, ttsProgress := 100.0))
  {
    if e.mode == Speech then e else e.(view := e.view.(isPlaying := false, ttsProgress := 100.0))
  }

  /** `onPause`. */
  function MediaPause(e: Engine): (r: Engine)
    requires Core(e)
    ensures Core(r) && (Valid(e) ==> Valid(r))
    ensures e.mode == AudioUrl ==> r == e.(view := e.view.(isPlaying := false))
  {
    if e.mode == Speech then e else e.(view := e.view.(isPlaying := false))
  }

  /** `onPlay`. */
  function MediaPlay(e: Engine): (r: Engine)
    requires Core(e)
    ensures Core(r) && (Valid(e) ==> Valid(r))
    ensures e.mode == AudioUrl ==> r == e.(view := e.view.(isPlaying := true, showControls := true))
  {
    if e.mode == Speech then e else e.(view := e.view.(isPlaying := true, showControls := true))
  }

  /** One event applied to the engine. */
  function Step(e: Engine, ev: Event): (r: Engine)
    requires Core(e)
    ensures Core(r) && (Valid(e) ==> Valid(r))
  {
    match ev
    case Mounted(o) => Mount(e, o)
    case UnlockTapped(o) => UnlockTap(e, o)
    case TogglePressed => Toggle(e)
    case MiniTogglePressed => MiniToggle(e)
    case StopPressed => Stop(e)
    case CloseStopPressed => StopAndClose(e)
    case ForwardPressed => SeekForward(e)
    case BackwardPressed => SeekBackward(e)
    case TimeoutFired(i, o) => TimeoutFire(e, i, o)
    case SpeechStarted => SpeechStart(e)
    case SpeechEnded => SpeechEnd(e)
    case SpeechErrored => SpeechError(e)
    case IntervalTicked => Tick(e)
    case MetadataLoaded(d) => MetadataLoad(e, d)
    case MediaAdvanced(t) => MediaAdvance(e, t)
    case TimeUpdated => TimeUpdate(e)
    case MediaEnded => MediaEnd(e)
    case MediaPaused => MediaPause(e)
    case MediaPlayed => MediaPlay(e)
  }

  /** A sequence of events applied in order. */
  function Run(e: Engine, evs: seq<Event>): (r: Engine)
    requires Core(e)
    ensures Core(r) && (Valid(e) ==> Valid(r))
    decreases |evs|
  {
    if evs == [] then e else Run(Step(e, evs[0]), evs[1..])
  }

  /** One event applied to the page as written: both play/pause buttons and
      the backward button run the handlers as the page writes them. */
  function StepAsWritten(e: Engine, ev: Event): (r: Engine)
    requires Core(e)
    ensures Core(r)
    ensures ev != TogglePressed && ev != MiniTogglePressed && ev != BackwardPressed ==> r == Step(e, ev)
  {
    match ev
    case TogglePressed => ToggleAsWritten(e)
    case MiniTogglePressed => MiniToggleAsWritten(e)
    case BackwardPressed => SeekBackwardAsWritten(e)
    case _ => Step(e, ev)
  }

  /** A sequence of events applied in order to the page as written. */
  function RunAsWritten(e: Engine, evs: seq<Event>): (r: Engine)
    requires Core(e)
    ensures Core(r)
    decreases |evs|
  {
    if evs == [] then e else RunAsWritten(StepAsWritten(e, evs[0]), evs[1..])
  }
}
