/** The NFC presence page: an animation that runs
    idle, triggered, reveal, presence, transition, active. The mount effect
    schedules the trigger 500 ms after the first render; the trigger shows
    the ripple and reveals the logo 300 ms later; an upward swipe of the
    logo brings in the presence card; when the card reports completion the
    page moves on to the audio theater, which becomes active 800 ms later,
    starts the audio and fades its volume in. */
module PresenceCard {
  import opened Common

  datatype Phase = Idle | Triggered | Reveal | Presence | Transition | Active

  /** The position of a phase in the intended order. */
  function Rank(p: Phase): (n: nat)
    ensures n <= 5
    ensures n == 0 <==> p == Idle
    ensures n == 5 <==> p == Active
  {
    match p
    case Idle => 0
    case Triggered => 1
    case Reveal => 2
    case Presence => 3
    case Transition => 4
    case Active => 5
  }

  /** The pending `setTimeout` callbacks. */
  datatype Timer =
    | TriggerTimer   // the mount effect's 500 ms timer
    | RevealTimer    // the trigger's 300 ms timer
    | ActiveTimer    // the presence completion's 800 ms timer

  /** `audioRef.current`: whether the audio object exists, and its volume. */
  datatype Audio = Audio(attached: bool, volume: real)

  /** The volume fade interval: whether it is running, and its `vol`. */
  datatype Fade = Fade(running: bool, vol: real)

  datatype Card = Card(
    phase: Phase,
    yOffset: real,
    scrollProgress: real,
    audioProgress: real,
    isPlaying: bool,
    audio: Audio,
    fade: Fade,
    timers: seq<Timer>)

  /** Fade step and drag threshold. */
  const FadeStep: real := 0.05
  const SwipeThreshold: real := -100.0

  /** The first render with its mount effects run: the trigger timer is
      pending and the audio object exists at volume 0. */
  function Initial(): Card
  {
    Card(Idle, 0.0, 0.0, 0.0, false, Audio(true, 0.0), Fade(false, 0.0), [TriggerTimer])
  }

  ghost predicate WellFormed(s: Card)
  {
    s.yOffset <= 0.0 &&
    0.0 <= s.audio.volume <= 1.0 &&
    0.0 <= s.fade.vol < 1.0 + FadeStep &&
    (s.fade.running ==> s.phase == Active && s.audio.attached) &&
    s.audio.attached
  }

  /** `setPhase(p)` followed by the fade effect, which depends on the phase:
      a new phase stops a running fade and, when it is `active` with the
      audio present, starts a new one from `vol = 0`. Setting the phase it
      already has changes nothing. */
  function SetPhase(s: Card, p: Phase): (r: Card)
    ensures r.phase == p
    ensures p == s.phase ==> r == s
    ensures p != s.phase ==> r == s.(phase := p, fade := Fade(p == Active && s.audio.attached, 0.0))
  {
    if p == s.phase then s
    else s.(phase := p, fade := Fade(p == Active && s.audio.attached, 0.0))
  }

  /** `handleTriggerSequence`, run from the closure of the render whose
      phase was `seen` (the mount timer's closure is the first render's, so
      it sees `idle`). It acts only from `idle`. */
  function TriggerSequence(s: Card, seen: Phase): (r: Card)
    ensures seen != Idle ==> r == s
    ensures seen == Idle ==> r.phase == Triggered && r.timers == s.timers + [RevealTimer]
  {
    if seen != Idle then s
    else
      var t := SetPhase(s, Triggered);
      t.(timers := t.timers + [RevealTimer])
  }

  /** `handleSwipeComplete`: unconditionally to `presence`. */
  function SwipeComplete(s: Card): (r: Card)
    ensures r.phase == Presence && r.timers == s.timers && r.yOffset == s.yOffset
  {
    SetPhase(s, Presence)
  }

  /** `onDrag`: only an upward offset is recorded. */
  function Drag(s: Card, offsetY: real): (r: Card)
    ensures r.yOffset == (if offsetY < 0.0 then offsetY else s.yOffset)
    ensures r.(yOffset := s.yOffset) == s
  {
    if offsetY < 0.0 then s.(yOffset := offsetY) else s
  }

  /** `onDragEnd`: beyond 100 px up the swipe completes, otherwise the logo
      snaps back. */
  function DragEnd(s: Card, offsetY: real): (r: Card)
    ensures offsetY < SwipeThreshold ==> r == SwipeComplete(s)
    ensures !(offsetY < SwipeThreshold) ==> r == s.(yOffset := 0.0)
  {
    if offsetY < SwipeThreshold then SwipeComplete(s) else s.(yOffset := 0.0)
  }

  /** `handlePresenceComplete`: to `transition`, scheduling the activation. */
  function PresenceComplete(s: Card): (r: Card)
    ensures r.phase == Transition && r.timers == s.timers + [ActiveTimer]
    ensures r.isPlaying == s.isPlaying
    ensures s.phase != Transition ==> r.fade == Fade(false, 0.0)
  {
    var t := SetPhase(s, Transition);
    t.(timers := t.timers + [ActiveTimer])
  }

  /** The activation timer's callback: to `active`, and playing when the
      audio object exists (the `play()` promise's rejection is swallowed). */
  function Activate(s: Card): (r: Card)
    ensures r.phase == Active
    ensures r.isPlaying == (s.audio.attached || s.isPlaying)
    ensures r.timers == s.timers
  {
    var t := SetPhase(s, Active);
    if t.audio.attached then t.(isPlaying := true) else t
  }

  /** `togglePlay`. */
  function TogglePlay(s: Card): (r: Card)
    ensures s.audio.attached ==> r == s.(isPlaying := !s.isPlaying)
    ensures !s.audio.attached ==> r == s
  {
    if s.audio.attached then s.(isPlaying := !s.isPlaying) else s
  }

  /** The `timeupdate` listener. `duration` is `None` while it is `NaN`; a
      zero or `NaN` duration is falsy and leaves the progress alone. */
  function TimeUpdate(s: Card, currentTime: real, duration: Option<real>): (r: Card)
    ensures duration.Some? && duration.value != 0.0 ==> r.audioProgress * duration.value == currentTime
    ensures duration.Some? && duration.value > 0.0 && 0.0 <= currentTime <= duration.value ==>
              0.0 <= r.audioProgress <= 1.0
    ensures !(duration.Some? && duration.value != 0.0) ==> r == s
    ensures r.(audioProgress := s.audioProgress) == s
  {
    if duration.Some? && duration.value != 0.0 then s.(audioProgress := currentTime / duration.value) else s
  }

  /** The `ended` listener. */
  function AudioEnd(s: Card): (r: Card)
    ensures !r.isPlaying && r.(isPlaying := s.isPlaying) == s
  {
    s.(isPlaying := false)
  }

  /** One firing of the fade interval: below full volume `vol` grows by
      0.05 and the audio volume becomes `min(vol, 1)`; at full volume the
      interval clears itself. */
  function FadeTick(s: Card): (r: Card)
    ensures !s.fade.running ==> r == s
    ensures s.fade.running && s.fade.vol < 1.0 ==>
              r.fade == Fade(true, s.fade.vol + FadeStep) &&
              r.audio.volume == (if s.audio.attached then Min(s.fade.vol + FadeStep, 1.0) else s.audio.volume)
    ensures s.fade.running && !(s.fade.vol < 1.0) ==> r == s.(fade := s.fade.(running := false))
    ensures r.audio.volume <= 1.0 || r.audio.volume == s.audio.volume
    ensures r.(fade := s.fade, audio := s.audio) == s
  {
    if !s.fade.running then s
    else if s.fade.vol < 1.0 then
      var vol := s.fade.vol + FadeStep;
      s.(fade := Fade(true, vol),
         audio := if s.audio.attached then s.audio.(volume := Min(vol, 1.0)) else s.audio)
    else s.(fade := s.fade.(running := false))
  }

  /** `DepthReading`'s scroll report. */
  function ScrollProgress(s: Card, p: real): (r: Card)
    ensures r == s.(scrollProgress := p)
  {
    s.(scrollProgress := p)
  }

  /** The pending timer `i` fires and is removed. */
  function FireTimer(s: Card, i: nat): Card
  {
    if i >= |s.timers| then s
    else
      var t := s.(timers := s.timers[..i] + s.timers[i + 1..]);
      match s.timers[i]
      case TriggerTimer => TriggerSequence(t, Idle)
      case RevealTimer => SetPhase(t, Reveal)
      case ActiveTimer => Activate(t)
  }

  datatype Event =
    | TimerFired(index: nat)
    | Dragged(offsetY: real)
    | DragEnded(offsetY: real)
    | PresenceCompleted
    | PlayToggled
    | TimeUpdated(currentTime: real, duration: Option<real>)
    | AudioEnded
    | FadeTicked
    | ScrollProgressed(progress: real)

  /** The drag layer is displayed only in the reveal phase, so drags reach
      it only then. */
  function Step(s: Card, ev: Event): Card
  {
    match ev
    case TimerFired(i) => FireTimer(s, i)
    case Dragged(y) => if s.phase == Reveal then Drag(s, y) else s
    case DragEnded(y) => if s.phase == Reveal then DragEnd(s, y) else s
    case PresenceCompleted => PresenceComplete(s)
    case PlayToggled => TogglePlay(s)
    case TimeUpdated(t, d) => TimeUpdate(s, t, d)
    case AudioEnded => AudioEnd(s)
    case FadeTicked => FadeTick(s)
    case ScrollProgressed(p) => ScrollProgress(s, p)
  }

  function Run(s: Card, evs: seq<Event>): Card
    decreases |evs|
  {
    if evs == [] then s else Run(Step(s, evs[0]), evs[1..])
  }

  // ---- Derived views ----

  datatype LogoState = Hidden | RevealLogo | MoveUp

  /** `logoState`. */
  function Logo(p: Phase): (r: LogoState)
    ensures r == Hidden <==> Rank(p) < 2
    ensures r == RevealLogo <==> Rank(p) == 2
    ensures r == MoveUp <==> Rank(p) > 2
  {
    if p == Idle || p == Triggered then Hidden
    else if p == Reveal then RevealLogo
    else MoveUp
  }

  /** `showRipple`. */
  function ShowRipple(p: Phase): (r: bool)
    ensures r <==> 1 <= Rank(p) <= 2
  {
    p == Triggered || p == Reveal
  }

  /** `showTheater`. */
  function ShowTheater(p: Phase): (r: bool)
    ensures r <==> Rank(p) >= 4
  {
    p == Transition || p == Active
  }

  /** `bgColor`: deep blue from the presence phase on, black before. */
  function BgColor(p: Phase): (r: string)
    ensures r == "#002349" <==> Rank(p) >= 3
    ensures r == "#000000" <==> Rank(p) < 3
  {
    if p == Presence || p == Transition || p == Active then "#002349" else "#000000"
  }

  /** The logo's drag offset: the recorded one only while revealing. */
  function LogoOffset(s: Card): (r: real)
    ensures s.phase != Reveal ==> r == 0.0
    ensures WellFormed(s) ==> r <= 0.0
  {
    if s.phase == Reveal then s.yOffset else 0.0
  }

  /** The ripple and the theater are never shown together, the background
      turns blue exactly when the logo moves up, and the ripple shows
      exactly until the logo has moved up. */
  lemma ViewsAgree(p: Phase)
    ensures !(ShowRipple(p) && ShowTheater(p))
    ensures BgColor(p) == "#002349" <==> Logo(p) == MoveUp
    ensures ShowRipple(p) <==> p != Idle && Logo(p) != MoveUp
    ensures ShowTheater(p) ==> Logo(p) == MoveUp
  {
  }

  // ---- Properties ----

  lemma InitialValid()
    ensures WellFormed(Initial())
  {
  }

  /** Every event keeps the state well formed. */
  lemma StepValid(s: Card, ev: Event)
    requires WellFormed(s)
    ensures WellFormed(Step(s, ev))
  {
    match ev
    case FadeTicked =>
      assert Min(s.fade.vol + FadeStep, 1.0) <= 1.0;
    case TimerFired(i) =>
    case _ =>
  }

  lemma {:induction false} RunValid(s: Card, evs: seq<Event>)
    requires WellFormed(s)
    ensures WellFormed(Run(s, evs))
    decreases |evs|
  {
    if evs != [] {
      StepValid(s, evs[0]);
      RunValid(Step(s, evs[0]), evs[1..]);
    }
  }

  /** The trigger acts only from `idle`; from there it changes the phase
      to `triggered` and schedules the reveal, and nothing else. */
  lemma TriggerOnlyFromIdle(s: Card, seen: Phase)
    requires WellFormed(s)
    ensures seen != Idle ==> TriggerSequence(s, seen) == s
    ensures seen == Idle && s.phase != Triggered ==>
              TriggerSequence(s, seen) == s.(phase := Triggered, fade := Fade(false, 0.0), timers := s.timers + [RevealTimer])
  {
  }

  /** The opening: the mount timer fires, then the reveal timer; the logo is
      revealed with the ripple behind it and the swipe layer live. */
  lemma Opening()
    ensures var r := Run(Initial(), [TimerFired(0)]);
      r.phase == Triggered && r.timers == [RevealTimer] && ShowRipple(r.phase) && Logo(r.phase) == Hidden
    ensures var r := Run(Initial(), [TimerFired(0), TimerFired(0)]);
      r.phase == Reveal && r.timers == [] && ShowRipple(r.phase) && Logo(r.phase) == RevealLogo
  {
    var evs := [TimerFired(0), TimerFired(0)];
    var r1 := Step(Initial(), TimerFired(0));
    assert r1.timers == [RevealTimer];
    assert Run(Initial(), [TimerFired(0)]) == Run(r1, []);
    assert evs[1..] == [TimerFired(0)];
    assert Run(r1, [TimerFired(0)]) == Run(Step(r1, TimerFired(0)), []);
  }

  /** While revealing, a drag records its offset only when it points up,
      and the drag end completes the swipe exactly when it is beyond 100 px
      up; otherwise the logo snaps back and the phase stays. */
  lemma DragThreshold(s: Card, y: real)
    requires s.phase == Reveal
    ensures Step(s, Dragged(y)).yOffset == (if y < 0.0 then y else s.yOffset)
    ensures Step(s, DragEnded(y)).phase == Presence <==> y < SwipeThreshold
    ensures !(y < SwipeThreshold) ==> Step(s, DragEnded(y)) == s.(yOffset := 0.0)
  {
  }

  /** Outside the reveal phase drags change nothing. */
  lemma DragsIgnoredOutsideReveal(s: Card, y: real)
    requires s.phase != Reveal
    ensures Step(s, Dragged(y)) == s && Step(s, DragEnded(y)) == s
  {
  }

  /** Presence completion followed by its timer: the page is active, the
      audio is playing, the fade runs from zero and the timers are as before. */
  lemma PresenceThenActive(s: Card)
    requires WellFormed(s)
    ensures var r := Run(s, [PresenceCompleted, TimerFired(|s.timers|)]);
      r.phase == Active && r.isPlaying && r.fade == Fade(true, 0.0) && r.timers == s.timers &&
      ShowTheater(r.phase) && Logo(r.phase) == MoveUp
  {
    var evs := [PresenceCompleted, TimerFired(|s.timers|)];
    var t := PresenceComplete(s);
    assert t.timers[|s.timers|] == ActiveTimer;
    assert t.timers[..|s.timers|] + t.timers[|s.timers| + 1..] == s.timers;
    assert evs[1..] == [TimerFired(|s.timers|)];
    assert Run(t, [TimerFired(|s.timers|)]) == Run(Step(t, TimerFired(|s.timers|)), []);
  }

  /** Toggling twice gives back the playing flag. */
  lemma TogglePlayTwice(s: Card)
    ensures TogglePlay(TogglePlay(s)) == s
  {
  }

  /** Once the logo is revealed and the mount timer is gone, no sequence of
      events hides it again: the phase never returns to `idle` or
      `triggered`. */
  lemma {:induction false} RevealedStays(s: Card, evs: seq<Event>)
    requires TriggerTimer !in s.timers && Rank(s.phase) >= 2
    ensures TriggerTimer !in Run(s, evs).timers && Rank(Run(s, evs).phase) >= 2
    decreases |evs|
  {
    if evs != [] {
      var t := Step(s, evs[0]);
      if evs[0].TimerFired? && evs[0].index < |s.timers| {
        var i := evs[0].index;
        assert forall x :: x in s.timers[..i] + s.timers[i + 1..] ==> x in s.timers;
        assert s.timers[i] in s.timers;
      }
      assert TriggerTimer !in t.timers && Rank(t.phase) >= 2;
      RevealedStays(t, evs[1..]);
    }
  }

  // ---- The fade ----

  /** `k` firings of the fade interval. */
  function FadeTicks(s: Card, k: nat): Card
  {
    if k == 0 then s else FadeTick(FadeTicks(s, k - 1))
  }

  /** From a fade started at zero, after `k` firings `vol` is `0.05 k` up
      to twenty firings, when it is exactly 1; the twenty-first clears the
      interval; the volume follows `vol`, so it never exceeds 1. */
  lemma {:induction false} FadeClosedForm(s: Card, k: nat)
    requires s.fade == Fade(true, 0.0) && s.audio.attached
    ensures var r := FadeTicks(s, k);
      r.fade.vol == FadeStep * (if k <= 20 then k else 20) as real &&
      (r.fade.running <==> k <= 20) &&
      (k > 0 ==> r.audio.volume == r.fade.vol) && r.audio.attached &&
      r.(fade := s.fade, audio := s.audio) == s
    decreases k
  {
    if k > 0 {
      FadeClosedForm(s, k - 1);
      var p := FadeTicks(s, k - 1);
      if k <= 20 {
        assert p.fade.vol == FadeStep * (k - 1) as real < 1.0;
      } else if k == 21 {
        assert p.fade.vol == 1.0;
      }
    }
  }

  /** The page's state and refs as an object, one method per handler or
      callback. */
  class NfcPage {
    var phase: Phase
    var yOffset: real
    var scrollProgress: real
    var audioProgress: real
    var isPlaying: bool
    var audio: Audio
    var fade: Fade
    var timers: seq<Timer>

    function Snapshot(): Card
      reads this
    {
      Card(phase, yOffset, scrollProgress, audioProgress, isPlaying, audio, fade, timers)
    }

    ghost predicate Valid()
      reads this
    {
      WellFormed(Snapshot())
    }

    constructor ()
      ensures Valid() && Snapshot() == Initial()
    {
      phase := Idle;
      yOffset := 0.0;
      scrollProgress := 0.0;
      audioProgress := 0.0;
      isPlaying := false;
      audio := Audio(true, 0.0);
      fade := Fade(false, 0.0);
      timers := [TriggerTimer];
    }

    /** `setPhase` together with the fade effect it triggers. */
    method ChangePhase(p: Phase)
      modifies this
      ensures Snapshot() == SetPhase(old(Snapshot()), p)
    {
      if p != phase {
        phase := p;
        fade := Fade(p == Active && audio.attached, 0.0);
      }
    }

    method HandleTriggerSequence(seen: Phase)
      modifies this
      ensures Snapshot() == TriggerSequence(old(Snapshot()), seen)
    {
      if seen != Idle {
        return;
      }
      ChangePhase(Triggered);
      timers := timers + [RevealTimer];
    }

    method HandleSwipeComplete()
      modifies this
      ensures Snapshot() == SwipeComplete(old(Snapshot()))
    {
      ChangePhase(Presence);
    }

    method OnDrag(offsetY: real)
      modifies this
      ensures Snapshot() == Drag(old(Snapshot()), offsetY)
    {
      if offsetY < 0.0 {
        yOffset := offsetY;
      }
    }

    method OnDragEnd(offsetY: real)
      modifies this
      ensures Snapshot() == DragEnd(old(Snapshot()), offsetY)
    {
      if offsetY < SwipeThreshold {
        HandleSwipeComplete();
      } else {
        yOffset := 0.0;
      }
    }

    method HandlePresenceComplete()
      modifies this
      ensures Snapshot() == PresenceComplete(old(Snapshot()))
    {
      ChangePhase(Transition);
      timers := timers + [ActiveTimer];
    }

    method HandleTogglePlay()
      modifies this
      ensures Snapshot() == TogglePlay(old(Snapshot()))
    {
      if audio.attached {
        isPlaying := !isPlaying;
      }
    }

    method OnTimeUpdate(currentTime: real, duration: Option<real>)
      modifies this
      ensures Snapshot() == TimeUpdate(old(Snapshot()), currentTime, duration)
    {
      if duration.Some? && duration.value != 0.0 {
        audioProgress := currentTime / duration.value;
      }
    }

    method OnEnded()
      modifies this
      ensures Snapshot() == AudioEnd(old(Snapshot()))
    {
      isPlaying := false;
    }

    method OnFadeTick()
      modifies this
      ensures Snapshot() == FadeTick(old(Snapshot()))
    {
      if !fade.running {
        return;
      }
      if fade.vol < 1.0 {
        var vol := fade.vol + FadeStep;
        fade := Fade(true, vol);
        if audio.attached {
          audio := audio.(volume := Min(vol, 1.0));
        }
      } else {
        fade := fade.(running := false);
      }
    }

    method OnScrollProgress(p: real)
      modifies this
      ensures Snapshot() == ScrollProgress(old(Snapshot()), p)
    {
      scrollProgress := p;
    }

    /** The pending timer `i` fires. */
    method OnTimerFired(i: nat)
      modifies this
      ensures Snapshot() == FireTimer(old(Snapshot()), i)
    {
      if i >= |timers| {
        return;
      }
      var timer := timers[i];
      timers := timers[..i] + timers[i + 1..];
      match timer
      case TriggerTimer =>
        HandleTriggerSequence(Idle);
      case RevealTimer =>
        ChangePhase(Reveal);
      case ActiveTimer =>
        ChangePhase(Active);
        if audio.attached {
          isPlaying := true;
        }
    }

    /** The fade interval firing `ticks` times in a row. */
    method RunFade(ticks: nat)
      requires Valid() && fade == Fade(true, 0.0)
      modifies this
      ensures Snapshot() == FadeTicks(old(Snapshot()), ticks)
      ensures (fade.running <==> ticks <= 20) && audio.volume <= 1.0
      ensures ticks >= 20 ==> audio.volume == 1.0
    {
      var k := 0;
      while k < ticks
        invariant k <= ticks
        invariant Snapshot() == FadeTicks(old(Snapshot()), k)
      {
        OnFadeTick();
        k := k + 1;
      }
      FadeClosedForm(old(Snapshot()), ticks);
    }
  }
}
