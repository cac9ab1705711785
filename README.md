# Newsletter pages: narration, swipe pager, advisor filter, presence card

This project models four pieces of client-side logic in a Next.js newsletter
site and proves properties of them in Dafny.

- **The flow-magnets narration engine.** One narration plays either a streamed
  audio URL (the `<audio>` element is rendered only when `ttsUrl` is truthy)
  or speech synthesis of the newsletter's `consume` text. The engine covers
  the mount effect, the audio-unlock tap, play/pause, stop and the mini
  player's stop-and-close, the two 15-second seeks, and the pending
  `setTimeout` restarts. It also covers the utterance's `onstart`, `onend`
  and `onerror` handlers, the 100 ms progress interval, and the `<audio>`
  element's listeners.
  - `NarrationEngine` holds the state as a value, with one pure transition
    per handler.
  - Two invariants are proved. `Core` holds on every state the page can
    reach as written: times are non-negative, start calls are well formed,
    and the streamed backend never touches speech. `Valid` adds that the
    progress stays within [0, 100] and that the progress interval runs
    exactly while speech plays; the page as written breaks both (see
    Findings), so `Valid` is kept by the corrected page only. `Step`/`Run`
    apply events to the corrected page, `StepAsWritten`/`RunAsWritten` to
    the page as written.
  - `NarrationPlayer.Player` is the same state as an object. Each of its
    methods is proved to compute the matching transition.
  - React handlers read the state of the render that created them, so every
    start call carries the text length and duration its closure saw.
  - `NarrationTime` holds the time arithmetic. `ClockFormat` holds
    `formatTime`.
- **The flow-magnets touch pager (`SwipePager`).** A vertical swipe of more
  than 50 px moves one page. The pager then stays locked until the 600 ms
  timer fires, modelled as the `LockExpired` event.
- **The advisor directory (`AdvisorFilter`, `AdvisorPanel`, `JsText`).**
  - The filter effect narrows the list by office, language, specialty and an
    optional case-insensitive name search.
  - The panel keeps an edited record (`tempFilters`) apart from the applied
    one (`filters`). Its handlers apply, clear and select.
  - `JsText` models JavaScript's `trim`, `toLowerCase` and `includes`.
- **The NFC presence page (`PresenceCard`).** The page moves through the
  phases idle → triggered → reveal → presence → transition → active. Timers,
  a drag gesture and a completion callback drive it. The module also covers
  the views derived from the phase (ripple, logo state, theater, background)
  and the volume fade-in interval.

Timers, intervals, promises and native media are events or parameters that
the caller supplies. Times are `real` seconds.

## Model

| member | source | states |
|---|---|---|
| NarrationTime.EstimatedDuration | app/flow-magnets/page.tsx:336-337 | the estimate is the length over ten characters per second; it is positive exactly for a non-empty text |
| NarrationTime.EffectiveDuration | app/flow-magnets/page.tsx:435 | a non-zero recorded duration wins; a zero one falls back to the estimate; a non-empty text always gets a positive duration |
| NarrationTime.Substring | app/flow-magnets/page.tsx:445 | `substring` gives the suffix from a start in range, the whole text for a negative start and nothing past the end |
| NarrationTime.TickProgress | app/flow-magnets/page.tsx:343-347 | the tick's progress lies in [0, 100]; it is the exact percentage before the end and 100 at or after it, including a zero full duration |
| NarrationTime.PercentBounds | app/flow-magnets/page.tsx:438 | a time within the duration is at most 100 percent, and below 100 before the end |
| NarrationTime.ForwardTimeBounds | app/flow-magnets/page.tsx:436 | the forward seek stays in [0, duration], moves at most 15 s, and moves exactly 15 s when that fits |
| NarrationTime.SeekRoundTrip | app/flow-magnets/page.tsx:436-472 | forward 15 s then back 15 s returns to the start when the forward step was not cut short |
| NarrationTime.StartCharInRange | app/flow-magnets/page.tsx:443-445 | the restart character of a time in [0, duration] is in [0, length], and strictly inside the text before the end |
| NarrationTime.TickProgressMonotone | app/flow-magnets/page.tsx:344-346 | the progress never decreases as elapsed time grows |
| NarrationTime.TickLoop | app/flow-magnets/page.tsx:340-348 | after n interval firings, elapsed has grown by 0.1 s per firing and the progress is the tick progress of the final time, within [0, 100] |
| NarrationTime.TwoHundredCharsAfterFiveSeconds | app/flow-magnets/page.tsx:336-346 | 200 characters are estimated at 20 s, and 50 ticks from 0 show 25 percent |
| ClockFormat.NatToString | app/flow-magnets/page.tsx:500 | the decimal form of a number is all digits; it has one digit below 10 and two below 100 |
| ClockFormat.PadStart2 | app/flow-magnets/page.tsx:500 | `padStart(2, '0')` leaves two or more characters alone and yields length 2 otherwise |
| ClockFormat.ParseNatToString | app/flow-magnets/page.tsx:500 | reading the decimal form back gives the number |
| ClockFormat.FormatTimeParts | app/flow-magnets/page.tsx:497-501 | for a non-negative time, the truncating `%` and the two floors give the quotient and remainder of the whole seconds by 60 |
| ClockFormat.FormatTimeRoundTrip | app/flow-magnets/page.tsx:497-501 | formatting a non-negative time as `M:SS` and parsing it back gives its whole seconds, so no two whole-second times format alike |
| NarrationEngine.FirstLine | app/flow-magnets/page.tsx:260 | `split('\n')[0]` is a prefix of the title with no line break, ending at the first break or at the end |
| NarrationEngine.Initial | app/flow-magnets/page.tsx:60-81 | the first render is valid, not unlocked, not playing, has no text and no timers, and its backend is chosen by `ttsUrl` |
| NarrationEngine.SetAudioTime | app/flow-magnets/page.tsx:301 | assigning the media position keeps it in [0, duration] and changes nothing else |
| NarrationEngine.Stop | app/flow-magnets/page.tsx:405-422 | stopping clears playing, progress, time, the interval, speaking and the media position |
| NarrationEngine.StartPlayback | app/flow-magnets/page.tsx:297-372 | speech queues the call's utterance; unsupported speech changes nothing; the audio backend never speaks; timers and unlock are kept |
| NarrationEngine.Mount | app/flow-magnets/page.tsx:256-294 | the title's first line is shown; a URL shows "Audio available" and prompts unless unlocked playback succeeds; `consume` becomes the text and is scheduled in 500 ms only when unlocked, else the prompt is shown |
| NarrationEngine.UnlockTap | app/flow-magnets/page.tsx:232-253 | the tap always unlocks and hides the prompt; with audio it plays exactly when `play()` resolves; without it, it starts speaking `consume` at once |
| NarrationEngine.ToggleAsWritten | app/flow-magnets/page.tsx:375-402 | the toggle as written keeps the core invariant: speech without an utterance is untouched; with one, the playing flag flips, pausing stops the interval and resuming leaves it as it was, which from a state of the corrected page means stopped |
| NarrationEngine.Toggle | app/flow-magnets/page.tsx:375-402 | the corrected toggle: the playing flag flips, and for speech the interval runs exactly while playing, resuming from the shown time |
| NarrationEngine.MiniToggle | app/flow-magnets/page.tsx:744-749 | the corrected mini player button: it runs the corrected toggle only while there is text |
| NarrationEngine.MiniToggleAsWritten | app/flow-magnets/page.tsx:744-749 | the mini player button as written: the same text guard over the toggle as written, keeping the core invariant, the unlock and the backend |
| NarrationEngine.Restart | app/flow-magnets/page.tsx:447-456 | a speech restart cancels, marks paused, clears the interval and schedules the suffix of the text from the restart character |
| NarrationEngine.SeekDuration | app/flow-magnets/page.tsx:435 | a seek's duration is positive whenever there is text |
| NarrationEngine.SpeechSeekTo | app/flow-magnets/page.tsx:438-456 | a speech seek to a time within the duration shows that time and its percentage, restarts playing speech from it unless it is the end, and otherwise leaves playback, the synthesizer and the timers alone |
| NarrationEngine.SeekForward | app/flow-magnets/page.tsx:425-458 | with audio the position moves forward within the duration, or not at all while the duration is unknown; speech gets the new time and percentage, and restarts exactly when playing and short of the end |
| NarrationEngine.SeekBackwardAsWritten | app/flow-magnets/page.tsx:461-494 | the backward seek as written keeps only the core invariant: with audio the position moves back 15 s floored at 0; for speech the new time is bounded only below, a playing seek always stops playback and the interval and schedules a restart, and a paused seek leaves playback, the synthesizer and the timers alone |
| NarrationEngine.SeekBackward | app/flow-magnets/page.tsx:461-494 | the corrected backward seek: the time is clamped to [0, duration], the percentage follows, and it restarts exactly when playing and before the end, as the forward seek does |
| NarrationEngine.StopAndClose | app/flow-magnets/page.tsx:765-776 | with text it is Stop followed by clearing text, title, progress, time and duration and hiding the controls; without text nothing changes |
| NarrationEngine.TimeoutFire | app/flow-magnets/page.tsx:286-288 | the fired timer is removed from the pending list and its call starts speech when speech is supported |
| NarrationEngine.SpeechStart | app/flow-magnets/page.tsx:332-349 | `onstart` reports playing and starts the interval at the call's start time, with the duration estimated from the text length the call saw |
| NarrationEngine.SpeechEnd | app/flow-magnets/page.tsx:351-359 | `onend` stops playing, sets progress 100 and the time to the duration the call saw, and clears the interval |
| NarrationEngine.SpeechError | app/flow-magnets/page.tsx:361-368 | `onerror` stops playing and clears the interval but keeps progress and time |
| NarrationEngine.Tick | app/flow-magnets/page.tsx:343-348 | a firing adds 0.1 s, shows the new time, and sets the tick progress |
| NarrationEngine.MetadataLoad | app/flow-magnets/page.tsx:835-838 | the media element learns a positive duration and keeps its position within it |
| NarrationEngine.MediaAdvance | app/flow-magnets/page.tsx:835-838 | the media position moves only on the audio backend |
| NarrationEngine.TimeUpdate | app/flow-magnets/page.tsx:839-846 | while the duration is known, the view copies time and duration and shows their percentage; otherwise nothing changes |
| NarrationEngine.MediaEnd | app/flow-magnets/page.tsx:847-850 | `onEnded` stops playing and sets progress 100 |
| NarrationEngine.MediaPause | app/flow-magnets/page.tsx:851 | `onPause` clears the playing flag |
| NarrationEngine.MediaPlay | app/flow-magnets/page.tsx:852-855 | `onPlay` sets playing and shows the controls |
| NarrationEngine.Step | app/flow-magnets/page.tsx:232-858 | on the corrected page, every handler and platform event keeps the core invariant (non-negative times, well-formed calls, audio mode never touching speech), and from a `Valid` state also progress in [0, 100] and the interval running exactly while speech plays |
| NarrationEngine.Run | app/flow-magnets/page.tsx:232-858 | every sequence of events on the corrected page keeps the core invariant, and `Valid` from a `Valid` start |
| NarrationEngine.StepAsWritten | app/flow-magnets/page.tsx:232-858 | on the page as written, every event keeps the core invariant; the main and mini play/pause buttons and the backward seek run their handlers as written, and every other event acts as on the corrected page |
| NarrationEngine.RunAsWritten | app/flow-magnets/page.tsx:232-858 | every sequence of events on the page as written keeps the core invariant |
| NarrationProperties.StopIdempotent | app/flow-magnets/page.tsx:405-422 | stopping twice is stopping once |
| NarrationProperties.StopChangesOnlyPlayback | app/flow-magnets/page.tsx:405-422 | stop leaves the text, title, duration, timers, utterance and unlock fact as they were |
| NarrationProperties.StepKeepsUnlocked | app/flow-magnets/page.tsx:232-253 | no event takes back the unlock |
| NarrationProperties.StepKeepsMode | app/flow-magnets/page.tsx:835-858 | no event changes the backend |
| NarrationProperties.RunKeepsUnlockedAndMode | app/flow-magnets/page.tsx:232-858 | over any sequence of events on the corrected page, from any state with the core invariant, the backend is fixed and an unlock stays |
| NarrationProperties.StepAsWrittenKeepsUnlockedAndMode | app/flow-magnets/page.tsx:232-858 | on the page as written no event changes the backend or takes back the unlock |
| NarrationProperties.RunAsWrittenKeepsUnlockedAndMode | app/flow-magnets/page.tsx:232-858 | over any sequence of events on the page as written the backend is fixed and an unlock stays |
| NarrationProperties.AsWrittenAgreesOnAudio | app/flow-magnets/page.tsx:375-494 | with a URL, the page as written and the corrected page give the same state for every event |
| NarrationProperties.RunAsWrittenOnAudio | app/flow-magnets/page.tsx:232-858 | with a URL, the page as written and the corrected page agree on every sequence of events |
| NarrationProperties.AudioUrlNeverSpeaks | app/flow-magnets/page.tsx:262-279 | with a URL, no sequence of events ever attaches the synthesizer, queues an utterance or schedules a restart |
| NarrationProperties.SourcePriority | app/flow-magnets/page.tsx:256-294 | at mount a truthy URL wins over `consume`; the text falls back to `consume`; before unlocking, the prompt is shown and nothing is scheduled |
| NarrationProperties.TickNeverDecreases | app/flow-magnets/page.tsx:343-348 | two ticks in a row never lower the progress |
| NarrationProperties.ForwardRestartText | app/flow-magnets/page.tsx:442-456 | a playing forward seek short of the end restarts with a non-empty proper suffix of the text |
| NarrationProperties.BackwardRestartText | app/flow-magnets/page.tsx:472-492 | a playing corrected backward seek that lands before the end restarts with a non-empty proper suffix of the text; one that lands on the end schedules nothing and speech carries on |
| NarrationProperties.PausedSeekDoesNotRestart | app/flow-magnets/page.tsx:442 | a paused seek schedules nothing and speaks nothing |
| NarrationProperties.ForwardThenBackward | app/flow-magnets/page.tsx:425-494 | paused speech: forward then back returns to the same time when forward was not cut short |
| NarrationProperties.ForwardThenBackwardAudio | app/flow-magnets/page.tsx:427-463 | the same round trip on the media position |
| NarrationProperties.BackwardSeekOvershoots | app/flow-magnets/page.tsx:472-481 | as written, 40 s into a 10 s estimate the backward seek shows 250 percent and restarts from character 250 of 100, that is from nothing, leaving the corrected page's invariant |
| NarrationProperties.OverrunSeekClamped | app/flow-magnets/page.tsx:472-478 | corrected, the same seek lands on the end of the estimate at 100 percent and lets the running speech carry on instead of scheduling an empty restart |
| NarrationProperties.BackwardSeekBounded | app/flow-magnets/page.tsx:461-494 | with the clamp, the time stays in [0, duration] and the progress in [0, 100] |
| NarrationProperties.ResumeFreezesProgress | app/flow-magnets/page.tsx:390-401 | as written, pause then resume, from the main or the mini player, leaves speech reported as playing with no progress interval, leaving the corrected page's invariant |
| NarrationProperties.PauseResumeKeepsTicking | app/flow-magnets/page.tsx:390-401 | corrected: pause then resume is playing with the interval ticking from the paused time |
| NarrationPlayer.Player.constructor | app/flow-magnets/page.tsx:60-81 | the object starts in the engine's initial state |
| NarrationPlayer.Player.SetAudioTime | app/flow-magnets/page.tsx:301 | the new state is `SetAudioTime` of the old |
| NarrationPlayer.Player.Stop | app/flow-magnets/page.tsx:405-422 | the new state is `Stop` of the old |
| NarrationPlayer.Player.StartTTSPlayback | app/flow-magnets/page.tsx:297-372 | the new state is `StartPlayback` of the old |
| NarrationPlayer.Player.Mount | app/flow-magnets/page.tsx:256-294 | the new state is `Mount` of the old |
| NarrationPlayer.Player.HandleAudioUnlockTap | app/flow-magnets/page.tsx:232-253 | the new state is `UnlockTap` of the old |
| NarrationPlayer.Player.Toggle | app/flow-magnets/page.tsx:375-402 | the new state is the corrected `Toggle` of the old |
| NarrationPlayer.Player.MiniToggle | app/flow-magnets/page.tsx:744-749 | the new state is the corrected `MiniToggle` of the old |
| NarrationPlayer.Player.ScheduleRestart | app/flow-magnets/page.tsx:447-456 | the new state is `Restart` of the old |
| NarrationPlayer.Player.SeekForward15 | app/flow-magnets/page.tsx:425-458 | the new state is `SeekForward` of the old |
| NarrationPlayer.Player.SeekBackward15 | app/flow-magnets/page.tsx:461-494 | the new state is the corrected `SeekBackward` of the old |
| NarrationPlayer.Player.StopAndClose | app/flow-magnets/page.tsx:765-776 | the new state is `StopAndClose` of the old |
| NarrationPlayer.Player.FireTimeout | app/flow-magnets/page.tsx:286-288 | the new state is `TimeoutFire` of the old |
| NarrationPlayer.Player.OnSpeechStart | app/flow-magnets/page.tsx:332-349 | the new state is `SpeechStart` of the old |
| NarrationPlayer.Player.OnSpeechEnd | app/flow-magnets/page.tsx:351-359 | the new state is `SpeechEnd` of the old |
| NarrationPlayer.Player.OnSpeechError | app/flow-magnets/page.tsx:361-368 | the new state is `SpeechError` of the old |
| NarrationPlayer.Player.OnIntervalTick | app/flow-magnets/page.tsx:343-348 | the new state is `Tick` of the old |
| NarrationPlayer.Player.OnLoadedMetadata | app/flow-magnets/page.tsx:835-838 | the new state is `MetadataLoad` of the old |
| NarrationPlayer.Player.OnMediaAdvance | app/flow-magnets/page.tsx:835-838 | the new state is `MediaAdvance` of the old |
| NarrationPlayer.Player.OnTimeUpdate | app/flow-magnets/page.tsx:839-846 | the new state is `TimeUpdate` of the old |
| NarrationPlayer.Player.OnEnded | app/flow-magnets/page.tsx:847-850 | the new state is `MediaEnd` of the old |
| NarrationPlayer.Player.OnPause | app/flow-magnets/page.tsx:851 | the new state is `MediaPause` of the old |
| NarrationPlayer.Player.OnPlay | app/flow-magnets/page.tsx:852-855 | the new state is `MediaPlay` of the old |
| SwipePager.SwipeTarget | app/flow-magnets/page.tsx:552-571 | the page goes forward exactly when the swipe is more than 50 px up and a next page exists, back exactly when more than 50 px down and a previous page exists, and stays otherwise |
| SwipePager.TouchStart | app/flow-magnets/page.tsx:520-528 | a touch on the bottom controls, or during a touch or lock, is dropped; otherwise both heights are recorded |
| SwipePager.TouchMove | app/flow-magnets/page.tsx:530-533 | a move updates the end height only during a touch |
| SwipePager.TouchEnd | app/flow-magnets/page.tsx:535-575 | the touch ends; an unrecorded (0) or equal height leaves the page; otherwise the page is `SwipeTarget`, and the pager locks exactly when the page changed |
| SwipePager.Unlock | app/flow-magnets/page.tsx:561-563 | the lock timer clears only the lock |
| SwipePager.StepBounded | app/flow-magnets/page.tsx:557-571 | every event keeps the page in range and moves it by at most one |
| SwipePager.OnlyTouchEndMoves | app/flow-magnets/page.tsx:520-575 | only a touch end changes the page |
| SwipePager.LockedDropsTouches | app/flow-magnets/page.tsx:524-538 | while locked, touch starts and ends leave the pager as it is |
| SwipePager.RunInRange | app/flow-magnets/page.tsx:557-571 | every sequence of events keeps the page in range |
| SwipePager.LockHoldsPage | app/flow-magnets/page.tsx:557-570 | after a page move, no events move the page again until the lock expires |
| SwipePager.ControlsTouchIgnored | app/flow-magnets/page.tsx:521-522 | a touch on the bottom controls, with its moves and end, changes nothing but the touching flag |
| SwipePager.MovesIgnored | app/flow-magnets/page.tsx:530-538 | moves outside a touch change nothing |
| SwipePager.SwipeGesture | app/flow-magnets/page.tsx:520-575 | a start, a move and an end turn the page exactly as `SwipeTarget` says and lock exactly when it changed |
| SwipePager.SwipeController.constructor | app/flow-magnets/page.tsx:71-75 | the refs start at page 0, unlocked and untouched |
| SwipePager.SwipeController.HandleTouchStart | app/flow-magnets/page.tsx:520-528 | the new state is `TouchStart` of the old |
| SwipePager.SwipeController.HandleTouchMove | app/flow-magnets/page.tsx:530-533 | the new state is `TouchMove` of the old |
| SwipePager.SwipeController.HandleTouchEnd | app/flow-magnets/page.tsx:535-575 | the new state is `TouchEnd` of the old |
| SwipePager.SwipeController.OnLockExpired | app/flow-magnets/page.tsx:561-563 | the new state is `Unlock` of the old |
| JsText.TrimStart | app/advisors/page.tsx:153 | the result is a suffix, everything dropped is white space, and it starts with a non-space or is empty exactly for an all-space string |
| JsText.TrimEnd | app/advisors/page.tsx:153 | the result is a prefix, everything dropped is white space, and it ends with a non-space or is empty exactly for an all-space string |
| JsText.TrimEmptyIff | app/advisors/page.tsx:153 | `trim()` is falsy exactly for an all-white-space search |
| JsText.LowerChar | app/advisors/page.tsx:155 | a capital moves to its small letter and nothing else changes; no capital is left |
| JsText.Lower | app/advisors/page.tsx:155 | `toLowerCase` keeps the length and lowers each character |
| JsText.LowerIdempotent | app/advisors/page.tsx:155 | lowering twice is lowering once |
| JsText.LowerCharKeepsSpace | app/advisors/page.tsx:153-155 | lowering maps white space to white space and nothing else to it |
| JsText.LowerKeepsBlank | app/advisors/page.tsx:153-155 | lowering does not change whether a string trims to nothing |
| JsText.IncludesIff | app/advisors/page.tsx:155 | `includes` is true exactly when the search occurs at some position |
| JsText.IncludesEmpty | app/advisors/page.tsx:155 | the empty search is found in every name |
| AdvisorFilter.Cleared | app/advisors/page.tsx:30-36 | the default record has every selection at its "Any" value and an empty name |
| AdvisorFilter.Filter | app/advisors/page.tsx:135 | `filter` keeps only elements that pass and every element that passes occurs in the result, in order, never more than it had |
| AdvisorFilter.FilterCounts | app/advisors/page.tsx:135 | `filter` keeps each passing element exactly as many times as it occurs, and no other element |
| AdvisorFilter.Shown | app/advisors/page.tsx:131-160 | the reference result holds only, and all of, the advisors that match every non-default selection, in fetched order |
| AdvisorFilter.ShownCounts | app/advisors/page.tsx:131-160 | the reference result holds each matching advisor exactly as many times as the list does, and no other |
| AdvisorFilter.FilterInSteps | app/advisors/page.tsx:131-160 | the effect's step-by-step narrowing of a copy computes the pipeline, which equals the reference result |
| AdvisorFilter.FilterConcat | app/advisors/page.tsx:135 | filtering distributes over concatenation |
| AdvisorFilter.FilterAdvisorsConcat | app/advisors/page.tsx:131-160 | the whole pipeline distributes over concatenation |
| AdvisorFilter.FilterAdvisorsSingle | app/advisors/page.tsx:131-160 | on one advisor the pipeline keeps it exactly when it matches |
| AdvisorFilter.FilterAdvisorsIsShown | app/advisors/page.tsx:131-160 | the successive steps compute the single conjunction of the selections |
| AdvisorFilter.FilterAdvisorsSpec | app/advisors/page.tsx:131-160 | the result is a subsequence of the list holding each matching advisor exactly as many times as the list does, and no other |
| AdvisorFilter.DefaultsShowAll | app/advisors/page.tsx:134-157 | with every selection at its default and a blank search, the whole list is shown |
| AdvisorFilter.ClearedShowsAll | app/advisors/page.tsx:182-191 | the cleared record shows every advisor |
| AdvisorFilter.OfficeExact | app/advisors/page.tsx:134-136 | an office alone keeps exactly the advisors of that office |
| AdvisorFilter.ListSelectionsExclude | app/advisors/page.tsx:138-148 | a language or specialty keeps only advisors listing it; an advisor without the list is never shown |
| AdvisorFilter.BlankNameSkipped | app/advisors/page.tsx:153 | a search that trims to nothing gives the list an empty search gives |
| AdvisorFilter.NameSearchShows | app/advisors/page.tsx:153-157 | every advisor a non-blank search shows has the search in its name, ignoring case |
| AdvisorFilter.NameCaseInsensitive | app/advisors/page.tsx:155 | searches that differ only in letter case show the same list |
| AdvisorFilter.GroupIgnored | app/advisors/page.tsx:150-151 | the group selection never changes the list |
| AdvisorFilter.ShownIdempotent | app/advisors/page.tsx:131-160 | narrowing the shown list again changes nothing |
| AdvisorFilter.FilterAdvisorsIdempotent | app/advisors/page.tsx:131-160 | running the filter effect on its own output changes nothing |
| AdvisorPanel.MenusClosed | app/advisors/page.tsx:192-195 | every drop-down is closed and the panel's visibility is kept |
| AdvisorPanel.Flip | app/advisors/page.tsx:290-401 | one drop-down flips and the others are kept |
| AdvisorPanel.AdvisorsPage.constructor | app/advisors/page.tsx:28-50 | nothing fetched, loading, both records at the defaults, panel and menus closed |
| AdvisorPanel.AdvisorsPage.FilterEffect | app/advisors/page.tsx:131-160 | the list on screen becomes the advisors matching the applied record, and nothing else changes |
| AdvisorPanel.AdvisorsPage.LoadAdvisors | app/advisors/page.tsx:110-128 | a body with advisors replaces the list and the screen follows; any outcome ends loading |
| AdvisorPanel.AdvisorsPage.OpenFilterPanel | app/advisors/page.tsx:238-245 | the panel opens on a copy of the applied record with every menu closed |
| AdvisorPanel.AdvisorsPage.CloseFilterPanel | app/advisors/page.tsx:260 | only the panel closes |
| AdvisorPanel.AdvisorsPage.ToggleMenu | app/advisors/page.tsx:290-401 | only the chosen drop-down flips |
| AdvisorPanel.AdvisorsPage.OfficeSelect | app/advisors/page.tsx:162-165 | only the edited office changes and its menu closes; the screen is untouched |
| AdvisorPanel.AdvisorsPage.GroupSelect | app/advisors/page.tsx:167-170 | only the edited group changes and its menu closes |
| AdvisorPanel.AdvisorsPage.LanguageSelect | app/advisors/page.tsx:198-201 | only the edited language changes and its menu closes |
| AdvisorPanel.AdvisorsPage.DesignationSelect | app/advisors/page.tsx:203-206 | only the edited specialty changes and its menu closes |
| AdvisorPanel.AdvisorsPage.ApplyFilters | app/advisors/page.tsx:177-180 | the edited record becomes applied, the panel closes, both records agree, and the screen follows the applied record |
| AdvisorPanel.AdvisorsPage.ClearAll | app/advisors/page.tsx:182-196 | both records return to the defaults, every menu closes and the whole list is shown |
| AdvisorPanel.AdvisorsPage.EditAgentName | app/advisors/page.tsx:462 | only the applied name changes, the sync effect overwrites the edited record, and the screen follows |
| PresenceCard.Rank | app/presence-card/page.tsx:13-15 | the phases are ordered from idle (0) to active (5) |
| PresenceCard.SetPhase | app/presence-card/page.tsx:111-124 | a new phase stops the fade and restarts it from 0 exactly when the phase is active with audio; setting the same phase changes nothing |
| PresenceCard.TriggerSequence | app/presence-card/page.tsx:42-51 | the trigger acts only from idle; it moves to triggered and schedules the reveal |
| PresenceCard.SwipeComplete | app/presence-card/page.tsx:53-56 | a completed swipe moves to presence |
| PresenceCard.Drag | app/presence-card/page.tsx:170-175 | only an upward offset is recorded |
| PresenceCard.DragEnd | app/presence-card/page.tsx:176-182 | beyond 100 px up the swipe completes; otherwise the logo snaps back |
| PresenceCard.PresenceComplete | app/presence-card/page.tsx:58-71 | completion moves to transition and schedules the activation |
| PresenceCard.Activate | app/presence-card/page.tsx:63-70 | the activation moves to active and plays when the audio exists |
| PresenceCard.TogglePlay | app/presence-card/page.tsx:73-82 | the playing flag flips when the audio exists |
| PresenceCard.TimeUpdate | app/presence-card/page.tsx:91-95 | with a truthy duration the progress is time over duration, in [0, 1] for a time within it; otherwise nothing changes |
| PresenceCard.AudioEnd | app/presence-card/page.tsx:97-99 | `ended` clears only the playing flag |
| PresenceCard.FadeTick | app/presence-card/page.tsx:114-121 | below full volume the fade grows by 0.05 and the volume follows it, capped at 1; at full volume the interval clears itself |
| PresenceCard.ScrollProgress | app/presence-card/page.tsx:219 | the reading section's report is stored |
| PresenceCard.Logo | app/presence-card/page.tsx:132-136 | the logo is hidden before reveal, revealing in reveal, and moved up after |
| PresenceCard.ShowRipple | app/presence-card/page.tsx:131 | the ripple shows exactly in triggered and reveal |
| PresenceCard.ShowTheater | app/presence-card/page.tsx:138 | the theater shows exactly in transition and active |
| PresenceCard.BgColor | app/presence-card/page.tsx:141 | deep blue from presence on, black before |
| PresenceCard.LogoOffset | app/presence-card/page.tsx:191 | the logo follows the drag only while revealing, and never downward |
| PresenceCard.ViewsAgree | app/presence-card/page.tsx:131-141 | ripple and theater never show together; blue background exactly when the logo moves up |
| PresenceCard.InitialValid | app/presence-card/page.tsx:18-40 | the page starts well formed |
| PresenceCard.StepValid | app/presence-card/page.tsx:35-182 | every event keeps the offset non-positive, the volume in [0, 1] and the fade only in active |
| PresenceCard.RunValid | app/presence-card/page.tsx:35-182 | every sequence of events keeps the page well formed |
| PresenceCard.TriggerOnlyFromIdle | app/presence-card/page.tsx:42-51 | a trigger seen outside idle changes nothing; from idle it changes only the phase, the fade and the timers |
| PresenceCard.Opening | app/presence-card/page.tsx:35-51 | the mount timer then the reveal timer reach reveal with the ripple on and the logo revealing |
| PresenceCard.DragThreshold | app/presence-card/page.tsx:170-182 | in reveal, the drag end reaches presence exactly beyond 100 px up |
| PresenceCard.DragsIgnoredOutsideReveal | app/presence-card/page.tsx:166 | outside reveal, drags change nothing |
| PresenceCard.PresenceThenActive | app/presence-card/page.tsx:58-71 | completion and its timer reach active, playing, with the fade started from 0 and the theater shown |
| PresenceCard.TogglePlayTwice | app/presence-card/page.tsx:73-82 | toggling twice restores the state |
| PresenceCard.RevealedStays | app/presence-card/page.tsx:42-51 | once revealed with the mount timer gone, the phase never goes back before reveal |
| PresenceCard.FadeClosedForm | app/presence-card/page.tsx:111-124 | after k firings the fade is at 0.05 k up to 20, it runs exactly through the twentieth, and the volume follows it |
| PresenceCard.NfcPage.constructor | app/presence-card/page.tsx:18-40 | the page starts in the initial state with the trigger timer pending |
| PresenceCard.NfcPage.ChangePhase | app/presence-card/page.tsx:111-124 | the new state is `SetPhase` of the old |
| PresenceCard.NfcPage.HandleTriggerSequence | app/presence-card/page.tsx:42-51 | the new state is `TriggerSequence` of the old |
| PresenceCard.NfcPage.HandleSwipeComplete | app/presence-card/page.tsx:53-56 | the new state is `SwipeComplete` of the old |
| PresenceCard.NfcPage.OnDrag | app/presence-card/page.tsx:170-175 | the new state is `Drag` of the old |
| PresenceCard.NfcPage.OnDragEnd | app/presence-card/page.tsx:176-182 | the new state is `DragEnd` of the old |
| PresenceCard.NfcPage.HandlePresenceComplete | app/presence-card/page.tsx:58-71 | the new state is `PresenceComplete` of the old |
| PresenceCard.NfcPage.HandleTogglePlay | app/presence-card/page.tsx:73-82 | the new state is `TogglePlay` of the old |
| PresenceCard.NfcPage.OnTimeUpdate | app/presence-card/page.tsx:91-95 | the new state is `TimeUpdate` of the old |
| PresenceCard.NfcPage.OnEnded | app/presence-card/page.tsx:97-99 | the new state is `AudioEnd` of the old |
| PresenceCard.NfcPage.OnFadeTick | app/presence-card/page.tsx:114-121 | the new state is `FadeTick` of the old |
| PresenceCard.NfcPage.OnScrollProgress | app/presence-card/page.tsx:219 | the new state is `ScrollProgress` of the old |
| PresenceCard.NfcPage.OnTimerFired | app/presence-card/page.tsx:36-70 | the new state is `FireTimer` of the old |
| PresenceCard.NfcPage.RunFade | app/presence-card/page.tsx:111-124 | n firings of the fade leave it running exactly when n ≤ 20, with the volume at most 1 and exactly 1 from the twentieth on |

## Left out

- Rendering, layout, animation and styling (the JSX, `framer-motion`, the pagination dots) are not modelled: they compute no state.
- The flow-magnets title font-fitting loop (app/flow-magnets/page.tsx:141-187), the screen-height and resize listeners, and the font-size reset are not modelled: they measure the DOM.
- The audio element and the speech synthesizer are external platform objects. Their behaviour is reduced to events: `play()` settles as a `PlayOutcome` parameter, and the media position and duration arrive as events. Speech `pause`/`resume` and the order in which promises settle are not modelled.
- The events of a cancelled utterance are not modelled. Browsers may fire `onend` or `onerror` on an utterance that `cancel()` interrupts. The model keeps only the latest utterance and marks it silent when cancelled, so its handlers no longer act.
- Numbers are mathematical reals. IEEE rounding is not modelled: in the fade, twenty additions of 0.05 reach 1 plus a rounding error in JavaScript and exactly 1 here, so both clear on the twenty-first firing. `NaN` durations are `None`.
- JsText.LowerChar: only the ASCII capitals are lowered. Unicode case mapping is not modelled because Dafny has no character database, and the directory's names are Latin.
- The unmount cleanup (app/flow-magnets/page.tsx:504-517) and the presence page's effect cleanups are not modelled: after unmount no handler runs.
- Haptic feedback, the magnet, subscription and contact modals, the router, the audio player modal's own controls, and `handleScrollToRead` are not modelled: they change no modelled state.
- The second lock check in `handleTouchEnd` (app/flow-magnets/page.tsx:555) is not modelled: the first check already returned when locked, so it can never fire.
- SwipePager.TouchEnd reads the page index from the latest state. The source reads it from the render's closure, which is the same value because the pager locks on every page change until the next render.
- NarrationEngine.UnlockTap may be applied in any state. In the page it is reachable only while the prompt is shown, so the model is more general than the page needs.
- app/components/nfc/PresenceCard is not part of this model, so when its `onComplete` fires is unknown. `PresenceCompleted` may therefore arrive in any phase.
- `CuratorCTA` visibility (`scrollProgress > 0.6`) and the `DepthReading` component are not modelled beyond storing the scroll report.
- The advisor fetch's network and JSON parsing are reduced to a `Response` value. The API route, the scraping script and the wheel/touch paging of other pages are not modelled.
- PresenceCard.PresenceComplete: the fade is stated stopped only when the phase actually changes, because re-entering the transition phase leaves a stopped fade's state as it was.
- NarrationEngine.MediaAdvance: states only that speech mode is untouched and the invariant holds. The media position is the platform's to choose, within the media's bounds.
- NarrationEngine.SeekBackwardAsWritten: keeps only the core invariant, not `Valid`, because it is the version that breaks the progress bound (see Findings).
- NarrationEngine.ToggleAsWritten: keeps only the core invariant, not `Valid`, because resuming without the interval breaks it (see Findings).
- NarrationEngine.MiniToggleAsWritten: keeps only the core invariant, not `Valid`, for the same reason as the toggle as written.
- NarrationEngine.SpeechStart: an `onstart` while an interval already runs replaces it. The page starts a new interval without clearing the old one (app/flow-magnets/page.tsx:343), so the old one goes on firing unreferenced until unmount; only one interval is modelled.

## Findings

| source | as written | input that shows it | evidently intended | confidence | as-written member | corrected member |
|---|---|---|---|---|---|---|
| app/flow-magnets/page.tsx:397-401 | resuming speech calls `resume()` and sets playing, but does not restart the progress interval that the pause cleared | play a text, pause, resume: the page shows playing while the progress and time do not move until the utterance ends or a seek restarts speech | resuming restarts the interval from the paused time | high (not executed) | NarrationProperties.ResumeFreezesProgress | NarrationProperties.PauseResumeKeepsTicking |
| app/flow-magnets/page.tsx:472 | the backward seek clamps the new time only below by 0, not above by the duration | a 100-character text at 40 s with a 10 s estimate (speech slower than ten characters per second): the progress shows 250 percent and speech restarts from character 250, that is from nothing | the new time is clamped to [0, duration] and speech restarts only from a time before the end, as the forward seek does | medium (not executed) | NarrationProperties.BackwardSeekOvershoots | NarrationProperties.BackwardSeekBounded |
