# Pomodoro timer: settings store and countdown engine

A Dafny model of the logic of a browser Pomodoro timer (`script.js`). The
timer runs work sessions, short breaks and long breaks, and plays an alert
sound when a session ends. The model has five modules:

- `SettingsStore` (`settings.dfy`) models the store that `createApp` builds. It
  holds four integer settings: work minutes, break minutes, long-break minutes
  and sessions until a long break. `Settings` is a class whose `state` map is
  updated in place. `persisted` is the last record written to storage. The
  pure functions `Incremented` and `Decremented` specify `incrementState` and
  `decrementState`. A decrement is refused at or below the key's floor: work
  5, break 1, long break 10, sessions 2. A refused decrement returns the
  sentinel -1 and changes nothing.
- `Sessions` (`sessions.dfy`) models the session cycle: `nextSessionName`, and
  how the counter moves when a session ends. It also proves the whole cycle
  W1, S1, …, Wn, Ln, W1.
- `Countdown` (`countdown.dfy`) models the `localState` of `timerRender`. The
  class `Timer` has one method per handler: the one-second tick,
  `sessionTypeChange`, `replaceTimerWithNextSessionTime`, toggle, stop-audio,
  clear-interval and the three button clicks. Each method is proved equal to
  a pure transition function on `TimerState`. The lemmas are stated about
  those functions.
- `Display` (`display.dfy`) models the view decisions: zero padding and the
  `MM:SS` text, the icon and colour choices, the next-session button and the
  session-indicator classes.
- `Router` (`router.dfy`) models the route lookup with its `"*"` fallback.

The `<audio>` element is abstracted to three numbers:

- how many times `play()` was called;
- how many "ended" listeners are registered;
- how many 10-second repeat timeouts are pending.

The browser's timers and media events become explicit method calls: `Tick`,
`AudioEnded` and `RepeatFired`.

Three behaviours of the code are easy to miss; the model keeps them as
written:

- At (0,0) the tick runs the session change at once (script.js:704-711). The
  clock is reloaded with the next session's length in the same tick, and the
  timer pauses.
- Stopping the sound pauses and rewinds the audio element and resets the
  repeat count (script.js:776-780). It does not cancel a repeat that is already
  scheduled (`StopKeepsScheduledRepeats`). The back-to-home button clears the
  tick interval (script.js:601) but not those timeouts.
- Every session completion registers one more "ended" listener
  (script.js:712), and no listener is ever removed. The `audioRepeatCount > 2`
  guard at script.js:713 is evidently meant to limit the alert to three plays.
  With one listener it does: an unattended alert plays three times and stops
  (`FirstAlertPlaysThreeTimes`). The k-th completion leaves k listeners, so
  from the second completion on, two or more listeners share the repeat
  count. When the count passes 2, the first listener resets it and every
  other one still schedules a repeat, so each end of the sound schedules at
  least one more play and an unattended alert never stops
  (`MoreListenersAlwaysRepeat`, `RepeatKeepsListeners`). With exactly two
  listeners the loop is three plays per round (`SecondAlertReachesThree`,
  `UnattendedAlertNeverEnds`).

## Model

| member | source | states |
|---|---|---|
| SettingsStore.DefaultState | script.js:15-20 | the default record respects every floor |
| SettingsStore.GetStateOf | script.js:54-56 | a stored 0 reads as null (None); every other value reads as itself; null taken as 0 gives back the stored value |
| SettingsStore.SetStateOf | script.js:27-31 | only the named key changes, and it gets the new value |
| SettingsStore.Incremented | script.js:32-34 | the named key goes up by exactly one; every other key is unchanged |
| SettingsStore.Decremented | script.js:35-42 | at or below the minimum: the record is kept and -1 is returned; otherwise the key goes down by one, the others are unchanged, and the new value is returned |
| SettingsStore.RefusedDecrementKeepsRecord | script.js:36-38 | a refused decrement returns -1 and leaves the whole record unchanged |
| SettingsStore.DecrementNeverCrossesMinimum | script.js:35-42 | a value at or above the minimum stays there; at minimum+1 the decrement succeeds and lands exactly on the minimum |
| SettingsStore.SentinelMeansRefused | script.js:35-42 | for every minimum of 0 or more, -1 is returned exactly when the decrement is refused |
| SettingsStore.IncrementThenDecrementRestores | script.js:32-42 | an increment followed by a decrement restores the original record and returns the original value |
| SettingsStore.ButtonsKeepFloors | script.js:57-96 | every increment button, and every decrement button with its floor 5/1/10/2, keeps all four settings at or above their floors |
| SettingsStore.Settings.constructor | script.js:21 | a stored record is used when present, otherwise the defaults |
| SettingsStore.Settings.GetState | script.js:54-56 | `getState` on the live record; null exactly for 0 |
| SettingsStore.Settings.CacheState | script.js:23-25 | the whole record overwrites the stored one |
| SettingsStore.Settings.SetState | script.js:27-31 | replaces one key, writes the record through, and returns the value |
| SettingsStore.Settings.IncrementState | script.js:32-34 | the new state is `Incremented` of the old one; it is written through and the new value returned |
| SettingsStore.Settings.DecrementState | script.js:35-42 | the new state and the answer are those of `Decremented`; storage is written only on success |
| SettingsStore.Settings.DecrementSetting | script.js:60-95 | a decrement with the key's floor, giving the state and answer of `Decremented`; storage is written only on success; settings at or above their floors stay there |
| Sessions.NextSessionName | script.js:650-660 | long break iff work and counter == sessionsUntilLongBreak; short break iff work and any other counter; work iff the session is a break |
| Sessions.CounterAfter | script.js:765-771 | ending a short break moves to the next work session number, ending a long break starts over at 1, ending work keeps the number; the counter never drops below 1 (partner: `AdvanceKeepsWellPlaced`) |
| Sessions.Advance | script.js:764-775 | one session change, counter first and then the next kind: work and breaks alternate, work keeps its number, a long break is always numbered sessionsUntilLongBreak (partners: `AdvanceKeepsWellPlaced`, `FullCycle`) |
| Sessions.NullSessionCountNeverMatches | script.js:648-659 | with sessionsUntilLongBreak stored as 0 (read as null, which `===` never matches), a counter of 1 or more never selects a long break: work is always followed by a short break with the same number, and the counter stays at least 1 |
| Sessions.FirstPositionWellPlaced | script.js:622-623 | a run starts at work session 1, which is a well-placed position |
| Sessions.AdvanceKeepsWellPlaced | script.js:764-775 | ending a short break adds one to the counter, ending a long break resets it to 1, ending work keeps it; 1 <= counter <= N is preserved |
| Sessions.WorkSessionsInOrder | script.js:764-775 | from W1, the 2j-th session change reaches work session j+1 |
| Sessions.ShortBreaksInOrder | script.js:764-775 | from W1, the (2j+1)-th session change reaches short break j+1, while j+1 < N |
| Sessions.FullCycle | script.js:764-775 | from W1, change 2N-1 reaches long break N and change 2N is back at W1 |
| Sessions.FourSessionCycle | script.js:650-660 | with N = 4 the sessions are W1,S1,W2,S2,W3,S3,W4,L4,W1 |
| Countdown.DurationsOf | script.js:674-683 | the lengths the timer loads are the stored settings; a 0 read as null acts as 0 in `<`, `>` and `-` |
| Countdown.FloorsMakeSane | script.js:57-96 | settings at their floors give sessions of at least one minute and at least two work sessions per cycle |
| Countdown.TickWhileStoppedChangesNothing | script.js:695-698 | a tick while paused, or after the interval is cleared, changes nothing |
| Countdown.TickTakesOneSecond | script.js:699-727 | away from (0,0) a tick gives (m,s-1) or (m-1,59); 60m+s falls by exactly one; seconds stay in 0..59; nothing else changes |
| Countdown.SessionTypeChangeLoadsNextSession | script.js:764-775 | the counter and kind move as in `Advance`; the clock becomes (length of the next kind, 0); the original minutes equal that length; nothing else changes |
| Countdown.TickAtZeroCompletesSession | script.js:704-711 | a tick at (0,0) performs exactly one session change, pauses, plays the alert once, adds one to the repeat count and one listener, never yields negative minutes on sane settings, and leaves further ticks with no effect |
| Countdown.RunEndedListeners | script.js:712-722 | the registered listeners run in turn on the shared count: each schedules at most one repeat, and the count ends unchanged or reset to 0 (closed form: `EndedListenersOutcome`) |
| Countdown.PlayAfterCompletionResumes | script.js:557-562 | the play button after a completion resumes the countdown and resets the repeat count |
| Countdown.InitialConsistent | script.js:618-629 | the first state of a visit is consistent |
| Countdown.OperationsKeepConsistent | script.js:695-780 | every handler keeps seconds in 0..59, minutes non-negative and the session position well placed |
| Countdown.CompletionOnlyAtZero | script.js:701-711 | on a consistent state the completion branch is taken exactly at (0,0), and with sessions of at least a minute the reloaded clock is not at zero |
| Countdown.EndedListenersOutcome | script.js:712-722 | n listeners at a count of at most 2 schedule n repeats; at a count above 2 the first resets the count and the other n-1 still schedule repeats |
| Countdown.OneListenerRepeatsUpToThree | script.js:712-722 | with one listener, the end of the sound schedules a repeat iff the count is at most 2, and otherwise stops the sound |
| Countdown.FirstAlertPlaysThreeTimes | script.js:704-722 | after the first completion, the unattended alert plays three times in all and then nothing is pending |
| Countdown.StopKeepsScheduledRepeats | script.js:776-780 | stop-audio and the three buttons leave already-scheduled repeats pending |
| Countdown.SecondAlertReachesThree | script.js:712-722 | after the second completion, the first end of the sound schedules two repeats, which take the count to 3 |
| Countdown.MoreListenersAlwaysRepeat | script.js:712-722 | with two or more listeners, every end of the sound schedules at least listeners-1 repeats, so always at least one, whatever the count; the listeners stay registered |
| Countdown.RepeatKeepsListeners | script.js:717-721 | a repeat firing plays the sound once more and leaves every listener registered |
| Countdown.AlertRound | script.js:712-722 | with two listeners at count 3, one round of end/repeat events returns to the same state with three more plays |
| Countdown.AlertRounds | script.js:712-722 | the two-listener alert is still looping after any number of rounds |
| Countdown.UnattendedAlertNeverEnds | script.js:712-722 | after n rounds the state is the start state with 3n more plays, so the alert never stops by itself |
| Countdown.Timer.constructor | script.js:618-629 | the first work session, with its length loaded, playing, interval running, count 0 |
| Countdown.Timer.OverwriteTimerMinutesAndSeconds | script.js:643-646 | sets the clock and nothing else |
| Countdown.Timer.ReplaceTimerWithNextSessionTime | script.js:670-687 | the new state is `WithNextSessionTime` of the old one |
| Countdown.Timer.SessionTypeChange | script.js:764-775 | the new state is `AfterSessionTypeChange` of the old one |
| Countdown.Timer.Tick | script.js:695-728 | the new state is `AfterTick` of the old one |
| Countdown.Timer.ToggleTimer | script.js:758-760 | flips `isPlaying` |
| Countdown.Timer.StopAudio | script.js:776-780 | resets the repeat count and changes nothing else; the pause and rewind of the element are outside the model |
| Countdown.Timer.ClearTimerInterval | script.js:761-763 | stops the tick interval |
| Countdown.Timer.PlayPauseClicked | script.js:557-562 | toggle, then stop-audio |
| Countdown.Timer.NextSessionClicked | script.js:578-582 | stop-audio, then a session change |
| Countdown.Timer.BackToHomeClicked | script.js:600-605 | clear the interval, then stop-audio |
| Countdown.Timer.AudioEnded | script.js:712-715 | runs every registered listener in turn; the result is `AfterAudioEnded` of the old state |
| Countdown.Timer.RepeatFired | script.js:717-721 | a pending repeat plays the sound again and adds one to the count |
| Display.NatToString | script.js:368 | the decimal digits of n, with no leading zero, that read back as n; one digit below 10, two below 100 |
| Display.IntToString | script.js:368 | `toString` of any integer: digits reading back as n for n >= 0, and a minus sign followed by the digits of -n otherwise |
| Display.LeadingZeroKeepsValue | script.js:369 | a leading "0" does not change the number a digit string denotes |
| Display.AddZeroToIntIfUnderTen | script.js:367-370 | for n >= 0, a digit string of at least two characters that reads back as n; exactly two for n < 100; unpadded from 10 up |
| Display.CurrentTimingDisplay | script.js:371-379 | the text is MM ":" SS; the part before the colon reads back as the minutes and the last two digits as the seconds; five characters below 100 minutes |
| Display.DisplayReadsBack | script.js:377-379 | reading the display text back gives the clock it was made from |
| Display.TimingDisplayDeterminesClock | script.js:377-379 | different clocks never show the same text |
| Display.TargetIconName | script.js:380-389 | the briefcase iff work, the bed iff a long break, the cup iff a short break (partner: `IconsTellKindsApart`) |
| Display.IconsTellKindsApart | script.js:380-389 | each session kind has its own icon |
| Display.TargetBackgroundColor | script.js:390-399 | one of yellow, green, red; always red in a long break and never red in work (full meaning on well-placed positions: `BackgroundColorMeaning`) |
| Display.BackgroundColorMeaning | script.js:390-399 | on a well-placed position: yellow iff a long break comes next, green iff a short break comes next, red iff the session is a break |
| Display.TargetSliceColor | script.js:400-409 | yellow iff a long break, red iff work, green iff a short break (partner: `SliceColorsTellKindsApart`) |
| Display.SliceColorsTellKindsApart | script.js:400-409 | each session kind has its own slice colour |
| Display.NextSessionButtonColor | script.js:503-517 | one of yellow, red, green; yellow only during a short break; always red during work (partners: `ButtonColorMatchesIcon`, `NextSessionButtonShowsFollowingSession`) |
| Display.NextSessionButtonIconName | script.js:518-535 | one of the bed, the briefcase, the cup; the bed only during a short break; always the briefcase during work (partner: `NextSessionButtonShowsFollowingSession`) |
| Display.ButtonColorMatchesIcon | script.js:503-535 | the next-session button is yellow iff it shows the bed, red iff the briefcase, green iff the cup |
| Display.NextSessionButtonShowsFollowingSession | script.js:578-582 | the button is restyled before the session change; with N >= 2 its icon is the icon of the session that the next press leads to |
| Display.InitialViewAgrees | script.js:412-436 | the green clock with the briefcase (script.js:412, 434-436) matches the rules at work session 1; the first-built green button with the cup (script.js:568-575) is exactly what the button rules give on the change out of the long break, which enters work session 1 |
| Display.IndicatorClasses | script.js:347-360 | indicator i is active iff counter == i+1 and finished iff counter > i+1 |
| Display.IndicatorsShowProgress | script.js:347-360 | at most one indicator is active; every earlier one is finished and every later one plain; one is active iff 1 <= counter <= count |
| Display.InitialIndicatorClasses | script.js:341-345 | one class per indicator at creation |
| Display.InitialIndicatorsShowFirstSession | script.js:341-345 | the indicators as first built are those of session 1 |
| Router.GetRoute | script.js:110-113 | "/" gives the home view, "/timer" the timer view, and every other path the not-found view |

## Left out

- DOM building and class toggling are not modelled. This covers `createDOMElement`, `createIcon`, `homeRender`, the settings header, the option dropdowns, the 404 view and the icon swaps. They are presentation; the model keeps only the decisions that feed them.
- `localStorage` and JSON are not modelled. The stored record is the `persisted` snapshot, and the constructor is given the record storage held, if any.
- Settings.constructor: requires a stored record to hold all four keys. Records written by this store always do; a record edited by hand outside the app is not modelled.
- `window.alert` is not modelled. A refused decrement is seen only through its -1 answer, and the warning text is left out.
- The tick interval after browser navigation is not modelled. The back and forward buttons run the `popstate` handler (script.js:841-844). That handler clears the page but never stops the interval of the timer view, so the interval keeps ticking on the discarded view's state and can complete a session and play the alert. The model's interval stops only through `ClearTimerInterval`, as the back-to-home button does.
- Timing is not modelled: `setInterval`, `setTimeout`, the 1-second period and the 10-second repeat delay. A tick, the end of the sound and a repeat firing are method calls in any order the caller chooses. `RepeatFired` requires a scheduled repeat.
- Of the `<audio>` element, only the calls to `play()` are counted. `pause()`, `currentTime` and when an "ended" event actually occurs are not modelled.
- The elapsed-percentage and radial-rotation arithmetic is not modelled. It is floating-point `Math.ceil` arithmetic driving CSS transforms.
- The custom event bus is not modelled, and neither is `pushToRoute` with its history push and animation delay. Dispatches are direct calls; `renderRoute`, `popstate` handling, `toggleFullPageAnimation` and `getTitle` are not modelled.
- `document.title` updates are not modelled.
- `isFinishedCountdown` has no field in the model. It is never set to true, so it never gates a tick.
- A setting stored as 0 reads as null, and the model reads that null as 0. `<`, `>` and `-` treat null as 0. The `===` tests at script.js:648, 651 and 689 never match null, which gives the same result as reading it as 0 because the session counter is never below 1 (`Sessions.NullSessionCountNeverMatches`). The text display would fail on `null.toString()`, and that failure is not modelled.
- Router.GetRoute: models the route table as a map. Property names that a JavaScript object inherits (such as "toString") are not modelled.
- Settings are unbounded integers. Precision limits of JavaScript numbers are not modelled.
- buildSetup.js is not part of this model. It is a file-copy script.
