/**
 * The countdown engine of `timerRender`: the per-visit `localState`, the
 * one-second tick, the session change, the play/pause toggle and the alert
 * sound with its bounded repeats.
 *
 * The event bus of the source is replaced by direct calls. The `<audio>`
 * element is abstracted to how often `play()` was called (`alertPlays`), how
 * many "ended" listeners are registered on it (`endedListeners`; one is added
 * at every session completion and none is ever removed), and how many 10-second
 * repeat timeouts are waiting to fire (`pendingRepeats`; nothing cancels them).
 * `intervalActive` is the one-second interval, which `clearInterval` stops.
 */
module Countdown {
  import opened SettingsStore
  import opened Sessions

  /** The settings the timer reads when a session starts. */
  datatype Durations = Durations(work: int, shortBreak: int, longBreak: int, sessionsUntilLongBreak: int)

  /**
   * The settings as the timer sees them through `getState`: a stored 0 reads
   * as null. `<`, `>` and `-` treat null as 0. The `===` tests of the session
   * counter against `sessionsUntilLongBreak` never match null, which gives
   * the same result as reading it as 0 because the counter is never below 1
   * (`Sessions.NullSessionCountNeverMatches`). So each setting is its stored
   * value.
   */
  function DurationsOf(s: Record): (d: Durations)
    requires Complete(s)
    ensures d.work == s[WorkSessionMinutes] && d.shortBreak == s[BreakSessionMinutes]
    ensures d.longBreak == s[LongBreakMinutes] && d.sessionsUntilLongBreak == s[SessionsUntilLongBreak]
  {
    Durations(
      GetStateOf(s, WorkSessionMinutes).GetOr(0),
      GetStateOf(s, BreakSessionMinutes).GetOr(0),
      GetStateOf(s, LongBreakMinutes).GetOr(0),
      GetStateOf(s, SessionsUntilLongBreak).GetOr(0))
  }

  /** The setting that gives the length of a session of the given kind. */
  function DurationOf(kind: Kind, d: Durations): int {
    match kind
    case Work => d.work
    case ShortBreak => d.shortBreak
    case LongBreak => d.longBreak
  }

  /** Settings the timer can run on: no negative length, at least one work session per cycle. */
  predicate Sane(d: Durations) {
    d.work >= 0 && d.shortBreak >= 0 && d.longBreak >= 0 && d.sessionsUntilLongBreak >= 1
  }

  /** Settings kept at their floors are sane, with every session at least a minute long. */
  lemma FloorsMakeSane(s: Record)
    requires AboveFloors(s)
    ensures Sane(DurationsOf(s))
    ensures DurationsOf(s).sessionsUntilLongBreak >= 2
    ensures forall kind :: DurationOf(kind, DurationsOf(s)) >= 1
  {
    assert s[WorkSessionMinutes] >= Floor(WorkSessionMinutes);
    assert s[BreakSessionMinutes] >= Floor(BreakSessionMinutes);
    assert s[LongBreakMinutes] >= Floor(LongBreakMinutes);
    assert s[SessionsUntilLongBreak] >= Floor(SessionsUntilLongBreak);
  }

  /** `localState` of `timerRender`, together with the abstract audio and interval state. */
  datatype TimerState = TimerState(
    countdownMinutes: int,
    countdownSeconds: int,
    originalCountdownMinutes: int,
    currentSession: int,
    sessionType: Kind,
    isPlaying: bool,
    audioRepeatCount: int,
    intervalActive: bool,
    endedListeners: nat,
    pendingRepeats: nat,
    alertPlays: nat)

  /** The state a visit to the timer view starts in: the first work session, already playing. */
  function Initial(d: Durations): TimerState {
    TimerState(d.work, 0, d.work, 1, Work, true, 0, true, 0, 0, 0)
  }

  function PositionOf(t: TimerState): Position {
    Position(t.sessionType, t.currentSession)
  }

  /** `replaceTimerWithNextSessionTime`: load the next session's length and switch to it. */
  function WithNextSessionTime(t: TimerState, d: Durations): TimerState {
    var next := NextSessionName(t.sessionType, t.currentSession, d.sessionsUntilLongBreak);
    var minutes := DurationOf(next, d);
    t.(countdownMinutes := minutes, countdownSeconds := 0, originalCountdownMinutes := minutes, sessionType := next)
  }

  /** The `sessionTypeChange` handler: move the counter, then load the next session. */
  function AfterSessionTypeChange(t: TimerState, d: Durations): TimerState {
    WithNextSessionTime(t.(currentSession := CounterAfter(t.sessionType, t.currentSession)), d)
  }

  /** One call of the one-second interval callback. */
  function AfterTick(t: TimerState, d: Durations): TimerState {
    if !t.intervalActive || !t.isPlaying then t
    else if t.countdownSeconds < 1 && t.countdownMinutes > 0 then
      t.(countdownMinutes := t.countdownMinutes - 1, countdownSeconds := 59)
    else if t.countdownSeconds < 1 && t.countdownMinutes < 1 then
      var changed := AfterSessionTypeChange(t, d);
      changed.(isPlaying := false,
               alertPlays := changed.alertPlays + 1,
               audioRepeatCount := changed.audioRepeatCount + 1,
               endedListeners := changed.endedListeners + 1)
    else
      t.(countdownSeconds := t.countdownSeconds - 1)
  }

  /** The `toggleTimer` handler. */
  function AfterToggleTimer(t: TimerState): TimerState {
    t.(isPlaying := !t.isPlaying)
  }

  /** The `stopAudio` handler: the sound stops and the repeat count is reset. */
  function AfterStopAudio(t: TimerState): TimerState {
    t.(audioRepeatCount := 0)
  }

  /** The `clearTimerInterval` handler. */
  function AfterClearInterval(t: TimerState): TimerState {
    t.(intervalActive := false)
  }

  /** The play/pause button: toggle, then stop the sound. */
  function AfterPlayPauseClick(t: TimerState): TimerState {
    AfterStopAudio(AfterToggleTimer(t))
  }

  /** The next-session button: stop the sound, then change the session. */
  function AfterNextSessionClick(t: TimerState, d: Durations): TimerState {
    AfterSessionTypeChange(AfterStopAudio(t), d)
  }

  /** The back-to-home button: stop the interval, then stop the sound. */
  function AfterBackToHomeClick(t: TimerState): TimerState {
    AfterStopAudio(AfterClearInterval(t))
  }

  /**
   * The registered "ended" listeners run in turn on the shared repeat count:
   * one that sees a count above 2 stops the sound (count back to 0), any other
   * schedules a repeat. Answers the final count and number of pending repeats.
   */
  function RunEndedListeners(count: int, pending: nat, listeners: nat): (r: (int, nat))
    ensures pending <= r.1 <= pending + listeners
    ensures r.0 == count || r.0 == 0
    decreases listeners
  {
    if listeners == 0 then (count, pending)
    else if count > 2 then RunEndedListeners(0, pending, listeners - 1)
    else RunEndedListeners(count, pending + 1, listeners - 1)
  }

  /** The sound finished playing: every registered listener runs. */
  function AfterAudioEnded(t: TimerState): TimerState {
    var (count, pending) := RunEndedListeners(t.audioRepeatCount, t.pendingRepeats, t.endedListeners);
    t.(audioRepeatCount := count, pendingRepeats := pending)
  }

  /** A scheduled repeat fires: the sound plays again and the count goes up. */
  function AfterRepeatFired(t: TimerState): TimerState
    requires t.pendingRepeats > 0
  {
    t.(pendingRepeats := t.pendingRepeats - 1, alertPlays := t.alertPlays + 1,
       audioRepeatCount := t.audioRepeatCount + 1)
  }

  // ---------------------------------------------------------------------
  // Properties of the countdown

  /** While paused, or once the interval is cleared, a tick changes nothing. */
  lemma TickWhileStoppedChangesNothing(t: TimerState, d: Durations)
    requires !t.isPlaying || !t.intervalActive
    ensures AfterTick(t, d) == t
  {
  }

  /**
   * A running tick away from (0, 0) takes exactly one second off the clock:
   * (m, s) becomes (m, s-1) when s > 0 and (m-1, 59) when s is 0; seconds stay
   * within 0..59 and nothing else changes.
   */
  lemma TickTakesOneSecond(t: TimerState, d: Durations)
    requires t.isPlaying && t.intervalActive
    requires 0 <= t.countdownSeconds <= 59 && t.countdownMinutes >= 0
    requires t.countdownMinutes > 0 || t.countdownSeconds > 0
    ensures var r := AfterTick(t, d);
      && 60 * r.countdownMinutes + r.countdownSeconds == 60 * t.countdownMinutes + t.countdownSeconds - 1
      && 0 <= r.countdownSeconds <= 59 && r.countdownMinutes >= 0
      && (t.countdownSeconds > 0 ==> r.countdownMinutes == t.countdownMinutes && r.countdownSeconds == t.countdownSeconds - 1)
      && (t.countdownSeconds == 0 ==> r.countdownMinutes == t.countdownMinutes - 1 && r.countdownSeconds == 59)
      && r == t.(countdownMinutes := r.countdownMinutes, countdownSeconds := r.countdownSeconds)
  {
  }

  /**
   * The session change: the counter moves by the rule for the ending session,
   * the next kind is chosen, the clock is loaded with that kind's length and
   * the original length is the same; nothing else changes.
   */
  lemma SessionTypeChangeLoadsNextSession(t: TimerState, d: Durations)
    ensures var r := AfterSessionTypeChange(t, d);
      && PositionOf(r) == Advance(PositionOf(t), d.sessionsUntilLongBreak)
      && r.countdownMinutes == DurationOf(r.sessionType, d) == r.originalCountdownMinutes
      && r.countdownSeconds == 0
      && r == t.(countdownMinutes := r.countdownMinutes, countdownSeconds := 0,
                 originalCountdownMinutes := r.originalCountdownMinutes,
                 currentSession := r.currentSession, sessionType := r.sessionType)
  {
  }

  /**
   * A running tick at (0, 0) completes the session: exactly one session change
   * happens, the timer pauses, the alert plays once, the repeat count goes up
   * by one and one more "ended" listener is registered. The clock never goes
   * negative on sane settings, and further ticks change nothing until play is
   * pressed again.
   */
  lemma TickAtZeroCompletesSession(t: TimerState, d: Durations)
    requires t.isPlaying && t.intervalActive
    requires t.countdownSeconds < 1 && t.countdownMinutes < 1
    ensures var r := AfterTick(t, d);
      && r == AfterSessionTypeChange(t, d).(isPlaying := false, alertPlays := t.alertPlays + 1,
                                            audioRepeatCount := t.audioRepeatCount + 1,
                                            endedListeners := t.endedListeners + 1)
      && PositionOf(r) == Advance(PositionOf(t), d.sessionsUntilLongBreak)
      && r.countdownMinutes == DurationOf(r.sessionType, d) == r.originalCountdownMinutes
      && r.countdownSeconds == 0
      && !r.isPlaying
      && (Sane(d) ==> r.countdownMinutes >= 0)
      && AfterTick(r, d) == r
  {
    SessionTypeChangeLoadsNextSession(t, d);
  }

  /** Pressing play after a completion resumes the countdown and silences the alert. */
  lemma PlayAfterCompletionResumes(t: TimerState)
    requires !t.isPlaying
    ensures AfterPlayPauseClick(t).isPlaying
    ensures AfterPlayPauseClick(t).audioRepeatCount == 0
    ensures AfterPlayPauseClick(t) == t.(isPlaying := true, audioRepeatCount := 0)
  {
  }

  /**
   * The state every reachable timer is in (on sane settings): seconds within
   * 0..59, no negative minutes, and a well-placed session position.
   */
  predicate Consistent(t: TimerState, d: Durations) {
    && 0 <= t.countdownSeconds <= 59
    && t.countdownMinutes >= 0
    && WellPlaced(PositionOf(t), d.sessionsUntilLongBreak)
  }

  lemma InitialConsistent(d: Durations)
    requires Sane(d)
    ensures Consistent(Initial(d), d)
  {
  }

  /** Every operation of the timer keeps it consistent. */
  lemma OperationsKeepConsistent(t: TimerState, d: Durations)
    requires Sane(d) && Consistent(t, d)
    ensures Consistent(AfterSessionTypeChange(t, d), d)
    ensures Consistent(AfterTick(t, d), d)
    ensures Consistent(AfterPlayPauseClick(t), d)
    ensures Consistent(AfterNextSessionClick(t, d), d)
    ensures Consistent(AfterBackToHomeClick(t), d)
    ensures Consistent(AfterAudioEnded(t), d)
    ensures t.pendingRepeats > 0 ==> Consistent(AfterRepeatFired(t), d)
  {
    AdvanceKeepsWellPlaced(PositionOf(t), d.sessionsUntilLongBreak);
    SessionTypeChangeLoadsNextSession(t, d);
    SessionTypeChangeLoadsNextSession(AfterStopAudio(t), d);
    if t.isPlaying && t.intervalActive && t.countdownSeconds < 1 && t.countdownMinutes < 1 {
      TickAtZeroCompletesSession(t, d);
    }
  }

  /**
   * Once the timer is consistent, the completion branch of a tick is taken
   * exactly at (0, 0), and a completion on settings of at least one minute
   * leaves a clock that is not at (0, 0) again.
   */
  lemma CompletionOnlyAtZero(t: TimerState, d: Durations)
    requires Sane(d) && Consistent(t, d) && t.isPlaying && t.intervalActive
    requires forall kind :: DurationOf(kind, d) >= 1
    ensures (t.countdownSeconds < 1 && t.countdownMinutes < 1) <==> (t.countdownMinutes == 0 && t.countdownSeconds == 0)
    ensures t.countdownMinutes == 0 && t.countdownSeconds == 0 ==> AfterTick(t, d).countdownMinutes >= 1
  {
    if t.countdownMinutes == 0 && t.countdownSeconds == 0 {
      TickAtZeroCompletesSession(t, d);
      assert DurationOf(AfterTick(t, d).sessionType, d) >= 1;
    }
  }

  // ---------------------------------------------------------------------
  // Properties of the alert sound

  /**
   * What the listeners do together: with n listeners, the end of the sound
   * schedules n repeats when the count is at most 2; when it is above 2 the
   * first listener stops the sound and every other one still schedules a
   * repeat on the reset count.
   */
  lemma {:induction false} EndedListenersOutcome(count: int, pending: nat, n: nat)
    ensures RunEndedListeners(count, pending, n) ==
      if n == 0 then (count, pending)
      else if count > 2 then (0, pending + n - 1)
      else (count, pending + n)
    decreases n
  {
    if n > 0 {
      if count > 2 {
        EndedListenersOutcome(0, pending, n - 1);
      } else {
        EndedListenersOutcome(count, pending + 1, n - 1);
      }
    }
  }

  /** With one listener, the end of the sound schedules a repeat exactly when at most 2 plays were counted. */
  lemma OneListenerRepeatsUpToThree(t: TimerState)
    requires t.endedListeners == 1
    ensures var r := AfterAudioEnded(t);
      && (t.audioRepeatCount <= 2 ==> r == t.(pendingRepeats := t.pendingRepeats + 1))
      && (t.audioRepeatCount > 2 ==> r == t.(audioRepeatCount := 0))
  {
    EndedListenersOutcome(t.audioRepeatCount, t.pendingRepeats, 1);
  }

  /**
   * After the first completion of a visit (one listener, count 1, nothing
   * pending) the unattended alert plays exactly three times and stops: two
   * repeats follow the first play, and the third end resets the count with
   * nothing left pending.
   */
  lemma FirstAlertPlaysThreeTimes(t: TimerState)
    requires t.endedListeners == 1 && t.audioRepeatCount == 1 && t.pendingRepeats == 0
    ensures var e1 := AfterAudioEnded(t);
      e1.pendingRepeats == 1 &&
      var f1 := AfterRepeatFired(e1);
      var e2 := AfterAudioEnded(f1);
      e2.pendingRepeats == 1 &&
      var f2 := AfterRepeatFired(e2);
      var e3 := AfterAudioEnded(f2);
      e3 == t.(alertPlays := t.alertPlays + 2, audioRepeatCount := 0)
  {
    OneListenerRepeatsUpToThree(t);
    var f1 := AfterRepeatFired(AfterAudioEnded(t));
    OneListenerRepeatsUpToThree(f1);
    OneListenerRepeatsUpToThree(AfterRepeatFired(AfterAudioEnded(f1)));
  }

  /** Stopping the sound does not cancel a repeat that is already scheduled. */
  lemma StopKeepsScheduledRepeats(t: TimerState, d: Durations)
    ensures AfterStopAudio(t).pendingRepeats == t.pendingRepeats
    ensures AfterPlayPauseClick(t).pendingRepeats == t.pendingRepeats
    ensures AfterNextSessionClick(t, d).pendingRepeats == t.pendingRepeats
    ensures AfterBackToHomeClick(t).pendingRepeats == t.pendingRepeats
  {
  }

  /**
   * After the second completion of a visit two "ended" listeners are
   * registered: the end of the first play schedules two repeats, which bring
   * the count to 3 with nothing pending.
   */
  lemma SecondAlertReachesThree(t: TimerState)
    requires t.endedListeners == 2 && t.audioRepeatCount == 1 && t.pendingRepeats == 0
    ensures var e := AfterAudioEnded(t);
      e.pendingRepeats == 2 &&
      var f := AfterRepeatFired(AfterRepeatFired(e));
      f == t.(alertPlays := t.alertPlays + 2, audioRepeatCount := 3)
  {
  }

  /**
   * From the second completion on, two or more "ended" listeners share the
   * count, and every end of the sound schedules at least one more repeat
   * (at least one fewer than the listeners), whatever the count: each repeat
   * plays the sound again, so an unattended alert never stops.
   */
  lemma MoreListenersAlwaysRepeat(t: TimerState)
    requires t.endedListeners >= 2
    ensures AfterAudioEnded(t).pendingRepeats >= t.pendingRepeats + t.endedListeners - 1
    ensures AfterAudioEnded(t).pendingRepeats > t.pendingRepeats
    ensures AfterAudioEnded(t).endedListeners == t.endedListeners
  {
    EndedListenersOutcome(t.audioRepeatCount, t.pendingRepeats, t.endedListeners);
  }

  /** A repeat firing plays the sound again and keeps every listener. */
  lemma RepeatKeepsListeners(t: TimerState)
    requires t.pendingRepeats > 0
    ensures AfterRepeatFired(t).endedListeners == t.endedListeners
    ensures AfterRepeatFired(t).alertPlays == t.alertPlays + 1
  {
  }

  /** A state where the sound has just been played by two repeats of an alert with two listeners. */
  predicate LoopingAlert(t: TimerState) {
    t.endedListeners == 2 && t.audioRepeatCount == 3 && t.pendingRepeats == 0
  }

  /**
   * One round of an unattended alert with two listeners: end (the first
   * listener stops the sound, the second schedules a repeat), repeat, end
   * (both schedule), repeat, repeat.
   */
  function AlertRound(t: TimerState): (r: TimerState)
    requires LoopingAlert(t)
    ensures r == t.(alertPlays := t.alertPlays + 3)
  {
    var e1 := AfterAudioEnded(t);
    var f1 := AfterRepeatFired(e1);
    var e2 := AfterAudioEnded(f1);
    var f2 := AfterRepeatFired(e2);
    AfterRepeatFired(f2)
  }

  /** `rounds` rounds in a row; the alert is still looping after each of them. */
  function AlertRounds(t: TimerState, rounds: nat): (r: TimerState)
    requires LoopingAlert(t)
    ensures LoopingAlert(r)
  {
    if rounds == 0 then t else AlertRound(AlertRounds(t, rounds - 1))
  }

  /**
   * From the second completion on, the repeat bound does not hold: an
   * unattended alert returns to the same state after every round with three
   * more plays, so it never stops by itself.
   */
  lemma {:induction false} UnattendedAlertNeverEnds(t: TimerState, rounds: nat)
    requires LoopingAlert(t)
    ensures AlertRounds(t, rounds) == t.(alertPlays := t.alertPlays + 3 * rounds)
  {
    if rounds > 0 {
      UnattendedAlertNeverEnds(t, rounds - 1);
    }
  }

  // ---------------------------------------------------------------------
  // The timer view's local state, updated in place

  class Timer {
    /** The settings store the view was rendered with. */
    const app: Settings

    var countdownMinutes: int
    var countdownSeconds: int
    var originalCountdownMinutes: int
    var currentSession: int
    var sessionType: Kind
    var isPlaying: bool
    var audioRepeatCount: int
    var intervalActive: bool
    var endedListeners: nat
    var pendingRepeats: nat
    var alertPlays: nat

    ghost function State(): TimerState
      reads this
    {
      TimerState(countdownMinutes, countdownSeconds, originalCountdownMinutes, currentSession,
                 sessionType, isPlaying, audioRepeatCount, intervalActive, endedListeners,
                 pendingRepeats, alertPlays)
    }

    /** The settings as `getState` reports them now. */
    function CurrentDurations(): Durations
      reads app
      requires app.Valid()
    {
      DurationsOf(app.state)
    }

    /** `timerRender`: the first work session, playing, with the interval started. */
    constructor (app: Settings)
      requires app.Valid()
      ensures this.app == app
      ensures State() == Initial(DurationsOf(app.state))
    {
      this.app := app;
      var minutes := app.GetState(WorkSessionMinutes).GetOr(0);
      originalCountdownMinutes := minutes;
      countdownMinutes := minutes;
      countdownSeconds := 0;
      currentSession := 1;
      sessionType := Work;
      isPlaying := true;
      audioRepeatCount := 0;
      intervalActive := true;
      endedListeners := 0;
      pendingRepeats := 0;
      alertPlays := 0;
    }

    /** `overwriteTimerMinutesAndSeconds`. */
    method OverwriteTimerMinutesAndSeconds(minutes: int, seconds: int)
      modifies this
      ensures State() == old(State()).(countdownMinutes := minutes, countdownSeconds := seconds)
    {
      countdownSeconds := seconds;
      countdownMinutes := minutes;
    }

    /** `replaceTimerWithNextSessionTime`. */
    method ReplaceTimerWithNextSessionTime()
      requires app.Valid()
      modifies this
      ensures State() == WithNextSessionTime(old(State()), CurrentDurations())
    {
      var nextSession := NextSessionName(sessionType, currentSession,
                                         app.GetState(SessionsUntilLongBreak).GetOr(0));
      var seconds := 0;
      var minutes;
      if nextSession == LongBreak {
        minutes := app.GetState(LongBreakMinutes).GetOr(0);
      } else if nextSession == ShortBreak {
        minutes := app.GetState(BreakSessionMinutes).GetOr(0);
      } else {
        minutes := app.GetState(WorkSessionMinutes).GetOr(0);
      }
      OverwriteTimerMinutesAndSeconds(minutes, seconds);
      originalCountdownMinutes := minutes;
      sessionType := nextSession;
    }

    /** The `sessionTypeChange` handler. */
    method SessionTypeChange()
      requires app.Valid()
      modifies this
      ensures State() == AfterSessionTypeChange(old(State()), CurrentDurations())
    {
      if sessionType == ShortBreak {
        currentSession := currentSession + 1;
      } else if sessionType == LongBreak {
        currentSession := 1;
      }
      ReplaceTimerWithNextSessionTime();
    }

    /** The callback of the one-second interval. */
    method Tick()
      requires app.Valid()
      modifies this
      ensures State() == AfterTick(old(State()), CurrentDurations())
    {
      if !intervalActive || !isPlaying {
        return;
      }
      var seconds := countdownSeconds;
      var minutes := countdownMinutes;
      if seconds < 1 && minutes > 0 {
        seconds := 59;
        minutes := minutes - 1;
      } else if seconds < 1 && minutes < 1 {
        SessionTypeChange();
        isPlaying := false;
        alertPlays := alertPlays + 1;
        audioRepeatCount := audioRepeatCount + 1;
        endedListeners := endedListeners + 1;
        return;
      } else {
        seconds := seconds - 1;
      }
      OverwriteTimerMinutesAndSeconds(minutes, seconds);
    }

    /** The `toggleTimer` handler. */
    method ToggleTimer()
      modifies this
      ensures State() == AfterToggleTimer(old(State()))
    {
      isPlaying := !isPlaying;
    }

    /** The `stopAudio` handler. */
    method StopAudio()
      modifies this
      ensures State() == AfterStopAudio(old(State()))
    {
      audioRepeatCount := 0;
    }

    /** The `clearTimerInterval` handler. */
    method ClearTimerInterval()
      modifies this
      ensures State() == AfterClearInterval(old(State()))
    {
      intervalActive := false;
    }

    /** The play/pause button's click handler. */
    method PlayPauseClicked()
      modifies this
      ensures State() == AfterPlayPauseClick(old(State()))
    {
      ToggleTimer();
      StopAudio();
    }

    /** The next-session button's click handler. */
    method NextSessionClicked()
      requires app.Valid()
      modifies this
      ensures State() == AfterNextSessionClick(old(State()), CurrentDurations())
    {
      StopAudio();
      SessionTypeChange();
    }

    /** The back-to-home button's click handler. */
    method BackToHomeClicked()
      modifies this
      ensures State() == AfterBackToHomeClick(old(State()))
    {
      ClearTimerInterval();
      StopAudio();
    }

    /** The sound ended: the browser calls every registered "ended" listener in turn. */
    method AudioEnded()
      modifies this
      ensures State() == AfterAudioEnded(old(State()))
    {
      var i := 0;
      while i < endedListeners
        invariant 0 <= i <= endedListeners == old(endedListeners)
        invariant RunEndedListeners(audioRepeatCount, pendingRepeats, endedListeners - i)
               == RunEndedListeners(old(audioRepeatCount), old(pendingRepeats), endedListeners)
        invariant State() == old(State()).(audioRepeatCount := audioRepeatCount, pendingRepeats := pendingRepeats)
      {
        if audioRepeatCount > 2 {
          StopAudio();
        } else {
          pendingRepeats := pendingRepeats + 1;
        }
        i := i + 1;
      }
    }

    /** A 10-second repeat timeout fires: rewind, play again, count it. */
    method RepeatFired()
      requires pendingRepeats > 0
      modifies this
      ensures State() == AfterRepeatFired(old(State()))
    {
      pendingRepeats := pendingRepeats - 1;
      alertPlays := alertPlays + 1;
      audioRepeatCount := audioRepeatCount + 1;
    }
  }
}
