/**
 * The work / short break / long break cycle of the timer view: which session
 * comes next (`nextSessionName`) and how the session counter moves when a
 * session ends (the `sessionTypeChange` handler of `timerRender`).
 */
module Sessions {

  /** The source's session names "work", "shortBreak" and "longBreak". */
  datatype Kind = Work | ShortBreak | LongBreak

  /**
   * `nextSessionName`: a long break after the work session whose number is
   * `sessionsUntilLongBreak`, a short break after any other work session, and
   * work after either kind of break.
   */
  function NextSessionName(kind: Kind, currentSession: int, sessionsUntilLongBreak: int): (r: Kind)
    ensures r == LongBreak <==> kind == Work && currentSession == sessionsUntilLongBreak
    ensures r == ShortBreak <==> kind == Work && currentSession != sessionsUntilLongBreak
    ensures r == Work <==> kind != Work
  {
    if currentSession == sessionsUntilLongBreak && kind == Work then LongBreak
    else if kind == Work then ShortBreak
    else Work
  }

  /**
   * The counter update at the start of `sessionTypeChange`, keyed on the
   * session that is ending: a short break moves to the next work session, a
   * long break starts over at 1, and work keeps its number.
   */
  function CounterAfter(ending: Kind, currentSession: int): (r: int)
    ensures 1 <= currentSession ==> 1 <= r
    ensures ending == LongBreak ==> r == 1
    ensures ending == Work ==> r == currentSession
    ensures ending == ShortBreak ==> r == currentSession + 1
  {
    match ending
    case ShortBreak => currentSession + 1
    case LongBreak => 1
    case Work => currentSession
  }

  /** Where the timer is in the cycle: the session kind and the session counter. */
  datatype Position = Position(kind: Kind, currentSession: int)

  /**
   * One session change: the counter moves first, then the next kind is
   * chosen from the ending kind and the moved counter.
   */
  function Advance(p: Position, sessionsUntilLongBreak: int): (r: Position)
    ensures r.kind == Work <==> p.kind != Work
    ensures p.kind == Work ==> r.currentSession == p.currentSession
    ensures r.kind == LongBreak ==> r.currentSession == sessionsUntilLongBreak
  {
    var counter := CounterAfter(p.kind, p.currentSession);
    Position(NextSessionName(p.kind, counter, sessionsUntilLongBreak), counter)
  }

  /** `steps` session changes in a row. */
  function AdvanceTimes(p: Position, sessionsUntilLongBreak: int, steps: nat): Position {
    if steps == 0 then p else Advance(AdvanceTimes(p, sessionsUntilLongBreak, steps - 1), sessionsUntilLongBreak)
  }

  /**
   * The positions the cycle can be in: the counter is between 1 and the
   * number of work sessions per cycle, a short break never follows the last
   * work session and a long break only follows it.
   */
  predicate WellPlaced(p: Position, sessionsUntilLongBreak: int) {
    && 1 <= p.currentSession <= sessionsUntilLongBreak
    && (p.kind == ShortBreak ==> p.currentSession < sessionsUntilLongBreak)
    && (p.kind == LongBreak ==> p.currentSession == sessionsUntilLongBreak)
  }

  /** The first position of a timer run. */
  lemma FirstPositionWellPlaced(n: int)
    requires n >= 1
    ensures WellPlaced(Position(Work, 1), n)
  {
  }

  /** Every session change keeps the counter within 1..sessionsUntilLongBreak. */
  lemma AdvanceKeepsWellPlaced(p: Position, n: int)
    requires WellPlaced(p, n)
    ensures WellPlaced(Advance(p, n), n)
    ensures p.kind == Work ==> Advance(p, n).currentSession == p.currentSession
    ensures p.kind == ShortBreak ==> Advance(p, n) == Position(Work, p.currentSession + 1)
    ensures p.kind == LongBreak ==> Advance(p, n) == Position(Work, 1)
  {
  }

  /**
   * A stored 0 for the number of work sessions reads as null, which never
   * equals the counter; read as 0 it gives the same answers, because the
   * counter starts at 1 and never drops below it: no long break is ever
   * chosen, so every work session is followed by a short break.
   */
  lemma NullSessionCountNeverMatches(p: Position)
    requires p.currentSession >= 1
    ensures p.currentSession != 0
    ensures NextSessionName(p.kind, p.currentSession, 0) != LongBreak
    ensures p.kind == Work ==> Advance(p, 0) == Position(ShortBreak, p.currentSession)
    ensures Advance(p, 0).currentSession >= 1
  {
  }

  /** Starting from the first work session, the 2j-th change reaches work session j+1. */
  lemma {:induction false} WorkSessionsInOrder(n: int, j: nat)
    requires j < n
    ensures AdvanceTimes(Position(Work, 1), n, 2 * j) == Position(Work, j + 1)
  {
    if j > 0 {
      WorkSessionsInOrder(n, j - 1);
      assert AdvanceTimes(Position(Work, 1), n, 2 * j - 1) == Position(ShortBreak, j);
    }
  }

  /** The change after work session j+1 (j+1 < n) is the short break numbered j+1. */
  lemma ShortBreaksInOrder(n: int, j: nat)
    requires j + 1 < n
    ensures AdvanceTimes(Position(Work, 1), n, 2 * j + 1) == Position(ShortBreak, j + 1)
  {
    WorkSessionsInOrder(n, j);
  }

  /**
   * A whole cycle: after 2n-1 changes the timer is in the long break numbered
   * n, and after 2n changes it is back at the first work session.
   */
  lemma FullCycle(n: int)
    requires n >= 1
    ensures AdvanceTimes(Position(Work, 1), n, 2 * n - 1) == Position(LongBreak, n)
    ensures AdvanceTimes(Position(Work, 1), n, 2 * n) == Position(Work, 1)
  {
    WorkSessionsInOrder(n, n - 1);
  }

  /**
   * With four work sessions per cycle the sessions run
   * W1, S1, W2, S2, W3, S3, W4, L4 and then W1 again.
   */
  lemma FourSessionCycle()
    ensures (seq(9, i requires 0 <= i < 9 => AdvanceTimes(Position(Work, 1), 4, i))) ==
      [ Position(Work, 1), Position(ShortBreak, 1), Position(Work, 2), Position(ShortBreak, 2),
        Position(Work, 3), Position(ShortBreak, 3), Position(Work, 4), Position(LongBreak, 4),
        Position(Work, 1) ]
  {
    WorkSessionsInOrder(4, 0);
    ShortBreaksInOrder(4, 0);
    WorkSessionsInOrder(4, 1);
    ShortBreaksInOrder(4, 1);
    WorkSessionsInOrder(4, 2);
    ShortBreaksInOrder(4, 2);
    WorkSessionsInOrder(4, 3);
    FullCycle(4);
  }
}
