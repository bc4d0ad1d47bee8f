/**
 * The decisions the timer view makes from the countdown state: the `MM:SS`
 * text, the session icon and colours, the next-session button, and which
 * session indicators are active or finished. The DOM updates they feed are
 * not modelled.
 */
module Display {
  import opened Sessions

  predicate IsDigit(c: char) {
    '0' <= c <= '9'
  }

  predicate IsDigits(s: string) {
    forall i :: 0 <= i < |s| ==> IsDigit(s[i])
  }

  function DigitChar(d: nat): (c: char)
    requires d < 10
    ensures IsDigit(c) && c as int - '0' as int == d
  {
    (d + '0' as int) as char
  }

  /** The number a string of decimal digits denotes. */
  function DigitsValue(s: string): nat
    requires IsDigits(s)
  {
    if s == [] then 0 else 10 * DigitsValue(s[..|s| - 1]) + (s[|s| - 1] as int - '0' as int)
  }

  /**
   * `toString` of a non-negative integer: its decimal digits, with no
   * leading zero, one digit below 10 and two below 100.
   */
  function NatToString(n: nat): (r: string)
    ensures IsDigits(r) && DigitsValue(r) == n
    ensures 1 <= |r| && (|r| > 1 ==> r[0] != '0')
    ensures n < 10 <==> |r| == 1
    ensures n < 100 <==> |r| <= 2
  {
    if n < 10 then
      [DigitChar(n)]
    else
      var prefix := NatToString(n / 10);
      var r := prefix + [DigitChar(n % 10)];
      assert r[..|r| - 1] == prefix;
      r
  }

  /** `toString` of any integer: a minus sign before the digits of a negative one. */
  function IntToString(n: int): (r: string)
    ensures n >= 0 ==> IsDigits(r) && DigitsValue(r) == n
    ensures n < 0 ==> |r| >= 2 && r[0] == '-' && IsDigits(r[1..]) && DigitsValue(r[1..]) == -n
  {
    if n < 0 then "-" + NatToString(-n) else NatToString(n)
  }

  /** A leading zero does not change the number a digit string denotes. */
  lemma {:induction false} LeadingZeroKeepsValue(s: string)
    requires IsDigits(s)
    ensures IsDigits("0" + s) && DigitsValue("0" + s) == DigitsValue(s)
  {
    if s != [] {
      var z := "0" + s;
      assert z[..|z| - 1] == "0" + s[..|s| - 1];
      LeadingZeroKeepsValue(s[..|s| - 1]);
    }
  }

  /**
   * `addZeroToIntIfUnderTen`: a zero is put in front of numbers below 10.
   * For every non-negative number the result is a digit string of at least two
   * characters that denotes the number; it is exactly two characters below 100.
   */
  function AddZeroToIntIfUnderTen(n: int): (r: string)
    ensures 0 <= n ==> IsDigits(r) && DigitsValue(r) == n && |r| >= 2
    ensures 0 <= n < 100 ==> |r| == 2
    ensures n >= 10 ==> r == NatToString(n)
  {
    var stringified := IntToString(n);
    if n < 10 then
      if n >= 0 then LeadingZeroKeepsValue(stringified); "0" + stringified
      else "0" + stringified
    else
      stringified
  }

  /**
   * `currentTimingDisplay`: minutes and seconds, each padded, joined by a
   * colon. For a clock with non-negative minutes and seconds below 100, the
   * text ends in ":SS", the part before the colon reads back as the minutes
   * and the part after it as the seconds; below 100 minutes it is "MM:SS".
   */
  function CurrentTimingDisplay(minutes: int, seconds: int): (r: string)
    ensures 0 <= minutes && 0 <= seconds < 100 ==>
      && |r| >= 5 && r[|r| - 3] == ':'
      && IsDigits(r[..|r| - 3]) && DigitsValue(r[..|r| - 3]) == minutes
      && IsDigits(r[|r| - 2..]) && DigitsValue(r[|r| - 2..]) == seconds
    ensures 0 <= minutes < 100 && 0 <= seconds < 100 ==> |r| == 5
  {
    var mm := AddZeroToIntIfUnderTen(minutes);
    var ss := AddZeroToIntIfUnderTen(seconds);
    var r := mm + ":" + ss;
    if 0 <= minutes && 0 <= seconds < 100 then
      assert r[..|r| - 3] == mm;
      assert r[|r| - 2..] == ss;
      r
    else
      r
  }

  /** The text that reads back as a clock: digits, a colon, then two digits. */
  predicate IsClockText(r: string) {
    |r| >= 3 && r[|r| - 3] == ':' && IsDigits(r[..|r| - 3]) && IsDigits(r[|r| - 2..])
  }

  /** Reads minutes and seconds back from a clock text. */
  function ReadClock(r: string): (int, int)
    requires IsClockText(r)
  {
    (DigitsValue(r[..|r| - 3]), DigitsValue(r[|r| - 2..]))
  }

  /** The display text reads back as the clock it shows. */
  lemma DisplayReadsBack(minutes: int, seconds: int)
    requires 0 <= minutes && 0 <= seconds < 100
    ensures IsClockText(CurrentTimingDisplay(minutes, seconds))
    ensures ReadClock(CurrentTimingDisplay(minutes, seconds)) == (minutes, seconds)
  {
  }

  /** Two clocks with the same text show the same time. */
  lemma TimingDisplayDeterminesClock(m1: int, s1: int, m2: int, s2: int)
    requires 0 <= m1 && 0 <= s1 < 100 && 0 <= m2 && 0 <= s2 < 100
    requires CurrentTimingDisplay(m1, s1) == CurrentTimingDisplay(m2, s2)
    ensures m1 == m2 && s1 == s2
  {
    DisplayReadsBack(m1, s1);
    DisplayReadsBack(m2, s2);
  }

  /** `targetIconName`: the icon of a session kind. */
  function TargetIconName(kind: Kind): (r: string)
    ensures r == "fa-briefcase" <==> kind == Work
    ensures r == "fa-bed" <==> kind == LongBreak
    ensures r == "fa-coffee" <==> kind == ShortBreak
  {
    match kind
    case Work => "fa-briefcase"
    case LongBreak => "fa-bed"
    case ShortBreak => "fa-coffee"
  }

  /** Each kind of session has its own icon. */
  lemma IconsTellKindsApart(k1: Kind, k2: Kind)
    ensures TargetIconName(k1) == TargetIconName(k2) <==> k1 == k2
  {
  }

  /** `targetBackgroundColor`. */
  function TargetBackgroundColor(kind: Kind, currentSession: int, sessionsUntilLongBreak: int): (r: string)
    ensures r == "yellow" || r == "green" || r == "red"
    ensures kind == LongBreak ==> r == "red"
    ensures kind == Work ==> r != "red"
  {
    if currentSession == sessionsUntilLongBreak && kind != LongBreak then "yellow"
    else if kind == Work then "green"
    else "red"
  }

  /**
   * On a well-placed position the background is yellow exactly for the work
   * session a long break follows, green for every other work session and red
   * for both kinds of break.
   */
  lemma BackgroundColorMeaning(p: Position, n: int)
    requires WellPlaced(p, n)
    ensures TargetBackgroundColor(p.kind, p.currentSession, n) == "yellow" <==> NextSessionName(p.kind, p.currentSession, n) == LongBreak
    ensures TargetBackgroundColor(p.kind, p.currentSession, n) == "green" <==> NextSessionName(p.kind, p.currentSession, n) == ShortBreak
    ensures TargetBackgroundColor(p.kind, p.currentSession, n) == "red" <==> p.kind != Work
  {
    if p.kind == ShortBreak {
      assert p.currentSession != n;
    }
  }

  /** `targetSliceColor`: the colour of the progress slices after a reset. */
  function TargetSliceColor(kind: Kind): (r: string)
    ensures r == "yellow" <==> kind == LongBreak
    ensures r == "red" <==> kind == Work
    ensures r == "green" <==> kind == ShortBreak
  {
    match kind
    case LongBreak => "yellow"
    case Work => "red"
    case ShortBreak => "green"
  }

  /** Each kind of session has its own slice colour. */
  lemma SliceColorsTellKindsApart(k1: Kind, k2: Kind)
    ensures TargetSliceColor(k1) == TargetSliceColor(k2) <==> k1 == k2
  {
  }

  /** The shared condition of the button's first branch: a short break just before the last work session. */
  predicate BeforeLastWorkSession(kind: Kind, currentSession: int, sessionsUntilLongBreak: int) {
    currentSession == sessionsUntilLongBreak - 1 && kind == ShortBreak
  }

  /** The shared condition of the button's second branch. */
  predicate WorkComesAfterNext(kind: Kind, currentSession: int, sessionsUntilLongBreak: int) {
    || NextSessionName(kind, currentSession, sessionsUntilLongBreak) == ShortBreak
    || (currentSession == sessionsUntilLongBreak && kind != LongBreak)
  }

  /** `nextSessionButtonColor`. */
  function NextSessionButtonColor(kind: Kind, currentSession: int, sessionsUntilLongBreak: int): (r: string)
    ensures r == "yellow" || r == "red" || r == "green"
    ensures r == "yellow" ==> kind == ShortBreak
    ensures kind == Work ==> r == "red"
  {
    if BeforeLastWorkSession(kind, currentSession, sessionsUntilLongBreak) then "yellow"
    else if WorkComesAfterNext(kind, currentSession, sessionsUntilLongBreak) then "red"
    else "green"
  }

  /** `nextSessionButtonIconName`. */
  function NextSessionButtonIconName(kind: Kind, currentSession: int, sessionsUntilLongBreak: int): (r: string)
    ensures r == "fa-bed" || r == "fa-briefcase" || r == "fa-coffee"
    ensures r == "fa-bed" ==> kind == ShortBreak
    ensures kind == Work ==> r == "fa-briefcase"
  {
    var suffix :=
      if BeforeLastWorkSession(kind, currentSession, sessionsUntilLongBreak) then "bed"
      else if WorkComesAfterNext(kind, currentSession, sessionsUntilLongBreak) then "briefcase"
      else "coffee";
    "fa-" + suffix
  }

  /** The button's colour and icon always agree: yellow with the bed, red with the briefcase, green with the cup. */
  lemma ButtonColorMatchesIcon(kind: Kind, currentSession: int, n: int)
    ensures NextSessionButtonColor(kind, currentSession, n) == "yellow" <==> NextSessionButtonIconName(kind, currentSession, n) == "fa-bed"
    ensures NextSessionButtonColor(kind, currentSession, n) == "red" <==> NextSessionButtonIconName(kind, currentSession, n) == "fa-briefcase"
    ensures NextSessionButtonColor(kind, currentSession, n) == "green" <==> NextSessionButtonIconName(kind, currentSession, n) == "fa-coffee"
  {
  }

  /**
   * The button is restyled just before a session change, so what it shows is
   * where the following press will lead: on a well-placed position with at
   * least two work sessions per cycle, the icon computed before the change is
   * the icon of the session that comes after the one being entered.
   */
  lemma NextSessionButtonShowsFollowingSession(p: Position, n: int)
    requires n >= 2 && WellPlaced(p, n)
    ensures var q := Advance(p, n);
      NextSessionButtonIconName(p.kind, p.currentSession, n) == TargetIconName(NextSessionName(q.kind, q.currentSession, n))
  {
    AdvanceKeepsWellPlaced(p, n);
    if p.kind == ShortBreak {
      assert Advance(p, n) == Position(Work, p.currentSession + 1);
    }
  }

  /**
   * The view as first built (a green clock showing the briefcase, a green
   * next-session button showing the cup) agrees with these rules at the first
   * work session, whose next press leads to a short break. The button is the
   * one the rules give on the change that enters work session 1, the change
   * out of the long break.
   */
  lemma InitialViewAgrees(n: int)
    requires n >= 2
    ensures TargetIconName(NextSessionName(Work, 1, n)) == "fa-coffee"
    ensures TargetBackgroundColor(Work, 1, n) == "green"
    ensures TargetIconName(Work) == "fa-briefcase"
    ensures Advance(Position(LongBreak, n), n) == Position(Work, 1)
    ensures NextSessionButtonColor(LongBreak, n, n) == "green"
    ensures NextSessionButtonIconName(LongBreak, n, n) == "fa-coffee"
  {
  }

  /** The classes a session indicator can carry besides "session-indicator". */
  datatype IndicatorClass = Plain | Active | Finished

  /** The class of indicator `i` (0-based) for the given session counter. */
  function IndicatorClassAt(i: int, currentSession: int): IndicatorClass {
    if currentSession == i + 1 then Active
    else if currentSession > i + 1 then Finished
    else Plain
  }

  /**
   * The classes the `rerenderSessionsIndicators` handler gives the `count`
   * indicators: indicator i is active exactly when it is the current session
   * and finished exactly when it is an earlier one.
   */
  function IndicatorClasses(currentSession: int, count: nat): (r: seq<IndicatorClass>)
    ensures |r| == count
    ensures forall i :: 0 <= i < count ==> (r[i] == Active <==> currentSession == i + 1)
    ensures forall i :: 0 <= i < count ==> (r[i] == Finished <==> currentSession > i + 1)
  {
    seq(count, i => IndicatorClassAt(i, currentSession))
  }

  /**
   * At most one indicator is active, every indicator before the active one is
   * finished and every one after it is plain; exactly one is active when the
   * counter is within 1..count.
   */
  lemma IndicatorsShowProgress(currentSession: int, count: nat)
    ensures var r := IndicatorClasses(currentSession, count);
      && (forall i, j :: 0 <= i < count && 0 <= j < count && r[i] == Active && r[j] == Active ==> i == j)
      && (forall i, j :: 0 <= j < i < count && r[i] == Active ==> r[j] == Finished)
      && (forall i, j :: 0 <= i < j < count && r[i] == Active ==> r[j] == Plain)
      && ((exists i :: 0 <= i < count && r[i] == Active) <==> 1 <= currentSession <= count)
  {
    var r := IndicatorClasses(currentSession, count);
    if 1 <= currentSession <= count {
      assert r[currentSession - 1] == Active;
    }
  }

  /** The indicators as first built: the first one active, the rest plain. */
  function InitialIndicatorClasses(count: nat): (r: seq<IndicatorClass>)
    ensures |r| == count
  {
    seq(count, i => if i == 0 then Active else Plain)
  }

  /** The indicators as first built are those of the first session. */
  lemma InitialIndicatorsShowFirstSession(count: nat)
    ensures InitialIndicatorClasses(count) == IndicatorClasses(1, count)
  {
  }
}
