/**
 * The Pomodoro countdown of the dashboard (src/components/Dashboard.js) as
 * values: the four pieces of timer state, what one tick of the one-second
 * interval does to them, the three buttons, and the `MM:SS` display. The
 * interval itself is not modelled: a tick is a step the caller takes, one per
 * elapsed second while the timer runs, and time is counted in ticks.
 */
module Timer {
  import opened Options
  import opened Text

  /** Length of a work phase in seconds (25 minutes). */
  const WorkSeconds: nat := 25 * 60
  /** Length of a break phase in seconds (5 minutes). */
  const BreakSeconds: nat := 5 * 60

  /** The seconds a phase starts with. */
  function Duration(isBreak: bool): (d: nat)
    ensures d == 300 || d == 1500
    ensures d == 300 <==> isBreak
  {
    if isBreak then BreakSeconds else WorkSeconds
  }

  /** `timeLeft` in seconds, `isActive`, `isBreak` and `sessions` (completed work phases). */
  datatype Clock = Clock(timeLeft: int, isActive: bool, isBreak: bool, sessions: nat)

  /** The timer the dashboard mounts with: a full work phase, paused, no sessions. */
  const Initial: Clock := Clock(WorkSeconds, false, false, 0)

  /** What every reachable clock satisfies: some time, never more than the phase's full length. */
  predicate Valid(c: Clock) {
    1 <= c.timeLeft <= Duration(c.isBreak)
  }

  /** The message the completion alert shows, chosen by the phase that ended. */
  datatype Alert = WorkComplete | BreakOver {
    function Message(): string {
      match this
      case WorkComplete => "Work session complete! Time for a break!"
      case BreakOver => "Break time over! Back to work!"
    }
  }

  datatype TickOutcome = TickOutcome(clock: Clock, alert: Option<Alert>)

  /**
   * One run of the interval's state updater. With more than one second left it
   * counts down and nothing else changes. Otherwise the phase is over: the
   * timer stops, the phase flips, a finished work phase counts as a session,
   * the new phase starts full, and exactly one alert names the phase that ended.
   */
  function Tick(c: Clock): (r: TickOutcome)
    ensures c.timeLeft > 1 ==> r.clock == c.(timeLeft := c.timeLeft - 1) && r.alert == None
    ensures c.timeLeft <= 1 ==>
      && !r.clock.isActive
      && r.clock.isBreak == !c.isBreak
      && r.clock.sessions == (if c.isBreak then c.sessions else c.sessions + 1)
      && r.clock.timeLeft == (if c.isBreak then WorkSeconds else BreakSeconds)
      && r.alert == Some(if c.isBreak then BreakOver else WorkComplete)
    ensures Valid(c) ==> Valid(r.clock)
    ensures r.clock.sessions >= c.sessions
  {
    if c.timeLeft <= 1 then
      var next := !c.isBreak;
      TickOutcome(
        Clock(Duration(next), false, next, if c.isBreak then c.sessions else c.sessions + 1),
        Some(if c.isBreak then BreakOver else WorkComplete))
    else
      TickOutcome(c.(timeLeft := c.timeLeft - 1), None)
  }

  /** The Start/Pause button: only the running flag changes. */
  function Toggle(c: Clock): (r: Clock)
    ensures r.isActive == !c.isActive
    ensures r.timeLeft == c.timeLeft && r.isBreak == c.isBreak && r.sessions == c.sessions
    ensures Valid(c) ==> Valid(r)
  {
    c.(isActive := !c.isActive)
  }

  /** The Reset button: stopped, the current phase full again, phase and sessions kept. */
  function Reset(c: Clock): (r: Clock)
    ensures !r.isActive && r.timeLeft == Duration(c.isBreak)
    ensures r.isBreak == c.isBreak && r.sessions == c.sessions
    ensures Valid(r)
  {
    c.(isActive := false, timeLeft := Duration(c.isBreak))
  }

  /**
   * The Skip button: stopped, the phase flipped and full, and one more session
   * exactly when a work phase was skipped.
   */
  function Skip(c: Clock): (r: Clock)
    ensures !r.isActive && r.isBreak == !c.isBreak
    ensures r.timeLeft == Duration(r.isBreak)
    ensures r.sessions == c.sessions + 1 <==> !c.isBreak
    ensures c.isBreak ==> r.sessions == c.sessions
    ensures Valid(r)
  {
    if c.isBreak then Clock(WorkSeconds, false, false, c.sessions)
    else Clock(BreakSeconds, false, true, c.sessions + 1)
  }

  lemma InitialValid()
    ensures Valid(Initial) && Initial.timeLeft == 1500
    ensures !Initial.isActive && !Initial.isBreak && Initial.sessions == 0
  {
  }

  /** Pressing Reset twice does what pressing it once does. */
  lemma ResetIdempotent(c: Clock)
    ensures Reset(Reset(c)) == Reset(c)
  {
  }

  /** Pressing Start/Pause twice restores the clock. */
  lemma ToggleTwice(c: Clock)
    ensures Toggle(Toggle(c)) == c
  {
  }

  /** A phase that runs out lands where Skip would have taken it, plus the alert. */
  lemma CompletionIsSkip(c: Clock)
    requires c.timeLeft <= 1
    ensures Tick(c).clock == Skip(c)
  {
  }

  /**
   * `n` seconds of the running interval: ticks stop once a tick has stopped
   * the timer (the component then clears the interval). Returns the clock and
   * the alerts raised on the way.
   */
  function Run(c: Clock, n: nat): (r: (Clock, seq<Alert>))
    ensures n == 0 || !c.isActive ==> r == (c, [])
    ensures |r.1| <= 1
    ensures r.1 != [] ==> !r.0.isActive
    ensures Valid(c) ==> Valid(r.0)
    ensures r.0.sessions >= c.sessions
    decreases n
  {
    if n == 0 || !c.isActive then (c, [])
    else
      var step := Tick(c);
      var rest := Run(step.clock, n - 1);
      (rest.0, ToSeq(step.alert) + rest.1)
  }

  /** While time is left, `n` ticks take exactly `n` seconds off and raise nothing. */
  lemma {:induction false} RunCountsDown(c: Clock, n: nat)
    requires c.isActive && n < c.timeLeft
    ensures Run(c, n) == (c.(timeLeft := c.timeLeft - n), [])
    decreases n
  {
    if n > 0 {
      var next := c.(timeLeft := c.timeLeft - 1);
      assert Tick(c) == TickOutcome(next, None);
      RunCountsDown(next, n - 1);
      var rest := Run(next, n - 1);
      assert rest == (c.(timeLeft := c.timeLeft - n), []);
      var none: seq<Alert> := ToSeq(None);
      assert none + rest.1 == [];
      assert Run(c, n) == (rest.0, none + rest.1);
    }
  }

  /**
   * A running phase with `t` seconds left finishes on the `t`-th tick, with
   * one alert, and any further ticks do nothing since the timer has stopped.
   */
  lemma {:induction false} RunCompletesPhase(c: Clock, extra: nat)
    requires c.isActive && c.timeLeft >= 1
    ensures Run(c, c.timeLeft as nat + extra) == (Skip(c), [if c.isBreak then BreakOver else WorkComplete])
  {
    var last := c.(timeLeft := 1);
    var alert := if c.isBreak then BreakOver else WorkComplete;
    var k := c.timeLeft as nat - 1;
    RunCountsDown(c, k);
    assert Run(c, k) == (last, []);
    RunSplit(c, k, 1 + extra);
    assert Run(last, 1 + extra) == (Skip(c), [alert]) by {
      assert Tick(last) == TickOutcome(Skip(c), Some(alert));
      assert Run(Skip(c), extra) == (Skip(c), []);
      assert ToSeq(Some(alert)) + [] == [alert];
    }
    assert k + (1 + extra) == c.timeLeft as nat + extra;
    var none: seq<Alert> := [];
    assert none + [alert] == [alert];
  }

  /** Running `m` then `n` seconds is running `m + n` seconds. */
  lemma {:induction false} RunSplit(c: Clock, m: nat, n: nat)
    ensures Run(c, m + n) == (Run(Run(c, m).0, n).0, Run(c, m).1 + Run(Run(c, m).0, n).1)
    decreases m
  {
    if m == 0 {
      assert Run(c, 0) == (c, []);
      assert [] + Run(c, n).1 == Run(c, n).1;
    } else if !c.isActive {
      assert Run(c, m) == (c, []) && Run(c, n) == (c, []) && Run(c, m + n) == (c, []);
      var none: seq<Alert> := [];
      assert none + none == none;
    } else {
      var step := Tick(c);
      var a := ToSeq(step.alert);
      RunSplit(step.clock, m - 1, n);
      var mid := Run(step.clock, m - 1);
      var tail := Run(mid.0, n);
      assert Run(c, m) == (mid.0, a + mid.1);
      assert Run(c, m + n) == (tail.0, a + (mid.1 + tail.1));
      assert a + (mid.1 + tail.1) == (a + mid.1) + tail.1;
    }
  }

  /** A full work session from the initial clock: Start, then 1500 ticks. */
  lemma FirstWorkSession()
    ensures Run(Toggle(Initial), WorkSeconds) == (Clock(BreakSeconds, false, true, 1), [WorkComplete])
  {
    RunCompletesPhase(Toggle(Initial), 0);
  }

  /**
   * `formatTime(seconds)`: the whole minutes and the remaining seconds, each
   * written as a two-digit `Field`, around a colon; below 100 minutes the
   * display is exactly `MM:SS`.
   */
  function FormatTime(seconds: nat): (r: string)
    ensures |r| >= 5 && r[|r| - 3] == ':'
    ensures seconds < 6000 ==> |r| == 5
    ensures r[..|r| - 3] == Field(seconds / 60) && r[|r| - 2..] == Field(seconds % 60)
  {
    DivideBy60(seconds);
    var m, s := Field(seconds / 60), Field(seconds % 60);
    SplitAtColon(m, s);
    m + ":" + s
  }

  /** `n.toString().padStart(2, "0")`: at least two characters, exactly two below 100. */
  function Field(n: nat): (f: string)
    ensures |f| >= 2 && (n < 100 ==> |f| == 2)
  {
    PadStart(NatToString(n), 2, '0')
  }

  /** A field is a digit string whose value is the number it shows. */
  lemma FieldValue(n: nat)
    ensures AllDigits(Field(n)) && ParseDecimal(Field(n)) == n
  {
    ParsePadded(NatToString(n), 2);
    ParseNatToString(n);
  }

  /** Euclidean division by 60, as `Math.floor(seconds / 60)` and `seconds % 60` give it for `seconds >= 0`. */
  lemma DivideBy60(seconds: nat)
    ensures seconds == seconds / 60 * 60 + seconds % 60 && seconds % 60 < 60
    ensures seconds < 6000 ==> seconds / 60 < 100
  {
  }

  /** The two sides of `m:ss` are found again where they were put. */
  lemma SplitAtColon(m: string, s: string)
    requires |s| == 2 && |m| >= 2
    ensures var r := m + ":" + s;
      && |r| == |m| + 3 && r[|r| - 3] == ':'
      && r[..|r| - 3] == m && r[|r| - 2..] == s
  {
  }

  /** The number before the colon of a display `M…M:SS`, when it is all digits. */
  function MinutesShown(display: string): Option<nat> {
    if |display| < 4 || display[|display| - 3] != ':' then None
    else
      var field := display[..|display| - 3];
      if AllDigits(field) then Some(ParseDecimal(field)) else None
  }

  /** The two-digit number after the colon of a display `M…M:SS`. */
  function SecondsShown(display: string): Option<nat> {
    if |display| < 4 || display[|display| - 3] != ':' then None
    else
      var field := display[|display| - 2..];
      if AllDigits(field) then Some(ParseDecimal(field)) else None
  }

  /** Reads a display `M…M:SS` back into seconds; the inverse of `FormatTime`. */
  function ParseClock(display: string): Option<nat> {
    match (MinutesShown(display), SecondsShown(display))
    case (Some(mins), Some(secs)) => Some(mins * 60 + secs)
    case _ => None
  }

  /** The minutes a display shows are the whole minutes in `seconds`. */
  lemma FormatTimeMinutes(seconds: nat)
    ensures MinutesShown(FormatTime(seconds)) == Some(seconds / 60)
  {
    FieldValue(seconds / 60);
    ReadMinutes(FormatTime(seconds), Field(seconds / 60), seconds / 60);
  }

  /** The seconds a display shows are the seconds left over after the whole minutes, so fewer than 60. */
  lemma FormatTimeSeconds(seconds: nat)
    ensures SecondsShown(FormatTime(seconds)) == Some(seconds % 60)
    ensures seconds % 60 < 60
  {
    FieldValue(seconds % 60);
    ReadSeconds(FormatTime(seconds), Field(seconds % 60), seconds % 60);
  }

  /** Every display reads back as the seconds it shows. */
  lemma FormatTimeRoundTrip(seconds: nat)
    ensures ParseClock(FormatTime(seconds)) == Some(seconds)
  {
    FormatTimeMinutes(seconds);
    FormatTimeSeconds(seconds);
    ReadClock(FormatTime(seconds), seconds);
  }

  /** A display showing the whole minutes of `seconds` and the seconds left over reads back as `seconds`. */
  lemma ReadClock(display: string, seconds: nat)
    requires MinutesShown(display) == Some(seconds / 60) && SecondsShown(display) == Some(seconds % 60)
    ensures ParseClock(display) == Some(seconds)
  {
    DivideBy60(seconds);
  }

  /** A display whose minutes side is a digit string worth `mins` shows `mins` minutes. */
  lemma ReadMinutes(display: string, m: string, mins: nat)
    requires |display| >= 5 && display[|display| - 3] == ':' && display[..|display| - 3] == m
    requires AllDigits(m) && ParseDecimal(m) == mins
    ensures MinutesShown(display) == Some(mins)
  {
  }

  /** A display whose seconds side is a digit string worth `secs` shows `secs` seconds. */
  lemma ReadSeconds(display: string, s: string, secs: nat)
    requires |display| >= 5 && display[|display| - 3] == ':' && display[|display| - 2..] == s
    requires AllDigits(s) && ParseDecimal(s) == secs
    ensures SecondsShown(display) == Some(secs)
  {
  }
}
