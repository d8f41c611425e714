/**
  * The Pomodoro timer of the dashboard: a mode, the seconds left in it, a
  * running flag and the number of focus periods completed. The one-second
  * interval and the effect that reacts to it are modelled as an explicit
  * `Tick` transition; the sound played on completion is left out.
  */
module Pomodoro {
  import opened Text

  datatype Mode = Focus | ShortBreak | LongBreak

  /** `TIMER_SETTINGS[mode].duration`, in seconds. */
  function Duration(mode: Mode): (seconds: nat)
    ensures seconds > 0 && seconds % 60 == 0
    ensures seconds == 1500 <==> mode == Focus
  {
    match mode
    case Focus => 25 * 60
    case ShortBreak => 5 * 60
    case LongBreak => 15 * 60
  }

  datatype TimerState = TimerState(mode: Mode, timeLeft: int, running: bool, sessionsCompleted: int)

  /** The invariant every reachable state keeps. */
  predicate Valid(s: TimerState) {
    0 <= s.timeLeft <= Duration(s.mode) && s.sessionsCompleted >= 0
  }

  function Initial(): (s: TimerState)
    ensures Valid(s) && !s.running && s.sessionsCompleted == 0
    ensures s.mode == Focus && s.timeLeft == Duration(Focus)
  {
    TimerState(Focus, Duration(Focus), false, 0)
  }

  /** The break that follows the completion of focus period number `completed`. */
  function BreakAfter(completed: int): Mode {
    if completed % 4 == 0 then LongBreak else ShortBreak
  }

  /** One run of the timer effect: a second elapses while running, or a period that reached zero completes. */
  function AfterTick(s: TimerState): (r: TimerState)
    ensures Valid(s) ==> Valid(r)
    ensures !s.running && s.timeLeft > 0 ==> r == s
    ensures s.timeLeft == 0 ==> !r.running && r.timeLeft == Duration(r.mode) && (r.mode == Focus <==> s.mode != Focus)
    ensures r.sessionsCompleted == s.sessionsCompleted + (if s.mode == Focus && s.timeLeft == 0 then 1 else 0)
  {
    if s.running && s.timeLeft > 0 then s.(timeLeft := s.timeLeft - 1)
    else if s.timeLeft == 0 then
      if s.mode == Focus then
        var next := BreakAfter(s.sessionsCompleted + 1);
        TimerState(next, Duration(next), false, s.sessionsCompleted + 1)
      else TimerState(Focus, Duration(Focus), false, s.sessionsCompleted)
    else s
  }

  /** The play/pause button: flips the running flag and nothing else. */
  function AfterToggle(s: TimerState): (r: TimerState)
    ensures r.running != s.running && r.(running := s.running) == s
    ensures Valid(s) ==> Valid(r)
  {
    s.(running := !s.running)
  }

  /** The reset button: stops the timer at the full duration of the current mode. */
  function AfterReset(s: TimerState): (r: TimerState)
    ensures !r.running && r.mode == s.mode && r.timeLeft == Duration(s.mode)
    ensures r.sessionsCompleted == s.sessionsCompleted
    ensures s.sessionsCompleted >= 0 ==> Valid(r)
  {
    s.(running := false, timeLeft := Duration(s.mode))
  }

  /** A mode button: stops the timer at the full duration of the chosen mode. */
  function AfterSwitch(s: TimerState, mode: Mode): (r: TimerState)
    ensures !r.running && r.mode == mode && r.timeLeft == Duration(mode)
    ensures r.sessionsCompleted == s.sessionsCompleted
    ensures s.sessionsCompleted >= 0 ==> Valid(r)
  {
    s.(mode := mode, timeLeft := Duration(mode), running := false)
  }

  class PomodoroTimer {
    var mode: Mode
    var timeLeft: int
    var running: bool
    var sessionsCompleted: int

    function State(): TimerState
      reads this
    {
      TimerState(mode, timeLeft, running, sessionsCompleted)
    }

    constructor ()
      ensures State() == Initial()
    {
      mode := Focus;
      timeLeft := Duration(Focus);
      running := false;
      sessionsCompleted := 0;
    }

    method Tick()
      modifies this
      ensures State() == AfterTick(old(State()))
    {
      if running && timeLeft > 0 {
        timeLeft := timeLeft - 1;
      } else if timeLeft == 0 {
        running := false;
        if mode == Focus {
          var nextMode := if (sessionsCompleted + 1) % 4 == 0 then LongBreak else ShortBreak;
          sessionsCompleted := sessionsCompleted + 1;
          mode := nextMode;
          timeLeft := Duration(nextMode);
        } else {
          mode := Focus;
          timeLeft := Duration(Focus);
        }
      }
    }

    method Toggle()
      modifies this
      ensures State() == AfterToggle(old(State()))
    {
      running := !running;
    }

    method Reset()
      modifies this
      ensures State() == AfterReset(old(State()))
    {
      running := false;
      timeLeft := Duration(mode);
    }

    method SwitchMode(newMode: Mode)
      modifies this
      ensures State() == AfterSwitch(old(State()), newMode)
    {
      mode := newMode;
      timeLeft := Duration(newMode);
      running := false;
    }
  }

  /** A second elapsing while running takes exactly one second off and changes nothing else. */
  lemma TickCountsDown(s: TimerState)
    requires s.running && s.timeLeft > 0
    ensures AfterTick(s).timeLeft == s.timeLeft - 1
    ensures AfterTick(s).mode == s.mode && AfterTick(s).running && AfterTick(s).sessionsCompleted == s.sessionsCompleted
  {
  }

  /** A stopped timer with time left does not move. */
  lemma PausedTimerHolds(s: TimerState)
    requires !s.running && s.timeLeft > 0
    ensures AfterTick(s) == s
  {
  }

  /** Completing a focus period stops the timer, counts the period and starts the matching break in full. */
  lemma FocusCompletion(s: TimerState)
    requires s.mode == Focus && s.timeLeft == 0
    ensures var t := AfterTick(s);
            !t.running && t.sessionsCompleted == s.sessionsCompleted + 1 &&
            t.mode != Focus &&
            (t.mode == LongBreak <==> t.sessionsCompleted % 4 == 0) &&
            t.timeLeft == Duration(t.mode)
  {
  }

  /** Completing a break stops the timer and returns to a full focus period, keeping the count. */
  lemma BreakCompletion(s: TimerState)
    requires s.mode != Focus && s.timeLeft == 0
    ensures var t := AfterTick(s);
            !t.running && t.mode == Focus && t.timeLeft == 1500 && t.sessionsCompleted == s.sessionsCompleted
  {
  }

  /** Reset and switching modes stop the timer at the full duration; reset keeps mode and count. */
  lemma ResetAndSwitch(s: TimerState, mode: Mode)
    ensures var r := AfterReset(s);
            !r.running && r.timeLeft == Duration(s.mode) && r.mode == s.mode && r.sessionsCompleted == s.sessionsCompleted
    ensures var w := AfterSwitch(s, mode);
            !w.running && w.mode == mode && w.timeLeft == Duration(mode) && w.sessionsCompleted == s.sessionsCompleted
  {
  }

  /** Every transition keeps `0 <= timeLeft <= Duration(mode)` and a non-negative count. */
  lemma TransitionsKeepValid(s: TimerState, mode: Mode)
    requires Valid(s)
    ensures Valid(AfterTick(s)) && Valid(AfterToggle(s)) && Valid(AfterReset(s)) && Valid(AfterSwitch(s, mode))
  {
  }

  /** `n` ticks in a row. */
  function Ticks(s: TimerState, n: nat): TimerState
    decreases n
  {
    if n == 0 then s else Ticks(AfterTick(s), n - 1)
  }

  /** A running period with `t` seconds left reaches zero after exactly `t` ticks, unchanged otherwise. */
  lemma {:induction false} RunDown(s: TimerState)
    requires Valid(s) && s.running
    ensures Ticks(s, s.timeLeft) == s.(timeLeft := 0)
    decreases s.timeLeft
  {
    if s.timeLeft > 0 {
      RunDown(AfterTick(s));
    }
  }

  /** Starting a full focus period and letting it run: 1501 ticks complete it and start the break. */
  lemma {:induction false} FullFocusPeriod(s: TimerState)
    requires Valid(s) && s.running && s.mode == Focus && s.timeLeft == Duration(Focus)
    ensures var t := Ticks(s, 1501);
            t.mode == BreakAfter(s.sessionsCompleted + 1) && t.timeLeft == Duration(t.mode) &&
            !t.running && t.sessionsCompleted == s.sessionsCompleted + 1
  {
    RunDown(s);
    TicksSplit(s, 1500, 1);
  }

  lemma {:induction false} TicksSplit(s: TimerState, m: nat, n: nat)
    ensures Ticks(s, m + n) == Ticks(Ticks(s, m), n)
    decreases m
  {
    if m > 0 {
      TicksSplit(AfterTick(s), m - 1, n);
    }
  }

  /** `formatTime`: minutes and seconds, each `padStart(2, "0")`, joined by a colon. */
  function FormatTime(seconds: nat): (r: string)
    ensures |r| >= 5 && r[|r| - 3] == ':'
    ensures seconds < 6000 <==> |r| == 5
  {
    TwoDigits(seconds / 60) + ":" + TwoDigits(seconds % 60)
  }

  /** Below 100 minutes the text is `mm:ss` with two digits each, and it reads back to the input. */
  lemma FormatTimeReadsBack(seconds: nat)
    requires seconds < 6000
    ensures var r := FormatTime(seconds);
            |r| == 5 && r[2] == ':' && AllDigits(r[..2]) && AllDigits(r[3..]) &&
            DigitsValue(r[..2]) * 60 + DigitsValue(r[3..]) == seconds &&
            DigitsValue(r[3..]) < 60
  {
    var r := FormatTime(seconds);
    TwoDigitsValue(seconds / 60);
    TwoDigitsValue(seconds % 60);
    assert r[..2] == TwoDigits(seconds / 60);
    assert r[3..] == TwoDigits(seconds % 60);
  }
}
