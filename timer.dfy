/**
 * The session countdown of Assets/Timer.cs: a countdown of `remainingTime`
 * seconds that latches `timerEnded` once time has run out, and a duration
 * policy that gives weekend days a longer session.
 *
 * The day number is read from an external day manager that may be absent;
 * it is a parameter `currentDay: Option<int>` here. The frame time is the
 * parameter `delta`. C# `float` is modelled by `real`.
 */
module Countdown {
  import opened Wrappers

  /** Session length on days 6 and 7 (`weekendTime`), in seconds. */
  const WeekendTime: real := 300.0

  /** Session length on every other day, in seconds. */
  const WeekdayTime: real := 180.0

  predicate IsWeekend(day: int) {
    day == 6 || day == 7
  }

  /**
   * The duration policy of `SetInitialTime`: the value `initialTime` has
   * after it, given the day source and the value `configured` it had before.
   */
  function DurationFor(currentDay: Option<int>, configured: real): (r: real)
    ensures currentDay.None? ==> r == configured
    ensures currentDay.Some? ==> (r == WeekendTime <==> IsWeekend(currentDay.value))
    ensures currentDay.Some? ==> (r == WeekdayTime <==> !IsWeekend(currentDay.value))
  {
    match currentDay
    case None => configured
    case Some(day) => if IsWeekend(day) then WeekendTime else WeekdayTime
  }

  /** The three fields of a timer. */
  datatype TimerState = TimerState(initialTime: real, remainingTime: real, timerEnded: bool)

  /** The latch invariant: the timer is only ever marked ended once time has run out. */
  predicate Latched(s: TimerState) {
    s.timerEnded ==> s.remainingTime <= 0.0
  }

  /** One frame of `Update`, `delta` seconds after the previous one. */
  function Tick(s: TimerState, delta: real): (r: TimerState)
    ensures r.initialTime == s.initialTime
    ensures s.timerEnded ==> r.timerEnded
    ensures Latched(s) ==> Latched(r)
  {
    if s.remainingTime > 0.0 then s.(remainingTime := s.remainingTime - delta)
    else if !s.timerEnded then s.(timerEnded := true)
    else s
  }

  /** Whether the step from `before` to `after` is the one that called `TimerEnded`. */
  predicate Fired(before: TimerState, after: TimerState) {
    !before.timerEnded && after.timerEnded
  }

  /** `ResetTimer` (and the state part of `Start`) on the given day. */
  function Reset(s: TimerState, currentDay: Option<int>): (r: TimerState)
    ensures r.remainingTime == r.initialTime && !r.timerEnded
    ensures currentDay.Some? ==> r.initialTime == WeekendTime || r.initialTime == WeekdayTime
  {
    var duration := DurationFor(currentDay, s.initialTime);
    TimerState(duration, duration, false)
  }

  /** The state after one `Update` per delta in `deltas`, in order. */
  function Run(s: TimerState, deltas: seq<real>): TimerState
    decreases |deltas|
  {
    if deltas == [] then s else Run(Tick(s, deltas[0]), deltas[1..])
  }

  /** How many of the frames in `deltas` call `TimerEnded`. */
  function FireCount(s: TimerState, deltas: seq<real>): nat
    decreases |deltas|
  {
    if deltas == [] then 0
    else
      var next := Tick(s, deltas[0]);
      (if Fired(s, next) then 1 else 0) + FireCount(next, deltas[1..])
  }

  /** The sum of a sequence of frame times. */
  function Sum(deltas: seq<real>): real
    decreases |deltas|
  {
    if deltas == [] then 0.0 else deltas[0] + Sum(deltas[1..])
  }

  // ---------------------------------------------------------------------
  // Displayed minutes and seconds
  // ---------------------------------------------------------------------

  /** The two numbers shown as "MM : SS". */
  datatype Clock = Clock(minutes: int, seconds: int)

  /** `Mathf.FloorToInt`: the greatest integer not above `x`. */
  function FloorToInt(x: real): (n: int)
    ensures n as real <= x < n as real + 1.0
  {
    x.Floor
  }

  /** C#'s `x % 60` on floats: the remainder of division truncated toward zero. */
  function Rem60(x: real): (r: real)
    ensures x >= 0.0 ==> 0.0 <= r < 60.0
    ensures x < 0.0 ==> -60.0 < r <= 0.0
    ensures (x - r) / 60.0 == ((x - r) / 60.0).Floor as real
  {
    var q := x / 60.0;
    var truncated := if q >= 0.0 then q.Floor else -((-q).Floor);
    var r := x - truncated as real * 60.0;
    assert (x - r) / 60.0 == truncated as real;
    assert (truncated as real).Floor == truncated;
    r
  }

  /** The minutes and seconds `Update` shows for `remaining` seconds. */
  function Display(remaining: real): (c: Clock)
    ensures c.minutes as real * 60.0 <= remaining < c.minutes as real * 60.0 + 60.0
    ensures remaining >= 0.0 ==> 0 <= c.seconds < 60
    ensures remaining < 0.0 ==> -60 <= c.seconds <= 0
  {
    Clock(FloorToInt(remaining / 60.0), FloorToInt(Rem60(remaining)))
  }

  // ---------------------------------------------------------------------
  // Properties
  // ---------------------------------------------------------------------

  /** For a non-negative time the display is the whole seconds split into minutes and seconds. */
  lemma DisplaySplit(remaining: real)
    requires remaining >= 0.0
    ensures Display(remaining).minutes == (remaining / 60.0).Floor
    ensures 0 <= Display(remaining).seconds <= 59
    ensures Display(remaining).minutes * 60 + Display(remaining).seconds == remaining.Floor
  {
  }

  /**
   * On the frame that takes the time below zero (by less than a minute) the
   * display shows minus one minute and a negative seconds count.
   */
  lemma NegativeTimeDisplay(remaining: real)
    requires -60.0 < remaining < 0.0
    ensures Display(remaining).minutes == -1
    ensures -60 <= Display(remaining).seconds <= -1
  {
  }

  /** While time remains, a frame subtracts exactly `delta`, unclamped, and changes nothing else. */
  lemma TickWhileRunning(s: TimerState, delta: real)
    requires s.remainingTime > 0.0
    ensures Tick(s, delta).remainingTime == s.remainingTime - delta
    ensures Tick(s, delta).remainingTime > -delta
    ensures Tick(s, delta).timerEnded == s.timerEnded
    ensures Tick(s, delta).initialTime == s.initialTime
    ensures !Fired(s, Tick(s, delta))
  {
  }

  /** Once time has run out a frame keeps the time, sets the latch, and fires iff it was not yet set. */
  lemma TickWhenOut(s: TimerState, delta: real)
    requires s.remainingTime <= 0.0
    ensures Tick(s, delta).remainingTime == s.remainingTime
    ensures Tick(s, delta).initialTime == s.initialTime
    ensures Tick(s, delta).timerEnded
    ensures Fired(s, Tick(s, delta)) <==> !s.timerEnded
    ensures s.timerEnded ==> Tick(s, delta) == s
  {
  }

  /** Every frame and every reset keeps the latch invariant. */
  lemma LatchPreserved(s: TimerState, delta: real, currentDay: Option<int>)
    requires Latched(s)
    ensures Latched(Tick(s, delta))
    ensures Latched(Reset(s, currentDay))
  {
  }

  /** After a reset the countdown is full for the recomputed duration and the latch is clear. */
  lemma ResetRestarts(s: TimerState, currentDay: Option<int>)
    ensures Reset(s, currentDay).initialTime == DurationFor(currentDay, s.initialTime)
    ensures Reset(s, currentDay).remainingTime == Reset(s, currentDay).initialTime
    ensures !Reset(s, currentDay).timerEnded
  {
  }

  /** Resetting twice on the same day gives the same state as resetting once. */
  lemma ResetIdempotent(s: TimerState, currentDay: Option<int>)
    ensures Reset(Reset(s, currentDay), currentDay) == Reset(s, currentDay)
  {
  }

  /** A timer whose latch is set stays set, and never fires again, until the next reset. */
  lemma {:induction false} EndedStaysEnded(s: TimerState, deltas: seq<real>)
    requires s.timerEnded
    ensures Run(s, deltas).timerEnded
    ensures FireCount(s, deltas) == 0
    decreases |deltas|
  {
    if deltas != [] {
      EndedStaysEnded(Tick(s, deltas[0]), deltas[1..]);
    }
  }

  /** Whatever the frame times, `TimerEnded` runs at most once between two resets. */
  lemma {:induction false} FiresAtMostOnce(s: TimerState, deltas: seq<real>)
    ensures FireCount(s, deltas) <= if s.timerEnded then 0 else 1
    decreases |deltas|
  {
    if s.timerEnded {
      EndedStaysEnded(s, deltas);
    } else if deltas != [] {
      var next := Tick(s, deltas[0]);
      if Fired(s, next) {
        EndedStaysEnded(next, deltas[1..]);
      } else {
        FiresAtMostOnce(next, deltas[1..]);
      }
    }
  }

  /**
   * When the frames before the last one add up to at least the time left,
   * `TimerEnded` runs exactly once and the timer ends latched.
   */
  lemma {:induction false} FiresOnceWhenTimeRunsOut(s: TimerState, deltas: seq<real>)
    requires !s.timerEnded
    requires |deltas| > 0
    requires Sum(deltas[..|deltas| - 1]) >= s.remainingTime
    ensures FireCount(s, deltas) == 1
    ensures Run(s, deltas).timerEnded
    decreases |deltas|
  {
    var next := Tick(s, deltas[0]);
    if s.remainingTime <= 0.0 {
      EndedStaysEnded(next, deltas[1..]);
    } else {
      assert |deltas| > 1;
      var rest := deltas[1..];
      assert deltas[..|deltas| - 1][1..] == rest[..|rest| - 1];
      FiresOnceWhenTimeRunsOut(next, rest);
    }
  }

  // ---------------------------------------------------------------------
  // The MonoBehaviour
  // ---------------------------------------------------------------------

  class Timer {
    var initialTime: real
    var remainingTime: real
    var timerEnded: bool

    function State(): TimerState
      reads this
    {
      TimerState(initialTime, remainingTime, timerEnded)
    }

    predicate Valid()
      reads this
    {
      Latched(State())
    }

    /** `dayDuration`: the duration the current countdown was started with. */
    function DayDuration(): (r: real)
      reads this
      ensures r == State().initialTime
    {
      initialTime
    }

    /**
     * The field initialisers; `configured` is the serialized `initialTime`,
     * whose default is 180 (`WeekdayTime`) unless the inspector overrides it.
     */
    constructor (configured: real)
      ensures State() == TimerState(configured, 0.0, false)
      ensures Valid()
    {
      initialTime := configured;
      remainingTime := 0.0;
      timerEnded := false;
    }

    method Start(currentDay: Option<int>)
      modifies this
      ensures State() == Reset(old(State()), currentDay)
      ensures remainingTime == DayDuration()
      ensures DayDuration() == DurationFor(currentDay, old(initialTime))
      ensures Valid()
    {
      SetInitialTime(currentDay);
      remainingTime := initialTime;
      timerEnded := false;
    }

    /** One frame; `shown` is the "MM : SS" pair written to the text, if any. */
    method Update(delta: real) returns (shown: Option<Clock>, fired: bool)
      requires Valid()
      modifies this
      ensures State() == Tick(old(State()), delta)
      ensures fired == Fired(old(State()), State())
      ensures shown == if old(remainingTime) > 0.0 then Some(Display(remainingTime)) else None
      ensures Valid()
    {
      shown, fired := None, false;
      if remainingTime > 0.0 {
        remainingTime := remainingTime - delta;
        var minutes := FloorToInt(remainingTime / 60.0);
        var seconds := FloorToInt(Rem60(remainingTime));
        shown := Some(Clock(minutes, seconds));
      } else if !timerEnded {
        TimerEnded();
        fired := true;
      }
    }

    method TimerEnded()
      requires remainingTime <= 0.0
      modifies this
      ensures State() == old(State()).(timerEnded := true)
      ensures Valid()
    {
      timerEnded := true;
    }

    method ResetTimer(currentDay: Option<int>)
      modifies this
      ensures State() == Reset(old(State()), currentDay)
      ensures remainingTime == DayDuration()
      ensures DayDuration() == DurationFor(currentDay, old(initialTime))
      ensures Valid()
    {
      SetInitialTime(currentDay);
      remainingTime := initialTime;
      timerEnded := false;
    }

    method SetInitialTime(currentDay: Option<int>)
      modifies this
      ensures initialTime == DurationFor(currentDay, old(initialTime))
      ensures remainingTime == old(remainingTime) && timerEnded == old(timerEnded)
    {
      if currentDay.Some? {
        if currentDay.value == 6 || currentDay.value == 7 {
          initialTime := WeekendTime;
        } else {
          initialTime := 180.0;
        }
      }
    }
  }
}
