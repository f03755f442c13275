/** The stop/resume timer and the named timers of a time measurement. Times are in nanoseconds. */
module Timers {
  import opened Results

  // ---- one timer ------------------------------------------------------------------

  /** The fields of a timer; startPoint is moved by resume. */
  datatype Timing = Timing(startPoint: int, stopPoint: int, stopped: bool, basePoint: int)

  function Elapsed(t: Timing, now: int): int {
    if t.stopped then t.stopPoint - t.startPoint else now - t.startPoint
  }

  function Started(t: Timing, now: int): Timing { t.(startPoint := now, stopped := false) }

  function Stopped(t: Timing, now: int): Timing {
    if t.stopped then t else t.(stopPoint := now, stopped := true)
  }

  /** The clock is read twice when the timer is running: once here, once in elapsed. */
  function Resumed(t: Timing, now: int, again: int): Timing {
    t.(startPoint := now - Elapsed(t, again), stopped := false)
  }

  class Timer {
    var startPoint: int
    var stopPoint: int
    var stopped: bool
    var basePoint: int

    constructor (basePoint: int, now: int)
      ensures State() == Timing(now, 0, false, basePoint)
    {
      this.basePoint := basePoint;
      startPoint, stopPoint, stopped := now, 0, false;
    }

    function State(): Timing
      reads this
    {
      Timing(startPoint, stopPoint, stopped, basePoint)
    }

    method GetElapsed(now: int) returns (d: int)
      ensures d == Elapsed(State(), now)
    {
      if stopped {
        return stopPoint - startPoint;
      }
      return now - startPoint;
    }

    method Start(now: int)
      modifies this
      ensures !stopped && forall t :: Elapsed(State(), t) == t - now
      ensures stopPoint == old(stopPoint) && basePoint == old(basePoint)
      ensures State() == Started(old(State()), now)
    {
      startPoint := now;
      stopped := false;
    }

    method Stop(now: int)
      modifies this
      // The elapsed time stays what it was at the first stop.
      ensures stopped && forall t :: Elapsed(State(), t) == old(Elapsed(State(), now))
      ensures startPoint == old(startPoint) && basePoint == old(basePoint)
      ensures stopPoint == if old(stopped) then old(stopPoint) else now
      ensures State() == Stopped(old(State()), now)
    {
      if stopped {
        return;
      }
      stopPoint := now;
      stopped := true;
    }

    method Resume(now: int, again: int)
      modifies this
      // It runs on from the elapsed time at the second reading, which matters only when it was running.
      ensures !stopped && forall t :: Elapsed(State(), t) == old(Elapsed(State(), again)) + (t - now)
      ensures stopPoint == old(stopPoint) && basePoint == old(basePoint)
      ensures State() == Resumed(old(State()), now, again)
    {
      var elapsed := GetElapsed(again);
      startPoint := now - elapsed;
      stopped := false;
    }
  }

  datatype Op = Start(now: int) | Stop(now: int) | Resume(now: int, again: int)

  function Apply(t: Timing, op: Op): Timing {
    match op
    case Start(now) => Started(t, now)
    case Stop(now) => Stopped(t, now)
    case Resume(now, again) => Resumed(t, now, again)
  }

  /** A timer made at the given time and then operated on. */
  function AfterOps(base: int, made: int, ops: seq<Op>): Timing {
    if ops == [] then Timing(made, 0, false, base)
    else Apply(AfterOps(base, made, ops[..|ops| - 1]), ops[|ops| - 1])
  }

  /** The running intervals since the last start: the finished ones, and the begin of the present one. */
  datatype Intervals = Intervals(done: seq<(int, int)>, open: Option<int>)

  function IntervalsOf(made: int, ops: seq<Op>): Intervals {
    if ops == [] then Intervals([], Some(made))
    else
      var v := IntervalsOf(made, ops[..|ops| - 1]);
      match ops[|ops| - 1]
      case Start(now) => Intervals([], Some(now))
      case Stop(now) => if v.open.Some? then Intervals(v.done + [(v.open.value, now)], None) else v
      case Resume(now, _) => if v.open.None? then v.(open := Some(now)) else v
  }

  function Sum(intervals: seq<(int, int)>): int {
    if intervals == [] then 0
    else
      var last := intervals[|intervals| - 1];
      Sum(intervals[..|intervals| - 1]) + (last.1 - last.0)
  }

  function Total(v: Intervals, now: int): int {
    Sum(v.done) + (if v.open.Some? then now - v.open.value else 0)
  }

  /**
   * Resuming a running timer leaves its interval open, but reads the clock twice: the readings in
   * between are counted again. This is what that adds up to since the last start.
   */
  function Gaps(made: int, ops: seq<Op>): int {
    if ops == [] then 0
    else
      var before := ops[..|ops| - 1];
      match ops[|ops| - 1]
      case Start(_) => 0
      case Stop(_) => Gaps(made, before)
      case Resume(now, again) =>
        Gaps(made, before) + (if IntervalsOf(made, before).open.Some? then again - now else 0)
  }

  /** After every sequence of operations elapsed time is the total of the running intervals, plus the gaps. */
  lemma {:induction false} ElapsedIsRunningTimePlusGaps(base: int, made: int, ops: seq<Op>)
    ensures AfterOps(base, made, ops).stopped <==> IntervalsOf(made, ops).open.None?
    ensures forall now ::
              Elapsed(AfterOps(base, made, ops), now) == Total(IntervalsOf(made, ops), now) + Gaps(made, ops)
  {
    if ops == [] {
    } else {
      var before, op := ops[..|ops| - 1], ops[|ops| - 1];
      ElapsedIsRunningTimePlusGaps(base, made, before);
      var t, v := AfterOps(base, made, before), IntervalsOf(made, before);
      if op.Stop? && v.open.Some? {
        var closed := v.done + [(v.open.value, op.now)];
        assert closed[..|v.done|] == v.done;
        assert Elapsed(t, op.now) == Total(v, op.now) + Gaps(made, before);
      } else if op.Resume? {
        assert Elapsed(t, op.again) == Total(v, op.again) + Gaps(made, before);
      }
    }
  }

  /** Elapsed time is conserved exactly when the gaps add up to nothing. */
  lemma ElapsedIsRunningTimeIff(base: int, made: int, ops: seq<Op>)
    ensures (forall now :: Elapsed(AfterOps(base, made, ops), now) == Total(IntervalsOf(made, ops), now)) <==>
            Gaps(made, ops) == 0
  {
    ElapsedIsRunningTimePlusGaps(base, made, ops);
    assert Elapsed(AfterOps(base, made, ops), made) == Total(IntervalsOf(made, ops), made) + Gaps(made, ops);
  }

  predicate ReadsForwards(ops: seq<Op>) { forall i | 0 <= i < |ops| && ops[i].Resume? :: ops[i].now <= ops[i].again }

  predicate ReadsBackwards(ops: seq<Op>) { forall i | 0 <= i < |ops| && ops[i].Resume? :: ops[i].again <= ops[i].now }

  /** All resumes make their two readings in the same order, whichever it is, on a clock that does not run backwards. */
  predicate ReadsOneWay(ops: seq<Op>) { ReadsForwards(ops) || ReadsBackwards(ops) }

  /** No resume since the last start meets a running timer with time between its readings. */
  predicate ResumesCleanly(made: int, ops: seq<Op>) {
    if ops == [] then true
    else
      var before := ops[..|ops| - 1];
      match ops[|ops| - 1]
      case Start(_) => true
      case Stop(_) => ResumesCleanly(made, before)
      case Resume(now, again) => ResumesCleanly(made, before) && (IntervalsOf(made, before).open.None? || again == now)
  }

  /** Then no gap makes up for another. */
  lemma {:induction false} GapsDoNotCancel(made: int, ops: seq<Op>)
    ensures ResumesCleanly(made, ops) ==> Gaps(made, ops) == 0
    ensures ReadsForwards(ops) ==> Gaps(made, ops) >= 0
    ensures ReadsBackwards(ops) ==> Gaps(made, ops) <= 0
    ensures ReadsOneWay(ops) && Gaps(made, ops) == 0 ==> ResumesCleanly(made, ops)
  {
    if ops == [] {
    } else {
      var before := ops[..|ops| - 1];
      assert ReadsForwards(ops) ==> ReadsForwards(before);
      assert ReadsBackwards(ops) ==> ReadsBackwards(before);
      GapsDoNotCancel(made, before);
    }
  }

  /**
   * Elapsed time is conserved exactly when no running timer is resumed, since the last start, with time
   * passing between the two readings. Resumes of stopped timers never do harm.
   */
  lemma ElapsedIsRunningTime(base: int, made: int, ops: seq<Op>)
    ensures AfterOps(base, made, ops).stopped <==> IntervalsOf(made, ops).open.None?
    ensures ResumesCleanly(made, ops) ==>
              forall now :: Elapsed(AfterOps(base, made, ops), now) == Total(IntervalsOf(made, ops), now)
    ensures ReadsOneWay(ops) && !ResumesCleanly(made, ops) ==>
              forall now :: Elapsed(AfterOps(base, made, ops), now) != Total(IntervalsOf(made, ops), now)
  {
    ElapsedIsRunningTimePlusGaps(base, made, ops);
    GapsDoNotCancel(made, ops);
  }

  /** For a stopped timer start offset plus elapsed time is the stop offset, and stopping again changes nothing. */
  lemma OffsetsAddUp(base: int, made: int, ops: seq<Op>, now: int)
    requires AfterOps(base, made, ops).stopped
    ensures var t := AfterOps(base, made, ops);
            && (t.startPoint - t.basePoint) + Elapsed(t, now) == t.stopPoint - t.basePoint
            && AfterOps(base, made, ops + [Stop(now)]) == t
  {
    assert (ops + [Stop(now)])[..|ops|] == ops;
  }

  // ---- named timers ------------------------------------------------------------------

  datatype Measurement = Measurement(enabled: bool, timers: map<string, Timing>, basePoint: int)

  datatype Mark = Tick(name: string, now: int) | Tock(name: string, now: int)

  /** A tick of a known name and a tock of an unknown one throw, and change nothing. */
  predicate Succeeds(m: Measurement, mark: Mark) {
    m.enabled ==> (if mark.Tick? then mark.name !in m.timers else mark.name in m.timers)
  }

  function Marked(m: Measurement, mark: Mark): Measurement {
    if !m.enabled || !Succeeds(m, mark) then m
    else
      match mark
      case Tick(name, now) => m.(timers := m.timers[name := Timing(now, 0, false, m.basePoint)])
      case Tock(name, now) => m.(timers := m.timers[name := Stopped(m.timers[name], now)])
  }

  class TimeMeasurement {
    var enabled: bool
    var timers: map<string, Timing>
    var basePoint: int

    constructor (enabled: bool, basePoint: int)
      ensures State() == Measurement(enabled, map[], basePoint)
    {
      this.enabled, this.basePoint, timers := enabled, basePoint, map[];
    }

    function State(): Measurement
      reads this
    {
      Measurement(enabled, timers, basePoint)
    }

    method DoTick(name: string, now: int) returns (ok: bool)
      modifies this`timers
      ensures ok <==> !enabled || name !in old(timers)
      ensures !enabled || !ok ==> timers == old(timers)
      // A running timer under a new name, next to the timers that were there.
      ensures enabled && ok ==> timers.Keys == old(timers).Keys + {name} && timers - {name} == old(timers)
      ensures enabled && ok ==> !timers[name].stopped && forall t :: Elapsed(timers[name], t) == t - now
      ensures ok <==> Succeeds(old(State()), Tick(name, now))
      ensures State() == Marked(old(State()), Tick(name, now))
    {
      if !enabled {
        return true;
      }
      if name in timers {
        return false;
      }
      timers := timers[name := Timing(now, 0, false, basePoint)];
      return true;
    }

    method DoTock(name: string, now: int) returns (ok: bool)
      modifies this`timers
      ensures ok <==> !enabled || name in old(timers)
      ensures !enabled || !ok ==> timers == old(timers)
      // No other timer changes; this one shows the time from its tick to its first tock.
      ensures enabled && ok ==> timers.Keys == old(timers).Keys && timers - {name} == old(timers) - {name}
      ensures enabled && ok ==>
                timers[name].stopped && forall t :: Elapsed(timers[name], t) == Elapsed(old(timers)[name], now)
      ensures ok <==> Succeeds(old(State()), Tock(name, now))
      ensures State() == Marked(old(State()), Tock(name, now))
    {
      if !enabled {
        return true;
      }
      if name !in timers {
        return false;
      }
      timers := timers[name := Stopped(timers[name], now)];
      return true;
    }
  }

  function AfterMarks(enabled: bool, base: int, marks: seq<Mark>): Measurement {
    if marks == [] then Measurement(enabled, map[], base)
    else Marked(AfterMarks(enabled, base, marks[..|marks| - 1]), marks[|marks| - 1])
  }

  /** When the name was first ticked. */
  function FirstTick(marks: seq<Mark>, name: string): Option<int> {
    if marks == [] then None
    else
      var before, last := FirstTick(marks[..|marks| - 1], name), marks[|marks| - 1];
      if before.None? && last.Tick? && last.name == name then Some(last.now) else before
  }

  /** When it was first tocked after that. */
  function FirstTock(marks: seq<Mark>, name: string): Option<int> {
    if marks == [] then None
    else
      var rest, last := marks[..|marks| - 1], marks[|marks| - 1];
      var before := FirstTock(rest, name);
      if before.None? && last.Tock? && last.name == name && FirstTick(rest, name).Some? then Some(last.now) else before
  }

  /** What the book keeps under a name: the first tick, and the first tock after it. */
  function Expected(marks: seq<Mark>, name: string, base: int): Option<Timing> {
    var tick, tock := FirstTick(marks, name), FirstTock(marks, name);
    if tick.None? then None
    else Some(Timing(tick.value, if tock.Some? then tock.value else 0, tock.Some?, base))
  }

  lemma {:induction false} TimersAreFirstMarks(base: int, marks: seq<Mark>, name: string)
    ensures var m := AfterMarks(true, base, marks);
            m.enabled && m.basePoint == base &&
            Expected(marks, name, base) == if name in m.timers then Some(m.timers[name]) else None
  {
    if marks == [] {
    } else {
      TimersAreFirstMarks(base, marks[..|marks| - 1], name);
      TockFollowsTick(marks[..|marks| - 1], name);
    }
  }

  /** A tick succeeds exactly when it is the first one of its name; a tock when a tick came before. */
  lemma MarksSucceedOnce(base: int, marks: seq<Mark>, name: string, now: int)
    ensures var m := AfterMarks(true, base, marks);
            && (Succeeds(m, Tick(name, now)) <==> FirstTick(marks, name).None?)
            && (Succeeds(m, Tock(name, now)) <==> FirstTick(marks, name).Some?)
  {
    TimersAreFirstMarks(base, marks, name);
  }

  /** The duration of a name is its first tock minus its first tick, whatever ticks and tocks follow. */
  lemma DurationIsFirstTockMinusTick(base: int, marks: seq<Mark>, name: string, now: int)
    requires FirstTock(marks, name).Some?
    ensures var m := AfterMarks(true, base, marks);
            && FirstTick(marks, name).Some? && name in m.timers && m.timers[name].stopped
            && Elapsed(m.timers[name], now) == FirstTock(marks, name).value - FirstTick(marks, name).value
  {
    TockFollowsTick(marks, name);
    TimersAreFirstMarks(base, marks, name);
  }

  lemma {:induction false} TockFollowsTick(marks: seq<Mark>, name: string)
    ensures FirstTock(marks, name).Some? ==> FirstTick(marks, name).Some?
  {
    if marks == [] {
    } else {
      TockFollowsTick(marks[..|marks| - 1], name);
    }
  }

  lemma {:induction false} DisabledStaysEmpty(base: int, marks: seq<Mark>)
    ensures AfterMarks(false, base, marks) == Measurement(false, map[], base)
  {
    if marks == [] {
    } else {
      DisabledStaysEmpty(base, marks[..|marks| - 1]);
    }
  }
}
