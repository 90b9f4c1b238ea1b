/**
  The coarse clock: one worker thread copies the clocks into two shared timestamps every
  few milliseconds until it is told to exit. Readers see the latest copy. The steps of
  the steady clock and its copy are shared with whoever reads it.
*/
module CoarseClock {
  import opened Options

  datatype Clock = Clock(
    steady: int,                     // the steady clock
    coarse: int,                     // the timestamp the worker publishes
    update: seq<int>)                // what it has read and not stored yet: at most one value

  datatype Tick =
    | TimePasses(elapsed: nat)
    | UpdaterReads
    | UpdaterStores

  /** Before the first update the published timestamp is zero. */
  function InitialClock(start: nat): Clock {
    Clock(start, 0, [])
  }

  predicate CanTick(c: Clock, tick: Tick) {
    match tick
    case TimePasses(_) => true
    case UpdaterReads => c.update == []
    case UpdaterStores => c.update != []
  }

  function Ticked(c: Clock, tick: Tick): Clock
    requires CanTick(c, tick)
  {
    match tick
    case TimePasses(elapsed) => c.(steady := c.steady + elapsed)
    case UpdaterReads => c.(update := [c.steady])
    case UpdaterStores => c.(coarse := c.update[0], update := [])
  }

  function AfterTicks(start: nat, ticks: seq<Tick>): Option<Clock> {
    if ticks == [] then Some(InitialClock(start))
    else
      match AfterTicks(start, ticks[..|ticks| - 1])
      case None => None
      case Some(c) => if CanTick(c, ticks[|ticks| - 1]) then Some(Ticked(c, ticks[|ticks| - 1])) else None
  }

  lemma ExtendTicks(start: nat, ticks: seq<Tick>, c: Clock, tick: Tick)
    requires AfterTicks(start, ticks) == Some(c) && CanTick(c, tick)
    ensures AfterTicks(start, ticks + [tick]) == Some(Ticked(c, tick))
  {
    assert (ticks + [tick])[..|ticks|] == ticks;
  }

  /** One writer, reading a clock that never goes back: the coarse clock trails it. */
  ghost predicate ClockInv(c: Clock) {
    && c.coarse <= c.steady && |c.update| <= 1
    && (c.update != [] ==> c.coarse <= c.update[0] <= c.steady)
  }

  /** In every reachable state of the clock; so neither the clock nor its copy ever goes back. */
  lemma {:induction false} ClockHolds(start: nat, ticks: seq<Tick>, c: Clock)
    requires AfterTicks(start, ticks) == Some(c)
    ensures ClockInv(c)
    ensures forall tick :: CanTick(c, tick) ==>
              c.steady <= Ticked(c, tick).steady && c.coarse <= Ticked(c, tick).coarse <= Ticked(c, tick).steady
  {
    if ticks != [] {
      ClockHolds(start, ticks[..|ticks| - 1], AfterTicks(start, ticks[..|ticks| - 1]).value);
    }
  }

  /** The time that has passed in these steps. */
  function Elapsed(ticks: seq<Tick>): nat {
    if ticks == [] then 0
    else
      var last := ticks[|ticks| - 1];
      Elapsed(ticks[..|ticks| - 1]) + if last.TimePasses? then last.elapsed else 0
  }

  /** The worker does not disturb the clock it reads. */
  lemma {:induction false} SteadyAddsUp(start: nat, ticks: seq<Tick>, c: Clock)
    requires AfterTicks(start, ticks) == Some(c)
    ensures c.steady == start + Elapsed(ticks)
  {
    if ticks != [] {
      SteadyAddsUp(start, ticks[..|ticks| - 1], AfterTicks(start, ticks[..|ticks| - 1]).value);
    }
  }

  /** The worker's own steps. */
  function UpdaterSteps(ticks: seq<Tick>): seq<Tick> {
    if ticks == [] then []
    else
      var last := ticks[|ticks| - 1];
      UpdaterSteps(ticks[..|ticks| - 1]) + if last.TimePasses? then [] else [last]
  }

  lemma UpdaterStepsSnoc(ticks: seq<Tick>, tick: Tick)
    ensures UpdaterSteps(ticks + [tick]) == UpdaterSteps(ticks) + if tick.TimePasses? then [] else [tick]
  {
    assert (ticks + [tick])[..|ticks|] == ticks;
  }

  predicate NonDecreasing(values: seq<int>) {
    forall i, j :: 0 <= i < j < |values| ==> values[i] <= values[j]
  }

  class CoarseClockInitializer {
    const start: nat
    var steadyNow: int               // the steady clock, which never goes back
    var systemNow: int               // the system clock, which may
    var steady: int                  // steady_clock_time_since_epoch
    var system: int                  // system_clock_time_since_epoch
    var exiting: bool                // exiting_
    ghost var update: seq<int>       // the reading the worker is about to publish
    ghost var ticks: seq<Tick>       // the steps taken since the start of the program
    ghost var published: seq<int>    // every value steady was given
    ghost var shown: seq<int>        // every value the system clock has shown

    ghost function Now(): Clock
      reads this
    {
      Clock(steadyNow, steady, update)
    }

    /** The steady clock and its copy are what a run of the clock's steps leads to. */
    ghost predicate Ticking()
      reads this
    {
      && AfterTicks(start, ticks) == Some(Now())
      && NonDecreasing(published) && (published != [] ==> steady == published[|published| - 1])
      && shown != [] && shown[|shown| - 1] == systemNow
    }

    /** As it is outside UpdateCoarseTimestamps. */
    ghost predicate Valid()
      reads this
    {
      Ticking() && update == [] && published != [] && system in shown
    }

    /** The timestamps are initialised at once, not after the first sleep. */
    constructor (steadyNow: nat, systemNow: int)
      ensures Valid() && start == steadyNow && UpdaterSteps(ticks) == [UpdaterReads, UpdaterStores]
      ensures steadyNow <= steady <= this.steadyNow && published == [steady] && !exiting
    {
      start := steadyNow;
      this.steadyNow, this.systemNow := steadyNow, systemNow;
      steady, system, exiting := 0, 0, false;
      update, ticks, published, shown := [], [], [], [systemNow];
      new;
      UpdateCoarseTimestamps();
    }

    /** Time passes while the worker sleeps, at least so much, or between two of its instructions. */
    method Elapse(atLeast: nat)
      requires Ticking()
      modifies this`steadyNow, this`systemNow, this`shown, this`ticks
      ensures Ticking() && old(steadyNow) + atLeast <= steadyNow
      ensures UpdaterSteps(ticks) == UpdaterSteps(old(ticks)) && shown == old(shown) + [systemNow]
    {
      var longer: nat, reading: int := *, *;
      var elapsed: nat := atLeast + longer;
      ExtendTicks(start, ticks, Now(), TimePasses(elapsed));
      UpdaterStepsSnoc(ticks, TimePasses(elapsed));
      hide AfterTicks, UpdaterSteps, NonDecreasing;
      steadyNow := steadyNow + elapsed;
      ticks := ticks + [TimePasses(elapsed)];
      systemNow := reading;
      shown := shown + [reading];
    }

    method ReadSteady() returns (now: int)
      requires Ticking() && update == []
      modifies this`update, this`ticks
      ensures Ticking() && now == steadyNow && update == [now]
      ensures UpdaterSteps(ticks) == UpdaterSteps(old(ticks)) + [UpdaterReads]
    {
      ExtendTicks(start, ticks, Now(), UpdaterReads);
      UpdaterStepsSnoc(ticks, UpdaterReads);
      now := steadyNow;
      update, ticks := [now], ticks + [UpdaterReads];
    }

    method StoreSteady(now: int)
      requires Ticking() && update == [now] && (published != [] ==> steady <= now)
      modifies this`steady, this`update, this`ticks, this`published
      ensures Ticking() && steady == now && update == [] && published == old(published) + [now]
      ensures UpdaterSteps(ticks) == UpdaterSteps(old(ticks)) + [UpdaterStores]
    {
      ExtendTicks(start, ticks, Now(), UpdaterStores);
      UpdaterStepsSnoc(ticks, UpdaterStores);
      steady := now;
      update, ticks, published := [], ticks + [UpdaterStores], published + [now];
    }

    method UpdateSteady()
      requires Ticking() && update == []
      modifies this`steadyNow, this`systemNow, this`shown, this`ticks, this`steady, this`update, this`published
      ensures Ticking() && update == [] && old(steadyNow) <= steady <= steadyNow
      ensures UpdaterSteps(ticks) == UpdaterSteps(old(ticks)) + [UpdaterReads, UpdaterStores]
      ensures published == old(published) + [steady] && old(shown) <= shown
    {
      hide AfterTicks, UpdaterSteps, NonDecreasing;
      Elapse(0);
      var now := ReadSteady();
      Elapse(0);
      ClockHolds(start, ticks, Now());
      StoreSteady(now);
    }

    /** UpdateCoarseTimestamps: each clock is read and then stored, the steady one first. */
    method UpdateCoarseTimestamps()
      requires Ticking() && update == []
      modifies this
      ensures Valid() && old(steadyNow) <= steady <= steadyNow
      ensures UpdaterSteps(ticks) == UpdaterSteps(old(ticks)) + [UpdaterReads, UpdaterStores]
      ensures published == old(published) + [steady]
      ensures old(shown) <= shown && system in shown[|old(shown)|..]
      ensures exiting == old(exiting)
    {
      hide NonDecreasing, AfterTicks, UpdaterSteps;
      UpdateSteady();
      Elapse(0);
      var systemTime := systemNow;
      ghost var at := |shown| - 1;
      Elapse(0);
      system := systemTime;
      assert shown[at] == system;
    }

    /** The destructor's part: from now on the worker is to stop. */
    method RequestExit()
      modifies this`exiting
      ensures exiting
    {
      exiting := true;
    }

    /**
      The worker, observed for at most the given number of rounds, while the destructor sets
      the exit flag after that many updates, if it was not set before. It tests the flag
      before each sleep of 4 ms, so it makes no further update, and stops.
    */
    method Work(rounds: nat, exitAfter: nat) returns (updates: nat, sawExit: bool)
      requires Valid()
      modifies this
      ensures Valid() && old(steadyNow) + updates * 4_000_000 <= steadyNow
      ensures
        var allowed := if old(exiting) then 0 else exitAfter;
        updates == (if allowed < rounds then allowed else rounds) && (sawExit <==> allowed < rounds)
      ensures exiting <==> old(exiting) || sawExit
      ensures old(published) <= published && |published| == |old(published)| + updates
      ensures |UpdaterSteps(ticks)| == |UpdaterSteps(old(ticks))| + 2 * updates
    {
      updates, sawExit := 0, false;
      while updates < rounds
        invariant Valid() && old(steadyNow) + updates * 4_000_000 <= steadyNow && updates <= rounds && !sawExit
        invariant exiting == old(exiting) && (exiting ==> updates == 0) && (!exiting ==> updates <= exitAfter)
        invariant old(published) <= published && |published| == |old(published)| + updates
        invariant |UpdaterSteps(ticks)| == |UpdaterSteps(old(ticks))| + 2 * updates
        decreases rounds - updates
      {
        if updates == exitAfter {
          RequestExit();
        }
        sawExit := exiting;
        if sawExit {
          return;
        }
        Elapse(4_000_000);
        UpdateCoarseTimestamps();
        updates := updates + 1;
      }
    }
  }
}
