/**
  LOG_EVERY_N_SECOND at one call site, evaluated by any number of threads, together
  with the coarse clock it reads: a check without the lock, a try-lock, a second check
  and store under the lock, and only then the log line. Times are nanoseconds.
*/
module EveryNSecond {
  import opened Options
  import opened CoarseClock

  type Thread = int

  const SECOND := 1_000_000_000

  /**
    Where a thread is in the macro. now is the clock value it read at the start, however
    old that is by now; seen is how many stamps had been stored at its first check.
  */
  datatype Pc =
    | Outside
    | HasTime(now: int)
    | Passed(now: int, seen: nat)
    | Holding(now: int, seen: nat)
    | Deciding(now: int, write: bool)
    | Releasing(write: bool)
    | Logging

  datatype Site = Site(
    last: int,                       // agrpc_anonymous_log_last_occurs
    lock: bool,                      // agrpc_anonymous_logging
    threads: map<Thread, Pc>,
    stamps: seq<int>,                // every value stored into last
    toWrite: set<Thread>,            // threads that stored one and have not logged yet
    lines: nat)                      // log lines written

  datatype State = State(clock: Clock, site: Site)

  datatype Action =
    | ClockTicks(tick: Tick)
    | ReadClock(thread: Thread)
    | FirstCheck(thread: Thread)
    | TryLock(thread: Thread)
    | SecondCheck(thread: Thread)
    | Store(thread: Thread)
    | Release(thread: Thread)
    | Write(thread: Thread)

  predicate ByUpdater(a: Action) {
    a.ClockTicks? && !a.tick.TimePasses?
  }

  function Initial(start: nat): State {
    State(InitialClock(start), Site(0, false, map[], [], {}, 0))
  }

  function PcOf(w: Site, t: Thread): Pc {
    if t in w.threads then w.threads[t] else Outside
  }

  predicate Enabled(s: State, a: Action) {
    match a
    case ClockTicks(tick) => CanTick(s.clock, tick)
    case ReadClock(t) => PcOf(s.site, t).Outside?
    case FirstCheck(t) => PcOf(s.site, t).HasTime?
    case TryLock(t) => PcOf(s.site, t).Passed?
    case SecondCheck(t) => PcOf(s.site, t).Holding?
    case Store(t) => PcOf(s.site, t).Deciding?
    case Release(t) => PcOf(s.site, t).Releasing?
    case Write(t) => PcOf(s.site, t).Logging?
  }

  /** More than n seconds after the last stamp, at clock value now. */
  predicate Due(n: int, last: int, now: int) {
    last + n * SECOND < now
  }

  function Goes(w: Site, t: Thread, pc: Pc): Site {
    w.(threads := w.threads[t := pc])
  }

  /** The steps of the macro after the clock has been read. */
  function SiteStep(n: int, w: Site, a: Action): Site
    requires a.FirstCheck? || a.TryLock? || a.SecondCheck? || a.Store? || a.Release? || a.Write?
    requires a.FirstCheck? ==> PcOf(w, a.thread).HasTime?
    requires a.TryLock? ==> PcOf(w, a.thread).Passed?
    requires a.SecondCheck? ==> PcOf(w, a.thread).Holding?
    requires a.Store? ==> PcOf(w, a.thread).Deciding?
    requires a.Release? ==> PcOf(w, a.thread).Releasing?
  {
    var pc := PcOf(w, a.thread);
    match a
    case FirstCheck(t) => Goes(w, t, if Due(n, w.last, pc.now) then Passed(pc.now, |w.stamps|) else Outside)
    case TryLock(t) => if w.lock then Goes(w, t, Outside) else Goes(w, t, Holding(pc.now, pc.seen)).(lock := true)
    case SecondCheck(t) => Goes(w, t, Deciding(pc.now, Due(n, w.last, pc.now)))
    case Store(t) =>
      if pc.write then
        Goes(w, t, Releasing(true)).(last := pc.now, stamps := w.stamps + [pc.now], toWrite := w.toWrite + {t})
      else Goes(w, t, Releasing(false))
    case Release(t) => Goes(w, t, if pc.write then Logging else Outside).(lock := false)
    case Write(t) => Goes(w, t, Outside).(lines := w.lines + 1, toWrite := w.toWrite - {t})
  }

  function Apply(n: int, s: State, a: Action): State
    requires Enabled(s, a)
  {
    match a
    case ClockTicks(tick) => s.(clock := Ticked(s.clock, tick))
    case ReadClock(t) => s.(site := Goes(s.site, t, HasTime(s.clock.coarse)))
    case _ => s.(site := SiteStep(n, s.site, a))
  }

  /** The state after a run, or None if some action of it was not enabled. */
  function After(n: int, start: nat, run: seq<Action>): Option<State> {
    if run == [] then Some(Initial(start))
    else
      match After(n, start, run[..|run| - 1])
      case None => None
      case Some(m) =>
        if Enabled(m, run[|run| - 1]) then Some(Apply(n, m, run[|run| - 1])) else None
  }

  predicate Reaches(n: int, start: nat, run: seq<Action>, s: State) {
    After(n, start, run) == Some(s)
  }

  lemma Extend(n: int, start: nat, run: seq<Action>, s: State, a: Action)
    requires Reaches(n, start, run, s) && Enabled(s, a)
    ensures Reaches(n, start, run + [a], Apply(n, s, a))
  {
    assert (run + [a])[..|run|] == run;
  }

  // ---- the invariant ----

  predicate InLock(pc: Pc) {
    pc.Holding? || pc.Deciding? || pc.Releasing?
  }

  /** The lock flag is set exactly while one thread is between the exchange and the release. */
  ghost predicate LockInv(w: Site) {
    && (w.lock <==> exists t :: InLock(PcOf(w, t)))
    && (forall t, u :: InLock(PcOf(w, t)) && InLock(PcOf(w, u)) ==> t == u)
  }

  function Last(stamps: seq<int>): int {
    if stamps == [] then 0 else stamps[|stamps| - 1]
  }

  predicate Spaced(n: int, stamps: seq<int>) {
    forall i :: 0 <= i < |stamps| ==> Due(n, Last(stamps[..i]), stamps[i])
  }

  ghost predicate ThreadInv(n: int, w: Site, coarse: int, t: Thread) {
    match PcOf(w, t)
    case HasTime(now) => now <= coarse
    case Passed(now, seen) => now <= coarse && seen <= |w.stamps| && (seen == |w.stamps| ==> Due(n, w.last, now))
    case Holding(now, seen) => now <= coarse && seen <= |w.stamps| && (seen == |w.stamps| ==> Due(n, w.last, now))
    case Deciding(now, write) => now <= coarse && (write ==> Due(n, w.last, now))
    case _ => true
  }

  ghost predicate StampInv(n: int, w: Site, coarse: int) {
    && w.last == Last(w.stamps) && Spaced(n, w.stamps)
    && (forall i :: 0 <= i < |w.stamps| ==> w.stamps[i] <= coarse)
    && (forall t :: ThreadInv(n, w, coarse, t))
  }

  predicate OwesLine(pc: Pc) {
    pc == Releasing(true) || pc.Logging?
  }

  /** Every stamp stands for one line, written or about to be. */
  ghost predicate LineInv(w: Site) {
    && w.lines + |w.toWrite| == |w.stamps|
    && (forall t :: t in w.toWrite <==> OwesLine(PcOf(w, t)))
  }

  ghost predicate Inv(n: int, s: State) {
    LockInv(s.site) && StampInv(n, s.site, s.clock.coarse) && LineInv(s.site) && ClockInv(s.clock)
  }

  lemma LockKeeps(n: int, s: State, a: Action)
    requires LockInv(s.site) && Enabled(s, a)
    ensures LockInv(Apply(n, s, a).site)
  {
    var w, w' := s.site, Apply(n, s, a).site;
    if a.ClockTicks? {
      assert w' == w;
    } else {
      forall u | u != a.thread ensures PcOf(w', u) == PcOf(w, u) {}
      if InLock(PcOf(w', a.thread)) {
        assert w'.lock;
      }
      if w'.lock && !InLock(PcOf(w', a.thread)) {
        var u :| InLock(PcOf(w, u));
        assert u != a.thread;
        assert InLock(PcOf(w', u));
      }
    }
  }

  /** Only the thread in the lock stores, so what it decided stays true until it has stored. */
  lemma ThreadKeeps(n: int, s: State, a: Action, t: Thread)
    requires Inv(n, s) && Enabled(s, a)
    ensures ThreadInv(n, Apply(n, s, a).site, Apply(n, s, a).clock.coarse, t)
  {
    assert ThreadInv(n, s.site, s.clock.coarse, t);
    if a.Store? && a.thread != t {
      assert InLock(PcOf(s.site, a.thread));
      assert !InLock(PcOf(s.site, t));
    }
  }

  lemma SpacedSnoc(n: int, stamps: seq<int>, now: int)
    requires Spaced(n, stamps) && Due(n, Last(stamps), now)
    ensures Spaced(n, stamps + [now])
  {
    var stamps' := stamps + [now];
    forall i | 0 <= i < |stamps'| ensures Due(n, Last(stamps'[..i]), stamps'[i]) {
      assert i <= |stamps| ==> stamps'[..i] == stamps[..i];
      assert stamps[..|stamps|] == stamps;
    }
  }

  predicate Stamps(w: Site, a: Action) {
    a.Store? && PcOf(w, a.thread).Deciding? && PcOf(w, a.thread).write
  }

  /** What a step does to the stamps: they stay, or a thread that found itself due adds its time. */
  lemma StampEffect(n: int, s: State, a: Action)
    requires Enabled(s, a)
    ensures
      var w, w' := s.site, Apply(n, s, a).site;
      if Stamps(w, a) then w'.last == PcOf(w, a.thread).now && w'.stamps == w.stamps + [PcOf(w, a.thread).now]
      else w'.last == w.last && w'.stamps == w.stamps
  {
  }

  lemma CoarseGrows(n: int, s: State, a: Action)
    requires ClockInv(s.clock) && Enabled(s, a)
    ensures s.clock.coarse <= Apply(n, s, a).clock.coarse
  {
  }

  lemma StampsKeep(n: int, s: State, a: Action)
    requires Inv(n, s) && Enabled(s, a)
    ensures StampInv(n, Apply(n, s, a).site, Apply(n, s, a).clock.coarse)
  {
    var w, s' := s.site, Apply(n, s, a);
    forall t ensures ThreadInv(n, s'.site, s'.clock.coarse, t) {
      ThreadKeeps(n, s, a, t);
    }
    StampEffect(n, s, a);
    CoarseGrows(n, s, a);
    if Stamps(w, a) {
      assert ThreadInv(n, w, s.clock.coarse, a.thread);
      SpacedSnoc(n, w.stamps, PcOf(w, a.thread).now);
    }
    hide ThreadInv, Apply, Spaced, PcOf, Enabled, LineInv, LockInv, ClockInv;
  }

  /** What a thread's step does to the books of lines: a stamp adds one to write, a line takes it off. */
  lemma LineEffect(n: int, s: State, a: Action)
    requires Enabled(s, a) && !a.ClockTicks?
    ensures
      var w, w' := s.site, Apply(n, s, a).site;
      && w'.toWrite == (if Stamps(w, a) then w.toWrite + {a.thread}
                        else if a.Write? then w.toWrite - {a.thread} else w.toWrite)
      && w'.lines == w.lines + (if a.Write? then 1 else 0)
      && |w'.stamps| == |w.stamps| + (if Stamps(w, a) then 1 else 0)
      && (Stamps(w, a) ==> OwesLine(PcOf(w', a.thread)) && !OwesLine(PcOf(w, a.thread)))
      && (a.Write? ==> !OwesLine(PcOf(w', a.thread)) && OwesLine(PcOf(w, a.thread)))
      && (!Stamps(w, a) && !a.Write? ==> (OwesLine(PcOf(w', a.thread)) <==> OwesLine(PcOf(w, a.thread))))
  {
  }

  lemma OtherStays(n: int, s: State, a: Action, u: Thread)
    requires Enabled(s, a) && (a.ClockTicks? || a.thread != u)
    ensures PcOf(Apply(n, s, a).site, u) == PcOf(s.site, u)
  {
  }

  /** The books stay balanced if they change for one thread only, and for it as its step demands. */
  lemma Balanced(w: Site, w': Site, t: Thread)
    requires LineInv(w) && forall u :: u != t ==> PcOf(w', u) == PcOf(w, u)
    requires w'.toWrite == if OwesLine(PcOf(w', t)) then w.toWrite + {t} else w.toWrite - {t}
    requires w'.lines + |w'.toWrite| == |w'.stamps|
    ensures LineInv(w')
  {
    hide PcOf, OwesLine;
    assert t in w'.toWrite <==> OwesLine(PcOf(w', t));
    forall u | u != t ensures u in w'.toWrite <==> OwesLine(PcOf(w', u)) {
      assert u in w.toWrite <==> OwesLine(PcOf(w, u));
    }
  }

  lemma LinesKeep(n: int, s: State, a: Action)
    requires LineInv(s.site) && Enabled(s, a)
    ensures LineInv(Apply(n, s, a).site)
  {
    var w, w' := s.site, Apply(n, s, a).site;
    if a.ClockTicks? {
      assert w' == w;
    } else {
      LineEffect(n, s, a);
      forall u | u != a.thread ensures PcOf(w', u) == PcOf(w, u) {
        OtherStays(n, s, a, u);
      }
      assert a.thread in w.toWrite <==> OwesLine(PcOf(w, a.thread));
      hide Apply, PcOf, OwesLine, Enabled, LineInv, Stamps;
      assert w'.toWrite == if OwesLine(PcOf(w', a.thread)) then w.toWrite + {a.thread} else w.toWrite - {a.thread};
      Balanced(w, w', a.thread);
    }
  }

  /** The clock's own steps in a run. */
  function TicksOf(run: seq<Action>): seq<Tick> {
    if run == [] then []
    else
      var last := run[|run| - 1];
      TicksOf(run[..|run| - 1]) + if last.ClockTicks? then [last.tick] else []
  }

  /** Whatever the threads do, the clock they read is the one its worker's steps make. */
  lemma {:induction false} ClockOfRun(n: int, start: nat, run: seq<Action>, s: State)
    requires Reaches(n, start, run, s)
    ensures AfterTicks(start, TicksOf(run)) == Some(s.clock)
  {
    if run != [] {
      var init, a := run[..|run| - 1], run[|run| - 1];
      var m := After(n, start, init).value;
      ClockOfRun(n, start, init, m);
      if a.ClockTicks? {
        ExtendTicks(start, TicksOf(init), m.clock, a.tick);
      } else {
        assert TicksOf(run) == TicksOf(init);
      }
    }
  }

  lemma {:induction false} InvHolds(n: int, start: nat, run: seq<Action>, s: State)
    requires Reaches(n, start, run, s)
    ensures Inv(n, s)
  {
    if run != [] {
      var init, a := run[..|run| - 1], run[|run| - 1];
      var m := After(n, start, init).value;
      InvHolds(n, start, init, m);
      LockKeeps(n, m, a);
      StampsKeep(n, m, a);
      LinesKeep(n, m, a);
      ClockOfRun(n, start, run, s);
      ClockHolds(start, TicksOf(run), s.clock);
    }
  }

  // ---- what every run guarantees ----

  /** The lock is never leaked: it is set exactly while one thread is inside, and by no more than one. */
  lemma TryLockSound(n: int, start: nat, run: seq<Action>, s: State, t: Thread, u: Thread)
    requires Reaches(n, start, run, s)
    ensures s.site.lock <==> exists v :: InLock(PcOf(s.site, v))
    ensures InLock(PcOf(s.site, t)) && InLock(PcOf(s.site, u)) ==> t == u
  {
    InvHolds(n, start, run, s);
  }

  /**
    A thread that passed the first check and then does not write was overtaken between
    its two checks by a thread that stored a stamp no more than n seconds before now.
  */
  lemma SkippedMeansOvertaken(n: int, start: nat, run: seq<Action>, s: State, t: Thread)
    requires Reaches(n, start, run, s) && PcOf(s.site, t).Holding?
    requires !Due(n, s.site.last, PcOf(s.site, t).now)
    ensures PcOf(s.site, t).seen < |s.site.stamps|
    ensures s.site.stamps[|s.site.stamps| - 1] >= PcOf(s.site, t).now - n * SECOND
  {
    InvHolds(n, start, run, s);
    assert ThreadInv(n, s.site, s.clock.coarse, t);
  }

  lemma {:induction false} SpacedFrom(n: int, stamps: seq<int>, i: nat, j: nat)
    requires Spaced(n, stamps) && i <= j < |stamps|
    ensures stamps[j] >= stamps[i] + (j - i) * (n * SECOND + 1)
  {
    if i < j {
      SpacedFrom(n, stamps, i, j - 1);
      assert Due(n, Last(stamps[..j]), stamps[j]);
      assert stamps[..j][j - 1] == stamps[j - 1];
      assert (j - i) * (n * SECOND + 1) == (j - 1 - i) * (n * SECOND + 1) + (n * SECOND + 1);
    }
  }

  /**
    The rate limit, whatever the interleaving and however old the clock values the threads
    carry: later stamps are more than n seconds apart each, and so is the first from zero.
  */
  lemma {:induction false} StampsAreApart(n: int, start: nat, run: seq<Action>, s: State, i: nat, j: nat)
    requires Reaches(n, start, run, s) && i <= j < |s.site.stamps|
    ensures s.site.stamps[j] >= s.site.stamps[i] + (j - i) * (n * SECOND + 1)
    ensures s.site.stamps[j] >= (j + 1) * (n * SECOND + 1)
  {
    InvHolds(n, start, run, s);
    SpacedFrom(n, s.site.stamps, i, j);
    SpacedFrom(n, s.site.stamps, 0, j);
    assert Due(n, Last(s.site.stamps[..0]), s.site.stamps[0]);
    assert (j + 1) * (n * SECOND + 1) == j * (n * SECOND + 1) + (n * SECOND + 1);
  }

  lemma LessThanOne(a: int, d: int)
    requires d > 0 && a * d < d
    ensures a <= 0
  {
  }

  lemma {:induction false} Quotient(k: nat, d: int, x: int)
    requires d > 0 && k * d <= x
    ensures k <= x / d
  {
    assert x == x / d * d + x % d;
    assert (k - x / d) * d == k * d - x / d * d;
    LessThanOne(k - x / d, d);
  }

  /** At most one line more than whole periods fit into any stretch of clock time. */
  lemma LinesInWindow(n: int, start: nat, run: seq<Action>, s: State, i: nat, j: nat, from: int, to: int)
    requires Reaches(n, start, run, s) && i <= j < |s.site.stamps| && n >= 1
    requires from <= s.site.stamps[i] && s.site.stamps[j] <= to
    ensures j - i + 1 <= 1 + (to - from) / (n * SECOND)
  {
    StampsAreApart(n, start, run, s, i, j);
    assert (j - i) * (n * SECOND + 1) == (j - i) * (n * SECOND) + (j - i);
    Quotient(j - i, n * SECOND, to - from);
  }

  /** Measured by the steady clock itself, which the coarse clock never overtakes. */
  lemma LinesInRealTime(n: int, start: nat, run: seq<Action>, s: State)
    requires Reaches(n, start, run, s) && s.site.stamps != [] && n >= 1
    ensures s.clock.coarse <= s.clock.steady
    ensures s.site.lines <= |s.site.stamps| <= 1 + (s.clock.steady - s.site.stamps[0]) / (n * SECOND)
  {
    InvHolds(n, start, run, s);
    LinesInWindow(n, start, run, s, 0, |s.site.stamps| - 1, s.site.stamps[0], s.clock.steady);
  }

  /** The coarse clock never goes back. */
  lemma CoarseClockMonotone(n: int, start: nat, run: seq<Action>, s: State, a: Action)
    requires Reaches(n, start, run, s) && Enabled(s, a)
    ensures s.clock.coarse <= Apply(n, s, a).clock.coarse <= Apply(n, s, a).clock.steady
  {
    ClockOfRun(n, start, run, s);
    ClockHolds(start, TicksOf(run), s.clock);
  }

  /** What the updater stores is what the steady clock showed when it read it. */
  lemma {:induction false} UpdatePublishesReading(
      n: int, start: nat, run: seq<Action>, s: State, between: seq<Action>, m: State)
    requires Reaches(n, start, run, s) && Enabled(s, ClockTicks(UpdaterReads))
    requires Reaches(n, start, run + [ClockTicks(UpdaterReads)] + between, m)
    requires forall a :: a in between ==> !ByUpdater(a)
    ensures m.clock.update == [s.clock.steady]
    ensures Enabled(m, ClockTicks(UpdaterStores)) && Apply(n, m, ClockTicks(UpdaterStores)).clock.coarse == s.clock.steady
  {
    var whole := run + [ClockTicks(UpdaterReads)] + between;
    if between == [] {
      assert whole == run + [ClockTicks(UpdaterReads)];
      Extend(n, start, run, s, ClockTicks(UpdaterReads));
    } else {
      var init, a := between[..|between| - 1], between[|between| - 1];
      assert whole[..|whole| - 1] == run + [ClockTicks(UpdaterReads)] + init && whole[|whole| - 1] == a;
      assert a in between && !ByUpdater(a);
      UpdatePublishesReading(n, start, run, s, init, After(n, start, run + [ClockTicks(UpdaterReads)] + init).value);
    }
  }

  /** One thread evaluating the macro with nobody in between. */
  function Alone(n: int, s: State, t: Thread): State
    requires PcOf(s.site, t).Outside?
  {
    var checked := Apply(n, Apply(n, s, ReadClock(t)), FirstCheck(t));
    if PcOf(checked.site, t).Outside? then checked
    else
      var locked := Apply(n, checked, TryLock(t));
      if PcOf(locked.site, t).Outside? then locked
      else
        var released := Apply(n, Apply(n, Apply(n, locked, SecondCheck(t)), Store(t)), Release(t));
        if PcOf(released.site, t).Outside? then released else Apply(n, released, Write(t))
  }

  /** Undisturbed and with the lock free, the macro logs exactly when a line is due. */
  lemma AloneLogsIffDue(n: int, s: State, t: Thread)
    requires PcOf(s.site, t).Outside? && !s.site.lock
    ensures
      var w, w' := s.site, Alone(n, s, t).site;
      if w.last + n * 1_000_000_000 < s.clock.coarse
      then w'.lines == w.lines + 1 && w'.last == s.clock.coarse && w'.stamps == w.stamps + [s.clock.coarse] && !w'.lock
      else w'.lines == w.lines && w'.last == w.last && w'.stamps == w.stamps && !w'.lock
    ensures PcOf(Alone(n, s, t).site, t).Outside?
  {
  }

  // ---- the macro itself, statement by statement ----

  /** now: the clock value the evaluation read. */
  datatype Outcome = TooEarly(now: int) | LockHeld(now: int) | Overtaken(now: int) | Written(now: int)

  predicate IsBy(a: Action, t: Thread) {
    !a.ClockTicks? && a.thread == t
  }

  lemma StampsGrow(n: int, s: State, a: Action)
    requires Enabled(s, a)
    ensures s.site.stamps <= Apply(n, s, a).site.stamps
  {
  }

  /** The steps of one thread in a run. */
  function StepsOf(run: seq<Action>, t: Thread): seq<Action> {
    if run == [] then []
    else StepsOf(run[..|run| - 1], t) + (if IsBy(run[|run| - 1], t) then [run[|run| - 1]] else [])
  }

  lemma StepsOfSnoc(run: seq<Action>, a: Action, t: Thread)
    ensures StepsOf(run + [a], t) == StepsOf(run, t) + (if IsBy(a, t) then [a] else [])
  {
    assert (run + [a])[..|run|] == run;
  }

  /** The steps a thread takes inside the lock, and in the whole macro, to each outcome. */
  function LockedSteps(t: Thread, outcome: Outcome): seq<Action> {
    [SecondCheck(t), Store(t), Release(t)] + if outcome.Written? then [Write(t)] else []
  }

  function MacroSteps(t: Thread, outcome: Outcome): seq<Action> {
    match outcome
    case TooEarly(_) => [ReadClock(t), FirstCheck(t)]
    case LockHeld(_) => [ReadClock(t), FirstCheck(t), TryLock(t)]
    case _ => [ReadClock(t), FirstCheck(t), TryLock(t)] + LockedSteps(t, outcome)
  }

  class CallSite {
    const n: int
    const start: nat
    var clock: Clock
    var last: int
    var logging: bool
    var threads: map<Thread, Pc>
    var stamps: seq<int>
    var toWrite: set<Thread>
    var lines: nat
    ghost var run: seq<Action>

    function Now(): State
      reads this
    {
      State(clock, Site(last, logging, threads, stamps, toWrite, lines))
    }

    ghost predicate Valid()
      reads this
    {
      Reaches(n, start, run, Now())
    }

    constructor (n: int, start: nat)
      ensures Valid() && this.n == n && this.start == start && Now() == Initial(start)
    {
      this.n, this.start := n, start;
      clock := InitialClock(start);
      last, logging, threads := 0, false, map[];
      stamps, toWrite, lines := [], {}, 0;
      run := [];
    }

    method Take(a: Action)
      requires Valid() && Enabled(Now(), a)
      modifies this
      ensures Valid() && run == old(run) + [a] && Now() == Apply(n, old(Now()), a)
      ensures old(stamps) <= stamps
    {
      Extend(n, start, run, Now(), a);
      StampsGrow(n, Now(), a);
      run := run + [a];
      var s := Apply(n, Now(), a);
      hide Apply, Enabled, Reaches;
      clock, last, logging := s.clock, s.site.last, s.site.lock;
      threads, stamps, toWrite, lines := s.site.threads, s.site.stamps, s.site.toWrite, s.site.lines;
    }

    /** Any number of steps of the clock, its updater and the threads other than t. */
    method Others(t: Thread)
      requires Valid()
      modifies this
      ensures Valid() && old(run) <= run && old(stamps) <= stamps
      ensures PcOf(Now().site, t) == old(PcOf(Now().site, t)) && StepsOf(run, t) == StepsOf(old(run), t)
    {
      var script: seq<Action> := *;
      hide Valid, StepsOf, Reaches, PcOf, Apply;
      for i := 0 to |script|
        invariant Valid() && old(run) <= run && old(stamps) <= stamps
        invariant PcOf(Now().site, t) == old(PcOf(Now().site, t)) && StepsOf(run, t) == StepsOf(old(run), t)
      {
        var a := script[i];
        if Enabled(Now(), a) && !IsBy(a, t) {
          StepsOfSnoc(run, a, t);
          OtherStays(n, Now(), a, t);
          Take(a);
        }
      }
    }

    /** The exchange: true if the lock was free and is now this thread's. */
    method Exchange(t: Thread, now: int, seen: nat) returns (got: bool)
      requires Valid() && PcOf(Now().site, t) == Passed(now, seen)
      modifies this
      ensures StepsOf(run, t) == StepsOf(old(run), t) + [Action.TryLock(t)]
      ensures Valid() && old(run) <= run && stamps == old(stamps) && got == !old(logging)
      ensures PcOf(Now().site, t) == if got then Holding(now, seen) else Outside
    {
      Extend(n, start, run, Now(), Action.TryLock(t));
      StepsOfSnoc(run, Action.TryLock(t), t);
      hide Reaches, StepsOf;
      got := !logging;
      logging := true;
      threads := threads[t := if got then Holding(now, seen) else Outside];
      run := run + [Action.TryLock(t)];
    }

    /** The second check. If it fails, the latest stamp is why. */
    method CheckAgain(t: Thread, now: int, seen: nat) returns (reallyWrite: bool)
      requires Valid() && PcOf(Now().site, t) == Holding(now, seen)
      modifies this
      ensures StepsOf(run, t) == StepsOf(old(run), t) + [Action.SecondCheck(t)]
      ensures Valid() && old(run) < run && old(stamps) == stamps
      ensures PcOf(Now().site, t) == Deciding(now, reallyWrite)
      ensures reallyWrite <==> last + n * 1_000_000_000 < now
      ensures !reallyWrite ==> seen < |stamps| && stamps[|stamps| - 1] >= now - n * SECOND
    {
      if !Due(n, last, now) {
        SkippedMeansOvertaken(n, start, run, Now(), t);
      }
      Extend(n, start, run, Now(), Action.SecondCheck(t));
      hide Reaches;
      reallyWrite := last + n * SECOND < now;
      threads := threads[t := Deciding(now, reallyWrite)];
      StepsOfSnoc(run, Action.SecondCheck(t), t);
      run := run + [Action.SecondCheck(t)];
    }

    method StoreStamp(t: Thread, now: int, reallyWrite: bool)
      requires Valid() && PcOf(Now().site, t) == Deciding(now, reallyWrite)
      modifies this
      ensures StepsOf(run, t) == StepsOf(old(run), t) + [Action.Store(t)]
      ensures Valid() && old(run) < run && PcOf(Now().site, t) == Releasing(reallyWrite)
      ensures stamps == old(stamps) + if reallyWrite then [now] else []
    {
      Extend(n, start, run, Now(), Action.Store(t));
      hide Reaches;
      if reallyWrite {
        last := now;
        stamps := stamps + [now];
        toWrite := toWrite + {t};
      }
      threads := threads[t := Releasing(reallyWrite)];
      StepsOfSnoc(run, Action.Store(t), t);
      run := run + [Action.Store(t)];
    }

    method FreeLock(t: Thread, reallyWrite: bool)
      requires Valid() && PcOf(Now().site, t) == Releasing(reallyWrite)
      modifies this
      ensures StepsOf(run, t) == StepsOf(old(run), t) + [Action.Release(t)]
      ensures Valid() && old(run) < run && old(stamps) == stamps
      ensures PcOf(Now().site, t) == if reallyWrite then Logging else Outside
    {
      Extend(n, start, run, Now(), Action.Release(t));
      StepsOfSnoc(run, Action.Release(t), t);
      hide Reaches, StepsOf;
      logging := false;
      threads := threads[t := if reallyWrite then Logging else Outside];
      run := run + [Action.Release(t)];
    }

    method WriteLine(t: Thread)
      requires Valid() && PcOf(Now().site, t) == Logging
      modifies this
      ensures StepsOf(run, t) == StepsOf(old(run), t) + [Action.Write(t)]
      ensures Valid() && old(run) < run && old(stamps) == stamps && PcOf(Now().site, t).Outside?
      ensures lines == old(lines) + 1
    {
      Extend(n, start, run, Now(), Action.Write(t));
      StepsOfSnoc(run, Action.Write(t), t);
      hide Reaches, StepsOf;
      lines := lines + 1;
      toWrite := toWrite - {t};
      threads := threads[t := Outside];
      run := run + [Action.Write(t)];
    }

    /** The lock is freed as soon as the decision is stored; the line is written after that. */
    method ReleaseAndWrite(t: Thread, reallyWrite: bool)
      requires Valid() && PcOf(Now().site, t) == Releasing(reallyWrite)
      modifies this
      ensures StepsOf(run, t) ==
                StepsOf(old(run), t) + [Action.Release(t)] + if reallyWrite then [Action.Write(t)] else []
      ensures Valid() && old(run) < run && old(stamps) <= stamps && PcOf(Now().site, t).Outside?
    {
      hide Valid, StepsOf;
      FreeLock(t, reallyWrite);
      if reallyWrite {
        Others(t);
        WriteLine(t);
      }
    }

    /** With the lock held: the second check, the store, the release and the line. */
    method InsideLock(t: Thread, now: int, seen: nat) returns (outcome: Outcome)
      requires Valid() && PcOf(Now().site, t) == Holding(now, seen)
      modifies this
      ensures StepsOf(run, t) == StepsOf(old(run), t) + LockedSteps(t, outcome)
      ensures Valid() && old(run) <= run && old(stamps) <= stamps && PcOf(Now().site, t).Outside?
      ensures outcome == Overtaken(now) || outcome == Written(now)
      ensures outcome.Overtaken? ==> exists i :: seen <= i < |stamps| && stamps[i] >= now - n * SECOND
      ensures outcome.Written? ==> now in stamps[|old(stamps)|..]
    {
      hide Valid;
      Others(t);
      var reallyWrite := CheckAgain(t, now, seen);
      ghost var latest := |stamps| - 1;
      Others(t);
      ghost var stored := |stamps|;
      StoreStamp(t, now, reallyWrite);
      Others(t);
      ReleaseAndWrite(t, reallyWrite);
      if reallyWrite {
        assert stamps[stored] == now;
        outcome := Written(now);
      } else {
        assert seen <= latest < |stamps| && stamps[latest] >= now - n * SECOND;
        outcome := Overtaken(now);
      }
    }

    /** The part of the macro that the first check guards. */
    method TryToLog(t: Thread, now: int, seen: nat) returns (outcome: Outcome)
      requires Valid() && PcOf(Now().site, t) == Passed(now, seen)
      modifies this
      ensures StepsOf(run, t) == StepsOf(old(run), t) + MacroSteps(t, outcome)[2..]
      ensures Valid() && old(run) <= run && old(stamps) <= stamps && PcOf(Now().site, t).Outside?
      ensures outcome == LockHeld(now) || outcome == Overtaken(now) || outcome == Written(now)
      ensures outcome.Overtaken? ==> exists i :: seen <= i < |stamps| && stamps[i] >= now - n * SECOND
      ensures outcome.Written? ==> now in stamps[|old(stamps)|..]
    {
      hide Valid, StepsOf, LockedSteps;
      Others(t);
      var got := Exchange(t, now, seen);
      if got {
        outcome := InsideLock(t, now, seen);
      } else {
        outcome := LockHeld(now);
      }
    }

    /** The clock is read once, before anything else. */
    method ReadTime(t: Thread) returns (now: int)
      requires Valid() && PcOf(Now().site, t).Outside?
      modifies this
      ensures StepsOf(run, t) == StepsOf(old(run), t) + [Action.ReadClock(t)]
      ensures Valid() && old(run) <= run && stamps == old(stamps) && PcOf(Now().site, t) == HasTime(now)
      ensures now == old(clock.coarse)
    {
      Extend(n, start, run, Now(), Action.ReadClock(t));
      StepsOfSnoc(run, Action.ReadClock(t), t);
      hide Reaches, StepsOf;
      now := clock.coarse;
      threads := threads[t := HasTime(now)];
      run := run + [Action.ReadClock(t)];
    }

    /** The first check, without the lock. */
    method CheckFirst(t: Thread, now: int) returns (passed: bool)
      requires Valid() && PcOf(Now().site, t) == HasTime(now)
      modifies this
      ensures StepsOf(run, t) == StepsOf(old(run), t) + [Action.FirstCheck(t)]
      ensures Valid() && old(run) <= run && stamps == old(stamps)
      ensures passed <==> old(last) + n * 1_000_000_000 < now
      ensures passed <==> Last(stamps) + n * 1_000_000_000 < now
      ensures PcOf(Now().site, t) == if passed then Passed(now, |stamps|) else Outside
    {
      InvHolds(n, start, run, Now());
      Extend(n, start, run, Now(), Action.FirstCheck(t));
      StepsOfSnoc(run, Action.FirstCheck(t), t);
      hide Reaches, StepsOf;
      passed := last + n * SECOND < now;
      threads := threads[t := if passed then Passed(now, |stamps|) else Outside];
      run := run + [Action.FirstCheck(t)];
    }

    /**
      LOG_EVERY_N_SECOND: one evaluation by one thread, with the others in between. It is too
      early for a line, or not, by the latest stamp at some moment of the call, zero if none.
    */
    method Log(t: Thread) returns (outcome: Outcome)
      requires Valid() && PcOf(Now().site, t).Outside?
      modifies this
      ensures StepsOf(run, t) == StepsOf(old(run), t) + MacroSteps(t, outcome)
      ensures Valid() && old(run) <= run && old(stamps) <= stamps && PcOf(Now().site, t).Outside?
      ensures outcome.now == old(clock.coarse)
      ensures outcome.TooEarly? ==>
        exists i :: |old(stamps)| <= i <= |stamps| && Last(stamps[..i]) + n * 1_000_000_000 >= outcome.now
      ensures !outcome.TooEarly? ==>
        exists i :: |old(stamps)| <= i <= |stamps| && Last(stamps[..i]) + n * 1_000_000_000 < outcome.now
      ensures outcome.Written? ==> outcome.now in stamps[|old(stamps)|..]
      ensures outcome.Overtaken? ==>
        exists i :: |old(stamps)| <= i < |stamps| && stamps[i] >= outcome.now - n * SECOND
    {
      hide Valid, StepsOf, PcOf, LockedSteps;
      var now := ReadTime(t);
      Others(t);
      var passed := CheckFirst(t, now);
      ghost var checked := stamps;
      if passed {
        outcome := TryToLog(t, now, |stamps|);
      } else {
        outcome := TooEarly(now);
      }
      assert Last(stamps[..|checked|]) == Last(checked) by { assert stamps[..|checked|] == checked; }
    }

    /** LOG_EVERY_N_SECOND_IF: without the condition nothing at all happens. */
    method LogIf(condition: bool, t: Thread) returns (outcome: Option<Outcome>)
      requires Valid() && PcOf(Now().site, t).Outside?
      modifies this
      ensures Valid() && PcOf(Now().site, t).Outside?
      ensures outcome.Some? <==> condition
      ensures !condition ==> Now() == old(Now()) && run == old(run)
      ensures condition ==>
        && StepsOf(run, t) == StepsOf(old(run), t) + MacroSteps(t, outcome.value)
        && old(run) <= run && old(stamps) <= stamps && outcome.value.now == old(clock.coarse)
        && (if outcome.value.TooEarly? then
              exists i :: |old(stamps)| <= i <= |stamps| && Last(stamps[..i]) + n * 1_000_000_000 >= old(clock.coarse)
            else
              exists i :: |old(stamps)| <= i <= |stamps| && Last(stamps[..i]) + n * 1_000_000_000 < old(clock.coarse))
        && (outcome.value.Written? ==> outcome.value.now in stamps[|old(stamps)|..])
        && (outcome.value.Overtaken? ==>
              exists i :: |old(stamps)| <= i < |stamps| && stamps[i] >= outcome.value.now - n * SECOND)
    {
      if condition {
        var result := Log(t);
        return Some(result);
      }
      return None;
    }
  }
}
