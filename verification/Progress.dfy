/**
  Which queued operations get to run. Next blocks even when the local queue has just
  been filled, so progress is conditional: a turn of the loop needs an event, and this
  module says exactly when one can still come and what every turn then achieves.
*/
module Progress {
  import opened Options
  import opened Protocol
  import opened WakeUp
  import opened Ownership
  import opened Order

  // ---- the states in which the loop thread is blocked ----

  /**
    No lost wake-up: while the read flag is set, the remote queue holds work exactly
    when one wake-up is on its way. While it is clear there is local work, just moved.
  */
  lemma BlockedStates(run: seq<Action>, s: State)
    requires Reaches(run, s) && s.loop.pc == AtNext
    ensures Outstanding(s) <= 1
    ensures s.loop.readSubmitted ==> (Items(s.shared.remoteQueue) != [] <==> Outstanding(s) == 1)
    ensures !s.loop.readSubmitted ==> s.loop.localQueue != [] && (Outstanding(s) == 0 <==> s.past.woken)
  {
    WakeUpAccounting(run, s);
  }

  /** Something is already on its way to the completion queue. */
  ghost predicate Expecting(s: State) {
    Outstanding(s) > 0 || s.grpc.inFlight != {} || s.grpc.posted != map[]
  }

  predicate WithoutShutDown(run: seq<Action>) {
    ShutDown !in run
  }

  ghost predicate LeavesNext(s: State, more: seq<Action>) {
    After(s, more).Some? && After(s, more).value.loop.pc == LoopTop
  }

  /** Some continuation without ShutDown lets the loop take another turn. */
  ghost predicate CanContinue(s: State) {
    exists more :: WithoutShutDown(more) && LeavesNext(s, more)
  }

  /** Blocked for good: every step the environment can take leaves the loop where it is. */
  ghost predicate Stalled(s: State) {
    && !s.fault && s.loop.pc == AtNext && !s.loop.readSubmitted && s.shared.remoteQueue.Active?
    && !Expecting(s) && !s.grpc.shutDown
  }

  lemma StallPersists(s: State, a: Action)
    requires Stalled(s) && Enabled(s, a) && a != ShutDown
    ensures Stalled(Apply(s, a)) && Apply(s, a).loop == s.loop
  {
  }

  lemma {:induction false} StalledForever(s: State, more: seq<Action>)
    requires Stalled(s) && WithoutShutDown(more) && After(s, more).Some?
    ensures Stalled(After(s, more).value) && After(s, more).value.loop == s.loop
  {
    if more != [] {
      var init := more[..|more| - 1];
      StalledForever(s, init);
      StallPersists(After(s, init).value, more[|more| - 1]);
    }
  }

  // ---- what is on its way arrives: a continuation, step by step ----

  lemma Step(s: State, more: seq<Action>, a: Action)
    requires After(s, more).Some? && Enabled(After(s, more).value, a)
    ensures After(s, more + [a]) == Some(Apply(After(s, more).value, a))
  {
    AfterSnoc(s, more, After(s, more).value, a);
  }

  lemma PostedArrives(s: State, more: seq<Action>, op: Op)
    requires After(s, more).Some? && WithoutShutDown(more)
    requires var m := After(s, more).value; !m.fault && m.loop.pc == AtNext && op in m.grpc.posted
    ensures CanContinue(s)
  {
    var e := Event(OperationTag(op), After(s, more).value.grpc.posted[op]);
    Step(s, more, Next(e));
    assert LeavesNext(s, more + [Next(e)]);
  }

  lemma WakeUpArrives(s: State, more: seq<Action>)
    requires After(s, more).Some? && WithoutShutDown(more)
    requires var m := After(s, more).value; !m.fault && m.loop.pc == AtNext && m.grpc.wakeUps > 0
    ensures CanContinue(s)
  {
    var e := Event(NullTag, true);
    Step(s, more, Next(e));
    assert LeavesNext(s, more + [Next(e)]);
  }

  lemma AlarmArrives(s: State, more: seq<Action>)
    requires After(s, more).Some? && WithoutShutDown(more)
    requires var m := After(s, more).value; !m.fault && m.loop.pc == AtNext && m.grpc.alarms > 0
    ensures CanContinue(s)
  {
    Step(s, more, AlarmFires);
    WakeUpArrives(s, more + [AlarmFires]);
  }

  lemma SignalArrives(s: State, more: seq<Action>, t: Thread)
    requires After(s, more).Some? && WithoutShutDown(more)
    requires
      var m := After(s, more).value;
      !m.fault && m.loop.pc == AtNext && t in m.shared.owed && m.grpc.alarms == 0
    ensures CanContinue(s)
  {
    Step(s, more, Signal(t));
    AlarmArrives(s, more + [Signal(t)]);
  }

  lemma ExpectedArrives(s: State)
    requires WakeInv(s) && !s.fault && s.loop.pc == AtNext && Expecting(s)
    ensures CanContinue(s)
  {
    if op :| op in s.grpc.posted {
      PostedArrives(s, [], op);
    } else if op :| op in s.grpc.inFlight {
      Step(s, [], Complete(op, true));
      PostedArrives(s, [] + [Complete(op, true)], op);
    } else if s.grpc.wakeUps > 0 {
      WakeUpArrives(s, []);
    } else if s.grpc.alarms > 0 {
      AlarmArrives(s, []);
    } else {
      var t :| t in s.shared.owed;
      SignalArrives(s, [], t);
    }
  }

  /** There is always an operation that has not been used yet. */
  lemma {:induction false} SomeUnused(used: set<Op>) returns (op: Op)
    ensures forall x :: x in used ==> x < op
  {
    if used == {} {
      op := 0;
    } else {
      var x :| x in used;
      var y := SomeUnused(used - {x});
      op := if x < y then y else x + 1;
      forall z | z in used ensures z < op {
        assert z == x || z in used - {x};
      }
    }
  }

  lemma SubmissionArrives(s: State)
    requires !s.fault && s.loop.pc == AtNext && s.shared.remoteQueue.Inactive? && Outstanding(s) == 0
    requires !s.grpc.shutDown
    ensures CanContinue(s)
  {
    var op := SomeUnused(s.past.log.Keys);
    assert op !in s.past.log;
    assert s.shared.owed == {};
    Step(s, [], Enqueue(0, op));
    SignalArrives(s, [] + [Enqueue(0, op)], 0);
  }

  /** After ShutDown, with nothing on its way any more, Next returns false and the context can be run again. */
  lemma DrainedLeaves(s: State)
    requires !s.fault && s.loop.pc == AtNext && s.grpc.shutDown && !Expecting(s)
    ensures Enabled(s, NextDrained) && CanContinue(s)
  {
    var stop := SomeUnused(s.past.log.Keys);
    assert stop !in s.past.log;
    Step(s, [], NextDrained);
    Step(s, [] + [NextDrained], EnterRun(stop));
    assert LeavesNext(s, [] + [NextDrained] + [EnterRun(stop)]);
  }

  /**
    The loop can leave Next, for the top of the loop and without a further ShutDown, if
    and only if something is on its way, the read flag is set or the queue was shut down.
    In the last case Next returns false as soon as nothing is on its way.
  */
  lemma ContinuesIff(run: seq<Action>, s: State)
    requires Reaches(run, s) && s.loop.pc == AtNext && !s.fault
    ensures CanContinue(s) <==> Expecting(s) || s.loop.readSubmitted || s.grpc.shutDown
    ensures s.grpc.shutDown ==> (Enabled(s, NextDrained) <==> !Expecting(s))
  {
    WakeUpAccounting(run, s);
    if Expecting(s) {
      ExpectedArrives(s);
    } else if s.grpc.shutDown {
      DrainedLeaves(s);
    } else if s.loop.readSubmitted {
      SubmissionArrives(s);
    } else {
      assert Stalled(s);
      forall more | WithoutShutDown(more) ensures !LeavesNext(s, more) {
        if After(s, more).Some? {
          StalledForever(s, more);
        }
      }
    }
  }

  // ---- the stall is real ----

  /** An idle loop: blocked in Next with no work of any kind left. */
  ghost predicate IdleLoop(s: State) {
    && !s.fault && s.loop.pc == AtNext && s.loop.readSubmitted && s.loop.pending == []
    && s.loop.localQueue == [] && s.shared.remoteQueue == Inactive && !Expecting(s)
    && s.loop.stopOp !in s.shared.shouldStop && !s.grpc.shutDown
  }

  /** The loop's answer to one submission when nothing else happens. */
  function Answer(t: Thread, op: Op): seq<Action> {
    [Enqueue(t, op), Signal(t), AlarmFires, Next(Event(NullTag, true)), BeginBatch, FinishBatch, CheckRemote]
  }

  lemma {:induction false} WokenUp(s: State, t: Thread, op: Op) returns (m: State)
    requires IdleLoop(s) && Fresh(s, op)
    ensures After(s, [Enqueue(t, op), Signal(t), AlarmFires, Next(Event(NullTag, true))]) == Some(m)
    ensures m.loop == Loop(LoopTop, [], [], false, Event(NullTag, true), s.loop.stopOp)
    ensures m.shared.remoteQueue == Active([op]) && m.shared.owed == {} && m.shared.shouldStop == s.shared.shouldStop
    ensures m.grpc == s.grpc && !m.fault
  {
    assert s.shared.owed == {};
    var a, b, c, d := Enqueue(t, op), Signal(t), AlarmFires, Next(Event(NullTag, true));
    Step(s, [], a);
    assert [] + [a] == [a];
    Step(s, [a], b);
    assert [a] + [b] == [a, b];
    Step(s, [a, b], c);
    assert [a, b] + [c] == [a, b, c];
    Step(s, [a, b, c], d);
    assert [a, b, c] + [d] == [a, b, c, d];
    m := After(s, [a, b, c, d]).value;
  }

  lemma MovedToLocal(m: State, op: Op) returns (s': State)
    requires !m.fault && m.loop.pc == LoopTop && m.loop.pending == [] && m.loop.localQueue == []
    requires !m.loop.readSubmitted && m.shared.remoteQueue == Active([op]) && m.loop.stopOp !in m.shared.shouldStop
    requires !Expecting(m) && !m.grpc.shutDown
    ensures After(m, [BeginBatch, FinishBatch, CheckRemote]) == Some(s')
    ensures Stalled(s') && s'.loop.localQueue == [op]
  {
    Step(m, [], BeginBatch);
    assert [] + [BeginBatch] == [BeginBatch];
    Step(m, [BeginBatch], FinishBatch);
    assert [BeginBatch] + [FinishBatch] == [BeginBatch, FinishBatch];
    Step(m, [BeginBatch, FinishBatch], CheckRemote);
    assert [BeginBatch, FinishBatch] + [CheckRemote] == [BeginBatch, FinishBatch, CheckRemote];
    s' := After(m, [BeginBatch, FinishBatch, CheckRemote]).value;
  }

  /**
    An idle loop can be submitted to, and this is the shortest way into the stall: the
    loop wakes up, moves the operation to its local queue and blocks again without having
    run it. That no schedule does better is the subject of the module Work.
  */
  lemma IdleSubmissionStalls(s: State, t: Thread, op: Op) returns (s': State)
    requires IdleLoop(s) && Fresh(s, op)
    ensures After(s, Answer(t, op)) == Some(s')
    ensures Stalled(s') && s'.loop.localQueue == [op]
  {
    var m := WokenUp(s, t, op);
    s' := MovedToLocal(m, op);
    var wake := [Enqueue(t, op), Signal(t), AlarmFires, Next(Event(NullTag, true))];
    AfterConcat(s, wake, [BeginBatch, FinishBatch, CheckRemote], m);
    assert wake + [BeginBatch, FinishBatch, CheckRemote] == Answer(t, op);
  }

  lemma FirstRunRequested() returns (run: seq<Action>, s: State)
    ensures Reaches(run, s) && !s.fault
    ensures s.loop == Loop(LoopTop, [], [], false, Event(NullTag, false), 0)
    ensures s.shared == Shared(Active([0]), {0}, map[0 := SetShouldStop], {})
    ensures s.grpc == Grpc(0, 0, {}, map[], false)
    ensures s.past.log == map[0 := [StopCreated, StopRequested(true)]]
  {
    run, s := [], Initial();
    run, s := Taken(run, s, EnterRun(0));
    run, s := Taken(run, s, EnqueueStop(0));
    assert s.shared.remoteQueue.items == [0] && s.shared.owed == {0};
    assert s.shared.execute == map[0 := SetShouldStop];
    assert LogOf(s.past.log, 0) == [StopCreated, StopRequested(true)];
  }

  lemma FirstRunWaits() returns (run: seq<Action>, s: State)
    ensures Reaches(run, s) && !s.fault
    ensures s.loop == Loop(AtNext, [], [0], false, Event(NullTag, false), 0)
    ensures s.shared == Shared(Active([]), {}, map[0 := SetShouldStop], {})
    ensures s.grpc == Grpc(0, 1, {}, map[], false)
    ensures s.past.log == map[0 := [StopCreated, StopRequested(true)]]
  {
    run, s := FirstRunRequested();
    hide Reaches;
    run, s := Taken(run, s, Signal(0));
    run, s := Taken(run, s, AlarmFires);
    run, s := Taken(run, s, BeginBatch);
    run, s := Taken(run, s, FinishBatch);
    run, s := Taken(run, s, CheckRemote);
  }

  lemma FirstRunStops(run: seq<Action>, s: State) returns (run': seq<Action>, s': State)
    requires Reaches(run, s) && !s.fault
    requires s.loop == Loop(AtNext, [], [0], false, Event(NullTag, false), 0)
    requires s.shared == Shared(Active([]), {}, map[0 := SetShouldStop], {})
    requires s.grpc == Grpc(0, 1, {}, map[], false)
    requires s.past.log == map[0 := [StopCreated, StopRequested(true)]]
    ensures Reaches(run', s') && !s'.fault
    ensures s'.loop == Loop(Idle, [], [], false, Event(NullTag, true), 0)
    ensures s'.shared == Shared(Active([]), {}, map[0 := SetShouldStop], {0})
    ensures s'.grpc == Grpc(0, 0, {}, map[], false)
    ensures Fresh(s', 1) && Fresh(s', 2)
  {
    hide Reaches;
    run', s' := Taken(run, s, Next(Event(NullTag, true)));
    run', s' := Taken(run', s', BeginBatch);
    run', s' := Taken(run', s', RunItem);
    run', s' := Taken(run', s', FinishBatch);
  }

  /** Idle loops are reachable: run a context, stop it, and run it again. */
  lemma IdleLoopReachable() returns (run: seq<Action>, s: State)
    ensures Reaches(run, s) && IdleLoop(s) && Fresh(s, 2)
  {
    run, s := FirstRunWaits();
    run, s := FirstRunStops(run, s);
    run, s := Taken(run, s, EnterRun(1));
    run, s := Taken(run, s, BeginBatch);
    run, s := Taken(run, s, FinishBatch);
    run, s := Taken(run, s, CheckRemote);
  }
}
