/**
  Which submitted work can still be executed at all. Once no RPC of the context is
  outstanding, a remote submission wakes the loop only to be moved to the local queue; the
  loop blocks again and nobody signals it any more. This module proves that this happens
  under every schedule, and that an outstanding RPC is exactly what it takes for some
  schedule to execute queued work. When every schedule does is the subject of Certain.
*/
module Work {
  import opened Options
  import opened Protocol
  import opened WakeUp
  import opened Ownership
  import opened Order
  import opened Safety
  import opened Progress
  import opened Turns

  /** gRPC holds an operation of this context, or has posted one that is not acquired yet. */
  ghost predicate RpcOutstanding(s: State) {
    s.grpc.inFlight != {} || s.grpc.posted != map[]
  }

  predicate IsStop(s: State, op: Op) {
    |LogOf(s.past.log, op)| > 0 && LogOf(s.past.log, op)[0] == StopCreated
  }

  ghost predicate InLoopQueues(s: State, op: Op) {
    op in s.loop.pending || op in s.loop.localQueue
  }

  // ---- without an outstanding RPC nothing runs ----

  ghost predicate Stuck(s: State) {
    s.loop.pc == AtNext && !s.loop.readSubmitted && s.past.woken
  }

  /** The loop's own queues hold stops at most, and remotely requested ones only of this set. */
  ghost predicate OnlyStops(s: State, may: set<Op>) {
    forall op :: InLoopQueues(s, op) ==> IsStop(s, op) && (RemoteEntry(s.past.log, op) ==> op in may)
  }

  ghost predicate Dormant(s: State, may: set<Op>) {
    && !s.fault && !s.grpc.shutDown && !RpcOutstanding(s)
    && s.loop.pc != InReceiver && (!s.past.woken ==> s.loop.pc == AtNext)
    && (Stuck(s) || OnlyStops(s, may))
  }

  /** A step adds nothing to what has run, except possibly one item of the set. */
  ghost predicate RunsAtMost(s: State, s': State, may: set<Op>) {
    && s.past.ran <= s'.past.ran
    && forall i :: |s.past.ran| <= i < |s'.past.ran| ==> s'.past.ran[i] in may
  }

  lemma StuckStays(s: State, a: Action, may: set<Op>)
    requires WakeInv(s) && Dormant(s, may) && Stuck(s) && Enabled(s, a) && a != ShutDown
    ensures Dormant(Apply(s, a), may) && RunsAtMost(s, Apply(s, a), may)
  {
    hide RemoteEntry;
  }

  lemma DormantRunItem(s: State, may: set<Op>)
    requires Dormant(s, may) && OnlyStops(s, may) && Enabled(s, RunItem) && Placed(s, s.loop.pending[0])
    ensures Dormant(ExecuteFirst(s), may) && RunsAtMost(s, ExecuteFirst(s), may)
  {
    var op := s.loop.pending[0];
    assert InLoopQueues(s, op);
    assert s.shared.execute[op] == SetShouldStop by { FirstKeeps(s); }
    var s' := ExecuteFirst(s);
    assert s' == Stop(Pop(s), op);
    assert LogOf(s'.past.log, op) == LogOf(s.past.log, op) + [Stopped];
    assert LogOf(s'.past.log, op)[|LogOf(s.past.log, op)|] == Stopped;
    forall x | InLoopQueues(s', x) ensures IsStop(s', x) && (RemoteEntry(s'.past.log, x) ==> x in may) {
      assert InLoopQueues(s, x);
      if x != op {
        assert LogOf(s'.past.log, x) == LogOf(s.past.log, x);
      }
    }
  }

  /** An operation whose history is kept remains an entry, or none. */
  lemma SameEntry(log: map<Op, seq<Note>>, log': map<Op, seq<Note>>, op: Op)
    ensures LogOf(log', op) == LogOf(log, op) ==> (RemoteEntry(log', op) <==> RemoteEntry(log, op))
  {
  }

  lemma DormantQuiet(s: State, a: Action, may: set<Op>)
    requires WakeInv(s) && Dormant(s, may) && OnlyStops(s, may) && Enabled(s, a) && a != ShutDown
    requires !a.RunItem? && !Apply(s, a).fault
    requires (a.Enqueue? || a.EnqueueStop? || a.EnterRun?) ==> Links(s, Actor(s, a)) == 0
    ensures Dormant(Apply(s, a), may) && RunsAtMost(s, Apply(s, a), may)
  {
    hide RemoteEntry, ExecuteFirst;
    var s' := Apply(s, a);
    if a.Enqueue? || a.EnqueueStop? || a.EnterRun? {
      Unlinked(s, Actor(s, a));
    }
    assert s'.past.ran == s.past.ran;
    if !Stuck(s') {
      forall x | InLoopQueues(s', x) ensures IsStop(s', x) && (RemoteEntry(s'.past.log, x) ==> x in may) {
        assert InLoopQueues(s, x);
        assert LogOf(s'.past.log, x) == LogOf(s.past.log, x);
        SameEntry(s.past.log, s'.past.log, x);
      }
    }
  }

  lemma DormantStep(s: State, a: Action, may: set<Op>)
    requires WakeInv(s) && OwnershipInv(s) && Dormant(s, may) && Enabled(s, a) && a != ShutDown
    ensures Dormant(Apply(s, a), may) && RunsAtMost(s, Apply(s, a), may)
  {
    FaultStep(s, a);
    if Stuck(s) {
      StuckStays(s, a, may);
    } else if a.RunItem? {
      assert Placed(s, s.loop.pending[0]);
      DormantRunItem(s, may);
    } else {
      if a.Enqueue? || a.EnqueueStop? || a.EnterRun? {
        assert Placed(s, Actor(s, a));
      }
      hide OwnershipInv, OnlyStops;
      DormantQuiet(s, a, may);
    }
  }

  lemma RunsAtMostTrans(s: State, m: State, s': State, may: set<Op>)
    requires RunsAtMost(s, m, may) && RunsAtMost(m, s', may)
    ensures RunsAtMost(s, s', may)
  {
    forall i | |s.past.ran| <= i < |s'.past.ran| ensures s'.past.ran[i] in may {
      assert i < |m.past.ran| ==> s'.past.ran[i] == m.past.ran[i];
    }
  }

  /** Whatever happens next, short of a shutdown: of the remote work only that set can still run. */
  lemma {:induction false} DormantRuns(run: seq<Action>, s: State, more: seq<Action>, s': State, may: set<Op>)
    requires Reaches(run, s) && Dormant(s, may)
    requires WithoutShutDown(more) && After(s, more) == Some(s')
    ensures Dormant(s', may) && RunsAtMost(s, s', may)
  {
    if more != [] {
      var init, a := more[..|more| - 1], more[|more| - 1];
      var m := After(s, init).value;
      DormantRuns(run, s, init, m, may);
      AfterConcat(Initial(), run, init, s);
      WakeUpAccounting(run + init, m);
      OwnershipHolds(run + init, m);
      hide Dormant, RunsAtMost, WakeInv, OwnershipInv, Enabled, Apply;
      DormantStep(m, a, may);
      RunsAtMostTrans(s, m, s', may);
    }
  }

  lemma SomethingMore(s: State, s': State, may: set<Op>)
    requires RunsAtMost(s, s', may)
    ensures s'.past.ran == s.past.ran || exists op :: op in may
  {
    assert |s.past.ran| < |s'.past.ran| ==> s'.past.ran[|s.past.ran|] in may;
  }

  /** An idle loop executes no remote work any more, however many operations are submitted to it. */
  lemma IdleNeverRuns(run: seq<Action>, s: State, more: seq<Action>, s': State)
    requires Reaches(run, s) && IdleLoop(s)
    requires WithoutShutDown(more) && After(s, more) == Some(s')
    ensures s'.past.ran == s.past.ran
  {
    WakeUpAccounting(run, s);
    DormantRuns(run, s, more, s', {});
    SomethingMore(s, s', {});
  }

  /** The loop goes round with empty queues, or is blocked with what it moved last. */
  ghost predicate Endless(s: State) {
    && !s.fault && !s.grpc.shutDown && !RpcOutstanding(s) && s.past.woken
    && s.loop.pc != Idle && s.loop.pc != InReceiver && s.loop.stopOp !in s.shared.shouldStop
    && s.loop.pending == [] && (s.loop.localQueue == [] || Stuck(s))
  }

  lemma EndlessStep(s: State, a: Action)
    requires WakeInv(s) && OwnershipInv(s) && Endless(s) && Enabled(s, a) && a != ShutDown
    ensures Endless(Apply(s, a)) && Apply(s, a).loop.stopOp == s.loop.stopOp
  {
    FaultStep(s, a);
    hide RemoteEntry, ExecuteFirst, OwnershipInv;
  }

  /** Nor does its Run end, for the stop requested from another thread never runs either. */
  lemma {:induction false} IdleNeverStops(run: seq<Action>, s: State, more: seq<Action>, s': State)
    requires Reaches(run, s) && IdleLoop(s)
    requires WithoutShutDown(more) && After(s, more) == Some(s')
    ensures s'.loop.pc != Idle && s'.loop.stopOp == s.loop.stopOp && s'.loop.stopOp !in s'.shared.shouldStop
    ensures Endless(s')
  {
    WakeUpAccounting(run, s);
    if more != [] {
      var init, a := more[..|more| - 1], more[|more| - 1];
      var m := After(s, init).value;
      IdleNeverStops(run, s, init, m);
      AfterConcat(Initial(), run, init, s);
      WakeUpAccounting(run + init, m);
      OwnershipHolds(run + init, m);
      EndlessStep(m, a);
      hide Apply, WakeInv, OwnershipInv;
    }
  }

  // ---- what the local queue holds while the read flag is set ----

  predicate StoppedHere(h: seq<Note>) {
    h == [StopCreated, StopRequested(false)]
  }

  /** From the batch on, until remote items are moved, only a receiver's stop is queued locally. */
  ghost predicate LocalInv(s: State) {
    s.loop.pc in {Draining, InReceiver, RemoteCheck} || (s.loop.pc == AtNext && s.loop.readSubmitted) ==>
      forall x :: x in s.loop.localQueue ==> StoppedHere(LogOf(s.past.log, x))
  }

  /** Nothing is noted about an operation while it is in some queue, until it is executed. */
  lemma QueuedWaits(s: State, a: Action, x: Op)
    requires OwnershipInv(s) && Enabled(s, a) && Links(s, x) > 0 && !(a.RunItem? && s.loop.pending[0] == x)
    ensures LogOf(Apply(s, a).past.log, x) == LogOf(s.past.log, x)
  {
    assert Placed(s, x);
    HistoryGrows(s, a, x);
    hide Apply, RemoteEntry, Links;
  }

  lemma QueuedStopWaits(s: State, a: Action, x: Op)
    requires OwnershipInv(s) && Enabled(s, a) && x in s.loop.localQueue
    ensures LogOf(Apply(s, a).past.log, x) == LogOf(s.past.log, x)
  {
    OneLink(s, x);
    if a.RunItem? && s.loop.pending[0] == x {
      PopLinks(s, x);
    }
    hide OwnershipInv, Apply;
    QueuedWaits(s, a, x);
  }

  lemma LocalQueueStep(s: State, a: Action)
    requires Enabled(s, a)
    ensures
      var s' := Apply(s, a);
      s'.loop.pc in {Draining, InReceiver, RemoteCheck} || (s'.loop.pc == AtNext && s'.loop.readSubmitted) ==>
        || s'.loop.localQueue == []
        || (s'.loop.localQueue == s.loop.localQueue
            && (s.loop.pc in {Draining, InReceiver, RemoteCheck} || (s.loop.pc == AtNext && s.loop.readSubmitted)))
        || (a == ReceiverStops && s'.loop.localQueue == s.loop.localQueue + [s.loop.stopOp]
            && StoppedHere(LogOf(s'.past.log, s.loop.stopOp)))
  {
    if a.RunItem? && s.loop.pending[0] in s.shared.execute {
      ExecuteFrame(s);
      hide ExecuteFirst;
    }
    hide RemoteEntry;
  }

  lemma LocalKeeps(s: State, a: Action)
    requires OwnershipInv(s) && LocalInv(s) && Enabled(s, a)
    ensures LocalInv(Apply(s, a))
  {
    var s' := Apply(s, a);
    LocalQueueStep(s, a);
    forall x | x in s.loop.localQueue && StoppedHere(LogOf(s.past.log, x))
      ensures StoppedHere(LogOf(s'.past.log, x))
    {
      QueuedStopWaits(s, a, x);
    }
    assert a == ReceiverStops ==> s.loop.pc == InReceiver;
    hide Apply, OwnershipInv, StoppedHere;
  }

  lemma {:induction false} LocalHolds(run: seq<Action>, s: State)
    requires Reaches(run, s)
    ensures LocalInv(s)
  {
    if run != [] {
      var init, a := run[..|run| - 1], run[|run| - 1];
      var m := After(Initial(), init).value;
      LocalHolds(init, m);
      OwnershipHolds(init, m);
      LocalKeeps(m, a);
    }
  }

  // ---- with an outstanding RPC everything can still run ----

  /** Nothing is wrong and the user has not shut the queue down. */
  predicate Up(s: State) {
    !s.fault && !s.grpc.shutDown && s.past.enqueued != []
  }

  predicate IsRpc(s: State, op: Op) {
    |LogOf(s.past.log, op)| > 0 && LogOf(s.past.log, op)[0] != StopCreated
  }

  lemma RpcStaysRpc(s: State, a: Action, op: Op)
    requires Enabled(s, a) && IsRpc(s, op)
    ensures IsRpc(Apply(s, a), op)
  {
    HistoryGrows(s, a, op);
    hide Apply;
  }

  /** A schedule that goes on from another one within a turn. */
  predicate GoesOn(run: seq<Action>, run': seq<Action>) {
    run <= run' && forall i :: |run| <= i < |run'| ==> InTurn(run'[i]) && run'[i] != ShutDown
  }

  lemma ShutDownStep(s: State, a: Action)
    requires Enabled(s, a) && a != ShutDown
    ensures Apply(s, a).grpc.shutDown == s.grpc.shutDown
  {
    hide RemoteEntry;
  }

  lemma Quietly(start: seq<Action>, run: seq<Action>, s: State, a: Action) returns (run': seq<Action>, s': State)
    requires GoesOn(start, run) && Reaches(run, s) && Up(s)
    requires Enabled(s, a) && InTurn(a) && a != ShutDown
    ensures run' == run + [a] && GoesOn(start, run') && Reaches(run', s') && s' == Apply(s, a)
    ensures Up(s') && s.past.enqueued <= s'.past.enqueued
    ensures forall op :: IsRpc(s, op) ==> IsRpc(s', op)
  {
    run', s' := Taken(run, s, a);
    WakeUpAccounting(run, s);
    OwnershipHolds(run, s);
    FaultStep(s, a);
    StepHistory(s, a);
    forall op | IsRpc(s, op) ensures IsRpc(s', op) {
      RpcStaysRpc(s, a, op);
    }
    ShutDownStep(s, a);
    hide Reaches, Apply, Enabled, OwnershipInv, WakeInv;
  }

  /** Only a StopOperation holds the function that sets should_stop_. */
  lemma FirstIsOfItsKind(run: seq<Action>, s: State)
    requires Reaches(run, s) && Enabled(s, RunItem)
    ensures s.loop.pending[0] in s.shared.execute
    ensures IsRpc(s, s.loop.pending[0]) ==> s.shared.execute[s.loop.pending[0]] != SetShouldStop
  {
    OwnershipHolds(run, s);
    assert Placed(s, s.loop.pending[0]);
    FirstKeeps(s);
  }

  lemma FirstOutcome(s: State)
    requires s.loop.pc == Draining && s.loop.pending != [] && s.loop.pending[0] in s.shared.execute
    ensures
      var s', callback := ExecuteFirst(s), s.shared.execute[s.loop.pending[0]];
      && s'.loop.pc == (if callback == OnRequestComplete then InReceiver else Draining)
      && s'.loop.pending == s.loop.pending[1..]
      && (RpcOutstanding(s) || callback == OnScheduleComplete ==> RpcOutstanding(s'))
  {
    hide RemoteEntry;
  }

  /** A resumed receiver may start a further operation before it returns. */
  lemma ReceiverRestarts(start: seq<Action>, run: seq<Action>, s: State) returns (run': seq<Action>, s': State)
    requires GoesOn(start, run) && Reaches(run, s) && Up(s) && s.loop.pc == InReceiver
    ensures GoesOn(start, run') && Reaches(run', s') && Up(s')
    ensures s'.loop == s.loop.(pc := Draining) && RpcOutstanding(s')
    ensures forall op :: IsRpc(s, op) ==> IsRpc(s', op)
  {
    var next := SomeUnused(s.past.log.Keys);
    assert next !in s.past.log;
    hide Reaches;
    run', s' := Quietly(start, run, s, ReceiverStarts(next));
    run', s' := Quietly(start, run', s', ReceiverReturns);
  }

  /** Runs the first item of the batch. If it is an RPC's, one is outstanding afterwards. */
  lemma RunFirst(start: seq<Action>, run: seq<Action>, s: State) returns (run': seq<Action>, s': State)
    requires GoesOn(start, run) && Reaches(run, s) && Up(s) && s.loop.pc == Draining && s.loop.pending != []
    ensures GoesOn(start, run') && Reaches(run', s') && Up(s') && s'.loop.pc == Draining
    ensures s'.loop.pending == s.loop.pending[1..]
    ensures RpcOutstanding(s) || IsRpc(s, s.loop.pending[0]) ==> RpcOutstanding(s')
    ensures forall op :: IsRpc(s, op) ==> IsRpc(s', op)
  {
    FirstIsOfItsKind(run, s);
    FirstOutcome(s);
    hide Reaches, ExecuteFirst, RpcOutstanding;
    run', s' := Quietly(start, run, s, RunItem);
    if s'.loop.pc == InReceiver {
      run', s' := ReceiverRestarts(start, run', s');
    }
  }

  /** Runs the whole batch. */
  lemma {:induction false} Drain(start: seq<Action>, run: seq<Action>, s: State, op: Op)
      returns (run': seq<Action>, s': State)
    requires GoesOn(start, run) && Reaches(run, s) && Up(s) && s.loop.pc == Draining
    ensures GoesOn(start, run') && Reaches(run', s') && Up(s') && s'.loop.pc == Draining && s'.loop.pending == []
    ensures RpcOutstanding(s) || (op in s.loop.pending && IsRpc(s, op)) ==> RpcOutstanding(s')
    decreases |s.loop.pending|
  {
    run', s' := run, s;
    if s.loop.pending != [] {
      hide Reaches, RpcOutstanding;
      run', s' := RunFirst(start, run, s);
      run', s' := Drain(start, run', s', op);
    }
  }

  lemma RunAgain(start: seq<Action>, run: seq<Action>, s: State) returns (run': seq<Action>, s': State)
    requires GoesOn(start, run) && Reaches(run, s) && Up(s)
    requires Enabled(s, FinishBatch) && s.loop.stopOp in s.shared.shouldStop
    ensures GoesOn(start, run') && Reaches(run', s') && Up(s') && s'.loop.pc == RemoteCheck
    ensures s'.grpc == s.grpc && s'.loop.readSubmitted == s.loop.readSubmitted
  {
    StopExit(run, s, s.loop.stopOp);
    var stop := SomeUnused(s.past.log.Keys);
    assert stop !in s.past.log;
    OwnershipHolds(run, s);
    assert Placed(s, stop);
    hide Reaches, OwnershipInv, Placed;
    run', s' := Quietly(start, run, s, FinishBatch);
    run', s' := Quietly(start, run', s', EnterRun(stop));
    run', s' := Quietly(start, run', s', BeginBatch);
    run', s' := Quietly(start, run', s', FinishBatch);
  }

  /** From the top of the loop to Next. If a stop ends the Run, the context is run again. */
  lemma ToNext(start: seq<Action>, run: seq<Action>, s: State, op: Op) returns (run': seq<Action>, s': State)
    requires GoesOn(start, run) && Reaches(run, s) && Up(s) && s.loop.pc == LoopTop
    ensures GoesOn(start, run') && Reaches(run', s') && Up(s') && s'.loop.pc == AtNext
    ensures RpcOutstanding(s) || (op in s.loop.localQueue && IsRpc(s, op)) ==> RpcOutstanding(s')
  {
    hide Reaches;
    run', s' := Quietly(start, run, s, BeginBatch);
    run', s' := Drain(start, run', s', op);
    if s'.loop.stopOp in s'.shared.shouldStop {
      run', s' := RunAgain(start, run', s');
    } else {
      run', s' := Quietly(start, run', s', FinishBatch);
    }
    run', s' := Quietly(start, run', s', CheckRemote);
  }

  lemma AfterSuffix(run: seq<Action>, s: State, run': seq<Action>, s': State)
    requires Reaches(run, s) && Reaches(run', s') && run <= run'
    ensures After(s, run'[|run|..]) == Some(s')
  {
    AfterConcat(Initial(), run, run'[|run|..], s);
    assert run + run'[|run|..] == run';
  }

  lemma AcquireKeeps(s: State, e: Event, op: Op)
    requires Enabled(s, Next(e)) && Up(s)
    ensures
      var m := Apply(s, Next(e));
      && Up(m) && m.loop.pc == LoopTop
      && (e.tag.NullTag? && RpcOutstanding(s) ==> RpcOutstanding(m))
      && (op in s.loop.localQueue && IsRpc(s, op) ==> op in m.loop.localQueue && IsRpc(m, op))
  {
  }

  lemma AcquiredIsRpc(run: seq<Action>, s: State, e: Event)
    requires Reaches(run, s) && Enabled(s, Next(e)) && e.tag.OperationTag?
    ensures
      var m := Apply(s, Next(e));
      e.tag.op in m.loop.localQueue && IsRpc(m, e.tag.op)
  {
    OwnershipHolds(run, s);
    assert Placed(s, e.tag.op);
  }

  /** One whole turn that begins with this event. */
  lemma TakeTurn(run: seq<Action>, s: State, e: Event, op: Op) returns (turn: seq<Action>, s': State)
    requires Reaches(run, s) && Up(s) && s.loop.pc == AtNext && CanReturn(s.grpc, e)
    ensures TakesTurn(s, turn, s') && turn[0] == Next(e) && WithoutShutDown(turn)
    ensures Reaches(run + turn, s') && Up(s')
    ensures e.tag.OperationTag? || RpcOutstanding(s) || (op in s.loop.localQueue && IsRpc(s, op)) ==>
              RpcOutstanding(s')
  {
    var start, m := Taken(run, s, Next(e));
    var run';
    AcquireKeeps(s, e, op);
    if e.tag.OperationTag? {
      AcquiredIsRpc(run, s, e);
      run', s' := ToNext(start, start, m, e.tag.op);
    } else {
      run', s' := ToNext(start, start, m, op);
    }
    turn := run'[|run|..];
    AfterSuffix(run, s, run', s');
    assert run' == run + turn;
    forall i | 1 <= i < |turn| ensures InTurn(turn[i]) && turn[i] != ShutDown {
      assert turn[i] == run'[|run| + i];
    }
    assert turn[0] == start[|run|] == Next(e);
    hide Reaches;
  }

  /** What a schedule of gRPC and a producer leaves alone while it brings an event. */
  ghost predicate Untouched(s: State, s': State) {
    && s'.loop == s.loop && s'.shared.remoteQueue == s.shared.remoteQueue
    && s'.past.enqueued == s.past.enqueued && s'.past.ran == s.past.ran && s'.past.woken == s.past.woken
  }

  /** gRPC posts the completion of an outstanding RPC, if it has not yet, with whatever flag. */
  lemma BringCompletion(run: seq<Action>, s: State, ok: bool) returns (run': seq<Action>, s': State, e: Event)
    requires Reaches(run, s) && Up(s) && RpcOutstanding(s)
    ensures GoesOn(run, run') && Reaches(run', s') && Up(s') && Untouched(s, s')
    ensures e.tag.OperationTag? && CanReturn(s'.grpc, e) && (s.grpc.posted == map[] ==> e.ok == ok)
  {
    run', s' := run, s;
    if op :| op in s.grpc.posted {
      e := Event(OperationTag(op), s.grpc.posted[op]);
    } else {
      var op :| op in s.grpc.inFlight;
      run', s' := Quietly(run, run, s, Complete(op, ok));
      e := Event(OperationTag(op), ok);
    }
  }

  /** The wake-up that is on its way arrives. */
  lemma BringWakeUp(run: seq<Action>, s: State) returns (run': seq<Action>, s': State)
    requires Reaches(run, s) && Up(s) && Outstanding(s) == 1
    ensures GoesOn(run, run') && Reaches(run', s') && Up(s') && Untouched(s, s')
    ensures CanReturn(s'.grpc, Event(NullTag, true)) && (RpcOutstanding(s) ==> RpcOutstanding(s'))
    ensures s'.past.log == s.past.log
  {
    run', s' := run, s;
    hide Reaches;
    if s'.shared.owed != {} {
      var t :| t in s'.shared.owed;
      run', s' := Quietly(run, run', s', Signal(t));
    }
    if s'.grpc.alarms > 0 {
      run', s' := Quietly(run, run', s', AlarmFires);
    }
  }

  /** The operation has been executed at the end of this continuation. */
  ghost predicate RunsBy(s: State, more: seq<Action>, op: Op) {
    After(s, more).Some? && op in After(s, more).value.past.ran
  }

  /** Some continuation without ShutDown executes the operation. */
  ghost predicate CanRun(s: State, op: Op) {
    exists more :: WithoutShutDown(more) && RunsBy(s, more, op)
  }

  lemma CanRunLater(run: seq<Action>, s: State, more: seq<Action>, m: State, op: Op)
    requires Reaches(run, s) && After(s, more) == Some(m) && WithoutShutDown(more) && CanRun(m, op)
    ensures CanRun(s, op)
  {
    var rest :| WithoutShutDown(rest) && RunsBy(m, rest, op);
    AfterConcat(s, more, rest, m);
    assert RunsBy(s, more + rest, op);
  }

  lemma QueuedHasStage(run: seq<Action>, s: State, op: Op)
    requires Reaches(run, s) && op in s.past.enqueued && op !in s.past.ran
    ensures Stage(s, op) > 0
  {
    EnqueuedAreSubmissions(run, s, op);
    if Stage(s, op) == 0 {
      RanAtStageZero(run, s, op);
    }
  }

  lemma AlreadyRan(s: State, op: Op)
    requires op in s.past.ran
    ensures CanRun(s, op)
  {
    assert RunsBy(s, [], op);
  }

  /** Brings the event the operation needs next: the wake-up, or else a completion. */
  lemma BringNeeded(run: seq<Action>, s: State, op: Op) returns (run': seq<Action>, s': State, e: Event)
    requires Reaches(run, s) && Up(s) && s.loop.pc == AtNext
    requires RpcOutstanding(s) && Stage(s, op) > 0
    ensures GoesOn(run, run') && Reaches(run', s') && Up(s') && Untouched(s, s') && CanReturn(s'.grpc, e)
    ensures e.tag.OperationTag? || RpcOutstanding(s')
    ensures Stage(s, op) == 3 ==> e.tag == NullTag
  {
    if Stage(s, op) == 3 {
      WakeUpAccounting(run, s);
      run', s' := BringWakeUp(run, s);
      e := Event(NullTag, true);
    } else {
      run', s', e := BringCompletion(run, s, true);
    }
  }

  lemma Onwards(
      run: seq<Action>, s: State, run': seq<Action>, m: State, turn: seq<Action>, s': State, op: Op)
    requires Reaches(run, s) && GoesOn(run, run') && Reaches(run', m)
    requires TakesTurn(m, turn, s') && WithoutShutDown(turn) && CanRun(s', op)
    ensures CanRun(s, op)
  {
    AfterSuffix(run, s, run', m);
    hide Reaches;
    CanRunLater(run', m, turn, s', op);
    CanRunLater(run, s, run'[|run|..], m, op);
  }

  /** Turn by turn the operation comes nearer to its execution, and every turn leaves an RPC outstanding. */
  lemma {:induction false} OutstandingRpcSuffices(run: seq<Action>, s: State, op: Op)
    requires Reaches(run, s) && Up(s) && s.loop.pc == AtNext && RpcOutstanding(s) && op in s.past.enqueued
    ensures CanRun(s, op)
    decreases Stage(s, op)
  {
    if op in s.past.ran {
      AlreadyRan(s, op);
    } else {
      QueuedHasStage(run, s, op);
      var run', m, e := BringNeeded(run, s, op);
      assert Stage(m, op) == Stage(s, op);
      var turn, s' := TakeTurn(run', m, e, op);
      TurnLowersStage(run', m, turn, s', op);
      hide Stage, Reaches, TakesTurn, RpcOutstanding;
      OutstandingRpcSuffices(run' + turn, s', op);
      Onwards(run, s, run', m, turn, s', op);
    }
  }

  lemma LocalIsStageOne(run: seq<Action>, s: State, op: Op)
    requires Reaches(run, s) && op in s.loop.localQueue
    ensures Stage(s, op) == 1
  {
    OwnershipHolds(run, s);
    OneLink(s, op);
  }

  /** At start-up the first wake-up always comes, and everything that was moved runs in that turn. */
  lemma FirstWakeUpRuns(run: seq<Action>, s: State, op: Op, x: Op)
    requires Reaches(run, s) && Up(s) && s.loop.pc == AtNext && !s.past.woken
    requires op in s.past.enqueued && op !in s.past.ran
    requires x in s.loop.localQueue && (x == op || IsRpc(s, x))
    ensures CanRun(s, op)
  {
    WakeUpAccounting(run, s);
    var run', m := BringWakeUp(run, s);
    assert IsRpc(s, x) ==> IsRpc(m, x);
    var turn, s' := TakeTurn(run', m, Event(NullTag, true), x);
    QueuedHasStage(run', m, op);
    if x == op {
      LocalIsStageOne(run', m, op);
    }
    TurnLowersStage(run', m, turn, s', op);
    hide Reaches, TakesTurn, RpcOutstanding;
    if Stage(s', op) == 0 {
      RanAtStageZero(run' + turn, s', op);
      AlreadyRan(s', op);
    } else {
      OutstandingRpcSuffices(run' + turn, s', op);
    }
    Onwards(run, s, run', m, turn, s', op);
  }

  lemma NotAmongThem(s: State, s': State, op: Op, may: set<Op>)
    requires RunsAtMost(s, s', may) && op !in may && op !in s.past.ran
    ensures op !in s'.past.ran
  {
    forall i | 0 <= i < |s'.past.ran| ensures s'.past.ran[i] != op {
      assert i < |s.past.ran| ==> s'.past.ran[i] == s.past.ran[i];
    }
  }

  lemma DormantCannotRun(run: seq<Action>, s: State, op: Op, may: set<Op>)
    requires Reaches(run, s) && Dormant(s, may) && op !in may && op !in s.past.ran
    ensures !CanRun(s, op)
  {
    forall more | WithoutShutDown(more) ensures !RunsBy(s, more, op) {
      if After(s, more).Some? {
        var s' := After(s, more).value;
        DormantRuns(run, s, more, s', may);
        hide Dormant, Reaches;
        NotAmongThem(s, s', op, may);
      }
    }
  }

  /** With nothing outstanding, a loop blocked in Next is dormant once it has been woken. */
  lemma WokenIsDormant(run: seq<Action>, s: State)
    requires Reaches(run, s) && Up(s) && s.loop.pc == AtNext && s.past.woken && !RpcOutstanding(s)
    ensures Dormant(s, {})
  {
    LocalHolds(run, s);
    OwnershipHolds(run, s);
    forall x | InLoopQueues(s, x) && s.loop.readSubmitted
      ensures IsStop(s, x) && !RemoteEntry(s.past.log, x)
    {
      assert StoppedHere(LogOf(s.past.log, x));
      assert LogOf(s.past.log, x)[1] == StopRequested(false);
    }
  }

  lemma StopsOnlyIsDormant(run: seq<Action>, s: State)
    requires Reaches(run, s) && Up(s) && s.loop.pc == AtNext && !s.past.woken
    requires forall x :: x in s.loop.localQueue ==> IsStop(s, x)
    ensures Dormant(s, set x | x in s.loop.localQueue)
  {
    WakeUpAccounting(run, s);
  }

  lemma QueuedIsNoted(run: seq<Action>, s: State, op: Op)
    requires Reaches(run, s) && op in s.loop.localQueue
    ensures LogOf(s.past.log, op) != []
  {
    OwnershipHolds(run, s);
    assert Placed(s, op);
  }

  /**
    The exact condition for queued remote work to be possible. Once a wake-up has been
    consumed, some schedule executes an operation if and only if an RPC is outstanding.
    Before that the first wake-up is sure to come: an operation can be executed if and
    only if it was moved already, or an RPC to be issued in that turn was.
  */
  lemma RunsIff(run: seq<Action>, s: State, op: Op)
    requires Reaches(run, s) && s.loop.pc == AtNext && !s.fault && !s.grpc.shutDown
    requires op in s.past.enqueued && op !in s.past.ran
    ensures CanRun(s, op) <==>
              if s.past.woken then RpcOutstanding(s)
              else op in s.loop.localQueue || exists x :: x in s.loop.localQueue && !IsStop(s, x)
  {
    hide Dormant, Reaches, CanRun;
    if s.past.woken {
      if RpcOutstanding(s) {
        OutstandingRpcSuffices(run, s, op);
      } else {
        WokenIsDormant(run, s);
        DormantCannotRun(run, s, op, {});
      }
    } else if op in s.loop.localQueue {
      FirstWakeUpRuns(run, s, op, op);
    } else if x :| x in s.loop.localQueue && !IsStop(s, x) {
      QueuedIsNoted(run, s, x);
      FirstWakeUpRuns(run, s, op, x);
    } else {
      StopsOnlyIsDormant(run, s);
      DormantCannotRun(run, s, op, set x | x in s.loop.localQueue);
    }
  }
}
