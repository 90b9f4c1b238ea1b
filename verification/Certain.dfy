/**
  Which submitted work is certain to be executed. RunsIff says when some schedule executes
  an operation; here the question is when no schedule can lose it. The events may arrive
  in any order and receivers may start nothing, so one outstanding RPC is not enough for
  work that has to be moved first, and none is while the read flag is set.
*/
module Certain {
  import opened Options
  import opened Protocol
  import opened WakeUp
  import opened Ownership
  import opened Order
  import opened Safety
  import opened Progress
  import opened Turns
  import opened Work

  /** The RPCs of this context that gRPC holds or has posted. */
  ghost function RpcCount(s: State): nat {
    |s.grpc.inFlight| + |s.grpc.posted|
  }

  /** A remote submission of an RPC that was not executed yet. */
  predicate Scheduled(s: State, op: Op) {
    LogOf(s.past.log, op) == [StartedRemote]
  }

  // ---- sufficient: an invariant of every schedule ----

  /** An RPC is outstanding, or will be once the loop's own queues have been executed. */
  ghost predicate Promised(s: State) {
    RpcOutstanding(s) || exists x :: InLoopQueues(s, x) && Scheduled(s, x)
  }

  /** In Next: whichever event comes next, another RPC is outstanding after that turn. */
  ghost predicate Covered(s: State) {
    || RpcCount(s) >= 2
    || ((RpcOutstanding(s) || !s.past.woken) && exists x :: x in s.loop.localQueue && Scheduled(s, x))
  }

  /** Queued remotely, to be moved in this turn or the next one. */
  ghost predicate SureRemote(s: State, op: Op) {
    && op in Items(s.shared.remoteQueue) && !s.loop.readSubmitted
    && if s.loop.pc == AtNext then Covered(s) else Promised(s)
  }

  /** Moved already, to be executed in this turn or the next one. */
  ghost predicate SureLocal(s: State, op: Op) {
    || (s.loop.pc == AtNext && op in s.loop.localQueue && (RpcOutstanding(s) || !s.past.woken))
    || (s.loop.pc == LoopTop && op in s.loop.localQueue)
    || (s.loop.pc == Draining && op in s.loop.pending)
  }

  ghost predicate Sure(s: State, op: Op) {
    op in s.past.ran || (RemoteEntry(s.past.log, op) && (SureRemote(s, op) || SureLocal(s, op)))
  }

  predicate ByEnvironment(a: Action) {
    a.Enqueue? || a.EnqueueStop? || a.Signal? || a.AlarmFires? || a.Complete?
  }

  lemma CompleteKeepsCount(s: State, op: Op, ok: bool)
    requires op in s.grpc.inFlight && op !in s.grpc.posted
    ensures RpcCount(Post(s, op, ok)) == RpcCount(s)
  {
    var posted, posted' := s.grpc.posted, s.grpc.posted[op := ok];
    assert posted'.Keys == posted.Keys + {op};
    assert |posted'| == |posted'.Keys| && |posted| == |posted.Keys|;
  }

  /** What the environment's steps leave alone. */
  lemma EnvironmentFrame(s: State, a: Action)
    requires OwnershipInv(s) && Enabled(s, a) && ByEnvironment(a) && !Apply(s, a).fault
    ensures
      var s' := Apply(s, a);
      && s'.loop == s.loop && s'.past.ran == s.past.ran && s'.past.woken == s.past.woken
      && (forall x :: x in Items(s.shared.remoteQueue) ==> x in Items(s'.shared.remoteQueue))
      && RpcCount(s') == RpcCount(s) && (RpcOutstanding(s) ==> RpcOutstanding(s'))
  {
    if a.Complete? {
      assert Placed(s, a.op);
      CompleteKeepsCount(s, a.op, a.ok);
    }
    hide OwnershipInv, RemoteEntry;
  }

  lemma IsLinked(s: State, op: Op)
    requires InLoopQueues(s, op) || op in Items(s.shared.remoteQueue)
    ensures Links(s, op) > 0
  {
  }

  /** Whatever is in some queue and not executed by this step keeps its history. */
  lemma QueuedKeep(s: State, a: Action)
    requires OwnershipInv(s) && Enabled(s, a) && !a.RunItem?
    ensures forall x :: (InLoopQueues(s, x) || x in Items(s.shared.remoteQueue)) ==>
              LogOf(Apply(s, a).past.log, x) == LogOf(s.past.log, x)
  {
    forall x | InLoopQueues(s, x) || x in Items(s.shared.remoteQueue)
      ensures LogOf(Apply(s, a).past.log, x) == LogOf(s.past.log, x)
    {
      IsLinked(s, x);
      QueuedWaits(s, a, x);
    }
  }

  lemma KeptScheduled(s: State, s': State)
    requires forall x :: InLoopQueues(s, x) ==> LogOf(s'.past.log, x) == LogOf(s.past.log, x)
    ensures forall x :: InLoopQueues(s, x) && Scheduled(s, x) ==> Scheduled(s', x)
  {
  }

  lemma SureEnvironment(s: State, a: Action, op: Op)
    requires OwnershipInv(s) && Enabled(s, a) && ByEnvironment(a) && !Apply(s, a).fault && Sure(s, op)
    ensures Sure(Apply(s, a), op)
  {
    var s' := Apply(s, a);
    EnvironmentFrame(s, a);
    QueuedKeep(s, a);
    SameEntry(s.past.log, s'.past.log, op);
    hide OwnershipInv, Apply, RemoteEntry, RpcCount, RpcOutstanding, LogOf;
    KeptScheduled(s, s');
  }

  lemma ScheduledIssues(s: State)
    requires s.loop.pc == Draining && s.loop.pending != [] && Placed(s, s.loop.pending[0])
    requires Promised(s)
    ensures Promised(ExecuteFirst(s))
  {
    var first := s.loop.pending[0];
    FirstKeeps(s);
    FirstOutcome(s);
    ExecuteFrame(s);
    if !RpcOutstanding(s) {
      var x :| InLoopQueues(s, x) && Scheduled(s, x);
      if x == first {
        assert s.shared.execute[first] == OnScheduleComplete;
      } else {
        assert x in s.loop.pending ==> x in s.loop.pending[1..];
        assert InLoopQueues(ExecuteFirst(s), x) && Scheduled(ExecuteFirst(s), x);
      }
    }
    hide ExecuteFirst, RemoteEntry, Links;
  }

  lemma SureRunItem(s: State, op: Op)
    requires Enabled(s, RunItem) && Placed(s, s.loop.pending[0]) && Sure(s, op)
    ensures Sure(ExecuteFirst(s), op)
  {
    var first, s' := s.loop.pending[0], ExecuteFirst(s);
    FirstKeeps(s);
    ExecuteFrame(s);
    if op !in s'.past.ran {
      assert op != first;
      SameEntry(s.past.log, s'.past.log, op);
      if SureRemote(s, op) {
        ScheduledIssues(s);
      } else {
        assert op in s.loop.pending[1..];
      }
    }
    hide ExecuteFirst, RemoteEntry, Placed, Promised;
  }

  /** The loop's steps between two calls of Next that are not RunItem or CheckRemote. */
  predicate Inner(a: Action) {
    a.EnterRun? || a.BeginBatch? || a.ReceiverStarts? || a.ReceiverStops? || a.ReceiverReturns? || a.FinishBatch?
  }

  lemma InnerFrame(s: State, a: Action)
    requires LoopInv(s) && Enabled(s, a) && Inner(a)
    ensures
      var s' := Apply(s, a);
      && s.loop.pc != AtNext && s'.loop.pc != AtNext && s'.past.ran == s.past.ran
      && s'.shared.remoteQueue == s.shared.remoteQueue && s'.loop.readSubmitted == s.loop.readSubmitted
      && (forall x :: InLoopQueues(s, x) ==> InLoopQueues(s', x))
      && (RpcOutstanding(s) ==> RpcOutstanding(s'))
      && (forall x :: SureLocal(s, x) ==> SureLocal(s', x))
  {
    hide RemoteEntry;
  }

  lemma SureInner(s: State, a: Action, op: Op)
    requires OwnershipInv(s) && Enabled(s, a) && Inner(a) && Sure(s, op)
    ensures Sure(Apply(s, a), op)
  {
    var s' := Apply(s, a);
    InnerFrame(s, a);
    QueuedKeep(s, a);
    SameEntry(s.past.log, s'.past.log, op);
    KeptScheduled(s, s');
    assert SureLocal(s, op) ==> InLoopQueues(s, op);
    hide OwnershipInv, Apply, RemoteEntry, RpcOutstanding, LogOf, Scheduled, InLoopQueues;
  }

  /** Before the remote check the batch is done, so an RPC that was promised is outstanding. */
  lemma PromiseKept(s: State)
    requires LoopInv(s) && LocalInv(s) && s.loop.pc == RemoteCheck && Promised(s)
    ensures RpcOutstanding(s)
  {
    forall x | InLoopQueues(s, x) ensures !Scheduled(s, x) {
      assert StoppedHere(LogOf(s.past.log, x));
    }
  }

  lemma SureCheckRemote(s: State, op: Op)
    requires OwnershipInv(s) && LocalInv(s) && Enabled(s, CheckRemote) && Sure(s, op)
    ensures Sure(Apply(s, CheckRemote), op)
  {
    if op !in s.past.ran {
      PromiseKept(s);
    }
    hide OwnershipInv, LocalInv, RemoteEntry;
  }

  lemma AcquireLowersCount(s: State, e: Event)
    requires CanReturn(s.grpc, e) && e.tag.OperationTag?
    ensures RpcCount(Acquire(s, e)) == RpcCount(s) - 1
  {
    var posted, posted' := s.grpc.posted, s.grpc.posted - {e.tag.op};
    assert posted'.Keys == posted.Keys - {e.tag.op};
    assert |posted'| == |posted'.Keys| && |posted| == |posted.Keys|;
  }

  lemma CountedIsOutstanding(s: State)
    ensures RpcOutstanding(s) <==> RpcCount(s) > 0
  {
  }

  lemma CoveredThenPromised(s: State, e: Event)
    requires Enabled(s, Next(e)) && Covered(s) && WakeInv(s)
    ensures Promised(Acquire(s, e))
  {
    var s' := Acquire(s, e);
    if e.tag.OperationTag? {
      AcquireLowersCount(s, e);
    }
    CountedIsOutstanding(s);
    CountedIsOutstanding(s');
    if x :| x in s.loop.localQueue && Scheduled(s, x) {
      assert InLoopQueues(s', x) && Scheduled(s', x);
    }
    hide RpcCount, RpcOutstanding, WakeInv;
  }

  lemma SureNext(s: State, e: Event, op: Op)
    requires WakeInv(s) && Enabled(s, Next(e)) && Sure(s, op)
    ensures Sure(Acquire(s, e), op)
  {
    if SureRemote(s, op) {
      CoveredThenPromised(s, e);
    }
    SameEntry(s.past.log, Acquire(s, e).past.log, op);
    hide WakeInv, RemoteEntry, Covered, Promised;
  }

  lemma SureStep(s: State, a: Action, op: Op)
    requires WakeInv(s) && OwnershipInv(s) && LocalInv(s) && Up(s) && Enabled(s, a) && a != ShutDown && Sure(s, op)
    ensures Sure(Apply(s, a), op)
  {
    FaultStep(s, a);
    if ByEnvironment(a) {
      SureEnvironment(s, a, op);
    } else if Inner(a) {
      SureInner(s, a, op);
    } else {
      match a
      case RunItem =>
        assert Placed(s, s.loop.pending[0]);
        SureRunItem(s, op);
      case CheckRemote => SureCheckRemote(s, op);
      case Next(e) => SureNext(s, e, op);
      case NextDrained =>
    }
    hide WakeInv, OwnershipInv, LocalInv, Sure, ExecuteFirst, DequeueRemote, RemoteEntry;
  }

  lemma WokenStays(s: State, a: Action)
    requires Enabled(s, a) && s.past.woken
    ensures Apply(s, a).past.woken
  {
    hide RemoteEntry;
  }

  lemma UpStep(s: State, a: Action)
    requires WakeInv(s) && OwnershipInv(s) && Up(s) && Enabled(s, a) && a != ShutDown
    ensures Up(Apply(s, a)) && (s.past.woken ==> Apply(s, a).past.woken)
    ensures s.past.enqueued <= Apply(s, a).past.enqueued
  {
    FaultStep(s, a);
    StepHistory(s, a);
    ShutDownStep(s, a);
    if s.past.woken {
      WokenStays(s, a);
    }
    hide WakeInv, OwnershipInv, Apply, Enabled;
  }

  /** What a schedule without ShutDown keeps. */
  lemma {:induction false} StaysUp(run: seq<Action>, s: State, more: seq<Action>, s': State)
    requires Reaches(run, s) && Up(s) && WithoutShutDown(more) && After(s, more) == Some(s')
    ensures Reaches(run + more, s') && Up(s') && (s.past.woken ==> s'.past.woken)
    ensures s.past.enqueued <= s'.past.enqueued
  {
    AfterConcat(Initial(), run, more, s);
    if more != [] {
      var init, a := more[..|more| - 1], more[|more| - 1];
      var m := After(s, init).value;
      StaysUp(run, s, init, m);
      WakeUpAccounting(run + init, m);
      OwnershipHolds(run + init, m);
      hide Apply, Enabled, WakeInv, OwnershipInv;
      UpStep(m, a);
    }
  }

  lemma {:induction false} StaysSure(run: seq<Action>, s: State, more: seq<Action>, s': State, op: Op)
    requires Reaches(run, s) && Up(s) && Sure(s, op)
    requires WithoutShutDown(more) && After(s, more) == Some(s')
    ensures Sure(s', op)
  {
    if more != [] {
      var init, a := more[..|more| - 1], more[|more| - 1];
      var m := After(s, init).value;
      StaysSure(run, s, init, m, op);
      StaysUp(run, s, init, m);
      WakeUpAccounting(run + init, m);
      OwnershipHolds(run + init, m);
      LocalHolds(run + init, m);
      hide Apply, Enabled, WakeInv, OwnershipInv, LocalInv, Sure;
      SureStep(m, a, op);
    }
  }

  /** What waits in the local queue at Next is a stop or a submission that was just moved. */
  lemma AtNextScheduled(run: seq<Action>, s: State, x: Op)
    requires Reaches(run, s) && s.loop.pc == AtNext && x in s.loop.localQueue
    ensures Scheduled(s, x) <==> !IsStop(s, x)
  {
    OwnershipHolds(run, s);
    assert Placed(s, x);
    assert Links(s, x) > 0;
  }

  /** A submission that has not been executed is an entry of the local or the remote queue at Next. */
  lemma WaitingIsEntry(run: seq<Action>, s: State, op: Op)
    requires Reaches(run, s) && s.loop.pc == AtNext && op in s.past.enqueued && op !in s.past.ran
    ensures RemoteEntry(s.past.log, op)
    ensures op in s.loop.localQueue || op in Items(s.shared.remoteQueue)
  {
    OrderAndConservation(run, s);
    OwnershipHolds(run, s);
    var log := s.past.log;
    if op in Remotes(log, s.loop.localQueue) {
      RemotesAreItems(log, s.loop.localQueue, op);
    }
    hide RemoteEntry, OwnershipInv;
  }

  /** What a caller can look at: what is outstanding, the read flag and the local queue. */
  ghost predicate MustRun(s: State, op: Op) {
    if s.past.woken then
      && RpcOutstanding(s) && !s.loop.readSubmitted
      && (op in s.loop.localQueue || (exists x :: x in s.loop.localQueue && !IsStop(s, x)) || RpcCount(s) >= 2)
    else
      op in s.loop.localQueue || exists x :: x in s.loop.localQueue && !IsStop(s, x)
  }

  lemma MustRunIsSure(run: seq<Action>, s: State, op: Op)
    requires Reaches(run, s) && s.loop.pc == AtNext && op in s.past.enqueued && op !in s.past.ran
    requires MustRun(s, op)
    ensures Sure(s, op)
  {
    WaitingIsEntry(run, s, op);
    WakeUpAccounting(run, s);
    if x :| x in s.loop.localQueue && !IsStop(s, x) {
      AtNextScheduled(run, s, x);
    }
    hide RemoteEntry, Reaches, Scheduled, IsStop, RpcCount, Promised;
  }

  lemma SureCanRun(run: seq<Action>, s: State, op: Op)
    requires Reaches(run, s) && Up(s) && s.loop.pc == AtNext && op in s.past.enqueued && op !in s.past.ran
    requires Sure(s, op)
    ensures CanRun(s, op)
  {
    RunsIff(run, s, op);
    WakeUpAccounting(run, s);
    CountedIsOutstanding(s);
    if x :| x in s.loop.localQueue && Scheduled(s, x) {
      AtNextScheduled(run, s, x);
    }
    hide RemoteEntry, Reaches, Scheduled, IsStop, Promised, CanRun;
  }

  // ---- necessary: the schedule that loses the operation ----

  /** No step but its submission makes an RPC scheduled. */
  lemma NotScheduledStays(s: State, a: Action, op: Op)
    requires Enabled(s, a) && !a.Enqueue? && !Scheduled(s, op)
    ensures !Scheduled(Apply(s, a), op)
  {
    HistoryGrows(s, a, op);
    var h, notes := LogOf(s.past.log, op), NotesOf(s, a, op);
    assert h != [] ==> (h + notes)[0] == h[0] && |h + notes| == |h| + |notes|;
    assert h == [] ==> h + notes == notes;
    assert |h| == 1 && notes == [] ==> h == [h[0]];
    hide Apply;
  }

  /** A step of a schedule in which nothing is submitted. */
  lemma Silently(start: seq<Action>, run: seq<Action>, s: State, a: Action) returns (run': seq<Action>, s': State)
    requires GoesOn(start, run) && Reaches(run, s) && Up(s)
    requires Enabled(s, a) && InTurn(a) && a != ShutDown && !a.Enqueue?
    ensures run' == run + [a] && GoesOn(start, run') && Reaches(run', s') && s' == Apply(s, a) && Up(s')
    ensures forall x :: !Scheduled(s, x) ==> !Scheduled(s', x)
  {
    run', s' := Quietly(start, run, s, a);
    forall x | !Scheduled(s, x) ensures !Scheduled(s', x) {
      NotScheduledStays(s, a, x);
    }
    hide Reaches, Apply, Enabled;
  }

  /** Executing an item that is no scheduled RPC hands nothing to gRPC. */
  lemma NotIssued(run: seq<Action>, s: State)
    requires Reaches(run, s) && s.loop.pc == Draining && s.loop.pending != [] && !Scheduled(s, s.loop.pending[0])
    ensures ExecuteFirst(s).grpc == s.grpc
    ensures
      var l := ExecuteFirst(s).loop;
      l == s.loop.(pending := s.loop.pending[1..], pc := l.pc) && (l.pc == Draining || l.pc == InReceiver)
  {
    OwnershipHolds(run, s);
    assert Placed(s, s.loop.pending[0]);
    hide OwnershipInv, Reaches, RemoteEntry;
    FirstKeeps(s);
    assert Links(s, s.loop.pending[0]) > 0;
  }

  /** Executes the first item of the batch; a receiver that is resumed returns at once. */
  lemma SilentFirst(start: seq<Action>, run: seq<Action>, s: State) returns (run': seq<Action>, s': State)
    requires GoesOn(start, run) && Reaches(run, s) && Up(s) && s.loop.pc == Draining && s.loop.pending != []
    requires !Scheduled(s, s.loop.pending[0])
    ensures GoesOn(start, run') && Reaches(run', s') && Up(s') && s'.grpc == s.grpc
    ensures s'.loop == s.loop.(pending := s.loop.pending[1..])
    ensures forall x :: !Scheduled(s, x) ==> !Scheduled(s', x)
  {
    NotIssued(run, s);
    hide Reaches, ExecuteFirst, Scheduled;
    run', s' := Silently(start, run, s, RunItem);
    if s'.loop.pc == InReceiver {
      run', s' := Silently(start, run', s', ReceiverReturns);
    }
  }

  lemma {:induction false} SilentDrain(start: seq<Action>, run: seq<Action>, s: State)
      returns (run': seq<Action>, s': State)
    requires GoesOn(start, run) && Reaches(run, s) && Up(s) && s.loop.pc == Draining
    requires forall x :: x in s.loop.pending ==> !Scheduled(s, x)
    ensures GoesOn(start, run') && Reaches(run', s') && Up(s') && s'.grpc == s.grpc
    ensures s'.loop == s.loop.(pending := [])
    decreases |s.loop.pending|
  {
    run', s' := run, s;
    if s.loop.pending != [] {
      hide Reaches, Scheduled;
      run', s' := SilentFirst(start, run, s);
      run', s' := SilentDrain(start, run', s');
    }
  }

  /** From the top of the loop to Next, without any new RPC. */
  lemma SilentToNext(start: seq<Action>, run: seq<Action>, s: State) returns (run': seq<Action>, s': State)
    requires GoesOn(start, run) && Reaches(run, s) && Up(s) && s.loop.pc == LoopTop
    requires forall x :: x in s.loop.localQueue ==> !Scheduled(s, x)
    ensures GoesOn(start, run') && Reaches(run', s') && Up(s') && s'.loop.pc == AtNext && s'.grpc == s.grpc
    ensures s.loop.readSubmitted ==> s'.loop.readSubmitted
  {
    hide Reaches, Scheduled;
    run', s' := Silently(start, run, s, BeginBatch);
    run', s' := SilentDrain(start, run', s');
    if s'.loop.stopOp in s'.shared.shouldStop {
      run', s' := RunAgain(start, run', s');
    } else {
      run', s' := Silently(start, run', s', FinishBatch);
    }
    run', s' := Silently(start, run', s', CheckRemote);
  }

  lemma AcquiredIsNotScheduled(run: seq<Action>, s: State, e: Event)
    requires Reaches(run, s) && Enabled(s, Next(e)) && e.tag.OperationTag?
    ensures !Scheduled(s, e.tag.op)
  {
    OwnershipHolds(run, s);
    assert Placed(s, e.tag.op);
  }

  /** One turn in which a completion is consumed and nothing is started. */
  lemma SilentTurn(run: seq<Action>, s: State, e: Event) returns (turn: seq<Action>, s': State)
    requires Reaches(run, s) && Up(s) && s.loop.pc == AtNext && CanReturn(s.grpc, e) && e.tag.OperationTag?
    requires forall x :: x in s.loop.localQueue ==> !Scheduled(s, x)
    ensures TakesTurn(s, turn, s') && turn[0] == Next(e) && WithoutShutDown(turn)
    ensures Reaches(run + turn, s') && Up(s') && RpcCount(s') == RpcCount(s) - 1
    ensures s.loop.readSubmitted ==> s'.loop.readSubmitted
  {
    var start, m := Taken(run, s, Next(e));
    AcquireKeeps(s, e, 0);
    AcquiredIsNotScheduled(run, s, e);
    AcquireLowersCount(s, e);
    var run';
    run', s' := SilentToNext(start, start, m);
    turn := run'[|run|..];
    AfterSuffix(run, s, run', s');
    assert run' == run + turn;
    forall i | 1 <= i < |turn| ensures InTurn(turn[i]) && turn[i] != ShutDown {
      assert turn[i] == run'[|run| + i];
    }
    assert turn[0] == start[|run|] == Next(e);
    hide Reaches, Scheduled;
  }

  lemma TwoParts(a: seq<Op>, b: seq<Op>, op: Op)
    requires multiset(a + b)[op] <= 1 && op in b
    ensures op !in a
  {
    assert multiset(a + b) == multiset(a) + multiset(b);
  }

  lemma {:induction false} EntriesCount(log: map<Op, seq<Note>>, items: seq<Op>, op: Op)
    requires op in items && RemoteEntry(log, op)
    ensures op in Remotes(log, items)
  {
    RemotesFirst(log, items);
    if items[0] != op {
      EntriesCount(log, items[1..], op);
    }
    hide RemoteEntry, Remotes;
  }

  lemma QueuedEntry(s: State, op: Op)
    requires OwnershipInv(s) && s.loop.pc == AtNext && Stage(s, op) > 0
    requires SubmittedRemotely(LogOf(s.past.log, op))
    ensures RemoteEntry(s.past.log, op) && op !in s.loop.pending
  {
    assert Placed(s, op);
    assert Links(s, op) > 0;
  }

  /** A submission that is still queued at Next has not been executed. */
  lemma QueuedNotRan(run: seq<Action>, s: State, op: Op)
    requires Reaches(run, s) && s.loop.pc == AtNext && op in s.past.enqueued && Stage(s, op) > 0
    ensures op !in s.past.ran
  {
    OrderAndConservation(run, s);
    EnqueuedAreSubmissions(run, s, op);
    OwnershipHolds(run, s);
    QueuedEntry(s, op);
    var log := s.past.log;
    if op in s.loop.localQueue {
      EntriesCount(log, s.loop.localQueue, op);
    }
    hide RemoteEntry, OwnershipInv, Remotes, Reaches;
    var rest := Remotes(log, s.loop.pending) + Remotes(log, s.loop.localQueue) + Items(s.shared.remoteQueue);
    Append4(s.past.ran, Remotes(log, s.loop.pending), Remotes(log, s.loop.localQueue), Items(s.shared.remoteQueue));
    TwoParts(s.past.ran, rest, op);
  }

  /** gRPC posts a completion, if none is there; nothing becomes scheduled. */
  lemma BringSilently(run: seq<Action>, s: State) returns (run': seq<Action>, s': State, e: Event)
    requires Reaches(run, s) && Up(s) && RpcOutstanding(s)
    ensures GoesOn(run, run') && Reaches(run', s') && Up(s') && Untouched(s, s')
    ensures e.tag.OperationTag? && CanReturn(s'.grpc, e) && RpcCount(s') == RpcCount(s)
    ensures forall x :: !Scheduled(s, x) ==> !Scheduled(s', x)
  {
    run', s' := run, s;
    hide Reaches, Scheduled;
    if op :| op in s.grpc.posted {
      e := Event(OperationTag(op), s.grpc.posted[op]);
    } else {
      var op :| op in s.grpc.inFlight;
      CompleteKeepsCount(s, op, true);
      run', s' := Silently(run, run, s, Complete(op, true));
      e := Event(OperationTag(op), true);
    }
  }

  /** The operation cannot run in the next turn, and nothing queued locally will start an RPC. */
  ghost predicate Losable(s: State, op: Op) {
    && (RpcOutstanding(s) ==> op in Items(s.shared.remoteQueue) && (s.loop.readSubmitted || RpcCount(s) == 1))
    && (RpcOutstanding(s) ==> forall x :: x in s.loop.localQueue ==> !Scheduled(s, x))
  }

  lemma LosingTurn(run: seq<Action>, s: State, op: Op) returns (more: seq<Action>, s': State)
    requires Reaches(run, s) && Up(s) && s.loop.pc == AtNext && op in s.past.enqueued
    requires Losable(s, op) && RpcOutstanding(s)
    ensures WithoutShutDown(more) && After(s, more) == Some(s') && s'.loop.pc == AtNext && Stage(s', op) > 0
    ensures RpcCount(s') < RpcCount(s)
    ensures s.loop.readSubmitted ==> s'.loop.readSubmitted
  {
    var run', m, e := BringSilently(run, s);
    var turn;
    turn, s' := SilentTurn(run', m, e);
    TurnLowersStage(run', m, turn, s', op);
    AfterSuffix(run, s, run', m);
    more := run'[|run|..] + turn;
    AfterConcat(s, run'[|run|..], turn, m);
    hide Reaches, RpcCount, Scheduled;
  }

  /** While the read flag is set at Next, only a receiver's stop is queued locally. */
  lemma SetFlagLocal(run: seq<Action>, s: State, op: Op)
    requires Reaches(run, s) && s.loop.pc == AtNext && s.loop.readSubmitted
    ensures forall x :: x in s.loop.localQueue ==> !Scheduled(s, x)
    ensures op in s.past.enqueued && Stage(s, op) > 0 ==> op in Items(s.shared.remoteQueue)
  {
    LocalHolds(run, s);
    if op in s.past.enqueued && Stage(s, op) > 0 {
      OwnershipHolds(run, s);
      EnqueuedAreSubmissions(run, s, op);
      QueuedEntry(s, op);
      var h := LogOf(s.past.log, op);
      assert op in s.loop.localQueue ==> StoppedHere(h);
      assert h[0] == StartedRemote || h[1] == StopRequested(true);
    }
    hide Reaches, OwnershipInv;
  }

  lemma StillLosable(run: seq<Action>, s: State, m: State, op: Op)
    requires Reaches(run, m) && m.loop.pc == AtNext && Losable(s, op) && RpcOutstanding(s)
    requires op in m.past.enqueued && Stage(m, op) > 0
    requires RpcCount(m) < RpcCount(s) && (s.loop.readSubmitted ==> m.loop.readSubmitted)
    ensures Losable(m, op)
  {
    CountedIsOutstanding(m);
    if m.loop.readSubmitted {
      SetFlagLocal(run, m, op);
    }
    hide Reaches, RpcCount, Scheduled, RpcOutstanding;
  }

  /** Turn by turn the outstanding RPCs finish while the operation stays where it cannot run. */
  lemma {:induction false} Losing(run: seq<Action>, s: State, op: Op) returns (more: seq<Action>, s': State)
    requires Reaches(run, s) && Up(s) && s.loop.pc == AtNext && op in s.past.enqueued && op !in s.past.ran
    requires Losable(s, op)
    ensures WithoutShutDown(more) && After(s, more) == Some(s') && s'.loop.pc == AtNext
    ensures op !in s'.past.ran && !RpcOutstanding(s')
    decreases RpcCount(s)
  {
    if !RpcOutstanding(s) {
      more, s' := [], s;
    } else {
      var turn, m := LosingTurn(run, s, op);
      StaysUp(run, s, turn, m);
      QueuedNotRan(run + turn, m, op);
      StillLosable(run + turn, s, m, op);
      hide Reaches, Losable, RpcOutstanding, Stage, RpcCount;
      var rest;
      rest, s' := Losing(run + turn, m, op);
      AfterConcat(s, turn, rest, m);
      more := turn + rest;
    }
  }

  // ---- the exact condition ----

  /** Blocked in Next after this continuation, with the operation still waiting. */
  ghost predicate StillWaits(s: State, more: seq<Action>, op: Op) {
    After(s, more).Some? && After(s, more).value.loop.pc == AtNext && op !in After(s, more).value.past.ran
  }

  /** No schedule without ShutDown takes the loop to a Next from which the operation cannot run any more. */
  ghost predicate NeverLost(s: State, op: Op) {
    forall more :: WithoutShutDown(more) && StillWaits(s, more, op) ==> CanRun(After(s, more).value, op)
  }

  lemma MustRunNeverLost(run: seq<Action>, s: State, op: Op)
    requires Reaches(run, s) && Up(s) && s.loop.pc == AtNext && op in s.past.enqueued && op !in s.past.ran
    requires MustRun(s, op)
    ensures NeverLost(s, op)
  {
    MustRunIsSure(run, s, op);
    hide Reaches, Sure, MustRun, CanRun;
    forall more | WithoutShutDown(more) && StillWaits(s, more, op) ensures CanRun(After(s, more).value, op) {
      var s' := After(s, more).value;
      StaysUp(run, s, more, s');
      StaysSure(run, s, more, s', op);
      SureCanRun(run + more, s', op);
    }
  }

  lemma IsLosable(run: seq<Action>, s: State, op: Op)
    requires Reaches(run, s) && s.loop.pc == AtNext && s.past.woken && op in s.past.enqueued && op !in s.past.ran
    requires !MustRun(s, op)
    ensures Losable(s, op)
  {
    WaitingIsEntry(run, s, op);
    QueuedHasStage(run, s, op);
    CountedIsOutstanding(s);
    if s.loop.readSubmitted {
      SetFlagLocal(run, s, op);
    } else {
      forall x | x in s.loop.localQueue && IsStop(s, x) ensures !Scheduled(s, x) {
        AtNextScheduled(run, s, x);
      }
    }
    hide Reaches, RpcCount, Scheduled, RpcOutstanding, IsStop, RemoteEntry, Stage;
  }

  lemma CanBeLost(run: seq<Action>, s: State, op: Op)
    requires Reaches(run, s) && Up(s) && s.loop.pc == AtNext && op in s.past.enqueued && op !in s.past.ran
    requires !MustRun(s, op)
    ensures !NeverLost(s, op)
  {
    hide Reaches, CanRun, RpcOutstanding;
    if s.past.woken {
      IsLosable(run, s, op);
      hide MustRun, Losable;
      var more, s' := Losing(run, s, op);
      StaysUp(run, s, more, s');
      RunsIff(run + more, s', op);
      assert StillWaits(s, more, op);
    } else {
      RunsIff(run, s, op);
      assert StillWaits(s, [], op);
    }
  }

  /**
    The exact condition for work that is certain. However the events are ordered and
    whatever receivers do, a queued submission is never lost if and only if an RPC of the
    context is outstanding, the read flag is clear, and either the operation was moved
    already, or another RPC was, or a second one is outstanding. In particular nothing is
    certain that waits for its wake-up, although it may be possible (RunsIff). Before the
    first wake-up is consumed, what is possible is certain.
  */
  lemma CertainIff(run: seq<Action>, s: State, op: Op)
    requires Reaches(run, s) && s.loop.pc == AtNext && !s.fault && !s.grpc.shutDown
    requires op in s.past.enqueued && op !in s.past.ran
    ensures NeverLost(s, op) <==>
              if s.past.woken then
                && RpcOutstanding(s) && !s.loop.readSubmitted
                && (op in s.loop.localQueue || (exists x :: x in s.loop.localQueue && !IsStop(s, x))
                    || RpcCount(s) >= 2)
              else op in s.loop.localQueue || exists x :: x in s.loop.localQueue && !IsStop(s, x)
  {
    hide Reaches, NeverLost;
    if MustRun(s, op) {
      MustRunNeverLost(run, s, op);
    } else {
      CanBeLost(run, s, op);
    }
  }

  lemma RanGrows(s: State, a: Action)
    requires Enabled(s, a)
    ensures s.past.ran <= Apply(s, a).past.ran
  {
    hide RemoteEntry;
  }

  lemma {:induction false} RanStays(s: State, more: seq<Action>, s': State)
    requires After(s, more) == Some(s')
    ensures s.past.ran <= s'.past.ran
  {
    if more != [] {
      var m := After(s, more[..|more| - 1]).value;
      RanStays(s, more[..|more| - 1], m);
      hide Enabled, Apply;
      RanGrows(m, more[|more| - 1]);
    }
  }

  /** Then it does not take long either: after two turns, whatever their events, the operation has run. */
  lemma {:induction false} RunsWithinTwoTurns(
      run: seq<Action>, s: State, first: seq<Action>, m: State, second: seq<Action>, s': State, op: Op)
    requires Reaches(run, s) && op in s.past.enqueued && op !in s.past.ran && !s.loop.readSubmitted
    requires TakesTurn(s, first, m) && TakesTurn(m, second, s')
    ensures op in s'.past.ran
  {
    QueuedHasStage(run, s, op);
    assert Stage(s, op) <= 2;
    TurnLowersStage(run, s, first, m, op);
    RanStays(m, second, s');
    hide Reaches, After, Stage, Submitted;
    if Stage(m, op) > 0 {
      TurnLowersStage(run + first, m, second, s', op);
      RanAtStageZero(run + first + second, s', op);
    } else {
      RanAtStageZero(run + first, m, op);
    }
  }
}
