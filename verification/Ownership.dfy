/**
  Where every operation is, over its whole life: its single next_ link is in at
  most one list, its execute_ function fits what has happened to it, and the flag a
  completion handler reads is the one gRPC posted with that operation.
*/
module Ownership {
  import opened Options
  import opened Protocol

  /** How often the operation is linked into one of the three intrusive queues. */
  ghost function Links(s: State, op: Op): nat {
    multiset(Items(s.shared.remoteQueue))[op] + multiset(s.loop.localQueue)[op] + multiset(s.loop.pending)[op]
  }

  /** Everything the context and gRPC hold about one operation. */
  datatype View = View(
    history: seq<Note>,
    links: nat,
    inFlight: bool,
    posted: Option<bool>,
    execute: Option<Callback>,
    stopped: bool)

  ghost function ViewOf(s: State, op: Op): View {
    View(LogOf(s.past.log, op),
         Links(s, op),
         op in s.grpc.inFlight,
         if op in s.grpc.posted then Some(s.grpc.posted[op]) else None,
         if op in s.shared.execute then Some(s.shared.execute[op]) else None,
         op in s.shared.shouldStop)
  }

  /** The completion just acquired: last in the batch to come, and described by event_. */
  ghost predicate Current(s: State, op: Op) {
    && s.loop.event.tag == OperationTag(op)
    && LogOf(s.past.log, op) != []
    && LogOf(s.past.log, op)[|LogOf(s.past.log, op)| - 1] == Posted(s.loop.event.ok)
    && ((s.loop.pc == LoopTop && s.loop.localQueue != [] && s.loop.localQueue[|s.loop.localQueue| - 1] == op)
        || (s.loop.pc == Draining && s.loop.pending != [] && s.loop.pending[|s.loop.pending| - 1] == op))
  }

  /** An RPC operation: its history so far, and the one place it is in because of it. */
  ghost predicate RpcFits(v: View, current: bool) {
    var h := v.history;
    && |h| > 0 && !v.stopped
    && (h[0] == StartedRemote || h[0] == StartedLocal)
    && (|h| == 1 ==> h[0] == StartedRemote && v == View(h, 1, false, None, Some(OnScheduleComplete), false))
    && (|h| > 1 ==> h[1] == Issued && v.execute == Some(OnRequestComplete))
    && (|h| == 2 ==> v.links == 0 && v.inFlight && v.posted == None)
    && (|h| > 2 ==> h[2].Posted? && !v.inFlight)
    && (|h| == 3 ==> if v.posted.Some? then v.links == 0 && v.posted == Some(h[2].ok)
                     else v.links == 1 && current)
    && (|h| > 3 ==> |h| == 4 && h[3] == Delivered(h[2].ok) && v.links == 0 && v.posted == None)
  }

  /** A StopOperation: created by Run, requested at most once, run at most once. */
  ghost predicate StopFits(v: View) {
    var h := v.history;
    && |h| > 0 && h[0] == StopCreated
    && !v.inFlight && v.posted == None && v.execute == Some(SetShouldStop)
    && v.links == (if |h| == 2 then 1 else 0)
    && (|h| > 1 ==> h[1].StopRequested?)
    && (|h| > 2 ==> |h| == 3 && h[2] == Stopped)
    && (v.stopped <==> |h| == 3)
  }

  ghost predicate FreshFits(v: View) {
    v.history == [] && v.links == 0 && !v.inFlight && v.posted == None && !v.stopped
  }

  ghost predicate Fits(v: View, current: bool) {
    FreshFits(v) || RpcFits(v, current) || StopFits(v)
  }

  ghost predicate Placed(s: State, op: Op) {
    Fits(ViewOf(s, op), Current(s, op))
  }

  /** The loop thread's own part of the invariant. */
  ghost predicate LoopInv(s: State) {
    && (s.loop.pending != [] ==> s.loop.pc == Draining)
    && (s.loop.pc == Draining || s.loop.pc == InReceiver ==>
          s.loop.localQueue == [] || s.loop.localQueue == [s.loop.stopOp])
    && (s.loop.pc != Idle ==>
          |LogOf(s.past.log, s.loop.stopOp)| > 0 && LogOf(s.past.log, s.loop.stopOp)[0] == StopCreated)
    && (s.loop.stopOp in s.shared.shouldStop ==> s.loop.pc in {Idle, Draining, InReceiver})
  }

  ghost predicate OwnershipInv(s: State) {
    && (forall op: Op :: Placed(s, op))
    && LoopInv(s)
  }

  // ---- preservation, one action at a time ----

  lemma Frame(s: State, s': State, op: Op)
    requires Placed(s, op)
    requires ViewOf(s', op) == ViewOf(s, op) && (Current(s, op) ==> Current(s', op))
    ensures Placed(s', op)
  {
  }

  lemma EnqueueView(s: State, t: Thread, op: Op, callback: Callback, note: Note, other: Op)
    ensures
      var v := ViewOf(s, other);
      ViewOf(EnqueueRemote(s, t, op, callback, note), other) ==
      if other == op then v.(links := v.links + 1, history := v.history + [note], execute := Some(callback)) else v
  {
    assert multiset(Items(s.shared.remoteQueue) + [op]) == multiset(Items(s.shared.remoteQueue)) + multiset{op};
  }

  lemma EnqueueKeeps(s: State, t: Thread, op: Op, callback: Callback, note: Note, other: Op)
    requires Placed(s, other)
    requires (Fresh(s, op) && callback == OnScheduleComplete && note == StartedRemote)
          || (LogOf(s.past.log, op) == [StopCreated] && callback == SetShouldStop && note == StopRequested(true))
    ensures Placed(EnqueueRemote(s, t, op, callback, note), other)
  {
    EnqueueView(s, t, op, callback, note, other);
    if other != op {
      assert Current(s, other) ==> Current(EnqueueRemote(s, t, op, callback, note), other);
      hide Links, EnqueueRemote, Current;
    } else {
      assert ViewOf(s, op).history == LogOf(s.past.log, op);
      hide Links, EnqueueRemote, Current;
    }
  }

  lemma PopLinks(s: State, op: Op)
    requires s.loop.pending != []
    ensures Links(s, op) == Links(Pop(s), op) + (if op == s.loop.pending[0] then 1 else 0)
  {
    assert s.loop.pending == [s.loop.pending[0]] + s.loop.pending[1..];
    assert multiset(s.loop.pending) == multiset{s.loop.pending[0]} + multiset(s.loop.pending[1..]);
  }

  /** A completion is executed alone at the end of its batch. */
  lemma CompletionIsLast(s: State, op: Op)
    requires s.loop.pc == Draining && s.loop.pending != [] && s.loop.pending[0] == op
    requires Links(s, op) == 1 && Current(s, op)
    ensures s.loop.pending == [op]
  {
    PopLinks(s, op);
  }

  lemma PopView(s: State, op: Op)
    requires s.loop.pending != []
    ensures ViewOf(s, op) ==
              ViewOf(Pop(s), op).(links := ViewOf(Pop(s), op).links + if op == s.loop.pending[0] then 1 else 0)
  {
    PopLinks(s, op);
  }

  /** What the three callbacks do to their own operation, and that they touch no other. */
  lemma CallbackView(s: State, op: Op, other: Op)
    ensures
      var v := ViewOf(s, op);
      && ViewOf(Issue(s, op), op) ==
           v.(history := v.history + [Issued], inFlight := true, execute := Some(OnRequestComplete))
      && ViewOf(Deliver(s, op), op) == v.(history := v.history + [Delivered(s.loop.event.ok)])
      && ViewOf(Stop(s, op), op) == v.(history := v.history + [Stopped], stopped := true)
    ensures other != op ==>
              && ViewOf(Issue(s, op), other) == ViewOf(s, other)
              && ViewOf(Deliver(s, op), other) == ViewOf(s, other)
              && ViewOf(Stop(s, op), other) == ViewOf(s, other)
  {
  }

  /** A linked operation still fits after its callback has run, whichever it is. */
  lemma CallbackFits(v: View, current: bool, ok: bool)
    requires Fits(v, current) && v.links > 0
    requires current ==> v.history != [] && v.history[|v.history| - 1] == Posted(ok)
    ensures v.links == 1 && v.execute.Some?
    ensures
      match v.execute.value
      case OnScheduleComplete =>
        Fits(v.(links := 0, history := v.history + [Issued], inFlight := true, execute := Some(OnRequestComplete)),
             false)
      case OnRequestComplete => current && Fits(v.(links := 0, history := v.history + [Delivered(ok)]), false)
      case SetShouldStop => Fits(v.(links := 0, history := v.history + [Stopped], stopped := true), false)
  {
  }

  lemma NotCurrent(s: State, op: Op)
    requires s.loop.pending != [] && s.loop.pending[0] == op && op in s.shared.execute && Links(s, op) == 1
    requires s.loop.pc == Draining
    ensures !Current(ExecuteFirst(s), op)
  {
    PopLinks(s, op);
  }

  lemma FirstKeeps(s: State)
    requires s.loop.pc == Draining && s.loop.pending != [] && Placed(s, s.loop.pending[0])
    ensures s.loop.pending[0] in s.shared.execute
    ensures Placed(ExecuteFirst(s), s.loop.pending[0])
    ensures s.shared.execute[s.loop.pending[0]] == OnRequestComplete ==>
              Current(s, s.loop.pending[0]) && s.loop.pending == [s.loop.pending[0]]
  {
    var op := s.loop.pending[0];
    var v := ViewOf(s, op);
    assert v.links >= 1;
    CallbackFits(v, Current(s, op), s.loop.event.ok);
    NotCurrent(s, op);
    PopView(s, op);
    CallbackView(Pop(s), op, op);
    if s.shared.execute[op] == OnRequestComplete {
      CompletionIsLast(s, op);
    }
    hide Fits, Current, Links, Issue, Deliver, Stop;
  }

  lemma OtherView(s: State, op: Op)
    requires s.loop.pending != [] && s.loop.pending[0] in s.shared.execute && op != s.loop.pending[0]
    ensures ViewOf(ExecuteFirst(s), op) == ViewOf(s, op)
  {
    PopView(s, op);
    CallbackView(Pop(s), s.loop.pending[0], op);
    hide ViewOf, Issue, Deliver, Stop, Pop;
  }

  lemma {:induction false} ExecuteKeeps(s: State, op: Op)
    requires s.loop.pc == Draining && s.loop.pending != [] && Placed(s, s.loop.pending[0]) && Placed(s, op)
    ensures Placed(ExecuteFirst(s), op)
  {
    FirstKeeps(s);
    var first := s.loop.pending[0];
    if op != first {
      OtherView(s, op);
      if Current(s, op) {
        assert s.shared.execute[first] != OnRequestComplete;
        assert s.loop.pending[1..][|s.loop.pending| - 2] == op;
        assert Current(ExecuteFirst(s), op);
      }
      hide ExecuteFirst, ViewOf, Current;
      Frame(s, ExecuteFirst(s), op);
    }
  }

  lemma NextOther(s: State, e: Event, op: Op)
    requires CanReturn(s.grpc, e) && e.tag != OperationTag(op)
    ensures ViewOf(Acquire(s, e), op) == ViewOf(s, op)
  {
    if e.tag.OperationTag? {
      assert multiset(s.loop.localQueue + [e.tag.op]) == multiset(s.loop.localQueue) + multiset{e.tag.op};
    }
  }

  lemma NextKeeps(s: State, e: Event, op: Op)
    requires s.loop.pc == AtNext && CanReturn(s.grpc, e) && Placed(s, op)
    ensures Placed(Acquire(s, e), op)
  {
    var s' := Acquire(s, e);
    if e.tag == OperationTag(op) {
      assert multiset(s.loop.localQueue + [op]) == multiset(s.loop.localQueue) + multiset{op};
      assert ViewOf(s', op) == ViewOf(s, op).(links := ViewOf(s, op).links + 1, posted := None);
      assert Current(s', op);
    } else {
      NextOther(s, e, op);
      Frame(s, s', op);
    }
  }

  lemma CheckRemoteView(s: State, op: Op)
    requires Enabled(s, CheckRemote)
    ensures ViewOf(Apply(s, CheckRemote), op) == ViewOf(s, op)
  {
    var items := Items(s.shared.remoteQueue);
    assert multiset(s.loop.localQueue + items) == multiset(s.loop.localQueue) + multiset(items);
  }

  lemma CheckRemoteKeeps(s: State, op: Op)
    requires Enabled(s, CheckRemote) && Placed(s, op)
    ensures Placed(Apply(s, CheckRemote), op)
  {
    CheckRemoteView(s, op);
    assert !Current(s, op);
    hide ViewOf;
    Frame(s, Apply(s, CheckRemote), op);
  }

  lemma BatchKeeps(s: State, op: Op)
    requires Enabled(s, BeginBatch) && Placed(s, op) && s.loop.pending == []
    ensures Placed(Apply(s, BeginBatch), op)
  {
    Frame(s, Apply(s, BeginBatch), op);
  }

  lemma ReceiverStopsKeeps(s: State, op: Op)
    requires Enabled(s, ReceiverStops) && Placed(s, op) && Placed(s, s.loop.stopOp)
    ensures Placed(Apply(s, ReceiverStops), op)
  {
    var s' := Apply(s, ReceiverStops);
    assert multiset(s.loop.localQueue + [s.loop.stopOp]) == multiset(s.loop.localQueue) + multiset{s.loop.stopOp};
    if op == s.loop.stopOp {
      assert ViewOf(s', op).links == ViewOf(s, op).links + 1;
    } else {
      Frame(s, s', op);
    }
  }

  lemma ReceiverStartsKeeps(s: State, started: Op, op: Op)
    requires Enabled(s, ReceiverStarts(started)) && Placed(s, op) && Placed(s, started)
    ensures Placed(Apply(s, ReceiverStarts(started)), op)
  {
    if op != started {
      Frame(s, Apply(s, ReceiverStarts(started)), op);
    }
  }

  lemma CompleteKeeps(s: State, done: Op, ok: bool, op: Op)
    requires done in s.grpc.inFlight && Placed(s, op) && Placed(s, done)
    ensures Placed(Post(s, done, ok), op)
  {
    if op != done {
      Frame(s, Post(s, done, ok), op);
    }
  }

  lemma EnterKeeps(s: State, stopOp: Op, op: Op)
    requires Enabled(s, EnterRun(stopOp)) && Placed(s, op) && Placed(s, stopOp)
    ensures Placed(Apply(s, EnterRun(stopOp)), op)
  {
    if op != stopOp {
      Frame(s, Apply(s, EnterRun(stopOp)), op);
    }
  }

  lemma RestKeeps(s: State, a: Action, op: Op)
    requires Enabled(s, a) && Placed(s, op)
    requires a.Signal? || a.AlarmFires? || a.ShutDown? || a.ReceiverReturns? || a.FinishBatch? || a.NextDrained?
    requires s.loop.pc == InReceiver ==> s.loop.pending == []
    ensures Placed(Apply(s, a), op)
  {
    Frame(s, Apply(s, a), op);
  }

  lemma PlacedKeeps(s: State, a: Action, op: Op)
    requires OwnershipInv(s) && Enabled(s, a)
    ensures Placed(Apply(s, a), op)
  {
    assert Placed(s, op);
    hide Placed;
    match a
    case Enqueue(t, o) =>
      EnqueueKeeps(s, t, o, OnScheduleComplete, StartedRemote, op);
    case EnqueueStop(t) =>
      EnqueueKeeps(s, t, s.loop.stopOp, SetShouldStop, StopRequested(true), op);
    case Complete(o, ok) =>
      assert Placed(s, o);
      CompleteKeeps(s, o, ok, op);
    case EnterRun(o) =>
      assert Placed(s, o);
      EnterKeeps(s, o, op);
    case RunItem =>
      assert Placed(s, s.loop.pending[0]);
      ExecuteKeeps(s, op);
    case Next(e) => NextKeeps(s, e, op);
    case CheckRemote => CheckRemoteKeeps(s, op);
    case BeginBatch => BatchKeeps(s, op);
    case ReceiverStarts(o) =>
      assert Placed(s, o);
      ReceiverStartsKeeps(s, o, op);
    case ReceiverStops =>
      assert Placed(s, s.loop.stopOp);
      ReceiverStopsKeeps(s, op);
    case _ => RestKeeps(s, a, op);
  }

  /** What executing an item leaves alone. */
  lemma ExecuteFrame(s: State)
    requires s.loop.pending != [] && s.loop.pending[0] in s.shared.execute
    ensures
      var op := s.loop.pending[0];
      var s' := ExecuteFirst(s);
      && s'.loop == s.loop.(pending := s.loop.pending[1..],
                            pc := if s.shared.execute[op] == OnRequestComplete then InReceiver else s.loop.pc)
      && s'.shared.remoteQueue == s.shared.remoteQueue
      && s'.past.enqueued == s.past.enqueued
      && s'.past.ran == (if RemoteEntry(s.past.log, op) then s.past.ran + [op] else s.past.ran)
      && (forall x: Op :: x != op ==> LogOf(s'.past.log, x) == LogOf(s.past.log, x))
      && (exists note :: LogOf(s'.past.log, op) == LogOf(s.past.log, op) + [note])
  {
    var op := s.loop.pending[0];
    hide RemoteEntry;
    var note := match s.shared.execute[op]
      case OnScheduleComplete => Issued
      case OnRequestComplete => Delivered(s.loop.event.ok)
      case SetShouldStop => Stopped;
    assert LogOf(ExecuteFirst(s).past.log, op) == LogOf(s.past.log, op) + [note];
  }

  lemma RunItemLoopInv(s: State)
    requires LoopInv(s) && Enabled(s, RunItem) && Placed(s, s.loop.pending[0])
    ensures LoopInv(ExecuteFirst(s))
  {
    FirstKeeps(s);
    ExecuteFrame(s);
    hide Placed, Links, RemoteEntry, ExecuteFirst;
  }

  lemma ReceiverStopsLoopInv(s: State)
    requires LoopInv(s) && Enabled(s, ReceiverStops) && Placed(s, s.loop.stopOp)
    ensures LoopInv(Apply(s, ReceiverStops))
  {
    assert s.loop.localQueue == [s.loop.stopOp] ==> Links(s, s.loop.stopOp) > 0;
    hide Links;
  }

  lemma RestLoopInv(s: State, a: Action)
    requires LoopInv(s) && Enabled(s, a) && !a.RunItem? && !a.ReceiverStops?
    requires a.EnterRun? ==> a.stopOp !in s.shared.shouldStop
    ensures LoopInv(Apply(s, a))
  {
    hide RemoteEntry, ExecuteFirst;
  }

  lemma LoopInvKeeps(s: State, a: Action)
    requires OwnershipInv(s) && Enabled(s, a)
    ensures LoopInv(Apply(s, a))
  {
    assert Placed(s, s.loop.stopOp);
    if a.RunItem? {
      assert Placed(s, s.loop.pending[0]);
      RunItemLoopInv(s);
    } else if a.ReceiverStops? {
      ReceiverStopsLoopInv(s);
    } else if a.EnterRun? {
      assert Placed(s, a.stopOp);
    } else {
      RestLoopInv(s, a);
    }
  }

  lemma {:induction false} OwnershipHolds(run: seq<Action>, s: State)
    requires Reaches(run, s)
    ensures OwnershipInv(s)
  {
    if run != [] {
      var init, a := run[..|run| - 1], run[|run| - 1];
      var m := After(Initial(), init).value;
      OwnershipHolds(init, m);
      LoopInvKeeps(m, a);
      forall op: Op ensures Placed(s, op) {
        PlacedKeeps(m, a, op);
      }
    }
  }

  // ---- what every run guarantees ----

  /** Started or requested, and neither delivered nor run to completion yet. */
  predicate Unfinished(h: seq<Note>) {
    h != [] && if h[0] == StopCreated then |h| == 2 else |h| < 4
  }

  ghost function Places(s: State, op: Op): nat {
    Links(s, op) + (if op in s.grpc.inFlight then 1 else 0) + (if op in s.grpc.posted then 1 else 0)
  }

  /** The histories an operation can have: each step happens at most once, and in this order. */
  predicate Lifecycle(h: seq<Note>) {
    || h == []
    || (h[0] == StopCreated && |h| <= 3
        && (|h| > 1 ==> h[1].StopRequested?) && (|h| > 2 ==> h[2] == Stopped))
    || ((h[0] == StartedRemote || h[0] == StartedLocal) && |h| <= 4
        && (|h| > 1 ==> h[1] == Issued)
        && (|h| > 2 ==> h[2].Posted?)
        && (|h| > 3 ==> h[3] == Delivered(h[2].ok)))
  }

  /** Every unfinished operation is in exactly one place, every other one in none. */
  lemma ExclusiveOwnership(run: seq<Action>, s: State, op: Op)
    requires Reaches(run, s)
    ensures Places(s, op) == if Unfinished(LogOf(s.past.log, op)) then 1 else 0
    ensures Links(s, op) <= 1
    ensures Lifecycle(LogOf(s.past.log, op))
  {
    OwnershipHolds(run, s);
    assert Placed(s, op);
  }

  /** The function in execute_ is the right one for the phase it is invoked in. */
  lemma CallbackMatchesPhase(run: seq<Action>, s: State)
    requires Reaches(run, s) && Enabled(s, RunItem)
    ensures
      var op := s.loop.pending[0];
      var h := LogOf(s.past.log, op);
      && op in s.shared.execute
      && match s.shared.execute[op]
         case OnScheduleComplete => h == [StartedRemote]
         case OnRequestComplete => |h| == 3 && h[1] == Issued && h[2] == Posted(s.loop.event.ok)
         case SetShouldStop => |h| == 2 && h[1].StopRequested? && op !in s.shared.shouldStop
  {
    OwnershipHolds(run, s);
    var op := s.loop.pending[0];
    assert Placed(s, op);
    FirstKeeps(s);
    PopLinks(s, op);
    CallbackFits(ViewOf(s, op), Current(s, op), s.loop.event.ok);
  }

  lemma OnlyGrpcPosts(s: State, a: Action, op: Op, ok: bool)
    requires Enabled(s, a) && Posted(ok) in LogOf(Apply(s, a).past.log, op)
    requires Posted(ok) !in LogOf(s.past.log, op)
    ensures a == Complete(op, ok)
  {
    HistoryGrows(s, a, op);
    hide Apply;
  }

  lemma {:induction false} PostedByGrpc(run: seq<Action>, s: State, op: Op, ok: bool)
    requires Reaches(run, s) && Posted(ok) in LogOf(s.past.log, op)
    ensures Complete(op, ok) in run
  {
    if run != [] {
      var init, a := run[..|run| - 1], run[|run| - 1];
      var m := After(Initial(), init).value;
      if Posted(ok) in LogOf(m.past.log, op) {
        PostedByGrpc(init, m, op, ok);
      } else {
        OnlyGrpcPosts(m, a, op, ok);
      }
    }
  }

  /**
    Whenever a completion handler runs, event_ still describes that operation, holds
    the flag gRPC posted with it, and the handler is the last item of its batch.
  */
  lemma CompletionFlagMatch(run: seq<Action>, s: State)
    requires Reaches(run, s) && Enabled(s, RunItem)
    requires s.loop.pending[0] in s.shared.execute && s.shared.execute[s.loop.pending[0]] == OnRequestComplete
    ensures
      var op := s.loop.pending[0];
      && s.loop.event.tag == OperationTag(op)
      && Complete(op, s.loop.event.ok) in run
      && s.loop.pending == [op]
      && LogOf(Apply(s, RunItem).past.log, op) == LogOf(s.past.log, op) + [Delivered(s.loop.event.ok)]
  {
    var op := s.loop.pending[0];
    CallbackMatchesPhase(run, s);
    PostedByGrpc(run, s, op, s.loop.event.ok);
    OwnershipHolds(run, s);
    assert Placed(s, op);
    FirstKeeps(s);
  }

  /**
    A Run that exits because its StopOperation ran leaves nothing half done: both
    loop queues are empty, its StopOperation is in no list, and every unfinished
    operation is still in the remote queue or with gRPC.
  */
  lemma StopExit(run: seq<Action>, s: State, op: Op)
    requires Reaches(run, s) && Enabled(s, FinishBatch) && s.loop.stopOp in s.shared.shouldStop
    ensures
      var s' := Apply(s, FinishBatch);
      && s'.loop.pc == Idle && s'.loop.pending == [] && s'.loop.localQueue == []
      && Places(s', s'.loop.stopOp) == 0
      && (Unfinished(LogOf(s'.past.log, op)) ==>
            (op in Items(s'.shared.remoteQueue) || op in s'.grpc.inFlight || op in s'.grpc.posted))
  {
    OwnershipHolds(run, s);
    assert Placed(s, s.loop.stopOp) && Placed(s, op);
    assert s.loop.localQueue == [s.loop.stopOp] ==> Links(s, s.loop.stopOp) > 0;
  }

  /**
    A Run that exits because the completion queue is drained leaves every unfinished
    operation in one of its two queues, none with gRPC. Its own StopOperation is still
    queued exactly if it was requested, and then it has not run.
  */
  lemma ShutDownExit(run: seq<Action>, s: State, op: Op)
    requires Reaches(run, s) && Enabled(s, NextDrained)
    ensures
      var s' := Apply(s, NextDrained);
      && (Unfinished(LogOf(s'.past.log, op)) <==> op in Items(s'.shared.remoteQueue) || op in s'.loop.localQueue)
      && (Links(s', s'.loop.stopOp) == 1 <==> LogOf(s'.past.log, s'.loop.stopOp) != [StopCreated])
  {
    OwnershipHolds(run, s);
    assert Placed(s, s.loop.stopOp) && Placed(s, op);
    assert s.loop.pending == [];
    assert Links(s, op) > 0 <==> op in Items(s.shared.remoteQueue) || op in s.loop.localQueue;
  }

  lemma {:induction false} ShutDownIsRecorded(run: seq<Action>, s: State)
    requires Reaches(run, s)
    ensures s.grpc.shutDown <==> ShutDown in run
  {
    if run != [] {
      var init, a := run[..|run| - 1], run[|run| - 1];
      ShutDownIsRecorded(init, After(Initial(), init).value);
      assert run == init + [a];
      hide RemoteEntry;
    }
  }

  lemma ExitStep(s: State, a: Action)
    requires Enabled(s, a) && s.loop.pc != Idle && Apply(s, a).loop.pc == Idle
    ensures (a == FinishBatch && s.loop.stopOp in s.shared.shouldStop) || a == NextDrained
  {
    hide RemoteEntry;
  }

  /** A Run ends only because its own StopOperation has run or the user shut the queue down. */
  lemma ExitsOnlyOnStopOrShutDown(run: seq<Action>, s: State, a: Action)
    requires Reaches(run, s) && Enabled(s, a) && s.loop.pc != Idle && Apply(s, a).loop.pc == Idle
    ensures
      || (a == FinishBatch && LogOf(s.past.log, s.loop.stopOp) in
            {[StopCreated, StopRequested(true), Stopped], [StopCreated, StopRequested(false), Stopped]})
      || (a == NextDrained && ShutDown in run)
  {
    ShutDownIsRecorded(run, s);
    OwnershipHolds(run, s);
    assert Placed(s, s.loop.stopOp);
    ExitStep(s, a);
    if a == FinishBatch {
      var h := LogOf(s.past.log, s.loop.stopOp);
      assert h == [StopCreated, h[1], Stopped] && (h[1] == StopRequested(true) || h[1] == StopRequested(false));
    }
  }

  /** Once its StopOperation has run, a Run only finishes the batch: it never reaches Next again. */
  lemma StopEndsTheLoop(run: seq<Action>, s: State)
    requires Reaches(run, s) && s.loop.stopOp in s.shared.shouldStop
    ensures s.loop.pc in {Draining, InReceiver, Idle}
  {
    OwnershipHolds(run, s);
  }
}
