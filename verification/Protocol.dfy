/**
  The shared-state protocol behind GrpcContext, as a labelled transition system.

  One loop thread runs RunImpl; any number of producer threads submit operations
  through the remote queue, and gRPC completes the calls it was given. Every
  action below is one atomic step of one of them, so a run is a sequence of
  actions and every interleaving is such a sequence.
*/
module Protocol {
  import opened Options

  /** Operations and producer threads are identified by numbers; both are unbounded. */
  type Op = nat
  type Thread = nat

  /** The functions an operation's execute_ pointer can hold. */
  datatype Callback = OnScheduleComplete | OnRequestComplete | SetShouldStop

  /** The atomic intrusive queue: inactive, or active with its items, oldest first. */
  datatype RemoteQueue = Inactive | Active(items: seq<Op>)

  datatype Tag = NullTag | OperationTag(op: Op)
  datatype Event = Event(tag: Tag, ok: bool)

  /** Where the loop thread is. InReceiver: inside the continuation that set_value resumed. */
  datatype Pc = Idle | LoopTop | Draining | InReceiver | RemoteCheck | AtNext

  /** What has happened to one operation, oldest first (see State.log). */
  datatype Note =
    | StartedRemote
    | StartedLocal
    | Issued
    | Posted(ok: bool)
    | Delivered(ok: bool)
    | StopCreated
    | StopRequested(remotely: bool)
    | Stopped

  /** The fields only the loop thread touches; pending is the batch being drained. */
  datatype Loop = Loop(
    pc: Pc,
    pending: seq<Op>,
    localQueue: seq<Op>,
    readSubmitted: bool,             // remote_queue_read_submitted_
    event: Event,
    stopOp: Op)                      // the StopOperation of the current Run

  /** What the producers share with it. owed: producers between enqueue and SignalRemoteQueue. */
  datatype Shared = Shared(
    remoteQueue: RemoteQueue,
    owed: set<Thread>,
    execute: map<Op, Callback>,
    shouldStop: set<Op>)             // StopOperations whose should_stop_ is true

  /** What gRPC holds: the alarm, the completion queue and the tags it was handed. */
  datatype Grpc = Grpc(
    alarms: nat,                     // work_alarm_ set, its event not posted yet
    wakeUps: nat,                    // null-tag events in the completion queue
    inFlight: set<Op>,               // tags handed over and not posted yet
    posted: map<Op, bool>,           // operation tags in the completion queue, with their ok
    shutDown: bool)

  /** What has happened so far; no step depends on it except where it says who may start. */
  datatype History = History(
    woken: bool,                     // a null-tag event has been consumed
    log: map<Op, seq<Note>>,
    enqueued: seq<Op>,               // every remote enqueue, in the queue's order
    ran: seq<Op>)                    // the remotely submitted items already executed

  /** fault: a contract of one of the libraries was broken; nothing follows. */
  datatype State = State(loop: Loop, shared: Shared, grpc: Grpc, past: History, fault: bool)

  datatype Action =
    // producers
    | Enqueue(thread: Thread, op: Op)
    | EnqueueStop(thread: Thread)
    | Signal(thread: Thread)
    // gRPC and its user
    | AlarmFires
    | Complete(op: Op, ok: bool)
    | ShutDown
    // loop thread
    | EnterRun(stopOp: Op)
    | BeginBatch
    | RunItem
    | ReceiverStarts(op: Op)
    | ReceiverStops
    | ReceiverReturns
    | FinishBatch
    | CheckRemote
    | Next(event: Event)
    | NextDrained

  /** The loop thread's own steps; all others are steps of producers, gRPC or the user. */
  predicate ByLoop(a: Action) {
    !(a.Enqueue? || a.EnqueueStop? || a.Signal? || a.AlarmFires? || a.Complete? || a.ShutDown?)
  }

  function Initial(): State {
    State(Loop(Idle, [], [], false, Event(NullTag, false), 0),
          Shared(Inactive, {}, map[], {}),
          Grpc(0, 0, {}, map[], false),
          History(false, map[], [], []),
          false)
  }

  function Items(q: RemoteQueue): seq<Op> {
    if q.Active? then q.items else []
  }

  function LogOf(log: map<Op, seq<Note>>, op: Op): seq<Note> {
    if op in log then log[op] else []
  }

  function Noted(past: History, op: Op, note: Note): History {
    past.(log := past.log[op := LogOf(past.log, op) + [note]])
  }

  predicate Fresh(s: State, op: Op) {
    LogOf(s.past.log, op) == []
  }

  /** The stop callback runs at most once, and only while its Run is alive. */
  predicate StopPending(s: State) {
    s.loop.pc != Idle && LogOf(s.past.log, s.loop.stopOp) == [StopCreated]
  }

  /** Next may return any posted event, in no promised order. */
  predicate CanReturn(g: Grpc, e: Event) {
    match e.tag
    case NullTag => g.wakeUps > 0
    case OperationTag(op) => op in g.posted && g.posted[op] == e.ok
  }

  /** Next returns false once the queue is shut down and nothing is left in it or on its way. */
  predicate Drained(g: Grpc) {
    g.shutDown && g.alarms == 0 && g.wakeUps == 0 && g.inFlight == {} && g.posted == map[]
  }

  /**
    The enabling conditions. Beyond each step's place in the code they state what
    the environment owes: an operation is started once, nothing is submitted
    remotely after ShutDown, no ShutDown while a signal is owed, Run is not nested
    in itself, and gRPC posts each tag it holds once.
  */
  predicate Enabled(s: State, a: Action) {
    !s.fault &&
    match a
    case Enqueue(t, op) => Fresh(s, op) && t !in s.shared.owed && !s.grpc.shutDown
    case EnqueueStop(t) => StopPending(s) && t !in s.shared.owed && !s.grpc.shutDown
    case Signal(t) => t in s.shared.owed
    case AlarmFires => s.grpc.alarms > 0
    case Complete(op, ok) => op in s.grpc.inFlight
    case ShutDown => s.shared.owed == {}
    case EnterRun(stopOp) => s.loop.pc == Idle && Fresh(s, stopOp)
    case BeginBatch => s.loop.pc == LoopTop
    case RunItem => s.loop.pc == Draining && s.loop.pending != []
    case ReceiverStarts(op) => s.loop.pc == InReceiver && Fresh(s, op) && !s.grpc.shutDown
    case ReceiverStops => s.loop.pc == InReceiver && StopPending(s)
    case ReceiverReturns => s.loop.pc == InReceiver
    case FinishBatch => s.loop.pc == Draining && s.loop.pending == []
    case CheckRemote => s.loop.pc == RemoteCheck
    case Next(e) => s.loop.pc == AtNext && CanReturn(s.grpc, e)
    case NextDrained => s.loop.pc == AtNext && Drained(s.grpc)
  }

  /** ScheduleRemote up to the result of enqueue; the signal, if owed, is a later step. */
  function EnqueueRemote(s: State, t: Thread, op: Op, callback: Callback, note: Note): State {
    var q := s.shared.remoteQueue;
    s.(shared := s.shared.(remoteQueue := Active(Items(q) + [op]),
                           owed := if q.Inactive? then s.shared.owed + {t} else s.shared.owed,
                           execute := s.shared.execute[op := callback]),
       past := Noted(s.past, op, note).(enqueued := s.past.enqueued + [op]))
  }

  function Fault(s: State): State {
    s.(fault := true)
  }

  /** SignalRemoteQueue. Setting the alarm while an earlier one is pending is a fault. */
  function SetAlarm(s: State, t: Thread): State {
    if s.grpc.alarms > 0 then Fault(s)
    else s.(shared := s.shared.(owed := s.shared.owed - {t}), grpc := s.grpc.(alarms := 1))
  }

  /** gRPC posts the completion of an operation it holds. */
  function Post(s: State, op: Op, ok: bool): State {
    s.(grpc := s.grpc.(inFlight := s.grpc.inFlight - {op}, posted := s.grpc.posted[op := ok]),
       past := Noted(s.past, op, Posted(ok)))
  }

  /** Run: a StopOperation is created on the stack; the loop is about to start. */
  function Enter(s: State, stopOp: Op): State {
    s.(loop := s.loop.(pc := LoopTop, stopOp := stopOp),
       shared := s.shared.(execute := s.shared.execute[stopOp := SetShouldStop]),
       past := Noted(s.past, stopOp, StopCreated))
  }

  /** StartAsyncRPC: from here on the operation's execute_ is OnRequestComplete. */
  function Issue(s: State, op: Op): State {
    s.(shared := s.shared.(execute := s.shared.execute[op := OnRequestComplete]),
       grpc := s.grpc.(inFlight := s.grpc.inFlight + {op}),
       past := Noted(s.past, op, Issued))
  }

  /** An entry that is in some list because a producer enqueued it remotely. */
  predicate RemoteEntry(log: map<Op, seq<Note>>, op: Op) {
    var h := LogOf(log, op);
    h == [StartedRemote] || h == [StopCreated, StopRequested(true)]
  }

  /** pop_front of the batch. */
  function Pop(s: State): State
    requires s.loop.pending != []
  {
    var op := s.loop.pending[0];
    s.(loop := s.loop.(pending := s.loop.pending[1..]),
       past := if RemoteEntry(s.past.log, op) then s.past.(ran := s.past.ran + [op]) else s.past)
  }

  /** OnRequestComplete: the receiver is given whatever flag event_ holds. */
  function Deliver(s: State, op: Op): State {
    s.(loop := s.loop.(pc := InReceiver), past := Noted(s.past, op, Delivered(s.loop.event.ok)))
  }

  /** The body of a StopOperation. */
  function Stop(s: State, op: Op): State {
    s.(shared := s.shared.(shouldStop := s.shared.shouldStop + {op}), past := Noted(s.past, op, Stopped))
  }

  /** One turn of the drain loop: pop an item and run whatever its execute_ holds. */
  function ExecuteFirst(s: State): State
    requires s.loop.pending != []
  {
    var op := s.loop.pending[0];
    if op !in s.shared.execute then Fault(s)
    else match s.shared.execute[op]
      case OnScheduleComplete => Issue(Pop(s), op)
      case OnRequestComplete => Deliver(Pop(s), op)
      case SetShouldStop => Stop(Pop(s), op)
  }

  /** TryScheduleRemoteQueuedItems. The dequeue call requires an active queue. */
  function DequeueRemote(s: State): State {
    match s.shared.remoteQueue
    case Inactive => Fault(s)
    case Active(items) =>
      if items == [] then
        s.(loop := s.loop.(pc := AtNext, readSubmitted := true),
           shared := s.shared.(remoteQueue := Inactive))
      else
        s.(loop := s.loop.(pc := AtNext, localQueue := s.loop.localQueue + items),
           shared := s.shared.(remoteQueue := Active([])))
  }

  /** AcquireCompletionQueueItems after Next returned an event. */
  function Acquire(s: State, e: Event): State
    requires CanReturn(s.grpc, e)
  {
    match e.tag
    case NullTag =>
      s.(loop := s.loop.(pc := LoopTop, event := e, readSubmitted := false),
         grpc := s.grpc.(wakeUps := s.grpc.wakeUps - 1),
         past := s.past.(woken := true))
    case OperationTag(op) =>
      s.(loop := s.loop.(pc := LoopTop, event := e, localQueue := s.loop.localQueue + [op]),
         grpc := s.grpc.(posted := s.grpc.posted - {op}))
  }

  function Apply(s: State, a: Action): State
    requires Enabled(s, a)
  {
    match a
    case Enqueue(t, op) => EnqueueRemote(s, t, op, OnScheduleComplete, StartedRemote)
    case EnqueueStop(t) => EnqueueRemote(s, t, s.loop.stopOp, SetShouldStop, StopRequested(true))
    case Signal(t) => SetAlarm(s, t)
    case AlarmFires => s.(grpc := s.grpc.(alarms := s.grpc.alarms - 1, wakeUps := s.grpc.wakeUps + 1))
    case Complete(op, ok) => Post(s, op, ok)
    case ShutDown => s.(grpc := s.grpc.(shutDown := true))
    case EnterRun(stopOp) => Enter(s, stopOp)
    case BeginBatch => s.(loop := s.loop.(pc := Draining, pending := s.loop.localQueue, localQueue := []))
    case RunItem => ExecuteFirst(s)
    case ReceiverStarts(op) => Issue(s.(past := Noted(s.past, op, StartedLocal)), op)
    case ReceiverStops =>
      s.(loop := s.loop.(localQueue := s.loop.localQueue + [s.loop.stopOp]),
         past := Noted(s.past, s.loop.stopOp, StopRequested(false)))
    case ReceiverReturns => s.(loop := s.loop.(pc := Draining))
    case FinishBatch =>
      s.(loop := s.loop.(pc := if s.loop.stopOp in s.shared.shouldStop then Idle else RemoteCheck))
    case CheckRemote =>
      if s.loop.readSubmitted then s.(loop := s.loop.(pc := AtNext)) else DequeueRemote(s)
    case Next(e) => Acquire(s, e)
    case NextDrained => s.(loop := s.loop.(pc := Idle))
  }

  /** What an action adds to one operation's history. */
  function NotesOf(s: State, a: Action, op: Op): seq<Note>
    requires Enabled(s, a)
  {
    match a
    case Enqueue(_, o) => if o == op then [StartedRemote] else []
    case EnqueueStop(_) => if s.loop.stopOp == op then [StopRequested(true)] else []
    case Complete(o, ok) => if o == op then [Posted(ok)] else []
    case EnterRun(o) => if o == op then [StopCreated] else []
    case ReceiverStarts(o) => if o == op then [StartedLocal, Issued] else []
    case ReceiverStops => if s.loop.stopOp == op then [StopRequested(false)] else []
    case RunItem =>
      if s.loop.pending[0] != op || op !in s.shared.execute then []
      else (match s.shared.execute[op]
            case OnScheduleComplete => [Issued]
            case OnRequestComplete => [Delivered(s.loop.event.ok)]
            case SetShouldStop => [Stopped])
    case _ => []
  }

  lemma ItemHistoryGrows(s: State, op: Op)
    requires Enabled(s, RunItem)
    ensures LogOf(ExecuteFirst(s).past.log, op) == LogOf(s.past.log, op) + NotesOf(s, RunItem, op)
  {
    hide RemoteEntry;
  }

  /** Histories only grow, and only by what the action notes. */
  lemma HistoryGrows(s: State, a: Action, op: Op)
    requires Enabled(s, a)
    ensures LogOf(Apply(s, a).past.log, op) == LogOf(s.past.log, op) + NotesOf(s, a, op)
  {
    if a.RunItem? {
      ItemHistoryGrows(s, op);
    }
    hide ExecuteFirst, RemoteEntry;
  }

  /** The state after a run, or None if some action of it was not enabled. */
  function After(s: State, run: seq<Action>): Option<State> {
    if run == [] then Some(s)
    else
      match After(s, run[..|run| - 1])
      case None => None
      case Some(m) =>
        if Enabled(m, run[|run| - 1]) then Some(Apply(m, run[|run| - 1])) else None
  }

  /** s is the state after this run from the freshly constructed context. */
  predicate Reaches(run: seq<Action>, s: State) {
    After(Initial(), run) == Some(s)
  }

  lemma AfterSnoc(s: State, run: seq<Action>, m: State, a: Action)
    requires After(s, run) == Some(m) && Enabled(m, a)
    ensures After(s, run + [a]) == Some(Apply(m, a))
  {
    assert (run + [a])[..|run + [a]| - 1] == run;
  }

  lemma Extend(run: seq<Action>, s: State, a: Action)
    requires Reaches(run, s) && Enabled(s, a)
    ensures Reaches(run + [a], Apply(s, a))
  {
    AfterSnoc(Initial(), run, s, a);
  }

  /** One more step of a run under construction. */
  lemma Taken(run: seq<Action>, s: State, a: Action) returns (run': seq<Action>, s': State)
    requires Reaches(run, s) && Enabled(s, a)
    ensures run' == run + [a] && s' == Apply(s, a) && Reaches(run', s')
  {
    Extend(run, s, a);
    run', s' := run + [a], Apply(s, a);
  }

  lemma {:induction false} AfterConcat(s: State, run: seq<Action>, more: seq<Action>, m: State)
    requires After(s, run) == Some(m)
    ensures After(s, run + more) == After(m, more)
  {
    if more == [] {
      assert run + more == run;
    } else {
      var init := more[..|more| - 1];
      AfterConcat(s, run, init, m);
      assert (run + more)[..|run + more| - 1] == run + init;
    }
  }
}
