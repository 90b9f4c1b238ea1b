/**
  Remote work is conserved and runs in the order it was enqueued. One equation says
  both: what has run, then the batch, the local queue and the remote queue, read in
  that order and restricted to remote submissions, is the enqueue history.
*/
module Order {
  import opened Options
  import opened Protocol
  import opened Ownership

  /** The remote submissions among some queue entries, in order. */
  function Remotes(log: map<Op, seq<Note>>, items: seq<Op>): seq<Op> {
    if items == [] then []
    else (if RemoteEntry(log, items[0]) then [items[0]] else []) + Remotes(log, items[1..])
  }

  lemma {:induction false} RemotesConcat(log: map<Op, seq<Note>>, a: seq<Op>, b: seq<Op>)
    ensures Remotes(log, a + b) == Remotes(log, a) + Remotes(log, b)
  {
    if a == [] {
      assert a + b == b;
    } else {
      assert (a + b)[1..] == a[1..] + b;
      RemotesConcat(log, a[1..], b);
    }
  }

  lemma {:induction false} RemotesAll(log: map<Op, seq<Note>>, items: seq<Op>)
    requires forall op :: op in items ==> RemoteEntry(log, op)
    ensures Remotes(log, items) == items
  {
    if items != [] {
      RemotesAll(log, items[1..]);
    }
  }

  lemma {:induction false} RemotesFrame(log: map<Op, seq<Note>>, log': map<Op, seq<Note>>, items: seq<Op>)
    requires forall op :: op in items ==> LogOf(log', op) == LogOf(log, op)
    ensures Remotes(log', items) == Remotes(log, items)
  {
    if items != [] {
      RemotesFrame(log, log', items[1..]);
    }
  }

  /** Four stretches of the line, from what has run to what came last. */
  function Join(ran: seq<Op>, batch: seq<Op>, local: seq<Op>, remote: seq<Op>): seq<Op> {
    ran + batch + local + remote
  }

  lemma Joins(a: seq<Op>, b: seq<Op>, c: seq<Op>, d: seq<Op>, e: seq<Op>)
    ensures Join(a, b, c, d + e) == Join(a, b, c, d) + e
    ensures Join(a + e, b, c, d) == Join(a, e + b, c, d)
    ensures Join(a, b, c + d, []) == Join(a, b, c, d)
    ensures Join(a, [], c, d) == Join(a, c, [], d)
  {
    assert (a + e) + b == a + (e + b);
    assert a + b + (c + d) + [] == a + b + c + d;
    assert a + [] + c == a + c + [];
  }

  ghost function Line(s: State): seq<Op> {
    Join(s.past.ran, Remotes(s.past.log, s.loop.pending), Remotes(s.past.log, s.loop.localQueue),
         Items(s.shared.remoteQueue))
  }

  ghost predicate OrderInv(s: State) {
    && (forall op :: op in Items(s.shared.remoteQueue) ==> RemoteEntry(s.past.log, op))
    && Line(s) == s.past.enqueued
  }

  lemma Unlinked(s: State, op: Op)
    requires Links(s, op) == 0
    ensures op !in s.loop.pending && op !in s.loop.localQueue && op !in Items(s.shared.remoteQueue)
  {
  }

  /** A step that moves nothing and notes something about one unlinked operation. */
  lemma NoteFrame(s: State, s': State, op: Op)
    requires OrderInv(s) && Links(s, op) == 0
    requires s'.loop.pending == s.loop.pending && s'.loop.localQueue == s.loop.localQueue
    requires s'.shared.remoteQueue == s.shared.remoteQueue
    requires s'.past.ran == s.past.ran && s'.past.enqueued == s.past.enqueued
    requires forall x: Op :: x != op ==> LogOf(s'.past.log, x) == LogOf(s.past.log, x)
    ensures OrderInv(s')
  {
    Unlinked(s, op);
    RemotesFrame(s.past.log, s'.past.log, s.loop.pending);
    RemotesFrame(s.past.log, s'.past.log, s.loop.localQueue);
  }

  lemma SameEntries(log: map<Op, seq<Note>>, log': map<Op, seq<Note>>, items: seq<Op>)
    requires forall op :: op in items ==> LogOf(log', op) == LogOf(log, op)
    requires forall op :: op in items ==> RemoteEntry(log, op)
    ensures forall op :: op in items ==> RemoteEntry(log', op)
  {
  }

  lemma EnqueueKeeps(s: State, t: Thread, op: Op, callback: Callback, note: Note)
    requires OrderInv(s) && Links(s, op) == 0
    requires (Fresh(s, op) && note == StartedRemote)
          || (LogOf(s.past.log, op) == [StopCreated] && note == StopRequested(true))
    ensures OrderInv(EnqueueRemote(s, t, op, callback, note))
  {
    var s' := EnqueueRemote(s, t, op, callback, note);
    Unlinked(s, op);
    assert RemoteEntry(s'.past.log, op);
    SameEntries(s.past.log, s'.past.log, Items(s.shared.remoteQueue));
    hide Links, RemoteEntry, Join, Remotes;
    RemotesFrame(s.past.log, s'.past.log, s.loop.pending);
    RemotesFrame(s.past.log, s'.past.log, s.loop.localQueue);
    Joins(s.past.ran, Remotes(s.past.log, s.loop.pending), Remotes(s.past.log, s.loop.localQueue),
          Items(s.shared.remoteQueue), [op]);
  }

  lemma RemotesFirst(log: map<Op, seq<Note>>, items: seq<Op>)
    requires items != []
    ensures Remotes(log, items) == (if RemoteEntry(log, items[0]) then [items[0]] else []) + Remotes(log, items[1..])
  {
  }

  /** Executing an item notes something about it alone, and it is in no list any more. */
  lemma {:induction false} RunItemRemotes(s: State)
    requires OrderInv(s) && s.loop.pending != [] && s.loop.pending[0] in s.shared.execute
    requires Links(s, s.loop.pending[0]) == 1
    ensures
      var log, log' := s.past.log, ExecuteFirst(s).past.log;
      && Remotes(log', s.loop.pending[1..]) == Remotes(log, s.loop.pending[1..])
      && Remotes(log', s.loop.localQueue) == Remotes(log, s.loop.localQueue)
      && (forall op :: op in Items(s.shared.remoteQueue) ==> RemoteEntry(log', op))
  {
    var op := s.loop.pending[0];
    var log, log' := s.past.log, ExecuteFirst(s).past.log;
    ExecuteFrame(s);
    PopLinks(s, op);
    Unlinked(Pop(s), op);
    hide ExecuteFirst, Links, RemoteEntry, Join, Items, Remotes, LogOf;
    RemotesFrame(log, log', s.loop.pending[1..]);
    RemotesFrame(log, log', s.loop.localQueue);
    SameEntries(log, log', Items(s.shared.remoteQueue));
  }

  /** Popping the first item of the batch moves it, if it counts, to the end of what has run. */
  lemma PopJoin(ran: seq<Op>, counts: bool, op: Op, batch: seq<Op>, local: seq<Op>, remote: seq<Op>)
    ensures Join(if counts then ran + [op] else ran, batch, local, remote)
              == Join(ran, (if counts then [op] else []) + batch, local, remote)
  {
    Joins(ran, batch, local, remote, [op]);
    assert [] + batch == batch;
  }

  lemma {:induction false} RunItemKeeps(s: State)
    requires OrderInv(s) && s.loop.pending != [] && s.loop.pending[0] in s.shared.execute
    requires Links(s, s.loop.pending[0]) == 1
    ensures OrderInv(ExecuteFirst(s))
  {
    var op, log := s.loop.pending[0], s.past.log;
    ExecuteFrame(s);
    RunItemRemotes(s);
    RemotesFirst(log, s.loop.pending);
    PopJoin(s.past.ran, RemoteEntry(log, op), op, Remotes(log, s.loop.pending[1..]), Remotes(log, s.loop.localQueue),
            Items(s.shared.remoteQueue));
    hide ExecuteFirst, Links, RemoteEntry, Join, Items, Remotes, LogOf;
  }

  lemma {:induction false} CheckRemoteKeeps(s: State)
    requires OrderInv(s) && Enabled(s, CheckRemote)
    ensures OrderInv(Apply(s, CheckRemote))
  {
    var items := Items(s.shared.remoteQueue);
    RemotesConcat(s.past.log, s.loop.localQueue, items);
    RemotesAll(s.past.log, items);
    hide RemoteEntry, Remotes, Join;
    Joins(s.past.ran, Remotes(s.past.log, s.loop.pending), Remotes(s.past.log, s.loop.localQueue), items, []);
  }

  lemma RemotesSkip(log: map<Op, seq<Note>>, log': map<Op, seq<Note>>, items: seq<Op>, op: Op)
    requires op !in items && !RemoteEntry(log', op)
    requires forall x: Op :: x != op ==> LogOf(log', x) == LogOf(log, x)
    ensures Remotes(log', items + [op]) == Remotes(log, items)
  {
    RemotesFrame(log, log', items);
    RemotesConcat(log', items, [op]);
    assert Remotes(log', [op]) == [];
    hide RemoteEntry;
  }

  /** A completion or a locally requested stop joins the local queue, but is not remote work. */
  lemma LocalKeeps(s: State, s': State, op: Op)
    requires OrderInv(s) && Links(s, op) == 0
    requires s'.loop.pending == s.loop.pending && s'.loop.localQueue == s.loop.localQueue + [op]
    requires s'.shared.remoteQueue == s.shared.remoteQueue
    requires s'.past.ran == s.past.ran && s'.past.enqueued == s.past.enqueued
    requires forall x: Op :: x != op ==> LogOf(s'.past.log, x) == LogOf(s.past.log, x)
    requires !RemoteEntry(s'.past.log, op)
    ensures OrderInv(s')
  {
    Unlinked(s, op);
    hide Links, RemoteEntry, Remotes, Join;
    RemotesFrame(s.past.log, s'.past.log, s.loop.pending);
    RemotesSkip(s.past.log, s'.past.log, s.loop.localQueue, op);
    SameEntries(s.past.log, s'.past.log, Items(s.shared.remoteQueue));
  }

  lemma BatchKeeps(s: State)
    requires OrderInv(s) && Enabled(s, BeginBatch) && s.loop.pending == []
    ensures OrderInv(Apply(s, BeginBatch))
  {
    hide RemoteEntry, Join;
    Joins(s.past.ran, [], Remotes(s.past.log, s.loop.localQueue), Items(s.shared.remoteQueue), []);
  }

  /** The operation an action is about, when it is about one that is in no list yet. */
  function Actor(s: State, a: Action): Op {
    match a
    case Enqueue(_, op) => op
    case Complete(op, _) => op
    case EnterRun(op) => op
    case ReceiverStarts(op) => op
    case Next(e) => if e.tag.OperationTag? then e.tag.op else s.loop.stopOp
    case _ => s.loop.stopOp
  }

  predicate Noting(a: Action) {
    a.Complete? || a.EnterRun? || a.ReceiverStarts?
  }

  lemma NotingKeeps(s: State, a: Action)
    requires OrderInv(s) && Enabled(s, a) && Noting(a) && Links(s, Actor(s, a)) == 0
    ensures OrderInv(Apply(s, a))
  {
    hide OrderInv, Links, RemoteEntry;
    NoteFrame(s, Apply(s, a), Actor(s, a));
  }

  lemma ReceiverStopsKeeps(s: State)
    requires OrderInv(s) && Enabled(s, ReceiverStops) && Links(s, s.loop.stopOp) == 0
    ensures OrderInv(Apply(s, ReceiverStops))
  {
    hide OrderInv, Links;
    assert LogOf(Apply(s, ReceiverStops).past.log, s.loop.stopOp)[1] == StopRequested(false);
    LocalKeeps(s, Apply(s, ReceiverStops), s.loop.stopOp);
  }

  lemma NextKeeps(s: State, e: Event)
    requires OrderInv(s) && Enabled(s, Next(e))
    requires e.tag.OperationTag? ==> Links(s, e.tag.op) == 0 && !RemoteEntry(s.past.log, e.tag.op)
    ensures OrderInv(Apply(s, Next(e)))
  {
    if e.tag.OperationTag? {
      hide OrderInv, Links;
      LocalKeeps(s, Apply(s, Next(e)), e.tag.op);
    }
  }

  lemma QuietKeeps(s: State, a: Action)
    requires OrderInv(s) && Enabled(s, a)
    requires a.Signal? || a.AlarmFires? || a.ShutDown? || a.ReceiverReturns? || a.FinishBatch? || a.NextDrained?
    ensures OrderInv(Apply(s, a))
  {
  }

  lemma ActorUnlinked(s: State, a: Action)
    requires OwnershipInv(s) && Enabled(s, a)
    requires a.Enqueue? || a.EnqueueStop? || a.ReceiverStops? || Noting(a) || (a.Next? && a.event.tag.OperationTag?)
    ensures Links(s, Actor(s, a)) == 0
    ensures a.Next? ==> !RemoteEntry(s.past.log, Actor(s, a))
  {
    assert Placed(s, Actor(s, a));
  }

  /** The item at the front of the batch is in no other list, and its function is set. */
  lemma FirstIsLinkedOnce(s: State)
    requires s.loop.pending != [] && Placed(s, s.loop.pending[0])
    ensures Links(s, s.loop.pending[0]) == 1 && s.loop.pending[0] in s.shared.execute
  {
    var op := s.loop.pending[0];
    PopLinks(s, op);
    CallbackFits(ViewOf(s, op), Current(s, op), s.loop.event.ok);
  }

  lemma FirstKeepsOrder(s: State)
    requires OwnershipInv(s) && OrderInv(s) && Enabled(s, RunItem)
    ensures OrderInv(Apply(s, RunItem))
  {
    assert Placed(s, s.loop.pending[0]);
    hide OrderInv, Placed, OwnershipInv, Links, ExecuteFirst;
    FirstIsLinkedOnce(s);
    RunItemKeeps(s);
  }

  lemma OrderKeeps(s: State, a: Action)
    requires OwnershipInv(s) && OrderInv(s) && Enabled(s, a)
    ensures OrderInv(Apply(s, a))
  {
    hide OrderInv, Placed, Links, RemoteEntry;
    match a
    case Enqueue(t, op) =>
      ActorUnlinked(s, a);
      EnqueueKeeps(s, t, op, OnScheduleComplete, StartedRemote);
    case EnqueueStop(t) =>
      ActorUnlinked(s, a);
      EnqueueKeeps(s, t, s.loop.stopOp, SetShouldStop, StopRequested(true));
    case RunItem => FirstKeepsOrder(s);
    case ReceiverStops =>
      ActorUnlinked(s, a);
      ReceiverStopsKeeps(s);
    case CheckRemote => CheckRemoteKeeps(s);
    case BeginBatch => BatchKeeps(s);
    case Next(e) =>
      if e.tag.OperationTag? {
        ActorUnlinked(s, a);
      }
      NextKeeps(s, e);
    case _ =>
      if Noting(a) {
        ActorUnlinked(s, a);
        NotingKeeps(s, a);
      } else {
        QuietKeeps(s, a);
      }
  }

  /** Nothing is lost, duplicated or reordered between enqueue and execution. */
  lemma {:induction false} OrderAndConservation(run: seq<Action>, s: State)
    requires Reaches(run, s)
    ensures OrderInv(s)
    ensures s.past.ran + Remotes(s.past.log, s.loop.pending) + Remotes(s.past.log, s.loop.localQueue)
              + Items(s.shared.remoteQueue) == s.past.enqueued
  {
    if run != [] {
      var init, a := run[..|run| - 1], run[|run| - 1];
      var m := After(Initial(), init).value;
      OrderAndConservation(init, m);
      OwnershipHolds(init, m);
      OrderKeeps(m, a);
    }
  }

  // ---- the enqueue history, told from the run alone ----

  /** The StopOperation of the latest Run entered. */
  function LatestStop(run: seq<Action>): Op {
    if run == [] then 0
    else if run[|run| - 1].EnterRun? then run[|run| - 1].stopOp
    else LatestStop(run[..|run| - 1])
  }

  /** What the producers submitted, in the order of their enqueue steps. */
  function Submissions(run: seq<Action>): seq<Op> {
    if run == [] then []
    else
      var init, a := run[..|run| - 1], run[|run| - 1];
      Submissions(init) + match a
        case Enqueue(_, op) => [op]
        case EnqueueStop(_) => [LatestStop(init)]
        case _ => []
  }

  predicate SubmittedRemotely(h: seq<Note>) {
    |h| > 0 && (h[0] == StartedRemote || (|h| > 1 && h[0] == StopCreated && h[1] == StopRequested(true)))
  }

  lemma StepHistory(s: State, a: Action)
    requires Enabled(s, a)
    ensures Apply(s, a).loop.stopOp == if a.EnterRun? then a.stopOp else s.loop.stopOp
    ensures Apply(s, a).past.enqueued == s.past.enqueued + match a
      case Enqueue(_, op) => [op]
      case EnqueueStop(_) => [s.loop.stopOp]
      case _ => []
  {
    hide RemoteEntry;
  }

  predicate Submits(s: State, a: Action, op: Op) {
    (a.Enqueue? && a.op == op) || (a.EnqueueStop? && s.loop.stopOp == op)
  }

  lemma SubmittedStep(s: State, a: Action, op: Op)
    requires Enabled(s, a)
    ensures
      var h := LogOf(s.past.log, op);
      && (SubmittedRemotely(h + NotesOf(s, a, op)) <==> SubmittedRemotely(h) || Submits(s, a, op))
      && !(SubmittedRemotely(h) && Submits(s, a, op))
  {
    var h, notes := LogOf(s.past.log, op), NotesOf(s, a, op);
    assert |h| > 0 ==> (h + notes)[0] == h[0];
    assert |h| > 1 ==> (h + notes)[1] == h[1];
    hide Apply;
  }

  lemma {:induction false} SubmittedOnce(s: State, a: Action, op: Op)
    requires Enabled(s, a)
    requires multiset(s.past.enqueued)[op] == if SubmittedRemotely(LogOf(s.past.log, op)) then 1 else 0
    ensures multiset(Apply(s, a).past.enqueued)[op]
              == if SubmittedRemotely(LogOf(Apply(s, a).past.log, op)) then 1 else 0
  {
    StepHistory(s, a);
    HistoryGrows(s, a, op);
    SubmittedStep(s, a, op);
    hide Apply, LogOf, NotesOf, Enabled, SubmittedRemotely;
  }

  /** The enqueue history is what the producers submitted, and no operation is in it twice. */
  lemma {:induction false} EnqueuedAreSubmissions(run: seq<Action>, s: State, op: Op)
    requires Reaches(run, s)
    ensures s.past.enqueued == Submissions(run) && s.loop.stopOp == LatestStop(run)
    ensures multiset(s.past.enqueued)[op] == if SubmittedRemotely(LogOf(s.past.log, op)) then 1 else 0
  {
    if run != [] {
      var init, a := run[..|run| - 1], run[|run| - 1];
      var m := After(Initial(), init).value;
      EnqueuedAreSubmissions(init, m, op);
      StepHistory(m, a);
      SubmittedOnce(m, a, op);
    }
  }

  lemma Append4(a: seq<Op>, b: seq<Op>, c: seq<Op>, d: seq<Op>)
    ensures a + b + c + d == a + (b + c + d)
  {
  }

  lemma InitialPart(a: seq<Op>, b: seq<Op>, x: Op)
    ensures a <= a + b && multiset(a)[x] <= multiset(a + b)[x]
  {
    assert multiset(a + b) == multiset(a) + multiset(b);
  }

  /** What has run of the remote work is an initial part of what was submitted, each item once. */
  lemma RemoteWorkRunsInOrder(run: seq<Action>, s: State, op: Op)
    requires Reaches(run, s)
    ensures s.past.ran <= Submissions(run)
    ensures multiset(s.past.ran)[op] <= 1
  {
    OrderAndConservation(run, s);
    EnqueuedAreSubmissions(run, s, op);
    var rest := Remotes(s.past.log, s.loop.pending) + Remotes(s.past.log, s.loop.localQueue)
                  + Items(s.shared.remoteQueue);
    Append4(s.past.ran, Remotes(s.past.log, s.loop.pending), Remotes(s.past.log, s.loop.localQueue),
            Items(s.shared.remoteQueue));
    hide *;
    InitialPart(s.past.ran, rest, op);
  }
}
