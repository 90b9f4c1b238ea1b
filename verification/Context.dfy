/**
  GrpcContext itself: its methods update the context's fields step by step, with any
  steps of the other parties in between, and are proved to take only the steps of the
  protocol, in the order of the code.
*/
module Context {
  import opened Options
  import opened Protocol
  import opened WakeUp
  import opened Ownership
  import opened Order
  import opened Safety

  /** Whose code is running: some producer thread's, or the loop's on a thread that called Run. */
  datatype Party = Producer(thread: Thread) | LoopOn(thread: Thread)

  /** How far a call of RunImpl has come: it returned, or it is blocked or running still. */
  datatype Exit = ExitOnStop | ExitOnShutDown | BlockedInNext | StillRunning | ColdStarted

  datatype NextResult = Acquired | ShutDownAndDrained | NoEventYet

  predicate IsBy(a: Action, p: Party)
    decreases p.LoopOn?
  {
    match p
    case Producer(t) => (a.Enqueue? || a.EnqueueStop? || a.Signal?) && a.thread == t
    case LoopOn(t) => ByLoop(a) || IsBy(a, Producer(t))
  }

  /** The steps of one party in a run. */
  function StepsOf(run: seq<Action>, p: Party): seq<Action> {
    if run == [] then []
    else StepsOf(run[..|run| - 1], p) + (if IsBy(run[|run| - 1], p) then [run[|run| - 1]] else [])
  }

  lemma StepsOfSnoc(run: seq<Action>, a: Action, p: Party)
    ensures StepsOf(run + [a], p) == StepsOf(run, p) + (if IsBy(a, p) then [a] else [])
  {
    assert (run + [a])[..|run|] == run;
  }

  /** How many times Next has returned an event. */
  function Turns(run: seq<Action>): nat {
    if run == [] then 0
    else Turns(run[..|run| - 1]) + (if run[|run| - 1].Next? then 1 else 0)
  }

  lemma TurnsSnoc(run: seq<Action>, a: Action)
    ensures Turns(run + [a]) == Turns(run) + (if a.Next? then 1 else 0)
  {
    assert (run + [a])[..|run|] == run;
  }

  /** The loop on this thread goes on for some turns, and the thread submits nothing remotely. */
  ghost predicate Loops(before: seq<Action>, after: seq<Action>, t: Thread, turns: nat) {
    && before <= after && Turns(after) == Turns(before) + turns
    && StepsOf(after, Producer(t)) == StepsOf(before, Producer(t))
  }

  lemma LoopSnoc(run: seq<Action>, a: Action, t: Thread)
    requires ByLoop(a)
    ensures Loops(run, run + [a], t, if a.Next? then 1 else 0)
  {
    TurnsSnoc(run, a);
    StepsOfSnoc(run, a, Producer(t));
  }

  /** What a step of another party cannot change, and that it breaks no library contract. */
  lemma OthersStep(run: seq<Action>, s: State, a: Action, p: Party)
    requires Reaches(run, s) && Enabled(s, a) && !IsBy(a, p)
    ensures s.past.enqueued <= Apply(s, a).past.enqueued
    ensures p.LoopOn? ==>
      var s' := Apply(s, a);
      !s'.fault && s'.loop == s.loop && s'.shared.shouldStop == s.shared.shouldStop && s'.past.ran == s.past.ran
    ensures (p.thread in Apply(s, a).shared.owed <==> p.thread in s.shared.owed)
  {
    LastStepFaults(run, s, a);
    StepHistory(s, a);
    hide RemoteEntry;
  }

  /** What the stop callback does while Run constructs it. */
  function StopSteps(t: Thread, stopRequested: bool, inactive: bool): seq<Action> {
    if !stopRequested then [] else [EnqueueStop(t)] + if inactive then [Signal(t)] else []
  }

  /** While a Run is under way, its StopOperation holds the function that sets should_stop_. */
  lemma StopItem(run: seq<Action>, s: State)
    requires Reaches(run, s) && s.loop.pc != Idle
    ensures s.loop.stopOp in s.shared.execute && s.shared.execute[s.loop.stopOp] == SetShouldStop
  {
    OwnershipHolds(run, s);
    assert Placed(s, s.loop.stopOp);
  }

  /** What executing an item changes of the loop: it is popped, and a StopOperation sets its own flag. */
  lemma PendingItem(run: seq<Action>, s: State)
    requires Reaches(run, s) && Enabled(s, RunItem)
    ensures
      var first, stop, s' := s.loop.pending[0], s.loop.stopOp, ExecuteFirst(s);
      && s'.loop == s.loop.(pending := s.loop.pending[1..], pc := s'.loop.pc)
      && (s'.loop.pc == Draining || s'.loop.pc == InReceiver) && s'.past.enqueued == s.past.enqueued
      && (stop in s'.shared.shouldStop <==> stop in s.shared.shouldStop || first == stop)
  {
    StopItem(run, s);
    CallbackMatchesPhase(run, s);
    ExecuteFrame(s);
    hide Reaches, RemoteEntry;
  }

  /** An operation's tag is in the completion queue only because gRPC completed it, with that flag. */
  lemma AcquiredWasPosted(run: seq<Action>, s: State, op: Op)
    requires Reaches(run, s) && op in s.grpc.posted
    ensures Complete(op, s.grpc.posted[op]) in run
  {
    OwnershipHolds(run, s);
    assert Placed(s, op);
    PostedByGrpc(run, s, op, s.grpc.posted[op]);
  }

  /** The dequeue call finds the queue active exactly if something was ever enqueued. */
  lemma RemoteCheckIsSafeIff(run: seq<Action>, s: State)
    requires Reaches(run, s) && Enabled(s, CheckRemote)
    ensures s.past.enqueued == [] <==> !s.loop.readSubmitted && s.shared.remoteQueue.Inactive?
  {
    EnqueuedAreSubmissions(run, s, 0);
    LastStepFaults(run, s, CheckRemote);
  }

  class GrpcContext {
    // members of GrpcContext
    var localQueue: seq<Op>
    var remoteQueue: RemoteQueue
    var remoteQueueReadSubmitted: bool
    var event: Event
    // the execute_ and should_stop_ members of the operations
    var execute: map<Op, Callback>
    var shouldStop: set<Op>
    // the alarm and the completion queue, as gRPC keeps them
    var grpc: Grpc
    // control state of the threads, and what has happened
    var pc: Pc
    var pending: seq<Op>
    var stopOp: Op
    var owed: set<Thread>
    var past: History
    // the thread whose current_thread_context is this context
    var loopThread: Option<Thread>
    ghost var run: seq<Action>
    ghost var executed: seq<Op>

    function Now(): State
      reads this
    {
      State(Loop(pc, pending, localQueue, remoteQueueReadSubmitted, event, stopOp),
            Shared(remoteQueue, owed, execute, shouldStop),
            grpc, past, false)
    }

    predicate IsRunningOnThisThread(t: Thread)
      reads this
    {
      loopThread == Some(t)
    }

    /**
      The fields are what a run of the protocol without faults leads to. Before RunImpl has
      made it the current context of its thread, a Run that was entered is at the loop's top.
    */
    ghost predicate Valid()
      reads this
    {
      && Reaches(run, Now())
      && (pc == Idle ==> loopThread == None) && (loopThread == None ==> pc == Idle || pc == LoopTop)
    }

    constructor ()
      ensures Valid() && Now() == Initial() && run == [] && executed == [] && loopThread == None
    {
      localQueue, remoteQueue, remoteQueueReadSubmitted := [], Inactive, false;
      event := Event(NullTag, false);
      execute, shouldStop := map[], {};
      grpc := Grpc(0, 0, {}, map[], false);
      pc, pending, stopOp, owed := Idle, [], 0, {};
      past := History(false, map[], [], []);
      loopThread := None;
      run, executed := [], [];
    }

    // ---- the other parties ----

    method Become(s: State)
      requires !s.fault
      modifies this`pc, this`pending, this`localQueue, this`remoteQueueReadSubmitted, this`event, this`stopOp
      modifies this`remoteQueue, this`owed, this`execute, this`shouldStop, this`grpc, this`past
      ensures Now() == s
    {
      pc, pending, localQueue := s.loop.pc, s.loop.pending, s.loop.localQueue;
      remoteQueueReadSubmitted, event, stopOp := s.loop.readSubmitted, s.loop.event, s.loop.stopOp;
      remoteQueue, owed := s.shared.remoteQueue, s.shared.owed;
      execute, shouldStop := s.shared.execute, s.shared.shouldStop;
      grpc, past := s.grpc, s.past;
    }

    /** One step of somebody else; if it is the first of a loop that was entered, on this thread. */
    method Take(a: Action, on: Thread)
      requires Valid() && Enabled(Now(), a) && !Apply(Now(), a).fault
      modifies this
      ensures Valid() && run == old(run) + [a] && Now() == Apply(old(Now()), a)
      ensures !a.RunItem? ==> executed == old(executed)
      ensures loopThread == old(loopThread) || loopThread == None || loopThread == Some(on)
      ensures Now().loop == old(Now().loop) ==> loopThread == old(loopThread)
    {
      Extend(run, Now(), a);
      hide Reaches, Apply;
      run := run + [a];
      if a.RunItem? {
        executed := executed + [pending[0]];
      }
      Become(Apply(Now(), a));
      if pc == Idle {
        loopThread := None;
      } else if loopThread == None && pc != LoopTop {
        loopThread := Some(on);
      }
    }

    /**
      Any number of steps of gRPC, its user and the threads other than p, in any order. A
      producer is busy meanwhile, so no loop is run on its thread.
    */
    method Others(p: Party)
      requires Valid()
      modifies this
      ensures Valid() && old(run) <= run && StepsOf(run, p) == StepsOf(old(run), p)
      ensures StepsOf(run, Producer(p.thread)) == StepsOf(old(run), Producer(p.thread))
      ensures old(past.enqueued) <= past.enqueued
      ensures p.LoopOn? ==>
        && Now().loop == old(Now().loop) && loopThread == old(loopThread) && shouldStop == old(shouldStop)
        && past.ran == old(past.ran) && executed == old(executed) && Turns(run) == Turns(old(run))
      ensures (p.thread in owed <==> p.thread in old(owed))
      ensures p.Producer? && !old(IsRunningOnThisThread(p.thread)) ==> !IsRunningOnThisThread(p.thread)
    {
      var script: seq<(Action, Thread)> := *;
      for i := 0 to |script|
        invariant Valid() && old(run) <= run && StepsOf(run, p) == StepsOf(old(run), p)
        invariant StepsOf(run, Producer(p.thread)) == StepsOf(old(run), Producer(p.thread))
        invariant old(past.enqueued) <= past.enqueued
        invariant p.LoopOn? ==>
          && Now().loop == old(Now().loop) && loopThread == old(loopThread) && shouldStop == old(shouldStop)
          && past.ran == old(past.ran) && executed == old(executed) && Turns(run) == Turns(old(run))
        invariant (p.thread in owed <==> p.thread in old(owed))
        invariant p.Producer? && !old(IsRunningOnThisThread(p.thread)) ==> !IsRunningOnThisThread(p.thread)
      {
        hide Reaches, Apply, Turns, StepsOf;
        var (a, on) := script[i];
        if Enabled(Now(), a) && !IsBy(a, p) && !Apply(Now(), a).fault {
          OthersStep(run, Now(), a, p);
          StepsOfSnoc(run, a, p);
          StepsOfSnoc(run, a, Producer(p.thread));
          TurnsSnoc(run, a);
          Take(a, if p.Producer? && on == p.thread then on + 1 else on);
        }
      }
    }

    // ---- producer threads ----

    /** remote_queue_.enqueue: appends atomically and tells whether the queue was inactive. */
    method AppendRemote(t: Thread, op: Op, callback: Callback, note: Note) returns (wasInactive: bool)
      modifies this`execute, this`remoteQueue, this`owed, this`past
      ensures Now() == EnqueueRemote(old(Now()), t, op, callback, note) && wasInactive == old(remoteQueue.Inactive?)
    {
      wasInactive := remoteQueue.Inactive?;
      execute := execute[op := callback];
      remoteQueue := Active(Items(remoteQueue) + [op]);
      if wasInactive {
        owed := owed + {t};
      }
      past := Noted(past, op, note).(enqueued := past.enqueued + [op]);
    }

    /** The enqueue step of a producer; from now on it may owe a signal. */
    method Enqueue(t: Thread, op: Op, callback: Callback) returns (wasInactive: bool)
      requires Valid() && t !in owed && !grpc.shutDown
      requires (callback == Callback.OnScheduleComplete && Fresh(Now(), op))
            || (callback == SetShouldStop && StopPending(Now()) && op == stopOp)
      modifies this`execute, this`remoteQueue, this`owed, this`past, this`run
      ensures Valid()
      ensures run == old(run) + [if callback == SetShouldStop then EnqueueStop(t) else Action.Enqueue(t, op)]
      ensures wasInactive == old(remoteQueue.Inactive?)
      ensures remoteQueue == Active(old(Items(remoteQueue)) + [op])
      ensures owed == if wasInactive then old(owed) + {t} else old(owed)
      ensures past.enqueued == old(past.enqueued) + [op]
      ensures executed == old(executed) && Now().loop == old(Now().loop)
    {
      ghost var a := if callback == SetShouldStop then EnqueueStop(t) else Action.Enqueue(t, op);
      Extend(run, Now(), a);
      hide Reaches;
      wasInactive := AppendRemote(t, op, callback,
                                  if callback == SetShouldStop then StopRequested(true) else StartedRemote);
      run := run + [a];
    }

    /** SignalRemoteQueue: only a producer that was told the loop is inactive comes here. */
    method SignalRemoteQueue(t: Thread)
      requires Valid() && t in owed
      modifies this`grpc, this`owed, this`run
      ensures Valid() && run == old(run) + [Signal(t)]
      ensures old(grpc.alarms) == 0 && grpc == old(grpc).(alarms := 1)
      ensures owed == {} && Now().loop == old(Now().loop) && past == old(past)
      ensures executed == old(executed)
    {
      ghost var s := Now();
      SingleAlarm(run, s, t);
      grpc := grpc.(alarms := 1);
      owed := owed - {t};
      assert Now() == Apply(s, Signal(t));
      Extend(run, s, Signal(t));
      run := run + [Signal(t)];
    }

    /** ScheduleRemote: enqueue, and signal exactly if the queue was inactive. */
    method ScheduleRemote(p: Party, op: Op, callback: Callback)
      requires Valid() && p.thread !in owed && !grpc.shutDown
      requires (callback == Callback.OnScheduleComplete && Fresh(Now(), op))
            || (callback == SetShouldStop && StopPending(Now()) && op == stopOp)
      modifies this
      ensures Valid() && p.thread !in owed && old(past.enqueued) + [op] <= past.enqueued
      ensures !old(IsRunningOnThisThread(p.thread)) ==> !IsRunningOnThisThread(p.thread)
      ensures
        var a := if callback == SetShouldStop then EnqueueStop(p.thread) else Action.Enqueue(p.thread, op);
        && old(run) + [a] <= run
        && StepsOf(run, Producer(p.thread)) ==
             StepsOf(old(run), Producer(p.thread)) + [a]
             + (if old(remoteQueue.Inactive?) then [Signal(p.thread)] else [])
        && StepsOf(run, p) ==
             StepsOf(old(run), p) + [a] + (if old(remoteQueue.Inactive?) then [Signal(p.thread)] else [])
      ensures p.LoopOn? ==>
        Now().loop == old(Now().loop) && loopThread == old(loopThread) && executed == old(executed)
    {
      ghost var t := p.thread;
      ghost var a := if callback == SetShouldStop then EnqueueStop(t) else Action.Enqueue(t, op);
      StepsOfSnoc(run, a, Producer(t));
      StepsOfSnoc(run, a, p);
      var wasInactive := Enqueue(p.thread, op, callback);
      if wasInactive {
        Others(p);
        StepsOfSnoc(run, Signal(t), Producer(t));
        StepsOfSnoc(run, Signal(t), p);
        SignalRemoteQueue(p.thread);
      }
    }

    // ---- what the loop thread's callbacks do ----

    /**
      StartAsyncRPC: hands the operation to gRPC, which will post it back under its tag.
      It checks that the context is running on the calling thread.
    */
    method StartAsyncRPC(t: Thread, op: Op)
      requires loopThread == Some(t)
      modifies this`execute, this`grpc, this`past
      ensures Now() == Issue(old(Now()), op)
    {
      execute := execute[op := Callback.OnRequestComplete];
      grpc := grpc.(inFlight := grpc.inFlight + {op});
      past := Noted(past, op, Issued);
    }

    /** OnRequestComplete: the receiver gets the flag in event_. */
    method OnRequestComplete(op: Op)
      modifies this`past, this`pc
      ensures Now() == Deliver(old(Now()), op)
    {
      var result := event.ok;
      past := Noted(past, op, Delivered(result));
      pc := InReceiver;
    }

    /** pending.pop_front() */
    method PopFront() returns (item: Op)
      requires pending != []
      modifies this`past, this`pending
      ensures item == old(pending[0]) && Now() == Pop(old(Now()))
    {
      item := pending[0];
      if RemoteEntry(past.log, item) {
        past := past.(ran := past.ran + [item]);
      }
      pending := pending[1..];
    }

    /** The body of a StopOperation. */
    method SetStop(op: Op)
      modifies this`past, this`shouldStop
      ensures Now() == Stop(old(Now()), op)
    {
      shouldStop := shouldStop + {op};
      past := Noted(past, op, Stopped);
    }

    /** Pops the first item of the batch and runs its execute_ function. */
    method ExecuteItem() returns (item: Op)
      requires Valid() && pc == Draining && pending != []
      modifies this
      ensures Valid() && run == old(run) + [RunItem] && executed == old(executed) + [item]
      ensures item == old(pending[0]) && Now() == ExecuteFirst(old(Now())) && loopThread == old(loopThread)
    {
      CallbackMatchesPhase(run, Now());
      Extend(run, Now(), RunItem);
      item := PopFront();
      match execute[item] {
        case OnScheduleComplete => StartAsyncRPC(loopThread.value, item);
        case OnRequestComplete => OnRequestComplete(item);
        case SetShouldStop => SetStop(item);
      }
      run := run + [RunItem];
      executed := executed + [item];
    }

    /** Operation::start, called on thread t. */
    method Start(t: Thread, op: Op)
      requires Valid() && Fresh(Now(), op) && !grpc.shutDown
      requires if loopThread == Some(t) then pc == InReceiver else t !in owed
      modifies this
      ensures Valid() && old(run) <= run && (loopThread == Some(t) <==> old(loopThread) == Some(t))
      ensures old(loopThread) == Some(t) ==>
        && run == old(run) + [ReceiverStarts(op)] && Now().loop == old(Now().loop)
        && shouldStop == old(shouldStop) && past.ran == old(past.ran) && executed == old(executed)
        && op in grpc.inFlight && past.enqueued == old(past.enqueued)
      ensures old(loopThread) != Some(t) ==>
        && t !in owed && old(past.enqueued) + [op] <= past.enqueued
        && StepsOf(run, Producer(t)) == StepsOf(old(run), Producer(t)) +
             [Action.Enqueue(t, op)] + (if old(remoteQueue.Inactive?) then [Signal(t)] else [])
    {
      if !IsRunningOnThisThread(t) {
        ScheduleRemote(Producer(t), op, Callback.OnScheduleComplete);
      } else {
        Extend(run, Now(), ReceiverStarts(op));
        hide Reaches;
        past := Noted(past, op, StartedLocal);
        StartAsyncRPC(t, op);
        run := run + [ReceiverStarts(op)];
      }
    }

    /**
      ScheduleImpl of the StopOperation, as the stop callback of Run calls it on thread t.
      If stop was requested before, the thread that enters Run calls it while it constructs
      the callback; the context is not yet the current one of that thread then.
    */
    method RequestStop(t: Thread, entering: bool)
      requires Valid() && StopPending(Now())
      requires if loopThread == Some(t) then pc == InReceiver else t !in owed && !grpc.shutDown
      requires entering ==> pc == LoopTop && loopThread == None
      modifies this
      ensures Valid() && old(run) <= run && (loopThread == Some(t) <==> old(loopThread) == Some(t))
      ensures old(loopThread) == Some(t) ==>
        && run == old(run) + [ReceiverStops]
        && Now().loop == old(Now().loop).(localQueue := old(localQueue) + [stopOp])
        && shouldStop == old(shouldStop) && past.ran == old(past.ran) && executed == old(executed)
        && past.enqueued == old(past.enqueued)
      ensures entering ==>
        && old(run) + [EnqueueStop(t)] <= run && Now().loop == old(Now().loop) && loopThread == None
        && StepsOf(run, LoopOn(t)) ==
             StepsOf(old(run), LoopOn(t)) + StopSteps(t, true, old(remoteQueue.Inactive?))
      ensures old(loopThread) != Some(t) ==>
        && t !in owed && old(past.enqueued) + [old(stopOp)] <= past.enqueued
        && StepsOf(run, Producer(t)) == StepsOf(old(run), Producer(t)) +
             [EnqueueStop(t)] + (if old(remoteQueue.Inactive?) then [Signal(t)] else [])
    {
      if IsRunningOnThisThread(t) {
        Extend(run, Now(), ReceiverStops);
        hide Reaches;
        localQueue := localQueue + [stopOp];
        past := Noted(past, stopOp, StopRequested(false));
        run := run + [ReceiverStops];
      } else {
        ScheduleRemote(if entering then LoopOn(t) else Producer(t), stopOp, SetShouldStop);
      }
    }

    /** One thing a resumed receiver may do: start an operation (Some) or request stop (None). */
    method ReceiverActs(what: Option<Op>)
      requires Valid() && pc == InReceiver
      modifies this
      ensures Valid() && Loops(old(run), run, old(loopThread).value, 0)
      ensures Now().loop == old(Now().loop).(localQueue := localQueue)
      ensures shouldStop == old(shouldStop) && past.ran == old(past.ran) && executed == old(executed)
      ensures old(past.enqueued) <= past.enqueued
      ensures loopThread == old(loopThread)
      ensures run == old(run) +
        match what
        case None => if StopPending(old(Now())) then [ReceiverStops] else []
        case Some(op) => if Fresh(old(Now()), op) && !old(grpc.shutDown) then [ReceiverStarts(op)] else []
    {
      match what {
        case None =>
          if StopPending(Now()) {
            LoopSnoc(run, ReceiverStops, loopThread.value);
            RequestStop(loopThread.value, false);
          }
        case Some(op) =>
          if Fresh(Now(), op) && !grpc.shutDown {
            LoopSnoc(run, ReceiverStarts(op), loopThread.value);
            Start(loopThread.value, op);
          }
      }
    }

    /** The return of a continuation to the drain loop. */
    method LeaveReceiver()
      requires Valid() && pc == InReceiver
      modifies this`pc, this`run
      ensures Valid() && run == old(run) + [ReceiverReturns] && pc == Draining
    {
      Extend(run, Now(), ReceiverReturns);
      hide Reaches;
      pc := Draining;
      run := run + [ReceiverReturns];
    }

    /** The continuation of a receiver: any sequence of such acts, then it returns to the drain loop. */
    method Resume()
      requires Valid() && pc == InReceiver
      modifies this
      ensures Valid() && Loops(old(run), run, old(loopThread).value, 0)
      ensures pc == Draining && Now().loop == old(Now().loop).(pc := Draining, localQueue := localQueue)
      ensures shouldStop == old(shouldStop) && past.ran == old(past.ran) && executed == old(executed)
      ensures old(past.enqueued) <= past.enqueued
      ensures loopThread == old(loopThread)
    {
      var script: seq<Option<Op>> := *;
      for i := 0 to |script|
        invariant Valid() && Loops(old(run), run, old(loopThread).value, 0)
        invariant Now().loop == old(Now().loop).(localQueue := localQueue) && loopThread == old(loopThread)
        invariant shouldStop == old(shouldStop) && past.ran == old(past.ran) && executed == old(executed)
        invariant old(past.enqueued) <= past.enqueued
      {
        hide Turns, StepsOf, Reaches;
        Others(LoopOn(loopThread.value));
        ReceiverActs(script[i]);
      }
      LoopSnoc(run, ReceiverReturns, loopThread.value);
      hide Valid, Turns, StepsOf;
      LeaveReceiver();
    }

    // ---- the run loop ----

    /** One turn of the drain loop, with everything an item's execution brings about. */
    method RunPendingItem() returns (item: Op)
      requires Valid() && pc == Draining && pending != []
      modifies this
      ensures Valid() && old(past.enqueued) <= past.enqueued && Loops(old(run), run, old(loopThread).value, 0)
      ensures pc == Draining && item == old(pending[0]) && pending == old(pending[1..])
      ensures executed == old(executed) + [item]
      ensures stopOp == old(stopOp) && event == old(event)
      ensures remoteQueueReadSubmitted == old(remoteQueueReadSubmitted)
      ensures stopOp in shouldStop <==> stopOp in old(shouldStop) || item == stopOp
      ensures loopThread == old(loopThread)
    {
      Others(LoopOn(loopThread.value));
      PendingItem(run, Now());
      LoopSnoc(run, RunItem, loopThread.value);
      hide Reaches, ExecuteFirst, Turns, StepsOf;
      item := ExecuteItem();
      if pc == InReceiver {
        Resume();
      }
    }

    /** Starts a batch: what is queued locally becomes pending. */
    method MovePending()
      requires Valid() && pc == LoopTop && loopThread != None
      modifies this
      ensures Valid() && run == old(run) + [Action.BeginBatch] && executed == old(executed)
      ensures pc == Draining && pending == old(localQueue) && localQueue == [] && past == old(past)
      ensures stopOp == old(stopOp) && event == old(event) && shouldStop == old(shouldStop)
      ensures remoteQueueReadSubmitted == old(remoteQueueReadSubmitted)
      ensures loopThread == old(loopThread)
    {
      Extend(run, Now(), Action.BeginBatch);
      pc, pending, localQueue := Draining, localQueue, [];
      run := run + [Action.BeginBatch];
    }

    /**
      Executes the items that are queued locally at entry, all of them and in order.
      What callbacks schedule meanwhile stays in the local queue: at most the stop.
    */
    method ExecutePendingLocal()
      requires Valid() && pc == LoopTop && loopThread != None
      modifies this
      ensures Valid() && old(past.enqueued) <= past.enqueued && Loops(old(run), run, old(loopThread).value, 0)
      ensures pc == Draining && pending == []
      ensures executed == old(executed) + old(localQueue)
      ensures localQueue == [] || localQueue == [stopOp]
      ensures stopOp == old(stopOp) && event == old(event)
      ensures remoteQueueReadSubmitted == old(remoteQueueReadSubmitted)
      ensures stopOp in shouldStop <==> stopOp in old(localQueue)
      ensures loopThread == old(loopThread)
    {
      OwnershipHolds(run, Now());
      ghost var batch := localQueue;
      ghost var n := 0;
      LoopSnoc(run, Action.BeginBatch, loopThread.value);
      MovePending();
      while pending != []
        invariant Valid() && old(past.enqueued) <= past.enqueued && Loops(old(run), run, old(loopThread).value, 0)
        invariant pc == Draining && n <= |batch| && pending == batch[n..]
        invariant executed == old(executed) + batch[..n]
        invariant stopOp == old(stopOp) && event == old(event)
        invariant remoteQueueReadSubmitted == old(remoteQueueReadSubmitted)
        invariant stopOp in shouldStop <==> stopOp in batch[..n]
        invariant loopThread == old(loopThread)
        decreases |pending|
      {
        hide Valid;
        var item := RunPendingItem();
        n := n + 1;
        assert batch[..n] == batch[..n - 1] + [item];
      }
      OwnershipHolds(run, Now());
    }

    /** try_mark_inactive_or_dequeue_all: the library requires an active queue. */
    method MarkInactiveOrDequeueAll() returns (items: seq<Op>)
      requires remoteQueue.Active?
      modifies this`remoteQueue
      ensures items == old(Items(remoteQueue))
      ensures remoteQueue == if items == [] then Inactive else Active([])
    {
      items := remoteQueue.items;
      remoteQueue := if items == [] then Inactive else Active([]);
    }

    /** TryScheduleRemoteQueuedItems: true if there was nothing and the queue is now inactive. */
    method TryScheduleRemoteQueuedItems() returns (empty: bool)
      requires remoteQueue.Active?
      modifies this`remoteQueue, this`localQueue
      ensures empty <==> old(Items(remoteQueue)) == []
      ensures localQueue == old(localQueue) + old(Items(remoteQueue))
      ensures remoteQueue == if empty then Inactive else Active([])
    {
      var items := MarkInactiveOrDequeueAll();
      if items != [] {
        localQueue := localQueue + items;
        return false;
      }
      return true;
    }

    /**
      The remote check of RunImpl. It fails, before anything has changed, on the dequeue of
      an inactive queue, exactly if nothing was ever enqueued.
    */
    method CheckRemoteQueue() returns (cold: bool)
      requires Valid() && pc == RemoteCheck
      modifies this`remoteQueue, this`localQueue, this`remoteQueueReadSubmitted, this`pc, this`run
      ensures Valid() && (cold <==> past.enqueued == [])
      ensures cold ==> Now() == old(Now()) && run == old(run) && !remoteQueueReadSubmitted && remoteQueue.Inactive?
      ensures !cold ==>
        && run == old(run) + [CheckRemote] && pc == AtNext
        && (remoteQueueReadSubmitted <==> old(remoteQueueReadSubmitted || Items(remoteQueue) == []))
        && (old(remoteQueueReadSubmitted) ==> localQueue == old(localQueue) && remoteQueue == old(remoteQueue))
        && (!old(remoteQueueReadSubmitted) ==> localQueue == old(localQueue) + old(Items(remoteQueue)))
        && (!remoteQueueReadSubmitted ==> localQueue != [])
    {
      ghost var s := Now();
      RemoteCheckIsSafeIff(run, s);
      if !remoteQueueReadSubmitted && remoteQueue.Inactive? {
        return true;
      }
      Extend(run, s, CheckRemote);
      hide Reaches;
      if !remoteQueueReadSubmitted {
        remoteQueueReadSubmitted := TryScheduleRemoteQueuedItems();
      }
      pc := AtNext;
      run := run + [CheckRemote];
      assert Now() == Apply(s, CheckRemote);
      return false;
    }

    /** completion_queue_->Next: some posted event, false once drained, or still blocked. */
    method NextEvent() returns (result: NextResult, e: Event)
      ensures
        match result
        case Acquired => CanReturn(grpc, e)
        case ShutDownAndDrained => Drained(grpc)
        case NoEventYet => !Drained(grpc) && forall e' :: !CanReturn(grpc, e')
    {
      var preferNull: bool, ok: bool := *, *;
      e := Event(NullTag, ok);
      if grpc.wakeUps > 0 && (preferNull || grpc.posted == map[]) {
        result := Acquired;
      } else if grpc.posted != map[] {
        var op :| op in grpc.posted;
        result, e := Acquired, Event(OperationTag(op), grpc.posted[op]);
      } else {
        result := if Drained(grpc) then ShutDownAndDrained else NoEventYet;
      }
    }

    /** What AcquireCompletionQueueItems does with the event Next returned. */
    method HandleEvent(e: Event)
      requires pc == AtNext && CanReturn(grpc, e)
      modifies this`event, this`pc, this`remoteQueueReadSubmitted, this`grpc, this`past, this`localQueue
      ensures Now() == Acquire(old(Now()), e)
    {
      event, pc := e, LoopTop;
      match e.tag {
        case NullTag =>
          remoteQueueReadSubmitted := false;
          grpc := grpc.(wakeUps := grpc.wakeUps - 1);
          past := past.(woken := true);
        case OperationTag(op) =>
          grpc := grpc.(posted := grpc.posted - {op});
          localQueue := localQueue + [op];
      }
    }

    method TakeEvent(e: Event)
      requires Valid() && pc == AtNext && CanReturn(grpc, e)
      modifies this
      ensures Valid() && run == old(run) + [Next(e)] && executed == old(executed)
      ensures Now() == Acquire(old(Now()), e)
      ensures e.tag.OperationTag? ==> Complete(e.tag.op, e.ok) in run
      ensures loopThread == old(loopThread)
    {
      if e.tag.OperationTag? {
        AcquiredWasPosted(run, Now(), e.tag.op);
      }
      Extend(run, Now(), Next(e));
      hide Reaches;
      HandleEvent(e);
      run := run + [Next(e)];
    }

    /** The break out of the loop when Next has returned false. */
    method LeaveLoop()
      requires Valid() && pc == AtNext && Drained(grpc)
      modifies this
      ensures Valid() && run == old(run) + [NextDrained] && executed == old(executed)
      ensures Now() == old(Now()).(loop := old(Now().loop).(pc := Idle))
    {
      Extend(run, Now(), NextDrained);
      hide Reaches;
      pc, loopThread := Idle, None;
      run := run + [NextDrained];
    }

    /** AcquireCompletionQueueItems, blocked for as long as nothing has been posted. */
    method AcquireCompletionQueueItems() returns (result: NextResult)
      requires Valid() && pc == AtNext
      modifies this
      ensures Valid() && old(past.enqueued) <= past.enqueued
      ensures Loops(old(run), run, old(loopThread).value, if result == Acquired then 1 else 0)
      ensures executed == old(executed) && shouldStop == old(shouldStop) && stopOp == old(stopOp)
      ensures
        match result
        case Acquired =>
          && pc == LoopTop && run != [] && run[|run| - 1] == Next(event)
          && (match event.tag
              case NullTag => !remoteQueueReadSubmitted && localQueue == old(localQueue)
              case OperationTag(op) =>
                && remoteQueueReadSubmitted == old(remoteQueueReadSubmitted)
                && localQueue == old(localQueue) + [op] && Complete(op, event.ok) in run)
        case ShutDownAndDrained =>
          pc == Idle && Drained(grpc) && localQueue == old(localQueue) && run != [] && run[|run| - 1] == NextDrained
        case NoEventYet =>
          Now().loop == old(Now().loop) && !Drained(grpc) && forall e :: !CanReturn(grpc, e)
      ensures pc != Idle ==> loopThread == old(loopThread)
    {
      assert loopThread != None;
      hide Valid, Turns, StepsOf;
      Others(LoopOn(loopThread.value));
      var e: Event;
      result, e := NextEvent();
      match result {
        case Acquired =>
          LoopSnoc(run, Next(e), loopThread.value);
          TakeEvent(e);
        case ShutDownAndDrained =>
          LoopSnoc(run, NextDrained, loopThread.value);
          LeaveLoop();
        case NoEventYet =>
      }
    }

    /** The stop test that ends a turn's batch. */
    method FinishTurnBatch() returns (stop: bool)
      requires Valid() && pc == Draining && pending == []
      modifies this
      ensures Valid() && run == old(run) + [Action.FinishBatch] && executed == old(executed)
      ensures stop <==> stopOp in shouldStop
      ensures Now() == old(Now()).(loop := old(Now().loop).(pc := if stop then Idle else RemoteCheck))
      ensures stop ==> localQueue == []
      ensures pc != Idle ==> loopThread == old(loopThread)
    {
      Extend(run, Now(), Action.FinishBatch);
      stop := stopOp in shouldStop;
      if stop {
        StopExit(run, Now(), stopOp);
      }
      pc := if stop then Idle else RemoteCheck;
      if stop {
        loopThread := None;
      }
      run := run + [Action.FinishBatch];
    }

    /** What is left behind at each of the ways a call of RunImpl can be found. */
    ghost predicate HasExited(exit: Exit)
      reads this
    {
      match exit
      case ExitOnStop => pc == Idle && stopOp in shouldStop && localQueue == [] && pending == []
      case ExitOnShutDown => pc == Idle && stopOp !in shouldStop && Drained(grpc)
      case BlockedInNext => pc == AtNext && !Drained(grpc) && forall e :: !CanReturn(grpc, e)
      case StillRunning => pc == LoopTop
      case ColdStarted => pc == RemoteCheck && past.enqueued == []
    }

    /** The batch and the stop test. */
    method BatchAndStopTest() returns (stop: bool)
      requires Valid() && pc == LoopTop && loopThread != None
      modifies this
      ensures Valid() && old(past.enqueued) <= past.enqueued && stopOp == old(stopOp)
      ensures Loops(old(run), run, old(loopThread).value, 0) && executed == old(executed) + old(localQueue)
      ensures stop <==> stopOp in old(localQueue)
      ensures if stop then HasExited(ExitOnStop) else pc == RemoteCheck && stopOp !in shouldStop
      ensures pc != Idle ==> loopThread == old(loopThread)
    {
      ExecutePendingLocal();
      hide Valid, Turns, StepsOf;
      LoopSnoc(run, Action.FinishBatch, loopThread.value);
      stop := FinishTurnBatch();
    }

    /** The part of a loop pass before Next: the batch, the stop test and the remote check. */
    method BatchAndCheck() returns (exit: Exit)
      requires Valid() && pc == LoopTop && loopThread != None
      modifies this
      ensures Valid() && old(past.enqueued) <= past.enqueued && stopOp == old(stopOp)
      ensures Loops(old(run), run, old(loopThread).value, 0) && executed == old(executed) + old(localQueue)
      ensures exit == ExitOnStop || exit == ColdStarted || exit == StillRunning
      ensures exit != StillRunning ==> HasExited(exit)
      ensures exit == StillRunning ==> pc == AtNext && stopOp !in shouldStop
      ensures exit == ExitOnStop <==> stopOp in old(localQueue)
      ensures pc != Idle ==> loopThread == old(loopThread)
    {
      hide Valid, Turns, StepsOf;
      var stop := BatchAndStopTest();
      if stop {
        return ExitOnStop;
      }
      Others(LoopOn(loopThread.value));
      LoopSnoc(run, CheckRemote, loopThread.value);
      var cold := CheckRemoteQueue();
      return if cold then ColdStarted else StillRunning;
    }

    /** One pass through the loop of RunImpl; StillRunning means that it goes round again. */
    method LoopOnce() returns (exit: Exit)
      requires Valid() && pc == LoopTop && loopThread != None
      modifies this
      ensures Valid() && old(past.enqueued) <= past.enqueued && stopOp == old(stopOp)
      ensures Loops(old(run), run, old(loopThread).value, if exit == StillRunning then 1 else 0)
      ensures HasExited(exit) && executed == old(executed) + old(localQueue)
      ensures exit == ExitOnStop <==> stopOp in old(localQueue)
      ensures pc != Idle ==> loopThread == old(loopThread)
    {
      hide Valid, Turns, CanReturn;
      exit := BatchAndCheck();
      if exit == StillRunning {
        var result := AcquireCompletionQueueItems();
        match result {
          case Acquired =>
          case ShutDownAndDrained => exit := ExitOnShutDown;
          case NoEventYet => exit := BlockedInNext;
        }
      }
    }

    /**
      RunImpl, observed for at most the given number of turns. It returns when the
      StopOperation has run or the completion queue is drained; it may also be found
      blocked in Next, or about to check a remote queue nobody has used yet. It submits
      nothing itself, and takes no step before its first turn.
    */
    method RunImpl(t: Thread, turns: nat) returns (exit: Exit)
      requires Valid() && pc == LoopTop && loopThread == None
      modifies this
      ensures Valid() && old(past.enqueued) <= past.enqueued && stopOp == old(stopOp)
      ensures HasExited(exit) && old(executed) <= executed
      ensures exists done: nat ::
        Loops(old(run), run, t, done) && done <= turns && (exit == StillRunning <==> done == turns)
      ensures turns == 0 ==> Now() == old(Now()) && run == old(run)
      ensures loopThread == if exit == ExitOnStop || exit == ExitOnShutDown then None else Some(t)
    {
      loopThread := Some(t);
      exit := StillRunning;
      var turn := 0;
      while turn < turns
        invariant Valid() && pc == LoopTop
        invariant old(past.enqueued) <= past.enqueued && stopOp == old(stopOp)
        invariant turn <= turns && Loops(old(run), run, t, turn)
        invariant turn == 0 ==> Now() == old(Now()) && run == old(run)
        invariant exit == StillRunning && old(executed) <= executed && loopThread == Some(t)
      {
        hide Valid, Turns, StepsOf;
        exit := LoopOnce();
        if exit != StillRunning {
          assert Loops(old(run), run, t, turn);
          return;
        }
        turn := turn + 1;
      }
    }

    /** A fresh StopOperation on the stack of Run. */
    method Enter(newStop: Op)
      requires Valid() && pc == Idle && Fresh(Now(), newStop)
      modifies this`stopOp, this`pc, this`execute, this`past, this`run
      ensures Valid() && run == old(run) + [EnterRun(newStop)]
      ensures pc == LoopTop && stopOp == newStop && StopPending(Now())
      ensures past.enqueued == old(past.enqueued)
    {
      Extend(run, Now(), EnterRun(newStop));
      hide Reaches;
      stopOp, pc := newStop, LoopTop;
      execute := execute[newStop := SetShouldStop];
      past := Noted(past, newStop, StopCreated);
      run := run + [EnterRun(newStop)];
    }

    /**
      Run up to its call of RunImpl, on thread t. Constructing the stop callback schedules
      the StopOperation if stop was requested already, and does nothing otherwise.
    */
    method Begin(t: Thread, newStop: Op, stopRequested: bool)
      requires Valid() && pc == Idle && Fresh(Now(), newStop)
      requires stopRequested ==> t !in owed && !grpc.shutDown
      modifies this
      ensures Valid() && pc == LoopTop && stopOp == newStop && loopThread == None
      ensures !stopRequested ==> run == old(run) + [EnterRun(newStop)] && past.enqueued == old(past.enqueued)
      ensures stopRequested ==>
        && old(run) + [EnterRun(newStop), EnqueueStop(t)] <= run && old(past.enqueued) + [newStop] <= past.enqueued
      ensures StepsOf(run, LoopOn(t)) ==
        StepsOf(old(run), LoopOn(t)) + [EnterRun(newStop)] + StopSteps(t, stopRequested, old(remoteQueue.Inactive?))
      ensures StepsOf(run, Producer(t)) ==
        StepsOf(old(run), Producer(t)) + StopSteps(t, stopRequested, old(remoteQueue.Inactive?))
    {
      assert loopThread == None;
      StepsOfSnoc(run, EnterRun(newStop), LoopOn(t));
      StepsOfSnoc(run, EnterRun(newStop), Producer(t));
      hide Reaches, Turns, StepsOf;
      Enter(newStop);
      if stopRequested {
        RequestStop(t, true);
      }
    }

    /**
      Run on thread t: RunImpl watches the flag of its own StopOperation. The thread itself
      submits that operation, before the loop begins, exactly if stop was requested already.
    */
    method Run(t: Thread, newStop: Op, stopRequested: bool, turns: nat) returns (exit: Exit)
      requires Valid() && pc == Idle && Fresh(Now(), newStop)
      requires stopRequested ==> t !in owed && !grpc.shutDown
      modifies this
      ensures Valid() && stopOp == newStop
      ensures old(run) + [EnterRun(newStop)] + (if stopRequested then [EnqueueStop(t)] else []) <= run
      ensures StepsOf(run, Producer(t)) ==
        StepsOf(old(run), Producer(t)) + StopSteps(t, stopRequested, old(remoteQueue.Inactive?))
      ensures turns == 0 && !stopRequested ==> run == old(run) + [EnterRun(newStop)]
      ensures HasExited(exit)
      ensures exit == ColdStarted ==> old(past.enqueued) == [] && !stopRequested
      ensures loopThread == if exit == ExitOnStop || exit == ExitOnShutDown then None else Some(t)
    {
      hide Valid, Reaches, Turns, StepsOf;
      Begin(t, newStop, stopRequested);
      exit := RunImpl(t, turns);
    }
  }

  /** So everything proved of runs holds of every context, whatever was called on it. */
  lemma EveryContext(c: GrpcContext)
    requires c.Valid()
    ensures WakeInv(c.Now()) && OwnershipInv(c.Now()) && OrderInv(c.Now()) && !ColdStart(c.run)
  {
    WakeUpAccounting(c.run, c.Now());
    OwnershipHolds(c.run, c.Now());
    OrderAndConservation(c.run, c.Now());
    FaultIffColdStart(c.run, c.Now());
  }
}
