/**
  The remote wake-up protocol: when a wake-up is outstanding, and why there is
  never more than one. Proved for every run with any number of producers.
*/
module WakeUp {
  import opened Options
  import opened Protocol

  /** Signals owed, alarms set and null-tag events posted. */
  function Outstanding(s: State): nat {
    |s.shared.owed| + s.grpc.alarms + s.grpc.wakeUps
  }

  function B2N(b: bool): nat {
    if b then 1 else 0
  }

  /**
    Before the first null-tag event is consumed: the flag is still false, there is
    one wake-up outstanding as soon as something was enqueued, and no RPC can have
    been issued, because the moved items wait in the local queue for that event.
  */
  ghost predicate StartUp(s: State) {
    && !s.loop.readSubmitted
    && (s.shared.remoteQueue.Inactive? <==> s.past.enqueued == [])
    && Outstanding(s) == B2N(s.past.enqueued != [])
    && s.grpc.inFlight == {} && s.grpc.posted == map[]
    && s.loop.pending == [] && s.loop.pc != InReceiver
    && (s.loop.localQueue != [] ==> s.loop.pc == AtNext)
    && (s.loop.pc == AtNext ==> s.past.enqueued != [])
    && s.past.ran == []
    && s.loop.localQueue + Items(s.shared.remoteQueue) == s.past.enqueued
  }

  /** From then on: exactly these three shapes. */
  ghost predicate Steady(s: State) {
    || (!s.loop.readSubmitted && s.shared.remoteQueue.Active? && Outstanding(s) == 0)
    || (s.loop.readSubmitted && s.shared.remoteQueue.Inactive? && Outstanding(s) == 0)
    || (s.loop.readSubmitted && Items(s.shared.remoteQueue) != [] && Outstanding(s) == 1)
  }

  ghost predicate WakeInv(s: State) {
    && (if s.past.woken then Steady(s) && s.past.enqueued != [] else StartUp(s))
    && (s.grpc.shutDown ==> s.shared.owed == {})
    && (s.loop.pc == AtNext && !s.loop.readSubmitted ==> s.loop.localQueue != [])
  }

  lemma OwedShrinks(owed: set<Thread>, t: Thread)
    requires t in owed
    ensures |owed - {t}| == |owed| - 1
  {
  }

  lemma EnqueueOutstanding(s: State, t: Thread, op: Op, callback: Callback, note: Note)
    requires t !in s.shared.owed
    ensures Outstanding(EnqueueRemote(s, t, op, callback, note))
              == Outstanding(s) + B2N(s.shared.remoteQueue.Inactive?)
  {
  }

  lemma EnqueueKeeps(s: State, t: Thread, op: Op, callback: Callback, note: Note)
    requires WakeInv(s) && t !in s.shared.owed && !s.grpc.shutDown
    ensures WakeInv(EnqueueRemote(s, t, op, callback, note))
  {
    EnqueueOutstanding(s, t, op, callback, note);
    var local, items := s.loop.localQueue, Items(s.shared.remoteQueue);
    assert local + items + [op] == local + (items + [op]);
    hide Outstanding;
  }

  lemma ProducerKeeps(s: State, a: Action)
    requires WakeInv(s) && Enabled(s, a)
    requires !ByLoop(a)
    ensures WakeInv(Apply(s, a))
  {
    match a
    case Enqueue(t, op) => EnqueueKeeps(s, t, op, OnScheduleComplete, StartedRemote);
    case EnqueueStop(t) => EnqueueKeeps(s, t, s.loop.stopOp, SetShouldStop, StopRequested(true));
    case Signal(t) => OwedShrinks(s.shared.owed, t);
    case _ =>
  }

  lemma CheckRemoteKeeps(s: State)
    requires WakeInv(s) && Enabled(s, CheckRemote)
    ensures WakeInv(Apply(s, CheckRemote))
  {
    if !s.loop.readSubmitted && s.shared.remoteQueue.Active? {
      assert !s.past.woken ==> s.loop.localQueue + Items(s.shared.remoteQueue) + [] == s.past.enqueued;
    }
  }

  lemma NextKeeps(s: State, e: Event)
    requires WakeInv(s) && Enabled(s, Next(e))
    ensures WakeInv(Apply(s, Next(e)))
  {
  }

  lemma RunItemKeeps(s: State)
    requires WakeInv(s) && Enabled(s, RunItem)
    ensures WakeInv(Apply(s, RunItem))
  {
    assert s.past.woken;
    var s' := ExecuteFirst(s);
    assert s'.shared.remoteQueue == s.shared.remoteQueue && s'.loop.readSubmitted == s.loop.readSubmitted;
    assert s'.past.woken;
    assert Outstanding(s') == Outstanding(s);
    assert s'.loop.pc != AtNext;
  }

  lemma LoopKeeps(s: State, a: Action)
    requires WakeInv(s) && Enabled(s, a) && ByLoop(a)
    ensures WakeInv(Apply(s, a))
  {
    match a
    case CheckRemote => CheckRemoteKeeps(s);
    case Next(e) => NextKeeps(s, e);
    case RunItem => RunItemKeeps(s);
    case _ =>
  }

  /** Wake-up accounting: every reachable state has one of the shapes of WakeInv. */
  lemma {:induction false} WakeUpAccounting(run: seq<Action>, s: State)
    requires Reaches(run, s)
    ensures WakeInv(s)
  {
    if run != [] {
      var init, a := run[..|run| - 1], run[|run| - 1];
      var m := After(Initial(), init).value;
      WakeUpAccounting(init, m);
      if ByLoop(a) {
        LoopKeeps(m, a);
      } else {
        ProducerKeeps(m, a);
      }
    }
  }
}
