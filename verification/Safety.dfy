/**
  When the context keeps the contracts of the libraries it uses: the dequeue call is
  made on an active queue only, the alarm is set only when none is pending, and only
  initialised callbacks are executed. All of this holds exactly when the first remote
  enqueue comes before the first remote check.
*/
module Safety {
  import opened Options
  import opened Protocol
  import opened WakeUp
  import opened Ownership
  import opened Order

  /** A remote check came before anything was enqueued. */
  ghost predicate ColdStart(run: seq<Action>) {
    exists i :: 0 <= i < |run| && run[i] == CheckRemote && Submissions(run[..i]) == []
  }

  lemma SignalIsSafe(s: State, t: Thread)
    requires WakeInv(s) && t in s.shared.owed
    ensures s.grpc.alarms == 0 && s.grpc.wakeUps == 0 && s.shared.owed == {t}
  {
    OwedShrinks(s.shared.owed, t);
    assert |s.shared.owed - {t}| == 0;
    assert s.shared.owed == (s.shared.owed - {t}) + {t};
  }

  lemma FaultStep(s: State, a: Action)
    requires WakeInv(s) && OwnershipInv(s) && Enabled(s, a)
    ensures Apply(s, a).fault <==> a == CheckRemote && s.past.enqueued == []
  {
    if a.RunItem? {
      assert Placed(s, s.loop.pending[0]);
      FirstKeeps(s);
    } else if a.Signal? {
      SignalIsSafe(s, a.thread);
    }
    hide Placed, RemoteEntry;
  }

  lemma LastStepFaults(run: seq<Action>, s: State, a: Action)
    requires Reaches(run, s) && Enabled(s, a)
    ensures Apply(s, a).fault <==> a == CheckRemote && Submissions(run) == []
  {
    WakeUpAccounting(run, s);
    OwnershipHolds(run, s);
    EnqueuedAreSubmissions(run, s, 0);
    FaultStep(s, a);
    hide OwnershipInv, WakeInv, Apply;
  }

  lemma ColdStartSnoc(run: seq<Action>, a: Action)
    ensures ColdStart(run + [a]) <==> ColdStart(run) || (a == CheckRemote && Submissions(run) == [])
  {
    var more := run + [a];
    assert more[..|run|] == run;
    assert forall i :: 0 <= i < |run| ==> more[i] == run[i] && more[..i] == run[..i];
    if a == CheckRemote && Submissions(run) == [] {
      assert more[|run|] == CheckRemote && Submissions(more[..|run|]) == [];
    }
    if ColdStart(run) {
      var i :| 0 <= i < |run| && run[i] == CheckRemote && Submissions(run[..i]) == [];
      assert more[i] == CheckRemote && Submissions(more[..i]) == [];
    }
  }

  /** A run breaks a library contract if and only if it starts cold. */
  lemma {:induction false} FaultIffColdStart(run: seq<Action>, s: State)
    requires Reaches(run, s)
    ensures s.fault <==> ColdStart(run)
  {
    if run == [] {
      assert !ColdStart(run);
    } else {
      var init, a := run[..|run| - 1], run[|run| - 1];
      var m := After(Initial(), init).value;
      FaultIffColdStart(init, m);
      LastStepFaults(init, m, a);
      ColdStartSnoc(init, a);
      assert run == init + [a];
      hide ColdStart;
    }
  }

  lemma ColdBatch() returns (run: seq<Action>, s: State)
    ensures run == [EnterRun(0), BeginBatch, FinishBatch]
    ensures Reaches(run, s) && !s.fault
    ensures s.loop == Loop(RemoteCheck, [], [], false, Event(NullTag, false), 0)
    ensures s.shared == Shared(Inactive, {}, map[0 := SetShouldStop], {})
  {
    run, s := [], Initial();
    assert Reaches(run, s);
    hide Reaches, RemoteEntry, ExecuteFirst;
    run, s := Taken(run, s, EnterRun(0));
    run, s := Taken(run, s, BeginBatch);
    run, s := Taken(run, s, FinishBatch);
  }

  /** The shortest cold start: a context that is run before anything was submitted to it. */
  lemma ColdStartExample() returns (run: seq<Action>, s: State)
    ensures run == [EnterRun(0), BeginBatch, FinishBatch, CheckRemote]
    ensures Reaches(run, s) && s.fault
  {
    run, s := ColdBatch();
    hide Reaches;
    run, s := Taken(run, s, CheckRemote);
  }

  /**
    Whenever a producer comes to set the alarm, it is the only one that owes a signal,
    no earlier alarm is pending and no null-tag event is waiting; setting it is no fault.
  */
  lemma SingleAlarm(run: seq<Action>, s: State, t: Thread)
    requires Reaches(run, s) && Enabled(s, Signal(t))
    ensures s.shared.owed == {t} && s.grpc.alarms == 0 && s.grpc.wakeUps == 0
    ensures !Apply(s, Signal(t)).fault && Outstanding(Apply(s, Signal(t))) == 1
  {
    WakeUpAccounting(run, s);
    SignalIsSafe(s, t);
  }
}
