/**
  What one turn of the loop achieves: a turn begins when Next returns an event and
  ends when the loop is blocked in Next again, with any steps of producers and gRPC
  in between. Every queued operation is at a stage that no turn raises.
*/
module Turns {
  import opened Options
  import opened Protocol
  import opened Ownership
  import opened Order

  /** 3: remote, awaiting a wake-up; 2: remote, woken; 1: local; 0: in no queue. */
  ghost function Stage(s: State, op: Op): nat {
    if op in Items(s.shared.remoteQueue) then (if s.loop.readSubmitted then 3 else 2)
    else if op in s.loop.localQueue || op in s.loop.pending then 1
    else 0
  }

  predicate IsTurn(turn: seq<Action>) {
    && |turn| > 0 && turn[0].Next?
    && (forall i :: 1 <= i < |turn| ==> !turn[i].Next? && !turn[i].NextDrained?)
  }

  /** From one call of Next to another, by one turn. */
  ghost predicate TakesTurn(s: State, turn: seq<Action>, s': State) {
    s.loop.pc == AtNext && IsTurn(turn) && After(s, turn) == Some(s') && s'.loop.pc == AtNext
  }

  /** Started or requested: such an operation is never submitted again. */
  predicate Submitted(h: seq<Note>) {
    |h| > 0 && (h[0] == StopCreated ==> |h| > 1)
  }

  // ---- where an operation is while a turn is under way ----

  ghost predicate LocalTrack(s: State, op: Op) {
    || Links(s, op) == 0
    || (s.loop.pc == LoopTop && op in s.loop.localQueue)
    || (s.loop.pc == Draining && op in s.loop.pending)
  }

  ghost predicate WokenTrack(s: State, op: Op) {
    || (s.loop.pc != AtNext && !s.loop.readSubmitted && op in Items(s.shared.remoteQueue))
    || (s.loop.pc == AtNext && op in s.loop.localQueue)
  }

  ghost predicate WaitingTrack(s: State, op: Op) {
    s.loop.readSubmitted && op in Items(s.shared.remoteQueue)
  }

  predicate InTurn(a: Action) {
    !a.Next? && !a.NextDrained?
  }

  lemma WokenStep(s: State, a: Action, op: Op)
    requires Enabled(s, a) && InTurn(a) && WokenTrack(s, op)
    ensures WokenTrack(Apply(s, a), op)
  {
    if a.RunItem? && s.loop.pending[0] in s.shared.execute {
      ExecuteFrame(s);
      hide ExecuteFirst;
    }
    hide RemoteEntry;
  }

  lemma WaitingStep(s: State, a: Action, op: Op)
    requires Enabled(s, a) && InTurn(a) && WaitingTrack(s, op)
    ensures WaitingTrack(Apply(s, a), op)
  {
    if a.RunItem? && s.loop.pending[0] in s.shared.execute {
      ExecuteFrame(s);
      hide ExecuteFirst;
    }
    hide RemoteEntry;
  }

  lemma SubmittedStays(s: State, a: Action, op: Op)
    requires Enabled(s, a) && Submitted(LogOf(s.past.log, op))
    ensures Submitted(LogOf(Apply(s, a).past.log, op))
  {
    HistoryGrows(s, a, op);
    hide Apply;
  }

  lemma GoneRunItem(s: State, op: Op)
    requires Enabled(s, RunItem) && Links(s, op) == 0
    ensures Links(ExecuteFirst(s), op) == 0
  {
    if s.loop.pending[0] in s.shared.execute {
      ExecuteFrame(s);
      PopLinks(s, op);
    }
    hide ExecuteFirst, RemoteEntry;
  }

  /** An operation that is in no queue and was submitted before does not come back within a turn. */
  lemma GoneStays(s: State, a: Action, op: Op)
    requires Enabled(s, a) && InTurn(a) && Links(s, op) == 0 && Submitted(LogOf(s.past.log, op))
    ensures Links(Apply(s, a), op) == 0
  {
    hide ExecuteFirst, RemoteEntry;
    if a.RunItem? {
      GoneRunItem(s, op);
    }
  }

  lemma LocalRunItem(s: State, op: Op)
    requires Enabled(s, RunItem) && op in s.loop.pending && Links(s, op) == 1 && Placed(s, s.loop.pending[0])
    ensures LocalTrack(ExecuteFirst(s), op)
  {
    var first := s.loop.pending[0];
    FirstKeeps(s);
    ExecuteFrame(s);
    hide ExecuteFirst, Placed, RemoteEntry;
    if op == first {
      PopLinks(s, op);
      assert Links(ExecuteFirst(s), op) == 0;
    } else {
      assert op in s.loop.pending[1..];
    }
  }

  lemma OneLink(s: State, op: Op)
    requires OwnershipInv(s)
    ensures Links(s, op) <= 1
  {
    assert Placed(s, op);
  }

  lemma LocalRest(s: State, a: Action, op: Op)
    requires Enabled(s, a) && InTurn(a) && !a.RunItem? && LocalTrack(s, op) && Links(s, op) > 0
    ensures LocalTrack(Apply(s, a), op)
  {
    hide ExecuteFirst, RemoteEntry, Links;
  }

  lemma LocalStep(s: State, a: Action, op: Op)
    requires OwnershipInv(s) && Enabled(s, a) && InTurn(a)
    requires LocalTrack(s, op) && Submitted(LogOf(s.past.log, op))
    ensures LocalTrack(Apply(s, a), op)
  {
    if Links(s, op) == 0 {
      GoneStays(s, a, op);
    } else if a.RunItem? {
      assert Placed(s, s.loop.pending[0]);
      OneLink(s, op);
      hide OwnershipInv, Placed, Links;
      LocalRunItem(s, op);
    } else {
      hide OwnershipInv;
      LocalRest(s, a, op);
    }
  }

  // ---- whole turns ----

  /** The tracks survive any part of a turn after its Next. */
  lemma {:induction false} TracksSurvive(run: seq<Action>, s: State, part: seq<Action>, s': State, op: Op)
    requires Reaches(run, s) && After(s, part) == Some(s')
    requires forall a :: a in part ==> InTurn(a)
    requires Submitted(LogOf(s.past.log, op))
    ensures Submitted(LogOf(s'.past.log, op)) && Reaches(run + part, s') && s.past.enqueued <= s'.past.enqueued
    ensures LocalTrack(s, op) ==> LocalTrack(s', op)
    ensures WokenTrack(s, op) ==> WokenTrack(s', op)
    ensures WaitingTrack(s, op) ==> WaitingTrack(s', op)
  {
    AfterConcat(Initial(), run, part, s);
    if part != [] {
      var init, a := part[..|part| - 1], part[|part| - 1];
      var m := After(s, init).value;
      TracksSurvive(run, s, init, m, op);
      OwnershipHolds(run + init, m);
      hide LocalTrack, WokenTrack, WaitingTrack, OwnershipInv, Apply, Submitted;
      SubmittedStays(m, a, op);
      StepHistory(m, a);
      if LocalTrack(m, op) {
        LocalStep(m, a, op);
      }
      if WokenTrack(m, op) {
        WokenStep(m, a, op);
      }
      if WaitingTrack(m, op) {
        WaitingStep(m, a, op);
      }
    }
  }

  lemma QueuedWasSubmitted(s: State, op: Op)
    requires OwnershipInv(s) && Stage(s, op) > 0
    ensures Submitted(LogOf(s.past.log, op))
  {
    assert Placed(s, op);
    assert Links(s, op) >= 1;
  }

  /** What Next does to the stages: only a null-tag event moves a waiting operation on. */
  lemma {:induction false} NextTracks(s: State, e: Event, op: Op)
    requires Enabled(s, Next(e)) && OwnershipInv(s) && Stage(s, op) > 0
    ensures Stage(s, op) == 1 ==> LocalTrack(Apply(s, Next(e)), op)
    ensures Stage(s, op) == 2 || (Stage(s, op) == 3 && e.tag == NullTag) ==> WokenTrack(Apply(s, Next(e)), op)
    ensures Stage(s, op) == 3 && e.tag != NullTag ==> WaitingTrack(Apply(s, Next(e)), op)
    ensures Submitted(LogOf(Apply(s, Next(e)).past.log, op)) && Apply(s, Next(e)).past.enqueued == s.past.enqueued
  {
    QueuedWasSubmitted(s, op);
    assert s.loop.pending == [];
    hide OwnershipInv, Links, Submitted;
  }

  lemma {:induction false} FirstOfTurn(s: State, turn: seq<Action>, s': State)
    requires |turn| > 0 && After(s, turn) == Some(s')
    ensures Enabled(s, turn[0])
  {
    if |turn| > 1 {
      FirstOfTurn(s, turn[..|turn| - 1], After(s, turn[..|turn| - 1]).value);
    } else {
      assert turn[..0] == [];
    }
  }

  lemma {:induction false} FirstStep(s: State, a: Action)
    requires Enabled(s, a)
    ensures After(s, [a]) == Some(Apply(s, a))
  {
    AfterSnoc(s, [], s, a);
    assert [] + [a] == [a];
  }

  /** A turn is its Next and the rest. */
  lemma {:induction false} SplitTurn(run: seq<Action>, s: State, turn: seq<Action>, s': State)
    requires Reaches(run, s) && |turn| > 0 && After(s, turn) == Some(s')
    ensures Enabled(s, turn[0]) && Reaches(run + [turn[0]], Apply(s, turn[0]))
    ensures After(Apply(s, turn[0]), turn[1..]) == Some(s')
  {
    FirstOfTurn(s, turn, s');
    Extend(run, s, turn[0]);
    FirstStep(s, turn[0]);
    assert [turn[0]] + turn[1..] == turn;
    hide After, Reaches, Enabled, Apply;
    AfterConcat(s, [turn[0]], turn[1..], Apply(s, turn[0]));
  }

  lemma Rejoin(run: seq<Action>, turn: seq<Action>)
    requires turn != []
    ensures run + [turn[0]] + turn[1..] == run + turn
  {
  }

  /** Where a turn that began with a null-tag event, or another one, leaves a queued operation. */
  function StageAfter(stage: nat, wokenUp: bool): nat {
    if stage <= 1 then 0 else if stage == 2 || wokenUp then 1 else stage
  }

  /** Back in Next, the track an operation is on tells its stage. */
  lemma EndOfTurn(s: State, op: Op)
    requires OwnershipInv(s) && s.loop.pc == AtNext
    ensures LocalTrack(s, op) ==> Stage(s, op) == 0
    ensures WokenTrack(s, op) ==> Stage(s, op) == 1
    ensures WaitingTrack(s, op) ==> Stage(s, op) == 3
  {
    assert Placed(s, op);
    hide Placed;
  }

  /**
    No turn raises the stage of a queued operation, and every turn lowers it unless the
    operation awaits a wake-up and the event was not the null-tag one. This covers turns
    in which a stop ends the Run and the context is run again.
  */
  lemma {:induction false} TurnLowersStage(run: seq<Action>, s: State, turn: seq<Action>, s': State, op: Op)
    requires Reaches(run, s) && TakesTurn(s, turn, s') && Stage(s, op) > 0
    ensures Stage(s', op) == StageAfter(Stage(s, op), turn[0].event.tag == NullTag) <= Stage(s, op)
    ensures Stage(s, op) < 3 || turn[0].event.tag == NullTag ==> Stage(s', op) < Stage(s, op)
    ensures Reaches(run + turn, s') && Submitted(LogOf(s'.past.log, op)) && s.past.enqueued <= s'.past.enqueued
  {
    SplitTurn(run, s, turn, s');
    var m := Apply(s, turn[0]);
    OwnershipHolds(run, s);
    hide OwnershipInv, Apply, After;
    NextTracks(s, turn[0].event, op);
    TracksSurvive(run + [turn[0]], m, turn[1..], s', op);
    Rejoin(run, turn);
    OwnershipHolds(run + turn, s');
    EndOfTurn(s', op);
    hide LocalTrack, WokenTrack, WaitingTrack, Stage, Submitted;
  }

  /** The operation's remotely submitted work has been done: its RPC is issued, or its stop has run. */
  predicate HasRun(h: seq<Note>) {
    |h| > 1 && if h[0] == StopCreated then |h| > 2 else h[1] == Issued
  }

  lemma {:induction false} RemotesAreItems(log: map<Op, seq<Note>>, items: seq<Op>, op: Op)
    requires op in Remotes(log, items)
    ensures op in items && RemoteEntry(log, op)
  {
    RemotesFirst(log, items);
    if op in Remotes(log, items[1..]) {
      RemotesAreItems(log, items[1..], op);
    }
    hide RemoteEntry, Remotes;
  }

  lemma RanAtStageZero(run: seq<Action>, s: State, op: Op)
    requires Reaches(run, s) && Stage(s, op) == 0
    requires Submitted(LogOf(s.past.log, op)) && op in s.past.enqueued
    ensures HasRun(LogOf(s.past.log, op)) && op in s.past.ran
  {
    OrderAndConservation(run, s);
    OwnershipHolds(run, s);
    assert Placed(s, op);
    if op in Remotes(s.past.log, s.loop.pending) {
      RemotesAreItems(s.past.log, s.loop.pending, op);
    }
    if op in Remotes(s.past.log, s.loop.localQueue) {
      RemotesAreItems(s.past.log, s.loop.localQueue, op);
    }
    hide RemoteEntry, OwnershipInv;
  }

  /**
    Work that is in the remote queue when a null-tag event is consumed has run by the
    time the loop is back in Next after one further event of any kind.
  */
  lemma {:induction false} WokenWorkRuns(
      run: seq<Action>, s: State, wake: seq<Action>, m: State, turn: seq<Action>, s': State, op: Op)
    requires Reaches(run, s) && op in Items(s.shared.remoteQueue)
    requires TakesTurn(s, wake, m) && wake[0].event.tag == NullTag
    requires TakesTurn(m, turn, s')
    ensures Stage(s', op) == 0 && HasRun(LogOf(s'.past.log, op)) && op in s'.past.ran
  {
    hide Reaches, After;
    TurnLowersStage(run, s, wake, m, op);
    TurnLowersStage(run + wake, m, turn, s', op);
    OrderAndConservation(run, s);
    assert op in s.past.enqueued;
    assert op in s'.past.enqueued;
    RanAtStageZero(run + wake + turn, s', op);
  }
}
