/**
  LOG_ONCE at one call site: a relaxed check, then an atomic exchange that elects the
  one thread that logs. Any number of threads evaluate it, any number of times.
*/
module LogOnce {
  import opened Options

  type Thread = int

  datatype Pc = Outside | Passed | Elected

  datatype State = State(
    logged: bool,                    // agrpc_anonymous_logged
    threads: map<Thread, Pc>,
    winners: seq<Thread>,            // threads whose exchange found the flag clear
    lines: nat,                      // log lines written
    finished: nat)                   // evaluations that have come to their end

  datatype Action = Check(thread: Thread) | Exchange(thread: Thread) | Write(thread: Thread)

  function Initial(): State {
    State(false, map[], [], 0, 0)
  }

  function PcOf(s: State, t: Thread): Pc {
    if t in s.threads then s.threads[t] else Outside
  }

  predicate Enabled(s: State, a: Action) {
    match a
    case Check(t) => PcOf(s, t).Outside?
    case Exchange(t) => PcOf(s, t).Passed?
    case Write(t) => PcOf(s, t).Elected?
  }

  function Apply(s: State, a: Action): State
    requires Enabled(s, a)
  {
    match a
    case Check(t) =>
      if s.logged then s.(finished := s.finished + 1) else s.(threads := s.threads[t := Passed])
    case Exchange(t) =>
      if s.logged then s.(threads := s.threads[t := Outside], finished := s.finished + 1)
      else s.(logged := true, threads := s.threads[t := Elected], winners := s.winners + [t])
    case Write(t) =>
      s.(threads := s.threads[t := Outside], lines := s.lines + 1, finished := s.finished + 1)
  }

  function After(run: seq<Action>): Option<State> {
    if run == [] then Some(Initial())
    else
      match After(run[..|run| - 1])
      case None => None
      case Some(m) => if Enabled(m, run[|run| - 1]) then Some(Apply(m, run[|run| - 1])) else None
  }

  predicate Reaches(run: seq<Action>, s: State) {
    After(run) == Some(s)
  }

  lemma Extend(run: seq<Action>, s: State, a: Action)
    requires Reaches(run, s) && Enabled(s, a)
    ensures Reaches(run + [a], Apply(s, a))
  {
    assert (run + [a])[..|run|] == run;
  }

  ghost predicate Inv(s: State) {
    && |s.winners| == (if s.logged then 1 else 0)
    && (s.finished > 0 ==> s.logged)
    && (forall t :: PcOf(s, t).Elected? ==> s.winners == [t] && s.lines == 0)
    && (s.lines == 0 || (s.lines == 1 && s.logged))
    && (s.logged ==> s.lines == 1 || exists t :: PcOf(s, t).Elected?)
  }

  lemma InvKeeps(s: State, a: Action)
    requires Inv(s) && Enabled(s, a)
    ensures Inv(Apply(s, a))
  {
    forall t | PcOf(Apply(s, a), t).Elected?
      ensures Apply(s, a).winners == [t] && Apply(s, a).lines == 0
    {
      assert t != a.thread ==> PcOf(s, t) == PcOf(Apply(s, a), t);
      assert a.Write? ==> s.winners == [a.thread];
      assert PcOf(s, t).Elected? ==> s.winners == [t];
    }
    if s.logged && s.lines == 0 && !a.Write? {
      var t :| PcOf(s, t).Elected?;
      assert PcOf(Apply(s, a), t).Elected?;
    }
    assert a.Exchange? && !s.logged ==> PcOf(Apply(s, a), a.thread).Elected?;
  }

  /**
    However the threads interleave: at most one is ever elected and at most one line is
    written, and once any evaluation has finished exactly one thread has been elected. The
    line is not lost: if nobody is about to write it, it has been written.
  */
  lemma {:induction false} OnlyOneLogs(run: seq<Action>, s: State)
    requires Reaches(run, s)
    ensures Inv(s)
    ensures |s.winners| <= 1 && s.lines <= |s.winners|
    ensures s.finished > 0 ==> |s.winners| == 1
    ensures s.logged && (forall t :: !PcOf(s, t).Elected?) ==> s.lines == 1
  {
    if run != [] {
      var m := After(run[..|run| - 1]).value;
      OnlyOneLogs(run[..|run| - 1], m);
      InvKeeps(m, run[|run| - 1]);
    }
  }

  /** The steps of one thread in a run. */
  function StepsOf(run: seq<Action>, t: Thread): seq<Action> {
    if run == [] then []
    else StepsOf(run[..|run| - 1], t) + (if run[|run| - 1].thread == t then [run[|run| - 1]] else [])
  }

  lemma StepsOfSnoc(run: seq<Action>, a: Action, t: Thread)
    ensures StepsOf(run + [a], t) == StepsOf(run, t) + (if a.thread == t then [a] else [])
  {
    assert (run + [a])[..|run|] == run;
  }

  /** The macro, statement by statement. */
  class CallSite {
    var logged: bool
    var threads: map<Thread, Pc>
    var winners: seq<Thread>
    var lines: nat
    var finished: nat
    ghost var run: seq<Action>

    function Now(): State
      reads this
    {
      State(logged, threads, winners, lines, finished)
    }

    ghost predicate Valid()
      reads this
    {
      Reaches(run, Now())
    }

    constructor ()
      ensures Valid() && Now() == Initial()
    {
      logged, threads, winners, lines, finished := false, map[], [], 0, 0;
      run := [];
    }

    /** Any number of steps of the other threads. */
    method Others(t: Thread)
      requires Valid()
      modifies this
      ensures Valid() && old(winners) <= winners && PcOf(Now(), t) == old(PcOf(Now(), t))
      ensures old(PcOf(Now(), t).Elected?) ==> lines == old(lines)
      ensures old(finished) <= finished && StepsOf(run, t) == StepsOf(old(run), t)
      ensures forall i :: |old(winners)| <= i < |winners| ==> winners[i] != t
    {
      var script: seq<Action> := *;
      for i := 0 to |script|
        invariant Valid() && old(winners) <= winners && PcOf(Now(), t) == old(PcOf(Now(), t))
        invariant old(PcOf(Now(), t).Elected?) ==> lines == old(lines)
        invariant old(finished) <= finished && StepsOf(run, t) == StepsOf(old(run), t)
        invariant forall i :: |old(winners)| <= i < |winners| ==> winners[i] != t
      {
        var a := script[i];
        if Enabled(Now(), a) && a.thread != t {
          OnlyOneLogs(run, Now());
          Extend(run, Now(), a);
          StepsOfSnoc(run, a, t);
          var s := Apply(Now(), a);
          logged, threads, winners, lines, finished := s.logged, s.threads, s.winners, s.lines, s.finished;
          run := run + [a];
        }
      }
    }

    /** The exchange, and for the winner the line. */
    method TakePart(t: Thread) returns (line: bool)
      requires Valid() && PcOf(Now(), t).Passed?
      modifies this
      ensures Valid() && PcOf(Now(), t).Outside? && old(finished) < finished
      ensures |winners| == 1
      ensures line <==> old(winners) == []
      ensures if line then winners == [t] && lines == 1 else winners == old(winners)
      ensures StepsOf(run, t) == StepsOf(old(run), t) + [Action.Exchange(t)] + if line then [Action.Write(t)] else []
    {
      OnlyOneLogs(run, Now());
      Extend(run, Now(), Action.Exchange(t));
      StepsOfSnoc(run, Action.Exchange(t), t);
      run := run + [Action.Exchange(t)];
      var before := logged;
      logged := true;
      if before {
        threads := threads[t := Outside];
        finished := finished + 1;
        return false;
      }
      threads := threads[t := Elected];
      winners := winners + [t];
      OnlyOneLogs(run, Now());
      Others(t);
      OnlyOneLogs(run, Now());
      Extend(run, Now(), Action.Write(t));
      StepsOfSnoc(run, Action.Write(t), t);
      run := run + [Action.Write(t)];
      lines := lines + 1;
      threads := threads[t := Outside];
      finished := finished + 1;
      return true;
    }

    /** LOG_ONCE: true if this evaluation is the one that writes the line. */
    method Log(t: Thread) returns (line: bool)
      requires Valid() && PcOf(Now(), t).Outside?
      modifies this
      ensures Valid() && PcOf(Now(), t).Outside?
      ensures |winners| == 1 && old(finished) < finished
      ensures line <==> old(winners) == [] && winners == [t]
      ensures line ==> lines == 1
      ensures StepsOf(run, t) == StepsOf(old(run), t) + [Action.Check(t)] +
        (if old(logged) then [] else [Action.Exchange(t)]) + if line then [Action.Write(t)] else []
      ensures old(logged) ==> run == old(run) + [Action.Check(t)] && lines == old(lines) && winners == old(winners)
    {
      OnlyOneLogs(run, Now());
      Extend(run, Now(), Action.Check(t));
      StepsOfSnoc(run, Action.Check(t), t);
      run := run + [Action.Check(t)];
      if logged {
        finished := finished + 1;
        return false;
      }
      threads := threads[t := Passed];
      Others(t);
      assert winners != [] && old(winners) == [] ==> winners[0] != t;
      line := TakePart(t);
    }
  }
}
