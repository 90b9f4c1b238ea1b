/**
  The thread-local current_thread_context: run loops of different contexts can nest on
  one thread, and code running inside them starts operations of any context. RunImpl
  saves and restores one pointer; the specification keeps the whole stack of run loops.
*/
module LoopThread {
  import opened Options

  type Context = int

  /** An operation holds the context it was created for. */
  datatype Operation = Operation(context: Context, id: int)

  /** What code running inside a run loop of this thread does. */
  datatype Act =
    | RunScheduled                              // the loop executes the next operation queued on its context
    | Start(op: Operation)                      // a receiver starts an operation of some context
    | Nested(context: Context, acts: seq<Act>)  // a receiver calls Run of another context
    | Arrives(op: Operation)                    // another thread schedules an operation

  /** loop: the context whose run loop was the innermost one then. */
  datatype Effect = Queued(op: Operation) | Popped(loop: Context, op: Operation) | Issued(loop: Context, op: Operation)

  /** The operations scheduled on each context and not executed yet, and what was done so far. */
  datatype World = World(queues: map<Context, seq<Operation>>, effects: seq<Effect>)

  function QueueOf(w: World, context: Context): seq<Operation> {
    if context in w.queues then w.queues[context] else []
  }

  function Send(w: World, op: Operation): World {
    World(w.queues[op.context := QueueOf(w, op.context) + [op]], w.effects + [Queued(op)])
  }

  function Issue(w: World, loop: Context, op: Operation): World {
    w.(effects := w.effects + [Issued(loop, op)])
  }

  function Pop(w: World, loop: Context): World
    requires QueueOf(w, loop) != []
  {
    World(w.queues[loop := QueueOf(w, loop)[1..]], w.effects + [Popped(loop, QueueOf(w, loop)[0])])
  }

  function Innermost(stack: seq<Context>): Option<Context> {
    if stack == [] then None else Some(stack[|stack| - 1])
  }

  /** What one act does while the run loops of this stack are active, innermost last. */
  function Do(stack: seq<Context>, act: Act, w: World): World
    requires stack != []
    decreases act, 0
  {
    var loop := stack[|stack| - 1];
    match act
    case RunScheduled => if QueueOf(w, loop) == [] then w else Issue(Pop(w, loop), loop, QueueOf(w, loop)[0])
    case Start(op) => if op.context == loop then Issue(w, loop, op) else Send(w, op)
    case Nested(context, acts) => DoAll(stack + [context], acts, w)
    case Arrives(op) => Send(w, op)
  }

  function DoAll(stack: seq<Context>, acts: seq<Act>, w: World): World
    requires stack != []
    decreases acts, 1
  {
    if acts == [] then w
    else Do(stack, acts[|acts| - 1], DoAll(stack, acts[..|acts| - 1], w))
  }

  // ---- what a loop executes is its own ----

  /** Every queue holds operations of its own context only. */
  ghost predicate Owned(w: World) {
    forall c, i :: c in w.queues && 0 <= i < |w.queues[c]| ==> w.queues[c][i].context == c
  }

  /** Whatever was issued was issued by the run loop of its own context. */
  ghost predicate OwnLoops(effects: seq<Effect>) {
    forall i :: 0 <= i < |effects| ==> effects[i].Issued? ==> effects[i].loop == effects[i].op.context
  }

  lemma {:induction false} DoKeepsOwn(stack: seq<Context>, act: Act, w: World)
    requires stack != [] && Owned(w) && OwnLoops(w.effects)
    ensures Owned(Do(stack, act, w)) && OwnLoops(Do(stack, act, w).effects)
    decreases act, 0
  {
    if act.Nested? {
      IssuedByOwnLoop(stack + [act.context], act.acts, w);
    }
  }

  /** However loops are nested, an RPC is issued only while the loop of its own context is the innermost. */
  lemma {:induction false} IssuedByOwnLoop(stack: seq<Context>, acts: seq<Act>, w: World)
    requires stack != [] && Owned(w) && OwnLoops(w.effects)
    ensures Owned(DoAll(stack, acts, w)) && OwnLoops(DoAll(stack, acts, w).effects)
    decreases acts, 1
  {
    if acts != [] {
      IssuedByOwnLoop(stack, acts[..|acts| - 1], w);
      DoKeepsOwn(stack, acts[|acts| - 1], DoAll(stack, acts[..|acts| - 1], w));
    }
  }

  // ---- no context loses or reorders what was scheduled on it ----

  function QueuedOn(effects: seq<Effect>, context: Context): seq<Operation> {
    if effects == [] then []
    else
      var last := effects[|effects| - 1];
      QueuedOn(effects[..|effects| - 1], context)
        + if last.Queued? && last.op.context == context then [last.op] else []
  }

  function PoppedBy(effects: seq<Effect>, context: Context): seq<Operation> {
    if effects == [] then []
    else
      var last := effects[|effects| - 1];
      PoppedBy(effects[..|effects| - 1], context) + if last.Popped? && last.loop == context then [last.op] else []
  }

  lemma EffectSnoc(effects: seq<Effect>, e: Effect, context: Context)
    ensures QueuedOn(effects + [e], context)
              == QueuedOn(effects, context) + if e.Queued? && e.op.context == context then [e.op] else []
    ensures PoppedBy(effects + [e], context)
              == PoppedBy(effects, context) + if e.Popped? && e.loop == context then [e.op] else []
  {
    assert (effects + [e])[..|effects|] == effects;
  }

  ghost predicate Conserved(w: World, context: Context) {
    PoppedBy(w.effects, context) + QueueOf(w, context) == QueuedOn(w.effects, context)
  }

  lemma SendConserves(w: World, op: Operation, context: Context)
    requires Conserved(w, context)
    ensures Conserved(Send(w, op), context)
  {
    EffectSnoc(w.effects, Queued(op), context);
    hide QueuedOn, PoppedBy;
  }

  lemma IssueConserves(w: World, loop: Context, op: Operation, context: Context)
    requires Conserved(w, context)
    ensures Conserved(Issue(w, loop, op), context)
  {
    EffectSnoc(w.effects, Issued(loop, op), context);
    hide QueuedOn, PoppedBy;
  }

  lemma Regrouped(before: seq<Operation>, queue: seq<Operation>)
    requires queue != []
    ensures before + [queue[0]] + queue[1..] == before + queue
  {
  }

  lemma PopConserves(w: World, loop: Context, context: Context)
    requires Conserved(w, context) && QueueOf(w, loop) != []
    ensures Conserved(Pop(w, loop), context)
  {
    var op, rest := QueueOf(w, loop)[0], QueueOf(w, loop)[1..];
    EffectSnoc(w.effects, Popped(loop, op), context);
    hide QueuedOn, PoppedBy;
    if context == loop {
      assert QueueOf(Pop(w, loop), context) == rest;
      Regrouped(PoppedBy(w.effects, context), QueueOf(w, loop));
    }
  }

  lemma {:induction false} DoConserves(stack: seq<Context>, act: Act, w: World, context: Context)
    requires stack != [] && Conserved(w, context)
    ensures Conserved(Do(stack, act, w), context)
    decreases act, 0
  {
    var loop := stack[|stack| - 1];
    hide Conserved;
    match act
    case RunScheduled =>
      if QueueOf(w, loop) != [] {
        PopConserves(w, loop, context);
        IssueConserves(Pop(w, loop), loop, QueueOf(w, loop)[0], context);
      }
    case Start(op) =>
      if op.context == loop {
        IssueConserves(w, loop, op, context);
      } else {
        SendConserves(w, op, context);
      }
    case Nested(c, acts) => OrderPerContext(stack + [c], acts, w, context);
    case Arrives(op) => SendConserves(w, op, context);
  }

  /** What was scheduled on a context, from any loop or thread, is executed by its loops in that order. */
  lemma {:induction false} OrderPerContext(stack: seq<Context>, acts: seq<Act>, w: World, context: Context)
    requires stack != [] && Conserved(w, context)
    ensures Conserved(DoAll(stack, acts, w), context)
    decreases acts, 1
  {
    if acts != [] {
      OrderPerContext(stack, acts[..|acts| - 1], w, context);
      DoConserves(stack, acts[|acts| - 1], DoAll(stack, acts[..|acts| - 1], w), context);
    }
  }

  // ---- what is done, told from the acts alone ----

  /** Whatever is popped is issued at once, by the same loop. */
  ghost predicate PopsIssue(effects: seq<Effect>) {
    forall i :: 0 <= i < |effects| && effects[i].Popped? ==>
      i + 1 < |effects| && effects[i + 1] == Issued(effects[i].loop, effects[i].op)
  }

  lemma {:induction false} DoIssues(stack: seq<Context>, act: Act, w: World)
    requires stack != [] && PopsIssue(w.effects)
    ensures PopsIssue(Do(stack, act, w).effects)
    decreases act, 0
  {
    if act.Nested? {
      EveryPopIsIssued(stack + [act.context], act.acts, w);
    }
  }

  /** No loop discards an operation: each one that is popped is handed to gRPC next. */
  lemma {:induction false} EveryPopIsIssued(stack: seq<Context>, acts: seq<Act>, w: World)
    requires stack != [] && PopsIssue(w.effects)
    ensures PopsIssue(DoAll(stack, acts, w).effects)
    decreases acts, 1
  {
    if acts != [] {
      EveryPopIsIssued(stack, acts[..|acts| - 1], w);
      DoIssues(stack, acts[|acts| - 1], DoAll(stack, acts[..|acts| - 1], w));
    }
  }

  /** Operations of this context issued without having been popped. */
  function StartedOn(effects: seq<Effect>, context: Context): seq<Operation> {
    if effects == [] then []
    else
      var init, last := effects[..|effects| - 1], effects[|effects| - 1];
      var popped := init != [] && init[|init| - 1].Popped?;
      StartedOn(init, context) + if last.Issued? && last.op.context == context && !popped then [last.op] else []
  }

  /** The operations scheduled on a context: by other threads, and by loops of other contexts. */
  function ScheduledBy(loop: Context, act: Act, context: Context): seq<Operation>
    decreases act, 0
  {
    match act
    case RunScheduled => []
    case Start(op) => if op.context == context && context != loop then [op] else []
    case Nested(c, acts) => ScheduledByAll(c, acts, context)
    case Arrives(op) => if op.context == context then [op] else []
  }

  function ScheduledByAll(loop: Context, acts: seq<Act>, context: Context): seq<Operation>
    decreases acts, 1
  {
    if acts == [] then []
    else ScheduledByAll(loop, acts[..|acts| - 1], context) + ScheduledBy(loop, acts[|acts| - 1], context)
  }

  /** The operations started inside the innermost loop of their own context. */
  function StartedBy(loop: Context, act: Act, context: Context): seq<Operation>
    decreases act, 0
  {
    match act
    case Start(op) => if op.context == context && context == loop then [op] else []
    case Nested(c, acts) => StartedByAll(c, acts, context)
    case _ => []
  }

  function StartedByAll(loop: Context, acts: seq<Act>, context: Context): seq<Operation>
    decreases acts, 1
  {
    if acts == [] then []
    else StartedByAll(loop, acts[..|acts| - 1], context) + StartedBy(loop, acts[|acts| - 1], context)
  }

  /** How many operations are left on a context on which n were scheduled before. */
  function LeftBy(loop: Context, act: Act, context: Context, n: nat): nat
    decreases act, 0
  {
    match act
    case RunScheduled => if loop == context && n > 0 then n - 1 else n
    case Nested(c, acts) => LeftByAll(c, acts, context, n)
    case _ => n + |ScheduledBy(loop, act, context)|
  }

  function LeftByAll(loop: Context, acts: seq<Act>, context: Context, n: nat): nat
    decreases acts, 1
  {
    if acts == [] then n
    else LeftBy(loop, acts[|acts| - 1], context, LeftByAll(loop, acts[..|acts| - 1], context, n))
  }

  lemma StartedSnoc(effects: seq<Effect>, e: Effect, context: Context)
    ensures StartedOn(effects + [e], context) == StartedOn(effects, context) +
              if e.Issued? && e.op.context == context && !(effects != [] && effects[|effects| - 1].Popped?) then [e.op]
              else []
  {
    assert (effects + [e])[..|effects|] == effects;
  }

  /** From one world to a later one, this was scheduled on and started in a context, and so many are left on it. */
  ghost predicate Accounts(
      w: World, w': World, context: Context, scheduled: seq<Operation>, started: seq<Operation>, left: nat) {
    && QueuedOn(w'.effects, context) == QueuedOn(w.effects, context) + scheduled
    && StartedOn(w'.effects, context) == StartedOn(w.effects, context) + started
    && |QueueOf(w', context)| == left
  }

  lemma SendAccounts(w: World, op: Operation, context: Context)
    ensures
      var scheduled := if op.context == context then [op] else [];
      Accounts(w, Send(w, op), context, scheduled, [], |QueueOf(w, context)| + |scheduled|)
  {
    EffectSnoc(w.effects, Queued(op), context);
    StartedSnoc(w.effects, Queued(op), context);
    hide QueuedOn, PoppedBy, StartedOn;
  }

  lemma IssueAccounts(w: World, op: Operation, context: Context)
    requires PopsIssue(w.effects)
    ensures Accounts(w, Issue(w, op.context, op), context, [], if op.context == context then [op] else [],
                     |QueueOf(w, context)|)
  {
    EffectSnoc(w.effects, Issued(op.context, op), context);
    StartedSnoc(w.effects, Issued(op.context, op), context);
    hide QueuedOn, PoppedBy, StartedOn;
  }

  lemma RunScheduledAccounts(w: World, loop: Context, context: Context)
    requires QueueOf(w, loop) != []
    ensures Accounts(w, Issue(Pop(w, loop), loop, QueueOf(w, loop)[0]), context, [], [],
                     if loop == context then |QueueOf(w, context)| - 1 else |QueueOf(w, context)|)
  {
    var op, w' := QueueOf(w, loop)[0], Pop(w, loop);
    EffectSnoc(w.effects, Popped(loop, op), context);
    StartedSnoc(w.effects, Popped(loop, op), context);
    EffectSnoc(w'.effects, Issued(loop, op), context);
    StartedSnoc(w'.effects, Issued(loop, op), context);
    hide QueuedOn, PoppedBy, StartedOn;
  }

  lemma AccountsAdd(w: World, m: World, w': World, context: Context,
                    s1: seq<Operation>, t1: seq<Operation>, n: nat, s2: seq<Operation>, t2: seq<Operation>, left: nat)
    requires Accounts(w, m, context, s1, t1, n) && Accounts(m, w', context, s2, t2, left)
    ensures Accounts(w, w', context, s1 + s2, t1 + t2, left)
  {
    var q, s := QueuedOn(w.effects, context), StartedOn(w.effects, context);
    assert q + s1 + s2 == q + (s1 + s2) && s + t1 + t2 == s + (t1 + t2);
    hide QueuedOn, StartedOn;
  }

  lemma {:induction false} ActAccounts(stack: seq<Context>, act: Act, w: World, context: Context)
    requires stack != [] && PopsIssue(w.effects)
    ensures
      var loop := stack[|stack| - 1];
      Accounts(w, Do(stack, act, w), context, ScheduledBy(loop, act, context), StartedBy(loop, act, context),
               LeftBy(loop, act, context, |QueueOf(w, context)|))
    decreases act, 0
  {
    var loop := stack[|stack| - 1];
    match act
    case RunScheduled =>
      if QueueOf(w, loop) != [] {
        RunScheduledAccounts(w, loop, context);
      }
    case Start(op) =>
      if op.context == loop {
        IssueAccounts(w, op, context);
      } else {
        SendAccounts(w, op, context);
      }
    case Nested(c, acts) => ActsDecide(stack + [c], acts, w, context);
    case Arrives(op) => SendAccounts(w, op, context);
    hide QueuedOn, StartedOn, PopsIssue;
  }

  /**
    What is scheduled on a context, what is started in its loop and how many operations
    are left on it can be read off the acts, whatever contexts the loops are nested in.
  */
  lemma {:induction false} ActsDecide(stack: seq<Context>, acts: seq<Act>, w: World, context: Context)
    requires stack != [] && PopsIssue(w.effects)
    ensures
      var w', loop := DoAll(stack, acts, w), stack[|stack| - 1];
      && QueuedOn(w'.effects, context) == QueuedOn(w.effects, context) + ScheduledByAll(loop, acts, context)
      && StartedOn(w'.effects, context) == StartedOn(w.effects, context) + StartedByAll(loop, acts, context)
      && |QueueOf(w', context)| == LeftByAll(loop, acts, context, |QueueOf(w, context)|)
    decreases acts, 1
  {
    var loop := stack[|stack| - 1];
    if acts == [] {
      assert Accounts(w, w, context, [], [], |QueueOf(w, context)|);
    } else {
      var init, last := acts[..|acts| - 1], acts[|acts| - 1];
      var m, n := DoAll(stack, init, w), LeftByAll(loop, init, context, |QueueOf(w, context)|);
      ActsDecide(stack, init, w, context);
      assert Accounts(w, m, context, ScheduledByAll(loop, init, context), StartedByAll(loop, init, context), n);
      EveryPopIsIssued(stack, init, w);
      ActAccounts(stack, last, m, context);
      AccountsAdd(w, m, Do(stack, last, m), context,
                  ScheduledByAll(loop, init, context), StartedByAll(loop, init, context), n,
                  ScheduledBy(loop, last, context), StartedBy(loop, last, context), LeftBy(loop, last, context, n));
    }
    hide QueuedOn, StartedOn, PopsIssue, QueueOf, ScheduledBy, StartedBy, LeftBy, Do;
  }

  // ---- nesting ----

  /** Only the innermost run loop matters: what is further out has no influence. */
  lemma {:induction false} OutermostIrrelevant(
      outer: seq<Context>, outer': seq<Context>, context: Context, acts: seq<Act>, w: World)
    ensures DoAll(outer + [context], acts, w) == DoAll(outer' + [context], acts, w)
    decreases acts, 1
  {
    if acts != [] {
      var init, last := acts[..|acts| - 1], acts[|acts| - 1];
      OutermostIrrelevant(outer, outer', context, init, w);
      if last.Nested? {
        OutermostIrrelevant(outer + [context], outer' + [context], last.context, last.acts,
                            DoAll(outer + [context], init, w));
      }
    }
  }

  lemma {:induction false} DoAllConcat(stack: seq<Context>, a: seq<Act>, b: seq<Act>, w: World)
    requires stack != []
    ensures DoAll(stack, a + b, w) == DoAll(stack, b, DoAll(stack, a, w))
  {
    if b == [] {
      assert a + b == a;
    } else {
      var init, last := b[..|b| - 1], b[|b| - 1];
      DoAllConcat(stack, a, init, w);
      assert (a + b)[..|a + b| - 1] == a + init && (a + b)[|a + b| - 1] == last;
    }
  }

  /**
    A nested run is as if its context were run alone, and leaves nothing but queues and
    effects behind: what follows goes on with the loop that was running before.
  */
  lemma {:induction false} NestingIsTransparent(
      stack: seq<Context>, before: seq<Act>, nested: Act, rest: seq<Act>, w: World)
    requires stack != [] && nested.Nested?
    ensures DoAll(stack, before + [nested] + rest, w)
              == DoAll(stack, rest, DoAll([nested.context], nested.acts, DoAll(stack, before, w)))
  {
    DoAllConcat(stack, before + [nested], rest, w);
    assert (before + [nested])[..|before|] == before;
    OutermostIrrelevant(stack, [], nested.context, nested.acts, DoAll(stack, before, w));
    assert [] + [nested.context] == [nested.context];
  }

  class Thread {
    var current: Option<Context>     // current_thread_context
    var queues: map<Context, seq<Operation>>
    var effects: seq<Effect>
    var checkFailed: bool            // the check in StartAsyncRPC has failed

    constructor ()
      ensures current == None && Now() == World(map[], []) && !checkFailed
    {
      current, queues, effects, checkFailed := None, map[], [], false;
    }

    function Now(): World
      reads this
    {
      World(queues, effects)
    }

    predicate IsRunningOnThisThread(context: Context)
      reads this
    {
      current == Some(context)
    }

    /** The next operation of the running loop. Its queue holds operations of its context only. */
    method PopFront(context: Context) returns (op: Operation)
      requires QueueOf(Now(), context) != [] && Owned(Now())
      modifies this`queues, this`effects
      ensures op == old(QueueOf(Now(), context)[0]) && op.context == context && Now() == Pop(old(Now()), context)
    {
      op := queues[context][0];
      queues := queues[context := queues[context][1..]];
      effects := effects + [Popped(context, op)];
    }

    /** StartAsyncRPC: checks that its context's loop is the running one. */
    method StartAsyncRPC(op: Operation)
      modifies this
      ensures current == old(current)
      ensures checkFailed == (old(checkFailed) || current != Some(op.context))
      ensures Now() == if current == Some(op.context) then Issue(old(Now()), op.context, op) else old(Now())
    {
      if !IsRunningOnThisThread(op.context) {
        checkFailed := true;
      } else {
        effects := effects + [Issued(current.value, op)];
      }
    }

    /** An operation joins the queue of the context it holds. */
    method Enqueue(op: Operation)
      modifies this`queues, this`effects
      ensures Now() == Send(old(Now()), op)
    {
      queues := queues[op.context := QueueOf(Now(), op.context) + [op]];
      effects := effects + [Queued(op)];
    }

    /** Operation::start */
    method StartOperation(op: Operation)
      modifies this
      ensures current == old(current) && checkFailed == old(checkFailed)
      ensures Now() == if current == Some(op.context) then Issue(old(Now()), op.context, op) else Send(old(Now()), op)
    {
      if !IsRunningOnThisThread(op.context) {
        Enqueue(op);
      } else {
        StartAsyncRPC(op);
      }
    }

    /** One act, performed while the loop of this context is the innermost one. */
    method Perform(context: Context, act: Act, ghost stack: seq<Context>)
      requires stack != [] && stack[|stack| - 1] == context && IsRunningOnThisThread(context)
      requires Owned(Now()) && OwnLoops(effects)
      modifies this
      ensures IsRunningOnThisThread(context) && Owned(Now()) && OwnLoops(effects)
      ensures Now() == Do(stack, act, old(Now()))
      ensures checkFailed == old(checkFailed)
      decreases act, 0
    {
      DoKeepsOwn(stack, act, Now());
      match act
      case RunScheduled =>
        if QueueOf(Now(), context) != [] {
          var op := PopFront(context);
          StartAsyncRPC(op);
        }
      case Start(op) => StartOperation(op);
      case Nested(c, acts) => RunImpl(c, acts, stack);
      case Arrives(op) => Enqueue(op);
    }

    /** The drain loop of one context, between saving the old pointer and restoring it. */
    method RunImpl(context: Context, acts: seq<Act>, ghost stack: seq<Context>)
      requires current == Innermost(stack) && Owned(Now()) && OwnLoops(effects)
      modifies this
      ensures current == old(current) && Owned(Now()) && OwnLoops(effects)
      ensures Now() == DoAll(stack + [context], acts, old(Now()))
      ensures checkFailed == old(checkFailed)
      decreases acts, 1
    {
      var oldContext := current;
      current := Some(context);
      var i := 0;
      while i < |acts|
        invariant i <= |acts| && IsRunningOnThisThread(context) && Owned(Now()) && OwnLoops(effects)
        invariant Now() == DoAll(stack + [context], acts[..i], old(Now()))
        invariant checkFailed == old(checkFailed)
      {
        Perform(context, acts[i], stack + [context]);
        assert acts[..i + 1][..i] == acts[..i];
        i := i + 1;
      }
      assert acts[..i] == acts;
      current := oldContext;
    }
  }
}
