/**
  LOG_EVERY_N at one call site, evaluated sequentially: a counter that is incremented
  and reduced by N when it exceeds N, a line being logged when it is back at one.
*/
module EveryN {

  const INT_MAX := 0x7fff_ffff

  /** The counter after one evaluation, as the macro computes it. */
  function Bump(n: int, counter: int): int {
    if counter + 1 > n then counter + 1 - n else counter + 1
  }

  /** The line is inside the branch that reduces the counter. */
  predicate Logs(n: int, counter: int) {
    counter + 1 > n && counter + 1 - n == 1
  }

  function CounterAfter(n: int, evaluations: nat): int {
    if evaluations == 0 then 0 else Bump(n, CounterAfter(n, evaluations - 1))
  }

  function LinesAfter(n: int, evaluations: nat): nat {
    if evaluations == 0 then 0
    else LinesAfter(n, evaluations - 1) + (if Logs(n, CounterAfter(n, evaluations - 1)) then 1 else 0)
  }

  lemma SmallProduct(a: int, n: int)
    requires n >= 1 && -n < a * n < n
    ensures a == 0
  {
  }

  lemma {:induction false} Unique(x: nat, n: int, q: int, r: int)
    requires n >= 1 && x == q * n + r && 0 <= r < n
    ensures x / n == q && x % n == r
  {
    assert x == x / n * n + x % n;
    assert (x / n - q) * n == r - x % n;
    SmallProduct(x / n - q, n);
  }

  lemma {:induction false} Successor(x: nat, n: int)
    requires n >= 1
    ensures if x % n == n - 1 then (x + 1) % n == 0 && (x + 1) / n == x / n + 1
            else (x + 1) % n == x % n + 1 && (x + 1) / n == x / n
  {
    var q, r := x / n, x % n;
    if r == n - 1 {
      Unique(x + 1, n, q + 1, 0);
    } else {
      Unique(x + 1, n, q, r + 1);
    }
  }

  /** The wrapping counter refines counting: it is the number of evaluations, modulo N from one. */
  lemma {:induction false} CountsModuloN(n: int, m: nat)
    requires n >= 1 && m >= 1
    ensures CounterAfter(n, m) == (m - 1) % n + 1
    ensures LinesAfter(n, m) == (m - 1) / n
  {
    if m > 1 {
      CountsModuloN(n, m - 1);
      Successor(m - 2, n);
    } else {
      Unique(0, n, 0, 0);
      assert CounterAfter(n, 0) == 0 && LinesAfter(n, 0) == 0;
    }
  }

  /** The m-th evaluation logs exactly if m > 1 and m is one more than a multiple of N. */
  lemma LogsExactlyAt(n: int, m: nat)
    requires n >= 1 && m >= 1
    ensures Logs(n, CounterAfter(n, m - 1)) <==> m > 1 && (m - 1) % n == 0
  {
    if m > 1 {
      CountsModuloN(n, m - 1);
      Successor(m - 2, n);
    }
  }

  /** The first evaluation logs for N = 0 only; for every positive N it does not. */
  lemma FirstEvaluationLogsIff(n: int)
    ensures Logs(n, CounterAfter(n, 0)) <==> n == 0
  {
  }

  /** For N below one the counter never comes back to one: at most that first line is logged. */
  lemma {:induction false} DegenerateN(n: int, m: nat)
    requires n <= 0 && m >= 1
    ensures CounterAfter(n, m) == m * (1 - n)
    ensures LinesAfter(n, m) == if n == 0 then 1 else 0
  {
    if m > 1 {
      DegenerateN(n, m - 1);
      assert m * (1 - n) == (m - 1) * (1 - n) + (1 - n);
      assert (m - 1) * (1 - n) >= 1 - n;
    } else {
      assert CounterAfter(n, 0) == 0 && LinesAfter(n, 0) == 0;
    }
  }

  /** For N of INT_MAX or more the counter is not reduced before it has reached INT_MAX. */
  lemma {:induction false} CountsUp(n: int, m: nat)
    requires m <= n
    ensures CounterAfter(n, m) == m
  {
    if m > 0 {
      CountsUp(n, m - 1);
    }
  }

  /** The increment stays within a 32-bit int for ever exactly for the N from 1 to INT_MAX - 1. */
  lemma {:induction false} NoOverflowIff(n: int)
    ensures (forall m: nat :: CounterAfter(n, m) + 1 <= 0x7fff_ffff) <==> 1 <= n < 0x7fff_ffff
  {
    if n <= 0 {
      DegenerateN(n, INT_MAX);
      assert INT_MAX * (1 - n) >= INT_MAX;
    } else if n < INT_MAX {
      forall m: nat ensures CounterAfter(n, m) + 1 <= INT_MAX {
        if m >= 1 {
          CountsModuloN(n, m);
        }
      }
    } else {
      CountsUp(n, INT_MAX);
    }
  }

  /** The IF form: the conditions met decide, the others do not even count. */
  function LinesIf(n: int, counter: int, conditions: seq<bool>): nat
    decreases conditions
  {
    if conditions == [] then 0
    else if !conditions[0] then LinesIf(n, counter, conditions[1..])
    else (if Logs(n, counter) then 1 else 0) + LinesIf(n, Bump(n, counter), conditions[1..])
  }

  lemma {:induction false} IfFormCountsMet(n: int, before: nat, conditions: seq<bool>)
    ensures LinesAfter(n, before) + LinesIf(n, CounterAfter(n, before), conditions)
              == LinesAfter(n, before + multiset(conditions)[true])
    decreases conditions
  {
    if conditions != [] {
      assert conditions == [conditions[0]] + conditions[1..];
      IfFormCountsMet(n, if conditions[0] then before + 1 else before, conditions[1..]);
    }
  }

  /** One call site with its static counter. */
  class CallSite {
    const n: int
    var counter: int
    ghost var evaluations: nat
    ghost var lines: nat

    ghost predicate Valid()
      reads this
    {
      counter == CounterAfter(n, evaluations) && lines == LinesAfter(n, evaluations)
    }

    constructor (n: int)
      ensures Valid() && this.n == n && evaluations == 0
    {
      this.n := n;
      counter, evaluations, lines := 0, 0, 0;
    }

    /** LOG_EVERY_N. */
    method Log() returns (line: bool)
      requires Valid()
      modifies this
      ensures Valid() && evaluations == old(evaluations) + 1
      ensures lines == old(lines) + if line then 1 else 0
      ensures n >= 1 ==> (line <==> old(evaluations) > 0 && old(evaluations) % n == 0)
    {
      if n >= 1 {
        LogsExactlyAt(n, evaluations + 1);
      }
      line := false;
      counter := counter + 1;
      if counter > n {
        counter := counter - n;
        if counter == 1 {
          line := true;
          lines := lines + 1;
        }
      }
      evaluations := evaluations + 1;
    }

    /** LOG_IF_EVERY_N. */
    method LogIf(condition: bool) returns (line: bool)
      requires Valid()
      modifies this
      ensures Valid() && evaluations == old(evaluations) + if condition then 1 else 0
      ensures lines == old(lines) + if line then 1 else 0
      ensures line ==> condition
    {
      line := false;
      if condition {
        line := Log();
      }
    }
  }
}
