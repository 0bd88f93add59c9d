/**
 Round-robin node selection (tecc_thread_pool.c:177-179): an atomic int counter, converted to a
 64-bit size_t and reduced modulo the number of threads. Atomic int arithmetic wraps silently
 (section 7.17.7.5 of ISO C11), and a negative int converts to a size_t modulo 2^64.
 */
module Tickets {
  import opened Arithmetic

  const INT_RANGE: int := 0x1_0000_0000
  const INT_MAX: int := 0x7FFF_FFFF
  const SIZE_RANGE: int := 0x1_0000_0000_0000_0000

  /** The value the t-th fetch_add returns, counting from 0. */
  function Counter(t: nat): int {
    var low: int := t % INT_RANGE;
    if low <= INT_MAX then low else low - INT_RANGE
  }

  function ToSize(x: int): (r: nat)
    requires -INT_RANGE < x < INT_RANGE
    ensures r < SIZE_RANGE
  {
    if x >= 0 then x else x + SIZE_RANGE
  }

  /** The node that serves the t-th enqueue. */
  function NodeOf(n: nat, t: nat): (i: nat)
    requires n > 0
    ensures i < n
  {
    ToSize(Counter(t)) % n
  }

  /** Below the wrap the t-th enqueue goes to node `t % n`. */
  lemma NodeBelowWrap(n: nat, t: nat)
    requires n > 0 && t <= INT_MAX
    ensures NodeOf(n, t) == t % n
  {
    assert t % INT_RANGE == t;
  }

  // ----- Cyclic order

  ghost predicate CyclicAt(n: nat, t: nat)
    requires n > 0
  {
    NodeOf(n, t + 1) == (NodeOf(n, t) + 1) % n
  }

  /** Quotient and remainder of the next number. */
  lemma NextDivMod(a: nat, n: nat)
    requires n > 0
    ensures if a % n + 1 < n then (a + 1) / n == a / n && (a + 1) % n == a % n + 1
            else (a + 1) / n == a / n + 1 && (a + 1) % n == 0
  {
    var q, r := a / n, a % n;
    assert a == n * q + r;
    if r + 1 < n {
      DivModUnique(a + 1, n, q, r + 1);
    } else {
      assert n * (q + 1) == n * q + n;
      DivModUnique(a + 1, n, q + 1, 0);
    }
  }

  lemma ModStep(a: nat, n: nat)
    requires n > 0
    ensures (a + 1) % n == (a % n + 1) % n
  {
    NextDivMod(a, n);
    if a % n + 1 < n {
      DivModUnique(a % n + 1, n, 0, a % n + 1);
    } else {
      DivModUnique(n, n, 1, 0);
    }
  }

  /** Adding a multiple of n does not change the remainder, and nothing else leaves it alone. */
  lemma ModShift(a: int, d: int, n: nat)
    requires n > 0
    ensures (a + d) % n == a % n <==> d % n == 0
  {
    var q, r := a / n, a % n;
    if d % n == 0 {
      var k := d / n;
      assert n * (q + k) == n * q + n * k;
      DivModUnique(a + d, n, q + k, r);
    }
    if (a + d) % n == a % n {
      var k := (a + d) / n;
      assert n * (k - q) == n * k - n * q;
      DivModUnique(d, n, k - q, 0);
    }
  }

  /** The size_t value after one more fetch_add: one more, except where the int changes sign. */
  lemma CounterStep(t: nat)
    ensures var x, y := ToSize(Counter(t)), ToSize(Counter(t + 1));
      y == if t % INT_RANGE == INT_MAX then x + 1 + (SIZE_RANGE - INT_RANGE)
           else if t % INT_RANGE == INT_RANGE - 1 then x + 1 - SIZE_RANGE
           else x + 1
  {
    ModStep(t, INT_RANGE);
  }

  lemma CyclicIff(n: nat, t: nat)
    requires n > 0
    ensures CyclicAt(n, t) <==>
            (t % INT_RANGE == INT_MAX ==> (SIZE_RANGE - INT_RANGE) % n == 0) &&
            (t % INT_RANGE == INT_RANGE - 1 ==> SIZE_RANGE % n == 0)
  {
    CounterStep(t);
    var x := ToSize(Counter(t));
    ModStep(x, n);
    ModShift(x + 1, SIZE_RANGE - INT_RANGE, n);
    ModShift(x + 1 - SIZE_RANGE, SIZE_RANGE, n);
  }

  /** n divides both 2^64 - 2^32 and 2^64 exactly when it divides 2^32. */
  lemma DividesBoth(n: nat)
    requires n > 0
    ensures (SIZE_RANGE - INT_RANGE) % n == 0 && SIZE_RANGE % n == 0 <==> INT_RANGE % n == 0
  {
    if INT_RANGE % n == 0 {
      var k: int := INT_RANGE / n;
      assert INT_RANGE == n * k;
      assert SIZE_RANGE == n * (k * INT_RANGE) by {
        assert n * (k * INT_RANGE) == (n * k) * INT_RANGE;
      }
      DivModUnique(SIZE_RANGE, n, k * INT_RANGE, 0);
      ModShift(SIZE_RANGE, -INT_RANGE, n);
      ModNegate(INT_RANGE, n);
    }
    if (SIZE_RANGE - INT_RANGE) % n == 0 && SIZE_RANGE % n == 0 {
      ModShift(SIZE_RANGE - INT_RANGE, INT_RANGE, n);
    }
  }

  lemma ModNegate(d: int, n: nat)
    requires n > 0 && d % n == 0
    ensures -d % n == 0
  {
    assert n * -(d / n) == -(n * (d / n));
    DivModUnique(-d, n, -(d / n), 0);
  }

  /** Cyclic order survives the wraparound of the counter exactly when `n` divides 2^32. */
  lemma CyclicForeverIff(n: nat)
    requires n > 0
    ensures (forall t: nat :: CyclicAt(n, t)) <==> INT_RANGE % n == 0
  {
    DividesBoth(n);
    if forall t: nat :: CyclicAt(n, t) {
      assert CyclicAt(n, INT_MAX) && CyclicAt(n, INT_RANGE - 1);
      CyclicIff(n, INT_MAX);
      CyclicIff(n, INT_RANGE - 1);
    }
    if INT_RANGE % n == 0 {
      forall t: nat
        ensures CyclicAt(n, t)
      {
        CyclicIff(n, t);
      }
    }
  }

  // ----- Balance

  /** Enqueues that node `i` gets among the first `m`. */
  function Load(n: nat, i: nat, m: nat): nat
    requires n > 0
  {
    if m == 0 then 0 else Load(n, i, m - 1) + if NodeOf(n, m - 1) == i then 1 else 0
  }

  /** How many of the numbers below `m` leave remainder `i`. */
  function Share(n: nat, i: nat, m: nat): nat
    requires n > 0
  {
    m / n + if i < m % n then 1 else 0
  }

  lemma ShareStep(n: nat, i: nat, m: nat)
    requires n > 0 && i < n
    ensures Share(n, i, m + 1) == Share(n, i, m) + if m % n == i then 1 else 0
  {
    NextDivMod(m, n);
  }

  lemma ShareOfNone(n: nat, i: nat)
    requires n > 0
    ensures Share(n, i, 0) == 0
  {
    DivModUnique(0, n, 0, 0);
  }

  /** Before the wrap, node i has the quotient, plus one while it is among the first `m % n`. */
  lemma {:induction false} LoadIs(n: nat, i: nat, m: nat)
    requires n > 0 && i < n && m <= INT_MAX + 1
    ensures Load(n, i, m) == m / n + if i < m % n then 1 else 0
  {
    if m > 0 {
      LoadIs(n, i, m - 1);
      NodeBelowWrap(n, m - 1);
      ShareStep(n, i, m - 1);
    } else {
      ShareOfNone(n, i);
    }
  }

  /** Up to 2^31 enqueues, the loads of any two nodes differ by at most one. */
  lemma Balanced(n: nat, i: nat, j: nat, m: nat)
    requires n > 0 && i < n && j < n && m <= INT_MAX + 1
    ensures -1 <= Load(n, i, m) - Load(n, j, m) <= 1
  {
    LoadIs(n, i, m);
    LoadIs(n, j, m);
  }

  // ----- Balance beyond the wrap

  lemma {:induction false} LoadAfterWrap(n: nat, i: nat, m: nat)
    requires n > 0
    ensures Load(n, i, INT_RANGE + m) == Load(n, i, INT_RANGE) + Load(n, i, m)
  {
    if m > 0 {
      LoadAfterWrap(n, i, m - 1);
      ModShift(m - 1, INT_RANGE, INT_RANGE);
      assert NodeOf(n, INT_RANGE + m - 1) == NodeOf(n, m - 1);
    }
  }

  /** Every 2^32 enqueues the loads grow by the same amounts. */
  lemma {:induction false} LoadRepeats(n: nat, i: nat, wraps: nat, m: nat)
    requires n > 0
    ensures Load(n, i, INT_RANGE * wraps + m) == Load(n, i, INT_RANGE) * wraps + Load(n, i, m)
  {
    hide Load;
    if wraps > 0 {
      LoadRepeats(n, i, wraps - 1, m);
      LoadAfterWrap(n, i, INT_RANGE * (wraps - 1) + m);
      Distribute(Load(n, i, INT_RANGE), wraps - 1, 1);
    }
  }

  lemma HighCounter(t: nat)
    requires INT_MAX < t < INT_RANGE
    ensures ToSize(Counter(t)) == SIZE_RANGE - INT_RANGE + t
  {
    assert t % INT_RANGE == t;
  }

  /** From 2^31 up to the wrap the enqueues go on from 2^64 - 2^31 instead. */
  lemma {:induction false} LoadUpToWrap(n: nat, i: nat, m: nat)
    requires n > 0 && i < n && INT_MAX < m <= INT_RANGE
    ensures Load(n, i, m) ==
      Share(n, i, INT_MAX + 1) + Share(n, i, SIZE_RANGE - INT_RANGE + m) - Share(n, i, SIZE_RANGE - INT_RANGE + INT_MAX + 1)
  {
    if m == INT_MAX + 1 {
      LoadIs(n, i, m);
    } else {
      LoadUpToWrap(n, i, m - 1);
      HighCounter(m - 1);
      ShareStep(n, i, SIZE_RANGE - INT_RANGE + (m - 1));
    }
  }

  /** Two nodes' shares of the numbers from `a` up to `b` differ by at most one. */
  lemma SharesBetween(n: nat, i: nat, j: nat, a: nat, b: nat)
    requires n > 0 && i < n && j < n && a <= b
    ensures var x, y := Share(n, i, b) - Share(n, i, a), Share(n, j, b) - Share(n, j, a); -1 <= x - y <= 1
  {
  }

  /** Within the first 2^32 enqueues the loads of any two nodes differ by at most two. */
  lemma NearlyBalanced(n: nat, i: nat, j: nat, m: nat)
    requires n > 0 && i < n && j < n && m <= INT_RANGE
    ensures -2 <= Load(n, i, m) - Load(n, j, m) <= 2
  {
    hide Load, Share;
    if m <= INT_MAX + 1 {
      Balanced(n, i, j, m);
    } else {
      LoadUpToWrap(n, i, m);
      LoadUpToWrap(n, j, m);
      var high := SIZE_RANGE - INT_RANGE;
      SharesBetween(n, i, j, high + INT_MAX + 1, high + m);
      SharesBetween(n, i, j, 0, INT_MAX + 1);
      ShareOfNone(n, i);
      ShareOfNone(n, j);
    }
  }

  /** By how much node `i` gets ahead of node `j` with every 2^32 enqueues. */
  function Drift(n: nat, i: nat, j: nat): int
    requires n > 0
  {
    Load(n, i, INT_RANGE) - Load(n, j, INT_RANGE)
  }

  /** The two loads drift apart by the same amount, at most two, at every wrap. */
  lemma DriftsApart(n: nat, i: nat, j: nat, wraps: nat, m: nat)
    requires n > 0 && i < n && j < n
    ensures Load(n, i, INT_RANGE * wraps + m) - Load(n, j, INT_RANGE * wraps + m) ==
      Drift(n, i, j) * wraps + Load(n, i, m) - Load(n, j, m)
    ensures -2 <= Drift(n, i, j) <= 2
  {
    hide Load;
    LoadRepeats(n, i, wraps, m);
    LoadRepeats(n, j, wraps, m);
    Distribute(wraps, Load(n, i, INT_RANGE), Load(n, j, INT_RANGE));
    NearlyBalanced(n, i, j, INT_RANGE);
  }

  /** With seven threads the bound is reached: node 0 gains two enqueues on node 2 at every wrap. */
  lemma DriftOfTwo()
    ensures Drift(7, 0, 2) == 2
  {
    hide Load;
    LoadUpToWrap(7, 0, INT_RANGE);
    LoadUpToWrap(7, 2, INT_RANGE);
  }

  // ----- Loads stay balanced exactly when n divides 2^32

  /** The enqueues that the first `k` nodes get among the first `m`. */
  function LoadBelow(n: nat, k: nat, m: nat): nat
    requires n > 0
  {
    if k == 0 then 0 else LoadBelow(n, k - 1, m) + Load(n, k - 1, m)
  }

  lemma {:induction false} LoadBelowStep(n: nat, k: nat, m: nat)
    requires n > 0 && m > 0
    ensures LoadBelow(n, k, m) == LoadBelow(n, k, m - 1) + if NodeOf(n, m - 1) < k then 1 else 0
  {
    if k > 0 {
      LoadBelowStep(n, k - 1, m);
    }
  }

  /** Every enqueue goes to exactly one node. */
  lemma {:induction false} LoadsAddUp(n: nat, m: nat)
    requires n > 0
    ensures LoadBelow(n, n, m) == m
  {
    if m == 0 {
      NoLoad(n, n);
    } else {
      LoadsAddUp(n, m - 1);
      LoadBelowStep(n, n, m);
    }
  }

  lemma {:induction false} NoLoad(n: nat, k: nat)
    requires n > 0
    ensures LoadBelow(n, k, 0) == 0
  {
    if k > 0 {
      NoLoad(n, k - 1);
    }
  }

  lemma {:induction false} EqualLoads(n: nat, k: nat)
    requires n > 0 && k <= n && forall i :: 0 <= i < n ==> Drift(n, i, 0) == 0
    ensures LoadBelow(n, k, INT_RANGE) == Load(n, 0, INT_RANGE) * k
  {
    hide Load;
    if k > 0 {
      EqualLoads(n, k - 1);
      assert Drift(n, k - 1, 0) == 0;
      Distribute(Load(n, 0, INT_RANGE), k - 1, 1);
    }
  }

  /** No bound on the difference survives a drift other than zero. */
  lemma DriftIsUnbounded(n: nat, i: nat, j: nat, bound: nat)
    requires n > 0 && i < n && j < n && Drift(n, i, j) != 0
    ensures exists m: nat :: !Within(Load(n, i, m), Load(n, j, m), bound)
  {
    hide Load;
    DriftsApart(n, i, j, bound + 1, 0);
    var m := INT_RANGE * (bound + 1) + 0;
    NoLoadYet(n, i);
    NoLoadYet(n, j);
    var d := Drift(n, i, j);
    MulBound(bound + 1, d);
    assert !Within(Load(n, i, m), Load(n, j, m), bound);
  }

  lemma NoLoadYet(n: nat, i: nat)
    requires n > 0
    ensures Load(n, i, 0) == 0
  {
  }

  predicate Within(x: int, y: int, bound: nat) {
    x - y <= bound && y - x <= bound
  }

  ghost predicate BalancedWithin(n: nat, bound: nat)
    requires n > 0
  {
    forall i: nat, j: nat, m: nat :: i < n && j < n ==> Within(Load(n, i, m), Load(n, j, m), bound)
  }

  /** When n divides 2^32 node i's load is the fair share for ever. */
  lemma {:induction false} FairForever(n: nat, i: nat, m: nat)
    requires n > 0 && i < n && INT_RANGE % n == 0
    ensures Load(n, i, m) == Share(n, i, m) && NodeOf(n, m) == m % n
    decreases m
  {
    CyclicForeverIff(n);
    if m > 0 {
      FairForever(n, i, m - 1);
      assert CyclicAt(n, m - 1);
      ModStep(m - 1, n);
      ShareStep(n, i, m - 1);
    } else {
      ShareOfNone(n, i);
      NodeBelowWrap(n, 0);
    }
  }

  /** Loads stay within any bound at all exactly when n divides 2^32, and then within one. */
  lemma BalancedForeverIff(n: nat)
    requires n > 0
    ensures (exists bound: nat :: BalancedWithin(n, bound)) <==> INT_RANGE % n == 0
    ensures INT_RANGE % n == 0 ==> BalancedWithin(n, 1)
  {
    if INT_RANGE % n == 0 {
      forall i: nat, j: nat, m: nat | i < n && j < n
        ensures Within(Load(n, i, m), Load(n, j, m), 1)
      {
        FairForever(n, i, m);
        FairForever(n, j, m);
      }
      assert BalancedWithin(n, 1);
    } else {
      UnevenNode(n);
      var i :| 0 <= i < n && Drift(n, i, 0) != 0;
      forall bound: nat
        ensures !BalancedWithin(n, bound)
      {
        DriftIsUnbounded(n, i, 0, bound);
      }
    }
  }

  /** When n does not divide 2^32 some node drifts away from node 0. */
  lemma UnevenNode(n: nat)
    requires n > 0 && INT_RANGE % n != 0
    ensures exists i: nat :: i < n && Drift(n, i, 0) != 0
  {
    hide Load, LoadBelow;
    if forall i: nat :: i < n ==> Drift(n, i, 0) == 0 {
      EqualLoads(n, n);
      LoadsAddUp(n, INT_RANGE);
      DivModUnique(INT_RANGE, n, Load(n, 0, INT_RANGE), 0);
      assert false;
    }
  }
}
