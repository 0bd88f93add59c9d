/**
 TecSignal (tecc_signal.c): a one-shot latch. `TecSignal_set` stores 1 outside the mutex and
 broadcasts under it; `TecSignal_wait` reads the value once without the mutex and otherwise waits
 on the condition variable.

 The machine interleaves any number of setters, waiters and timed waiters, one atomic step at a
 time. A thread is an index into `pcs`. `Step` returns None when the chosen step is blocked.
 */
module Signal {
  import opened Options

  /** What a thread calls: TecSignal_set, TecSignal_wait or TecSignal_wait_for. */
  datatype Op = Set | Wait | WaitFor

  /** Where a thread stands. `err` is the value the wait function is going to return. */
  datatype Pc =
    | SetStore | SetLock | SetBroadcast | SetUnlock
    | WaitFast | WaitLock | WaitCheck | WaitEnter | Sleeping | Relock(err: int) | WaitUnlock(err: int)
    | Done(err: int)

  datatype State = State(value: bool, lock: Option<nat>, pcs: seq<Pc>)

  /** `Spurious` wakes a sleeper for no reason; `Timeout` ends a timed wait. */
  datatype Action = Go(t: nat) | Spurious(t: nat) | Timeout(t: nat)

  const ETIMEDOUT: int := 110

  function Start(op: Op): Pc {
    if op.Set? then SetStore else WaitFast
  }

  function Init(ops: seq<Op>): State {
    State(false, None, seq(|ops|, i requires 0 <= i < |ops| => Start(ops[i])))
  }

  /** A broadcast moves every sleeper to the mutex queue. */
  function Broadcast(pcs: seq<Pc>): (r: seq<Pc>)
    ensures |r| == |pcs|
    ensures forall i :: 0 <= i < |pcs| ==> r[i] == if pcs[i].Sleeping? then Relock(0) else pcs[i]
  {
    seq(|pcs|, i requires 0 <= i < |pcs| => if pcs[i].Sleeping? then Relock(0) else pcs[i])
  }

  function Goto(s: State, t: nat, pc: Pc): State
    requires t < |s.pcs|
  {
    s.(pcs := s.pcs[t := pc])
  }

  function Acquire(s: State, t: nat, pc: Pc): Option<State>
    requires t < |s.pcs|
  {
    if s.lock.None? then Some(Goto(s, t, pc).(lock := Some(t))) else None
  }

  function Release(s: State, t: nat, pc: Pc): State
    requires t < |s.pcs|
  {
    Goto(s, t, pc).(lock := None)
  }

  function Step(ops: seq<Op>, s: State, a: Action): Option<State>
    requires |ops| == |s.pcs|
  {
    if a.t >= |s.pcs| then None
    else match a
      case Spurious(t) => if s.pcs[t].Sleeping? then Some(Goto(s, t, Relock(0))) else None
      case Timeout(t) =>
        if s.pcs[t].Sleeping? && ops[t].WaitFor? then Some(Goto(s, t, Relock(ETIMEDOUT))) else None
      case Go(t) =>
        match s.pcs[t]
        case SetStore => Some(Goto(s, t, SetLock).(value := true))
        case SetLock => Acquire(s, t, SetBroadcast)
        case SetBroadcast => Some(Goto(s.(pcs := Broadcast(s.pcs)), t, SetUnlock))
        case SetUnlock => Some(Release(s, t, Done(0)))
        case WaitFast => Some(Goto(s, t, if s.value then Done(0) else WaitLock))
        case WaitLock => Acquire(s, t, WaitCheck)
        case WaitCheck => Some(Goto(s, t, if s.value then WaitUnlock(0) else WaitEnter))
        case WaitEnter => Some(Release(s, t, Sleeping))
        case Sleeping => None
        case Relock(e) => Acquire(s, t, if e == 0 then WaitCheck else WaitUnlock(e))
        case WaitUnlock(e) => Some(Release(s, t, Done(e)))
        case Done(_) => None
  }

  /** The state a list of actions leads to from `s`, or None when one of them was blocked. */
  function Exec(ops: seq<Op>, s: State, acts: seq<Action>): (r: Option<State>)
    requires |ops| == |s.pcs|
    ensures r.Some? ==> |r.value.pcs| == |ops|
  {
    if acts == [] then Some(s)
    else match Exec(ops, s, acts[..|acts| - 1])
      case None => None
      case Some(m) => Step(ops, m, acts[|acts| - 1])
  }

  function Run(ops: seq<Op>, acts: seq<Action>): Option<State> {
    Exec(ops, Init(ops), acts)
  }

  // ----- Invariant

  predicate Holds(pc: Pc) {
    pc.SetBroadcast? || pc.SetUnlock? || pc.WaitCheck? || pc.WaitEnter? || pc.WaitUnlock?
  }

  /** The pcs a thread can have, by the function it calls. */
  predicate Fits(op: Op, pc: Pc) {
    match pc
    case SetStore | SetLock | SetBroadcast | SetUnlock => op.Set?
    case Done(e) => e != 0 ==> op.WaitFor?
    case Relock(e) => !op.Set? && (e != 0 ==> op.WaitFor?)
    case WaitUnlock(e) => !op.Set? && (e != 0 ==> op.WaitFor?)
    case _ => !op.Set?
  }

  /** Asleep, or holding the mutex after reading 0 and about to sleep. */
  predicate Drowsy(pc: Pc) {
    pc.Sleeping? || pc.WaitEnter?
  }

  /** A setter between its store and its broadcast. */
  predicate Pending(pc: Pc) {
    pc.SetLock? || pc.SetBroadcast?
  }

  ghost predicate LockInv(s: State) {
    && (s.lock.Some? ==> s.lock.value < |s.pcs|)
    && (forall t :: 0 <= t < |s.pcs| ==> (Holds(s.pcs[t]) <==> s.lock == Some(t)))
  }

  ghost predicate NoLostWakeup(s: State) {
    (exists t :: 0 <= t < |s.pcs| && Drowsy(s.pcs[t])) ==>
      !s.value || exists u :: 0 <= u < |s.pcs| && Pending(s.pcs[u])
  }

  /** Broadcast done: the setter is past its broadcast. */
  predicate Announced(op: Op, pc: Pc) {
    op.Set? && (pc.SetUnlock? || pc.Done?)
  }

  ghost predicate NoneAsleepAfterSet(ops: seq<Op>, s: State)
    requires |ops| == |s.pcs|
  {
    (exists u :: 0 <= u < |s.pcs| && Announced(ops[u], s.pcs[u])) ==>
      forall t :: 0 <= t < |s.pcs| ==> !Drowsy(s.pcs[t])
  }

  /** Threads whose state is only possible once the value is 1. */
  predicate NeedsValue(op: Op, pc: Pc) {
    || (op.Set? && !pc.SetStore?)
    || (!op.Set? && (pc == Done(0) || pc == WaitUnlock(0)))
  }

  ghost predicate Inv(ops: seq<Op>, s: State) {
    && |ops| == |s.pcs|
    && LockInv(s)
    && (forall t :: 0 <= t < |s.pcs| ==> Fits(ops[t], s.pcs[t]))
    && (forall t :: 0 <= t < |s.pcs| ==> NeedsValue(ops[t], s.pcs[t]) ==> s.value)
    && NoLostWakeup(s)
    && NoneAsleepAfterSet(ops, s)
    && (s.value ==> exists u :: 0 <= u < |s.pcs| && ops[u].Set? && !s.pcs[u].SetStore?)
  }

  lemma StepKeepsInv(ops: seq<Op>, s: State, a: Action)
    requires Inv(ops, s) && Step(ops, s, a).Some?
    ensures Inv(ops, Step(ops, s, a).value)
  {
    StepKeepsLock(ops, s, a);
    StepKeepsFits(ops, s, a);
    StepKeepsSetter(ops, s, a);
    StepKeepsWakeup(ops, s, a);
    StepKeepsAwake(ops, s, a);
  }

  lemma StepKeepsLock(ops: seq<Op>, s: State, a: Action)
    requires |ops| == |s.pcs| && LockInv(s) && Step(ops, s, a).Some?
    ensures LockInv(Step(ops, s, a).value)
  {
  }

  lemma StepKeepsFits(ops: seq<Op>, s: State, a: Action)
    requires Inv(ops, s) && Step(ops, s, a).Some?
    ensures var s' := Step(ops, s, a).value;
      forall t :: 0 <= t < |s'.pcs| ==> Fits(ops[t], s'.pcs[t]) && (NeedsValue(ops[t], s'.pcs[t]) ==> s'.value)
  {
    FitsKept(ops, s, a);
  }

  /** A step moves its own thread, and a broadcast the sleepers. */
  lemma OthersAfter(ops: seq<Op>, s: State, a: Action)
    requires |ops| == |s.pcs| && Step(ops, s, a).Some?
    ensures var s' := Step(ops, s, a).value;
      && a.t < |s.pcs| == |s'.pcs| && (s.value ==> s'.value)
      && forall t :: 0 <= t < |s.pcs| && t != a.t ==>
           s'.pcs[t] == s.pcs[t] || (s.pcs[t].Sleeping? && s'.pcs[t] == Relock(0))
  {
  }

  lemma OwnFits(ops: seq<Op>, s: State, a: Action)
    requires |ops| == |s.pcs| && Step(ops, s, a).Some? && Fits(ops[a.t], s.pcs[a.t])
    requires NeedsValue(ops[a.t], s.pcs[a.t]) ==> s.value
    ensures var s' := Step(ops, s, a).value;
      Fits(ops[a.t], s'.pcs[a.t]) && (NeedsValue(ops[a.t], s'.pcs[a.t]) ==> s'.value)
  {
  }

  lemma FitsKept(ops: seq<Op>, s: State, a: Action)
    requires |ops| == |s.pcs| && Step(ops, s, a).Some?
    requires forall t :: 0 <= t < |s.pcs| ==> Fits(ops[t], s.pcs[t]) && (NeedsValue(ops[t], s.pcs[t]) ==> s.value)
    ensures var s' := Step(ops, s, a).value;
      forall t :: 0 <= t < |s'.pcs| ==> Fits(ops[t], s'.pcs[t]) && (NeedsValue(ops[t], s'.pcs[t]) ==> s'.value)
  {
    OthersAfter(ops, s, a);
    hide Step;
    OwnFits(ops, s, a);
  }

  lemma StepKeepsSetter(ops: seq<Op>, s: State, a: Action)
    requires Inv(ops, s) && Step(ops, s, a).Some?
    ensures var s' := Step(ops, s, a).value;
      s'.value ==> exists u :: 0 <= u < |s'.pcs| && ops[u].Set? && !s'.pcs[u].SetStore?
  {
    var s' := Step(ops, s, a).value;
    if s.value {
      var u :| 0 <= u < |s.pcs| && ops[u].Set? && !s.pcs[u].SetStore?;
      assert ops[u].Set? && !s'.pcs[u].SetStore?;
    } else {
      assert s'.value ==> ops[a.t].Set? && !s'.pcs[a.t].SetStore?;
    }
  }

  lemma StepKeepsWakeup(ops: seq<Op>, s: State, a: Action)
    requires Inv(ops, s) && Step(ops, s, a).Some?
    ensures NoLostWakeup(Step(ops, s, a).value)
  {
    var s' := Step(ops, s, a).value;
    if t :| 0 <= t < |s'.pcs| && Drowsy(s'.pcs[t]) && s'.value {
      if s.value {
        assert Drowsy(s.pcs[t]);
        var u :| 0 <= u < |s.pcs| && Pending(s.pcs[u]);
        assert Pending(s'.pcs[u]);
      } else {
        assert Pending(s'.pcs[a.t]);
      }
    }
  }

  lemma StepKeepsAwake(ops: seq<Op>, s: State, a: Action)
    requires Inv(ops, s) && Step(ops, s, a).Some?
    ensures NoneAsleepAfterSet(ops, Step(ops, s, a).value)
  {
    var s' := Step(ops, s, a).value;
    if u :| 0 <= u < |s'.pcs| && Announced(ops[u], s'.pcs[u]) {
      assert s.value;
      forall t | 0 <= t < |s'.pcs|
        ensures !Drowsy(s'.pcs[t])
      {
        assert Announced(ops[u], s.pcs[u]) ==> !Drowsy(s.pcs[t]);
      }
    }
  }

  lemma {:induction false} RunInv(ops: seq<Op>, acts: seq<Action>)
    requires Run(ops, acts).Some?
    ensures Inv(ops, Run(ops, acts).value)
    decreases |acts|
  {
    if acts != [] {
      RunInv(ops, acts[..|acts| - 1]);
      StepKeepsInv(ops, Run(ops, acts[..|acts| - 1]).value, acts[|acts| - 1]);
    }
  }

  // ----- Main results

  /**
   No lost wakeup, over every run: a thread that is asleep, or that holds the mutex after reading
   0, implies that the value is still 0 or that some setter has yet to broadcast; and once one
   setter has broadcast, nobody is asleep.
   */
  lemma NoWakeupIsLost(ops: seq<Op>, acts: seq<Action>, t: nat)
    requires Run(ops, acts).Some? && t < |ops|
    ensures var s := Run(ops, acts).value;
      && (Drowsy(s.pcs[t]) ==> !s.value || exists u :: 0 <= u < |s.pcs| && Pending(s.pcs[u]))
      && (Drowsy(s.pcs[t]) ==> forall u :: 0 <= u < |ops| && ops[u].Set? ==> !s.pcs[u].Done?)
  {
    RunInv(ops, acts);
    var s := Run(ops, acts).value;
    if Drowsy(s.pcs[t]) {
      forall u | 0 <= u < |ops| && ops[u].Set?
        ensures !s.pcs[u].Done?
      {
        assert !Announced(ops[u], s.pcs[u]);
      }
    }
  }

  /** A wait returns 0 only when some setter has stored 1; an untimed wait returns nothing else. */
  lemma WaitReturnsAfterSet(ops: seq<Op>, acts: seq<Action>, t: nat)
    requires Run(ops, acts).Some? && t < |ops| && !ops[t].Set?
    requires Run(ops, acts).value.pcs[t].Done?
    ensures var s := Run(ops, acts).value;
      && (ops[t].Wait? ==> s.pcs[t].err == 0)
      && (s.pcs[t].err == 0 ==> s.value && exists u :: 0 <= u < |ops| && ops[u].Set? && !s.pcs[u].SetStore?)
  {
    RunInv(ops, acts);
  }

  // ----- What a timed wait returns

  predicate HasErr(pc: Pc) {
    pc.Relock? || pc.WaitUnlock? || pc.Done?
  }

  /** Thread `t` carries the error of a timeout exactly if it has timed out, and else none. */
  ghost predicate ErrOk(pc: Pc, timedOut: bool) {
    if timedOut then HasErr(pc) && pc.err == 110 else HasErr(pc) ==> pc.err == 0
  }

  lemma StepErr(ops: seq<Op>, s: State, a: Action, t: nat, timedOut: bool)
    requires |ops| == |s.pcs| && Step(ops, s, a).Some? && t < |ops| && ErrOk(s.pcs[t], timedOut)
    ensures |Step(ops, s, a).value.pcs| == |ops|
    ensures ErrOk(Step(ops, s, a).value.pcs[t], timedOut || a == Timeout(t))
  {
  }

  lemma {:induction false} RunErr(ops: seq<Op>, acts: seq<Action>, t: nat)
    requires Run(ops, acts).Some? && t < |ops|
    ensures |Run(ops, acts).value.pcs| == |ops|
    ensures ErrOk(Run(ops, acts).value.pcs[t], Timeout(t) in acts)
    decreases |acts|
  {
    if acts != [] {
      var before := acts[..|acts| - 1];
      RunErr(ops, before, t);
      StepErr(ops, Run(ops, before).value, acts[|acts| - 1], t, Timeout(t) in before);
      assert acts == before + [acts[|acts| - 1]];
    }
  }

  /** A timed wait returns ETIMEDOUT (110) exactly if its waiting has timed out, and else 0; no other call ever does. */
  lemma TimedWaitReturns(ops: seq<Op>, acts: seq<Action>, t: nat)
    requires Run(ops, acts).Some? && t < |ops| && Run(ops, acts).value.pcs[t].Done?
    ensures Run(ops, acts).value.pcs[t].err == if Timeout(t) in acts then 110 else 0
    ensures Timeout(t) in acts ==> ops[t].WaitFor?
  {
    RunErr(ops, acts, t);
    RunInv(ops, acts);
  }

  /** The value is monotone: no step resets it. */
  lemma ValueIsMonotone(ops: seq<Op>, s: State, a: Action)
    requires |ops| == |s.pcs| && Step(ops, s, a).Some? && s.value
    ensures Step(ops, s, a).value.value
  {
  }

  /** Once 1, the value is 1 in every continuation. */
  lemma {:induction false} ValueStays(ops: seq<Op>, s: State, acts: seq<Action>)
    requires |ops| == |s.pcs| && s.value && Exec(ops, s, acts).Some?
    ensures Exec(ops, s, acts).value.value
    decreases |acts|
  {
    if acts != [] {
      ValueStays(ops, s, acts[..|acts| - 1]);
      ValueIsMonotone(ops, Exec(ops, s, acts[..|acts| - 1]).value, acts[|acts| - 1]);
    }
  }

  // ----- Progress: once the value is 1 everybody returns, whatever the scheduler does

  /** Own steps left before the thread returns, when the value is 1. */
  function Left(pc: Pc): nat {
    match pc
    case SetStore => 4 case SetLock => 3 case SetBroadcast => 2 case SetUnlock => 1
    case WaitFast => 7 case WaitLock => 6 case WaitEnter => 5 case Sleeping => 4
    case Relock(_) => 3 case WaitCheck => 2 case WaitUnlock(_) => 1 case Done(_) => 0
  }

  function TotalLeft(pcs: seq<Pc>): nat {
    if pcs == [] then 0 else TotalLeft(pcs[..|pcs| - 1]) + Left(pcs[|pcs| - 1])
  }

  lemma {:induction false} TotalDrops(a: seq<Pc>, b: seq<Pc>, t: nat)
    requires |a| == |b| && t <= |a|
    requires forall i :: 0 <= i < |a| ==> Left(b[i]) <= Left(a[i])
    requires t < |a| ==> Left(b[t]) < Left(a[t])
    ensures t < |a| ==> TotalLeft(b) < TotalLeft(a)
    ensures TotalLeft(b) <= TotalLeft(a)
  {
    if a != [] {
      TotalDrops(a[..|a| - 1], b[..|a| - 1], if t < |a| then t else |a| - 1);
    }
  }

  lemma StepLeft(ops: seq<Op>, s: State, a: Action)
    requires |ops| == |s.pcs| && s.value && Step(ops, s, a).Some?
    ensures var s' := Step(ops, s, a).value;
      && s'.value && |s'.pcs| == |s.pcs| && a.t < |s.pcs| && Left(s'.pcs[a.t]) < Left(s.pcs[a.t])
      && forall i :: 0 <= i < |s.pcs| ==> Left(s'.pcs[i]) <= Left(s.pcs[i])
  {
  }

  lemma StepDrops(ops: seq<Op>, s: State, a: Action)
    requires Inv(ops, s) && s.value && Step(ops, s, a).Some?
    ensures var s' := Step(ops, s, a).value;
      Inv(ops, s') && s'.value && TotalLeft(s'.pcs) < TotalLeft(s.pcs)
  {
    hide Step;
    StepKeepsInv(ops, s, a);
    StepLeft(ops, s, a);
    TotalDrops(s.pcs, Step(ops, s, a).value.pcs, a.t);
  }

  /** Any run that continues after the value became 1 is at most `TotalLeft` steps long. */
  lemma {:induction false} FinishesInTime(ops: seq<Op>, s: State, acts: seq<Action>)
    requires Inv(ops, s) && s.value && Exec(ops, s, acts).Some?
    ensures var e := Exec(ops, s, acts).value;
      Inv(ops, e) && e.value && |acts| + TotalLeft(e.pcs) <= TotalLeft(s.pcs)
    decreases |acts|
  {
    if acts != [] {
      var before := acts[..|acts| - 1];
      FinishesInTime(ops, s, before);
      StepDrops(ops, Exec(ops, s, before).value, acts[|acts| - 1]);
    }
  }

  /** A step other than a spurious wakeup is possible. */
  ghost predicate CanMove(ops: seq<Op>, s: State)
    requires |ops| == |s.pcs|
  {
    exists a: Action :: !a.Spurious? && Step(ops, s, a).Some?
  }

  /** When nothing but a spurious wakeup can happen although some setter exists, every thread has returned. */
  lemma QuietMeansDone(ops: seq<Op>, s: State)
    requires Inv(ops, s) && !CanMove(ops, s)
    requires exists u :: 0 <= u < |ops| && ops[u].Set?
    ensures forall t :: 0 <= t < |s.pcs| ==> s.pcs[t].Done?
  {
    var u :| 0 <= u < |ops| && ops[u].Set?;
    assert s.lock.Some? ==> Step(ops, s, Go(s.lock.value)).Some?;
    assert Step(ops, s, Go(u)).None?;
    assert Announced(ops[u], s.pcs[u]);
    forall t | 0 <= t < |s.pcs|
      ensures s.pcs[t].Done?
    {
      assert Step(ops, s, Go(t)).None?;
      assert !Drowsy(s.pcs[t]);
    }
  }

  /**
   Every thread returns: from any reachable state in which the value is 1, a run has at most
   `7 * |ops|` further steps, and when only spurious wakeups are left every thread has returned.
   */
  lemma EverybodyReturns(ops: seq<Op>, acts: seq<Action>, more: seq<Action>)
    requires Run(ops, acts).Some? && Run(ops, acts).value.value
    requires Exec(ops, Run(ops, acts).value, more).Some?
    ensures |more| <= 7 * |ops|
    ensures var e := Exec(ops, Run(ops, acts).value, more).value;
      !CanMove(ops, e) ==> forall t :: 0 <= t < |ops| ==> e.pcs[t].Done?
  {
    RunInv(ops, acts);
    var s := Run(ops, acts).value;
    FinishesInTime(ops, s, more);
    TotalBound(s.pcs);
    var e := Exec(ops, s, more).value;
    if !CanMove(ops, e) {
      QuietMeansDone(ops, e);
    }
  }

  lemma {:induction false} TotalBound(pcs: seq<Pc>)
    ensures TotalLeft(pcs) <= 7 * |pcs|
  {
    if pcs != [] {
      TotalBound(pcs[..|pcs| - 1]);
    }
  }

  // ----- Progress from the start: every schedule is bounded

  /** Steps a thread has left; while the value is 0 a waiter goes to sleep once, and once more after a spurious wakeup. */
  function Cost(value: bool, pc: Pc): nat {
    if value then Left(pc)
    else match pc
      case WaitFast => 8 case WaitLock => 7 case WaitCheck => 6 case Relock(e) => if e == 0 then 7 else 3
      case _ => Left(pc)
  }

  function TotalCost(value: bool, pcs: seq<Pc>): nat {
    if pcs == [] then 0 else TotalCost(value, pcs[..|pcs| - 1]) + Cost(value, pcs[|pcs| - 1])
  }

  /** Nobody's cost grows, but that of thread `t` by `d`. */
  lemma {:induction false} CostMoves(v: bool, pcs: seq<Pc>, v': bool, pcs': seq<Pc>, t: nat, d: int)
    requires |pcs| == |pcs'| && t <= |pcs|
    requires forall i :: 0 <= i < |pcs| && i != t ==> Cost(v', pcs'[i]) <= Cost(v, pcs[i])
    requires t < |pcs| ==> Cost(v', pcs'[t]) <= Cost(v, pcs[t]) + d
    ensures TotalCost(v', pcs') <= TotalCost(v, pcs) + if t < |pcs| then d else 0
  {
    if pcs != [] {
      var n := |pcs| - 1;
      CostMoves(v, pcs[..n], v', pcs'[..n], if t < n then t else n, d);
    }
  }

  lemma StepCosts(ops: seq<Op>, s: State, a: Action)
    requires Inv(ops, s) && Step(ops, s, a).Some?
    ensures var s' := Step(ops, s, a).value;
      && |s'.pcs| == |s.pcs| && a.t < |s.pcs|
      && Cost(s'.value, s'.pcs[a.t]) <= Cost(s.value, s.pcs[a.t]) + (if a.Spurious? then 3 else -1)
      && (forall i :: 0 <= i < |s.pcs| && i != a.t ==> Cost(s'.value, s'.pcs[i]) <= Cost(s.value, s.pcs[i]))
  {
    hide NoLostWakeup, NoneAsleepAfterSet;
  }

  lemma TotalMoves(ops: seq<Op>, s: State, a: Action)
    requires Inv(ops, s) && Step(ops, s, a).Some?
    ensures var s' := Step(ops, s, a).value;
      TotalCost(s'.value, s'.pcs) <= TotalCost(s.value, s.pcs) + if a.Spurious? then 3 else -1
  {
    hide Step, LockInv, NoLostWakeup, NoneAsleepAfterSet;
    StepCosts(ops, s, a);
    var s' := Step(ops, s, a).value;
    CostMoves(s.value, s.pcs, s'.value, s'.pcs, a.t, if a.Spurious? then 3 else -1);
  }

  function SpuriousIn(acts: seq<Action>): (n: nat)
    ensures n <= |acts|
  {
    if acts == [] then 0 else SpuriousIn(acts[..|acts| - 1]) + if acts[|acts| - 1].Spurious? then 1 else 0
  }

  lemma {:induction false} StartCost(ops: seq<Op>, n: nat)
    requires n <= |ops|
    ensures TotalCost(false, Init(ops).pcs[..n]) <= 8 * n
  {
    if n > 0 {
      StartCost(ops, n - 1);
      assert Init(ops).pcs[..n][..n - 1] == Init(ops).pcs[..n - 1];
    }
  }

  lemma {:induction false} Spent(ops: seq<Op>, acts: seq<Action>)
    requires Run(ops, acts).Some?
    ensures var s := Run(ops, acts).value;
      |acts| - SpuriousIn(acts) + TotalCost(s.value, s.pcs) <= TotalCost(false, Init(ops).pcs) + 3 * SpuriousIn(acts)
    decreases |acts|
  {
    if acts != [] {
      var before := acts[..|acts| - 1];
      Spent(ops, before);
      RunInv(ops, before);
      TotalMoves(ops, Run(ops, before).value, acts[|acts| - 1]);
    }
  }

  /**
   From the very start every schedule takes at most eight steps per thread and three per spurious
   wakeup besides these wakeups; with a setter, all have returned when no such step is left.
   */
  lemma EveryRunEnds(ops: seq<Op>, acts: seq<Action>)
    requires Run(ops, acts).Some?
    ensures |acts| - SpuriousIn(acts) <= 8 * |ops| + 3 * SpuriousIn(acts)
    ensures var s := Run(ops, acts).value;
      !CanMove(ops, s) && (exists u :: 0 <= u < |ops| && ops[u].Set?) ==> forall t :: 0 <= t < |ops| ==> s.pcs[t].Done?
  {
    Spent(ops, acts);
    StartCost(ops, |ops|);
    assert Init(ops).pcs[..|ops|] == Init(ops).pcs;
    RunInv(ops, acts);
    var s := Run(ops, acts).value;
    if !CanMove(ops, s) && exists u :: 0 <= u < |ops| && ops[u].Set? {
      QuietMeansDone(ops, s);
    }
  }
}
