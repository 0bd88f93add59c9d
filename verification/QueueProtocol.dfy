/**
 The locking protocol of TecQueue (tecc_queue.c:55-86): any number of producers and consumers on
 one mutex and one condition variable. A push links the object and signals the condition variable
 while it holds the mutex; a pop waits in a loop until the head is not NULL.

 `items` is the linked list as a sequence; module Queue proves that the pointers represent it.
 A signal wakes one sleeper of the scheduler's choice; spurious wakeups and consumers that barge
 past a woken one are ordinary steps of this machine.
 */
module QueueProtocol {
  import opened Options

  /** What a thread calls: one push of `obj`, or one pop. */
  datatype Op<T> = Push(obj: T) | Pop

  datatype Pc<T> =
    | PushLock | PushLink | PushSignal | PushUnlock
    | PopLock | PopCheck | PopEnter | Sleeping | Relock | PopTake | PopUnlock(got: T)
    | Pushed | Popped(obj: T)

  /** `pushed` and `popped` are histories: every object linked so far and every object taken. */
  datatype State<T> =
    State(items: seq<T>, lock: Option<nat>, pcs: seq<Pc<T>>, pushed: seq<T>, popped: seq<T>)

  /** `Signal(t, w)` is the signalling step of producer `t`, waking `w` when anybody sleeps. */
  datatype Action = Go(t: nat) | Signal(t: nat, w: nat) | Spurious(t: nat)

  function Start<T>(op: Op<T>): Pc<T> {
    if op.Push? then PushLock else PopLock
  }

  function Init<T>(ops: seq<Op<T>>): State<T> {
    State([], None, seq(|ops|, i requires 0 <= i < |ops| => Start(ops[i])), [], [])
  }

  function Goto<T>(s: State<T>, t: nat, pc: Pc<T>): State<T>
    requires t < |s.pcs|
  {
    s.(pcs := s.pcs[t := pc])
  }

  function Acquire<T>(s: State<T>, t: nat, pc: Pc<T>): Option<State<T>>
    requires t < |s.pcs|
  {
    if s.lock.None? then Some(Goto(s, t, pc).(lock := Some(t))) else None
  }

  function Release<T>(s: State<T>, t: nat, pc: Pc<T>): State<T>
    requires t < |s.pcs|
  {
    Goto(s, t, pc).(lock := None)
  }

  ghost predicate SomeAsleep<T>(s: State<T>) {
    exists t :: 0 <= t < |s.pcs| && s.pcs[t].Sleeping?
  }

  ghost function Step<T>(ops: seq<Op<T>>, s: State<T>, a: Action): Option<State<T>>
    requires |ops| == |s.pcs|
  {
    if a.t >= |s.pcs| then None
    else match a
      case Spurious(t) => if s.pcs[t].Sleeping? then Some(Goto(s, t, Relock)) else None
      case Signal(t, w) =>
        if !s.pcs[t].PushSignal? then None
        else if w < |s.pcs| && s.pcs[w].Sleeping? then Some(Goto(Goto(s, w, Relock), t, PushUnlock))
        else if SomeAsleep(s) then None
        else Some(Goto(s, t, PushUnlock))
      case Go(t) =>
        match s.pcs[t]
        case PushLock => Acquire(s, t, PushLink)
        case PushLink =>
          if ops[t].Pop? then None
          else Some(Goto(s, t, PushSignal).(items := s.items + [ops[t].obj], pushed := s.pushed + [ops[t].obj]))
        case PushUnlock => Some(Release(s, t, Pushed))
        case PopLock => Acquire(s, t, PopCheck)
        case PopCheck => Some(Goto(s, t, if s.items == [] then PopEnter else PopTake))
        case PopEnter => Some(Release(s, t, Sleeping))
        case Relock => Acquire(s, t, PopCheck)
        case PopTake =>
          if s.items == [] then None
          else Some(Goto(s, t, PopUnlock(s.items[0])).(items := s.items[1..], popped := s.popped + [s.items[0]]))
        case PopUnlock(obj) => Some(Release(s, t, Popped(obj)))
        case PushSignal | Sleeping | Pushed | Popped(_) => None
  }

  ghost function Run<T>(ops: seq<Op<T>>, acts: seq<Action>): (r: Option<State<T>>)
    ensures r.Some? ==> |r.value.pcs| == |ops|
  {
    if acts == [] then Some(Init(ops))
    else match Run(ops, acts[..|acts| - 1])
      case None => None
      case Some(m) => Step(ops, m, acts[|acts| - 1])
  }

  // ----- Invariant

  predicate Holds<T>(pc: Pc<T>) {
    pc.PushLink? || pc.PushSignal? || pc.PushUnlock? || pc.PopCheck? || pc.PopEnter? || pc.PopTake? || pc.PopUnlock?
  }

  predicate Fits<T>(op: Op<T>, pc: Pc<T>) {
    (pc.PushLock? || pc.PushLink? || pc.PushSignal? || pc.PushUnlock? || pc.Pushed?) <==> op.Push?
  }

  /** Woken from the condition variable, not yet run. */
  predicate Woken<T>(pc: Pc<T>) {
    pc.Relock?
  }

  /** Threads that answer for one queued item each: woken or already inside, or about to signal. */
  function Credit<T>(pc: Pc<T>): nat {
    if pc.Relock? || pc.PopCheck? || pc.PopTake? || pc.PushSignal? then 1 else 0
  }

  function Credits<T>(pcs: seq<Pc<T>>): nat {
    if pcs == [] then 0 else Credits(pcs[..|pcs| - 1]) + Credit(pcs[|pcs| - 1])
  }

  function WokenCount<T>(pcs: seq<Pc<T>>): nat {
    if pcs == [] then 0 else WokenCount(pcs[..|pcs| - 1]) + if Woken(pcs[|pcs| - 1]) then 1 else 0
  }

  lemma {:induction false} CreditsAfter<T>(pcs: seq<Pc<T>>, t: nat, pc: Pc<T>)
    requires t < |pcs|
    ensures Credits(pcs[t := pc]) == Credits(pcs) - Credit(pcs[t]) + Credit(pc)
  {
    var last := |pcs| - 1;
    if t < last {
      CreditsAfter(pcs[..last], t, pc);
      assert pcs[t := pc][..last] == pcs[..last][t := pc];
    } else {
      assert pcs[t := pc][..last] == pcs[..last];
    }
  }

  lemma {:induction false} CreditsAreWoken<T>(pcs: seq<Pc<T>>)
    requires forall i :: 0 <= i < |pcs| ==> !Holds(pcs[i])
    ensures Credits(pcs) == WokenCount(pcs)
  {
    if pcs != [] {
      CreditsAreWoken(pcs[..|pcs| - 1]);
    }
  }

  lemma {:induction false} CreditsNone<T>(pcs: seq<Pc<T>>)
    requires forall i :: 0 <= i < |pcs| ==> Credit(pcs[i]) == 0
    ensures Credits(pcs) == 0
  {
    if pcs != [] {
      CreditsNone(pcs[..|pcs| - 1]);
    }
  }

  ghost predicate LockInv<T>(s: State<T>) {
    && (s.lock.Some? ==> s.lock.value < |s.pcs|)
    && (forall t :: 0 <= t < |s.pcs| ==> (Holds(s.pcs[t]) <==> s.lock == Some(t)))
  }

  ghost predicate ListInv<T>(s: State<T>) {
    && s.pushed == s.popped + s.items
    && (forall t :: 0 <= t < |s.pcs| ==> (s.pcs[t].PopEnter? ==> s.items == []) && (s.pcs[t].PopTake? ==> s.items != []))
  }

  ghost predicate Inv<T>(ops: seq<Op<T>>, s: State<T>) {
    && |ops| == |s.pcs|
    && LockInv(s)
    && ListInv(s)
    && (forall t :: 0 <= t < |s.pcs| ==> Fits(ops[t], s.pcs[t]))
    && (SomeAsleep(s) ==> |s.items| <= Credits(s.pcs))
  }

  lemma StepKeepsLock<T>(ops: seq<Op<T>>, s: State<T>, a: Action)
    requires |ops| == |s.pcs| && LockInv(s) && Step(ops, s, a).Some?
    ensures LockInv(Step(ops, s, a).value)
  {
  }

  lemma StepKeepsFits<T>(ops: seq<Op<T>>, s: State<T>, a: Action)
    requires |ops| == |s.pcs| && Step(ops, s, a).Some?
    requires forall t :: 0 <= t < |s.pcs| ==> Fits(ops[t], s.pcs[t])
    ensures forall t :: 0 <= t < |s.pcs| ==> Fits(ops[t], Step(ops, s, a).value.pcs[t])
  {
  }

  lemma StepKeepsList<T>(ops: seq<Op<T>>, s: State<T>, a: Action)
    requires Inv(ops, s) && Step(ops, s, a).Some?
    ensures ListInv(Step(ops, s, a).value)
  {
    hide Credits;
    var s' := Step(ops, s, a).value;
    assert s'.pushed == s'.popped + s'.items by {
      if s.items != [] {
        assert s.popped + s.items == (s.popped + [s.items[0]]) + s.items[1..];
      }
    }
  }

  lemma StepKeepsCredits<T>(ops: seq<Op<T>>, s: State<T>, a: Action)
    requires Inv(ops, s) && Step(ops, s, a).Some?
    ensures var s' := Step(ops, s, a).value; SomeAsleep(s') ==> |s'.items| <= Credits(s'.pcs)
  {
    var s' := Step(ops, s, a).value;
    var t := a.t;
    if a.Signal? && a.w < |s.pcs| && s.pcs[a.w].Sleeping? {
      CreditsAfter(s.pcs, a.w, Relock);
      CreditsAfter(s.pcs[a.w := Relock], t, PushUnlock);
    } else {
      CreditsAfter(s.pcs, t, s'.pcs[t]);
      if u :| 0 <= u < |s'.pcs| && s'.pcs[u].Sleeping? {
        assert s.pcs[u].Sleeping? || (u == t && s.pcs[t].PopEnter?);
      }
    }
  }

  lemma StepKeepsInv<T>(ops: seq<Op<T>>, s: State<T>, a: Action)
    requires Inv(ops, s) && Step(ops, s, a).Some?
    ensures Inv(ops, Step(ops, s, a).value)
  {
    StepKeepsLock(ops, s, a);
    StepKeepsFits(ops, s, a);
    StepKeepsList(ops, s, a);
    StepKeepsCredits(ops, s, a);
  }

  lemma {:induction false} RunInv<T>(ops: seq<Op<T>>, acts: seq<Action>)
    requires Run(ops, acts).Some?
    ensures Inv(ops, Run(ops, acts).value)
    decreases |acts|
  {
    if acts != [] {
      RunInv(ops, acts[..|acts| - 1]);
      StepKeepsInv(ops, Run(ops, acts[..|acts| - 1]).value, acts[|acts| - 1]);
    } else {
      CreditsNone(Init(ops).pcs);
    }
  }

  // ----- Main results

  /** In every reachable state the popped objects followed by the queued ones are the pushed ones, in order. */
  lemma FirstInFirstOut<T>(ops: seq<Op<T>>, acts: seq<Action>)
    requires Run(ops, acts).Some?
    ensures var s := Run(ops, acts).value; s.pushed == s.popped + s.items
  {
    RunInv(ops, acts);
  }

  // How often an object occurs in a sequence, among the objects consumers hold or have returned,
  // and among the objects whose push has linked its node.

  ghost function Occurs<T>(q: seq<T>, x: T): nat {
    if q == [] then 0 else Occurs(q[..|q| - 1], x) + if q[|q| - 1] == x then 1 else 0
  }

  ghost function TakenBy<T>(pc: Pc<T>, x: T): nat {
    if pc == PopUnlock(x) || pc == Popped(x) then 1 else 0
  }

  ghost function Taken<T>(pcs: seq<Pc<T>>, x: T): nat {
    if pcs == [] then 0 else Taken(pcs[..|pcs| - 1], x) + TakenBy(pcs[|pcs| - 1], x)
  }

  ghost function LinkedBy<T>(op: Op<T>, pc: Pc<T>, x: T): nat {
    if op == Push(x) && (pc.PushSignal? || pc.PushUnlock? || pc.Pushed?) then 1 else 0
  }

  ghost function Linked<T>(ops: seq<Op<T>>, pcs: seq<Pc<T>>, x: T): nat
    requires |ops| == |pcs|
  {
    if pcs == [] then 0
    else Linked(ops[..|pcs| - 1], pcs[..|pcs| - 1], x) + LinkedBy(ops[|pcs| - 1], pcs[|pcs| - 1], x)
  }

  lemma {:induction false} TalliesAfter<T>(ops: seq<Op<T>>, pcs: seq<Pc<T>>, t: nat, pc: Pc<T>, x: T)
    requires t < |pcs| == |ops|
    ensures Taken(pcs[t := pc], x) == Taken(pcs, x) - TakenBy(pcs[t], x) + TakenBy(pc, x)
    ensures Linked(ops, pcs[t := pc], x) == Linked(ops, pcs, x) - LinkedBy(ops[t], pcs[t], x) + LinkedBy(ops[t], pc, x)
  {
    var last := |pcs| - 1;
    if t < last {
      TalliesAfter(ops[..last], pcs[..last], t, pc, x);
      assert pcs[t := pc][..last] == pcs[..last][t := pc];
    } else {
      assert pcs[t := pc][..last] == pcs[..last];
    }
  }

  lemma {:induction false} NothingTaken<T>(ops: seq<Op<T>>, n: nat, x: T)
    requires n <= |ops|
    ensures Taken(Init(ops).pcs[..n], x) == 0 && Linked(ops[..n], Init(ops).pcs[..n], x) == 0
  {
    if n > 0 {
      NothingTaken(ops, n - 1, x);
      assert ops[..n][..n - 1] == ops[..n - 1];
      assert Init(ops).pcs[..n][..n - 1] == Init(ops).pcs[..n - 1];
    }
  }

  lemma OccursAfter<T>(q: seq<T>, y: T, x: T)
    ensures Occurs(q + [y], x) == Occurs(q, x) + if x == y then 1 else 0
  {
    assert (q + [y])[..|q|] == q;
  }

  lemma {:induction false} OccursConcat<T>(p: seq<T>, q: seq<T>, x: T)
    ensures Occurs(p + q, x) == Occurs(p, x) + Occurs(q, x)
  {
    if q == [] {
      assert p + q == p;
    } else {
      OccursConcat(p, q[..|q| - 1], x);
      assert (p + q)[..|p + q| - 1] == p + q[..|q| - 1];
    }
  }

  /** A step other than a waking signal moves one thread; only PushLink and PopTake touch the histories. */
  lemma StepShape<T>(ops: seq<Op<T>>, s: State<T>, a: Action, x: T)
    requires Inv(ops, s) && Step(ops, s, a).Some?
    requires !(a.Signal? && a.w < |s.pcs| && s.pcs[a.w].Sleeping?)
    ensures var s' := Step(ops, s, a).value; var t := a.t;
      && s'.pcs == s.pcs[t := s'.pcs[t]]
      && (if s.pcs[t].PushLink? then s'.pushed == s.pushed + [ops[t].obj] && s'.pcs[t] == PushSignal && ops[t].Push?
          else s'.pushed == s.pushed && LinkedBy(ops[t], s'.pcs[t], x) == LinkedBy(ops[t], s.pcs[t], x))
      && (if s.pcs[t].PopTake? then s'.popped == s.popped + [s.items[0]] && s'.pcs[t] == PopUnlock(s.items[0])
          else s'.popped == s.popped && TakenBy(s'.pcs[t], x) == TakenBy(s.pcs[t], x))
  {
  }

  lemma StepTallies<T>(ops: seq<Op<T>>, s: State<T>, a: Action, x: T)
    requires Inv(ops, s) && Step(ops, s, a).Some?
    ensures var s' := Step(ops, s, a).value;
      && Taken(s'.pcs, x) - Taken(s.pcs, x) == Occurs(s'.popped, x) - Occurs(s.popped, x)
      && Linked(ops, s'.pcs, x) - Linked(ops, s.pcs, x) == Occurs(s'.pushed, x) - Occurs(s.pushed, x)
  {
    hide ListInv, Taken, Linked, Occurs, Credits;
    if a.Signal? && a.w < |s.pcs| && s.pcs[a.w].Sleeping? {
      WakeTallies(ops, s, a, x);
    } else {
      StepShape(ops, s, a, x);
      hide Step;
      MoveTallies(ops, s, Step(ops, s, a).value, a.t, x);
    }
  }

  lemma WakeTallies<T>(ops: seq<Op<T>>, s: State<T>, a: Action, x: T)
    requires Inv(ops, s) && Step(ops, s, a).Some? && a.Signal? && a.w < |s.pcs| && s.pcs[a.w].Sleeping?
    ensures var s' := Step(ops, s, a).value;
      && Taken(s'.pcs, x) == Taken(s.pcs, x) && s'.popped == s.popped
      && Linked(ops, s'.pcs, x) == Linked(ops, s.pcs, x) && s'.pushed == s.pushed
  {
    hide ListInv, Taken, Linked, Credits;
    TalliesAfter(ops, s.pcs, a.w, Relock, x);
    TalliesAfter(ops, s.pcs[a.w := Relock], a.t, PushUnlock, x);
  }

  lemma MoveTallies<T>(ops: seq<Op<T>>, s: State<T>, s': State<T>, t: nat, x: T)
    requires t < |ops| == |s.pcs| == |s'.pcs| && s'.pcs == s.pcs[t := s'.pcs[t]]
    requires if s.pcs[t].PushLink?
             then ops[t].Push? && s'.pushed == s.pushed + [ops[t].obj] && s'.pcs[t] == PushSignal
             else s'.pushed == s.pushed && LinkedBy(ops[t], s'.pcs[t], x) == LinkedBy(ops[t], s.pcs[t], x)
    requires if s.pcs[t].PopTake?
             then s.items != [] && s'.popped == s.popped + [s.items[0]] && s'.pcs[t] == PopUnlock(s.items[0])
             else s'.popped == s.popped && TakenBy(s'.pcs[t], x) == TakenBy(s.pcs[t], x)
    ensures Taken(s'.pcs, x) - Taken(s.pcs, x) == Occurs(s'.popped, x) - Occurs(s.popped, x)
    ensures Linked(ops, s'.pcs, x) - Linked(ops, s.pcs, x) == Occurs(s'.pushed, x) - Occurs(s.pushed, x)
  {
    TalliesAfter(ops, s.pcs, t, s'.pcs[t], x);
    if s.pcs[t].PushLink? {
      OccursAfter(s.pushed, ops[t].obj, x);
    } else if s.pcs[t].PopTake? {
      OccursAfter(s.popped, s.items[0], x);
    }
  }

  lemma {:induction false} RunTallies<T>(ops: seq<Op<T>>, acts: seq<Action>, x: T)
    requires Run(ops, acts).Some?
    ensures var s := Run(ops, acts).value;
      Taken(s.pcs, x) == Occurs(s.popped, x) && Linked(ops, s.pcs, x) == Occurs(s.pushed, x)
    decreases |acts|
  {
    if acts == [] {
      NothingTaken(ops, |ops|, x);
      assert ops[..|ops|] == ops && Init(ops).pcs[..|ops|] == Init(ops).pcs;
    } else {
      RunTallies(ops, acts[..|acts| - 1], x);
      RunInv(ops, acts[..|acts| - 1]);
      StepTallies(ops, Run(ops, acts[..|acts| - 1]).value, acts[|acts| - 1], x);
    }
  }

  /**
   No object is lost, invented or delivered twice: of every object, the pushes have linked as many
   copies as the pops have taken plus those still queued.
   */
  lemma DeliveredOnce<T>(ops: seq<Op<T>>, acts: seq<Action>, x: T)
    requires Run(ops, acts).Some?
    ensures var s := Run(ops, acts).value; Linked(ops, s.pcs, x) == Taken(s.pcs, x) + Occurs(s.items, x)
  {
    RunTallies(ops, acts, x);
    RunInv(ops, acts);
    OccursConcat(Run(ops, acts).value.popped, Run(ops, acts).value.items, x);
  }

  /**
   No lost wakeup: while the mutex is free and some consumer sleeps, there are at least as many
   woken consumers as queued items.
   */
  lemma WokenCoverItems<T>(ops: seq<Op<T>>, acts: seq<Action>)
    requires Run(ops, acts).Some?
    ensures var s := Run(ops, acts).value;
      s.lock.None? && SomeAsleep(s) ==> |s.items| <= WokenCount(s.pcs)
  {
    RunInv(ops, acts);
    var s := Run(ops, acts).value;
    if s.lock.None? {
      CreditsAreWoken(s.pcs);
    }
  }

  /** A step other than a spurious wakeup is possible. */
  ghost predicate CanMove<T>(ops: seq<Op<T>>, s: State<T>)
    requires |ops| == |s.pcs|
  {
    exists a: Action :: !a.Spurious? && Step(ops, s, a).Some?
  }

  lemma HolderMoves<T>(ops: seq<Op<T>>, s: State<T>)
    requires Inv(ops, s) && s.lock.Some?
    ensures CanMove(ops, s)
  {
    var t := s.lock.value;
    if s.pcs[t].PushSignal? {
      var w := if SomeAsleep(s) then var u :| 0 <= u < |s.pcs| && s.pcs[u].Sleeping?; u else t;
      assert Step(ops, s, Signal(t, w)).Some?;
    } else {
      assert Step(ops, s, Go(t)).Some?;
    }
  }

  /**
   An item is never stranded: in a reachable state where nothing but a spurious wakeup can happen,
   every push has completed, and every pop has completed unless the queue is empty.
   */
  lemma QuietMeansServed<T>(ops: seq<Op<T>>, acts: seq<Action>)
    requires Run(ops, acts).Some? && !CanMove(ops, Run(ops, acts).value)
    ensures var s := Run(ops, acts).value;
      && (forall t :: 0 <= t < |ops| && ops[t].Push? ==> s.pcs[t].Pushed?)
      && (s.items != [] ==> forall t :: 0 <= t < |ops| && ops[t].Pop? ==> s.pcs[t].Popped?)
  {
    RunInv(ops, acts);
    var s := Run(ops, acts).value;
    if s.lock.Some? {
      HolderMoves(ops, s);
    }
    forall t | 0 <= t < |ops|
      ensures s.pcs[t].Pushed? || s.pcs[t].Popped? || s.pcs[t].Sleeping?
    {
      assert Step(ops, s, Go(t)).None?;
    }
    if s.items != [] && SomeAsleep(s) {
      CreditsNone(s.pcs);
    }
  }

  // ----- Progress: every schedule is bounded

  /** Steps a thread has left, those included by which a push wakes somebody; a spurious wakeup adds four. */
  function Left<T>(pc: Pc<T>): nat {
    match pc
    case PushLock => 8 case PushLink => 7 case PushSignal => 6 case PushUnlock => 1 case Pushed => 0
    case PopLock => 4 case Relock => 4 case PopCheck => 3 case PopTake => 2 case PopUnlock(_) => 1
    case PopEnter => 1 case Sleeping => 0 case Popped(_) => 0
  }

  function TotalLeft<T>(pcs: seq<Pc<T>>): nat {
    if pcs == [] then 0 else TotalLeft(pcs[..|pcs| - 1]) + Left(pcs[|pcs| - 1])
  }

  lemma {:induction false} LeftAfter<T>(pcs: seq<Pc<T>>, t: nat, pc: Pc<T>)
    requires t < |pcs|
    ensures TotalLeft(pcs[t := pc]) == TotalLeft(pcs) - Left(pcs[t]) + Left(pc)
  {
    var last := |pcs| - 1;
    if t < last {
      LeftAfter(pcs[..last], t, pc);
      assert pcs[t := pc][..last] == pcs[..last][t := pc];
    } else {
      assert pcs[t := pc][..last] == pcs[..last];
    }
  }

  lemma StepLeft<T>(ops: seq<Op<T>>, s: State<T>, a: Action)
    requires |ops| == |s.pcs| && Step(ops, s, a).Some?
    ensures var left := TotalLeft(Step(ops, s, a).value.pcs);
      if a.Spurious? then left == TotalLeft(s.pcs) + 4 else left < TotalLeft(s.pcs)
  {
    var t := a.t;
    if a.Signal? && a.w < |s.pcs| && s.pcs[a.w].Sleeping? {
      LeftAfter(s.pcs, a.w, Relock);
      LeftAfter(s.pcs[a.w := Relock], t, PushUnlock);
    } else {
      OneMoves(ops, s, a);
      LeftAfter(s.pcs, t, Step(ops, s, a).value.pcs[t]);
    }
  }

  lemma OneMoves<T>(ops: seq<Op<T>>, s: State<T>, a: Action)
    requires |ops| == |s.pcs| && Step(ops, s, a).Some?
    requires !(a.Signal? && a.w < |s.pcs| && s.pcs[a.w].Sleeping?)
    ensures var s' := Step(ops, s, a).value;
      && a.t < |s.pcs| && s'.pcs == s.pcs[a.t := s'.pcs[a.t]]
      && (if a.Spurious? then Left(s'.pcs[a.t]) == Left(s.pcs[a.t]) + 4 else Left(s'.pcs[a.t]) < Left(s.pcs[a.t]))
  {
  }

  function SpuriousIn(acts: seq<Action>): (n: nat)
    ensures n <= |acts|
  {
    if acts == [] then 0 else SpuriousIn(acts[..|acts| - 1]) + if acts[|acts| - 1].Spurious? then 1 else 0
  }

  /** Steps taken and steps left are paid for by the operations called and the spurious wakeups. */
  lemma {:induction false} Spent<T>(ops: seq<Op<T>>, acts: seq<Action>)
    requires Run(ops, acts).Some?
    ensures |acts| - SpuriousIn(acts) + TotalLeft(Run(ops, acts).value.pcs) <= TotalLeft(Init(ops).pcs) + 4 * SpuriousIn(acts)
    decreases |acts|
  {
    if acts != [] {
      var before := acts[..|acts| - 1];
      Spent(ops, before);
      StepLeft(ops, Run(ops, before).value, acts[|acts| - 1]);
    }
  }

  lemma {:induction false} StartBound<T>(ops: seq<Op<T>>, n: nat)
    requires n <= |ops|
    ensures TotalLeft(Init(ops).pcs[..n]) <= 8 * n
  {
    if n > 0 {
      StartBound(ops, n - 1);
      assert Init(ops).pcs[..n][..n - 1] == Init(ops).pcs[..n - 1];
    }
  }

  /**
   Everybody is served: in every run there are at most eight steps per call and four per spurious wakeup,
   besides these wakeups, and when no other step is left every push is complete, and every pop too
   unless the queue is empty.
   */
  lemma EverybodyServed<T>(ops: seq<Op<T>>, acts: seq<Action>)
    requires Run(ops, acts).Some?
    ensures |acts| - SpuriousIn(acts) <= 8 * |ops| + 4 * SpuriousIn(acts)
    ensures var s := Run(ops, acts).value; !CanMove(ops, s) ==>
      && (forall t :: 0 <= t < |ops| && ops[t].Push? ==> s.pcs[t].Pushed?)
      && (s.items != [] ==> forall t :: 0 <= t < |ops| && ops[t].Pop? ==> s.pcs[t].Popped?)
  {
    Spent(ops, acts);
    StartBound(ops, |ops|);
    assert Init(ops).pcs[..|ops|] == Init(ops).pcs;
    if !CanMove(ops, Run(ops, acts).value) {
      QuietMeansServed(ops, acts);
    }
  }
}
