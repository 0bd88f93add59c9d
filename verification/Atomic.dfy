/**
 What the worker, service and pool machines use in place of a TecSignal: a value that a set makes 1 in
 one step, and a wait that passes in one step once it is 1. Every run of the machine of module Signal
 is, with its locking left out, a run of this one.
 */
module AtomicLatch {
  import opened Options
  import S = Signal

  datatype Phase = ToSet | HasSet | Waiting | Passed | GaveUp

  datatype State = State(value: bool, phases: seq<Phase>)

  datatype Action = Go(t: nat) | GiveUp(t: nat)

  function Init(ops: seq<S.Op>): State {
    State(false, seq(|ops|, i requires 0 <= i < |ops| => if ops[i].Set? then ToSet else Waiting))
  }

  /** A wait is blocked while the value is 0; only a timed one may give up. */
  function Step(ops: seq<S.Op>, l: State, a: Action): Option<State>
    requires |ops| == |l.phases|
  {
    if a.t >= |ops| then None
    else match l.phases[a.t]
      case ToSet => if a.Go? then Some(State(true, l.phases[a.t := HasSet])) else None
      case Waiting =>
        if a.GiveUp? then if ops[a.t].WaitFor? then Some(l.(phases := l.phases[a.t := GaveUp])) else None
        else if l.value then Some(l.(phases := l.phases[a.t := Passed]))
        else None
      case _ => None
  }

  function Run(ops: seq<S.Op>, acts: seq<Action>): (r: Option<State>)
    ensures r.Some? ==> |r.value.phases| == |ops|
  {
    if acts == [] then Some(Init(ops))
    else match Run(ops, acts[..|acts| - 1])
      case None => None
      case Some(m) => Step(ops, m, acts[|acts| - 1])
  }

  // ----- The signal refines the latch

  /** A set takes effect with its store, a wait with the read of 1 that lets it pass. */
  function PhaseOf(pc: S.Pc): Phase {
    match pc
    case SetStore => ToSet
    case SetLock | SetBroadcast | SetUnlock => HasSet
    case WaitFast | WaitLock | WaitCheck | WaitEnter | Sleeping => Waiting
    case Relock(e) => if e == 0 then Waiting else GaveUp
    case WaitUnlock(e) => if e == 0 then Passed else GaveUp
    case Done(e) => if e == 0 then Passed else GaveUp
  }

  /** The phase of a thread; the end of a set is not the end of a wait. */
  function PhaseIn(op: S.Op, pc: S.Pc): Phase {
    if op.Set? && pc.Done? then HasSet else PhaseOf(pc)
  }

  function Abs(ops: seq<S.Op>, s: S.State): (l: State)
    requires |ops| == |s.pcs|
    ensures |l.phases| == |ops|
  {
    State(s.value, seq(|ops|, i requires 0 <= i < |ops| => PhaseIn(ops[i], s.pcs[i])))
  }

  /** The latch action of a step, if it has one. */
  function ActionOf(s: S.State, a: S.Action): Option<Action>
    requires a.t < |s.pcs|
  {
    match a
    case Timeout(t) => Some(GiveUp(t))
    case Spurious(_) => None
    case Go(t) =>
      if s.pcs[t].SetStore? || (s.value && (s.pcs[t].WaitFast? || s.pcs[t].WaitCheck?)) then Some(Go(t)) else None
  }

  /** Every step is a step of the latch by the same thread, or does not show. */
  lemma StepRefines(ops: seq<S.Op>, s: S.State, a: S.Action)
    requires S.Inv(ops, s) && S.Step(ops, s, a).Some?
    ensures a.t < |s.pcs| && |S.Step(ops, s, a).value.pcs| == |ops|
    ensures var l := Abs(ops, s); var l' := Abs(ops, S.Step(ops, s, a).value);
      match ActionOf(s, a) case None => l' == l case Some(b) => Step(ops, l, b) == Some(l')
  {
    S.OthersAfter(ops, s, a);
    OwnPhase(ops, s, a);
    hide S.Step, S.Inv;
    var l, l' := Abs(ops, s), Abs(ops, S.Step(ops, s, a).value);
    assert forall i :: 0 <= i < |ops| && i != a.t ==> l'.phases[i] == l.phases[i];
    assert l'.phases == l.phases[a.t := l'.phases[a.t]];
    if ActionOf(s, a).None? {
      assert l'.phases == l.phases;
    }
  }

  lemma OwnPhase(ops: seq<S.Op>, s: S.State, a: S.Action)
    requires S.Inv(ops, s) && S.Step(ops, s, a).Some?
    ensures a.t < |s.pcs| && |S.Step(ops, s, a).value.pcs| == |ops|
    ensures var s' := S.Step(ops, s, a).value;
      var p, p' := PhaseIn(ops[a.t], s.pcs[a.t]), PhaseIn(ops[a.t], s'.pcs[a.t]);
      match ActionOf(s, a)
      case None => p' == p && s'.value == s.value
      case Some(GiveUp(_)) => p.Waiting? && ops[a.t].WaitFor? && p'.GaveUp? && s'.value == s.value
      case Some(Go(_)) =>
        if p.ToSet? then p'.HasSet? && s'.value else p.Waiting? && s.value && p'.Passed? && s'.value
  {
    hide S.LockInv, S.NoLostWakeup, S.NoneAsleepAfterSet;
    assert S.Fits(ops[a.t], s.pcs[a.t]);
  }

  /** So every reachable state of the signal shows a reachable state of the latch. */
  lemma {:induction false} RunRefines(ops: seq<S.Op>, acts: seq<S.Action>) returns (steps: seq<Action>)
    requires S.Run(ops, acts).Some?
    ensures |S.Run(ops, acts).value.pcs| == |ops| && Run(ops, steps) == Some(Abs(ops, S.Run(ops, acts).value))
    decreases |acts|
  {
    if acts == [] {
      steps := [];
      assert Init(ops) == Abs(ops, S.Init(ops));
    } else {
      var before := acts[..|acts| - 1];
      var a := acts[|acts| - 1];
      steps := RunRefines(ops, before);
      S.RunInv(ops, before);
      var m := S.Run(ops, before).value;
      assert S.Run(ops, acts) == S.Step(ops, m, a);
      StepRefines(ops, m, a);
      if ActionOf(m, a).Some? {
        var b := ActionOf(m, a).value;
        assert (steps + [b])[..|steps|] == steps;
        steps := steps + [b];
      }
    }
  }
}

/**
 What the machines use in place of a TecQueue: a sequence to which a push appends in one step, and a pop
 that takes the head in one step and is blocked while there is none. Every run of the machine of module
 QueueProtocol is, with its locking left out, a run of this one.
 */
module AtomicQueue {
  import opened Options
  import Q = QueueProtocol

  datatype Phase<T> = ToPush | HasPushed | ToPop | Holding(obj: T)

  datatype State<T> = State(items: seq<T>, phases: seq<Phase<T>>)

  function Init<T>(ops: seq<Q.Op<T>>): State<T> {
    State([], seq(|ops|, i requires 0 <= i < |ops| => if ops[i].Push? then ToPush else ToPop))
  }

  function Step<T>(ops: seq<Q.Op<T>>, q: State<T>, t: nat): Option<State<T>>
    requires |ops| == |q.phases|
  {
    if t >= |ops| then None
    else match q.phases[t]
      case ToPush =>
        if ops[t].Push? then Some(State(q.items + [ops[t].obj], q.phases[t := HasPushed])) else None
      case ToPop =>
        if q.items == [] then None else Some(State(q.items[1..], q.phases[t := Holding(q.items[0])]))
      case _ => None
  }

  function Run<T>(ops: seq<Q.Op<T>>, ts: seq<nat>): (r: Option<State<T>>)
    ensures r.Some? ==> |r.value.phases| == |ops|
  {
    if ts == [] then Some(Init(ops))
    else match Run(ops, ts[..|ts| - 1])
      case None => None
      case Some(m) => Step(ops, m, ts[|ts| - 1])
  }

  // ----- The queue protocol refines the queue

  /** A push takes effect where it links its node, a pop where it takes the head. */
  function PhaseOf<T>(pc: Q.Pc<T>): Phase<T> {
    match pc
    case PushLock | PushLink => ToPush
    case PushSignal | PushUnlock | Pushed => HasPushed
    case PopLock | PopCheck | PopEnter | Sleeping | Relock | PopTake => ToPop
    case PopUnlock(obj) => Holding(obj)
    case Popped(obj) => Holding(obj)
  }

  function Abs<T>(s: Q.State<T>): (q: State<T>)
    ensures |q.phases| == |s.pcs|
  {
    State(s.items, seq(|s.pcs|, i requires 0 <= i < |s.pcs| => PhaseOf(s.pcs[i])))
  }

  predicate Shows<T>(s: Q.State<T>, a: Q.Action) {
    a.Go? && a.t < |s.pcs| && (s.pcs[a.t].PushLink? || s.pcs[a.t].PopTake?)
  }

  /** Every step is a step of the queue by the same thread, or does not show. */
  lemma StepRefines<T>(ops: seq<Q.Op<T>>, s: Q.State<T>, a: Q.Action)
    requires |ops| == |s.pcs| && Q.Step(ops, s, a).Some?
    ensures |Q.Step(ops, s, a).value.pcs| == |ops|
    ensures var q := Abs(s); var q' := Abs(Q.Step(ops, s, a).value);
      if Shows(s, a) then Step(ops, q, a.t) == Some(q') else q' == q
  {
    OwnPhase(ops, s, a);
    hide Q.Step;
    var q, q' := Abs(s), Abs(Q.Step(ops, s, a).value);
    assert q'.phases == q.phases[a.t := q'.phases[a.t]];
    if !Shows(s, a) {
      assert q'.phases == q.phases;
    }
  }

  lemma OwnPhase<T>(ops: seq<Q.Op<T>>, s: Q.State<T>, a: Q.Action)
    requires |ops| == |s.pcs| && Q.Step(ops, s, a).Some?
    ensures a.t < |s.pcs| == |Q.Step(ops, s, a).value.pcs|
    ensures var s' := Q.Step(ops, s, a).value;
      && (forall i :: 0 <= i < |ops| && i != a.t ==> PhaseOf(s'.pcs[i]) == PhaseOf(s.pcs[i]))
      && (if !Shows(s, a) then PhaseOf(s'.pcs[a.t]) == PhaseOf(s.pcs[a.t]) && s'.items == s.items
          else if s.pcs[a.t].PushLink?
          then ops[a.t].Push? && PhaseOf(s'.pcs[a.t]).HasPushed? && s'.items == s.items + [ops[a.t].obj]
          else s.items != [] && PhaseOf(s'.pcs[a.t]) == Holding(s.items[0]) && s'.items == s.items[1..])
  {
  }

  /** So every reachable state of the protocol shows a reachable state of the queue. */
  lemma {:induction false} RunRefines<T>(ops: seq<Q.Op<T>>, acts: seq<Q.Action>) returns (ts: seq<nat>)
    requires Q.Run(ops, acts).Some?
    ensures Run(ops, ts) == Some(Abs(Q.Run(ops, acts).value))
    decreases |acts|
  {
    if acts == [] {
      ts := [];
      assert Init(ops) == Abs(Q.Init(ops));
    } else {
      var before := acts[..|acts| - 1];
      var a := acts[|acts| - 1];
      ts := RunRefines(ops, before);
      var m := Q.Run(ops, before).value;
      assert Q.Run(ops, acts) == Q.Step(ops, m, a);
      StepRefines(ops, m, a);
      if Shows(m, a) {
        assert (ts + [a.t])[..|ts|] == ts;
        ts := ts + [a.t];
      }
    }
  }
}
