/**
 What module Worker proves with one-step signals and a one-step queue holds for the real ones: every run
 shows a run of module Worker, and comes to rest only where that does.
 */
module ComposedTheorems {
  import opened Options
  import opened Composed
  import opened ComposedInvariant
  import opened ComposedLinks
  import opened WorkerCalls
  import W = Worker
  import WI = WorkerInvariant
  import WT = WorkerTheorems
  import IN = WorkerInputs
  import L = WorkerLifecycle
  import R = WorkerRpc
  import Q = QueueProtocol
  import S = Signal
  import AQ = AtomicQueue
  import AL = AtomicLatch

  // ----- Refinement

  lemma InitInv(c: W.Config)
    ensures Inv(c, Init(c)) && Abs(Init(c)) == W.Init(c)
  {
    hide WI.Inv;
    var f := Init(c);
    assert W.Runs(c, []) == Some(W.Init(c));
    WI.RunsInv(c, []);
    NewSignal();
    assert S.Run(TermOps(c.nterms), []).Some?;
    S.RunInv(TermOps(c.nterms), []);
    assert Q.Run(Ops([]), []).Some?;
    Q.RunInv(Ops([]), []);
    assert f.core.calls == map[] && f.sigReady == map[];
  }

  lemma {:induction false} RunInv(c: W.Config, acts: seq<Action>)
    requires Run(c, acts).Some?
    ensures Inv(c, Run(c, acts).value)
    decreases |acts|
  {
    hide Inv, Step;
    if acts == [] {
      InitInv(c);
    } else {
      RunInv(c, acts[..|acts| - 1]);
      StepKeepsInv(c, Run(c, acts[..|acts| - 1]).value, acts[|acts| - 1]);
    }
  }

  /** The calls and messages of the shown run are those that clients made, sends once they have linked their item. */
  ghost predicate SameInputs(f: State, acts: seq<Action>, steps: seq<W.Action>)
    requires |f.q.pcs| == |f.owners|
  {
    && (forall id, tag :: W.CallRpc(id, tag) in steps <==> Local(W.CallRpc(id, tag)) in acts)
    && (forall id, tag :: Begin(BySender(id, tag)) in acts <==> BySender(id, tag) in f.owners)
    && (forall id, tag :: W.Send(id, tag) in steps ==> BySender(id, tag) in f.owners)
    && (forall t, id, tag :: 0 <= t < |f.owners| && f.owners[t] == BySender(id, tag) && AQ.PhaseOf(f.q.pcs[t]).HasPushed? ==>
          W.Send(id, tag) in steps)
  }

  function Shown(steps: seq<W.Action>, b: Option<W.Action>): seq<W.Action> {
    if b.Some? then steps + [b.value] else steps
  }

  /** Owners and their phases stay, and no message is begun or linked, no call made. */
  lemma InputsStay(f: State, f': State, acts: seq<Action>, steps: seq<W.Action>, a: Action, b: Option<W.Action>)
    requires |f.q.pcs| == |f.owners| == |f'.q.pcs| && f'.owners == f.owners && SameInputs(f, acts, steps)
    requires forall t :: 0 <= t < |f.owners| && f.owners[t].BySender? ==>
      (AQ.PhaseOf(f'.q.pcs[t]).HasPushed? ==> AQ.PhaseOf(f.q.pcs[t]).HasPushed?)
    requires !(a.Local? && a.a.CallRpc?) && !(a.Begin? && a.o.BySender?)
    requires b.Some? ==> !b.value.CallRpc? && !b.value.Send?
    ensures SameInputs(f', acts + [a], Shown(steps, b))
  {
  }

  lemma LocalInputs(c: W.Config, f: State, acts: seq<Action>, steps: seq<W.Action>, b: W.Action)
    requires Shape(c, f) && SameInputs(f, acts, steps) && LocalStep(c, f, b).Some?
    ensures var f' := LocalStep(c, f, b).value;
      |f'.q.pcs| == |f'.owners| && SameInputs(f', acts + [Local(b)], steps + [b])
  {
    hide W.Step, WorkerFree;
    NotLocal(c, f, b);
    var f' := LocalStep(c, f, b).value;
    if !b.CallRpc? {
      InputsStay(f, f', acts, steps, Local(b), Some(b));
    }
  }

  lemma BeginInputs(c: W.Config, f: State, acts: seq<Action>, steps: seq<W.Action>, o: Owner)
    requires Shape(c, f) && SameInputs(f, acts, steps) && BeginStep(c, f, o).Some?
    ensures var f' := BeginStep(c, f, o).value;
      |f'.q.pcs| == |f'.owners| && SameInputs(f', acts + [Begin(o)], steps)
  {
    hide MayBegin;
  }

  lemma QueueInputs(c: W.Config, f: State, acts: seq<Action>, steps: seq<W.Action>, b: Q.Action)
    requires Inv(c, f) && SameInputs(f, acts, steps) && QueueStep(c, f, b).Some?
    ensures var f' := QueueStep(c, f, b).value;
      |f'.q.pcs| == |f'.owners| && SameInputs(f', acts + [OnQueue(b)], Shown(steps, ActionOf(f, OnQueue(b))))
  {
    hide Q.Step, Effect, WI.Inv, Links, S.Inv;
    AQ.OwnPhase(Ops(f.owners), f.q, b);
    var f' := QueueStep(c, f, b).value;
    assert Q.Fits(OpOf(f.owners[b.t]), f.q.pcs[b.t]);
    if AQ.Shows(f.q, b) && f.owners[b.t].BySender? {
      assert f.owners[b.t] in f.owners;
    } else {
      InputsStay(f, f', acts, steps, OnQueue(b), ActionOf(f, OnQueue(b)));
    }
  }

  lemma SignalInputs(c: W.Config, f: State, acts: seq<Action>, steps: seq<W.Action>, a: Action)
    requires Shape(c, f) && SameInputs(f, acts, steps) && Step(c, f, a).Some?
    requires a.OnRunning? || a.OnTerminated? || a.OnReady?
    ensures var f' := Step(c, f, a).value;
      |f'.q.pcs| == |f'.owners| && SameInputs(f', acts + [a], Shown(steps, ActionOf(f, a)))
  {
    hide SameInputs, S.Step, MayRunning, MayTerminated, MayReady, AL.ActionOf, RunningEffect, TerminatedEffect, ReadyEffect;
    InputsStay(f, Step(c, f, a).value, acts, steps, a, ActionOf(f, a));
  }

  lemma StepInputs(c: W.Config, f: State, acts: seq<Action>, steps: seq<W.Action>, a: Action)
    requires Inv(c, f) && |f.q.pcs| == |f.owners| && SameInputs(f, acts, steps) && Step(c, f, a).Some?
    ensures var f' := Step(c, f, a).value;
      |f'.q.pcs| == |f'.owners| && SameInputs(f', acts + [a], Shown(steps, ActionOf(f, a)))
  {
    hide SameInputs, Protocols, Links, WI.Inv, LocalStep, BeginStep, QueueStep;
    match a
    case Local(b) => LocalInputs(c, f, acts, steps, b);
    case Begin(o) => BeginInputs(c, f, acts, steps, o);
    case OnQueue(b) => QueueInputs(c, f, acts, steps, b);
    case _ => SignalInputs(c, f, acts, steps, a);
  }

  /** Every reachable state shows a reachable state of module Worker, by a run with the same calls and messages. */
  lemma {:induction false} RunRefines(c: W.Config, acts: seq<Action>) returns (steps: seq<W.Action>)
    requires Run(c, acts).Some?
    ensures W.Runs(c, steps) == Some(Abs(Run(c, acts).value))
    ensures SameInputs(Run(c, acts).value, acts, steps)
    decreases |acts|
  {
    hide Inv, Step, W.Step, ActionOf, Abs, SameInputs;
    if acts == [] {
      InitInv(c);
      steps := [];
      NoInputs(c);
    } else {
      var before := acts[..|acts| - 1];
      var a := acts[|acts| - 1];
      assert acts == before + [a];
      var less := RunRefines(c, before);
      RunInv(c, before);
      var f := Run(c, before).value;
      StepRefines(c, f, a);
      StepInputs(c, f, before, less, a);
      steps := Shown(less, ActionOf(f, a));
      if ActionOf(f, a).Some? {
        assert steps[..|less|] == less;
      }
    }
  }

  lemma NoInputs(c: W.Config)
    ensures SameInputs(Init(c), [], [])
  {
  }

  // ----- Nobody is left asleep

  /** Steps that somebody other than a client owes: no new message or call, no spurious wakeup. */
  predicate Owed(a: Action) {
    match a
    case Local(b) => !b.CallRpc?
    case Begin(o) => !o.BySender?
    case OnQueue(b) => !b.Spurious?
    case OnRunning(b) => b.Go?
    case OnTerminated(b) => b.Go?
    case OnReady(_, b) => b.Go?
  }

  ghost predicate CanMove(c: W.Config, f: State)
    requires Shape(c, f)
  {
    exists a :: Owed(a) && Step(c, f, a).Some?
  }

  /** Once the value is 1, a thread inside a wait, or behind the store of a set, goes on or another one does. */
  lemma SignalGoes(ops: seq<S.Op>, s: S.State, t: nat) returns (u: nat)
    requires S.Inv(ops, s) && t < |ops| && s.value && !s.pcs[t].Done? && !s.pcs[t].SetStore?
    ensures u < |s.pcs| == |ops| && S.Step(ops, s, S.Go(u)).Some? && !s.pcs[u].SetStore?
    ensures s.pcs[u].WaitFast? ==> u == t
  {
    if s.lock.Some? {
      u := s.lock.value;
      assert S.Holds(s.pcs[u]);
    } else if s.pcs[t].Sleeping? {
      assert S.Drowsy(s.pcs[t]);
      u :| 0 <= u < |s.pcs| && S.Pending(s.pcs[u]);
      assert !S.Holds(s.pcs[u]);
    } else {
      u := t;
      assert !S.Holds(s.pcs[u]);
    }
  }

  /** A push that is not complete goes on or somebody else does, and so does a pop unless it sleeps over an empty queue. */
  lemma QueueGoes(ops: seq<Q.Op<W.Item>>, q: Q.State<W.Item>, t: nat)
    requires Q.Inv(ops, q) && t < |ops| && !q.pcs[t].Pushed? && !q.pcs[t].Popped?
    requires q.pcs[t].Sleeping? ==> q.items != []
    ensures Q.CanMove(ops, q)
  {
    hide Q.Credits;
    if q.lock.Some? {
      Q.HolderMoves(ops, q);
    } else {
      assert forall u :: 0 <= u < |q.pcs| ==> !Q.Holds(q.pcs[u]);
      if !q.pcs[t].Sleeping? {
        assert Q.Step(ops, q, Q.Go(t)).Some?;
      } else if u :| 0 <= u < |q.pcs| && q.pcs[u].Relock? {
        assert Q.Step(ops, q, Q.Go(u)).Some?;
      } else {
        Q.CreditsNone(q.pcs);
      }
    }
  }

  lemma QueueMoves(c: W.Config, f: State, t: nat)
    requires Inv(c, f) && t < |f.owners| && !f.q.pcs[t].Pushed? && !f.q.pcs[t].Popped?
    requires f.q.pcs[t].Sleeping? ==> f.q.items != []
    ensures CanMove(c, f)
  {
    hide Q.Step, WI.Inv, Links, S.Inv, Q.Inv, Effect;
    QueueGoes(Ops(f.owners), f.q, t);
    var b: Q.Action :| !b.Spurious? && Q.Step(Ops(f.owners), f.q, b).Some?;
    assert Owed(OnQueue(b)) && Step(c, f, OnQueue(b)).Some?;
  }

  lemma RunningMoves(c: W.Config, f: State, t: nat)
    requires Inv(c, f) && t < 2 && f.sigRunning.value && !f.sigRunning.pcs[t].Done? && !f.sigRunning.pcs[t].SetStore?
    requires f.sigRunning.pcs[t].WaitFast? ==> f.core.rpc.RWait?
    ensures CanMove(c, f)
  {
    hide S.Step, WI.Inv, Links, S.Inv, Q.Inv, RunningEffect, AL.ActionOf;
    var u := SignalGoes(PAIR, f.sigRunning, t);
    assert Owed(OnRunning(S.Go(u))) && Step(c, f, OnRunning(S.Go(u))).Some?;
  }

  lemma TerminatedMoves(c: W.Config, f: State, t: nat)
    requires Inv(c, f) && t <= c.nterms && f.sigTerminated.value
    requires !f.sigTerminated.pcs[t].Done? && !f.sigTerminated.pcs[t].SetStore?
    requires f.sigTerminated.pcs[t].WaitFast? ==> t > 0 && f.core.terms[t - 1].TWait? && TermFree(c, f, t - 1)
    ensures CanMove(c, f)
  {
    hide S.Step, WI.Inv, Links, S.Inv, Q.Inv, TerminatedEffect, AL.ActionOf;
    var u := SignalGoes(TermOps(c.nterms), f.sigTerminated, t);
    assert Owed(OnTerminated(S.Go(u))) && Step(c, f, OnTerminated(S.Go(u))).Some?;
  }

  lemma ReadyMoves(c: W.Config, f: State, id: nat, t: nat)
    requires Inv(c, f) && id in f.sigReady && t < 2 && f.sigReady[id].value
    requires !f.sigReady[id].pcs[t].Done? && !f.sigReady[id].pcs[t].SetStore?
    requires f.sigReady[id].pcs[t].WaitFast? ==> !f.core.calls[id].stage.Called? && CallerFree(c, f, id)
    ensures CanMove(c, f)
  {
    hide S.Step, WI.Inv, Links, S.Inv, Q.Inv, ReadyEffect, AL.ActionOf;
    var u := SignalGoes(PAIR, f.sigReady[id], t);
    assert Owed(OnReady(id, S.Go(u))) && Step(c, f, OnReady(id, S.Go(u))).Some?;
  }

  // ----- Whatever module Worker could do next, the composed worker can approach

  /** A set past its store has made the value 1. */
  lemma SetHasValue(ops: seq<S.Op>, s: S.State)
    requires S.Inv(ops, s) && |ops| > 0 && ops[0].Set? && !s.pcs[0].SetStore?
    ensures s.value && !s.pcs[0].WaitFast?
  {
    assert S.NeedsValue(ops[0], s.pcs[0]) && S.Fits(ops[0], s.pcs[0]);
  }

  /** A worker inside a set or a pop goes on, or somebody else does, unless it sleeps over an empty queue. */
  lemma InsideMoves(c: W.Config, f: State)
    requires Inv(c, f) && !WorkerFree(c, f) && (f.core.wpc.WPop? ==> f.q.items != [])
    ensures CanMove(c, f)
  {
    hide WI.Inv, S.Inv, Q.Inv, TermsOk, CallsOk, RunOk;
    if !Outside(f.sigRunning.pcs[0]) {
      SetHasValue(PAIR, f.sigRunning);
      RunningMoves(c, f, 0);
    } else if !Outside(f.sigTerminated.pcs[0]) {
      SetHasValue(TermOps(c.nterms), f.sigTerminated);
      TerminatedMoves(c, f, 0);
    } else if id :| id in f.sigReady && !Outside(f.sigReady[id].pcs[0]) {
      SetHasValue(PAIR, f.sigReady[id]);
      ReadyMoves(c, f, id, 0);
    } else {
      var t :| 0 <= t < |f.owners| && f.owners[t].ByWorker? && !f.q.pcs[t].Popped?;
      PopFits(f, t);
      QueueMoves(c, f, t);
    }
  }

  lemma PopFits(f: State, t: nat)
    requires Q.Inv(Ops(f.owners), f.q) && t < |f.owners| == |f.q.pcs| && f.owners[t].ByWorker?
    requires OwnersOk(f.core, f.owners, f.q.pcs)
    ensures !f.q.pcs[t].Pushed? && (f.q.pcs[t].Sleeping? ==> f.core.wpc.WPop?)
  {
    assert Q.Fits(OpOf(f.owners[t]), f.q.pcs[t]) && OwnerOk(f.core, f.owners[t], f.q.pcs[t]);
  }

  /** The last signal of a finished thread is set, or goes on to be. */
  lemma EndMoves(c: W.Config, f: State)
    requires Inv(c, f) && f.core.wpc.WDone? && !CanJoin(c, f)
    ensures CanMove(c, f)
  {
    hide WI.Inv, S.Inv, Q.Inv, Links;
    SetHasValue(TermOps(c.nterms), f.sigTerminated);
    TerminatedMoves(c, f, 0);
  }

  lemma RunTogether(c: W.Config, f: State)
    requires Inv(c, f) && W.RunStep(c, Abs(f)).Some?
    ensures CanMove(c, f)
  {
    hide W.RunStep, WI.Inv, S.Inv, Q.Inv, TermsOk, CallsOk, OwnersOk;
    RunNeeds(c, Abs(f));
    var pc := f.sigRunning.pcs[1];
    if f.core.rpc.RWait? {
      RunWaits(c, f);
    } else if !Outside(pc) {
      WaitHasValue(PAIR, f.sigRunning, 1);
      RunningMoves(c, f, 1);
    } else if f.core.rpc.RJoin? && !CanJoin(c, f) {
      EndMoves(c, f);
    } else {
      RunFill(c, Abs(f), f.core.queue, f.core.running, f.core.terminated);
      assert Fill(Abs(f), f.core.queue, f.core.running, f.core.terminated) == f.core;
      assert Owed(Local(W.Run)) && Step(c, f, Local(W.Run)).Some?;
    }
  }

  lemma RunNeeds(c: W.Config, s: W.State)
    requires W.RunStep(c, s).Some?
    ensures (s.rpc.RWait? ==> s.running) && (s.rpc.RJoin? && s.joinable ==> s.wpc.WDone?)
  {
  }

  lemma RunWaits(c: W.Config, f: State)
    requires Inv(c, f) && f.core.rpc.RWait? && f.sigRunning.value
    ensures CanMove(c, f)
  {
    hide WI.Inv, S.Step, Q.Inv, TermsOk, CallsOk, OwnersOk;
    assert S.Fits(PAIR[1], f.sigRunning.pcs[1]);
    RunningMoves(c, f, 1);
  }

  /** A wait on its way out has seen the value; one on its way in has begun. */
  lemma WaitHasValue(ops: seq<S.Op>, s: S.State, t: nat)
    requires S.Inv(ops, s) && t < |ops| && ops[t].Wait? && !Outside(s.pcs[t]) && Passed(s.pcs[t])
    ensures s.value
  {
    assert S.NeedsValue(ops[t], s.pcs[t]);
  }

  /** The worker thread sets a signal or begins a pop. */
  lemma WorkCalls(c: W.Config, f: State)
    requires Inv(c, f) && WorkerFree(c, f)
    requires f.core.wpc.WSetRunning? || f.core.wpc.WSetTerm? || f.core.wpc.WPop?
    ensures CanMove(c, f)
  {
    hide WI.LockInv, WI.JoinInv, WI.TermInv, WI.ErrorInv, WI.QueueInv, WI.IdInv, WI.CallInv;
    hide Q.Inv, TermsOk, CallsOk, OwnersOk, WorkerFree;
    if f.core.wpc.WSetRunning? {
      NotSet(PAIR, f.sigRunning);
      assert Owed(OnRunning(S.Go(0))) && RunningStep(c, f, S.Go(0)).Some?;
      assert Step(c, f, OnRunning(S.Go(0))).Some?;
    } else if f.core.wpc.WSetTerm? {
      NotSet(TermOps(c.nterms), f.sigTerminated);
      assert Owed(OnTerminated(S.Go(0))) && TerminatedStep(c, f, S.Go(0)).Some?;
      assert Step(c, f, OnTerminated(S.Go(0))).Some?;
    } else {
      assert Owed(Begin(ByWorker)) && Step(c, f, Begin(ByWorker)).Some?;
    }
  }

  /** While the value is 0 the setter is still to store. */
  lemma NotSet(ops: seq<S.Op>, s: S.State)
    requires S.Inv(ops, s) && |ops| > 0 && ops[0].Set? && !s.value
    ensures s.pcs[0].SetStore?
  {
    assert S.NeedsValue(ops[0], s.pcs[0]) || s.pcs[0].SetStore?;
  }

  lemma WorkReadies(c: W.Config, f: State)
    requires Inv(c, f) && WorkerFree(c, f) && f.core.wpc.WReady?
    ensures CanMove(c, f)
  {
    hide WI.Inv, Q.Inv, TermsOk, OwnersOk, WorkerFree, RunOk;
    ReadyItem(c, Abs(f));
    InHand(c, Abs(f));
    var id := f.core.wpc.item.id;
    assert CallOk(f.core.calls[id].stage, f.sigReady[id]);
    NotSet(PAIR, f.sigReady[id]);
    assert Owed(OnReady(id, S.Go(0))) && ReadyStep(c, f, id, S.Go(0)).Some?;
    assert Step(c, f, OnReady(id, S.Go(0))).Some?;
  }

  lemma ReadyItem(c: W.Config, s: W.State)
    requires WI.Inv(c, s) && s.wpc.WReady?
    ensures s.wpc.item.Rpc?
  {
  }

  lemma WorkTogether(c: W.Config, f: State)
    requires Inv(c, f) && W.WorkStep(c, Abs(f)).Some?
    ensures CanMove(c, f)
  {
    hide W.LifeStep, W.OnMsg, W.OnRpc, WI.Inv, Protocols, Links, WorkerFree;
    if !WorkerFree(c, f) {
      InsideMoves(c, f);
    } else if f.core.wpc.WSetRunning? || f.core.wpc.WSetTerm? || f.core.wpc.WPop? {
      WorkCalls(c, f);
    } else if f.core.wpc.WReady? {
      WorkReadies(c, f);
    } else {
      WorkFill(c, Abs(f), f.core.queue, f.core.running, f.core.terminated);
      assert Fill(Abs(f), f.core.queue, f.core.running, f.core.terminated) == f.core;
      assert Owed(Local(W.Work)) && Step(c, f, Local(W.Work)).Some?;
    }
  }

  /** The push of a terminator is to begin, or on its way. */
  lemma TermPushes(c: W.Config, f: State, i: nat)
    requires Inv(c, f) && i < c.nterms && f.core.terms[i].TPush?
    ensures CanMove(c, f)
  {
    hide WI.Inv, S.Inv, TermsOk, CallsOk, RunOk;
    if t :| 0 <= t < |f.owners| && f.owners[t] == ByTerm(i) {
      assert Q.Fits(OpOf(f.owners[t]), f.q.pcs[t]) && OwnerOk(f.core, f.owners[t], f.q.pcs[t]);
      QueueMoves(c, f, t);
    } else {
      assert Owed(Begin(ByTerm(i))) && Step(c, f, Begin(ByTerm(i))).Some?;
    }
  }

  lemma PushGoes(c: W.Config, f: State, t: nat)
    requires Inv(c, f) && t < |f.owners| && !f.owners[t].ByWorker? && !f.q.pcs[t].Pushed?
    ensures CanMove(c, f)
  {
    hide WI.Inv, S.Inv, Links;
    assert Q.Fits(OpOf(f.owners[t]), f.q.pcs[t]);
    QueueMoves(c, f, t);
  }

  lemma TermWaits(c: W.Config, f: State, i: nat)
    requires Inv(c, f) && i < c.nterms && f.core.terms[i].TWait? && f.sigTerminated.value
    ensures CanMove(c, f)
  {
    hide WI.Inv, Q.Inv, CallsOk, OwnersOk, RunOk;
    if TermFree(c, f, i) {
      var ops := TermOps(c.nterms);
      assert TermOk(f.core.terms[i], f.sigTerminated.pcs[i + 1]);
      assert ops[i + 1].Wait? && S.Fits(ops[i + 1], f.sigTerminated.pcs[i + 1]);
      TerminatedMoves(c, f, i + 1);
    } else {
      var t :| 0 <= t < |f.owners| && f.owners[t] == ByTerm(i) && !f.q.pcs[t].Pushed?;
      PushGoes(c, f, t);
    }
  }

  lemma TermNeeds(c: W.Config, s: W.State, i: nat)
    requires i < |s.terms| && W.TermStep(c, s, i).Some?
    ensures (s.terms[i].TWait? ==> s.terminated) && (s.terms[i].TJoin? && s.joinable ==> s.wpc.WDone?)
  {
  }

  lemma TermLeaves(c: W.Config, f: State, i: nat)
    requires Inv(c, f) && i < c.nterms && !Outside(f.sigTerminated.pcs[i + 1]) && !f.core.terms[i].TWait?
    ensures CanMove(c, f)
  {
    hide WI.Inv, Q.Inv, CallsOk, OwnersOk, RunOk;
    TermAt(f.core.terms, f.sigTerminated.pcs, i);
    assert TermOps(c.nterms)[i + 1].Wait?;
    WaitHasValue(TermOps(c.nterms), f.sigTerminated, i + 1);
    TerminatedMoves(c, f, i + 1);
  }

  lemma TermTogether(c: W.Config, f: State, i: nat)
    requires Inv(c, f) && i < |f.core.terms| && W.TermStep(c, Abs(f), i).Some?
    ensures CanMove(c, f)
  {
    hide W.TermStep, WI.Inv, Protocols, Links;
    TermNeeds(c, Abs(f), i);
    if f.core.terms[i].TPush? {
      TermPushes(c, f, i);
    } else if f.core.terms[i].TWait? {
      TermWaits(c, f, i);
    } else if !Outside(f.sigTerminated.pcs[i + 1]) {
      TermLeaves(c, f, i);
    } else if f.core.terms[i].TJoin? && !CanJoin(c, f) {
      EndMoves(c, f);
    } else {
      TermFill(c, Abs(f), i, f.core.queue, f.core.running, f.core.terminated);
      assert Fill(Abs(f), f.core.queue, f.core.running, f.core.terminated) == f.core;
      assert Owed(Local(W.Terminate(i))) && Step(c, f, Local(W.Terminate(i))).Some?;
    }
  }

  lemma PushTogether(c: W.Config, f: State, id: nat)
    requires Inv(c, f) && id in f.core.calls && f.core.calls[id].stage.Called?
    ensures CanMove(c, f)
  {
    hide WI.Inv, S.Inv, TermsOk, CallsOk, RunOk;
    var o := ByCaller(id, f.core.calls[id].tag);
    if t :| 0 <= t < |f.owners| && f.owners[t] == o {
      assert OwnerOk(f.core, f.owners[t], f.q.pcs[t]);
      PushGoes(c, f, t);
    } else {
      assert Owed(Begin(o)) && Step(c, f, Begin(o)).Some?;
    }
  }

  lemma ReturnTogether(c: W.Config, f: State, id: nat)
    requires Inv(c, f) && id in f.core.calls && f.core.calls[id].stage.Ready?
    ensures CanMove(c, f)
  {
    hide WI.Inv, Q.Inv, TermsOk, OwnersOk, RunOk;
    if CallerFree(c, f, id) {
      assert CallOk(f.core.calls[id].stage, f.sigReady[id]);
      assert S.Fits(PAIR[1], f.sigReady[id].pcs[1]);
      ReadyMoves(c, f, id, 1);
    } else {
      var t :| 0 <= t < |f.owners| && f.owners[t].ByCaller? && f.owners[t].id == id && !f.q.pcs[t].Pushed?;
      PushGoes(c, f, t);
    }
  }

  /** Run, the worker thread, a terminator or a caller can move in module Worker. */
  ghost predicate SomeoneMoves(c: W.Config, s: W.State) {
    || L.CanMove(c, s)
    || exists id :: id in s.calls && (s.calls[id].stage.Called? || s.calls[id].stage.Ready?)
  }

  /**
   No wakeup is lost anywhere: as long as module Worker lets somebody other than a new client move,
   somebody can move in the composed worker too, without a spurious wakeup.
   */
  lemma MovesTogether(c: W.Config, f: State)
    requires Inv(c, f) && SomeoneMoves(c, Abs(f))
    ensures CanMove(c, f)
  {
    hide W.RunStep, W.WorkStep, W.TermStep, Inv;
    var s := Abs(f);
    if id :| id in s.calls && (s.calls[id].stage.Called? || s.calls[id].stage.Ready?) {
      if s.calls[id].stage.Called? {
        PushTogether(c, f, id);
      } else {
        ReturnTogether(c, f, id);
      }
    } else if W.RunStep(c, s).Some? {
      RunTogether(c, f);
    } else if W.WorkStep(c, s).Some? {
      WorkTogether(c, f);
    } else {
      var i :| 0 <= i < |s.terms| && W.TermStep(c, s, i).Some?;
      TermTogether(c, f, i);
    }
  }

  /** An rpc ahead of the first NULL that is not returned keeps somebody moving once the thread runs. */
  lemma ServedAtRest(c: W.Config, s: W.State, k: nat)
    requires WI.Inv(c, s) && !SomeoneMoves(c, s) && L.Settled(s)
    requires k < |s.pushed| && s.pushed[k].Rpc? && WI.InitResult(c) == 0 && W.Null !in s.pushed[..k]
    ensures R.Returned(s, s.pushed[k].id)
  {
    hide W.RunStep, W.WorkStep, W.TermStep, WI.LockInv, WI.JoinInv, WI.TermInv, WI.ErrorInv, WI.QueueInv, WI.IdInv, WI.CallInv;
    if !WT.Served(s, s.pushed[k].id) {
      WT.WorkerCanServe(c, s, k, s.pushed[k].id);
    }
  }

  /**
   What is left when nobody owes a step, after any run of the composed worker: run and every terminate
   have returned, every push is complete, and so is every rpc pushed ahead of the first NULL if on_init
   succeeds. Every message sent and every rpc called has been pushed, with the tag it was given.
   */
  lemma AtRest(c: W.Config, acts: seq<Action>)
    requires Run(c, acts).Some? && !CanMove(c, Run(c, acts).value)
    ensures var f := Run(c, acts).value; var s := Abs(f);
      && L.Settled(s)
      && (forall t :: 0 <= t < |f.owners| && !f.owners[t].ByWorker? ==> f.q.pcs[t].Pushed?)
      && (forall id, tag :: Begin(BySender(id, tag)) in acts ==> W.Msg(id, tag) in s.pushed)
      && (forall id, tag :: Local(W.CallRpc(id, tag)) in acts ==> W.Rpc(id, tag) in s.pushed)
      && (forall k :: 0 <= k < |s.pushed| && s.pushed[k].Rpc? && WI.InitResult(c) == 0 && W.Null !in s.pushed[..k] ==>
            R.Returned(s, s.pushed[k].id))
  {
    hide Inv, Step, W.Step, L.Settled, L.CanMove, WI.Inv, Abs;
    RunInv(c, acts);
    var f := Run(c, acts).value;
    var s := Abs(f);
    var steps := RunRefines(c, acts);
    assert L.Reachable(c, s);
    if SomeoneMoves(c, s) {
      MovesTogether(c, f);
    }
    L.NobodyIsStuck(c, s);
    L.ReachableInv(c, s);
    forall t | 0 <= t < |f.owners| && !f.owners[t].ByWorker?
      ensures f.q.pcs[t].Pushed?
    {
      if !f.q.pcs[t].Pushed? {
        PushGoes(c, f, t);
      }
    }
    forall k | 0 <= k < |s.pushed| && s.pushed[k].Rpc? && WI.InitResult(c) == 0 && W.Null !in s.pushed[..k]
      ensures R.Returned(s, s.pushed[k].id)
    {
      ServedAtRest(c, s, k);
    }
    InputsAtRest(c, f, acts, steps);
  }

  lemma InputsAtRest(c: W.Config, f: State, acts: seq<Action>, steps: seq<W.Action>)
    requires Inv(c, f) && |f.q.pcs| == |f.owners| && SameInputs(f, acts, steps) && W.Runs(c, steps) == Some(Abs(f))
    requires forall t :: 0 <= t < |f.owners| && !f.owners[t].ByWorker? ==> f.q.pcs[t].Pushed?
    requires !SomeoneMoves(c, Abs(f))
    ensures forall id, tag :: Begin(BySender(id, tag)) in acts ==> W.Msg(id, tag) in Abs(f).pushed
    ensures forall id, tag :: Local(W.CallRpc(id, tag)) in acts ==> W.Rpc(id, tag) in Abs(f).pushed
  {
    hide W.Runs, W.Exec, Protocols, Links, L.CanMove;
    hide WI.LockInv, WI.RunInv, WI.JoinInv, WI.TermInv, WI.ErrorInv, WI.QueueInv, WI.IdInv;
    IN.PushedIsGiven(c, steps);
    IN.CallsAreGiven(c, steps);
    forall id, tag | Begin(BySender(id, tag)) in acts
      ensures W.Msg(id, tag) in Abs(f).pushed
    {
      var t :| 0 <= t < |f.owners| && f.owners[t] == BySender(id, tag);
      assert f.q.pcs[t].Pushed?;
      IN.SendIsPushed(steps, id, tag);
    }
    forall id, tag | Local(W.CallRpc(id, tag)) in acts
      ensures W.Rpc(id, tag) in Abs(f).pushed
    {
      assert W.CallRpc(id, tag) in steps;
    }
  }

  // ----- Program order

  /** A set takes effect with its store. */
  lemma SetAtStore(ops: seq<S.Op>, s: S.State, b: S.Action)
    requires S.Inv(ops, s) && S.Step(ops, s, b).Some? && (forall i :: 0 <= i < |ops| ==> !ops[i].WaitFor?)
    requires b.t == 0 && |ops| > 0 && ops[0].Set?
    ensures |s.pcs| == |ops| && (AL.ActionOf(s, b).Some? ==> s.pcs[0].SetStore?)
  {
    hide S.Step, S.Inv, AL.ActionOf;
    SignalMoves(ops, s, b);
    SizeOf(ops, s);
  }

  /**
   A thread does one thing at a time: what shows as a step of the worker thread, the runner or a terminator
   happens while it is in no call of pop, push, set or wait, or is the very step by which such a call of its
   own takes effect; and a join waits until the worker thread has left its last call.
   */
  lemma ProgramOrder(c: W.Config, f: State, a: Action)
    requires Inv(c, f) && Step(c, f, a).Some?
    ensures ActionOf(f, a) == Some(W.Work) ==>
      WorkerFree(c, f) || (a.OnQueue? && a.move.t < |f.q.pcs| && f.q.pcs[a.move.t].PopTake?)
    ensures ActionOf(f, a) == Some(W.Run) ==>
      Outside(f.sigRunning.pcs[1]) || (a.OnRunning? && a.b.t == 1)
    ensures forall i: nat :: ActionOf(f, a) == Some(W.Terminate(i)) ==>
      || (i < c.nterms && Outside(f.sigTerminated.pcs[i + 1]))
      || (a.OnTerminated? && a.b.t == i + 1)
      || (a.OnQueue? && a.move.t < |f.owners| && f.owners[a.move.t] == ByTerm(i))
    ensures a.Local? && Step(c, f, a).value.core.joins > f.core.joins ==> Outside(f.sigTerminated.pcs[0])
  {
    hide WI.Inv, Links, S.Inv, S.Step, Q.Step, AL.ActionOf, WorkerFree, Effect, RunningEffect, TerminatedEffect, ReadyEffect;
    match a
    case Local(b) => LocalOrder(c, f, b);
    case Begin(_) =>
    case OnQueue(b) => QueueOrder(c, f, b);
    case OnRunning(b) =>
      if b.t == 0 {
        SetAtStore(PAIR, f.sigRunning, b);
      }
    case OnTerminated(b) =>
      if b.t == 0 {
        SetAtStore(TermOps(c.nterms), f.sigTerminated, b);
      }
    case OnReady(id, b) =>
      if b.t == 0 {
        SetAtStore(PAIR, f.sigReady[id], b);
      }
  }

  lemma QueueOrder(c: W.Config, f: State, b: Q.Action)
    requires Inv(c, f) && QueueStep(c, f, b).Some?
    ensures b.t < |f.owners|
    ensures AQ.Shows(f.q, b) && f.owners[b.t].ByWorker? ==> f.q.pcs[b.t].PopTake?
  {
    hide WI.Inv, Links, S.Inv, Q.Step, Effect;
    QueueIndex(c, f, b);
    assert Q.Fits(OpOf(f.owners[b.t]), f.q.pcs[b.t]);
  }

  lemma LocalOrder(c: W.Config, f: State, a: W.Action)
    requires Shape(c, f) && LocalStep(c, f, a).Some?
    ensures a.Work? ==> WorkerFree(c, f)
    ensures a.Run? ==> Outside(f.sigRunning.pcs[1])
    ensures a.Terminate? ==> a.i < c.nterms && Outside(f.sigTerminated.pcs[a.i + 1])
    ensures LocalStep(c, f, a).value.core.joins > f.core.joins ==> Outside(f.sigTerminated.pcs[0])
  {
    hide W.RunStep, W.WorkStep, W.TermStep, WorkerFree;
    match a
    case Run => RunJoins(c, f.core);
    case Work => WI.WorkKeepsFrame(c, f.core);
    case Terminate(i) => TermJoins(c, f.core, i);
    case _ =>
  }

  lemma RunJoins(c: W.Config, s: W.State)
    requires W.RunStep(c, s).Some?
    ensures W.RunStep(c, s).value.joins > s.joins ==> s.rpc.RJoin? && s.joinable
  {
  }

  lemma TermJoins(c: W.Config, s: W.State, i: nat)
    requires i < |s.terms| && W.TermStep(c, s, i).Some?
    ensures W.TermStep(c, s, i).value.joins > s.joins ==> s.terms[i].TJoin? && s.joinable
  {
  }
}
