/** The links between the protocols and the threads of the worker survive every step. */
module ComposedLinks {
  import opened Options
  import opened Composed
  import opened ComposedInvariant
  import opened WorkerCalls
  import W = Worker
  import WI = WorkerInvariant
  import Q = QueueProtocol
  import S = Signal
  import AQ = AtomicQueue
  import AL = AtomicLatch

  // ----- What a step of module Worker does to what the links speak of

  lemma RunLinks(c: W.Config, s: W.State)
    requires WI.Inv(c, s) && W.RunStep(c, s).Some?
    ensures var s' := W.RunStep(c, s).value;
      && s'.terms == s.terms && s'.calls == s.calls && s'.used == s.used
      && (s'.wpc == s.wpc || !s.wpc.WPop?)
  {
    hide W.RunStep, WI.LockInv, WI.JoinInv, WI.TermInv, WI.ErrorInv, WI.QueueInv, WI.IdInv, WI.CallInv;
    RunTerms(c, s);
    WI.RunFrame(c, s);
  }

  /** Outside a wait the runner stays on the same side of it. */
  lemma RunSide(c: W.Config, s: W.State, pc: S.Pc)
    requires W.RunStep(c, s).Some? && !s.rpc.RWait? && RunOk(s.rpc, pc)
    ensures RunOk(W.RunStep(c, s).value.rpc, pc)
  {
  }

  lemma TermLinks(c: W.Config, s: W.State, i: nat)
    requires i < |s.terms| && !s.terms[i].TPush? && !s.terms[i].TWait? && W.TermStep(c, s, i).Some?
    ensures var s' := W.TermStep(c, s, i).value;
      && s'.calls == s.calls && s'.used == s.used && s'.wpc == s.wpc && s'.rpc == s.rpc
      && |s'.terms| == |s.terms| && s'.terms == s.terms[i := s'.terms[i]]
      && (if s.terms[i].TIdle? then s'.terms[i].TPush?
          else !s'.terms[i].TIdle? && !s'.terms[i].TPush? && !s'.terms[i].TWait?)
  {
    hide W.TermStep;
    WI.TermFrame(c, s, i);
    WI.TermLocks(c, s, i);
    TermSide(c, s, i);
  }

  lemma TermSide(c: W.Config, s: W.State, i: nat)
    requires i < |s.terms| && !s.terms[i].TPush? && !s.terms[i].TWait? && W.TermStep(c, s, i).Some?
    ensures var x := W.TermStep(c, s, i).value.terms[i];
      if s.terms[i].TIdle? then x.TPush? else !x.TIdle? && !x.TPush? && !x.TWait?
  {
  }

  // ----- The links depend on little

  lemma OwnersStay(core: W.State, core': W.State, owners: seq<Owner>, pcs: seq<Q.Pc<W.Item>>)
    requires |owners| == |pcs| && OwnersOk(core, owners, pcs)
    requires core'.terms == core.terms && core'.used == core.used && SameCalls(core.calls, core'.calls)
    requires forall t :: 0 <= t < |owners| && owners[t].ByWorker? && AQ.PhaseOf(pcs[t]).ToPop? ==> core'.wpc.WPop?
    ensures OwnersOk(core', owners, pcs)
  {
    forall t | 0 <= t < |owners|
      ensures OwnerOk(core', owners[t], pcs[t])
    {
      assert OwnerOk(core, owners[t], pcs[t]);
    }
  }

  lemma CallsStay(calls: map<nat, W.Call>, calls': map<nat, W.Call>, ready: map<nat, S.State>)
    requires calls.Keys == ready.Keys && forall id :: id in ready ==> |ready[id].pcs| == 2
    requires CallsOk(calls, ready) && SameCalls(calls, calls')
    ensures CallsOk(calls', ready)
  {
    forall id | id in calls'
      ensures CallOk(calls'[id].stage, ready[id])
    {
      assert CallOk(calls[id].stage, ready[id]);
    }
  }

  // ----- Local steps keep the links

  /** A worker that is outside every call holds no pop that is still to take an item. */
  lemma FreeOwners(c: W.Config, f: State, core': W.State)
    requires Shape(c, f) && WorkerFree(c, f)
    ensures forall t :: 0 <= t < |f.owners| && f.owners[t].ByWorker? && AQ.PhaseOf(f.q.pcs[t]).ToPop? ==> core'.wpc.WPop?
  {
  }

  lemma WaitingOwners(core: W.State, core': W.State, owners: seq<Owner>, pcs: seq<Q.Pc<W.Item>>)
    requires |owners| == |pcs| && OwnersOk(core, owners, pcs) && (core'.wpc == core.wpc || !core.wpc.WPop?)
    ensures forall t :: 0 <= t < |owners| && owners[t].ByWorker? && AQ.PhaseOf(pcs[t]).ToPop? ==> core'.wpc.WPop?
  {
    forall t | 0 <= t < |owners| && owners[t].ByWorker? && AQ.PhaseOf(pcs[t]).ToPop?
      ensures core'.wpc.WPop?
    {
      assert OwnerOk(core, owners[t], pcs[t]);
    }
  }

  lemma LocalRunLinks(c: W.Config, f: State)
    requires Inv(c, f) && LocalStep(c, f, W.Run).Some?
    ensures Shape(c, LocalStep(c, f, W.Run).value) && Links(c, LocalStep(c, f, W.Run).value)
  {
    hide W.RunStep, WI.Inv, Protocols, CallsOk, TermsOk, OwnersOk, RunOk, SameCalls;
    LocalShape(c, f, W.Run);
    RunFill(c, f.core, f.q.items, f.sigRunning.value, f.sigTerminated.value);
    RunLinks(c, Abs(f));
    RunSide(c, f.core, f.sigRunning.pcs[1]);
    var core' := LocalStep(c, f, W.Run).value.core;
    WaitingOwners(f.core, core', f.owners, f.q.pcs);
    CallsAlone(f.core.calls);
    OwnersStay(f.core, core', f.owners, f.q.pcs);
  }

  lemma LocalWorkLinks(c: W.Config, f: State)
    requires Inv(c, f) && LocalStep(c, f, W.Work).Some?
    ensures Shape(c, LocalStep(c, f, W.Work).value) && Links(c, LocalStep(c, f, W.Work).value)
  {
    hide W.WorkStep, WI.Inv, Protocols, CallsOk, TermsOk, OwnersOk, RunOk, SameCalls, WorkerFree;
    LocalShape(c, f, W.Work);
    WorkFill(c, f.core, f.q.items, f.sigRunning.value, f.sigTerminated.value);
    WorkLinks(c, Abs(f));
    var core' := LocalStep(c, f, W.Work).value.core;
    FreeOwners(c, f, core');
    OwnersStay(f.core, core', f.owners, f.q.pcs);
    CallsStay(f.core.calls, core'.calls, f.sigReady);
  }

  lemma TermsAfter(terms: seq<W.TPc>, pcs: seq<S.Pc>, i: nat, x: W.TPc)
    requires |pcs| == |terms| + 1 && TermsOk(terms, pcs) && i < |terms| && TermOk(x, pcs[i + 1])
    ensures TermsOk(terms[i := x], pcs)
  {
  }

  /** A terminator that has not called push, or whose push is linked, moves on. */
  lemma OwnersAfterTerm(core: W.State, core': W.State, owners: seq<Owner>, pcs: seq<Q.Pc<W.Item>>, i: nat)
    requires |owners| == |pcs| && OwnersOk(core, owners, pcs) && i < |core.terms| == |core'.terms|
    requires core'.terms == core.terms[i := core'.terms[i]]
    requires core'.used == core.used && core'.calls == core.calls && core'.wpc == core.wpc
    requires core.terms[i].TIdle? || (!core.terms[i].TPush? && !core'.terms[i].TPush? && !core'.terms[i].TIdle?)
    ensures OwnersOk(core', owners, pcs)
  {
    forall t | 0 <= t < |owners|
      ensures OwnerOk(core', owners[t], pcs[t])
    {
      assert OwnerOk(core, owners[t], pcs[t]);
    }
  }

  lemma LocalTermLinks(c: W.Config, f: State, i: nat)
    requires Inv(c, f) && LocalStep(c, f, W.Terminate(i)).Some?
    ensures var f' := LocalStep(c, f, W.Terminate(i)).value; Shape(c, f') && Links(c, f')
  {
    hide W.TermStep, WI.Inv, Protocols, CallsOk, TermsOk, OwnersOk, RunOk, SameCalls;
    LocalShape(c, f, W.Terminate(i));
    TermLinks(c, f.core, i);
    var core' := LocalStep(c, f, W.Terminate(i)).value.core;
    TermAt(f.core.terms, f.sigTerminated.pcs, i);
    TermsAfter(f.core.terms, f.sigTerminated.pcs, i, core'.terms[i]);
    OwnersAfterTerm(f.core, core', f.owners, f.q.pcs, i);
  }

  lemma TermAt(terms: seq<W.TPc>, pcs: seq<S.Pc>, i: nat)
    requires |pcs| == |terms| + 1 && TermsOk(terms, pcs) && i < |terms|
    ensures TermOk(terms[i], pcs[i + 1])
  {
  }

  /** A new call with a new signal. */
  lemma LocalCallLinks(c: W.Config, f: State, id: nat, tag: W.Tag)
    requires Inv(c, f) && LocalStep(c, f, W.CallRpc(id, tag)).Some?
    ensures var f' := LocalStep(c, f, W.CallRpc(id, tag)).value; Shape(c, f') && Links(c, f')
  {
    hide WI.LockInv, WI.RunInv, WI.JoinInv, WI.TermInv, WI.ErrorInv, WI.CallInv, WI.QueueInv, Protocols, TermsOk, RunOk;
    LocalShape(c, f, W.CallRpc(id, tag));
    var f' := LocalStep(c, f, W.CallRpc(id, tag)).value;
    assert id !in Abs(f).calls;
    assert CallOk(W.Called, S.Init(PAIR));
    forall t | 0 <= t < |f.owners|
      ensures OwnerOk(f'.core, f.owners[t], f.q.pcs[t])
    {
      assert OwnerOk(f.core, f.owners[t], f.q.pcs[t]);
      assert f.owners[t].BySender? ==> f.owners[t].id != id;
    }
  }

  lemma LocalLinks(c: W.Config, f: State, a: W.Action)
    requires Inv(c, f) && LocalStep(c, f, a).Some?
    ensures Shape(c, LocalStep(c, f, a).value) && Links(c, LocalStep(c, f, a).value)
  {
    hide Inv, W.Step, Shape, Links;
    match a
    case Run => LocalRunLinks(c, f);
    case Work => LocalWorkLinks(c, f);
    case Terminate(i) => LocalTermLinks(c, f, i);
    case CallRpc(id, tag) => LocalCallLinks(c, f, id, tag);
    case _ => NotLocal(c, f, a);
  }

  lemma NotLocal(c: W.Config, f: State, a: W.Action)
    requires Shape(c, f) && LocalStep(c, f, a).Some?
    ensures a.Run? || a.Work? || a.Terminate? || a.CallRpc?
  {
  }

  // ----- Steps of the queue keep the links

  /** A step of the queue leaves the others where they are, but for waking a sleeper. */
  lemma QueueOthers(ops: seq<Q.Op<W.Item>>, q: Q.State<W.Item>, b: Q.Action)
    requires |ops| == |q.pcs| && Q.Step(ops, q, b).Some?
    ensures var q' := Q.Step(ops, q, b).value;
      && b.t < |q.pcs| == |q'.pcs| && !q.pcs[b.t].Popped? && !q.pcs[b.t].Pushed?
      && (forall t :: 0 <= t < |q.pcs| && t != b.t ==>
            AQ.PhaseOf(q'.pcs[t]) == AQ.PhaseOf(q.pcs[t]) && (q.pcs[t].Popped? ==> q'.pcs[t].Popped?))
  {
  }

  /** Nothing shows, so every owner stays where it is. */
  lemma OwnersQuiet(core: W.State, owners: seq<Owner>, pcs: seq<Q.Pc<W.Item>>, pcs': seq<Q.Pc<W.Item>>)
    requires |owners| == |pcs| == |pcs'| && OwnersOk(core, owners, pcs)
    requires forall t :: 0 <= t < |pcs| ==> AQ.PhaseOf(pcs'[t]) == AQ.PhaseOf(pcs[t])
    requires forall t :: 0 <= t < |pcs| && pcs[t].Popped? ==> pcs'[t].Popped?
    ensures OwnersOk(core, owners, pcs')
  {
    forall t | 0 <= t < |owners|
      ensures OwnerOk(core, owners[t], pcs'[t])
    {
      assert OwnerOk(core, owners[t], pcs[t]);
    }
  }

  /** The push or pop of `owners[n]` takes effect. */
  lemma OwnersEffect(core: W.State, core': W.State, owners: seq<Owner>, pcs: seq<Q.Pc<W.Item>>,
                     pcs': seq<Q.Pc<W.Item>>, n: nat)
    requires |owners| == |pcs| == |pcs'| && OwnersOk(core, owners, pcs) && n < |owners| && !pcs[n].Popped?
    requires forall t :: 0 <= t < |pcs| && t != n ==> AQ.PhaseOf(pcs'[t]) == AQ.PhaseOf(pcs[t])
    requires forall t :: 0 <= t < |pcs| && t != n && pcs[t].Popped? ==> pcs'[t].Popped?
    requires OwnerOk(core', owners[n], pcs'[n])
    requires forall t :: 0 <= t < |pcs| && t != n && OwnerOk(core, owners[t], pcs[t]) && !Clash(owners[t], owners[n])
               && !Clash(owners[n], owners[t]) && (owners[n].ByWorker? && owners[t].ByWorker? ==> pcs[t].Popped?)
               ==> OwnerOk(core', owners[t], pcs[t])
    ensures OwnersOk(core', owners, pcs')
  {
    forall t | 0 <= t < |owners|
      ensures OwnerOk(core', owners[t], pcs'[t])
    {
      assert OwnerOk(core, owners[t], pcs[t]);
      if t != n {
        assert OwnerOk(core', owners[t], pcs[t]);
      }
    }
  }

  /** What an effect leaves of an owner other than the one it is of. */
  lemma EffectOnOther(core: W.State, o: Owner, item: W.Item, p: Owner, pc: Q.Pc<W.Item>)
    requires OwnerOk(core, p, pc) && !Clash(p, o) && !o.ByWorker?
    requires o.ByTerm? ==> o.i < |core.terms|
    ensures OwnerOk(Effect(core, o, item), p, pc)
  {
  }

  lemma EffectOnOwn(core: W.State, o: Owner, item: W.Item, pc: Q.Pc<W.Item>)
    requires OwnerOk(core, o, Q.PushLink) && !o.ByWorker? && AQ.PhaseOf(pc).HasPushed?
    ensures OwnerOk(Effect(core, o, item), o, pc)
  {
  }

  lemma PushOwners(core: W.State, owners: seq<Owner>, pcs: seq<Q.Pc<W.Item>>, pcs': seq<Q.Pc<W.Item>>, n: nat, item: W.Item)
    requires |owners| == |pcs| == |pcs'| && OwnersOk(core, owners, pcs) && n < |owners| && pcs[n].PushLink?
    requires forall t :: 0 <= t < |pcs| && t != n ==> AQ.PhaseOf(pcs'[t]) == AQ.PhaseOf(pcs[t])
    requires forall t :: 0 <= t < |pcs| && t != n && pcs[t].Popped? ==> pcs'[t].Popped?
    requires AQ.PhaseOf(pcs'[n]).HasPushed? && !owners[n].ByWorker?
    ensures OwnersOk(Effect(core, owners[n], item), owners, pcs')
  {
    hide Effect;
    assert OwnerOk(core, owners[n], pcs[n]);
    EffectOnOwn(core, owners[n], item, pcs'[n]);
    forall t | 0 <= t < |pcs| && t != n && OwnerOk(core, owners[t], pcs[t]) && !Clash(owners[t], owners[n])
      ensures OwnerOk(Effect(core, owners[n], item), owners[t], pcs[t])
    {
      EffectOnOther(core, owners[n], item, owners[t], pcs[t]);
    }
    OwnersEffect(core, Effect(core, owners[n], item), owners, pcs, pcs', n);
  }

  lemma PopOwners(core: W.State, core': W.State, owners: seq<Owner>, pcs: seq<Q.Pc<W.Item>>, pcs': seq<Q.Pc<W.Item>>, n: nat)
    requires |owners| == |pcs| == |pcs'| && OwnersOk(core, owners, pcs) && n < |owners| && pcs[n].PopTake?
    requires forall t :: 0 <= t < |pcs| && t != n ==> AQ.PhaseOf(pcs'[t]) == AQ.PhaseOf(pcs[t])
    requires forall t :: 0 <= t < |pcs| && t != n && pcs[t].Popped? ==> pcs'[t].Popped?
    requires AQ.PhaseOf(pcs'[n]).Holding? && owners[n].ByWorker?
    requires core'.terms == core.terms && core'.used == core.used && SameCalls(core.calls, core'.calls)
    ensures OwnersOk(core', owners, pcs')
  {
    OwnersEffect(core, core', owners, pcs, pcs', n);
  }

  /** The item of a push is linked, so its terminator or caller goes on to wait. */
  lemma PushSides(c: W.Config, f: State, o: Owner, item: W.Item)
    requires Shape(c, f) && Links(c, f) && OwnerOk(f.core, o, Q.PushLink) && !o.ByWorker?
    ensures var core' := Effect(f.core, o, item);
      && |core'.terms| == |f.core.terms| && core'.calls.Keys == f.core.calls.Keys
      && core'.rpc == f.core.rpc && TermsOk(core'.terms, f.sigTerminated.pcs) && CallsOk(core'.calls, f.sigReady)
  {
    hide OwnersOk, RunOk;
    match o
    case ByTerm(i) => TermAt(f.core.terms, f.sigTerminated.pcs, i);
    case BySender(id, _) =>
    case ByCaller(id, _) => assert CallOk(f.core.calls[id].stage, f.sigReady[id]);
  }

  lemma QueueLinks(c: W.Config, f: State, b: Q.Action)
    requires Inv(c, f) && QueueStep(c, f, b).Some?
    ensures Shape(c, QueueStep(c, f, b).value) && Links(c, QueueStep(c, f, b).value)
  {
    hide Q.Step, Effect, WI.Inv, TermsOk, CallsOk, OwnersOk, RunOk, S.Inv, Clash, SameCalls;
    QueueShape(c, f, b);
    AQ.OwnPhase(Ops(f.owners), f.q, b);
    QueueOthers(Ops(f.owners), f.q, b);
    var q' := Q.Step(Ops(f.owners), f.q, b).value;
    var o := f.owners[b.t];
    assert Q.Fits(OpOf(o), f.q.pcs[b.t]);
    if !AQ.Shows(f.q, b) {
      OwnersQuiet(f.core, f.owners, f.q.pcs, q'.pcs);
    } else if o.ByWorker? {
      PopLinks(c, f, b);
    } else {
      OwnerAt(f, b.t);
      PushSides(c, f, o, ItemOf(f.q.items, o));
      PushOwners(f.core, f.owners, f.q.pcs, q'.pcs, b.t, ItemOf(f.q.items, o));
    }
  }

  lemma OwnerAt(f: State, t: nat)
    requires |f.q.pcs| == |f.owners| && OwnersOk(f.core, f.owners, f.q.pcs) && t < |f.owners|
    ensures OwnerOk(f.core, f.owners[t], f.q.pcs[t])
  {
  }

  /** The worker takes an item: a call that was queued. */
  lemma PopLinks(c: W.Config, f: State, b: Q.Action)
    requires Inv(c, f) && QueueStep(c, f, b).Some? && AQ.Shows(f.q, b) && f.owners[b.t].ByWorker?
    ensures Shape(c, QueueStep(c, f, b).value) && Links(c, QueueStep(c, f, b).value)
  {
    hide Q.Step, Effect, WI.Inv, TermsOk, CallsOk, OwnersOk, RunOk, S.Inv, Clash, SameCalls, W.WorkStep;
    QueueShape(c, f, b);
    AQ.OwnPhase(Ops(f.owners), f.q, b);
    QueueOthers(Ops(f.owners), f.q, b);
    QueueRefines(c, f, b);
    OwnerAt(f, b.t);
    assert Q.Fits(OpOf(f.owners[b.t]), f.q.pcs[b.t]);
    WorkLinks(c, Abs(f));
    var f' := QueueStep(c, f, b).value;
    PopOwners(f.core, f'.core, f.owners, f.q.pcs, f'.q.pcs, b.t);
    CallsStay(f.core.calls, f'.core.calls, f.sigReady);
  }

  // ----- Steps of the signals keep the links

  lemma RunningLinks(c: W.Config, f: State, b: S.Action)
    requires Inv(c, f) && RunningStep(c, f, b).Some?
    ensures Shape(c, RunningStep(c, f, b).value) && Links(c, RunningStep(c, f, b).value)
  {
    hide S.Step, S.Inv, WI.Inv, TermsOk, CallsOk, OwnersOk, WorkerFree, AL.ActionOf, SameCalls;
    RunningShape(c, f, b);
    SignalMoves(PAIR, f.sigRunning, b);
    var core' := RunningStep(c, f, b).value.core;
    WaitingOwners(f.core, core', f.owners, f.q.pcs);
    CallsAlone(f.core.calls);
    OwnersStay(f.core, core', f.owners, f.q.pcs);
  }

  /** A waiter for the end passes, or nobody does. */
  lemma TermsMove(terms: seq<W.TPc>, ops: seq<S.Op>, s: S.State, b: S.Action, s': S.State)
    requires |ops| == |s.pcs| == |terms| + 1 && ops == TermOps(|terms|)
    requires SignalMove(ops, s, b, s') && TermsOk(terms, s.pcs)
    requires 0 < b.t && s.pcs[b.t].WaitFast? ==> terms[b.t - 1].TWait?
    ensures TermsOk(if AL.ActionOf(s, b).Some? && b.t > 0 then terms[b.t - 1 := W.TJoin] else terms, s'.pcs)
  {
    hide AL.ActionOf, S.Inv;
    var terms' := if AL.ActionOf(s, b).Some? && b.t > 0 then terms[b.t - 1 := W.TJoin] else terms;
    forall i | 0 <= i < |terms|
      ensures TermOk(terms'[i], s'.pcs[i + 1])
    {
      assert TermOk(terms[i], s.pcs[i + 1]);
      assert ops[i + 1] == S.Wait;
    }
  }

  lemma TerminatedLinks(c: W.Config, f: State, b: S.Action)
    requires Inv(c, f) && TerminatedStep(c, f, b).Some?
    ensures Shape(c, TerminatedStep(c, f, b).value) && Links(c, TerminatedStep(c, f, b).value)
  {
    hide S.Step, S.Inv, WI.Inv, TermsOk, CallsOk, OwnersOk, RunOk, WorkerFree, TermFree, AL.ActionOf, SameCalls, SignalMove;
    TerminatedShape(c, f, b);
    TerminatedIndex(c, f, b);
    SignalMoves(TermOps(c.nterms), f.sigTerminated, b);
    var sig' := TerminatedStep(c, f, b).value.sigTerminated;
    TermsMove(f.core.terms, TermOps(c.nterms), f.sigTerminated, b, sig');
    TerminatedOwners(c, f, b);
  }

  lemma TerminatedOwners(c: W.Config, f: State, b: S.Action)
    requires Inv(c, f) && TerminatedStep(c, f, b).Some?
    ensures OwnersOk(TerminatedStep(c, f, b).value.core, f.owners, f.q.pcs)
  {
    hide S.Step, S.Inv, WI.Inv, CallsOk, OwnersOk, RunOk, WorkerFree, TermFree, AL.ActionOf, SameCalls;
    TerminatedIndex(c, f, b);
    SignalMoves(TermOps(c.nterms), f.sigTerminated, b);
    var core' := TerminatedStep(c, f, b).value.core;
    if b.t == 0 {
      WaitingOwners(f.core, core', f.owners, f.q.pcs);
      CallsAlone(f.core.calls);
      OwnersStay(f.core, core', f.owners, f.q.pcs);
    } else if AL.ActionOf(f.sigTerminated, b).Some? {
      assert TermOk(f.core.terms[b.t - 1], f.sigTerminated.pcs[b.t]);
      OwnersAfterTerm(f.core, core', f.owners, f.q.pcs, b.t - 1);
    }
  }

  /** The signal of one call moves, and its stage with it. */
  lemma CallsMove(calls: map<nat, W.Call>, ready: map<nat, S.State>, id: nat, k: W.Call, sig: S.State)
    requires calls.Keys == ready.Keys && (forall i :: i in ready ==> |ready[i].pcs| == 2) && |sig.pcs| == 2
    requires CallsOk(calls, ready) && id in calls && CallOk(k.stage, sig)
    ensures CallsOk(calls[id := k], ready[id := sig])
  {
  }

  /** A call other than `Called` changes its stage, and the worker, if it moves, moves to its pop. */
  lemma OwnersAfterCall(core: W.State, core': W.State, owners: seq<Owner>, pcs: seq<Q.Pc<W.Item>>, id: nat)
    requires |owners| == |pcs| && OwnersOk(core, owners, pcs) && id in core.calls && id in core'.calls
    requires core'.terms == core.terms && core'.used == core.used && core'.calls == core.calls[id := core'.calls[id]]
    requires core'.wpc == core.wpc || core'.wpc.WPop?
    requires core'.calls[id].tag == core.calls[id].tag && !core.calls[id].stage.Called? && !core'.calls[id].stage.Called?
    ensures OwnersOk(core', owners, pcs)
  {
    forall t | 0 <= t < |owners|
      ensures OwnerOk(core', owners[t], pcs[t])
    {
      assert OwnerOk(core, owners[t], pcs[t]);
    }
  }

  /** Where the caller stands when its signal takes effect, and where that leaves it. */
  lemma ReadySide(c: W.Config, f: State, id: nat, b: S.Action)
    requires Inv(c, f) && ReadyStep(c, f, id, b).Some?
    ensures id in f.sigReady && |ReadyStep(c, f, id, b).value.sigReady[id].pcs| == 2
    ensures var f' := ReadyStep(c, f, id, b).value;
      && id in f'.core.calls && CallOk(f'.core.calls[id].stage, f'.sigReady[id])
      && (AL.ActionOf(f.sigReady[id], b).Some? ==> !f.core.calls[id].stage.Called?)
  {
    hide S.Step, S.Inv, WI.Inv, TermsOk, OwnersOk, RunOk, WorkerFree, CallerFree, AL.ActionOf, SameCalls;
    ReadyIndex(c, f, id, b);
    SignalMoves(PAIR, f.sigReady[id], b);
    assert CallOk(f.core.calls[id].stage, f.sigReady[id]);
    if b.t == 0 && AL.ActionOf(f.sigReady[id], b).Some? {
      InHand(c, Abs(f));
    }
  }

  lemma ReadyLeaves(c: W.Config, f: State, id: nat, b: S.Action)
    requires Shape(c, f) && ReadyStep(c, f, id, b).Some?
    ensures id in f.core.calls && id in f.sigReady && b.t < |f.sigReady[id].pcs|
    ensures var f' := ReadyStep(c, f, id, b).value;
      && id in f'.core.calls && f'.core.used == f.core.used && (f'.core.wpc == f.core.wpc || f'.core.wpc.WPop?)
      && f'.core.calls[id].tag == f.core.calls[id].tag
      && (if AL.ActionOf(f.sigReady[id], b).None? then f'.core == f.core else !f'.core.calls[id].stage.Called?)
  {
    hide S.Step, MayReady, AL.ActionOf;
    ReadyIndex(c, f, id, b);
  }

  lemma ReadyOwners(c: W.Config, f: State, id: nat, b: S.Action)
    requires Inv(c, f) && ReadyStep(c, f, id, b).Some?
    ensures OwnersOk(ReadyStep(c, f, id, b).value.core, f.owners, f.q.pcs)
  {
    hide S.Inv, WI.Inv, TermsOk, CallsOk, OwnersOk, RunOk, AL.ActionOf, CallOk, ReadyStep, Protocols;
    ReadyIndex(c, f, id, b);
    ReadySide(c, f, id, b);
    ReadyCalls(c, f, id, b);
    ReadyLeaves(c, f, id, b);
    if AL.ActionOf(f.sigReady[id], b).Some? {
      OwnersAfterCall(f.core, ReadyStep(c, f, id, b).value.core, f.owners, f.q.pcs, id);
    }
  }

  lemma ReadyCalls(c: W.Config, f: State, id: nat, b: S.Action)
    requires Shape(c, f) && ReadyStep(c, f, id, b).Some?
    ensures id in f.core.calls && id in f.sigReady
    ensures var f' := ReadyStep(c, f, id, b).value;
      && id in f'.core.calls && id in f'.sigReady
      && f'.core.calls == f.core.calls[id := f'.core.calls[id]] && f'.sigReady == f.sigReady[id := f'.sigReady[id]]
      && f'.core.terms == f.core.terms && f'.core.rpc == f.core.rpc
  {
    hide S.Step, MayReady, AL.ActionOf;
    ReadyIndex(c, f, id, b);
    var k := ReadyStep(c, f, id, b).value.core.calls[id];
    assert AL.ActionOf(f.sigReady[id], b).None? ==> f.core.calls[id := k] == f.core.calls;
  }

  lemma ReadyLinks(c: W.Config, f: State, id: nat, b: S.Action)
    requires Inv(c, f) && ReadyStep(c, f, id, b).Some?
    ensures Shape(c, ReadyStep(c, f, id, b).value) && Links(c, ReadyStep(c, f, id, b).value)
  {
    hide S.Inv, WI.Inv, TermsOk, CallsOk, OwnersOk, RunOk, CallOk, ReadyStep;
    ReadyShape(c, f, id, b);
    ReadySide(c, f, id, b);
    ReadyOwners(c, f, id, b);
    ReadyCalls(c, f, id, b);
    ReadyFrame(c, f, id, b);
    var f' := ReadyStep(c, f, id, b).value;
    CallsMove(f.core.calls, f.sigReady, id, f'.core.calls[id], f'.sigReady[id]);
  }

  lemma ReadyFrame(c: W.Config, f: State, id: nat, b: S.Action)
    requires Shape(c, f) && ReadyStep(c, f, id, b).Some?
    ensures var f' := ReadyStep(c, f, id, b).value;
      && f'.owners == f.owners && f'.q == f.q && f'.sigRunning == f.sigRunning && f'.sigTerminated == f.sigTerminated
  {
  }

  // ----- A call of push or pop begins

  lemma BeginOwner(c: W.Config, f: State, o: Owner)
    requires Inv(c, f) && MayBegin(c, f, o)
    ensures OwnerOk(f.core, o, Q.Start(OpOf(o)))
  {
  }

  lemma BeginApart(c: W.Config, f: State, o: Owner, t: nat)
    requires Inv(c, f) && MayBegin(c, f, o) && t < |f.owners|
    ensures !Clash(f.owners[t], o) && (o.ByWorker? && f.owners[t].ByWorker? ==> f.q.pcs[t].Popped?)
  {
    hide WI.Inv, TermsOk, CallsOk, RunOk, Protocols;
    assert OwnerOk(f.core, f.owners[t], f.q.pcs[t]);
  }

  lemma BeginLinks(c: W.Config, f: State, o: Owner)
    requires Inv(c, f) && BeginStep(c, f, o).Some?
    ensures Shape(c, BeginStep(c, f, o).value) && Links(c, BeginStep(c, f, o).value)
  {
    hide WI.Inv, TermsOk, CallsOk, RunOk, Protocols, MayBegin, OwnerOk, Clash;
    BeginOwner(c, f, o);
    forall t | 0 <= t < |f.owners|
      ensures !Clash(f.owners[t], o) && (o.ByWorker? && f.owners[t].ByWorker? ==> f.q.pcs[t].Popped?)
    {
      BeginApart(c, f, o, t);
    }
  }

  // ----- The protocols keep their own invariants

  lemma {:induction false} CreditsMore(pcs: seq<Q.Pc<W.Item>>, pc: Q.Pc<W.Item>)
    requires Q.Credit(pc) == 0
    ensures Q.Credits(pcs + [pc]) == Q.Credits(pcs)
  {
    assert (pcs + [pc])[..|pcs|] == pcs;
  }

  lemma BeginProtocols(c: W.Config, f: State, o: Owner)
    requires Inv(c, f) && BeginStep(c, f, o).Some?
    ensures Shape(c, BeginStep(c, f, o).value) && Protocols(c, BeginStep(c, f, o).value)
  {
    hide WI.Inv, Links, MayBegin, S.Inv, Q.Credits;
    var f' := BeginStep(c, f, o).value;
    var pc := Q.Start(OpOf(o));
    CreditsMore(f.q.pcs, pc);
    assert forall t :: 0 <= t < |f'.owners| ==> f'.q.pcs[t] == if t < |f.owners| then f.q.pcs[t] else pc;
    assert forall t :: 0 <= t < |f'.owners| ==> f'.owners[t] == if t < |f.owners| then f.owners[t] else o;
    if Q.SomeAsleep(f'.q) {
      var t :| 0 <= t < |f'.q.pcs| && f'.q.pcs[t].Sleeping?;
      assert t < |f.q.pcs| && f.q.pcs[t].Sleeping?;
    }
  }

  lemma NewSignal()
    ensures S.Inv(PAIR, S.Init(PAIR)) && |S.Init(PAIR).pcs| == 2
  {
    assert S.Run(PAIR, []).Some?;
    S.RunInv(PAIR, []);
  }

  lemma StepProtocols(c: W.Config, f: State, a: Action)
    requires Inv(c, f) && Step(c, f, a).Some?
    ensures Shape(c, Step(c, f, a).value) && Protocols(c, Step(c, f, a).value)
  {
    hide WI.Inv, Links, S.Inv, S.Step, Q.Inv, Q.Step, W.Step, Effect, RunningEffect, TerminatedEffect, ReadyEffect;
    hide IsLocal, MayBegin, MayRunning, MayTerminated, MayReady, AQ.Shows, AL.ActionOf;
    StepKeepsShape(c, f, a);
    match a
    case Local(b) => NewSignal();
    case Begin(o) => BeginProtocols(c, f, o);
    case OnQueue(b) => Q.StepKeepsInv(Ops(f.owners), f.q, b);
    case OnRunning(b) => S.StepKeepsInv(PAIR, f.sigRunning, b);
    case OnTerminated(b) => S.StepKeepsInv(TermOps(c.nterms), f.sigTerminated, b);
    case OnReady(id, b) => S.StepKeepsInv(PAIR, f.sigReady[id], b);
  }

  lemma StepLinks(c: W.Config, f: State, a: Action)
    requires Inv(c, f) && Step(c, f, a).Some?
    ensures Shape(c, Step(c, f, a).value) && Links(c, Step(c, f, a).value)
  {
    hide Inv, Shape, Links, LocalStep, BeginStep, QueueStep, RunningStep, TerminatedStep, ReadyStep;
    match a
    case Local(b) => LocalLinks(c, f, b);
    case Begin(o) => BeginLinks(c, f, o);
    case OnQueue(b) => QueueLinks(c, f, b);
    case OnRunning(b) => RunningLinks(c, f, b);
    case OnTerminated(b) => TerminatedLinks(c, f, b);
    case OnReady(id, b) => ReadyLinks(c, f, id, b);
  }

  lemma StepKeepsInv(c: W.Config, f: State, a: Action)
    requires Inv(c, f) && Step(c, f, a).Some?
    ensures Inv(c, Step(c, f, a).value)
  {
    hide WI.Inv, Protocols, Shape, Links, Step, W.Step;
    StepProtocols(c, f, a);
    StepLinks(c, f, a);
    StepRefines(c, f, a);
    if ActionOf(f, a).Some? {
      WI.StepKeepsInv(c, Abs(f), ActionOf(f, a).value);
    }
  }
}
