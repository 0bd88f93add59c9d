/**
 Every step of the composed worker is a step of module Worker by the same thread, or does not show; and
 what ties the protocols of queue and signals to where the threads of the worker stand.
 */
module ComposedInvariant {
  import opened Options
  import opened Composed
  import W = Worker
  import WI = WorkerInvariant
  import Q = QueueProtocol
  import S = Signal
  import AQ = AtomicQueue
  import AL = AtomicLatch

  function Fill(core: W.State, items: seq<W.Item>, running: bool, terminated: bool): W.State {
    core.(queue := items, running := running, terminated := terminated)
  }

  /** The state of module Worker that is shown: the queue and the two flags are those of the protocols. */
  function Abs(f: State): W.State {
    Fill(f.core, f.q.items, f.sigRunning.value, f.sigTerminated.value)
  }

  // ----- Invariant

  predicate Passed(pc: S.Pc) {
    AL.PhaseOf(pc).Passed?
  }

  /** Where the runner, a terminator or a caller stands, and where its wait does. */
  predicate RunOk(rpc: W.RPc, pc: S.Pc) {
    && (Passed(pc) <==> !rpc.RIdle? && !rpc.RLocked? && !rpc.RWait?)
    && (!pc.WaitFast? ==> !rpc.RIdle? && !rpc.RLocked?)
  }

  predicate TermOk(term: W.TPc, pc: S.Pc) {
    && (Passed(pc) <==> !term.TIdle? && !term.TPush? && !term.TWait?)
    && (!pc.WaitFast? ==> !term.TIdle? && !term.TPush?)
  }

  predicate CallOk(stage: W.Stage, sig: S.State)
    requires |sig.pcs| == 2
  {
    && (Passed(sig.pcs[1]) <==> stage.Returned?)
    && (sig.value <==> stage.Ready? || stage.Returned?)
    && (!sig.pcs[1].WaitFast? ==> !stage.Called?)
  }

  /** Where the owner of a push or pop stands, and whether that has taken effect. */
  predicate OwnerOk(core: W.State, o: Owner, pc: Q.Pc<W.Item>) {
    match o
    case ByWorker => AQ.PhaseOf(pc).ToPop? ==> core.wpc.WPop?
    case ByTerm(i) =>
      i < |core.terms| && !core.terms[i].TIdle? && (AQ.PhaseOf(pc).ToPush? <==> core.terms[i].TPush?)
    case BySender(id, _) => AQ.PhaseOf(pc).ToPush? <==> id !in core.used
    case ByCaller(id, tag) =>
      && id in core.calls && core.calls[id].tag == tag
      && (AQ.PhaseOf(pc).ToPush? <==> core.calls[id].stage.Called?)
  }

  /** One push of each terminator, of each message and of each call. */
  predicate Clash(a: Owner, b: Owner) {
    match a
    case ByWorker => false
    case ByTerm(i) => b == ByTerm(i)
    case BySender(id, _) => b.BySender? && b.id == id
    case ByCaller(id, _) => b.ByCaller? && b.id == id
  }

  ghost predicate Protocols(c: W.Config, f: State)
    requires Shape(c, f)
  {
    && Q.Inv(Ops(f.owners), f.q) && S.Inv(PAIR, f.sigRunning) && S.Inv(TermOps(c.nterms), f.sigTerminated)
    && (forall id :: id in f.sigReady ==> S.Inv(PAIR, f.sigReady[id]))
  }

  ghost predicate OwnersOk(core: W.State, owners: seq<Owner>, pcs: seq<Q.Pc<W.Item>>)
    requires |owners| == |pcs|
  {
    && (forall t :: 0 <= t < |owners| ==> OwnerOk(core, owners[t], pcs[t]))
    && (forall t, u :: 0 <= t < u < |owners| ==> !Clash(owners[t], owners[u]))
    && (forall t, u :: 0 <= t < u < |owners| && owners[t].ByWorker? && owners[u].ByWorker? ==> pcs[t].Popped?)
  }

  ghost predicate TermsOk(terms: seq<W.TPc>, pcs: seq<S.Pc>)
    requires |pcs| == |terms| + 1
  {
    forall i :: 0 <= i < |terms| ==> TermOk(terms[i], pcs[i + 1])
  }

  ghost predicate CallsOk(calls: map<nat, W.Call>, ready: map<nat, S.State>)
    requires calls.Keys == ready.Keys && forall id :: id in ready ==> |ready[id].pcs| == 2
  {
    forall id :: id in calls ==> CallOk(calls[id].stage, ready[id])
  }

  ghost predicate Links(c: W.Config, f: State)
    requires Shape(c, f)
  {
    && RunOk(f.core.rpc, f.sigRunning.pcs[1]) && TermsOk(f.core.terms, f.sigTerminated.pcs)
    && CallsOk(f.core.calls, f.sigReady) && OwnersOk(f.core, f.owners, f.q.pcs)
  }

  ghost predicate Inv(c: W.Config, f: State) {
    Shape(c, f) && Protocols(c, f) && Links(c, f) && WI.Inv(c, Abs(f))
  }

  // ----- What a step of a signal does, by AtomicLatch

  ghost predicate SignalMove(ops: seq<S.Op>, s: S.State, b: S.Action, s': S.State)
    requires |ops| == |s.pcs|
  {
    && b.t < |ops| == |s'.pcs| && S.Inv(ops, s') && (s.value ==> s'.value) && !s'.pcs[b.t].WaitFast?
    && (forall i :: 0 <= i < |ops| && i != b.t ==>
          AL.PhaseIn(ops[i], s'.pcs[i]) == AL.PhaseIn(ops[i], s.pcs[i])
          && (s'.pcs[i].WaitFast? <==> s.pcs[i].WaitFast?))
    && (var p, p' := AL.PhaseIn(ops[b.t], s.pcs[b.t]), AL.PhaseIn(ops[b.t], s'.pcs[b.t]);
        if AL.ActionOf(s, b).None? then p' == p && s'.value == s.value
        else if ops[b.t].Set? then s.pcs[b.t].SetStore? && s'.value
        else p.Waiting? && p'.Passed? && s.value)
  }

  lemma SignalMoves(ops: seq<S.Op>, s: S.State, b: S.Action)
    requires S.Inv(ops, s) && S.Step(ops, s, b).Some?
    requires forall i :: 0 <= i < |ops| ==> !ops[i].WaitFor?
    ensures SignalMove(ops, s, b, S.Step(ops, s, b).value)
  {
    hide S.Inv, S.Step, AL.ActionOf;
    SizeOf(ops, s);
    S.StepKeepsInv(ops, s, b);
    SizeOf(ops, S.Step(ops, s, b).value);
    S.OthersAfter(ops, s, b);
    AL.OwnPhase(ops, s, b);
    OwnStart(ops, s, b);
    FitsOf(ops, s, b.t);
  }

  lemma SizeOf(ops: seq<S.Op>, s: S.State)
    requires S.Inv(ops, s)
    ensures |ops| == |s.pcs|
  {
  }

  lemma FitsOf(ops: seq<S.Op>, s: S.State, t: nat)
    requires S.Inv(ops, s) && t < |ops|
    ensures |ops| == |s.pcs| && S.Fits(ops[t], s.pcs[t])
  {
  }

  lemma OwnStart(ops: seq<S.Op>, s: S.State, b: S.Action)
    requires |ops| == |s.pcs| && S.Step(ops, s, b).Some?
    ensures !S.Step(ops, s, b).value.pcs[b.t].WaitFast?
  {
  }

  // ----- Steps that touch no signal and no queue

  lemma JoinFill(s: W.State, items: seq<W.Item>, r: bool, t: bool)
    requires W.Join(s).Some?
    ensures W.Join(Fill(s, items, r, t)) == Some(Fill(W.Join(s).value, items, r, t))
  {
  }

  lemma RunFill(c: W.Config, s: W.State, items: seq<W.Item>, r: bool, t: bool)
    requires !s.rpc.RWait? && W.RunStep(c, s).Some?
    ensures W.RunStep(c, Fill(s, items, r, t)) == Some(Fill(W.RunStep(c, s).value, items, r, t))
  {
    hide W.Join;
    if s.rpc.RJoin? {
      JoinFill(s, items, r, t);
    }
  }

  lemma TermFill(c: W.Config, s: W.State, i: nat, items: seq<W.Item>, r: bool, t: bool)
    requires i < |s.terms| && !s.terms[i].TPush? && !s.terms[i].TWait? && W.TermStep(c, s, i).Some?
    ensures W.TermStep(c, Fill(s, items, r, t), i) == Some(Fill(W.TermStep(c, s, i).value, items, r, t))
  {
    hide W.Join;
    if s.terms[i].TJoin? {
      JoinFill(s, items, r, t);
    }
  }

  lemma TestFill(c: W.Config, s: W.State, items: seq<W.Item>, r: bool, t: bool)
    requires (s.wpc.WStart? || s.wpc.WTest? || s.wpc.WExitTest?) && W.LifeStep(c, s).Some?
    ensures W.LifeStep(c, Fill(s, items, r, t)) == Some(Fill(W.LifeStep(c, s).value, items, r, t))
  {
  }

  lemma CallbackFill(c: W.Config, s: W.State, items: seq<W.Item>, r: bool, t: bool)
    requires (s.wpc.WIniting? || s.wpc.WExiting?) && W.LifeStep(c, s).Some?
    ensures W.LifeStep(c, Fill(s, items, r, t)) == Some(Fill(W.LifeStep(c, s).value, items, r, t))
  {
  }

  lemma LifeFill(c: W.Config, s: W.State, items: seq<W.Item>, r: bool, t: bool)
    requires !s.wpc.WSetRunning? && !s.wpc.WSetTerm? && W.LifeStep(c, s).Some?
    ensures W.LifeStep(c, Fill(s, items, r, t)) == Some(Fill(W.LifeStep(c, s).value, items, r, t))
  {
    if s.wpc.WIniting? || s.wpc.WExiting? {
      CallbackFill(c, s, items, r, t);
    } else {
      TestFill(c, s, items, r, t);
    }
  }

  lemma MsgGotFill(c: W.Config, s: W.State, id: nat, tag: W.Tag, items: seq<W.Item>, r: bool, t: bool)
    requires s.wpc.WGot? && W.OnMsg(c, s, id, tag).Some?
    ensures W.OnMsg(c, Fill(s, items, r, t), id, tag) == Some(Fill(W.OnMsg(c, s, id, tag).value, items, r, t))
  {
  }

  lemma MsgEndFill(c: W.Config, s: W.State, id: nat, tag: W.Tag, items: seq<W.Item>, r: bool, t: bool)
    requires s.wpc.WRunning? && W.OnMsg(c, s, id, tag).Some?
    ensures W.OnMsg(c, Fill(s, items, r, t), id, tag) == Some(Fill(W.OnMsg(c, s, id, tag).value, items, r, t))
  {
  }

  lemma MsgFreeFill(c: W.Config, s: W.State, id: nat, tag: W.Tag, items: seq<W.Item>, r: bool, t: bool)
    requires s.wpc.WFree? && W.OnMsg(c, s, id, tag).Some?
    ensures W.OnMsg(c, Fill(s, items, r, t), id, tag) == Some(Fill(W.OnMsg(c, s, id, tag).value, items, r, t))
  {
  }

  lemma MsgFill(c: W.Config, s: W.State, id: nat, tag: W.Tag, items: seq<W.Item>, r: bool, t: bool)
    requires W.OnMsg(c, s, id, tag).Some?
    ensures W.OnMsg(c, Fill(s, items, r, t), id, tag) == Some(Fill(W.OnMsg(c, s, id, tag).value, items, r, t))
  {
    if s.wpc.WGot? {
      MsgGotFill(c, s, id, tag, items, r, t);
    } else if s.wpc.WRunning? {
      MsgEndFill(c, s, id, tag, items, r, t);
    } else {
      MsgFreeFill(c, s, id, tag, items, r, t);
    }
  }

  lemma RpcFindFill(c: W.Config, s: W.State, id: nat, tag: W.Tag, items: seq<W.Item>, r: bool, t: bool)
    requires (s.wpc.WGot? || s.wpc.WLookup?) && W.OnRpc(c, s, id, tag).Some?
    ensures W.OnRpc(c, Fill(s, items, r, t), id, tag) == Some(Fill(W.OnRpc(c, s, id, tag).value, items, r, t))
  {
  }

  lemma RpcRunFill(c: W.Config, s: W.State, id: nat, tag: W.Tag, items: seq<W.Item>, r: bool, t: bool)
    requires (s.wpc.WRunning? || s.wpc.WReady?) && W.OnRpc(c, s, id, tag).Some?
    ensures W.OnRpc(c, Fill(s, items, r, t), id, tag) == Some(Fill(W.OnRpc(c, s, id, tag).value, items, r, t))
  {
  }

  lemma RpcFill(c: W.Config, s: W.State, id: nat, tag: W.Tag, items: seq<W.Item>, r: bool, t: bool)
    requires W.OnRpc(c, s, id, tag).Some?
    ensures W.OnRpc(c, Fill(s, items, r, t), id, tag) == Some(Fill(W.OnRpc(c, s, id, tag).value, items, r, t))
  {
    if s.wpc.WGot? || s.wpc.WLookup? {
      RpcFindFill(c, s, id, tag, items, r, t);
    } else {
      RpcRunFill(c, s, id, tag, items, r, t);
    }
  }

  lemma WorkFill(c: W.Config, s: W.State, items: seq<W.Item>, r: bool, t: bool)
    requires !s.wpc.WSetRunning? && !s.wpc.WSetTerm? && !s.wpc.WPop? && W.WorkStep(c, s).Some?
    ensures W.WorkStep(c, Fill(s, items, r, t)) == Some(Fill(W.WorkStep(c, s).value, items, r, t))
  {
    hide W.LifeStep, W.OnMsg, W.OnRpc;
    if !W.Busy(s.wpc) {
      LifeFill(c, s, items, r, t);
    } else if s.wpc.item.Rpc? {
      RpcFill(c, s, s.wpc.item.id, s.wpc.item.tag, items, r, t);
    } else {
      MsgFill(c, s, s.wpc.item.id, s.wpc.item.tag, items, r, t);
    }
  }

  lemma CallFill(s: W.State, id: nat, tag: W.Tag, items: seq<W.Item>, r: bool, t: bool)
    requires W.ClientStep(s, W.CallRpc(id, tag)).Some?
    ensures W.ClientStep(Fill(s, items, r, t), W.CallRpc(id, tag))
         == Some(Fill(W.ClientStep(s, W.CallRpc(id, tag)).value, items, r, t))
  {
  }

  lemma LocalRefines(c: W.Config, f: State, a: W.Action)
    requires Shape(c, f) && LocalStep(c, f, a).Some?
    ensures W.Step(c, Abs(f), a) == Some(Abs(LocalStep(c, f, a).value))
  {
    hide W.RunStep, W.WorkStep, W.TermStep, W.ClientStep, WorkerFree, Taken;
    var items, r, t := f.q.items, f.sigRunning.value, f.sigTerminated.value;
    match a
    case Run => RunFill(c, f.core, items, r, t);
    case Work => WorkFill(c, f.core, items, r, t);
    case Terminate(i) => TermFill(c, f.core, i, items, r, t);
    case CallRpc(id, tag) => CallFill(f.core, id, tag, items, r, t);
    case _ =>
  }

  // ----- Steps of the queue

  /** The action of module Worker that a push or a pop takes effect as. */
  function ActionBy(o: Owner): W.Action {
    match o
    case ByWorker => W.Work
    case ByTerm(i) => W.Terminate(i)
    case BySender(id, tag) => W.Send(id, tag)
    case ByCaller(id, _) => W.PushRpc(id)
  }

  lemma PushRefines(c: W.Config, s: W.State, o: Owner, items: seq<W.Item>, r: bool, t: bool)
    requires !o.ByWorker? && OwnerOk(s, o, Q.PushLink)
    ensures W.Step(c, Fill(s, items, r, t), ActionBy(o))
         == Some(Fill(Effect(s, o, ItemOf(items, o)), items + [ItemOf(items, o)], r, t))
  {
    match o
    case ByTerm(i) =>
    case BySender(id, tag) =>
    case ByCaller(id, tag) =>
  }

  lemma PopFill(s: W.State, items: seq<W.Item>, r: bool, t: bool)
    requires s.wpc.WPop? && items != []
    ensures W.PopStep(Fill(s, items, r, t)) == Some(Fill(W.PopStep(s.(queue := [items[0]])).value, items[1..], r, t))
  {
    if items[0].Null? {
    } else {
      TakeFill(s, items, r, t);
    }
  }

  lemma TakeFill(s: W.State, items: seq<W.Item>, r: bool, t: bool)
    requires s.wpc.WPop? && items != [] && !items[0].Null?
    ensures W.PopStep(Fill(s, items, r, t)) == Some(Fill(W.PopStep(s.(queue := [items[0]])).value, items[1..], r, t))
  {
  }

  lemma PopRefines(c: W.Config, s: W.State, items: seq<W.Item>, r: bool, t: bool)
    requires s.wpc.WPop? && items != []
    ensures W.Step(c, Fill(s, items, r, t), W.Work)
         == Some(Fill(Effect(s, ByWorker, items[0]), items[1..], r, t))
  {
    hide W.PopStep, W.LifeStep, W.OnMsg, W.OnRpc;
    PopFill(s, items, r, t);
  }

  lemma QueueRefines(c: W.Config, f: State, b: Q.Action)
    requires Inv(c, f) && QueueStep(c, f, b).Some?
    ensures var f' := QueueStep(c, f, b).value;
      if AQ.Shows(f.q, b) then W.Step(c, Abs(f), ActionBy(f.owners[b.t])) == Some(Abs(f')) else Abs(f') == Abs(f)
  {
    hide W.Step, Q.Step, Effect, WI.Inv, TermsOk, CallsOk, Shape;
    AQ.OwnPhase(Ops(f.owners), f.q, b);
    if AQ.Shows(f.q, b) {
      var o := f.owners[b.t];
      assert Q.Fits(OpOf(o), f.q.pcs[b.t]) && OwnerOk(f.core, o, f.q.pcs[b.t]);
      if o.ByWorker? {
        PopRefines(c, f.core, f.q.items, f.sigRunning.value, f.sigTerminated.value);
      } else {
        PushRefines(c, f.core, o, f.q.items, f.sigRunning.value, f.sigTerminated.value);
      }
    }
  }

  // ----- Steps of the signals

  lemma RunningFill(c: W.Config, s: W.State, i: nat, items: seq<W.Item>, r: bool, t: bool)
    requires if i == 0 then s.wpc.WSetRunning? else s.rpc.RWait? && r
    ensures W.Step(c, Fill(s, items, r, t), if i == 0 then W.Work else W.Run)
         == Some(Fill(RunningEffect(s, i), items, true, t))
  {
  }

  lemma RunningRefines(c: W.Config, f: State, b: S.Action)
    requires Inv(c, f) && RunningStep(c, f, b).Some?
    ensures var f' := RunningStep(c, f, b).value;
      if AL.ActionOf(f.sigRunning, b).None? then Abs(f') == Abs(f)
      else W.Step(c, Abs(f), if b.t == 0 then W.Work else W.Run) == Some(Abs(f'))
  {
    hide S.Step, S.Inv, WI.Inv, TermsOk, CallsOk, OwnersOk, WorkerFree, W.Step, RunningEffect, AL.ActionOf;
    SignalMoves(PAIR, f.sigRunning, b);
    if AL.ActionOf(f.sigRunning, b).Some? {
      RunningFill(c, f.core, b.t, f.q.items, f.sigRunning.value, f.sigTerminated.value);
    }
  }

  lemma TerminatedFill(c: W.Config, s: W.State, i: nat, items: seq<W.Item>, r: bool, t: bool)
    requires i <= |s.terms| && if i == 0 then s.wpc.WSetTerm? else s.terms[i - 1].TWait? && t
    ensures W.Step(c, Fill(s, items, r, t), if i == 0 then W.Work else W.Terminate(i - 1))
         == Some(Fill(TerminatedEffect(s, i), items, r, true))
  {
  }

  lemma TerminatedRefines(c: W.Config, f: State, b: S.Action)
    requires Inv(c, f) && TerminatedStep(c, f, b).Some?
    ensures b.t <= c.nterms
    ensures var f' := TerminatedStep(c, f, b).value;
      if AL.ActionOf(f.sigTerminated, b).None? then Abs(f') == Abs(f)
      else W.Step(c, Abs(f), if b.t == 0 then W.Work else W.Terminate(b.t - 1)) == Some(Abs(f'))
  {
    hide S.Step, S.Inv, WI.Inv, CallsOk, OwnersOk, WorkerFree, TermFree, W.Step, TerminatedEffect, AL.ActionOf;
    SignalMoves(TermOps(c.nterms), f.sigTerminated, b);
    if b.t > 0 {
      assert TermOk(f.core.terms[b.t - 1], f.sigTerminated.pcs[b.t]);
    }
    if AL.ActionOf(f.sigTerminated, b).Some? {
      TerminatedFill(c, f.core, b.t, f.q.items, f.sigRunning.value, f.sigTerminated.value);
    }
  }

  lemma ReadyFill(c: W.Config, s: W.State, id: nat, items: seq<W.Item>, r: bool, t: bool)
    requires id in s.calls && s.wpc.WReady? && s.wpc.item == W.Rpc(id, s.calls[id].tag)
    ensures W.Step(c, Fill(s, items, r, t), W.Work) == Some(Fill(ReadyEffect(s, id, 0), items, r, t))
  {
    hide W.PopStep, W.LifeStep, W.OnMsg;
    assert W.OnRpc(c, Fill(s, items, r, t), id, s.calls[id].tag) == Some(Fill(ReadyEffect(s, id, 0), items, r, t));
  }

  lemma ReturnFill(c: W.Config, s: W.State, id: nat, items: seq<W.Item>, r: bool, t: bool)
    requires id in s.calls && s.calls[id].stage.Ready?
    ensures W.Step(c, Fill(s, items, r, t), W.ReturnRpc(id)) == Some(Fill(ReadyEffect(s, id, 1), items, r, t))
  {
  }

  lemma ReadyRefines(c: W.Config, f: State, id: nat, b: S.Action)
    requires Inv(c, f) && ReadyStep(c, f, id, b).Some?
    ensures var f' := ReadyStep(c, f, id, b).value;
      if AL.ActionOf(f.sigReady[id], b).None? then Abs(f') == Abs(f)
      else W.Step(c, Abs(f), if b.t == 0 then W.Work else W.ReturnRpc(id)) == Some(Abs(f'))
  {
    hide S.Step, S.Inv, WI.Inv, TermsOk, OwnersOk, WorkerFree, CallerFree, W.Step, ReadyEffect, AL.ActionOf;
    SignalMoves(PAIR, f.sigReady[id], b);
    assert CallOk(f.core.calls[id].stage, f.sigReady[id]);
    if AL.ActionOf(f.sigReady[id], b).Some? {
      if b.t == 0 {
        ReadyFill(c, f.core, id, f.q.items, f.sigRunning.value, f.sigTerminated.value);
      } else {
        ReturnFill(c, f.core, id, f.q.items, f.sigRunning.value, f.sigTerminated.value);
      }
    }
  }

  /** The step of module Worker that a step shows as, if any. */
  ghost function ActionOf(f: State, a: Action): Option<W.Action> {
    match a
    case Local(b) => Some(b)
    case Begin(_) => None
    case OnQueue(b) => if b.t < |f.owners| && AQ.Shows(f.q, b) then Some(ActionBy(f.owners[b.t])) else None
    case OnRunning(b) =>
      if b.t >= |f.sigRunning.pcs| || AL.ActionOf(f.sigRunning, b).None? then None
      else Some(if b.t == 0 then W.Work else W.Run)
    case OnTerminated(b) =>
      if b.t >= |f.sigTerminated.pcs| || AL.ActionOf(f.sigTerminated, b).None? then None
      else Some(if b.t == 0 then W.Work else W.Terminate(b.t - 1))
    case OnReady(id, b) =>
      if id !in f.sigReady || b.t >= |f.sigReady[id].pcs| || AL.ActionOf(f.sigReady[id], b).None? then None
      else Some(if b.t == 0 then W.Work else W.ReturnRpc(id))
  }

  lemma StepRefines(c: W.Config, f: State, a: Action)
    requires Inv(c, f) && Step(c, f, a).Some?
    ensures var s, s' := Abs(f), Abs(Step(c, f, a).value);
      match ActionOf(f, a) case None => s' == s case Some(b) => W.Step(c, s, b) == Some(s')
  {
    hide Links, Protocols, Shape, WI.Inv, W.Step, LocalStep, QueueStep, RunningStep, TerminatedStep, ReadyStep, MayBegin;
    StepKeepsShape(c, f, a);
    match a
    case Local(b) => LocalRefines(c, f, b);
    case Begin(o) =>
    case OnQueue(b) => QueueRefines(c, f, b); QueueIndex(c, f, b);
    case OnRunning(b) => RunningRefines(c, f, b); RunningIndex(c, f, b);
    case OnTerminated(b) => TerminatedRefines(c, f, b); TerminatedIndex(c, f, b);
    case OnReady(id, b) => ReadyRefines(c, f, id, b); ReadyIndex(c, f, id, b);
  }

  lemma QueueIndex(c: W.Config, f: State, b: Q.Action)
    requires Shape(c, f) && QueueStep(c, f, b).Some?
    ensures b.t < |f.owners|
  {
  }

  lemma RunningIndex(c: W.Config, f: State, b: S.Action)
    requires Shape(c, f) && RunningStep(c, f, b).Some?
    ensures b.t < |f.sigRunning.pcs|
  {
  }

  lemma TerminatedIndex(c: W.Config, f: State, b: S.Action)
    requires Shape(c, f) && TerminatedStep(c, f, b).Some?
    ensures b.t < |f.sigTerminated.pcs|
  {
  }

  lemma ReadyIndex(c: W.Config, f: State, id: nat, b: S.Action)
    requires Shape(c, f) && ReadyStep(c, f, id, b).Some?
    ensures id in f.sigReady && b.t < |f.sigReady[id].pcs|
  {
  }
}
