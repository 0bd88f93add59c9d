/**
 Every schedule of the composed worker comes to rest: a potential that every step lowers, but for the
 ones by which a client starts something new and for spurious wakeups.
 */
module ComposedProgress {
  import opened Options
  import opened Composed
  import opened ComposedInvariant
  import opened ComposedLinks
  import opened WorkerCalls
  import opened ComposedTheorems
  import W = Worker
  import WI = WorkerInvariant
  import L = WorkerLifecycle
  import R = WorkerRpc
  import Q = QueueProtocol
  import S = Signal
  import AQ = AtomicQueue
  import AL = AtomicLatch

  /** What the worker spends on one item, from its pop to the beginning of the next pop. */
  const ITEM: int := 9

  /** What a push that is still to begin costs. */
  const PUSH: int := 18

  // ----- The queue

  /** Calls that are still to link their item. */
  function ToPush(pcs: seq<Q.Pc<W.Item>>): nat {
    if pcs == [] then 0 else ToPush(pcs[..|pcs| - 1]) + if AQ.PhaseOf(pcs[|pcs| - 1]).ToPush? then 1 else 0
  }

  function QueueCost(q: Q.State<W.Item>): nat {
    Q.TotalLeft(q.pcs) + ITEM * (|q.items| + ToPush(q.pcs))
  }

  lemma {:induction false} ToPushSame(pcs: seq<Q.Pc<W.Item>>, pcs': seq<Q.Pc<W.Item>>, t: nat)
    requires |pcs'| == |pcs| && t <= |pcs|
    requires forall i :: 0 <= i < |pcs| && i != t ==> AQ.PhaseOf(pcs'[i]) == AQ.PhaseOf(pcs[i])
    ensures ToPush(pcs') == ToPush(pcs)
      + (if t < |pcs| && AQ.PhaseOf(pcs'[t]).ToPush? then 1 else 0) - (if t < |pcs| && AQ.PhaseOf(pcs[t]).ToPush? then 1 else 0)
  {
    if pcs != [] {
      var n := |pcs| - 1;
      ToPushSame(pcs[..n], pcs'[..n], if t < n then t else n);
    }
  }

  /** A step of the queue that shows as a pop gives back what its item was charged. */
  lemma QueueCosts(ops: seq<Q.Op<W.Item>>, q: Q.State<W.Item>, b: Q.Action)
    requires |ops| == |q.pcs| && Q.Step(ops, q, b).Some?
    ensures b.t < |q.pcs|
    ensures var q' := Q.Step(ops, q, b).value;
      QueueCost(q') <= QueueCost(q) + (if b.Spurious? then 4 else -1)
                       - if AQ.Shows(q, b) && q.pcs[b.t].PopTake? then ITEM else 0
  {
    hide Q.Step;
    AQ.OwnPhase(ops, q, b);
    Q.StepLeft(ops, q, b);
    var q' := Q.Step(ops, q, b).value;
    ToPushSame(q.pcs, q'.pcs, b.t);
    if AQ.Shows(q, b) {
      ShownPhase(ops, q, b);
    }
  }

  lemma ShownPhase(ops: seq<Q.Op<W.Item>>, q: Q.State<W.Item>, b: Q.Action)
    requires |ops| == |q.pcs| && Q.Step(ops, q, b).Some? && b.t < |q.pcs| && AQ.Shows(q, b)
    ensures AQ.PhaseOf(q.pcs[b.t]).ToPush? <==> q.pcs[b.t].PushLink?
    ensures q.pcs[b.t].PushLink? || q.pcs[b.t].PopTake?
  {
  }

  // ----- The worker thread

  /** A pop is under way that has not taken its item. */
  ghost predicate Open(pcs: seq<Q.Pc<W.Item>>) {
    exists t :: 0 <= t < |pcs| && AQ.PhaseOf(pcs[t]).ToPop?
  }

  ghost function WorkCost(p: W.WPc, open: bool): nat {
    match p
    case WNone => 12 case WStart => 12 case WIniting => 11 case WSetRunning => 10 case WTest => 10
    case WPop => if open then 4 else 9
    case WGot(_) => 13 case WLookup(_) => 12 case WRunning(_) => 11 case WFree(_) => 10 case WReady(_) => 9
    case WExitTest => 3 case WExiting => 2 case WSetTerm => 1 case WDone => 0
  }

  // ----- The runner and the terminators

  function RunCost(p: W.RPc): nat {
    match p
    case RIdle => 7 case RLocked => 6 case RWait => 5 case RCheck => 4 case RJoin => 3
    case RUnlock => 2 case RRead => 1 case RDone(_) => 0
  }

  function TermCost(p: W.TPc, begun: bool): nat {
    match p
    case TIdle => 6 + if begun then 0 else PUSH
    case TPush => 5 + if begun then 0 else PUSH
    case TWait => 4 case TJoin => 3 case TRead => 2 case TUnlock(_) => 1 case TDone(_) => 0
  }

  /** The first `n` terminators. */
  function TermsCost(terms: seq<W.TPc>, owners: seq<Owner>): nat {
    if terms == [] then 0
    else TermsCost(terms[..|terms| - 1], owners) + TermCost(terms[|terms| - 1], ByTerm(|terms| - 1) in owners)
  }

  /** Only terminator `i` changes, by `d`. */
  lemma {:induction false} TermsMove(terms: seq<W.TPc>, owners: seq<Owner>, terms': seq<W.TPc>, owners': seq<Owner>, i: nat, d: int)
    requires |terms'| == |terms| && i <= |terms|
    requires forall j :: 0 <= j < |terms| && j != i ==>
      TermCost(terms'[j], ByTerm(j) in owners') <= TermCost(terms[j], ByTerm(j) in owners)
    requires i < |terms| ==> TermCost(terms'[i], ByTerm(i) in owners') <= TermCost(terms[i], ByTerm(i) in owners) + d
    ensures TermsCost(terms', owners') <= TermsCost(terms, owners) + if i < |terms| then d else 0
  {
    if terms != [] {
      var n := |terms| - 1;
      TermsMove(terms[..n], owners, terms'[..n], owners', if i < n then i else n, d);
    }
  }

  // ----- The calls and their signals

  function SignalCost(sig: S.State): nat {
    S.TotalCost(sig.value, sig.pcs)
  }

  function CallCost(id: nat, k: W.Call, owners: seq<Owner>, sig: S.State): nat {
    SignalCost(sig) + if k.stage.Called? && ByCaller(id, k.tag) !in owners then PUSH else 0
  }

  ghost function CallsCost(ids: set<nat>, calls: map<nat, W.Call>, owners: seq<Owner>, ready: map<nat, S.State>): nat
    requires ids <= calls.Keys && ids <= ready.Keys
  {
    if ids == {} then 0
    else var id :| id in ids; CallsCost(ids - {id}, calls, owners, ready) + CallCost(id, calls[id], owners, ready[id])
  }

  /** Whichever call is counted first. */
  lemma {:induction false} CallsSplit(ids: set<nat>, calls: map<nat, W.Call>, owners: seq<Owner>, ready: map<nat, S.State>, id: nat)
    requires ids <= calls.Keys && ids <= ready.Keys && id in ids
    ensures CallsCost(ids, calls, owners, ready)
         == CallsCost(ids - {id}, calls, owners, ready) + CallCost(id, calls[id], owners, ready[id])
  {
    hide CallCost;
    var first :| first in ids
      && CallsCost(ids, calls, owners, ready)
         == CallsCost(ids - {first}, calls, owners, ready) + CallCost(first, calls[first], owners, ready[first]);
    if first != id {
      CallsSplit(ids - {first}, calls, owners, ready, id);
      CallsSplit(ids - {id}, calls, owners, ready, first);
      assert ids - {first} - {id} == ids - {id} - {first};
    }
  }

  /** Only call `id` changes, by `d`. */
  lemma {:induction false} CallsMove(ids: set<nat>, calls: map<nat, W.Call>, owners: seq<Owner>, ready: map<nat, S.State>,
                                     calls': map<nat, W.Call>, owners': seq<Owner>, ready': map<nat, S.State>, id: nat, d: int)
    requires ids <= calls.Keys && ids <= ready.Keys && ids <= calls'.Keys && ids <= ready'.Keys
    requires forall i :: i in ids && i != id ==>
      CallCost(i, calls'[i], owners', ready'[i]) <= CallCost(i, calls[i], owners, ready[i])
    requires id in ids ==> CallCost(id, calls'[id], owners', ready'[id]) <= CallCost(id, calls[id], owners, ready[id]) + d
    ensures CallsCost(ids, calls', owners', ready') <= CallsCost(ids, calls, owners, ready) + if id in ids then d else 0
  {
    hide CallCost;
    if ids != {} {
      var i :| i in ids;
      CallsSplit(ids, calls, owners, ready, i);
      CallsSplit(ids, calls', owners', ready', i);
      CallsMove(ids - {i}, calls, owners, ready, calls', owners', ready', id, d);
    }
  }

  // ----- The potential

  ghost function ClientCost(f: State): nat
    requires f.sigReady.Keys == f.core.calls.Keys
  {
    TermsCost(f.core.terms, f.owners) + CallsCost(f.core.calls.Keys, f.core.calls, f.owners, f.sigReady)
  }

  ghost function Potential(f: State): nat
    requires f.sigReady.Keys == f.core.calls.Keys
  {
    QueueCost(f.q) + WorkCost(f.core.wpc, Open(f.q.pcs)) + RunCost(f.core.rpc) + ClientCost(f)
    + SignalCost(f.sigRunning) + SignalCost(f.sigTerminated)
  }

  /** What a step may add to the potential: a client starts something new, or somebody wakes up for no reason. */
  function Grant(a: Action): int {
    match a
    case Local(b) => if b.CallRpc? then 30 else -1
    case Begin(o) => if o.BySender? then 17 else -1
    case OnQueue(b) => if b.Spurious? then 4 else -1
    case OnRunning(b) => if b.Spurious? then 3 else -1
    case OnTerminated(b) => if b.Spurious? then 3 else -1
    case OnReady(_, b) => if b.Spurious? then 3 else -1
  }

  // ----- Local steps

  lemma RunDrops(c: W.Config, s: W.State)
    requires WI.RunInv(c, s) && W.RunStep(c, s).Some? && !s.rpc.RWait?
    ensures var s' := W.RunStep(c, s).value;
      RunCost(s'.rpc) < RunCost(s.rpc) && (s'.wpc == s.wpc || (s.wpc.WNone? && s'.wpc.WStart?))
  {
  }

  lemma LifeDrops(c: W.Config, s: W.State, open: bool)
    requires W.LifeStep(c, s).Some? && !s.wpc.WSetRunning? && !s.wpc.WSetTerm?
    ensures WorkCost(W.LifeStep(c, s).value.wpc, open) < WorkCost(s.wpc, open)
  {
  }

  lemma MsgDrops(c: W.Config, s: W.State, id: nat, tag: W.Tag, open: bool)
    requires W.OnMsg(c, s, id, tag).Some?
    ensures WorkCost(W.OnMsg(c, s, id, tag).value.wpc, open) < WorkCost(s.wpc, open)
  {
  }

  lemma RpcDrops(c: W.Config, s: W.State, id: nat, tag: W.Tag, open: bool)
    requires W.OnRpc(c, s, id, tag).Some? && !s.wpc.WReady?
    ensures WorkCost(W.OnRpc(c, s, id, tag).value.wpc, open) < WorkCost(s.wpc, open)
  {
  }

  lemma WorkDrops(c: W.Config, s: W.State, open: bool)
    requires W.WorkStep(c, s).Some? && !s.wpc.WSetRunning? && !s.wpc.WSetTerm? && !s.wpc.WPop? && !s.wpc.WReady?
    ensures WorkCost(W.WorkStep(c, s).value.wpc, open) < WorkCost(s.wpc, open)
  {
    hide W.LifeStep, W.OnMsg, W.OnRpc, WorkCost;
    if !W.Busy(s.wpc) {
      LifeDrops(c, s, open);
    } else if s.wpc.item.Rpc? {
      RpcDrops(c, s, s.wpc.item.id, s.wpc.item.tag, open);
    } else {
      MsgDrops(c, s, s.wpc.item.id, s.wpc.item.tag, open);
    }
  }

  lemma TermDrops(c: W.Config, s: W.State, i: nat, begun: bool)
    requires i < |s.terms| && W.TermStep(c, s, i).Some? && !s.terms[i].TPush? && !s.terms[i].TWait?
    ensures i < |W.TermStep(c, s, i).value.terms|
    ensures TermCost(W.TermStep(c, s, i).value.terms[i], begun) < TermCost(s.terms[i], begun)
  {
  }

  /** Nothing changes for the callers, or less is left. */
  lemma CallsSame(calls: map<nat, W.Call>, calls': map<nat, W.Call>, owners: seq<Owner>, owners': seq<Owner>, ready: map<nat, S.State>)
    requires calls.Keys == ready.Keys && SameCalls(calls, calls') && forall o :: o in owners ==> o in owners'
    ensures CallsCost(calls'.Keys, calls', owners', ready) <= CallsCost(calls.Keys, calls, owners, ready)
  {
    CallsMove(calls.Keys, calls, owners, ready, calls', owners', ready, 0, 0);
  }

  lemma TermsSame(terms: seq<W.TPc>, owners: seq<Owner>, owners': seq<Owner>)
    requires forall o :: o in owners ==> o in owners'
    ensures TermsCost(terms, owners') <= TermsCost(terms, owners)
  {
    TermsMove(terms, owners, terms, owners', |terms|, 0);
  }

  lemma LocalRunCost(c: W.Config, f: State)
    requires Inv(c, f) && LocalStep(c, f, W.Run).Some? && Shape(c, LocalStep(c, f, W.Run).value)
    ensures Potential(LocalStep(c, f, W.Run).value) <= Potential(f) - 1
  {
    hide W.RunStep, WI.LockInv, WI.JoinInv, WI.TermInv, WI.ErrorInv, WI.QueueInv, WI.IdInv, WI.CallInv;
    hide Protocols, Links, RunCost, ClientCost, Q.TotalLeft, SignalCost, QueueCost;
    RunFill(c, f.core, f.q.items, f.sigRunning.value, f.sigTerminated.value);
    RunLinks(c, Abs(f));
    RunDrops(c, Abs(f));
    SameClients(f, LocalStep(c, f, W.Run).value);
  }

  lemma SameClients(f: State, f': State)
    requires f.sigReady.Keys == f.core.calls.Keys && f'.owners == f.owners && f'.sigReady == f.sigReady
    requires f'.core.terms == f.core.terms && SameCalls(f.core.calls, f'.core.calls)
    ensures ClientCost(f') <= ClientCost(f)
  {
    CallsSame(f.core.calls, f'.core.calls, f.owners, f.owners, f.sigReady);
  }

  lemma LocalWorkCost(c: W.Config, f: State)
    requires Inv(c, f) && LocalStep(c, f, W.Work).Some? && Shape(c, LocalStep(c, f, W.Work).value)
    ensures Potential(LocalStep(c, f, W.Work).value) <= Potential(f) - 1
  {
    hide W.WorkStep, WI.Inv, WorkerFree, SameCalls, WorkCost;
    hide Protocols, Links, RunCost, ClientCost, Q.TotalLeft, SignalCost, QueueCost;
    WorkFill(c, f.core, f.q.items, f.sigRunning.value, f.sigTerminated.value);
    WorkLinks(c, Abs(f));
    WorkDrops(c, f.core, Open(f.q.pcs));
    SameClients(f, LocalStep(c, f, W.Work).value);
  }

  lemma LocalTermCost(c: W.Config, f: State, i: nat)
    requires Inv(c, f) && LocalStep(c, f, W.Terminate(i)).Some? && Shape(c, LocalStep(c, f, W.Terminate(i)).value)
    ensures Potential(LocalStep(c, f, W.Terminate(i)).value) <= Potential(f) - 1
  {
    hide W.TermStep, WI.Inv, SameCalls, WorkCost, TermCost;
    hide Protocols, Links, RunCost, Q.TotalLeft, SignalCost, QueueCost;
    TermLinks(c, f.core, i);
    var core' := LocalStep(c, f, W.Terminate(i)).value.core;
    TermDrops(c, f.core, i, ByTerm(i) in f.owners);
    TermsMove(f.core.terms, f.owners, core'.terms, f.owners, i, -1);
  }

  lemma NewCallCost()
    ensures SignalCost(S.Init(PAIR)) == 12
  {
    var s := S.Init(PAIR);
    assert s.pcs == [S.SetStore, S.WaitFast];
    assert s.pcs[..1] == [S.SetStore] && s.pcs[..1][..0] == [];
    assert S.TotalCost(false, s.pcs[..1]) == 4;
  }

  lemma LocalCallCost(c: W.Config, f: State, id: nat, tag: W.Tag)
    requires Inv(c, f) && LocalStep(c, f, W.CallRpc(id, tag)).Some?
    requires Shape(c, LocalStep(c, f, W.CallRpc(id, tag)).value)
    ensures Potential(LocalStep(c, f, W.CallRpc(id, tag)).value) <= Potential(f) + 30
  {
    hide WI.LockInv, WI.RunInv, WI.JoinInv, WI.TermInv, WI.ErrorInv, WI.CallInv, WI.QueueInv, Protocols, Links;
    hide WorkCost, RunCost, TermsCost, Q.TotalLeft, SignalCost, QueueCost, CallsCost;
    var f' := LocalStep(c, f, W.CallRpc(id, tag)).value;
    NewCallCost();
    assert id !in Abs(f).calls;
    var ids := f.core.calls.Keys;
    assert f'.core.calls.Keys == ids + {id} && ids + {id} - {id} == ids;
    CallsSplit(ids + {id}, f'.core.calls, f.owners, f'.sigReady, id);
    CallsMove(ids, f.core.calls, f.owners, f.sigReady, f'.core.calls, f.owners, f'.sigReady, id, 0);
  }

  lemma LocalCosts(c: W.Config, f: State, a: W.Action)
    requires Inv(c, f) && LocalStep(c, f, a).Some?
    ensures Shape(c, LocalStep(c, f, a).value)
    ensures Potential(LocalStep(c, f, a).value) <= Potential(f) + Grant(Local(a))
  {
    hide Inv, LocalStep, Potential;
    ShapeOf(c, f);
    LocalShape(c, f, a);
    match a
    case Run => LocalRunCost(c, f);
    case Work => LocalWorkCost(c, f);
    case Terminate(i) => LocalTermCost(c, f, i);
    case CallRpc(id, tag) => LocalCallCost(c, f, id, tag);
    case _ => NotLocal(c, f, a);
  }

  lemma ShapeOf(c: W.Config, f: State)
    requires Inv(c, f)
    ensures Shape(c, f)
  {
  }

  // ----- A push or a pop begins

  lemma PushMore(pcs: seq<Q.Pc<W.Item>>, pc: Q.Pc<W.Item>)
    ensures Q.TotalLeft(pcs + [pc]) == Q.TotalLeft(pcs) + Q.Left(pc)
    ensures ToPush(pcs + [pc]) == ToPush(pcs) + if AQ.PhaseOf(pc).ToPush? then 1 else 0
    ensures Open(pcs + [pc]) <==> Open(pcs) || AQ.PhaseOf(pc).ToPop?
  {
    assert (pcs + [pc])[..|pcs|] == pcs;
    if Open(pcs) {
      var t :| 0 <= t < |pcs| && AQ.PhaseOf(pcs[t]).ToPop?;
      assert AQ.PhaseOf((pcs + [pc])[t]).ToPop?;
    }
    assert AQ.PhaseOf((pcs + [pc])[|pcs|]) == AQ.PhaseOf(pc);
  }

  /** A free worker has no pop open. */
  lemma FreeClosed(c: W.Config, f: State)
    requires Inv(c, f) && WorkerFree(c, f)
    ensures !Open(f.q.pcs)
  {
    hide WI.Inv, Links, S.Inv;
    forall t | 0 <= t < |f.q.pcs|
      ensures !AQ.PhaseOf(f.q.pcs[t]).ToPop?
    {
      assert Q.Fits(OpOf(f.owners[t]), f.q.pcs[t]);
    }
  }

  lemma BeginClients(c: W.Config, f: State, o: Owner)
    requires Inv(c, f) && MayBegin(c, f, o)
    ensures var f' := f.(owners := f.owners + [o]);
      ClientCost(f') <= ClientCost(f) - if o.ByTerm? || o.ByCaller? then PUSH else 0
  {
    hide WI.Inv, Links, Protocols, SignalCost, WorkerFree;
    var owners' := f.owners + [o];
    var ids := f.core.calls.Keys;
    match o
    case ByTerm(i) =>
      TermsMove(f.core.terms, f.owners, f.core.terms, owners', i, -PUSH);
      CallsMove(ids, f.core.calls, f.owners, f.sigReady, f.core.calls, owners', f.sigReady, 0, 0);
    case ByCaller(id, _) =>
      TermsSame(f.core.terms, f.owners, owners');
      CallsMove(ids, f.core.calls, f.owners, f.sigReady, f.core.calls, owners', f.sigReady, id, -PUSH);
    case _ =>
      TermsSame(f.core.terms, f.owners, owners');
      CallsMove(ids, f.core.calls, f.owners, f.sigReady, f.core.calls, owners', f.sigReady, 0, 0);
  }

  lemma BeginCosts(c: W.Config, f: State, o: Owner)
    requires Inv(c, f) && BeginStep(c, f, o).Some?
    ensures Shape(c, BeginStep(c, f, o).value)
    ensures Potential(BeginStep(c, f, o).value) <= Potential(f) + Grant(Begin(o))
  {
    hide WI.Inv, Links, Protocols, SignalCost, WorkerFree, ClientCost, Q.TotalLeft, ToPush, RunCost, Open;
    BeginShape(c, f, o);
    BeginClients(c, f, o);
    var f' := BeginStep(c, f, o).value;
    PushMore(f.q.pcs, Q.Start(OpOf(o)));
    assert ClientCost(f') == ClientCost(f.(owners := f.owners + [o])) by {
      SameCost(f.(owners := f.owners + [o]), f');
    }
    if o.ByWorker? {
      FreeClosed(c, f);
    }
  }

  lemma SameCost(f: State, f': State)
    requires f.sigReady.Keys == f.core.calls.Keys
    requires f'.core == f.core && f'.owners == f.owners && f'.sigReady == f.sigReady
    ensures ClientCost(f') == ClientCost(f)
  {
  }

  // ----- Steps of the queue

  lemma OpenSame(pcs: seq<Q.Pc<W.Item>>, pcs': seq<Q.Pc<W.Item>>)
    requires |pcs'| == |pcs|
    requires forall t :: 0 <= t < |pcs| ==> (AQ.PhaseOf(pcs'[t]).ToPop? <==> AQ.PhaseOf(pcs[t]).ToPop?)
    ensures Open(pcs') == Open(pcs)
  {
    if Open(pcs) {
      var t :| 0 <= t < |pcs| && AQ.PhaseOf(pcs[t]).ToPop?;
      assert AQ.PhaseOf(pcs'[t]).ToPop?;
    }
    if Open(pcs') {
      var t :| 0 <= t < |pcs| && AQ.PhaseOf(pcs'[t]).ToPop?;
      assert AQ.PhaseOf(pcs[t]).ToPop?;
    }
  }

  /** A push that has taken effect leaves its owner less to do. */
  lemma PushClients(core: W.State, o: Owner, item: W.Item, owners: seq<Owner>, ready: map<nat, S.State>)
    requires !o.ByWorker? && OwnerOk(core, o, Q.PushLink) && o in owners && ready.Keys == core.calls.Keys
    ensures var core' := Effect(core, o, item);
      && core'.calls.Keys == core.calls.Keys && core'.wpc == core.wpc && core'.rpc == core.rpc
      && TermsCost(core'.terms, owners) <= TermsCost(core.terms, owners)
      && CallsCost(core'.calls.Keys, core'.calls, owners, ready) <= CallsCost(core.calls.Keys, core.calls, owners, ready)
  {
    hide TermsCost, CallsCost, SignalCost;
    var core' := Effect(core, o, item);
    match o
    case ByTerm(i) => TermsMove(core.terms, owners, core'.terms, owners, i, 0);
    case BySender(_, _) =>
    case ByCaller(id, _) => CallsMove(core.calls.Keys, core.calls, owners, ready, core'.calls, owners, ready, id, 0);
  }

  lemma PopWork(core: W.State, item: W.Item)
    requires core.wpc.WPop?
    ensures var core' := Effect(core, ByWorker, item);
      WorkCost(core'.wpc, true) <= 13 && WorkCost(core'.wpc, false) <= 13 && core'.rpc == core.rpc && core'.terms == core.terms
  {
  }

  lemma PopCosts(c: W.Config, f: State, b: Q.Action)
    requires Inv(c, f) && QueueStep(c, f, b).Some? && AQ.Shows(f.q, b) && f.owners[b.t].ByWorker?
    ensures Shape(c, QueueStep(c, f, b).value)
    ensures Potential(QueueStep(c, f, b).value) <= Potential(f) - 1
  {
    hide Q.Step, Effect, WI.Inv, TermsOk, CallsOk, OwnersOk, RunOk, S.Inv, Clash, SameCalls, W.WorkStep;
    hide QueueCost, ClientCost, RunCost, SignalCost;
    QueueShape(c, f, b);
    AQ.OwnPhase(Ops(f.owners), f.q, b);
    QueueRefines(c, f, b);
    OwnerAt(f, b.t);
    assert Q.Fits(OpOf(f.owners[b.t]), f.q.pcs[b.t]);
    assert Open(f.q.pcs);
    WorkLinks(c, Abs(f));
    QueueCosts(Ops(f.owners), f.q, b);
    PopWork(f.core, ItemOf(f.q.items, f.owners[b.t]));
    SameClients(f, QueueStep(c, f, b).value);
  }

  lemma PushCosts(c: W.Config, f: State, b: Q.Action)
    requires Inv(c, f) && QueueStep(c, f, b).Some? && (AQ.Shows(f.q, b) ==> !f.owners[b.t].ByWorker?)
    ensures Shape(c, QueueStep(c, f, b).value)
    ensures Potential(QueueStep(c, f, b).value) <= Potential(f) + if b.Spurious? then 4 else -1
  {
    hide Q.Step, Effect, WI.Inv, TermsOk, CallsOk, OwnersOk, RunOk, S.Inv, Clash, SameCalls;
    hide QueueCost, WorkCost, RunCost, SignalCost, TermsCost, CallsCost, Open;
    QueueShape(c, f, b);
    AQ.OwnPhase(Ops(f.owners), f.q, b);
    QueueCosts(Ops(f.owners), f.q, b);
    var f' := QueueStep(c, f, b).value;
    assert Q.Fits(OpOf(f.owners[b.t]), f.q.pcs[b.t]);
    OpenSame(f.q.pcs, f'.q.pcs);
    if AQ.Shows(f.q, b) {
      OwnerAt(f, b.t);
      PushClients(f.core, f.owners[b.t], ItemOf(f.q.items, f.owners[b.t]), f.owners, f.sigReady);
    }
  }

  // ----- Steps of the signals

  lemma SignalCosts(ops: seq<S.Op>, s: S.State, b: S.Action)
    requires S.Inv(ops, s) && S.Step(ops, s, b).Some?
    ensures SignalCost(S.Step(ops, s, b).value) <= SignalCost(s) + if b.Spurious? then 3 else -1
  {
    S.TotalMoves(ops, s, b);
  }

  lemma RunningCosts(c: W.Config, f: State, b: S.Action)
    requires Inv(c, f) && RunningStep(c, f, b).Some?
    ensures Shape(c, RunningStep(c, f, b).value)
    ensures Potential(RunningStep(c, f, b).value) <= Potential(f) + Grant(OnRunning(b))
  {
    hide S.Step, S.Inv, WI.Inv, TermsOk, CallsOk, OwnersOk, WorkerFree, AL.ActionOf, SameCalls;
    hide QueueCost, SignalCost, ClientCost, Open;
    RunningShape(c, f, b);
    SignalMoves(PAIR, f.sigRunning, b);
    SignalCosts(PAIR, f.sigRunning, b);
    CallsAlone(f.core.calls);
    SameClients(f, RunningStep(c, f, b).value);
  }

  lemma TerminatedCosts(c: W.Config, f: State, b: S.Action)
    requires Inv(c, f) && TerminatedStep(c, f, b).Some?
    ensures Shape(c, TerminatedStep(c, f, b).value)
    ensures Potential(TerminatedStep(c, f, b).value) <= Potential(f) + Grant(OnTerminated(b))
  {
    hide S.Step, S.Inv, WI.Inv, CallsOk, OwnersOk, WorkerFree, TermFree, AL.ActionOf, SameCalls, RunOk;
    hide QueueCost, SignalCost, Open, RunCost, TermsCost, CallsCost;
    TerminatedShape(c, f, b);
    TerminatedIndex(c, f, b);
    SignalMoves(TermOps(c.nterms), f.sigTerminated, b);
    SignalCosts(TermOps(c.nterms), f.sigTerminated, b);
    var core' := TerminatedStep(c, f, b).value.core;
    if b.t > 0 && AL.ActionOf(f.sigTerminated, b).Some? {
      assert TermOk(f.core.terms[b.t - 1], f.sigTerminated.pcs[b.t]);
      TermsMove(f.core.terms, f.owners, core'.terms, f.owners, b.t - 1, 0);
    }
  }

  lemma ReadyCosts(c: W.Config, f: State, id: nat, b: S.Action)
    requires Inv(c, f) && ReadyStep(c, f, id, b).Some?
    ensures Shape(c, ReadyStep(c, f, id, b).value)
    ensures Potential(ReadyStep(c, f, id, b).value) <= Potential(f) + Grant(OnReady(id, b))
  {
    hide S.Step, S.Inv, WI.Inv, TermsOk, OwnersOk, AL.ActionOf, RunOk, ReadyStep, Q.Inv;
    hide QueueCost, SignalCost, Open, RunCost, TermsCost, CallsCost, SignalMove;
    ReadyShape(c, f, id, b);
    ReadyIndex(c, f, id, b);
    ReadySide(c, f, id, b);
    ReadyCalls(c, f, id, b);
    ReadyFrame(c, f, id, b);
    ReadyWork(c, f, id, b);
    SignalCosts(PAIR, f.sigReady[id], b);
    var f' := ReadyStep(c, f, id, b).value;
    assert f'.core.calls.Keys == f.core.calls.Keys;
    CallsMove(f.core.calls.Keys, f.core.calls, f.owners, f.sigReady, f'.core.calls, f.owners, f'.sigReady, id,
              if b.Spurious? then 3 else -1);
  }

  lemma ReadyWork(c: W.Config, f: State, id: nat, b: S.Action)
    requires Inv(c, f) && ReadyStep(c, f, id, b).Some?
    ensures id in f.core.calls
    ensures var f' := ReadyStep(c, f, id, b).value;
      && id in f'.core.calls && id in f'.sigReady && S.Step(PAIR, f.sigReady[id], b) == Some(f'.sigReady[id])
      && (f'.core.wpc == f.core.wpc || (f.core.wpc.WReady? && f'.core.wpc.WPop?))
      && f'.core.calls[id].tag == f.core.calls[id].tag
      && (f'.core.calls[id].stage.Called? ==> f.core.calls[id].stage.Called?)
  {
    hide S.Step, S.Inv, WI.Inv, TermsOk, OwnersOk, WorkerFree, CallerFree, AL.ActionOf, RunOk, CallsOk;
    ReadyIndex(c, f, id, b);
    SignalMoves(PAIR, f.sigReady[id], b);
  }

  // ----- Main result

  lemma StepCosts(c: W.Config, f: State, a: Action)
    requires Inv(c, f) && Step(c, f, a).Some?
    ensures Shape(c, Step(c, f, a).value)
    ensures Potential(Step(c, f, a).value) <= Potential(f) + Grant(a)
  {
    hide Protocols, Links, WI.Inv, LocalStep, BeginStep, QueueStep, RunningStep, TerminatedStep, ReadyStep, Potential;
    match a
    case Local(b) => LocalCosts(c, f, b);
    case Begin(o) => BeginCosts(c, f, o);
    case OnQueue(b) =>
      QueueIndex(c, f, b);
      if AQ.Shows(f.q, b) && f.owners[b.t].ByWorker? {
        PopCosts(c, f, b);
        assert !b.Spurious?;
      } else {
        PushCosts(c, f, b);
      }
    case OnRunning(b) => RunningCosts(c, f, b);
    case OnTerminated(b) => TerminatedCosts(c, f, b);
    case OnReady(id, b) => ReadyCosts(c, f, id, b);
  }

  /** Calls and messages that clients start, and spurious wakeups. */
  predicate StartsNew(a: Action) {
    (a.Local? && a.a.CallRpc?) || (a.Begin? && a.o.BySender?)
  }

  predicate IsSpurious(a: Action) {
    match a
    case OnQueue(b) => b.Spurious?
    case OnRunning(b) => b.Spurious?
    case OnTerminated(b) => b.Spurious?
    case OnReady(_, b) => b.Spurious?
    case _ => false
  }

  function News(acts: seq<Action>): nat {
    if acts == [] then 0 else News(acts[..|acts| - 1]) + if StartsNew(acts[|acts| - 1]) then 1 else 0
  }

  function Spurious(acts: seq<Action>): nat {
    if acts == [] then 0 else Spurious(acts[..|acts| - 1]) + if IsSpurious(acts[|acts| - 1]) then 1 else 0
  }

  lemma {:induction false} TermsAtStart(n: nat)
    ensures TermsCost(seq(n, i => W.TIdle), []) == 24 * n
  {
    if n > 0 {
      assert seq(n, i => W.TIdle)[..n - 1] == seq(n - 1, i => W.TIdle);
      TermsAtStart(n - 1);
    }
  }

  lemma StartPotential(c: W.Config)
    ensures Potential(Init(c)) <= 35 + 32 * c.nterms
  {
    hide SignalCost, S.TotalCost;
    var f := Init(c);
    NewCallCost();
    TermsAtStart(c.nterms);
    TerminatedAtStart(c.nterms);
    assert Q.Init<W.Item>([]).pcs == [];
    assert !Open(f.q.pcs);
    assert f.core.calls.Keys == {};
  }

  lemma {:induction false} WaitersAtStart(n: nat, k: nat)
    requires k <= n
    ensures S.TotalCost(false, S.Init(TermOps(n)).pcs[..k + 1]) == 4 + 8 * k
  {
    var pcs := S.Init(TermOps(n)).pcs;
    if k > 0 {
      WaitersAtStart(n, k - 1);
      assert pcs[..k + 1][..k] == pcs[..k];
    } else {
      assert pcs[..1] == [S.SetStore] && pcs[..1][..0] == [];
    }
  }

  lemma TerminatedAtStart(n: nat)
    ensures SignalCost(S.Init(TermOps(n))) == 4 + 8 * n
  {
    WaitersAtStart(n, n);
    assert S.Init(TermOps(n)).pcs[..n + 1] == S.Init(TermOps(n)).pcs;
  }

  lemma {:induction false} Spent(c: W.Config, acts: seq<Action>)
    requires Run(c, acts).Some?
    ensures |acts| - News(acts) - Spurious(acts) + Potential(Run(c, acts).value)
         <= 35 + 32 * c.nterms + 30 * News(acts) + 4 * Spurious(acts)
    decreases |acts|
  {
    hide Inv, Step, Potential;
    if acts == [] {
      StartPotential(c);
    } else {
      var before := acts[..|acts| - 1];
      Spent(c, before);
      RunInv(c, before);
      StepCosts(c, Run(c, before).value, acts[|acts| - 1]);
    }
  }

  /**
   Every schedule comes to rest, and well. Besides what clients start and spurious wakeups, a run has at
   most 35 steps, 32 for each terminator, 30 for each new message or call, and 4 for each spurious wakeup.
   When no step is owed, run and every terminate have returned, every push is complete, and so is every
   rpc pushed ahead of the first NULL if on_init succeeds; every message sent and every rpc called has been
   pushed, with the tag it was given.
   */
  lemma ComesToRest(c: W.Config, acts: seq<Action>)
    requires Run(c, acts).Some?
    ensures |acts| - News(acts) - Spurious(acts) <= 35 + 32 * c.nterms + 30 * News(acts) + 4 * Spurious(acts)
    ensures var f := Run(c, acts).value; var s := Abs(f);
      !CanMove(c, f) ==>
        && L.Settled(s)
        && (forall t :: 0 <= t < |f.owners| && !f.owners[t].ByWorker? ==> f.q.pcs[t].Pushed?)
        && (forall id, tag :: Begin(BySender(id, tag)) in acts ==> W.Msg(id, tag) in s.pushed)
        && (forall id, tag :: Local(W.CallRpc(id, tag)) in acts ==> W.Rpc(id, tag) in s.pushed)
        && (forall k :: 0 <= k < |s.pushed| && s.pushed[k].Rpc? && WI.InitResult(c) == 0 && W.Null !in s.pushed[..k] ==>
              R.Returned(s, s.pushed[k].id))
  {
    Spent(c, acts);
    if !CanMove(c, Run(c, acts).value) {
      AtRest(c, acts);
    }
  }
}
