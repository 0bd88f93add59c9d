/**
 The worker of module Worker with its real queue and its real signals: each push, pop, set and wait is
 the protocol of tecc_queue.c and tecc_signal.c, one atomic step at a time, with their mutexes,
 condition variables and spurious wakeups, interleaved with everything else.

 `core` holds what belongs to nobody's queue or signal; its fields `queue`, `running` and `terminated`
 are never read. Every call of push and pop has an index into `owners`, new ones as they begin; a
 signal's thread 0 is the worker that sets it, the others wait.
 */
module Composed {
  import opened Options
  import W = Worker
  import WI = WorkerInvariant
  import Q = QueueProtocol
  import S = Signal
  import AQ = AtomicQueue
  import AL = AtomicLatch

  datatype Owner =
    | ByWorker | ByTerm(i: nat) | BySender(id: nat, tag: W.Tag) | ByCaller(id: nat, tag: W.Tag)

  datatype State = State(
    core: W.State, owners: seq<Owner>, q: Q.State<W.Item>,
    sigRunning: S.State, sigTerminated: S.State, sigReady: map<nat, S.State>)

  datatype Action =
    | Local(a: W.Action) | Begin(o: Owner) | OnQueue(move: Q.Action)
    | OnRunning(b: S.Action) | OnTerminated(b: S.Action) | OnReady(id: nat, b: S.Action)

  function OpOf(o: Owner): Q.Op<W.Item> {
    match o
    case ByWorker => Q.Pop
    case ByTerm(_) => Q.Push(W.Null)
    case BySender(id, tag) => Q.Push(W.Msg(id, tag))
    case ByCaller(id, tag) => Q.Push(W.Rpc(id, tag))
  }

  function Ops(owners: seq<Owner>): (ops: seq<Q.Op<W.Item>>)
    ensures |ops| == |owners|
  {
    seq(|owners|, t requires 0 <= t < |owners| => OpOf(owners[t]))
  }

  /** One setter, one waiter. */
  const PAIR: seq<S.Op> := [S.Set, S.Wait]

  function TermOps(n: nat): (ops: seq<S.Op>)
    ensures |ops| == n + 1
  {
    seq(n + 1, t => if t == 0 then S.Set else S.Wait)
  }

  function Init(c: W.Config): State {
    State(W.Init(c), [], Q.Init([]), S.Init(PAIR), S.Init(TermOps(c.nterms)), map[])
  }

  /** The sizes fit together. */
  ghost predicate Shape(c: W.Config, f: State) {
    && |f.q.pcs| == |f.owners| && |f.sigRunning.pcs| == 2
    && |f.core.terms| == c.nterms && |f.sigTerminated.pcs| == c.nterms + 1
    && f.sigReady.Keys == f.core.calls.Keys && (forall id :: id in f.sigReady ==> |f.sigReady[id].pcs| == 2)
  }

  // ----- Who may go on

  /** Outside a call of set or wait. */
  predicate Outside(pc: S.Pc) {
    pc.SetStore? || pc.WaitFast? || pc.Done?
  }

  /** The worker thread has returned from every pop and set it has called. */
  ghost predicate WorkerFree(c: W.Config, f: State)
    requires Shape(c, f)
  {
    && Outside(f.sigRunning.pcs[0]) && Outside(f.sigTerminated.pcs[0])
    && (forall id :: id in f.sigReady ==> Outside(f.sigReady[id].pcs[0]))
    && (forall t :: 0 <= t < |f.owners| && f.owners[t].ByWorker? ==> f.q.pcs[t].Popped?)
  }

  /** The push of terminator `i`, if it has called it, has returned. */
  ghost predicate TermFree(c: W.Config, f: State, i: nat)
    requires Shape(c, f)
  {
    forall t :: 0 <= t < |f.owners| && f.owners[t] == ByTerm(i) ==> f.q.pcs[t].Pushed?
  }

  ghost predicate CallerFree(c: W.Config, f: State, id: nat)
    requires Shape(c, f)
  {
    forall t :: 0 <= t < |f.owners| && f.owners[t].ByCaller? && f.owners[t].id == id ==> f.q.pcs[t].Pushed?
  }

  /** A send under way has taken the id. */
  ghost predicate Taken(f: State, id: nat) {
    exists t :: 0 <= t < |f.owners| && f.owners[t].BySender? && f.owners[t].id == id
  }

  /** A join waits until the thread has left its last call, the set of sig_terminated. */
  predicate CanJoin(c: W.Config, f: State)
    requires |f.sigTerminated.pcs| == c.nterms + 1
  {
    f.core.joinable ==> Outside(f.sigTerminated.pcs[0])
  }

  /** A step that neither sets nor waits nor uses the queue, of a thread that is not inside such a call. */
  ghost predicate IsLocal(c: W.Config, f: State, a: W.Action)
    requires Shape(c, f)
  {
    match a
    case Run => !f.core.rpc.RWait? && Outside(f.sigRunning.pcs[1]) && (f.core.rpc.RJoin? ==> CanJoin(c, f))
    case Work =>
      !f.core.wpc.WSetRunning? && !f.core.wpc.WSetTerm? && !f.core.wpc.WPop? && !f.core.wpc.WReady? && WorkerFree(c, f)
    case Terminate(i) =>
      && i < c.nterms && !f.core.terms[i].TPush? && !f.core.terms[i].TWait?
      && Outside(f.sigTerminated.pcs[i + 1]) && (f.core.terms[i].TJoin? ==> CanJoin(c, f))
    case CallRpc(id, _) => !Taken(f, id)
    case _ => false
  }

  ghost predicate MayBegin(c: W.Config, f: State, o: Owner)
    requires Shape(c, f)
  {
    match o
    case ByWorker => f.core.wpc.WPop? && WorkerFree(c, f)
    case ByTerm(i) => i < c.nterms && f.core.terms[i].TPush? && o !in f.owners
    case BySender(id, _) => id !in f.core.used && !Taken(f, id)
    case ByCaller(id, tag) =>
      id in f.core.calls && f.core.calls[id].stage.Called? && f.core.calls[id].tag == tag && o !in f.owners
  }

  ghost predicate MayRunning(c: W.Config, f: State, t: nat)
    requires Shape(c, f)
  {
    && (t == 0 && f.sigRunning.pcs[0].SetStore? ==> f.core.wpc.WSetRunning? && WorkerFree(c, f))
    && (t == 1 && f.sigRunning.pcs[1].WaitFast? ==> f.core.rpc.RWait?)
  }

  ghost predicate MayTerminated(c: W.Config, f: State, t: nat)
    requires Shape(c, f)
  {
    && (t == 0 && f.sigTerminated.pcs[0].SetStore? ==> f.core.wpc.WSetTerm? && WorkerFree(c, f))
    && (0 < t <= c.nterms && f.sigTerminated.pcs[t].WaitFast? ==> f.core.terms[t - 1].TWait? && TermFree(c, f, t - 1))
  }

  ghost predicate MayReady(c: W.Config, f: State, id: nat, t: nat)
    requires Shape(c, f) && id in f.sigReady
  {
    && (t == 0 && f.sigReady[id].pcs[0].SetStore? ==>
          f.core.wpc.WReady? && W.Rpc(id, f.core.calls[id].tag) == f.core.wpc.item && WorkerFree(c, f))
    && (t == 1 && f.sigReady[id].pcs[1].WaitFast? ==> !f.core.calls[id].stage.Called? && CallerFree(c, f, id))
  }

  // ----- What the steps that take effect do to the rest

  /** The push of `o` has linked its node, or the pop has taken `item`. */
  function Effect(core: W.State, o: Owner, item: W.Item): W.State {
    match o
    case ByWorker => W.PopStep(core.(queue := [item])).value
    case ByTerm(i) =>
      if i < |core.terms| then Linked(core, item).(terms := core.terms[i := W.TWait]) else core
    case BySender(id, _) => W.Note(Linked(core, item), W.Sent(id)).(used := core.used + {id})
    case ByCaller(id, _) =>
      if id in core.calls
      then W.SetCall(W.Note(Linked(core, item), W.Sent(id)), id, core.calls[id].(stage := W.Queued))
      else core
  }

  /** What a push of `o` links, or its pop takes. */
  function ItemOf(items: seq<W.Item>, o: Owner): W.Item {
    match OpOf(o)
    case Push(item) => item
    case Pop => if items == [] then W.Null else items[0]
  }

  function Linked(core: W.State, item: W.Item): W.State {
    core.(pushed := core.pushed + [item])
  }

  function RunningEffect(core: W.State, t: nat): W.State {
    if t == 0 then core.(wpc := W.WTest) else core.(rpc := W.RCheck)
  }

  function TerminatedEffect(core: W.State, t: nat): W.State
    requires t <= |core.terms|
  {
    if t == 0 then core.(wpc := W.WDone) else core.(terms := core.terms[t - 1 := W.TJoin])
  }

  function ReadyEffect(core: W.State, id: nat, t: nat): W.State
    requires id in core.calls
  {
    var k := core.calls[id];
    if t == 0 then W.SetCall(W.Note(core, W.Readied(id)), id, k.(stage := W.Ready)).(wpc := W.WPop)
    else W.SetCall(W.Note(core, W.Returning(id, k.reply, k.error)), id, k.(stage := W.Returned))
  }

  // ----- Steps

  ghost function LocalStep(c: W.Config, f: State, a: W.Action): Option<State>
    requires Shape(c, f)
  {
    if !IsLocal(c, f, a) then None
    else match W.Step(c, f.core, a)
      case None => None
      case Some(core) =>
        Some(f.(core := core, sigReady := if a.CallRpc? then f.sigReady[a.id := S.Init(PAIR)] else f.sigReady))
  }

  ghost function BeginStep(c: W.Config, f: State, o: Owner): Option<State>
    requires Shape(c, f)
  {
    if !MayBegin(c, f, o) then None
    else Some(f.(owners := f.owners + [o], q := f.q.(pcs := f.q.pcs + [Q.Start(OpOf(o))])))
  }

  ghost function QueueStep(c: W.Config, f: State, b: Q.Action): Option<State>
    requires Shape(c, f)
  {
    var q :- Q.Step(Ops(f.owners), f.q, b);
    if !AQ.Shows(f.q, b) then Some(f.(q := q))
    else
      var o := f.owners[b.t];
      Some(f.(q := q, core := Effect(f.core, o, ItemOf(f.q.items, o))))
  }

  ghost function RunningStep(c: W.Config, f: State, b: S.Action): Option<State>
    requires Shape(c, f)
  {
    if !MayRunning(c, f, b.t) then None
    else
      var sig :- S.Step(PAIR, f.sigRunning, b);
      Some(f.(sigRunning := sig,
              core := if AL.ActionOf(f.sigRunning, b).Some? then RunningEffect(f.core, b.t) else f.core))
  }

  ghost function TerminatedStep(c: W.Config, f: State, b: S.Action): Option<State>
    requires Shape(c, f)
  {
    if !MayTerminated(c, f, b.t) then None
    else
      var sig :- S.Step(TermOps(c.nterms), f.sigTerminated, b);
      Some(f.(sigTerminated := sig,
              core := if AL.ActionOf(f.sigTerminated, b).Some? then TerminatedEffect(f.core, b.t) else f.core))
  }

  ghost function ReadyStep(c: W.Config, f: State, id: nat, b: S.Action): Option<State>
    requires Shape(c, f)
  {
    if id !in f.sigReady || !MayReady(c, f, id, b.t) then None
    else
      var sig :- S.Step(PAIR, f.sigReady[id], b);
      Some(f.(sigReady := f.sigReady[id := sig],
              core := if AL.ActionOf(f.sigReady[id], b).Some? then ReadyEffect(f.core, id, b.t) else f.core))
  }

  ghost function Step(c: W.Config, f: State, a: Action): Option<State>
    requires Shape(c, f)
  {
    match a
    case Local(b) => LocalStep(c, f, b)
    case Begin(o) => BeginStep(c, f, o)
    case OnQueue(b) => QueueStep(c, f, b)
    case OnRunning(b) => RunningStep(c, f, b)
    case OnTerminated(b) => TerminatedStep(c, f, b)
    case OnReady(id, b) => ReadyStep(c, f, id, b)
  }

  lemma StepKeepsShape(c: W.Config, f: State, a: Action)
    requires Shape(c, f) && Step(c, f, a).Some?
    ensures Shape(c, Step(c, f, a).value)
  {
    hide Shape, LocalStep, BeginStep, QueueStep, RunningStep, TerminatedStep, ReadyStep;
    match a
    case Local(b) => LocalShape(c, f, b);
    case Begin(o) => BeginShape(c, f, o);
    case OnQueue(b) => QueueShape(c, f, b);
    case OnRunning(b) => RunningShape(c, f, b);
    case OnTerminated(b) => TerminatedShape(c, f, b);
    case OnReady(id, b) => ReadyShape(c, f, id, b);
  }

  lemma LocalShape(c: W.Config, f: State, a: W.Action)
    requires Shape(c, f) && LocalStep(c, f, a).Some?
    ensures Shape(c, LocalStep(c, f, a).value)
  {
    hide W.Step, WorkerFree, Outside, Taken;
    StepKeeps(c, f.core, a);
  }

  /** A local step keeps the number of terminators, and the calls but for a new one. */
  lemma StepKeeps(c: W.Config, s: W.State, a: W.Action)
    requires W.Step(c, s, a).Some?
    requires match a case Run => true case Work => true case Terminate(i) => i < |s.terms| && !s.terms[i].TPush?
             case CallRpc(_, _) => true case _ => false
    ensures var s' := W.Step(c, s, a).value;
      |s'.terms| == |s.terms| && s'.calls.Keys == s.calls.Keys + if a.CallRpc? then {a.id} else {}
  {
    hide W.RunStep, W.WorkStep, W.TermStep;
    match a
    case Run => WI.RunFrame(c, s); RunTerms(c, s);
    case Work => WI.WorkKeepsFrame(c, s);
    case Terminate(i) => WI.TermLocks(c, s, i); WI.TermFrame(c, s, i);
    case _ =>
  }

  lemma RunTerms(c: W.Config, s: W.State)
    requires W.RunStep(c, s).Some?
    ensures W.RunStep(c, s).value.terms == s.terms
  {
  }

  lemma BeginShape(c: W.Config, f: State, o: Owner)
    requires Shape(c, f) && BeginStep(c, f, o).Some?
    ensures Shape(c, BeginStep(c, f, o).value)
  {
    hide MayBegin;
  }

  lemma QueueShape(c: W.Config, f: State, b: Q.Action)
    requires Shape(c, f) && QueueStep(c, f, b).Some?
    ensures Shape(c, QueueStep(c, f, b).value)
  {
    AQ.StepRefines(Ops(f.owners), f.q, b);
    hide Q.Step, Effect;
    if AQ.Shows(f.q, b) {
      EffectKeeps(f.core, f.owners[b.t], ItemOf(f.q.items, f.owners[b.t]));
    }
  }

  lemma EffectKeeps(core: W.State, o: Owner, item: W.Item)
    ensures var s := Effect(core, o, item); |s.terms| == |core.terms| && s.calls.Keys == core.calls.Keys
  {
  }

  lemma SignalSize(ops: seq<S.Op>, s: S.State, b: S.Action)
    requires |ops| == |s.pcs| && S.Step(ops, s, b).Some?
    ensures b.t < |s.pcs| == |S.Step(ops, s, b).value.pcs|
  {
    S.OthersAfter(ops, s, b);
  }

  lemma RunningShape(c: W.Config, f: State, b: S.Action)
    requires Shape(c, f) && RunningStep(c, f, b).Some?
    ensures Shape(c, RunningStep(c, f, b).value)
  {
    SignalSize(PAIR, f.sigRunning, b);
    hide S.Step, MayRunning;
  }

  lemma TerminatedShape(c: W.Config, f: State, b: S.Action)
    requires Shape(c, f) && TerminatedStep(c, f, b).Some?
    ensures Shape(c, TerminatedStep(c, f, b).value)
  {
    SignalSize(TermOps(c.nterms), f.sigTerminated, b);
    hide S.Step, MayTerminated;
  }

  lemma ReadyShape(c: W.Config, f: State, id: nat, b: S.Action)
    requires Shape(c, f) && ReadyStep(c, f, id, b).Some?
    ensures Shape(c, ReadyStep(c, f, id, b).value)
  {
    SignalSize(PAIR, f.sigReady[id], b);
    hide S.Step, MayReady;
  }

  ghost function Run(c: W.Config, acts: seq<Action>): (r: Option<State>)
    ensures r.Some? ==> Shape(c, r.value)
  {
    if acts == [] then Some(Init(c))
    else match Run(c, acts[..|acts| - 1])
      case None => None
      case Some(m) => StepIn(c, m, acts[|acts| - 1])
  }

  ghost function StepIn(c: W.Config, f: State, a: Action): (r: Option<State>)
    requires Shape(c, f)
    ensures r == Step(c, f, a) && (r.Some? ==> Shape(c, r.value))
  {
    var r := Step(c, f, a);
    (if r.Some? then StepKeepsShape(c, f, a); r else r)
  }
}
