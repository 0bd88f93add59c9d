/**
 What the log of a worker run looks like: the worker thread's own events against a sequential
 program over the pushed items, and the events of one message or rpc against its life story.
 */
module WorkerLog {
  import opened Options
  import opened Worker
  import opened WorkerInvariant

  // ----- The sequential program

  /** Everything the loop does with one item. */
  function ItemTrace(c: Config, item: Item): seq<Event> {
    match item
    case Null => []
    case Msg(id, tag) =>
      if tag in c.registered then [Dispatched(id), Began(id), Ended(id), Freed(id)] else [Dispatched(id), Freed(id)]
    case Rpc(id, tag) =>
      if tag in c.registered then [Dispatched(id), Began(id), Ended(id), Readied(id)] else [Dispatched(id), Readied(id)]
  }

  function Flat(c: Config, items: seq<Item>): seq<Event> {
    if items == [] then [] else Flat(c, items[..|items| - 1]) + ItemTrace(c, items[|items| - 1])
  }

  /** The items ahead of the first NULL. */
  function AheadOfNull(items: seq<Item>): (r: seq<Item>)
    ensures |r| <= |items| && r == items[..|r|] && Null !in r
    ensures |r| < |items| ==> items[|r|] == Null
  {
    if items == [] || items[0] == Null then [] else [items[0]] + AheadOfNull(items[1..])
  }

  function InitTrace(c: Config): seq<Event> {
    if c.onInit.Some? then [Inited(c.onInit.value)] else []
  }

  function ExitTrace(c: Config): seq<Event> {
    if InitResult(c) == 0 && c.onExit.Some? then [Exited(c.onExit.value)] else []
  }

  /** The whole worker thread as a sequential program over the items in push order. */
  function SequentialTrace(c: Config, items: seq<Item>): seq<Event> {
    if InitResult(c) != 0 then InitTrace(c)
    else if Null in items then InitTrace(c) + Flat(c, AheadOfNull(items)) + ExitTrace(c)
    else InitTrace(c) + Flat(c, items)
  }

  // ----- Projections of the log

  predicate OnWorkerThread(e: Event) {
    !e.Calling? && !e.Sent? && !e.Returning?
  }

  function OfWorker(log: seq<Event>): seq<Event> {
    if log == [] then []
    else OfWorker(log[..|log| - 1]) + if OnWorkerThread(log[|log| - 1]) then [log[|log| - 1]] else []
  }

  predicate About(e: Event, id: nat) {
    !e.Inited? && !e.Exited? && e.id == id
  }

  /** The events of the message or rpc `id`, in the order they happened. */
  function OfId(log: seq<Event>, id: nat): seq<Event> {
    if log == [] then []
    else OfId(log[..|log| - 1], id) + if About(log[|log| - 1], id) then [log[|log| - 1]] else []
  }

  lemma OfWorkerAfter(log: seq<Event>, e: Event)
    ensures OfWorker(log + [e]) == if OnWorkerThread(e) then OfWorker(log) + [e] else OfWorker(log)
  {
    assert (log + [e])[..|log|] == log;
  }

  lemma OfIdAfter(log: seq<Event>, e: Event, id: nat)
    ensures OfId(log + [e], id) == if About(e, id) then OfId(log, id) + [e] else OfId(log, id)
  {
    assert (log + [e])[..|log|] == log;
  }

  /** What the thread has logged when it is back at the pop after `items`. */
  function Prog(c: Config, items: seq<Item>): seq<Event> {
    InitTrace(c) + Flat(c, items)
  }

  lemma ProgAfter(c: Config, items: seq<Item>, item: Item)
    ensures Prog(c, items + [item]) == Prog(c, items) + ItemTrace(c, item)
  {
    assert (items + [item])[..|items|] == items;
    assert Flat(c, items + [item]) == Flat(c, items) + ItemTrace(c, item);
    Associative(InitTrace(c), Flat(c, items), ItemTrace(c, item));
  }

  lemma PrefixTransitive<T>(x: seq<T>, y: seq<T>, z: seq<T>)
    requires x <= y <= z
    ensures x <= z
  {
  }

  /** More items only make the trace longer. */
  lemma {:induction false} ProgGrows(c: Config, items: seq<Item>, k: nat)
    requires k <= |items|
    ensures Prog(c, items[..k]) <= Prog(c, items)
  {
    if k == |items| {
      assert items[..k] == items;
    } else {
      var less := items[..|items| - 1];
      ProgGrows(c, less, k);
      assert less[..k] == items[..k];
      ProgAfter(c, less, items[|items| - 1]);
      assert items == less + [items[|items| - 1]];
      PrefixTransitive(Prog(c, items[..k]), Prog(c, less), Prog(c, items));
    }
  }

  // ----- The worker thread's events

  /** What has been logged of the item in hand. */
  function SoFar(c: Config, p: WPc): seq<Event> {
    match p
    case WGot(item) => if item.Null? then [] else [Dispatched(item.id)]
    case WLookup(item) => if item.Null? then [] else [Dispatched(item.id)]
    case WRunning(item) => if item.Null? then [] else [Dispatched(item.id), Began(item.id)]
    case WFree(item) =>
      if item.Null? then [] else if item.tag in c.registered then [Dispatched(item.id), Began(item.id), Ended(item.id)]
      else [Dispatched(item.id)]
    case WReady(item) =>
      if item.Null? then [] else if item.tag in c.registered then [Dispatched(item.id), Began(item.id), Ended(item.id)]
      else [Dispatched(item.id)]
    case _ => []
  }

  function Expected(c: Config, popped: seq<Item>, p: WPc): seq<Event> {
    if p.WNone? || p.WStart? || p.WIniting? then []
    else if Busy(p) && popped != [] then Prog(c, popped[..|popped| - 1]) + SoFar(c, p)
    else if p.WSetTerm? || p.WDone? then Prog(c, popped) + ExitTrace(c)
    else Prog(c, popped)
  }

  ghost predicate ThreadInv(c: Config, s: State) {
    OfWorker(s.log) == Expected(c, s.popped, s.wpc)
  }

  /** The event a busy step logs, if any. */
  function BusyEvent(c: Config, p: WPc): seq<Event>
    requires Busy(p) && !p.item.Null?
  {
    match p
    case WGot(item) => if item.Msg? && item.tag in c.registered then [Began(item.id)] else []
    case WLookup(item) => if item.tag in c.registered then [Began(item.id)] else []
    case WRunning(item) => [Ended(item.id)]
    case WFree(item) => [Freed(item.id)]
    case WReady(item) => [Readied(item.id)]
  }

  lemma BusyLogs(c: Config, s: State)
    requires QueueInv(c, s) && Busy(s.wpc) && WorkStep(c, s).Some?
    ensures !s.wpc.item.Null?
    ensures var s' := WorkStep(c, s).value; var e := BusyEvent(c, s.wpc);
      && s'.log == s.log + e && s'.popped == s.popped
      && (if s'.wpc.WPop? then SoFar(c, s.wpc) + e == ItemTrace(c, s.wpc.item)
          else Busy(s'.wpc) && s'.wpc.item == s.wpc.item && SoFar(c, s.wpc) + e == SoFar(c, s'.wpc))
  {
    if s.wpc.item.Msg? {
      MsgLogs(c, s, s.wpc.item.id, s.wpc.item.tag);
    } else {
      RpcLogs(c, s, s.wpc.item.id, s.wpc.item.tag);
    }
  }

  lemma MsgLogs(c: Config, s: State, id: nat, tag: Tag)
    requires QueueInv(c, s) && Busy(s.wpc) && s.wpc.item == Msg(id, tag) && OnMsg(c, s, id, tag).Some?
    ensures var s' := OnMsg(c, s, id, tag).value; var e := BusyEvent(c, s.wpc);
      && s'.log == s.log + e && s'.popped == s.popped
      && (if s'.wpc.WPop? then SoFar(c, s.wpc) + e == ItemTrace(c, s.wpc.item)
          else Busy(s'.wpc) && s'.wpc.item == s.wpc.item && SoFar(c, s.wpc) + e == SoFar(c, s'.wpc))
  {
  }

  lemma RpcLogs(c: Config, s: State, id: nat, tag: Tag)
    requires QueueInv(c, s) && Busy(s.wpc) && s.wpc.item == Rpc(id, tag) && OnRpc(c, s, id, tag).Some?
    ensures var s' := OnRpc(c, s, id, tag).value; var e := BusyEvent(c, s.wpc);
      && s'.log == s.log + e && s'.popped == s.popped
      && (if s'.wpc.WPop? then SoFar(c, s.wpc) + e == ItemTrace(c, s.wpc.item)
          else Busy(s'.wpc) && s'.wpc.item == s.wpc.item && SoFar(c, s.wpc) + e == SoFar(c, s'.wpc))
  {
  }

  lemma BusyKeepsThread(c: Config, s: State)
    requires ThreadInv(c, s) && QueueInv(c, s) && Busy(s.wpc) && WorkStep(c, s).Some?
    ensures ThreadInv(c, WorkStep(c, s).value)
  {
    hide WorkStep, SoFar, ItemTrace, Prog, Flat, OfWorker, Expected, BusyEvent;
    BusyLogs(c, s);
    BusyAppends(c, s.log, s.wpc);
    ThreadAppends(c, s, WorkStep(c, s).value, BusyEvent(c, s.wpc));
  }

  /** What a busy step logs is the worker thread's. */
  lemma BusyAppends(c: Config, log: seq<Event>, p: WPc)
    requires Busy(p) && !p.item.Null?
    ensures OfWorker(log + BusyEvent(c, p)) == OfWorker(log) + BusyEvent(c, p)
  {
    hide OfWorker;
    var e := BusyEvent(c, p);
    if e != [] {
      assert e == [e[0]];
      OfWorkerAfter(log, e[0]);
    } else {
      assert log + e == log && OfWorker(log) + e == OfWorker(log);
    }
  }

  lemma ThreadAppends(c: Config, s: State, s': State, e: seq<Event>)
    requires ThreadInv(c, s) && Busy(s.wpc) && s.popped != [] && s.wpc.item == s.popped[|s.popped| - 1]
    requires s'.popped == s.popped && OfWorker(s'.log) == OfWorker(s.log) + e
    requires if s'.wpc.WPop? then SoFar(c, s.wpc) + e == ItemTrace(c, s.wpc.item)
             else Busy(s'.wpc) && SoFar(c, s.wpc) + e == SoFar(c, s'.wpc)
    ensures ThreadInv(c, s')
  {
    hide SoFar, ItemTrace, Prog, OfWorker;
    var before := s.popped[..|s.popped| - 1];
    var had := OfWorker(s.log);
    assert had == Prog(c, before) + SoFar(c, s.wpc);
    Associative(Prog(c, before), SoFar(c, s.wpc), e);
    assert had + e == Prog(c, before) + (SoFar(c, s.wpc) + e);
    if s'.wpc.WPop? {
      ProgAfter(c, before, s.wpc.item);
      assert s.popped == before + [s.wpc.item];
    }
  }

  lemma PopKeepsThread(c: Config, s: State)
    requires ThreadInv(c, s) && s.wpc.WPop? && PopStep(s).Some?
    ensures ThreadInv(c, PopStep(s).value)
  {
    PopEffect(s);
    PoppedThread(c, s, PopStep(s).value, s.queue[0]);
  }

  lemma PoppedThread(c: Config, s: State, s': State, item: Item)
    requires ThreadInv(c, s) && s.wpc.WPop? && s'.popped == s.popped + [item]
    requires if item.Null? then s'.wpc == WExitTest && s'.log == s.log
             else s'.wpc == WGot(item) && s'.log == s.log + [Dispatched(item.id)]
    ensures ThreadInv(c, s')
  {
    hide Prog, OfWorker;
    if item.Null? {
      ProgAfter(c, s.popped, item);
    } else {
      OfWorkerAfter(s.log, Dispatched(item.id));
      GotExpected(c, s.popped, item);
    }
  }

  lemma GotExpected(c: Config, popped: seq<Item>, item: Item)
    requires !item.Null?
    ensures Expected(c, popped + [item], WGot(item)) == Prog(c, popped) + [Dispatched(item.id)]
  {
    assert (popped + [item])[..|popped|] == popped;
  }

  /** The event a step outside the loop logs, if any. */
  function LifeEvent(c: Config, p: WPc): seq<Event> {
    if p.WIniting? && c.onInit.Some? then [Inited(c.onInit.value)]
    else if p.WExiting? && c.onExit.Some? then [Exited(c.onExit.value)]
    else []
  }

  lemma LifeLogs(c: Config, s: State)
    requires RunInv(c, s) && ErrorInv(c, s) && LifeStep(c, s).Some?
    ensures var s' := LifeStep(c, s).value;
      && s'.log == s.log + LifeEvent(c, s.wpc) && s'.popped == s.popped && LifeMove(c, s.wpc, s'.wpc)
  {
  }

  predicate LifeMove(c: Config, p: WPc, p': WPc) {
    match p
    case WStart => p' == if c.onInit.Some? then WIniting else WSetRunning
    case WIniting => c.onInit.Some? && p'.WSetRunning?
    case WSetRunning => p'.WTest?
    case WTest => p'.WPop? || p'.WExitTest?
    case WExitTest => p' == if InitResult(c) == 0 && c.onExit.Some? then WExiting else WSetTerm
    case WExiting => InitResult(c) == 0 && c.onExit.Some? && p'.WSetTerm?
    case WSetTerm => p'.WDone?
    case _ => false
  }

  /** Outside the loop the expected trace grows by exactly the event that is logged. */
  lemma LifeExpected(c: Config, popped: seq<Item>, p: WPc, p': WPc)
    requires LifeMove(c, p, p') && (BeforeLoop(p) ==> popped == [])
    requires p.WExitTest? && p'.WSetTerm? ==> ExitTrace(c) == []
    ensures Expected(c, popped, p') == Expected(c, popped, p) + LifeEvent(c, p)
  {
    assert Prog(c, []) == InitTrace(c);
  }

  lemma LifeKeepsThread(c: Config, s: State)
    requires ThreadInv(c, s) && QueueInv(c, s) && ErrorInv(c, s) && RunInv(c, s) && LifeStep(c, s).Some?
    ensures ThreadInv(c, LifeStep(c, s).value)
  {
    LifeLogs(c, s);
    LifeExpected(c, s.popped, s.wpc, LifeStep(c, s).value.wpc);
    OfWorkerLife(c, s.log, s.wpc);
  }

  lemma OfWorkerLife(c: Config, log: seq<Event>, p: WPc)
    ensures OfWorker(log + LifeEvent(c, p)) == OfWorker(log) + LifeEvent(c, p)
  {
    if LifeEvent(c, p) != [] {
      OfWorkerAfter(log, LifeEvent(c, p)[0]);
    } else {
      assert log + LifeEvent(c, p) == log;
    }
  }

  lemma WorkKeepsThread(c: Config, s: State)
    requires Inv(c, s) && ThreadInv(c, s) && WorkStep(c, s).Some?
    ensures ThreadInv(c, WorkStep(c, s).value)
  {
    if s.wpc.WPop? {
      PopKeepsThread(c, s);
    } else if Busy(s.wpc) {
      BusyKeepsThread(c, s);
    } else {
      LifeKeepsThread(c, s);
    }
  }

  lemma ClientKeepsThread(c: Config, s: State, a: Action)
    requires ThreadInv(c, s) && ClientStep(s, a).Some?
    ensures ThreadInv(c, ClientStep(s, a).value)
  {
    var s' := ClientStep(s, a).value;
    OfWorkerAfter(s.log, s'.log[|s.log|]);
    assert s'.log == s.log + [s'.log[|s.log|]];
  }

  lemma RunKeepsThread(c: Config, s: State)
    requires RunInv(c, s) && ThreadInv(c, s) && RunStep(c, s).Some?
    ensures ThreadInv(c, RunStep(c, s).value)
  {
    RunFrame(c, s);
  }

  lemma TermLogs(c: Config, s: State, i: nat)
    requires i < |s.terms| && TermStep(c, s, i).Some?
    ensures var s' := TermStep(c, s, i).value; s'.log == s.log && s'.popped == s.popped && s'.wpc == s.wpc
  {
  }

  lemma TermKeepsThread(c: Config, s: State, i: nat)
    requires ThreadInv(c, s) && i < |s.terms| && TermStep(c, s, i).Some?
    ensures ThreadInv(c, TermStep(c, s, i).value)
  {
    TermLogs(c, s, i);
  }

  lemma StepKeepsThread(c: Config, s: State, a: Action)
    requires Inv(c, s) && ThreadInv(c, s) && Step(c, s, a).Some?
    ensures ThreadInv(c, Step(c, s, a).value)
  {
    match a
    case Run => RunKeepsThread(c, s);
    case Terminate(i) => TermKeepsThread(c, s, i);
    case Work => WorkKeepsThread(c, s);
    case _ => ClientKeepsThread(c, s, a);
  }

  lemma {:induction false} RunsThread(c: Config, acts: seq<Action>)
    requires Runs(c, acts).Some?
    ensures Inv(c, Runs(c, acts).value) && ThreadInv(c, Runs(c, acts).value)
    decreases |acts|
  {
    RunsInv(c, acts);
    if acts != [] {
      RunsThread(c, acts[..|acts| - 1]);
      StepKeepsThread(c, Runs(c, acts[..|acts| - 1]).value, acts[|acts| - 1]);
    }
  }
}
