/**
 TecWorker (tecc_worker.c): the message loop and its run / terminate / send / rpc protocol, as an
 interleaving of one runner, the worker thread, any number of terminators, senders and rpc callers.

 A signal is a latch (module Signal) and the queue is a FIFO whose pop blocks while it is empty
 (modules QueueProtocol and Queue). The mutex `w->lock` is explicit. A handler is an arbitrary
 function of the rpc it serves: every rpc has its own id, so `reply` and `rerr` range over all
 results a stateful handler could give.
 */
module Worker {
  import opened Bytes
  import opened Options

  /** The name of a message type or of a request: a C string, by its bytes. */
  type Tag = seq<Byte>

  /** A queued pointer: NULL, a normal message, or the RPC object of one call of rpc. */
  datatype Item = Null | Msg(id: nat, tag: Tag) | Rpc(id: nat, tag: Tag)

  /**
   What the client chose: the callbacks (None is NULL; otherwise the value it returns), the tags with
   a handler, the handlers' results, how many threads call terminate, and whether they may start
   as soon as run has taken the lock (`overlap`) or only after run has returned.
   */
  datatype Config = Config(
    onInit: Option<int>, onExit: Option<int>,
    registered: set<Tag>, reply: nat -> int, rerr: nat -> int,
    nterms: nat, overlap: bool)

  const HANDLER_NOT_FOUND: int := -2

  datatype WPc =
    | WNone | WStart | WIniting | WSetRunning | WTest
    | WPop | WGot(item: Item) | WLookup(item: Item) | WRunning(item: Item) | WFree(item: Item) | WReady(item: Item)
    | WExitTest | WExiting | WSetTerm | WDone

  datatype RPc = RIdle | RLocked | RWait | RCheck | RJoin | RUnlock | RRead | RDone(result: int)

  datatype TPc = TIdle | TPush | TWait | TJoin | TRead | TUnlock(result: int) | TDone(result: int)

  datatype Holder = Free | ByRunner | ByTerm(i: nat)

  datatype Stage = Called | Queued | Taken | Running | Finished | Ready | Returned

  /** One call of rpc: its request's tag, how far it is, and the RPC object's fields. */
  datatype Call = Call(tag: Tag, stage: Stage, reply: int, error: int)

  datatype Event =
    | Inited(err: int) | Dispatched(id: nat) | Began(id: nat) | Ended(id: nat) | Freed(id: nat)
    | Readied(id: nat) | Exited(err: int)
    | Calling(id: nat) | Sent(id: nat) | Returning(id: nat, reply: int, err: int)

  datatype State = State(
    lock: Holder, error: int, running: bool, terminated: bool,
    joinable: bool, joins: nat,
    queue: seq<Item>, pushed: seq<Item>, popped: seq<Item>,
    wpc: WPc, rpc: RPc, terms: seq<TPc>,
    used: set<nat>, calls: map<nat, Call>, log: seq<Event>)

  datatype Action =
    | Run | Work | Terminate(i: nat)
    | Send(id: nat, tag: Tag) | CallRpc(id: nat, tag: Tag) | PushRpc(id: nat) | ReturnRpc(id: nat)

  function Init(c: Config): State {
    State(Free, 0, false, false, false, 0, [], [], [], WNone, RIdle, seq(c.nterms, i => TIdle), {}, map[], [])
  }

  // ----- Steps

  function Push(s: State, item: Item): State {
    s.(queue := s.queue + [item], pushed := s.pushed + [item])
  }

  function Note(s: State, e: Event): State {
    s.(log := s.log + [e])
  }

  function SetCall(s: State, id: nat, k: Call): State {
    s.(calls := s.calls[id := k])
  }

  /** TecThread_join: waits for the thread only while the handle is joinable, and only once. */
  function Join(s: State): Option<State> {
    if !s.joinable then Some(s)
    else if s.wpc.WDone? then Some(s.(joinable := false, joins := s.joins + 1))
    else None
  }

  /** TecWorker_run_ */
  function RunStep(c: Config, s: State): Option<State> {
    match s.rpc
    case RIdle => if s.lock.Free? then Some(s.(lock := ByRunner, rpc := RLocked)) else None
    case RLocked => Some(s.(rpc := RWait, wpc := WStart, joinable := true))
    case RWait => if s.running then Some(s.(rpc := RCheck)) else None
    case RCheck => Some(s.(rpc := if s.error != 0 then RJoin else RUnlock))
    case RJoin => var j :- Join(s); Some(j.(rpc := RUnlock))
    case RUnlock => Some(s.(lock := Free, rpc := RRead))
    case RRead => Some(s.(rpc := RDone(s.error)))
    case RDone(_) => None
  }

  predicate MayTerminate(c: Config, s: State) {
    if c.overlap then !s.rpc.RIdle? else s.rpc.RDone?
  }

  /** TecWorker_terminate_ */
  function TermStep(c: Config, s: State, i: nat): Option<State>
    requires i < |s.terms|
  {
    match s.terms[i]
    case TIdle =>
      if s.lock.Free? && MayTerminate(c, s) then Some(s.(lock := ByTerm(i), terms := s.terms[i := TPush])) else None
    case TPush => Some(Push(s, Null).(terms := s.terms[i := TWait]))
    case TWait => if s.terminated then Some(s.(terms := s.terms[i := TJoin])) else None
    case TJoin => var j :- Join(s); Some(j.(terms := s.terms[i := TRead]))
    case TRead => Some(s.(terms := s.terms[i := TUnlock(s.error)]))
    case TUnlock(r) => Some(s.(lock := Free, terms := s.terms[i := TDone(r)]))
    case TDone(_) => None
  }

  /** Between the pop of a message and the next pop. */
  predicate Busy(p: WPc) {
    p.WGot? || p.WLookup? || p.WRunning? || p.WFree? || p.WReady?
  }

  /** worker_func with the default dispatch. */
  function WorkStep(c: Config, s: State): Option<State> {
    if s.wpc.WPop? then PopStep(s)
    else if !Busy(s.wpc) then LifeStep(c, s)
    else if s.wpc.item.Rpc? then OnRpc(c, s, s.wpc.item.id, s.wpc.item.tag)
    else if s.wpc.item.Msg? then OnMsg(c, s, s.wpc.item.id, s.wpc.item.tag)
    else None
  }

  /** Initialisation before the loop, and the exit path behind it. */
  function LifeStep(c: Config, s: State): Option<State> {
    match s.wpc
    case WStart => Some(s.(wpc := if c.onInit.Some? && s.error == 0 then WIniting else WSetRunning))
    case WIniting =>
      if c.onInit.None? then None
      else Some(Note(s, Inited(c.onInit.value)).(error := c.onInit.value, wpc := WSetRunning))
    case WSetRunning => Some(s.(running := true, wpc := WTest))
    case WTest => Some(s.(wpc := if s.error == 0 then WPop else WExitTest))
    case WExitTest => Some(s.(wpc := if c.onExit.Some? && s.error == 0 then WExiting else WSetTerm))
    case WExiting =>
      if c.onExit.None? then None
      else Some(Note(s, Exited(c.onExit.value)).(error := c.onExit.value, wpc := WSetTerm))
    case WSetTerm => Some(s.(terminated := true, wpc := WDone))
    case _ => None
  }

  function PopStep(s: State): Option<State> {
    if s.queue == [] then None
    else
      var item := s.queue[0];
      var t := s.(queue := s.queue[1..], popped := s.popped + [item]);
      if item.Null? then Some(t.(wpc := WExitTest))
      else Some(SetStage(Note(t, Dispatched(item.id)), item, Taken).(wpc := WGot(item)))
  }

  /** on_msg: call the handler if there is one, then free the message. */
  function OnMsg(c: Config, s: State, id: nat, tag: Tag): Option<State> {
    match s.wpc
    case WGot(item) =>
      if tag in c.registered then Some(Note(s, Began(id)).(wpc := WRunning(item))) else Some(s.(wpc := WFree(item)))
    case WRunning(item) => Some(Note(s, Ended(id)).(wpc := WFree(item)))
    case WFree(_) => Some(Note(s, Freed(id)).(wpc := WPop))
    case _ => None
  }

  /** on_rpc: clear the error, call the handler or report that there is none, set sig_ready. */
  function OnRpc(c: Config, s: State, id: nat, tag: Tag): Option<State> {
    if id !in s.calls then None
    else
      var k := s.calls[id];
      match s.wpc
      case WGot(item) => Some(SetCall(s, id, k.(error := 0)).(wpc := WLookup(item)))
      case WLookup(item) =>
        if tag in c.registered then Some(SetCall(Note(s, Began(id)), id, k.(stage := Running)).(wpc := WRunning(item)))
        else Some(SetCall(s, id, k.(error := HANDLER_NOT_FOUND, stage := Finished)).(wpc := WReady(item)))
      case WRunning(item) =>
        var done := k.(reply := c.reply(id), error := c.rerr(id), stage := Finished);
        Some(SetCall(Note(s, Ended(id)), id, done).(wpc := WReady(item)))
      case WReady(_) => Some(SetCall(Note(s, Readied(id)), id, k.(stage := Ready)).(wpc := WPop))
      case _ => None
  }

  function SetStage(s: State, item: Item, stage: Stage): State {
    if item.Rpc? && item.id in s.calls then SetCall(s, item.id, s.calls[item.id].(stage := stage)) else s
  }

  /** Senders, and the steps of TecWorker_rpc_: initialise, push, wait for sig_ready and read the error. */
  function ClientStep(s: State, a: Action): Option<State> {
    match a
    case Send(id, tag) =>
      if id in s.used then None else Some(Push(Note(s, Sent(id)), Msg(id, tag)).(used := s.used + {id}))
    case CallRpc(id, tag) =>
      if id in s.used then None
      else Some(SetCall(Note(s, Calling(id)), id, Call(tag, Called, 0, 0)).(used := s.used + {id}))
    case PushRpc(id) =>
      if id !in s.calls || !s.calls[id].stage.Called? then None
      else
        var k := s.calls[id];
        Some(Push(SetCall(Note(s, Sent(id)), id, k.(stage := Queued)), Rpc(id, k.tag)))
    case ReturnRpc(id) =>
      if id !in s.calls || !s.calls[id].stage.Ready? then None
      else
        var k := s.calls[id];
        Some(SetCall(Note(s, Returning(id, k.reply, k.error)), id, k.(stage := Returned)))
    case _ => None
  }

  function Step(c: Config, s: State, a: Action): Option<State> {
    match a
    case Run => RunStep(c, s)
    case Work => WorkStep(c, s)
    case Terminate(i) => if i < |s.terms| then TermStep(c, s, i) else None
    case _ => ClientStep(s, a)
  }

  function Exec(c: Config, s: State, acts: seq<Action>): Option<State> {
    if acts == [] then Some(s)
    else match Exec(c, s, acts[..|acts| - 1])
      case None => None
      case Some(m) => Step(c, m, acts[|acts| - 1])
  }

  function Runs(c: Config, acts: seq<Action>): Option<State> {
    Exec(c, Init(c), acts)
  }
}
