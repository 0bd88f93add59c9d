/**
 TecThrPool (tecc_thread_pool.c): round-robin dispatch to `n` nodes, each with its own queue, arena
 and thread. The machine interleaves any number of enqueuing threads, the node threads and the
 thread that calls TecThrPool_done. An enqueue is known by its ticket, the index of its fetch_add.

 A node's arena is the bookkeeping of module ArenaModel, its queue a FIFO with a blocking pop, its
 signal a latch. TecThrPool_run has returned true, so the threads are running.
 */
module ThreadPool {
  import opened Bytes
  import opened Options
  import opened Tickets
  import A = ArenaModel

  /**
   Contents of a node's payload region: the bytes last copied, or indeterminate, while somebody copies
   into it and after two copies have overlapped.
   */
  datatype Region = Torn | Holds(bytes: seq<Byte>)

  /** What a caller enqueues: whether `task_func` is not NULL, and the payload if it is not NULL. */
  datatype Spec = Spec(hasFunc: bool, payload: Option<seq<Byte>>)

  datatype Stage = Ticketed | Allocated | Copying | Filled | Queued | Taken | Running | Ran | Released

  /**
   `ptr` is where the task lies, from its allocation on; `seen` and `seenEnd` are the payload region
   when the function starts and when it returns.
   */
  datatype Task = Task(spec: Spec, stage: Stage, ptr: Option<A.Ptr>, seen: Option<Region>, seenEnd: Option<Region>)

  datatype Item = Null | Job(t: nat, hasFunc: bool)

  datatype NPc = NPop | NGot(t: nat) | NRun(t: nat) | NRelease(t: nat) | NSet | NReturn | NDone

  /**
   `copying` are the tickets that are copying into the region, `mixed` whether two of them have
   overlapped; `ran` is the history of functions started.
   */
  datatype Node = Node(
    queue: seq<Item>, pushed: seq<Item>, popped: seq<Item>, pc: NPc,
    arena: A.State, region: Region, copying: set<nat>, mixed: bool, ran: seq<nat>, terminated: bool)

  datatype DPc = DIdle | DPush(i: nat) | DWait(i: nat) | DJoin(i: nat) | DDone

  /** `n` nodes with arenas of `cap` tasks; `hasRegion` when payload_size is not 0. */
  datatype Config = Config(n: nat, cap: nat, hasRegion: bool)

  datatype State = State(tasks: seq<Task>, nodes: seq<Node>, dpc: DPc)

  /** `h` is the address calloc would return, should the enqueue allocate. */
  datatype Action = Take(spec: Spec) | Enqueue(t: nat, h: nat) | Step(i: nat) | Done

  function InitNode(cap: nat): Node {
    Node([], [], [], NPop, A.Init(cap), Holds([]), {}, false, [], false)
  }

  function Init(c: Config): State {
    State([], seq(c.n, i => InitNode(c.cap)), DIdle)
  }

  predicate IsQueued(stage: Stage) {
    stage.Queued? || stage.Taken? || stage.Running? || stage.Ran? || stage.Released?
  }

  predicate Finished(stage: Stage) {
    stage.Ran? || stage.Released?
  }

  /** The atomic fetch_add; no enqueue overlaps TecThrPool_done. */
  function TakeTicket(c: Config, s: State, spec: Spec): Option<State>
    requires c.n > 0
  {
    if !s.dpc.DIdle? then None
    else Some(s.(tasks := s.tasks + [Task(spec, Ticketed, None, None, None)]))
  }

  function StartCopy(nd: Node, t: nat): Node {
    nd.(region := Torn, copying := nd.copying + {t}, mixed := nd.mixed || nd.copying != {})
  }

  function EndCopy(nd: Node, t: nat, bytes: seq<Byte>): Node {
    var rest := nd.copying - {t};
    nd.(region := if nd.mixed then Torn else Holds(bytes), copying := rest, mixed := nd.mixed && rest != {})
  }

  /** The rest of TecThrPool_enqueue for one ticket, on its task and its node. */
  function EnqueueStep(c: Config, task: Task, t: nat, h: nat, nd: Node): Option<(Task, Node)> {
    match task.stage
    case Ticketed =>
      if h in nd.arena.heap then None
      else
        var (arena, p) := A.Allocate(nd.arena, h);
        Some((task.(stage := Allocated, ptr := Some(p)), nd.(arena := arena)))
    case Allocated =>
      if c.hasRegion && task.spec.payload.Some? then Some((task.(stage := Copying), StartCopy(nd, t)))
      else Some((task.(stage := Filled), nd))
    case Copying =>
      if task.spec.payload.None? then None
      else Some((task.(stage := Filled), EndCopy(nd, t, task.spec.payload.value)))
    case Filled =>
      var item := Job(t, task.spec.hasFunc);
      Some((task.(stage := Queued), nd.(queue := nd.queue + [item], pushed := nd.pushed + [item])))
    case _ => None
  }

  /** task_func up to the release: pops, and the life of one task. */
  function NodeStep(nd: Node, task: Task, t: nat): Option<(Task, Node)> {
    match nd.pc
    case NGot(_) =>
      if task.spec.hasFunc
      then Some((task.(stage := Running, seen := Some(nd.region)), nd.(pc := NRun(t), ran := nd.ran + [t])))
      else Some((task.(stage := Ran), nd.(pc := NRelease(t))))
    case NRun(_) => Some((task.(stage := Ran, seenEnd := Some(nd.region)), nd.(pc := NRelease(t))))
    case NRelease(_) =>
      if task.ptr.None? || !A.Allowed(nd.arena, A.Free(task.ptr.value)) then None
      else Some((task.(stage := Released), nd.(pc := NPop, arena := A.Release(nd.arena, task.ptr.value))))
    case _ => None
  }

  predicate Busy(pc: NPc) {
    pc.NGot? || pc.NRun? || pc.NRelease?
  }

  function PopItem(nd: Node): Node
    requires nd.queue != []
  {
    var item := nd.queue[0];
    nd.(queue := nd.queue[1..], popped := nd.popped + [item], pc := if item.Null? then NSet else NGot(item.t))
  }

  function SetTask(s: State, t: nat, task: Task, i: nat, nd: Node): State
    requires t < |s.tasks| && i < |s.nodes|
  {
    s.(tasks := s.tasks[t := task], nodes := s.nodes[i := nd])
  }

  function ThreadStep(s: State, i: nat): Option<State>
    requires i < |s.nodes|
  {
    var nd := s.nodes[i];
    if nd.pc.NPop? then
      if nd.queue == [] then None
      else if nd.queue[0].Null? then Some(s.(nodes := s.nodes[i := PopItem(nd)]))
      else if nd.queue[0].t >= |s.tasks| then None
      else
        var t := nd.queue[0].t;
        Some(SetTask(s, t, s.tasks[t].(stage := Taken), i, PopItem(nd)))
    else if Busy(nd.pc) then
      if nd.pc.t >= |s.tasks| then None
      else
        var r :- NodeStep(nd, s.tasks[nd.pc.t], nd.pc.t);
        Some(SetTask(s, nd.pc.t, r.0, i, r.1))
    else if nd.pc.NSet? then Some(s.(nodes := s.nodes[i := nd.(terminated := true, pc := NReturn)]))
    else if nd.pc.NReturn? then Some(s.(nodes := s.nodes[i := nd.(pc := NDone)]))
    else None
  }

  /** TecThrPool_done: node after node, push NULL, wait for its signal and join its thread. */
  function DoneStep(c: Config, s: State): Option<State> {
    match s.dpc
    case DIdle =>
      if forall t :: 0 <= t < |s.tasks| ==> IsQueued(s.tasks[t].stage)
      then Some(s.(dpc := DPush(0)))
      else None
    case DPush(i) =>
      if i >= |s.nodes| then None
      else
        var nd := s.nodes[i];
        Some(s.(nodes := s.nodes[i := nd.(queue := nd.queue + [Null], pushed := nd.pushed + [Null])], dpc := DWait(i)))
    case DWait(i) => if i < |s.nodes| && s.nodes[i].terminated then Some(s.(dpc := DJoin(i))) else None
    case DJoin(i) =>
      if i < |s.nodes| && s.nodes[i].pc.NDone? then Some(s.(dpc := if i + 1 < c.n then DPush(i + 1) else DDone)) else None
    case DDone => None
  }

  function Next(c: Config, s: State, a: Action): Option<State>
    requires c.n > 0 && |s.nodes| == c.n
  {
    match a
    case Take(spec) => TakeTicket(c, s, spec)
    case Enqueue(t, h) =>
      if t >= |s.tasks| then None
      else
        var i := NodeOf(c.n, t);
        var r :- EnqueueStep(c, s.tasks[t], t, h, s.nodes[i]);
        Some(SetTask(s, t, r.0, i, r.1))
    case Step(i) => if i < |s.nodes| then ThreadStep(s, i) else None
    case Done => DoneStep(c, s)
  }

  function Exec(c: Config, s: State, acts: seq<Action>): (r: Option<State>)
    requires c.n > 0 && |s.nodes| == c.n
    ensures r.Some? ==> |r.value.nodes| == c.n
  {
    if acts == [] then Some(s)
    else match Exec(c, s, acts[..|acts| - 1])
      case None => None
      case Some(m) => Next(c, m, acts[|acts| - 1])
  }

  function Runs(c: Config, acts: seq<Action>): (r: Option<State>)
    requires c.n > 0
    ensures r.Some? ==> |r.value.nodes| == c.n
  {
    Exec(c, Init(c), acts)
  }
}
