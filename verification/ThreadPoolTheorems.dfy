/** What every run of the thread pool keeps, and what TecThrPool_done waits for. */
module ThreadPoolTheorems {
  import opened Options
  import opened Tickets
  import opened ThreadPool
  import opened ThreadPoolInvariant
  import A = ArenaModel

  // ----- What the callers enqueued

  /** The functions and payloads of the enqueues of a run, ticket after ticket. */
  function Takes(acts: seq<Action>): seq<Spec> {
    if acts == [] then []
    else Takes(acts[..|acts| - 1]) + if acts[|acts| - 1].Take? then [acts[|acts| - 1].spec] else []
  }

  function Specs(tasks: seq<Task>): (r: seq<Spec>)
    ensures |r| == |tasks|
  {
    seq(|tasks|, t requires 0 <= t < |tasks| => tasks[t].spec)
  }

  lemma SetSpec(tasks: seq<Task>, t: nat, task: Task)
    requires t < |tasks| && task.spec == tasks[t].spec
    ensures Specs(tasks[t := task]) == Specs(tasks)
  {
  }

  lemma EnqueueKeepsSpec(c: Config, task: Task, t: nat, h: nat, nd: Node)
    requires EnqueueStep(c, task, t, h, nd).Some?
    ensures EnqueueStep(c, task, t, h, nd).value.0.spec == task.spec
  {
  }

  lemma ThreadKeepsSpecs(s: State, i: nat)
    requires i < |s.nodes| && ThreadStep(s, i).Some?
    ensures Specs(ThreadStep(s, i).value.tasks) == Specs(s.tasks)
  {
    var nd := s.nodes[i];
    if nd.pc.NPop? && nd.queue[0].Job? {
      SetSpec(s.tasks, nd.queue[0].t, s.tasks[nd.queue[0].t].(stage := Taken));
    } else if Busy(nd.pc) {
      SetSpec(s.tasks, nd.pc.t, NodeStep(nd, s.tasks[nd.pc.t], nd.pc.t).value.0);
    }
  }

  lemma NextSpecs(c: Config, s: State, a: Action)
    requires c.n > 0 && |s.nodes| == c.n && Next(c, s, a).Some?
    ensures Specs(Next(c, s, a).value.tasks) == Specs(s.tasks) + if a.Take? then [a.spec] else []
  {
    hide EnqueueStep, ThreadStep;
    match a
    case Enqueue(t, h) =>
      var nd := s.nodes[NodeOf(c.n, t)];
      EnqueueKeepsSpec(c, s.tasks[t], t, h, nd);
      SetSpec(s.tasks, t, EnqueueStep(c, s.tasks[t], t, h, nd).value.0);
    case Step(i) => ThreadKeepsSpecs(s, i);
    case _ =>
  }

  /** In every run task `t` is the `t`-th enqueue, with what its caller gave. */
  lemma {:induction false} TasksAreTakes(c: Config, acts: seq<Action>)
    requires c.n > 0 && Runs(c, acts).Some?
    ensures var s := Runs(c, acts).value;
      |s.tasks| == |Takes(acts)| && forall t :: 0 <= t < |s.tasks| ==> s.tasks[t].spec == Takes(acts)[t]
    decreases |acts|
  {
    RunsSpecs(c, acts);
    var s := Runs(c, acts).value;
    assert forall t :: 0 <= t < |s.tasks| ==> s.tasks[t].spec == Specs(s.tasks)[t];
  }

  lemma {:induction false} RunsSpecs(c: Config, acts: seq<Action>)
    requires c.n > 0 && Runs(c, acts).Some?
    ensures Specs(Runs(c, acts).value.tasks) == Takes(acts)
    decreases |acts|
  {
    hide Next;
    if acts != [] {
      var before := acts[..|acts| - 1];
      RunsSpecs(c, before);
      NextSpecs(c, Runs(c, before).value, acts[|acts| - 1]);
    }
  }

  // ----- Every task runs once, on its node, in push order

  ghost predicate Distinct(ts: seq<nat>) {
    forall j, k :: 0 <= j < k < |ts| ==> ts[j] != ts[k]
  }

  /** Running the functions of distinct jobs runs distinct tickets, each of them once. */
  lemma {:induction false} FuncsDistinct(items: seq<Item>)
    requires forall k, l :: 0 <= k < l < |items| && items[k].Job? && items[l].Job? ==> items[k].t != items[l].t
    ensures Distinct(Funcs(items))
    ensures forall t :: t in Funcs(items) <==> Job(t, true) in items
  {
    if items != [] {
      var before := items[..|items| - 1];
      var last := items[|items| - 1];
      assert items == before + [last];
      FuncsDistinct(before);
      assert forall t :: Job(t, true) in items <==> Job(t, true) in before || last == Job(t, true);
      if last.Job? && last.hasFunc {
        assert Funcs(items) == Funcs(before) + [last.t];
        assert Job(last.t, true) !in before;
      }
    }
  }

  /** The functions a node has started, as a prefix of those its pushed items ask for. */
  lemma {:induction false} FuncsPrefix(items: seq<Item>, k: nat)
    requires k <= |items|
    ensures Funcs(items[..k]) <= Funcs(items)
  {
    if k == |items| {
      assert items[..k] == items;
    } else {
      FuncsPrefix(items[..|items| - 1], k);
      assert items[..|items| - 1][..k] == items[..k];
    }
  }

  /**
   In every run each node starts functions only for tickets that belong to it, each at most once, in
   the node's push order.
   */
  lemma RunsInPushOrder(c: Config, acts: seq<Action>, i: nat)
    requires c.n > 0 && i < c.n && Runs(c, acts).Some?
    ensures var s := Runs(c, acts).value; var nd := s.nodes[i];
      && nd.ran <= Funcs(nd.pushed) && Distinct(nd.ran)
      && (forall t :: t in nd.ran ==> t < |Takes(acts)| && NodeOf(c.n, t) == i && Takes(acts)[t].hasFunc)
  {
    RunsInv(c, acts);
    TasksAreTakes(c, acts);
    var s := Runs(c, acts).value;
    var nd := s.nodes[i];
    var k := if nd.pc.NGot? && nd.popped != [] then |nd.popped| - 1 else |nd.popped|;
    assert nd.ran == Funcs(nd.pushed[..k]) by {
      assert nd.pushed[..k] == nd.popped[..k];
      assert nd.popped[..|nd.popped|] == nd.popped;
    }
    FuncsPrefix(nd.pushed, k);
    FuncsDistinct(nd.pushed);
    forall t | t in nd.ran
      ensures t < |s.tasks| && NodeOf(c.n, t) == i && s.tasks[t].spec.hasFunc && Takes(acts)[t].hasFunc
    {
      assert t in Funcs(nd.pushed);
      var j :| 0 <= j < |nd.pushed| && nd.pushed[j] == Job(t, true);
    }
  }

  /** A node whose thread has ended has popped everything and released all its tasks. */
  lemma EndedNode(c: Config, s: State, i: nat)
    requires Inv(c, s) && i < c.n && s.nodes[i].pc.NDone?
    ensures var nd := s.nodes[i];
      && nd.queue == [] && nd.ran == Funcs(nd.pushed)
      && (forall t :: 0 <= t < |s.tasks| && NodeOf(c.n, t) == i && IsQueued(s.tasks[t].stage) ==> s.tasks[t].stage.Released?)
  {
    var nd := s.nodes[i];
    assert nd.pushed[|nd.popped| - 1] == Null;
    assert nd.pushed == nd.popped;
    forall t | 0 <= t < |s.tasks| && NodeOf(c.n, t) == i && IsQueued(s.tasks[t].stage)
      ensures s.tasks[t].stage.Released?
    {
      var k :| 0 <= k < |nd.pushed| && nd.pushed[k] == Job(t, s.tasks[t].spec.hasFunc);
      assert StageAt(nd, k, s.tasks[t].stage);
    }
  }

  /**
   When TecThrPool_done has finished, every enqueued task has been released and every function has
   run exactly once on the node of its ticket; each arena is back in its initial state, with no slot
   and no heap object in use.
   */
  lemma DoneMeansDrained(c: Config, acts: seq<Action>, i: nat)
    requires c.n > 0 && i < c.n && Runs(c, acts).Some? && Runs(c, acts).value.dpc.DDone?
    ensures var s := Runs(c, acts).value; var nd := s.nodes[i];
      && nd.pc.NDone? && nd.queue == [] && nd.arena == A.Init(c.cap)
      && nd.ran == Funcs(nd.pushed) && Distinct(nd.ran)
      && |s.tasks| == |Takes(acts)|
      && (forall t :: 0 <= t < |Takes(acts)| && NodeOf(c.n, t) == i ==>
            s.tasks[t].stage.Released? && (t in nd.ran <==> Takes(acts)[t].hasFunc))
  {
    RunsInv(c, acts);
    TasksAreTakes(c, acts);
    RunsInPushOrder(c, acts, i);
    var s := Runs(c, acts).value;
    var nd := s.nodes[i];
    EndedNode(c, s, i);
    FuncsDistinct(nd.pushed);
    forall t | 0 <= t < |s.tasks| && NodeOf(c.n, t) == i
      ensures s.tasks[t].stage.Released? && (t in nd.ran <==> s.tasks[t].spec.hasFunc)
    {
      assert IsQueued(s.tasks[t].stage);
      assert Job(t, s.tasks[t].spec.hasFunc) in nd.pushed;
    }
    EmptyArena(c, s, i);
  }

  /** Without live tasks an arena is as it was at the start. */
  lemma EmptyArena(c: Config, s: State, i: nat)
    requires Inv(c, s) && i < c.n
    requires forall t :: 0 <= t < |s.tasks| && NodeOf(c.n, t) == i ==> !Live(s.tasks[t].stage)
    ensures s.nodes[i].arena == A.Init(c.cap)
  {
    var a := s.nodes[i].arena;
    assert Homes(c.n, s.tasks, i) == map[];
    assert forall k :: k in a.live ==> A.InUse(a, A.Slot(k));
    assert forall h :: h in a.heap ==> A.InUse(a, A.Heap(h));
    assert a.live == {} && a.heap == {};
  }

  // ----- The arenas of the nodes

  /**
   In every run the bookkeeping of a node's arena is sound, every live task of the node has an object
   in use, and no two of them the same one.
   */
  lemma LiveTasksApart(c: Config, acts: seq<Action>, i: nat)
    requires c.n > 0 && i < c.n && Runs(c, acts).Some?
    ensures var s := Runs(c, acts).value; var a := s.nodes[i].arena;
      && A.Sound(a) && a.capacity == c.cap
      && (forall t :: 0 <= t < |s.tasks| && NodeOf(c.n, t) == i && Live(s.tasks[t].stage) ==>
            s.tasks[t].ptr.Some? && A.InUse(a, s.tasks[t].ptr.value))
      && (forall t, u :: 0 <= t < u < |s.tasks| && NodeOf(c.n, t) == NodeOf(c.n, u) == i ==>
            Live(s.tasks[t].stage) && Live(s.tasks[u].stage) ==> s.tasks[t].ptr != s.tasks[u].ptr)
  {
    RunsInv(c, acts);
    var s := Runs(c, acts).value;
    var homes := Homes(c.n, s.tasks, i);
    forall t | 0 <= t < |s.tasks| && NodeOf(c.n, t) == i && Live(s.tasks[t].stage)
      ensures s.tasks[t].ptr.Some? && t in homes && homes[t] == s.tasks[t].ptr.value
    {
      IsPlaced(c.n, c.cap, s.tasks, i, s.nodes[i], t);
    }
  }

  /**
   A node thread that is about to release a task finds its object in use, and the release takes it out
   of use; afterwards the task never changes again, so no object is released twice.
   */
  lemma ReleasedOnce(c: Config, acts: seq<Action>, i: nat)
    requires c.n > 0 && i < c.n && Runs(c, acts).Some? && Runs(c, acts).value.nodes[i].pc.NRelease?
    ensures var s := Runs(c, acts).value; var nd := s.nodes[i]; var t := nd.pc.t;
      && t < |s.tasks| && s.tasks[t].ptr.Some? && A.Allowed(nd.arena, A.Free(s.tasks[t].ptr.value))
      && Next(c, s, Step(i)).Some?
      && var s' := Next(c, s, Step(i)).value;
      && s'.tasks[t].stage.Released? && !A.InUse(s'.nodes[i].arena, s.tasks[t].ptr.value)
  {
    RunsInv(c, acts);
    var s := Runs(c, acts).value;
    var nd := s.nodes[i];
    BusyTask(c.n, s.tasks, i, nd);
    IsPlaced(c.n, c.cap, s.tasks, i, nd, nd.pc.t);
    A.ReleaseIsSound(nd.arena, s.tasks[nd.pc.t].ptr.value);
  }

  lemma ReleasedStays(c: Config, s: State, a: Action, t: nat)
    requires Inv(c, s) && Next(c, s, a).Some? && t < |s.tasks| && s.tasks[t].stage.Released?
    ensures t < |Next(c, s, a).value.tasks| && Next(c, s, a).value.tasks[t] == s.tasks[t]
  {
    if a.Step? && a.i < c.n {
      var nd := s.nodes[a.i];
      if nd.pc.NPop? {
        PopKeepsJobs(c.n, s.tasks, a.i, nd);
      } else if Busy(nd.pc) {
        BusyTask(c.n, s.tasks, a.i, nd);
      }
    }
  }

  /** Different tickets for different slots. */
  lemma {:induction false} Pairing(ts: set<int>, slots: set<nat>, homes: map<int, A.Ptr>)
    requires forall t :: t in ts ==> t in homes && homes[t].Slot? && homes[t].i in slots
    requires forall t, u :: t in ts && u in ts && t != u ==> homes[t] != homes[u]
    requires forall k :: k in slots ==> exists t :: t in ts && homes[t] == A.Slot(k)
    ensures |ts| == |slots|
    decreases |ts|
  {
    if |ts| == 0 {
      assert ts == {};
      assert slots == {};
    } else {
      assert ts != {};
      var t :| t in ts;
      var k := homes[t].i;
      forall l | l in slots - {k}
        ensures exists u :: u in ts - {t} && homes[u] == A.Slot(l)
      {
        var u :| u in ts && homes[u] == A.Slot(l);
        assert u in ts - {t};
      }
      Pairing(ts - {t}, slots - {k}, homes);
    }
  }

  /** The live tasks of node `i` that lie in its arena. */
  ghost function InArena(c: Config, s: State, i: nat): set<int>
    requires c.n > 0
  {
    set t | 0 <= t < |s.tasks| && Placed(c.n, s.tasks, i, t) && s.tasks[t].ptr.value.Slot?
  }

  /** An object in use has its task. */
  lemma Resident(c: Config, s: State, i: nat, p: A.Ptr) returns (t: int)
    requires Inv(c, s) && i < c.n && A.InUse(s.nodes[i].arena, p)
    ensures t in Homes(c.n, s.tasks, i) && Homes(c.n, s.tasks, i)[t] == p
  {
    var homes := Homes(c.n, s.tasks, i);
    assert Houses(s.nodes[i].arena, homes);
    t :| t in homes && homes[t] == p;
  }

  lemma InArenaCount(c: Config, s: State, i: nat)
    requires Inv(c, s) && i < c.n
    ensures |InArena(c, s, i)| == |s.nodes[i].arena.live|
  {
    var a := s.nodes[i].arena;
    var homes := Homes(c.n, s.tasks, i);
    forall k | k in a.live
      ensures exists t :: t in InArena(c, s, i) && homes[t] == A.Slot(k)
    {
      var t := Resident(c, s, i, A.Slot(k));
      assert t in InArena(c, s, i);
    }
    Pairing(InArena(c, s, i), a.live, homes);
  }

  /**
   In every run an enqueue gets an object that no live task of its node holds, from the heap exactly
   when `cap` live tasks lie in the node's arena already.
   */
  lemma HeapOnlyWhenFull(c: Config, acts: seq<Action>, t: nat, h: nat)
    requires c.n > 0 && Runs(c, acts).Some? && t < |Runs(c, acts).value.tasks|
    requires Runs(c, acts).value.tasks[t].stage.Ticketed?
    requires h !in Runs(c, acts).value.nodes[NodeOf(c.n, t)].arena.heap
    ensures var s := Runs(c, acts).value; var i := NodeOf(c.n, t);
      && Next(c, s, Enqueue(t, h)).Some?
      && var p := Next(c, s, Enqueue(t, h)).value.tasks[t].ptr;
      && p.Some? && (p.value.Heap? <==> |InArena(c, s, i)| == c.cap)
      && (forall u :: 0 <= u < |s.tasks| && NodeOf(c.n, u) == i && Live(s.tasks[u].stage) ==> s.tasks[u].ptr != p)
  {
    RunsInv(c, acts);
    var s := Runs(c, acts).value;
    var i := NodeOf(c.n, t);
    var homes := Homes(c.n, s.tasks, i);
    A.AllocateIsSound(s.nodes[i].arena, h);
    InArenaCount(c, s, i);
    HouseNew(s.nodes[i].arena, homes, t, h);
    var p := A.Allocate(s.nodes[i].arena, h).1;
    forall u | 0 <= u < |s.tasks| && NodeOf(c.n, u) == i && Live(s.tasks[u].stage)
      ensures s.tasks[u].ptr != Some(p)
    {
      assert s.tasks[u].ptr.Some? ==> u in homes && homes[u] == s.tasks[u].ptr.value;
    }
  }

  // ----- Nobody is stuck

  /** The thread of the node that is being shut down can step, or the shutdown can. */
  lemma ShutdownNotStuck(c: Config, s: State)
    requires Inv(c, s) && !s.dpc.DIdle? && !s.dpc.DDone?
    ensures DoneStep(c, s).Some? || (s.dpc.i < c.n && ThreadStep(s, s.dpc.i).Some?)
  {
    var nd := s.nodes[s.dpc.i];
    if s.dpc.DWait? && !nd.terminated {
      if nd.pc.NPop? {
        assert Null in nd.pushed;
        assert nd.queue == [] ==> nd.pushed == nd.popped;
        assert nd.queue != [];
        assert nd.pushed[|nd.popped|] == nd.queue[0];
      } else if Busy(nd.pc) {
        BusyNotStuck(c, s, s.dpc.i);
      }
    }
  }

  /** A node thread in the middle of a task is never blocked. */
  lemma BusyNotStuck(c: Config, s: State, i: nat)
    requires Inv(c, s) && i < c.n && Busy(s.nodes[i].pc)
    ensures ThreadStep(s, i).Some?
  {
    var nd := s.nodes[i];
    BusyTask(c.n, s.tasks, i, nd);
    if nd.pc.NRelease? {
      IsPlaced(c.n, c.cap, s.tasks, i, nd, nd.pc.t);
    }
  }

  // ----- TecThrPool_done always finishes

  /** Thread steps a node can still make without further pushes. */
  function StepsLeft(nd: Node): nat {
    4 * |nd.queue| + match nd.pc
      case NPop => 0 case NGot(_) => 3 case NRun(_) => 2 case NRelease(_) => 1 case NSet => 2 case NReturn => 1 case NDone => 0
  }

  function AllStepsLeft(nodes: seq<Node>): nat {
    if nodes == [] then 0 else AllStepsLeft(nodes[..|nodes| - 1]) + StepsLeft(nodes[|nodes| - 1])
  }

  lemma {:induction false} StepsLeftAfter(nodes: seq<Node>, i: nat, nd: Node)
    requires i < |nodes|
    ensures AllStepsLeft(nodes[i := nd]) == AllStepsLeft(nodes) - StepsLeft(nodes[i]) + StepsLeft(nd)
  {
    var last := |nodes| - 1;
    if i < last {
      StepsLeftAfter(nodes[..last], i, nd);
      assert nodes[i := nd][..last] == nodes[..last][i := nd];
    } else {
      assert nodes[i := nd][..last] == nodes[..last];
    }
  }

  /** Steps of the shutdown itself, each push paid for in advance. */
  function DoneLeft(n: nat, d: DPc): nat {
    match d
    case DIdle => 8 * n + 1
    case DPush(i) => if i < n then 8 * (n - i) else 0
    case DWait(i) => if i < n then 8 * (n - i) - 5 else 0
    case DJoin(i) => if i < n then 8 * (n - i) - 6 else 0
    case DDone => 0
  }

  function Left(c: Config, s: State): nat {
    DoneLeft(c.n, s.dpc) + AllStepsLeft(s.nodes)
  }

  lemma ThreadStepShape(s: State, i: nat)
    requires i < |s.nodes| && ThreadStep(s, i).Some?
    ensures var s' := ThreadStep(s, i).value;
      && s'.dpc == s.dpc && |s'.nodes| == |s.nodes| && s'.nodes == s.nodes[i := s'.nodes[i]]
      && StepsLeft(s'.nodes[i]) < StepsLeft(s.nodes[i])
  {
  }

  lemma DonePushDrops(c: Config, s: State)
    requires |s.nodes| == c.n && s.dpc.DPush? && DoneStep(c, s).Some?
    ensures Left(c, DoneStep(c, s).value) < Left(c, s)
  {
    var nd := s.nodes[s.dpc.i];
    StepsLeftAfter(s.nodes, s.dpc.i, nd.(queue := nd.queue + [Null], pushed := nd.pushed + [Null]));
  }

  lemma DoneWaitDrops(c: Config, s: State)
    requires |s.nodes| == c.n && (s.dpc.DWait? || s.dpc.DJoin?) && DoneStep(c, s).Some?
    ensures Left(c, DoneStep(c, s).value) < Left(c, s)
  {
  }

  lemma DoneStepDrops(c: Config, s: State)
    requires |s.nodes| == c.n && !s.dpc.DIdle? && DoneStep(c, s).Some?
    ensures Left(c, DoneStep(c, s).value) < Left(c, s) && !DoneStep(c, s).value.dpc.DIdle?
  {
    if s.dpc.DPush? {
      DonePushDrops(c, s);
    } else {
      DoneWaitDrops(c, s);
    }
  }

  lemma ThreadStepDrops(c: Config, s: State, i: nat)
    requires Inv(c, s) && !s.dpc.DIdle? && i < c.n && ThreadStep(s, i).Some?
    ensures Left(c, ThreadStep(s, i).value) < Left(c, s) && !ThreadStep(s, i).value.dpc.DIdle?
  {
    ThreadStepShape(s, i);
    StepsLeftAfter(s.nodes, i, ThreadStep(s, i).value.nodes[i]);
  }

  /** During the shutdown nobody enqueues. */
  lemma NoEnqueue(c: Config, s: State)
    requires Inv(c, s) && !s.dpc.DIdle?
    ensures forall t, h :: Next(c, s, Enqueue(t, h)).None?
    ensures forall spec :: Next(c, s, Take(spec)).None?
  {
  }

  /** During the shutdown every step of anybody brings the end nearer. */
  lemma ShutdownStepDrops(c: Config, s: State, a: Action)
    requires Inv(c, s) && !s.dpc.DIdle? && Next(c, s, a).Some?
    ensures Left(c, Next(c, s, a).value) < Left(c, s) && !Next(c, s, a).value.dpc.DIdle?
  {
    NoEnqueue(c, s);
    if a.Step? {
      ThreadStepDrops(c, s, a.i);
    } else {
      DoneStepDrops(c, s);
    }
  }

  lemma {:induction false} ShutdownIsBounded(c: Config, s: State, acts: seq<Action>)
    requires Inv(c, s) && !s.dpc.DIdle? && Exec(c, s, acts).Some?
    ensures var e := Exec(c, s, acts).value; Inv(c, e) && !e.dpc.DIdle? && |acts| + Left(c, e) <= Left(c, s)
    decreases |acts|
  {
    if acts != [] {
      var before := acts[..|acts| - 1];
      ShutdownIsBounded(c, s, before);
      var m := Exec(c, s, before).value;
      NextKeeps(c, m, acts[|acts| - 1]);
      ShutdownStepDrops(c, m, acts[|acts| - 1]);
    }
  }

  lemma SomeStep(c: Config, s: State)
    requires Inv(c, s) && !s.dpc.DIdle? && !s.dpc.DDone?
    ensures exists a :: Next(c, s, a).Some?
  {
    ShutdownNotStuck(c, s);
    if DoneStep(c, s).Some? {
      assert Next(c, s, Done).Some?;
    } else {
      assert Next(c, s, Step(s.dpc.i)).Some?;
    }
  }

  /**
   TecThrPool_done finishes under every schedule: from any reachable state in which it has begun, a
   run has at most `Left` further steps, and one that cannot be continued has it finished.
   */
  lemma DoneFinishes(c: Config, acts: seq<Action>, more: seq<Action>)
    requires c.n > 0 && Runs(c, acts).Some? && !Runs(c, acts).value.dpc.DIdle?
    requires Exec(c, Runs(c, acts).value, more).Some?
    ensures var s := Runs(c, acts).value; var e := Exec(c, s, more).value;
      && |more| <= Left(c, s)
      && ((forall a :: Next(c, e, a).None?) ==> e.dpc.DDone?)
  {
    RunsInv(c, acts);
    var s := Runs(c, acts).value;
    ShutdownIsBounded(c, s, more);
    var e := Exec(c, s, more).value;
    if !e.dpc.DDone? {
      SomeStep(c, e);
    }
  }
}
