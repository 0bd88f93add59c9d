/** The inductive invariant of the thread pool, one node at a time. */
module ThreadPoolInvariant {
  import opened Options
  import opened Tickets
  import opened ThreadPool
  import A = ArenaModel

  /** Functions to be run for these items, in order. */
  function Funcs(items: seq<Item>): seq<nat> {
    if items == [] then []
    else Funcs(items[..|items| - 1]) +
         if items[|items| - 1].Job? && items[|items| - 1].hasFunc then [items[|items| - 1].t] else []
  }

  lemma FuncsAfter(items: seq<Item>, item: Item)
    ensures Funcs(items + [item]) == if item.Job? && item.hasFunc then Funcs(items) + [item.t] else Funcs(items)
  {
    assert (items + [item])[..|items|] == items;
  }

  predicate Over(pc: NPc) {
    pc.NSet? || pc.NReturn? || pc.NDone?
  }

  ghost predicate QueueInv(nd: Node) {
    && nd.pushed == nd.popped + nd.queue
    && (forall k :: 0 <= k < |nd.pushed| && nd.pushed[k] == Null ==> k == |nd.pushed| - 1)
    && (forall k :: 0 <= k < |nd.popped| && nd.popped[k] == Null ==> Over(nd.pc))
    && (Over(nd.pc) ==> nd.popped != [] && nd.popped[|nd.popped| - 1] == Null)
    && (Busy(nd.pc) ==> nd.popped != [] && nd.popped[|nd.popped| - 1].Job? && nd.popped[|nd.popped| - 1].t == nd.pc.t)
    && (nd.pc.NRun? ==> nd.popped[|nd.popped| - 1].hasFunc)
    && (nd.terminated <==> nd.pc.NReturn? || nd.pc.NDone?)
  }

  /** The stage of the task that is the k-th pushed item. */
  predicate StageAt(nd: Node, k: nat, stage: Stage) {
    if k >= |nd.popped| then stage.Queued?
    else if k == |nd.popped| - 1 && Busy(nd.pc) then
      (match nd.pc
       case NGot(_) => stage.Taken?
       case NRun(_) => stage.Running?
       case _ => stage.Ran?)
    else stage.Released?
  }

  ghost predicate JobInv(n: nat, tasks: seq<Task>, i: nat, nd: Node)
    requires n > 0
  {
    && (forall k :: 0 <= k < |nd.pushed| && nd.pushed[k].Job? ==>
          nd.pushed[k].t < |tasks| && NodeOf(n, nd.pushed[k].t) == i
          && nd.pushed[k].hasFunc == tasks[nd.pushed[k].t].spec.hasFunc
          && StageAt(nd, k, tasks[nd.pushed[k].t].stage))
    && (forall k, l :: 0 <= k < l < |nd.pushed| && nd.pushed[k].Job? && nd.pushed[l].Job? ==> nd.pushed[k].t != nd.pushed[l].t)
    && (forall t :: 0 <= t < |tasks| && NodeOf(n, t) == i && IsQueued(tasks[t].stage) ==>
          Job(t, tasks[t].spec.hasFunc) in nd.pushed)
  }

  predicate Live(stage: Stage) {
    !stage.Ticketed? && !stage.Released?
  }

  predicate Placed(n: nat, tasks: seq<Task>, i: nat, t: int)
    requires n > 0
  {
    0 <= t < |tasks| && NodeOf(n, t) == i && Live(tasks[t].stage) && tasks[t].ptr.Some?
  }

  /** Where the live tasks of node `i` lie. */
  ghost function Homes(n: nat, tasks: seq<Task>, i: nat): map<int, A.Ptr>
    requires n > 0
  {
    map t | 0 <= t < |tasks| && Placed(n, tasks, i, t) :: tasks[t].ptr.value
  }

  ghost predicate IsHome(homes: map<int, A.Ptr>, p: A.Ptr) {
    exists t :: t in homes && homes[t] == p
  }

  /** The objects in use are exactly the homes, and no two tasks share one. */
  ghost predicate Houses(a: A.State, homes: map<int, A.Ptr>) {
    && A.Sound(a) && (a.count == 0 ==> a.free == [])
    && (forall t :: t in homes ==> A.InUse(a, homes[t]))
    && (forall t, u :: t in homes && u in homes && t != u ==> homes[t] != homes[u])
    && (forall p :: A.InUse(a, p) ==> IsHome(homes, p))
  }

  ghost predicate ArenaInv(n: nat, cap: nat, tasks: seq<Task>, i: nat, nd: Node)
    requires n > 0
  {
    && nd.arena.capacity == cap && Houses(nd.arena, Homes(n, tasks, i))
    && (forall t :: 0 <= t < |tasks| && NodeOf(n, t) == i && Live(tasks[t].stage) ==> tasks[t].ptr.Some?)
  }

  ghost predicate RanInv(nd: Node) {
    nd.ran == Funcs(if nd.pc.NGot? && nd.popped != [] then nd.popped[..|nd.popped| - 1] else nd.popped)
  }

  ghost predicate NodeInv(n: nat, cap: nat, tasks: seq<Task>, i: nat, nd: Node)
    requires n > 0
  {
    QueueInv(nd) && JobInv(n, tasks, i, nd) && ArenaInv(n, cap, tasks, i, nd) && RanInv(nd)
  }

  /** Nothing that node `i` depends on has changed. */
  ghost predicate Agree(n: nat, tasks: seq<Task>, tasks': seq<Task>, i: nat)
    requires n > 0
  {
    && |tasks| <= |tasks'|
    && (forall t :: 0 <= t < |tasks| && NodeOf(n, t) == i ==> tasks'[t] == tasks[t])
    && (forall t :: |tasks| <= t < |tasks'| ==> tasks'[t].stage.Ticketed?)
  }

  lemma OtherNode(n: nat, cap: nat, tasks: seq<Task>, tasks': seq<Task>, i: nat, nd: Node)
    requires n > 0 && NodeInv(n, cap, tasks, i, nd) && Agree(n, tasks, tasks', i)
    ensures NodeInv(n, cap, tasks', i, nd)
  {
    OtherHomes(n, tasks, tasks', i);
    OtherJobs(n, tasks, tasks', i, nd);
  }

  lemma OtherHomes(n: nat, tasks: seq<Task>, tasks': seq<Task>, i: nat)
    requires n > 0 && Agree(n, tasks, tasks', i)
    ensures Homes(n, tasks', i) == Homes(n, tasks, i)
  {
    assert forall t :: Placed(n, tasks', i, t) <==> Placed(n, tasks, i, t);
  }

  lemma OtherJobs(n: nat, tasks: seq<Task>, tasks': seq<Task>, i: nat, nd: Node)
    requires n > 0 && JobInv(n, tasks, i, nd) && Agree(n, tasks, tasks', i)
    ensures JobInv(n, tasks', i, nd)
  {
  }

  /** TecThrPool_done against the nodes. */
  ghost predicate DoneInv(c: Config, s: State) {
    && (s.dpc.DPush? || s.dpc.DWait? || s.dpc.DJoin? ==> s.dpc.i < |s.nodes|)
    && (!s.dpc.DIdle? ==> forall t :: 0 <= t < |s.tasks| ==> IsQueued(s.tasks[t].stage))
    && (forall i :: 0 <= i < |s.nodes| ==> (Null in s.nodes[i].pushed <==> Ended(s.dpc, i)))
    && (forall i :: 0 <= i < |s.nodes| && Joined(s.dpc, i) ==> s.nodes[i].pc.NDone?)
    && (s.dpc.DJoin? ==> s.nodes[s.dpc.i].terminated)
  }

  /** Its NULL has been pushed. */
  predicate Ended(d: DPc, i: nat) {
    match d
    case DIdle => false
    case DPush(j) => i < j
    case DWait(j) => i <= j
    case DJoin(j) => i <= j
    case DDone => true
  }

  /** Its thread has been waited for. */
  predicate Joined(d: DPc, i: nat) {
    match d
    case DIdle => false
    case DPush(j) => i < j
    case DWait(j) => i < j
    case DJoin(j) => i < j
    case DDone => true
  }

  ghost predicate Inv(c: Config, s: State) {
    && c.n > 0 && |s.nodes| == c.n
    && (forall i :: 0 <= i < c.n ==> NodeInv(c.n, c.cap, s.tasks, i, s.nodes[i]))
    && DoneInv(c, s)
  }

  // ----- Enqueue

  predicate BeforeQueue(stage: Stage) {
    stage.Ticketed? || stage.Allocated? || stage.Copying? || stage.Filled?
  }

  lemma QueuePushed(nd: Node, nd': Node, item: Item)
    requires QueueInv(nd) && RanInv(nd) && Null !in nd.pushed
    requires nd' == nd.(queue := nd.queue + [item], pushed := nd.pushed + [item])
    ensures QueueInv(nd') && RanInv(nd')
  {
  }

  lemma QueueSame(nd: Node, nd': Node)
    requires QueueInv(nd) && RanInv(nd)
    requires nd' == nd.(arena := nd'.arena, region := nd'.region, copying := nd'.copying, mixed := nd'.mixed)
    ensures QueueInv(nd') && RanInv(nd')
  {
  }

  lemma EnqueueKeepsQueue(c: Config, task: Task, t: nat, h: nat, nd: Node)
    requires QueueInv(nd) && RanInv(nd) && Null !in nd.pushed && EnqueueStep(c, task, t, h, nd).Some?
    ensures var nd' := EnqueueStep(c, task, t, h, nd).value.1; QueueInv(nd') && RanInv(nd')
  {
    var nd' := EnqueueStep(c, task, t, h, nd).value.1;
    if task.stage.Filled? {
      QueuePushed(nd, nd', Job(t, task.spec.hasFunc));
    } else {
      QueueSame(nd, nd');
    }
  }

  lemma EnqueueKeepsJobs(c: Config, tasks: seq<Task>, t: nat, h: nat, i: nat, nd: Node)
    requires c.n > 0 && t < |tasks| && i == NodeOf(c.n, t)
    requires QueueInv(nd) && JobInv(c.n, tasks, i, nd) && EnqueueStep(c, tasks[t], t, h, nd).Some?
    ensures var (task', nd') := EnqueueStep(c, tasks[t], t, h, nd).value; JobInv(c.n, tasks[t := task'], i, nd')
  {
    var (task', nd') := EnqueueStep(c, tasks[t], t, h, nd).value;
    assert BeforeQueue(tasks[t].stage);
    assert forall k :: 0 <= k < |nd.pushed| && nd.pushed[k].Job? ==> nd.pushed[k].t != t;
    if tasks[t].stage.Filled? {
      JobPushed(c.n, tasks, t, i, nd, nd', task');
    } else {
      JobsSame(c.n, tasks, t, i, nd, nd', task');
    }
  }

  lemma JobsSame(n: nat, tasks: seq<Task>, t: nat, i: nat, nd: Node, nd': Node, task': Task)
    requires n > 0 && t < |tasks| && JobInv(n, tasks, i, nd)
    requires forall k :: 0 <= k < |nd.pushed| && nd.pushed[k].Job? ==> nd.pushed[k].t != t
    requires !IsQueued(task'.stage) && nd'.pushed == nd.pushed && nd'.popped == nd.popped && nd'.pc == nd.pc
    ensures JobInv(n, tasks[t := task'], i, nd')
  {
  }

  lemma JobPushed(n: nat, tasks: seq<Task>, t: nat, i: nat, nd: Node, nd': Node, task': Task)
    requires n > 0 && t < |tasks| && i == NodeOf(n, t) && JobInv(n, tasks, i, nd) && |nd.popped| <= |nd.pushed|
    requires forall k :: 0 <= k < |nd.pushed| && nd.pushed[k].Job? ==> nd.pushed[k].t != t
    requires task'.stage.Queued? && nd'.pushed == nd.pushed + [Job(t, task'.spec.hasFunc)]
    requires nd'.popped == nd.popped && nd'.pc == nd.pc
    ensures JobInv(n, tasks[t := task'], i, nd')
  {
    var tasks' := tasks[t := task'];
    forall u | 0 <= u < |tasks'| && NodeOf(n, u) == i && IsQueued(tasks'[u].stage)
      ensures Job(u, tasks'[u].spec.hasFunc) in nd'.pushed
    {
      if u == t {
        assert nd'.pushed[|nd.pushed|] == Job(t, task'.spec.hasFunc);
      } else {
        assert Job(u, tasks[u].spec.hasFunc) in nd.pushed;
      }
    }
  }

  /** A new task gets an object that no other task holds. */
  lemma HouseNew(a: A.State, homes: map<int, A.Ptr>, t: int, h: nat)
    requires Houses(a, homes) && t !in homes && h !in a.heap
    ensures !IsHome(homes, A.Allocate(a, h).1)
    ensures Houses(A.Allocate(a, h).0, homes[t := A.Allocate(a, h).1])
    ensures A.Allocate(a, h).0.capacity == a.capacity
  {
    A.AllocateIsSound(a, h);
    var (a', p) := A.Allocate(a, h);
    assert a'.count == 0 ==> a'.free == [];
    assert forall q :: A.InUse(a', q) <==> q == p || A.InUse(a, q);
    HouseAdd(a, a', homes, t, p);
  }

  lemma HouseAdd(a: A.State, a': A.State, homes: map<int, A.Ptr>, t: int, p: A.Ptr)
    requires Houses(a, homes) && t !in homes && !A.InUse(a, p)
    requires A.Sound(a') && (a'.count == 0 ==> a'.free == [])
    requires forall q :: A.InUse(a', q) <==> q == p || A.InUse(a, q)
    ensures !IsHome(homes, p) && Houses(a', homes[t := p])
  {
    hide A.InUse, A.Sound;
    var homes' := homes[t := p];
    forall q | A.InUse(a', q)
      ensures IsHome(homes', q)
    {
      if q == p {
        assert homes'[t] == q;
      } else {
        var u :| u in homes && homes[u] == q;
        assert homes'[u] == q;
      }
    }
  }

  /** A release gives back the object of its own task. */
  lemma HouseLeft(a: A.State, homes: map<int, A.Ptr>, t: int)
    requires Houses(a, homes) && t in homes
    ensures A.Allowed(a, A.Free(homes[t])) && A.Release(a, homes[t]).capacity == a.capacity
    ensures Houses(A.Release(a, homes[t]), homes - {t})
  {
    A.ReleaseIsSound(a, homes[t]);
    var a' := A.Release(a, homes[t]);
    assert a'.count == 0 ==> a'.free == [];
    assert forall q :: A.InUse(a', q) <==> q != homes[t] && A.InUse(a, q);
    HouseRemove(a, a', homes, t);
  }

  lemma HouseRemove(a: A.State, a': A.State, homes: map<int, A.Ptr>, t: int)
    requires Houses(a, homes) && t in homes
    requires A.Sound(a') && (a'.count == 0 ==> a'.free == [])
    requires forall q :: A.InUse(a', q) <==> q != homes[t] && A.InUse(a, q)
    ensures Houses(a', homes - {t})
  {
    hide A.InUse, A.Sound;
    forall q | A.InUse(a', q)
      ensures IsHome(homes - {t}, q)
    {
      var u :| u in homes && homes[u] == q;
      assert (homes - {t})[u] == q;
    }
  }

  /** What one task's move does to the homes of its node. */
  lemma HomesAfter(n: nat, tasks: seq<Task>, i: nat, t: nat, task': Task)
    requires n > 0 && t < |tasks| && NodeOf(n, t) == i
    ensures Homes(n, tasks[t := task'], i) ==
      if Live(task'.stage) && task'.ptr.Some? then Homes(n, tasks, i)[t := task'.ptr.value] else Homes(n, tasks, i) - {t}
  {
    var tasks' := tasks[t := task'];
    assert forall u :: u != t ==> (Placed(n, tasks', i, u) <==> Placed(n, tasks, i, u));
  }

  lemma ArenaTakes(n: nat, cap: nat, tasks: seq<Task>, i: nat, nd: Node, nd': Node, t: nat, h: nat, task': Task)
    requires n > 0 && ArenaInv(n, cap, tasks, i, nd) && t < |tasks| && NodeOf(n, t) == i
    requires tasks[t].stage.Ticketed? && task'.stage.Allocated? && h !in nd.arena.heap
    requires nd'.arena == A.Allocate(nd.arena, h).0 && task'.ptr == Some(A.Allocate(nd.arena, h).1)
    ensures ArenaInv(n, cap, tasks[t := task'], i, nd')
  {
    hide Houses;
    assert t !in Homes(n, tasks, i);
    HouseNew(nd.arena, Homes(n, tasks, i), t, h);
    HomesAfter(n, tasks, i, t, task');
  }

  /** A live task moves on and stays where it lies. */
  lemma ArenaSame(n: nat, cap: nat, tasks: seq<Task>, i: nat, nd: Node, nd': Node, t: nat, task': Task)
    requires n > 0 && ArenaInv(n, cap, tasks, i, nd) && t < |tasks| && NodeOf(n, t) == i
    requires Live(tasks[t].stage) && Live(task'.stage) && task'.ptr == tasks[t].ptr && nd'.arena == nd.arena
    ensures ArenaInv(n, cap, tasks[t := task'], i, nd')
  {
    hide Houses;
    HomesAfter(n, tasks, i, t, task');
    var homes := Homes(n, tasks, i);
    assert t in homes && homes[t] == task'.ptr.value;
    assert homes[t := task'.ptr.value] == homes;
  }

  lemma ArenaReleases(n: nat, cap: nat, tasks: seq<Task>, i: nat, nd: Node, nd': Node, t: nat, task': Task)
    requires n > 0 && ArenaInv(n, cap, tasks, i, nd) && Placed(n, tasks, i, t) && task'.stage.Released?
    requires A.Allowed(nd.arena, A.Free(tasks[t].ptr.value))
    requires nd'.arena == A.Release(nd.arena, tasks[t].ptr.value)
    ensures ArenaInv(n, cap, tasks[t := task'], i, nd')
  {
    hide Houses;
    assert t in Homes(n, tasks, i);
    HouseLeft(nd.arena, Homes(n, tasks, i), t);
    HomesAfter(n, tasks, i, t, task');
  }

  lemma EnqueueShape(c: Config, task: Task, t: nat, h: nat, nd: Node)
    requires EnqueueStep(c, task, t, h, nd).Some? && !task.stage.Ticketed?
    ensures var (task', nd') := EnqueueStep(c, task, t, h, nd).value;
      Live(task.stage) && Live(task'.stage) && task'.ptr == task.ptr && nd'.arena == nd.arena
  {
  }

  lemma EnqueueKeepsArena(c: Config, tasks: seq<Task>, t: nat, h: nat, i: nat, nd: Node)
    requires c.n > 0 && t < |tasks| && i == NodeOf(c.n, t)
    requires ArenaInv(c.n, c.cap, tasks, i, nd) && EnqueueStep(c, tasks[t], t, h, nd).Some?
    ensures var (task', nd') := EnqueueStep(c, tasks[t], t, h, nd).value; ArenaInv(c.n, c.cap, tasks[t := task'], i, nd')
  {
    hide ArenaInv;
    var (task', nd') := EnqueueStep(c, tasks[t], t, h, nd).value;
    if tasks[t].stage.Ticketed? {
      ArenaTakes(c.n, c.cap, tasks, i, nd, nd', t, h, task');
    } else {
      EnqueueShape(c, tasks[t], t, h, nd);
      ArenaSame(c.n, c.cap, tasks, i, nd, nd', t, task');
    }
  }

  // ----- The node thread

  lemma PopKeepsQueue(nd: Node)
    requires QueueInv(nd) && RanInv(nd) && nd.pc.NPop? && nd.queue != []
    ensures QueueInv(PopItem(nd)) && RanInv(PopItem(nd))
  {
    var nd' := PopItem(nd);
    assert nd.pushed[|nd.popped|] == nd.queue[0];
    assert nd.pushed == (nd.popped + [nd.queue[0]]) + nd.queue[1..];
    assert nd'.popped[..|nd.popped|] == nd.popped;
    FuncsAfter(nd.popped, nd.queue[0]);
  }

  lemma PopKeepsJobs(n: nat, tasks: seq<Task>, i: nat, nd: Node)
    requires n > 0 && QueueInv(nd) && JobInv(n, tasks, i, nd) && nd.pc.NPop? && nd.queue != []
    ensures nd.queue[0].Null? ==> JobInv(n, tasks, i, PopItem(nd))
    ensures nd.queue[0].Job? ==> nd.queue[0].t < |tasks| && NodeOf(n, nd.queue[0].t) == i && tasks[nd.queue[0].t].stage.Queued?
    ensures nd.queue[0].Job? ==>
              JobInv(n, tasks[nd.queue[0].t := tasks[nd.queue[0].t].(stage := Taken)], i, PopItem(nd))
  {
    assert nd.pushed[|nd.popped|] == nd.queue[0];
    if nd.queue[0].Job? {
      var t := nd.queue[0].t;
      JobMoves(n, tasks, i, nd, PopItem(nd), |nd.popped|, tasks[t].(stage := Taken));
    }
  }

  /** The task of the k-th item moves on; the other items' tasks stay. */
  lemma JobMoves(n: nat, tasks: seq<Task>, i: nat, nd: Node, nd': Node, k: nat, task': Task)
    requires n > 0 && JobInv(n, tasks, i, nd) && k < |nd.pushed| && nd.pushed[k].Job? && nd'.pushed == nd.pushed
    requires IsQueued(task'.stage) && task'.spec == tasks[nd.pushed[k].t].spec && StageAt(nd', k, task'.stage)
    requires forall l, stage :: 0 <= l < |nd.pushed| && l != k && StageAt(nd, l, stage) ==> StageAt(nd', l, stage)
    requires IsQueued(tasks[nd.pushed[k].t].stage)
    ensures JobInv(n, tasks[nd.pushed[k].t := task'], i, nd')
  {
  }

  lemma BusyKeepsQueue(nd: Node, task: Task, t: nat)
    requires QueueInv(nd) && RanInv(nd) && Busy(nd.pc) && nd.pc.t == t && NodeStep(nd, task, t).Some?
    requires task.spec.hasFunc == nd.popped[|nd.popped| - 1].hasFunc
    ensures var nd' := NodeStep(nd, task, t).value.1; QueueInv(nd') && RanInv(nd')
  {
    if nd.pc.NGot? {
      GotKeepsRan(nd, task, t);
    }
  }

  lemma GotKeepsRan(nd: Node, task: Task, t: nat)
    requires QueueInv(nd) && RanInv(nd) && nd.pc.NGot? && nd.pc.t == t && NodeStep(nd, task, t).Some?
    requires task.spec.hasFunc == nd.popped[|nd.popped| - 1].hasFunc
    ensures RanInv(NodeStep(nd, task, t).value.1)
  {
    var before := nd.popped[..|nd.popped| - 1];
    assert nd.popped == before + [nd.popped[|nd.popped| - 1]];
    FuncsAfter(before, nd.popped[|nd.popped| - 1]);
  }

  lemma BusyTask(n: nat, tasks: seq<Task>, i: nat, nd: Node)
    requires n > 0 && QueueInv(nd) && JobInv(n, tasks, i, nd) && Busy(nd.pc)
    ensures var k := |nd.popped| - 1; var t := nd.pc.t;
      && nd.pushed[k] == nd.popped[k] && t < |tasks| && NodeOf(n, t) == i
      && StageAt(nd, k, tasks[t].stage) && tasks[t].spec.hasFunc == nd.popped[k].hasFunc
  {
    assert nd.pushed[|nd.popped| - 1] == nd.popped[|nd.popped| - 1];
  }

  lemma BusyKeepsJobs(n: nat, tasks: seq<Task>, i: nat, nd: Node)
    requires n > 0 && QueueInv(nd) && JobInv(n, tasks, i, nd) && Busy(nd.pc)
    requires nd.pc.t < |tasks| && NodeStep(nd, tasks[nd.pc.t], nd.pc.t).Some?
    ensures var (task', nd') := NodeStep(nd, tasks[nd.pc.t], nd.pc.t).value;
      JobInv(n, tasks[nd.pc.t := task'], i, nd')
  {
    BusyTask(n, tasks, i, nd);
    var (task', nd') := NodeStep(nd, tasks[nd.pc.t], nd.pc.t).value;
    JobMoves(n, tasks, i, nd, nd', |nd.popped| - 1, task');
  }

  lemma BusyKeepsArena(n: nat, cap: nat, tasks: seq<Task>, i: nat, nd: Node)
    requires n > 0 && QueueInv(nd) && JobInv(n, tasks, i, nd) && ArenaInv(n, cap, tasks, i, nd) && Busy(nd.pc)
    requires nd.pc.t < |tasks| && NodeStep(nd, tasks[nd.pc.t], nd.pc.t).Some?
    ensures var (task', nd') := NodeStep(nd, tasks[nd.pc.t], nd.pc.t).value;
      ArenaInv(n, cap, tasks[nd.pc.t := task'], i, nd')
  {
    hide ArenaInv, QueueInv, JobInv;
    BusyTask(n, tasks, i, nd);
    var t := nd.pc.t;
    var (task', nd') := NodeStep(nd, tasks[t], t).value;
    if nd.pc.NRelease? {
      IsPlaced(n, cap, tasks, i, nd, t);
      ArenaReleases(n, cap, tasks, i, nd, nd', t, task');
    } else {
      ArenaSame(n, cap, tasks, i, nd, nd', t, task');
    }
  }

  /** The object of a live task can be released. */
  lemma IsPlaced(n: nat, cap: nat, tasks: seq<Task>, i: nat, nd: Node, t: nat)
    requires n > 0 && ArenaInv(n, cap, tasks, i, nd) && t < |tasks| && NodeOf(n, t) == i && Live(tasks[t].stage)
    ensures Placed(n, tasks, i, t) && A.Allowed(nd.arena, A.Free(tasks[t].ptr.value))
  {
    assert t in Homes(n, tasks, i);
    HouseLeft(nd.arena, Homes(n, tasks, i), t);
  }

  // ----- One step

  /** A step that touches one task and its node keeps every node's invariant. */
  lemma OneTask(c: Config, s: State, t: nat, task': Task, nd': Node)
    requires Inv(c, s) && t < |s.tasks|
    requires NodeInv(c.n, c.cap, s.tasks[t := task'], NodeOf(c.n, t), nd')
    ensures var s' := SetTask(s, t, task', NodeOf(c.n, t), nd');
      forall i :: 0 <= i < c.n ==> NodeInv(c.n, c.cap, s'.tasks, i, s'.nodes[i])
  {
    var s' := SetTask(s, t, task', NodeOf(c.n, t), nd');
    forall i | 0 <= i < c.n
      ensures NodeInv(c.n, c.cap, s'.tasks, i, s'.nodes[i])
    {
      if i != NodeOf(c.n, t) {
        assert s'.nodes[i] == s.nodes[i];
        OtherNode(c.n, c.cap, s.tasks, s'.tasks, i, s.nodes[i]);
      }
    }
  }

  lemma TakeKeeps(c: Config, s: State, spec: Spec)
    requires Inv(c, s) && TakeTicket(c, s, spec).Some?
    ensures Inv(c, TakeTicket(c, s, spec).value)
  {
    var s' := TakeTicket(c, s, spec).value;
    forall i | 0 <= i < c.n
      ensures NodeInv(c.n, c.cap, s'.tasks, i, s'.nodes[i])
    {
      OtherNode(c.n, c.cap, s.tasks, s'.tasks, i, s.nodes[i]);
    }
  }

  lemma EnqueueKeeps(c: Config, s: State, t: nat, h: nat)
    requires Inv(c, s) && t < |s.tasks| && EnqueueStep(c, s.tasks[t], t, h, s.nodes[NodeOf(c.n, t)]).Some?
    ensures var (task', nd') := EnqueueStep(c, s.tasks[t], t, h, s.nodes[NodeOf(c.n, t)]).value;
      Inv(c, SetTask(s, t, task', NodeOf(c.n, t), nd'))
  {
    var i := NodeOf(c.n, t);
    var nd := s.nodes[i];
    var (task', nd') := EnqueueStep(c, s.tasks[t], t, h, nd).value;
    assert s.dpc.DIdle? by {
      assert !IsQueued(s.tasks[t].stage);
    }
    assert Null !in nd.pushed;
    EnqueueKeepsQueue(c, s.tasks[t], t, h, nd);
    EnqueueKeepsJobs(c, s.tasks, t, h, i, nd);
    EnqueueKeepsArena(c, s.tasks, t, h, i, nd);
    OneTask(c, s, t, task', nd');
    EnqueueNoNull(c, s.tasks[t], t, h, nd);
  }

  lemma EnqueueNoNull(c: Config, task: Task, t: nat, h: nat, nd: Node)
    requires Null !in nd.pushed && EnqueueStep(c, task, t, h, nd).Some?
    ensures Null !in EnqueueStep(c, task, t, h, nd).value.1.pushed
  {
  }

  lemma ThreadKeeps(c: Config, s: State, i: nat)
    requires Inv(c, s) && i < c.n && ThreadStep(s, i).Some?
    ensures Inv(c, ThreadStep(s, i).value)
  {
    var nd := s.nodes[i];
    if nd.pc.NPop? {
      PopKeeps(c, s, i);
    } else if Busy(nd.pc) {
      BusyKeeps(c, s, i);
    } else {
      SetKeeps(c, s, i);
    }
  }

  /** A node step pushes nothing, unqueues nothing and does not restart a finished thread. */
  lemma DoneSame(c: Config, s: State, s': State, i: nat)
    requires DoneInv(c, s) && i < |s.nodes| && s'.dpc == s.dpc && |s'.tasks| == |s.tasks|
    requires |s'.nodes| == |s.nodes| && s'.nodes == s.nodes[i := s'.nodes[i]] && s'.nodes[i].pushed == s.nodes[i].pushed
    requires s.nodes[i].pc.NDone? ==> s'.nodes[i].pc.NDone?
    requires s.nodes[i].terminated ==> s'.nodes[i].terminated
    requires forall t :: 0 <= t < |s.tasks| && IsQueued(s.tasks[t].stage) ==> IsQueued(s'.tasks[t].stage)
    ensures DoneInv(c, s')
  {
  }

  lemma OneNode(c: Config, s: State, i: nat, nd': Node)
    requires Inv(c, s) && i < c.n && NodeInv(c.n, c.cap, s.tasks, i, nd')
    ensures var s' := s.(nodes := s.nodes[i := nd']);
      forall j :: 0 <= j < c.n ==> NodeInv(c.n, c.cap, s'.tasks, j, s'.nodes[j])
  {
  }

  lemma PopNullKeeps(c: Config, s: State, i: nat)
    requires Inv(c, s) && i < c.n && s.nodes[i].pc.NPop? && s.nodes[i].queue != [] && s.nodes[i].queue[0].Null?
    ensures Inv(c, s.(nodes := s.nodes[i := PopItem(s.nodes[i])]))
  {
    PopKeepsQueue(s.nodes[i]);
    PopKeepsJobs(c.n, s.tasks, i, s.nodes[i]);
    OneNode(c, s, i, PopItem(s.nodes[i]));
    DoneSame(c, s, s.(nodes := s.nodes[i := PopItem(s.nodes[i])]), i);
  }

  lemma PopJobKeeps(c: Config, s: State, i: nat, t: nat)
    requires Inv(c, s) && i < c.n && s.nodes[i].pc.NPop? && s.nodes[i].queue != []
    requires s.nodes[i].queue[0].Job? && s.nodes[i].queue[0].t == t && t < |s.tasks|
    ensures Inv(c, SetTask(s, t, s.tasks[t].(stage := Taken), i, PopItem(s.nodes[i])))
  {
    var nd := s.nodes[i];
    var task' := s.tasks[t].(stage := Taken);
    PopKeepsQueue(nd);
    PopKeepsJobs(c.n, s.tasks, i, nd);
    ArenaSame(c.n, c.cap, s.tasks, i, nd, PopItem(nd), t, task');
    OneTask(c, s, t, task', PopItem(nd));
    DoneSame(c, s, SetTask(s, t, task', i, PopItem(nd)), i);
  }

  lemma PopKeeps(c: Config, s: State, i: nat)
    requires Inv(c, s) && i < c.n && s.nodes[i].pc.NPop? && ThreadStep(s, i).Some?
    ensures Inv(c, ThreadStep(s, i).value)
  {
    if s.nodes[i].queue[0].Null? {
      PopNullKeeps(c, s, i);
    } else {
      PopJobKeeps(c, s, i, s.nodes[i].queue[0].t);
    }
  }

  lemma BusyShape(nd: Node, task: Task, t: nat)
    requires Busy(nd.pc) && NodeStep(nd, task, t).Some?
    ensures var (task', nd') := NodeStep(nd, task, t).value;
      nd'.pushed == nd.pushed && nd'.terminated == nd.terminated && IsQueued(task'.stage)
  {
  }

  lemma BusyKeeps(c: Config, s: State, i: nat)
    requires Inv(c, s) && i < c.n && Busy(s.nodes[i].pc) && ThreadStep(s, i).Some?
    ensures Inv(c, ThreadStep(s, i).value)
  {
    hide QueueInv, JobInv, ArenaInv, RanInv, NodeStep, DoneInv;
    var nd := s.nodes[i];
    BusyTask(c.n, s.tasks, i, nd);
    var t := nd.pc.t;
    var (task', nd') := NodeStep(nd, s.tasks[t], t).value;
    BusyShape(nd, s.tasks[t], t);
    BusyKeepsQueue(nd, s.tasks[t], t);
    BusyKeepsJobs(c.n, s.tasks, i, nd);
    BusyKeepsArena(c.n, c.cap, s.tasks, i, nd);
    OneTask(c, s, t, task', nd');
    DoneSame(c, s, SetTask(s, t, task', i, nd'), i);
  }

  /** The thread behind its loop: it sets the signal, and returns. */
  function Ending(nd: Node): Node {
    if nd.pc.NSet? then nd.(terminated := true, pc := NReturn) else nd.(pc := NDone)
  }

  lemma NodeSet(n: nat, cap: nat, tasks: seq<Task>, i: nat, nd: Node)
    requires n > 0 && NodeInv(n, cap, tasks, i, nd) && (nd.pc.NSet? || nd.pc.NReturn?)
    ensures NodeInv(n, cap, tasks, i, Ending(nd))
  {
  }

  lemma SetKeeps(c: Config, s: State, i: nat)
    requires Inv(c, s) && i < c.n && (s.nodes[i].pc.NSet? || s.nodes[i].pc.NReturn?)
    ensures Inv(c, s.(nodes := s.nodes[i := Ending(s.nodes[i])]))
  {
    var nd' := Ending(s.nodes[i]);
    NodeSet(c.n, c.cap, s.tasks, i, s.nodes[i]);
    OneNode(c, s, i, nd');
    DoneSame(c, s, s.(nodes := s.nodes[i := nd']), i);
  }

  lemma NullKeeps(n: nat, cap: nat, tasks: seq<Task>, i: nat, nd: Node)
    requires n > 0 && NodeInv(n, cap, tasks, i, nd) && Null !in nd.pushed
    ensures NodeInv(n, cap, tasks, i, nd.(queue := nd.queue + [Null], pushed := nd.pushed + [Null]))
  {
    var nd' := nd.(queue := nd.queue + [Null], pushed := nd.pushed + [Null]);
    QueuePushed(nd, nd', Null);
    NullKeepsJobs(n, tasks, i, nd);
  }

  lemma NullKeepsJobs(n: nat, tasks: seq<Task>, i: nat, nd: Node)
    requires n > 0 && JobInv(n, tasks, i, nd)
    ensures JobInv(n, tasks, i, nd.(queue := nd.queue + [Null], pushed := nd.pushed + [Null]))
  {
  }

  lemma DonePushKeeps(c: Config, s: State)
    requires Inv(c, s) && s.dpc.DPush? && DoneStep(c, s).Some?
    ensures Inv(c, DoneStep(c, s).value)
  {
    var i := s.dpc.i;
    var nd := s.nodes[i];
    var nd' := nd.(queue := nd.queue + [Null], pushed := nd.pushed + [Null]);
    NullKeeps(c.n, c.cap, s.tasks, i, nd);
    OneNode(c, s, i, nd');
    assert nd'.pushed[|nd.pushed|] == Null;
  }

  lemma DoneKeeps(c: Config, s: State)
    requires Inv(c, s) && DoneStep(c, s).Some?
    ensures Inv(c, DoneStep(c, s).value)
  {
    if s.dpc.DPush? {
      DonePushKeeps(c, s);
    } else {
      DoneWaitKeeps(c, s);
    }
  }

  lemma DoneWaitKeeps(c: Config, s: State)
    requires Inv(c, s) && !s.dpc.DPush? && DoneStep(c, s).Some?
    ensures Inv(c, DoneStep(c, s).value)
  {
    hide JobInv, ArenaInv, RanInv;
    var s' := DoneStep(c, s).value;
    assert s'.nodes == s.nodes && s'.tasks == s.tasks;
    assert DoneInv(c, s');
  }

  lemma NextKeeps(c: Config, s: State, a: Action)
    requires Inv(c, s) && Next(c, s, a).Some?
    ensures Inv(c, Next(c, s, a).value)
  {
    match a
    case Take(spec) => TakeKeeps(c, s, spec);
    case Enqueue(t, h) => EnqueueKeeps(c, s, t, h);
    case Step(i) => ThreadKeeps(c, s, i);
    case Done => DoneKeeps(c, s);
  }

  lemma InitNodeInv(c: Config, i: nat)
    requires c.n > 0
    ensures NodeInv(c.n, c.cap, [], i, InitNode(c.cap))
  {
    hide ArenaInv;
    InitArenaInv(c, i);
  }

  lemma InitArenaInv(c: Config, i: nat)
    requires c.n > 0
    ensures ArenaInv(c.n, c.cap, [], i, InitNode(c.cap))
  {
    assert Homes(c.n, [], i) == map[];
    assert A.Sound(A.Init(c.cap));
  }

  lemma InitInv(c: Config)
    requires c.n > 0
    ensures Inv(c, Init(c))
  {
    hide NodeInv;
    forall i | 0 <= i < c.n
      ensures NodeInv(c.n, c.cap, [], i, Init(c).nodes[i])
    {
      InitNodeInv(c, i);
    }
  }

  lemma {:induction false} RunsInv(c: Config, acts: seq<Action>)
    requires c.n > 0 && Runs(c, acts).Some?
    ensures Inv(c, Runs(c, acts).value)
    decreases |acts|
  {
    if acts == [] {
      InitInv(c);
    } else {
      RunsInv(c, acts[..|acts| - 1]);
      NextKeeps(c, Runs(c, acts[..|acts| - 1]).value, acts[|acts| - 1]);
    }
  }
}
