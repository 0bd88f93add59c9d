/**
 Payload and buffer belong to a node, not to a task (tecc_thread_pool.c:184-192). Every task sees its
 own payload as long as no copy into a region starts while it disturbs a task that is not finished, and
 a copy that starts nevertheless can always be made to do harm.
 */
module TaskIsolation {
  import opened Arithmetic
  import opened Options
  import opened Tickets
  import opened ThreadPool
  import opened ThreadPoolInvariant
  import opened ThreadPoolTheorems
  import R = Arena

  // ----- Regions

  /** The payload (or buffer) regions of different nodes do not overlap and lie inside their block. */
  lemma RegionsDisjoint(base: nat, size: nat, n: nat, i: nat, j: nat, x: nat)
    requires n > 0 && i < n && j < n && i != j
    requires base + i * size <= x < base + i * size + size
    ensures base <= x < base + n * size
    ensures !(base + j * size <= x < base + j * size + size)
  {
    R.SlotAddress(base, size, i);
    R.SlotAddress(base, size, j);
    R.SlotsDisjoint(base, size, i, j, n);
    R.SlotsDisjoint(base, size, j, i, n);
  }

  // ----- When a copy is in order

  predicate HasPayload(c: Config, task: Task) {
    c.hasRegion && task.spec.payload.Some?
  }

  /** The payload given to its enqueue, as a region. */
  function Given(task: Task): Region
    requires task.spec.payload.Some?
  {
    Holds(task.spec.payload.value)
  }

  /** Its payload is in its place and it has not finished. */
  predicate Waiting(stage: Stage) {
    stage.Filled? || stage.Queued? || stage.Taken? || stage.Running?
  }

  /**
   The copy for `task` must not start while `other`, on the same node, is like this: still to read
   the region, or writing it while `task` is going to read it.
   */
  predicate Disturbs(c: Config, task: Task, other: Task) {
    && HasPayload(c, other) && (other.stage.Copying? || Waiting(other.stage))
    && (other.spec.hasFunc || (other.stage.Copying? && task.spec.hasFunc))
  }

  /** The step with which an enqueue begins to copy its payload. */
  predicate StartsCopy(c: Config, s: State, a: Action) {
    a.Enqueue? && a.t < |s.tasks| && s.tasks[a.t].stage.Allocated? && HasPayload(c, s.tasks[a.t])
  }

  ghost predicate Overwrites(c: Config, s: State, t: nat)
    requires c.n > 0 && t < |s.tasks|
  {
    exists u :: 0 <= u < |s.tasks| && u != t && NodeOf(c.n, u) == NodeOf(c.n, t) && Disturbs(c, s.tasks[t], s.tasks[u])
  }

  /** In this run no copy started that disturbs a task. */
  ghost predicate Clean(c: Config, acts: seq<Action>)
    requires c.n > 0 && Runs(c, acts).Some?
  {
    acts == [] ||
    var m := Runs(c, acts[..|acts| - 1]).value;
    var a := acts[|acts| - 1];
    Clean(c, acts[..|acts| - 1]) && (StartsCopy(c, m, a) ==> !Overwrites(c, m, a.t))
  }

  /** Every function that was given a payload found it in the region, at its start and at its end. */
  ghost predicate SeesOwn(c: Config, s: State) {
    forall t :: 0 <= t < |s.tasks| && HasPayload(c, s.tasks[t]) && s.tasks[t].spec.hasFunc ==>
      && (s.tasks[t].stage.Running? || Finished(s.tasks[t].stage) ==> s.tasks[t].seen == Some(Given(s.tasks[t])))
      && (Finished(s.tasks[t].stage) ==> s.tasks[t].seenEnd == Some(Given(s.tasks[t])))
  }

  /**
   The same, on what the callers enqueued: the function of ticket `t` finds the bytes that the `t`-th
   enqueue of the run was given.
   */
  ghost predicate Isolated(c: Config, acts: seq<Action>)
    requires c.n > 0 && Runs(c, acts).Some?
  {
    var s := Runs(c, acts).value;
    forall t :: 0 <= t < |s.tasks| && t < |Takes(acts)| && c.hasRegion ==>
      var given := Takes(acts)[t];
      given.payload.Some? && given.hasFunc ==>
        && (s.tasks[t].stage.Running? || Finished(s.tasks[t].stage) ==> s.tasks[t].seen == Some(Holds(given.payload.value)))
        && (Finished(s.tasks[t].stage) ==> s.tasks[t].seenEnd == Some(Holds(given.payload.value)))
  }

  lemma IsolatedIs(c: Config, acts: seq<Action>)
    requires c.n > 0 && Runs(c, acts).Some?
    ensures Isolated(c, acts) <==> SeesOwn(c, Runs(c, acts).value)
  {
    TasksAreTakes(c, acts);
    var s := Runs(c, acts).value;
    assert forall t :: 0 <= t < |s.tasks| && HasPayload(c, s.tasks[t]) ==>
      Given(s.tasks[t]) == Holds(Takes(acts)[t].payload.value);
  }

  // ----- What holds of regions and tasks

  /** In every run: who is copying, and what a task has seen so far. */
  ghost predicate CopyOk(c: Config, task: Task, t: nat, nd: Node) {
    && (task.stage.Copying? <==> t in nd.copying) && (task.stage.Copying? ==> HasPayload(c, task))
    && (task.seen.Some? ==> task.spec.hasFunc && (task.stage.Running? || Finished(task.stage)))
    && (task.seenEnd.Some? ==> task.spec.hasFunc && Finished(task.stage))
  }

  ghost predicate NodeOk(n: nat, tasks: seq<Task>, i: nat, nd: Node)
    requires n > 0
  {
    && (nd.mixed ==> nd.copying != {})
    && (forall t :: t in nd.copying ==> t < |tasks| && NodeOf(n, t) == i)
  }

  /** In a clean run: the region of a task that is to read it is the task's own. */
  ghost predicate OwnOk(c: Config, task: Task, t: nat, nd: Node) {
    HasPayload(c, task) && task.spec.hasFunc ==>
      && (task.stage.Copying? ==> nd.copying == {t} && !nd.mixed)
      && (Waiting(task.stage) ==> nd.copying == {} && nd.region == Given(task))
      && (task.stage.Running? ==> task.seen == Some(Given(task)))
      && (Finished(task.stage) ==> task.seen == task.seenEnd == Some(Given(task)))
  }

  ghost predicate CopyInv(c: Config, s: State)
    requires c.n > 0 && |s.nodes| == c.n
  {
    && (forall t :: 0 <= t < |s.tasks| ==> CopyOk(c, s.tasks[t], t, s.nodes[NodeOf(c.n, t)]))
    && (forall i :: 0 <= i < c.n ==> NodeOk(c.n, s.tasks, i, s.nodes[i]))
  }

  ghost predicate OwnInv(c: Config, s: State)
    requires c.n > 0 && |s.nodes| == c.n
  {
    forall t :: 0 <= t < |s.tasks| ==> OwnOk(c, s.tasks[t], t, s.nodes[NodeOf(c.n, t)])
  }

  /** Nobody on the node is touched by a copy for `task`. */
  ghost predicate Undisturbed(c: Config, s: State, t: nat)
    requires c.n > 0 && |s.nodes| == c.n
  {
    forall u :: 0 <= u < |s.tasks| && u != t && NodeOf(c.n, u) == NodeOf(c.n, t) ==>
      !(HasPayload(c, s.tasks[u]) && s.tasks[u].spec.hasFunc && (s.tasks[u].stage.Copying? || Waiting(s.tasks[u].stage)))
  }

  lemma CopyAfter(c: Config, s: State, t: nat, task': Task, nd': Node)
    requires c.n > 0 && |s.nodes| == c.n && CopyInv(c, s) && t < |s.tasks|
    requires CopyOk(c, task', t, nd') && (nd'.mixed ==> nd'.copying != {})
    requires forall u :: u != t ==> (u in nd'.copying <==> u in s.nodes[NodeOf(c.n, t)].copying)
    ensures CopyInv(c, SetTask(s, t, task', NodeOf(c.n, t), nd'))
  {
  }

  lemma OwnAfter(c: Config, s: State, t: nat, task': Task, nd': Node)
    requires c.n > 0 && |s.nodes| == c.n && OwnInv(c, s) && t < |s.tasks| && OwnOk(c, task', t, nd')
    requires var nd := s.nodes[NodeOf(c.n, t)];
      || Undisturbed(c, s, t)
      || (nd'.region == nd.region && nd'.copying == nd.copying && nd'.mixed == nd.mixed)
    ensures OwnInv(c, SetTask(s, t, task', NodeOf(c.n, t), nd'))
  {
    var s' := SetTask(s, t, task', NodeOf(c.n, t), nd');
    forall u | 0 <= u < |s'.tasks|
      ensures OwnOk(c, s'.tasks[u], u, s'.nodes[NodeOf(c.n, u)])
    {
      assert OwnOk(c, s.tasks[u], u, s.nodes[NodeOf(c.n, u)]);
    }
  }

  // ----- Enqueue

  lemma EnqueueCopy(c: Config, task: Task, t: nat, h: nat, nd: Node)
    requires CopyOk(c, task, t, nd) && (nd.mixed ==> nd.copying != {}) && EnqueueStep(c, task, t, h, nd).Some?
    ensures var (task', nd') := EnqueueStep(c, task, t, h, nd).value;
      && CopyOk(c, task', t, nd') && (nd'.mixed ==> nd'.copying != {})
      && (forall u :: u != t ==> (u in nd'.copying <==> u in nd.copying))
      && (nd' == nd.(arena := nd'.arena, queue := nd'.queue, pushed := nd'.pushed)
          || (task.stage.Allocated? && HasPayload(c, task)) || task.stage.Copying?)
  {
  }

  lemma EnqueueOwn(c: Config, task: Task, t: nat, h: nat, nd: Node)
    requires CopyOk(c, task, t, nd) && OwnOk(c, task, t, nd) && EnqueueStep(c, task, t, h, nd).Some?
    requires nd.mixed ==> nd.copying != {}
    requires task.stage.Allocated? && HasPayload(c, task) && task.spec.hasFunc ==> nd.copying == {}
    ensures var (task', nd') := EnqueueStep(c, task, t, h, nd).value; OwnOk(c, task', t, nd')
  {
  }

  /** A copy in a clean run starts where nobody copies and nobody waits. */
  lemma CleanStart(c: Config, s: State, t: nat)
    requires c.n > 0 && |s.nodes| == c.n && CopyInv(c, s) && t < |s.tasks|
    requires s.tasks[t].stage.Allocated? && !Overwrites(c, s, t)
    ensures Undisturbed(c, s, t)
    ensures s.tasks[t].spec.hasFunc ==> s.nodes[NodeOf(c.n, t)].copying == {}
  {
    var nd := s.nodes[NodeOf(c.n, t)];
    forall u | 0 <= u < |s.tasks| && u != t && NodeOf(c.n, u) == NodeOf(c.n, t)
      ensures !Disturbs(c, s.tasks[t], s.tasks[u])
    {
    }
    if s.tasks[t].spec.hasFunc && nd.copying != {} {
      var u :| u in nd.copying;
      assert NodeOk(c.n, s.tasks, NodeOf(c.n, t), nd);
      assert CopyOk(c, s.tasks[u], u, s.nodes[NodeOf(c.n, u)]);
      assert CopyOk(c, s.tasks[t], t, nd);
      assert Disturbs(c, s.tasks[t], s.tasks[u]);
      assert false;
    }
  }

  /** While a task copies nobody with a function waits or copies. */
  lemma CleanEnd(c: Config, s: State, t: nat)
    requires c.n > 0 && |s.nodes| == c.n && CopyInv(c, s) && OwnInv(c, s)
    requires t < |s.tasks| && s.tasks[t].stage.Copying?
    ensures Undisturbed(c, s, t)
  {
    assert CopyOk(c, s.tasks[t], t, s.nodes[NodeOf(c.n, t)]);
    forall u | 0 <= u < |s.tasks| && u != t && NodeOf(c.n, u) == NodeOf(c.n, t)
      ensures HasPayload(c, s.tasks[u]) && s.tasks[u].spec.hasFunc ==>
        !s.tasks[u].stage.Copying? && !Waiting(s.tasks[u].stage)
    {
      assert OwnOk(c, s.tasks[u], u, s.nodes[NodeOf(c.n, u)]);
    }
  }

  lemma EnqueueKeepsCopy(c: Config, s: State, t: nat, h: nat)
    requires c.n > 0 && |s.nodes| == c.n && CopyInv(c, s) && Next(c, s, Enqueue(t, h)).Some?
    ensures CopyInv(c, Next(c, s, Enqueue(t, h)).value)
  {
    var i := NodeOf(c.n, t);
    assert CopyOk(c, s.tasks[t], t, s.nodes[i]) && NodeOk(c.n, s.tasks, i, s.nodes[i]);
    EnqueueCopy(c, s.tasks[t], t, h, s.nodes[i]);
    var (task', nd') := EnqueueStep(c, s.tasks[t], t, h, s.nodes[i]).value;
    CopyAfter(c, s, t, task', nd');
  }

  lemma EnqueueKeepsOwn(c: Config, s: State, t: nat, h: nat)
    requires c.n > 0 && |s.nodes| == c.n && CopyInv(c, s) && OwnInv(c, s) && Next(c, s, Enqueue(t, h)).Some?
    requires StartsCopy(c, s, Enqueue(t, h)) ==> !Overwrites(c, s, t)
    ensures OwnInv(c, Next(c, s, Enqueue(t, h)).value)
  {
    var i := NodeOf(c.n, t);
    assert CopyOk(c, s.tasks[t], t, s.nodes[i]) && NodeOk(c.n, s.tasks, i, s.nodes[i]);
    assert OwnOk(c, s.tasks[t], t, s.nodes[i]);
    if StartsCopy(c, s, Enqueue(t, h)) {
      CleanStart(c, s, t);
    } else if s.tasks[t].stage.Copying? {
      CleanEnd(c, s, t);
    }
    EnqueueCopy(c, s.tasks[t], t, h, s.nodes[i]);
    EnqueueOwn(c, s.tasks[t], t, h, s.nodes[i]);
    var (task', nd') := EnqueueStep(c, s.tasks[t], t, h, s.nodes[i]).value;
    OwnAfter(c, s, t, task', nd');
  }

  // ----- The node thread

  lemma NodeStepOk(c: Config, nd: Node, task: Task, t: nat)
    requires CopyOk(c, task, t, nd) && NodeStep(nd, task, t).Some? && Busy(nd.pc)
    requires nd.pc.NGot? ==> task.stage.Taken?
    requires nd.pc.NRun? ==> task.stage.Running? && task.spec.hasFunc
    requires nd.pc.NRelease? ==> task.stage.Ran?
    ensures var (task', nd') := NodeStep(nd, task, t).value;
      && CopyOk(c, task', t, nd') && (OwnOk(c, task, t, nd) ==> OwnOk(c, task', t, nd'))
      && nd'.region == nd.region && nd'.copying == nd.copying && nd'.mixed == nd.mixed
  {
  }

  /** One task and its node move on, and nothing in the region changes. */
  lemma QuietMove(c: Config, s: State, t: nat, task': Task, nd': Node)
    requires c.n > 0 && |s.nodes| == c.n && CopyInv(c, s) && t < |s.tasks|
    requires var nd := s.nodes[NodeOf(c.n, t)];
      && (CopyOk(c, s.tasks[t], t, nd) ==> CopyOk(c, task', t, nd'))
      && (CopyOk(c, s.tasks[t], t, nd) && OwnOk(c, s.tasks[t], t, nd) ==> OwnOk(c, task', t, nd'))
      && nd'.region == nd.region && nd'.copying == nd.copying && nd'.mixed == nd.mixed
    ensures CopyInv(c, SetTask(s, t, task', NodeOf(c.n, t), nd'))
    ensures OwnInv(c, s) ==> OwnInv(c, SetTask(s, t, task', NodeOf(c.n, t), nd'))
  {
    hide CopyOk, OwnOk;
    assert NodeOk(c.n, s.tasks, NodeOf(c.n, t), s.nodes[NodeOf(c.n, t)]);
    CopyAfter(c, s, t, task', nd');
    if OwnInv(c, s) {
      OwnAfter(c, s, t, task', nd');
    }
  }

  lemma PoppedTask(c: Config, s: State, i: nat)
    requires Inv(c, s) && i < c.n && s.nodes[i].pc.NPop? && s.nodes[i].queue != [] && s.nodes[i].queue[0].Job?
    ensures |s.nodes| == c.n
    ensures var t := s.nodes[i].queue[0].t; t < |s.tasks| && NodeOf(c.n, t) == i && s.tasks[t].stage.Queued?
  {
    PopKeepsJobs(c.n, s.tasks, i, s.nodes[i]);
  }

  lemma PopKeepsBoth(c: Config, s: State, i: nat)
    requires |s.nodes| == c.n && Inv(c, s) && CopyInv(c, s) && i < c.n && s.nodes[i].pc.NPop? && ThreadStep(s, i).Some?
    ensures CopyInv(c, ThreadStep(s, i).value)
    ensures OwnInv(c, s) ==> OwnInv(c, ThreadStep(s, i).value)
  {
    hide Inv;
    var nd := s.nodes[i];
    if nd.queue[0].Job? {
      PoppedTask(c, s, i);
      var t := nd.queue[0].t;
      QuietMove(c, s, t, s.tasks[t].(stage := Taken), PopItem(nd));
    } else {
      assert NodeOk(c.n, s.tasks, i, nd);
    }
  }

  lemma BusyKeepsBoth(c: Config, s: State, i: nat)
    requires Inv(c, s) && CopyInv(c, s) && i < c.n && Busy(s.nodes[i].pc) && ThreadStep(s, i).Some?
    ensures CopyInv(c, ThreadStep(s, i).value)
    ensures OwnInv(c, s) ==> OwnInv(c, ThreadStep(s, i).value)
  {
    var nd := s.nodes[i];
    BusyTask(c.n, s.tasks, i, nd);
    var t := nd.pc.t;
    var task := s.tasks[t];
    assert nd.pc.NRun? ==> task.spec.hasFunc;
    hide NodeInv;
    if CopyOk(c, task, t, nd) {
      NodeStepOk(c, nd, task, t);
    }
    QuietMove(c, s, t, NodeStep(nd, task, t).value.0, NodeStep(nd, task, t).value.1);
  }

  lemma ThreadKeepsBoth(c: Config, s: State, i: nat)
    requires Inv(c, s) && CopyInv(c, s) && i < c.n && ThreadStep(s, i).Some?
    ensures CopyInv(c, ThreadStep(s, i).value)
    ensures OwnInv(c, s) ==> OwnInv(c, ThreadStep(s, i).value)
  {
    if s.nodes[i].pc.NPop? {
      PopKeepsBoth(c, s, i);
    } else if Busy(s.nodes[i].pc) {
      BusyKeepsBoth(c, s, i);
    } else {
      hide NodeInv;
      assert NodeOk(c.n, s.tasks, i, s.nodes[i]);
    }
  }

  lemma OthersKeepBoth(c: Config, s: State, a: Action)
    requires c.n > 0 && |s.nodes| == c.n && CopyInv(c, s) && (a.Take? || a.Done?) && Next(c, s, a).Some?
    ensures CopyInv(c, Next(c, s, a).value)
    ensures OwnInv(c, s) ==> OwnInv(c, Next(c, s, a).value)
  {
    var s' := Next(c, s, a).value;
    forall t | 0 <= t < |s.tasks|
      ensures CopyOk(c, s'.tasks[t], t, s'.nodes[NodeOf(c.n, t)])
      ensures OwnInv(c, s) ==> OwnOk(c, s'.tasks[t], t, s'.nodes[NodeOf(c.n, t)])
    {
      assert CopyOk(c, s.tasks[t], t, s.nodes[NodeOf(c.n, t)]);
    }
    forall i | 0 <= i < c.n
      ensures NodeOk(c.n, s'.tasks, i, s'.nodes[i])
    {
      assert NodeOk(c.n, s.tasks, i, s.nodes[i]);
    }
    if a.Take? {
      var t := |s.tasks|;
      assert NodeOk(c.n, s.tasks, NodeOf(c.n, t), s.nodes[NodeOf(c.n, t)]);
    }
  }

  lemma {:induction false} RunsCopy(c: Config, acts: seq<Action>)
    requires c.n > 0 && Runs(c, acts).Some?
    ensures CopyInv(c, Runs(c, acts).value)
    decreases |acts|
  {
    if acts != [] {
      var before := acts[..|acts| - 1];
      var s := Runs(c, before).value;
      RunsCopy(c, before);
      RunsInv(c, before);
      match acts[|acts| - 1]
      case Enqueue(t, h) => EnqueueKeepsCopy(c, s, t, h);
      case Step(i) => ThreadKeepsBoth(c, s, i);
      case _ => OthersKeepBoth(c, s, acts[|acts| - 1]);
    }
  }

  lemma {:induction false} RunsOwn(c: Config, acts: seq<Action>)
    requires c.n > 0 && Runs(c, acts).Some? && Clean(c, acts)
    ensures OwnInv(c, Runs(c, acts).value)
    decreases |acts|
  {
    if acts != [] {
      var before := acts[..|acts| - 1];
      var s := Runs(c, before).value;
      RunsOwn(c, before);
      RunsCopy(c, before);
      RunsInv(c, before);
      match acts[|acts| - 1]
      case Enqueue(t, h) => EnqueueKeepsOwn(c, s, t, h);
      case Step(i) => ThreadKeepsBoth(c, s, i);
      case _ => OthersKeepBoth(c, s, acts[|acts| - 1]);
    }
  }

  /** In a clean run every function sees exactly the payload bytes given to its enqueue. */
  lemma CleanIsolates(c: Config, acts: seq<Action>)
    requires c.n > 0 && Runs(c, acts).Some? && Clean(c, acts)
    ensures Isolated(c, acts)
  {
    hide Isolated;
    RunsOwn(c, acts);
    IsolatedIs(c, acts);
    var s := Runs(c, acts).value;
    forall t | 0 <= t < |s.tasks| && HasPayload(c, s.tasks[t])
      ensures OwnOk(c, s.tasks[t], t, s.nodes[NodeOf(c.n, t)])
    {
    }
  }

  // ----- A copy that disturbs a task can be made to do harm

  /** Steps of enqueues and tasks under way: no new ticket, no shutdown, no new copy. */
  predicate UnderWay(c: Config, s: State, a: Action) {
    a.Step? || (a.Enqueue? && !StartsCopy(c, s, a))
  }

  ghost predicate Quiet(c: Config, s: State, acts: seq<Action>)
    requires c.n > 0 && |s.nodes| == c.n && Exec(c, s, acts).Some?
  {
    acts == [] ||
    (Quiet(c, s, acts[..|acts| - 1]) && UnderWay(c, Exec(c, s, acts[..|acts| - 1]).value, acts[|acts| - 1]))
  }

  lemma {:induction false} ExecFront(c: Config, s: State, a: Action, rest: seq<Action>)
    requires c.n > 0 && |s.nodes| == c.n && Next(c, s, a).Some? && |Next(c, s, a).value.nodes| == c.n
    requires Exec(c, Next(c, s, a).value, rest).Some?
    ensures Exec(c, s, [a] + rest) == Exec(c, Next(c, s, a).value, rest)
    ensures UnderWay(c, s, a) && Quiet(c, Next(c, s, a).value, rest) ==> Quiet(c, s, [a] + rest)
    decreases |rest|
  {
    var acts := [a] + rest;
    if rest == [] {
      assert acts[..0] == [] && acts[|acts| - 1] == a;
    } else {
      assert acts[..|acts| - 1] == [a] + rest[..|rest| - 1];
      ExecFront(c, s, a, rest[..|rest| - 1]);
    }
  }

  /** Its function is going to read a region that is being overwritten. */
  ghost predicate Doomed(c: Config, s: State, v: nat)
    requires c.n > 0 && |s.nodes| == c.n
  {
    && v < |s.tasks| && HasPayload(c, s.tasks[v]) && s.tasks[v].spec.hasFunc
    && (s.tasks[v].stage.Copying? || Waiting(s.tasks[v].stage))
    && s.nodes[NodeOf(c.n, v)].region.Torn?
    && (s.tasks[v].stage.Copying? ==> s.nodes[NodeOf(c.n, v)].mixed)
  }

  function StageRank(stage: Stage): nat {
    if stage.Copying? then 2 else if stage.Filled? then 1 else 0
  }

  /** The next step towards the harm: the task's own enqueue, then the thread of its node. */
  function Towards(c: Config, s: State, v: nat): Action
    requires c.n > 0 && v < |s.tasks|
  {
    if s.tasks[v].stage.Copying? || s.tasks[v].stage.Filled? then Enqueue(v, 0) else Step(NodeOf(c.n, v))
  }

  lemma QueuedNotStuck(c: Config, s: State, v: nat)
    requires Inv(c, s) && v < |s.tasks| && (s.tasks[v].stage.Queued? || s.tasks[v].stage.Taken? || s.tasks[v].stage.Running?)
    ensures ThreadStep(s, NodeOf(c.n, v)).Some?
  {
    var i := NodeOf(c.n, v);
    var nd := s.nodes[i];
    var k :| 0 <= k < |nd.pushed| && nd.pushed[k] == Job(v, s.tasks[v].spec.hasFunc);
    assert StageAt(nd, k, s.tasks[v].stage);
    if Busy(nd.pc) {
      BusyNotStuck(c, s, i);
    } else {
      NotOver(nd, k);
      assert nd.pushed[|nd.popped|] == nd.queue[0];
    }
  }

  /** A thread with items to pop has not met its NULL. */
  lemma NotOver(nd: Node, k: nat)
    requires QueueInv(nd) && |nd.popped| <= k < |nd.pushed|
    ensures !Over(nd.pc)
  {
    assert nd.popped != [] ==> nd.pushed[|nd.popped| - 1] == nd.popped[|nd.popped| - 1];
  }

  /** Whether the thread of its node has come to it. */
  lemma AtTask(c: Config, s: State, v: nat)
    requires Inv(c, s) && v < |s.tasks| && IsQueued(s.tasks[v].stage)
    ensures var nd := s.nodes[NodeOf(c.n, v)];
      && (s.tasks[v].stage.Taken? <==> nd.pc == NGot(v))
      && (s.tasks[v].stage.Running? <==> nd.pc == NRun(v))
      && (s.tasks[v].stage.Queued? ==> !(Busy(nd.pc) && nd.pc.t == v))
  {
    var i := NodeOf(c.n, v);
    var nd := s.nodes[i];
    var k :| 0 <= k < |nd.pushed| && nd.pushed[k] == Job(v, s.tasks[v].spec.hasFunc);
    assert StageAt(nd, k, s.tasks[v].stage);
    if Busy(nd.pc) {
      BusyTask(c.n, s.tasks, i, nd);
    }
  }

  /** A step towards the harm does it, or leaves the task doomed and nearer to it. */
  lemma TowardsStep(c: Config, s: State, v: nat)
    requires Inv(c, s) && Doomed(c, s, v)
    ensures var a := Towards(c, s, v);
      && UnderWay(c, s, a) && Next(c, s, a).Some?
      && var s' := Next(c, s, a).value;
      && |s'.nodes| == c.n && |s'.tasks| == |s.tasks|
      && (!SeesOwn(c, s') ||
          (Doomed(c, s', v) &&
           (StageRank(s'.tasks[v].stage) < StageRank(s.tasks[v].stage) ||
            (StageRank(s'.tasks[v].stage) == StageRank(s.tasks[v].stage) &&
             StepsLeft(s'.nodes[NodeOf(c.n, v)]) < StepsLeft(s.nodes[NodeOf(c.n, v)])))))
  {
    var i := NodeOf(c.n, v);
    if s.tasks[v].stage.Copying? || s.tasks[v].stage.Filled? {
      hide Inv;
    } else {
      QueuedNotStuck(c, s, v);
      AtTask(c, s, v);
      ThreadStepShape(s, i);
      if s.tasks[v].stage.Queued? {
        StaysDoomed(c, s, v);
      } else {
        hide Inv;
        var s' := ThreadStep(s, i).value;
        assert HasPayload(c, s'.tasks[v]);
      }
    }
  }

  lemma StaysDoomed(c: Config, s: State, v: nat)
    requires Inv(c, s) && Doomed(c, s, v) && s.tasks[v].stage.Queued? && ThreadStep(s, NodeOf(c.n, v)).Some?
    ensures var s' := ThreadStep(s, NodeOf(c.n, v)).value; |s'.tasks| == |s.tasks| && Doomed(c, s', v)
    ensures StageRank(ThreadStep(s, NodeOf(c.n, v)).value.tasks[v].stage) == 0
  {
    AtTask(c, s, v);
  }

  lemma {:induction false} Falls(c: Config, s: State, v: nat) returns (more: seq<Action>)
    requires |s.nodes| == c.n && Inv(c, s) && Doomed(c, s, v) && c.n > 0 && v < |s.tasks|
    ensures Exec(c, s, more).Some? && Quiet(c, s, more)
    ensures !SeesOwn(c, Exec(c, s, more).value) && |Exec(c, s, more).value.tasks| == |s.tasks|
    decreases StageRank(s.tasks[v].stage), StepsLeft(s.nodes[NodeOf(c.n, v)])
  {
    hide Inv, Doomed, SeesOwn, Next, Towards, UnderWay;
    TowardsStep(c, s, v);
    var a := Towards(c, s, v);
    var s' := Next(c, s, a).value;
    var rest := [];
    if SeesOwn(c, s') {
      NextKeeps(c, s, a);
      rest := Falls(c, s', v);
    }
    more := [a] + rest;
    ExecFront(c, s, a, rest);
  }

  /** A copy that starts over a task dooms that task, or its own. */
  lemma OverwriteDooms(c: Config, s: State, t: nat, h: nat) returns (v: nat)
    requires c.n > 0 && |s.nodes| == c.n && CopyInv(c, s) && StartsCopy(c, s, Enqueue(t, h)) && Overwrites(c, s, t)
    ensures Next(c, s, Enqueue(t, h)).Some? && |Next(c, s, Enqueue(t, h)).value.nodes| == c.n
    ensures Doomed(c, Next(c, s, Enqueue(t, h)).value, v)
    ensures |Next(c, s, Enqueue(t, h)).value.tasks| == |s.tasks|
  {
    var u :| 0 <= u < |s.tasks| && u != t && NodeOf(c.n, u) == NodeOf(c.n, t) && Disturbs(c, s.tasks[t], s.tasks[u]);
    assert CopyOk(c, s.tasks[u], u, s.nodes[NodeOf(c.n, u)]);
    v := if s.tasks[u].spec.hasFunc then u else t;
  }

  lemma {:induction false} RunsThenExec(c: Config, acts: seq<Action>, more: seq<Action>)
    requires c.n > 0 && Runs(c, acts).Some? && Exec(c, Runs(c, acts).value, more).Some?
    ensures Runs(c, acts + more) == Exec(c, Runs(c, acts).value, more)
    decreases |more|
  {
    hide Next;
    if more == [] {
      assert acts + more == acts;
    } else {
      var all := acts + more;
      assert all[..|all| - 1] == acts + more[..|more| - 1] && all[|all| - 1] == more[|more| - 1];
      RunsThenExec(c, acts, more[..|more| - 1]);
    }
  }

  /**
   Whenever a copy has started that disturbs a task, the steps under way, with nothing new from any
   client, can lead to a task that does not see its own payload.
   */
  lemma DirtyCopyHarms(c: Config, acts: seq<Action>, a: Action) returns (more: seq<Action>)
    requires c.n > 0 && Runs(c, acts).Some? && Runs(c, acts + [a]).Some?
    requires StartsCopy(c, Runs(c, acts).value, a) && Overwrites(c, Runs(c, acts).value, a.t)
    ensures Exec(c, Runs(c, acts + [a]).value, more).Some? && Quiet(c, Runs(c, acts + [a]).value, more)
    ensures Runs(c, acts + [a] + more).Some? && !Isolated(c, acts + [a] + more)
    ensures |Runs(c, acts + [a] + more).value.tasks| == |Runs(c, acts).value.tasks|
  {
    assert (acts + [a])[..|acts|] == acts;
    RunsCopy(c, acts);
    RunsInv(c, acts + [a]);
    var v := OverwriteDooms(c, Runs(c, acts).value, a.t, a.h);
    more := Falls(c, Runs(c, acts + [a]).value, v);
    RunsThenExec(c, acts + [a], more);
    IsolatedIs(c, acts + [a] + more);
  }

  // ----- Disciplines of the clients

  /**
   A discipline is a set of runs that says when tickets may be taken and copies may start, but does
   not hold up what is under way.
   */
  ghost predicate Discipline(c: Config, allowed: iset<seq<Action>>)
    requires c.n > 0
  {
    PrefixClosed(allowed) && HoldsUpNothing(c, allowed)
  }

  ghost predicate PrefixClosed(allowed: iset<seq<Action>>) {
    forall acts :: acts in allowed && acts != [] ==> acts[..|acts| - 1] in allowed
  }

  ghost predicate HoldsUpNothing(c: Config, allowed: iset<seq<Action>>)
    requires c.n > 0
  {
    forall acts, a :: acts in allowed && Runs(c, acts).Some? && UnderWay(c, Runs(c, acts).value, a) ==>
      acts + [a] in allowed
  }

  lemma LastStep(c: Config, s: State, more: seq<Action>)
    requires c.n > 0 && |s.nodes| == c.n && Exec(c, s, more).Some? && Quiet(c, s, more) && more != []
    ensures var before := more[..|more| - 1];
      && Exec(c, s, before).Some? && Quiet(c, s, before) && UnderWay(c, Exec(c, s, before).value, more[|more| - 1])
  {
    hide Next, UnderWay;
  }

  lemma LastApart<T>(acts: seq<T>, more: seq<T>)
    requires more != []
    ensures acts + more[..|more| - 1] + [more[|more| - 1]] == acts + more
  {
  }

  lemma NextAllowed(c: Config, allowed: iset<seq<Action>>, acts: seq<Action>, a: Action)
    requires c.n > 0 && HoldsUpNothing(c, allowed) && acts in allowed
    requires Runs(c, acts).Some? && UnderWay(c, Runs(c, acts).value, a)
    ensures acts + [a] in allowed
  {
    hide Runs, UnderWay;
  }

  lemma {:induction false} QuietAllowed(c: Config, allowed: iset<seq<Action>>, acts: seq<Action>, more: seq<Action>)
    requires c.n > 0 && HoldsUpNothing(c, allowed) && acts in allowed && Runs(c, acts).Some?
    requires Exec(c, Runs(c, acts).value, more).Some? && Quiet(c, Runs(c, acts).value, more)
    ensures acts + more in allowed
    decreases |more|
  {
    if more == [] {
      assert acts + more == acts;
    } else {
      hide Exec, Next, Runs, Quiet, UnderWay, HoldsUpNothing;
      var before := more[..|more| - 1];
      LastStep(c, Runs(c, acts).value, more);
      QuietAllowed(c, allowed, acts, before);
      RunsThenExec(c, acts, before);
      NextAllowed(c, allowed, acts + before, more[|more| - 1]);
      LastApart(acts, more);
    }
  }

  /** The first copy of a run that disturbs a task. */
  lemma {:induction false} FirstDirty(c: Config, acts: seq<Action>) returns (k: nat)
    requires c.n > 0 && Runs(c, acts).Some? && !Clean(c, acts)
    ensures k < |acts| && Runs(c, acts[..k]).Some? && Runs(c, acts[..k] + [acts[k]]).Some?
    ensures StartsCopy(c, Runs(c, acts[..k]).value, acts[k]) && Overwrites(c, Runs(c, acts[..k]).value, acts[k].t)
    decreases |acts|
  {
    var n := |acts| - 1;
    if Clean(c, acts[..n]) {
      k := n;
      assert acts[..k] + [acts[k]] == acts;
    } else {
      k := FirstDirty(c, acts[..n]);
      assert acts[..n][..k] == acts[..k];
    }
  }

  lemma {:induction false} PrefixAllowed(c: Config, allowed: iset<seq<Action>>, acts: seq<Action>, k: nat)
    requires c.n > 0 && Discipline(c, allowed) && acts in allowed && k <= |acts|
    ensures acts[..k] in allowed
    decreases |acts|
  {
    if k == |acts| {
      assert acts[..k] == acts;
    } else {
      PrefixAllowed(c, allowed, acts[..|acts| - 1], k);
      assert acts[..|acts| - 1][..k] == acts[..k];
    }
  }

  ghost predicate Isolates(c: Config, allowed: iset<seq<Action>>)
    requires c.n > 0
  {
    forall acts :: acts in allowed && Runs(c, acts).Some? ==> Isolated(c, acts)
  }

  /**
   Under a discipline every task of every run sees exactly the payload given to its enqueue if and
   only if the discipline never lets a copy start that disturbs a task.
   */
  lemma IsolatedIffClean(c: Config, allowed: iset<seq<Action>>)
    requires c.n > 0 && Discipline(c, allowed)
    ensures Isolates(c, allowed) <==> forall acts :: acts in allowed && Runs(c, acts).Some? ==> Clean(c, acts)
  {
    forall acts | acts in allowed && Runs(c, acts).Some?
      ensures Clean(c, acts) ==> Isolated(c, acts)
      ensures !Clean(c, acts) ==> !Isolates(c, allowed)
    {
      if Clean(c, acts) {
        CleanIsolates(c, acts);
      } else {
        DirtyNotIsolated(c, allowed, acts);
      }
    }
  }

  lemma DirtyNotIsolated(c: Config, allowed: iset<seq<Action>>, acts: seq<Action>)
    requires c.n > 0 && Discipline(c, allowed) && acts in allowed && Runs(c, acts).Some? && !Clean(c, acts)
    ensures !Isolates(c, allowed)
  {
    var k := FirstDirty(c, acts);
    var start := acts[..k] + [acts[k]];
    assert start == acts[..k + 1];
    PrefixAllowed(c, allowed, acts, k + 1);
    var more := DirtyCopyHarms(c, acts[..k], acts[k]);
    QuietAllowed(c, allowed, start, more);
    assert start + more in allowed;
  }

  // ----- The window

  /** In this run every task had finished before the enqueue `n` tickets later began. */
  ghost predicate Windowed(c: Config, acts: seq<Action>)
    requires c.n > 0 && Runs(c, acts).Some?
  {
    acts == [] ||
    var m := Runs(c, acts[..|acts| - 1]).value;
    && Windowed(c, acts[..|acts| - 1])
    && (acts[|acts| - 1].Take? && |m.tasks| >= c.n ==> Finished(m.tasks[|m.tasks| - c.n].stage))
  }

  /** Two tickets below the wrap that share a node are at least `n` apart. */
  lemma SameNodeFarApart(n: nat, t: nat, u: nat)
    requires n > 0 && t < u <= INT_MAX && NodeOf(n, t) == NodeOf(n, u)
    ensures t + n <= u
  {
    NodeBelowWrap(n, t);
    NodeBelowWrap(n, u);
    hide NodeOf;
    Below(t, n);
    Below(u, n);
    Distribute(n, u / n, t / n);
    MulBound(n, u / n - t / n);
  }

  ghost predicate WindowInv(n: nat, tasks: seq<Task>) {
    forall t :: 0 <= t && t + n < |tasks| ==> Finished(tasks[t].stage)
  }

  /** Tickets are only added, and a finished task stays finished. */
  lemma StepGrows(c: Config, s: State, a: Action)
    requires |s.nodes| == c.n && Inv(c, s) && Next(c, s, a).Some?
    ensures var s' := Next(c, s, a).value;
      && |s'.tasks| == |s.tasks| + (if a.Take? then 1 else 0)
      && forall t :: 0 <= t < |s.tasks| && Finished(s.tasks[t].stage) ==> Finished(s'.tasks[t].stage)
  {
    if a.Step? && a.i < c.n {
      if s.nodes[a.i].pc.NPop? {
        if s.nodes[a.i].queue[0].Job? {
          PoppedTask(c, s, a.i);
        }
      } else if Busy(s.nodes[a.i].pc) {
        BusyTask(c.n, s.tasks, a.i, s.nodes[a.i]);
      }
    }
  }

  /** At most one ticket more, for which the task `n` tickets before has finished. */
  lemma WindowGrows(n: nat, tasks: seq<Task>, tasks': seq<Task>)
    requires n > 0 && WindowInv(n, tasks) && |tasks| <= |tasks'| <= |tasks| + 1
    requires |tasks'| > |tasks| >= n ==> Finished(tasks[|tasks| - n].stage)
    requires forall t :: 0 <= t < |tasks| && Finished(tasks[t].stage) ==> Finished(tasks'[t].stage)
    ensures WindowInv(n, tasks')
  {
  }

  lemma {:induction false} RunsWindow(c: Config, acts: seq<Action>)
    requires c.n > 0 && Runs(c, acts).Some? && Windowed(c, acts)
    ensures WindowInv(c.n, Runs(c, acts).value.tasks)
    decreases |acts|
  {
    if acts != [] {
      hide Next, Inv;
      var before := acts[..|acts| - 1];
      var a := acts[|acts| - 1];
      RunsWindow(c, before);
      RunsInv(c, before);
      var m := Runs(c, before).value;
      StepGrows(c, m, a);
      assert Runs(c, acts) == Next(c, m, a);
      WindowGrows(c.n, m.tasks, Runs(c, acts).value.tasks);
    }
  }

  /** Below the counter wrap no copy of a run that keeps the window disturbs a task. */
  lemma {:induction false} WindowIsClean(c: Config, acts: seq<Action>)
    requires c.n > 0 && Runs(c, acts).Some? && Windowed(c, acts) && |Runs(c, acts).value.tasks| <= INT_MAX + 1
    ensures Clean(c, acts)
    decreases |acts|
  {
    if acts != [] {
      var before := acts[..|acts| - 1];
      var a := acts[|acts| - 1];
      var m := Runs(c, before).value;
      RunsInv(c, before);
      StepGrows(c, m, a);
      WindowIsClean(c, before);
      RunsWindow(c, before);
      if StartsCopy(c, m, a) {
        forall u | 0 <= u < |m.tasks| && u != a.t && NodeOf(c.n, u) == NodeOf(c.n, a.t)
          ensures !Disturbs(c, m.tasks[a.t], m.tasks[u])
        {
          SameNodeFarApart(c.n, if u < a.t then u else a.t, if u < a.t then a.t else u);
        }
      }
    }
  }

  /** So every function of such a run sees its own payload. */
  lemma WindowIsolates(c: Config, acts: seq<Action>)
    requires c.n > 0 && Runs(c, acts).Some? && Windowed(c, acts) && |Runs(c, acts).value.tasks| <= INT_MAX + 1
    ensures Isolated(c, acts)
  {
    WindowIsClean(c, acts);
    CleanIsolates(c, acts);
  }

  // ----- Without a discipline

  lemma RunsNext(c: Config, acts: seq<Action>, a: Action)
    requires c.n > 0 && Runs(c, acts).Some?
    ensures Runs(c, acts + [a]) == Next(c, Runs(c, acts).value, a)
  {
    assert (acts + [a])[..|acts|] == acts;
  }

  const ANY: Task := Task(Spec(true, Some([])), Ticketed, None, None, None)

  /** `k` enqueues have taken their tickets. */
  lemma {:induction false} TicketsTaken(c: Config, k: nat) returns (acts: seq<Action>)
    requires c.n > 0
    ensures Runs(c, acts) == Some(Init(c).(tasks := seq(k, i => ANY)))
  {
    if k == 0 {
      acts := [];
      assert seq(k, i => ANY) == [];
      assert Init(c).(tasks := seq(k, i => ANY)) == Init(c);
    } else {
      var before := TicketsTaken(c, k - 1);
      RunsNext(c, before, Take(ANY.spec));
      acts := before + [Take(ANY.spec)];
      assert seq(k - 1, i => ANY) + [ANY] == seq(k, i => ANY);
    }
  }

  lemma NodeZero(n: nat)
    requires 0 < n <= INT_MAX
    ensures NodeOf(n, 0) == 0 && NodeOf(n, n) == 0
  {
    hide NodeOf;
    NodeBelowWrap(n, 0);
    NodeBelowWrap(n, n);
    DivModUnique(0, n, 0, 0);
    DivModUnique(n, n, 1, 0);
  }

  /** The enqueue of ticket `t` allocates. */
  lemma Allocates(c: Config, acts: seq<Action>, t: nat, h: nat)
    requires c.n > 0 && Runs(c, acts).Some? && t < |Runs(c, acts).value.tasks|
    requires Runs(c, acts).value.tasks[t].stage.Ticketed? && h !in Runs(c, acts).value.nodes[NodeOf(c.n, t)].arena.heap
    ensures Runs(c, acts + [Enqueue(t, h)]).Some?
    ensures var s := Runs(c, acts).value; var s' := Runs(c, acts + [Enqueue(t, h)]).value;
      && |s'.tasks| == |s.tasks| && s'.tasks[t].stage.Allocated? && s'.tasks[t].spec == s.tasks[t].spec
      && (forall u :: 0 <= u < |s.tasks| && u != t ==> s'.tasks[u] == s.tasks[u])
      && s'.nodes[NodeOf(c.n, t)].arena.heap <= s.nodes[NodeOf(c.n, t)].arena.heap + {h}
  {
    RunsNext(c, acts, Enqueue(t, h));
  }

  lemma StartsToCopy(c: Config, acts: seq<Action>, t: nat, h: nat)
    requires c.n > 0 && Runs(c, acts).Some? && t < |Runs(c, acts).value.tasks|
    requires Runs(c, acts).value.tasks[t].stage.Allocated? && HasPayload(c, Runs(c, acts).value.tasks[t])
    ensures Runs(c, acts + [Enqueue(t, h)]).Some?
    ensures var s := Runs(c, acts).value; var s' := Runs(c, acts + [Enqueue(t, h)]).value;
      && |s'.tasks| == |s.tasks| && s'.tasks[t].stage.Copying? && s'.tasks[t].spec == s.tasks[t].spec
      && (forall u :: 0 <= u < |s.tasks| && u != t ==> s'.tasks[u] == s.tasks[u])
      && s'.nodes[NodeOf(c.n, t)].arena == s.nodes[NodeOf(c.n, t)].arena
  {
    RunsNext(c, acts, Enqueue(t, h));
  }

  /** Every pool with payload regions has a run of `n + 1` tasks in which one does not see its own payload. */
  lemma OverwriteReachable(c: Config)
    requires 0 < c.n <= INT_MAX && c.hasRegion
    ensures exists acts :: Runs(c, acts).Some? && |Takes(acts)| == c.n + 1 && !Isolated(c, acts)
  {
    hide Next, Runs, Exec;
    NodeZero(c.n);
    var n := c.n;
    var a0 := TicketsTaken(c, n + 1);
    Allocates(c, a0, 0, 0);
    var a1 := a0 + [Enqueue(0, 0)];
    StartsToCopy(c, a1, 0, 0);
    var a2 := a1 + [Enqueue(0, 0)];
    Allocates(c, a2, n, 1);
    var a3 := a2 + [Enqueue(n, 1)];
    StartsToCopy(c, a3, n, 1);
    assert Disturbs(c, Runs(c, a3).value.tasks[n], Runs(c, a3).value.tasks[0]);
    var more := DirtyCopyHarms(c, a3, Enqueue(n, 1));
    var all := a3 + [Enqueue(n, 1)] + more;
    TasksAreTakes(c, all);
    assert Runs(c, all).Some? && |Takes(all)| == n + 1 && !Isolated(c, all);
  }
}
