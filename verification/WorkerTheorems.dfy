/** What every run of the worker keeps: the main results about tecc_worker.c. */
module WorkerTheorems {
  import opened Options
  import opened Worker
  import opened WorkerInvariant
  import opened WorkerInputs
  import opened WorkerLog
  import opened WorkerStories

  // ----- The message loop refines the sequential program

  lemma {:induction false} AheadIsLongest(items: seq<Item>, k: nat)
    requires k <= |items| && Null !in items[..k]
    ensures k <= |AheadOfNull(items)|
  {
    if k > 0 {
      assert items[0] == items[..k][0];
      assert items[1..][..k - 1] == items[..k][1..];
      AheadIsLongest(items[1..], k - 1);
    }
  }

  lemma {:induction false} AheadOfAll(items: seq<Item>)
    requires Null !in items
    ensures AheadOfNull(items) == items
  {
    assert items[..|items|] == items;
    AheadIsLongest(items, |items|);
  }

  /** Where the popped items stand relative to the first NULL of the pushed ones. */
  lemma PoppedAhead(c: Config, s: State)
    requires QueueInv(c, s) && InitResult(c) == 0
    ensures var ahead := AheadOfNull(s.pushed);
      if PastLoop(s.wpc) then Null in s.pushed && s.popped == ahead + [Null]
      else |s.popped| <= |ahead| && s.popped == ahead[..|s.popped|]
  {
    if PastLoop(s.wpc) {
      var n := |s.popped| - 1;
      assert s.pushed[..n] == s.popped[..n];
      assert s.pushed[n] == Null;
      AheadIsLongest(s.pushed, n);
    } else {
      assert s.pushed[..|s.popped|] == s.popped;
      AheadIsLongest(s.pushed, |s.popped|);
    }
  }

  lemma SoFarIsPrefix(c: Config, p: WPc)
    requires Busy(p) && !p.item.Null? && (p.WRunning? ==> p.item.tag in c.registered)
    ensures SoFar(c, p) <= ItemTrace(c, p.item)
  {
  }

  lemma BusyPrefix(c: Config, s: State)
    requires QueueInv(c, s) && Busy(s.wpc) && !s.wpc.item.Null?
    ensures Expected(c, s.popped, s.wpc) <= Prog(c, s.popped)
  {
    var before := s.popped[..|s.popped| - 1];
    assert s.popped == before + [s.wpc.item];
    ProgAfter(c, before, s.wpc.item);
    SoFarIsPrefix(c, s.wpc);
  }

  lemma NullTraceEmpty(c: Config, items: seq<Item>)
    ensures Prog(c, items + [Null]) == Prog(c, items)
  {
    ProgAfter(c, items, Null);
  }

  lemma ExpectedIsPrefix(c: Config, s: State)
    requires Inv(c, s)
    ensures Expected(c, s.popped, s.wpc) <= SequentialTrace(c, s.pushed)
    ensures s.wpc.WDone? ==> Expected(c, s.popped, s.wpc) == SequentialTrace(c, s.pushed)
  {
    hide LockInv, RunInv, JoinInv, TermInv, ErrorInv, IdInv, CallInv;
    if InitResult(c) != 0 {
      assert Prog(c, []) == InitTrace(c);
      assert InitTrace(c) + ExitTrace(c) == InitTrace(c);
    } else {
      PoppedAhead(c, s);
      var ahead := AheadOfNull(s.pushed);
      if Null !in s.pushed {
        AheadOfAll(s.pushed);
      }
      if PastLoop(s.wpc) {
        NullTraceEmpty(c, ahead);
      } else {
        LoopPrefix(c, s, ahead);
      }
    }
  }

  lemma LoopPrefix(c: Config, s: State, ahead: seq<Item>)
    requires Inv(c, s) && !PastLoop(s.wpc) && |s.popped| <= |ahead| && s.popped == ahead[..|s.popped|]
    ensures Expected(c, s.popped, s.wpc) <= Prog(c, ahead)
  {
    ProgGrows(c, ahead, |s.popped|);
    if Busy(s.wpc) {
      assert s.wpc.item in s.popped;
      BusyPrefix(c, s);
      PrefixTransitive(Expected(c, s.popped, s.wpc), Prog(c, s.popped), Prog(c, ahead));
    }
  }

  /**
   In every run the worker thread's events are a prefix of the sequential program over the pushed
   items, and all of it once the thread has finished: on_init first, then every item ahead of the
   first NULL in push order, each dispatched, handled and freed (or, for an rpc, signalled) before
   the next, then on_exit; nothing but on_init when on_init fails.
   */
  lemma LoopRefinesSequentialProgram(c: Config, acts: seq<Action>)
    requires Runs(c, acts).Some?
    ensures var s := Runs(c, acts).value;
      && OfWorker(s.log) <= SequentialTrace(c, s.pushed)
      && (s.wpc.WDone? ==> OfWorker(s.log) == SequentialTrace(c, s.pushed))
  {
    RunsThread(c, acts);
    ExpectedIsPrefix(c, Runs(c, acts).value);
  }

  /**
   Which callbacks a finished thread has run: nothing but on_init when that fails; else on_init, if there
   is one, before everything else and on_exit, if there is one, after everything else.
   */
  lemma FirstAndLast(c: Config, acts: seq<Action>)
    requires Runs(c, acts).Some? && Runs(c, acts).value.wpc.WDone?
    ensures var log := OfWorker(Runs(c, acts).value.log);
      && (c.onInit.Some? && c.onInit.value != 0 ==> log == [Inited(c.onInit.value)])
      && (c.onInit == Some(0) ==> log != [] && log[0] == Inited(0))
      && (!(c.onInit.Some? && c.onInit.value != 0) && c.onExit.Some? ==> log != [] && log[|log| - 1] == Exited(c.onExit.value))
      && (c.onExit.None? ==> forall err :: Exited(err) !in log)
  {
    LoopRefinesSequentialProgram(c, acts);
    var s := Runs(c, acts).value;
    RunsInv(c, acts);
    hide Exec, Runs, LockInv, RunInv, JoinInv, TermInv, ErrorInv, IdInv, CallInv;
    if InitResult(c) == 0 {
      PoppedAhead(c, s);
      NoneExits(c, AheadOfNull(s.pushed));
    }
  }

  /** Handling items is neither on_init nor on_exit. */
  lemma {:induction false} NoneExits(c: Config, items: seq<Item>)
    ensures forall e :: e in Flat(c, items) ==> !e.Exited? && !e.Inited?
  {
    if items != [] {
      NoneExits(c, items[..|items| - 1]);
    }
  }

  // ----- One message

  /**
   When the thread has finished after a successful on_init, a message sent ahead of the first NULL has
   been dispatched once, handled once if there is a handler for its tag and freed once, in that order; a
   message behind the first NULL has only been sent.
   */
  lemma MessageLife(c: Config, acts: seq<Action>, id: nat, tag: Tag) returns (k: nat)
    requires Runs(c, acts).Some? && Send(id, tag) in acts
    requires Runs(c, acts).value.wpc.WDone? && InitResult(c) == 0
    ensures var s := Runs(c, acts).value;
      && k < |s.pushed| && s.pushed[k] == Msg(id, tag)
      && OfId(s.log, id) ==
        if Null in s.pushed[..k] then [Sent(id)]
        else if tag in c.registered then [Sent(id), Dispatched(id), Began(id), Ended(id), Freed(id)]
        else [Sent(id), Dispatched(id), Freed(id)]
  {
    hide Exec, Runs, Inv, StoryInv, OfId;
    RunsInv(c, acts);
    RunsStories(c, acts);
    PushedIsGiven(c, acts);
    SendIsPushed(acts, id, tag);
    k :| 0 <= k < |Pushes(acts)| && Pushes(acts)[k] == Msg(id, tag);
    MessageStory(c, Runs(c, acts).value, k);
  }

  /** What the story of a message comes to when the thread has finished. */
  lemma MessageStory(c: Config, s: State, k: nat)
    requires Inv(c, s) && StoryInv(c, s) && k < |s.pushed| && s.pushed[k].Msg? && s.wpc.WDone? && InitResult(c) == 0
    ensures OfId(s.log, s.pushed[k].id) ==
      [Sent(s.pushed[k].id)] + if Null in s.pushed[..k] then [] else ItemTrace(c, s.pushed[k])
  {
    hide LockInv, RunInv, JoinInv, TermInv, ErrorInv, IdInv, CallInv, OfId, ItemTrace;
    PoppedAhead(c, s);
    var ahead := AheadOfNull(s.pushed);
    assert s.pushed[|ahead|] == Null;
    assert k <= |ahead| ==> s.pushed[..k] == ahead[..k];
    if Null !in s.pushed[..k] {
      AheadIsLongest(s.pushed, k);
    }
  }

  // ----- One rpc

  /**
   A returned rpc was called, pushed, dispatched, handled exactly once on its own id and signalled
   before it returned, and it returns the reply and error of that one run; without a handler for the tag
   of its request it was never handled and returns -2, with the reply as the caller left it.
   */
  lemma RpcRunsOnce(c: Config, acts: seq<Action>, id: nat, tag: Tag)
    requires Runs(c, acts).Some? && CallRpc(id, tag) in acts && ReturnRpc(id) in acts
    ensures OfId(Runs(c, acts).value.log, id) ==
      if tag in c.registered
      then [Calling(id), Sent(id), Dispatched(id), Began(id), Ended(id), Readied(id), Returning(id, c.reply(id), c.rerr(id))]
      else [Calling(id), Sent(id), Dispatched(id), Readied(id), Returning(id, 0, -2)]
  {
    hide Runs, LockInv, RunInv, JoinInv, TermInv, ErrorInv, IdInv;
    RunsInv(c, acts);
    RunsStories(c, acts);
    CallsAreGiven(c, acts);
    var s := Runs(c, acts).value;
    var n :| 0 <= n < |s.pushed| && s.pushed[n] == Rpc(id, s.calls[id].tag);
    assert StageAt(s, n, s.calls[id].stage);
    assert During(c, s, n) == ItemTrace(c, s.pushed[n]);
    assert After(s, s.pushed[n]) == [Returning(id, s.calls[id].reply, s.calls[id].error)];
    assert ResultOk(c, id, s.calls[id]);
  }

  /** An rpc pushed behind a NULL is never even popped: its caller stays blocked. */
  lemma RpcBehindNullBlocks(c: Config, acts: seq<Action>, k: nat)
    requires Runs(c, acts).Some?
    requires var s := Runs(c, acts).value; k < |s.pushed| && s.pushed[k].Rpc? && Null in s.pushed[..k]
    ensures var s := Runs(c, acts).value;
      s.pushed[k].id in s.calls && s.calls[s.pushed[k].id].stage.Queued? && Step(c, s, ReturnRpc(s.pushed[k].id)).None?
  {
    RunsInv(c, acts);
    var s := Runs(c, acts).value;
    var j :| 0 <= j < k && s.pushed[j] == Null;
    assert j < |s.popped| ==> s.popped[j] == Null;
  }

  // ----- Progress of an rpc ahead of the first NULL

  /** Worker steps until the thread is next at its pop. */
  function PcRank(p: WPc): nat {
    match p
    case WNone => 5 case WStart => 4 case WIniting => 3 case WSetRunning => 2 case WTest => 1
    case WGot(_) => 4 case WLookup(_) => 3 case WRunning(_) => 2 case WFree(_) => 1 case WReady(_) => 1
    case _ => 0
  }

  /** Worker steps that suffice to serve the k-th pushed item. */
  function StepsToServe(s: State, k: nat): nat {
    if k >= |s.popped| then 5 * (k - |s.popped|) + PcRank(s.wpc) + 5 else PcRank(s.wpc)
  }

  predicate Served(s: State, id: nat) {
    id in s.calls && (s.calls[id].stage.Ready? || s.calls[id].stage.Returned?)
  }

  /** The k-th pushed item is the rpc `id`, ahead of the first NULL, on a worker whose thread runs. */
  ghost predicate Pending(c: Config, s: State, k: nat, id: nat) {
    && k < |s.pushed| && s.pushed[k].Rpc? && s.pushed[k].id == id && Null !in s.pushed[..k]
    && InitResult(c) == 0 && !s.wpc.WNone?
  }

  /** While such an rpc is unserved, the worker thread can step. */
  lemma WorkerCanServe(c: Config, s: State, k: nat, id: nat)
    requires Inv(c, s) && Pending(c, s, k, id) && !Served(s, id)
    ensures WorkStep(c, s).Some?
    ensures k >= |s.popped| || (k == |s.popped| - 1 && Busy(s.wpc))
    ensures !PastLoop(s.wpc)
  {
    hide LockInv, JoinInv, TermInv, IdInv;
    assert StageAt(s, k, s.calls[id].stage);
    assert forall j :: 0 <= j < k ==> s.pushed[j] in s.pushed[..k];
    assert forall j :: 0 <= j < |s.popped| ==> s.pushed[j] == s.popped[j];
    if Busy(s.wpc) {
      assert s.wpc.item == s.pushed[|s.popped| - 1];
      assert s.wpc.item in s.popped;
      BusyEnabled(c, s);
    }
  }

  lemma BusyEnabled(c: Config, s: State)
    requires Inv(c, s) && Busy(s.wpc)
    ensures WorkStep(c, s).Some?
  {
    assert s.wpc.item == s.pushed[|s.popped| - 1];
    assert s.wpc.item in s.popped;
  }

  /** A worker step brings it closer; a step of anybody else does not push it back. */
  lemma ServeStep(c: Config, s: State, a: Action, k: nat, id: nat)
    requires Inv(c, s) && Pending(c, s, k, id) && !Served(s, id) && Step(c, s, a).Some?
    ensures var s' := Step(c, s, a).value;
      && Pending(c, s', k, id)
      && (Served(s', id) || StepsToServe(s', k) + (if a.Work? then 1 else 0) <= StepsToServe(s, k))
  {
    hide RunStep, TermStep, ClientStep, LockInv, JoinInv, TermInv, ErrorInv, IdInv;
    StaysPending(c, s, a, k, id);
    StepKeepsInv(c, s, a);
    WorkerCanServe(c, s, k, id);
    var s' := Step(c, s, a).value;
    if a.Work? {
      hide WorkStep, RunInv;
      WorkRank(c, s, k);
      assert StageAt(s', k, s'.calls[id].stage);
    } else {
      hide Inv, Step;
      OthersKeepRank(c, s, a, k);
    }
  }

  lemma StaysPending(c: Config, s: State, a: Action, k: nat, id: nat)
    requires Pending(c, s, k, id) && Step(c, s, a).Some?
    ensures Pending(c, Step(c, s, a).value, k, id)
  {
    hide Step;
    StepGrows(c, s, a);
    assert Step(c, s, a).value.pushed[..k] == s.pushed[..k];
  }

  lemma OthersKeepRank(c: Config, s: State, a: Action, k: nat)
    requires Inv(c, s) && Step(c, s, a).Some? && !a.Work? && !s.wpc.WNone?
    ensures StepsToServe(Step(c, s, a).value, k) == StepsToServe(s, k)
  {
    hide LockInv, JoinInv, TermInv, ErrorInv, QueueInv, IdInv, CallInv;
    match a
    case Run => RunFrame(c, s);
    case Terminate(i) => TermLogs(c, s, i);
    case _ =>
  }

  /** Pushed items stay where they are. */
  lemma StepGrows(c: Config, s: State, a: Action)
    requires Step(c, s, a).Some?
    ensures s.pushed <= Step(c, s, a).value.pushed && (!s.wpc.WNone? ==> !Step(c, s, a).value.wpc.WNone?)
  {
    match a
    case Run => RunFrame(c, s);
    case Work => WorkKeepsFrame(c, s); WorkLeaves(c, s);
    case Terminate(i) => TermLogs(c, s, i); TermGrows(c, s, i);
    case _ =>
  }

  lemma WorkLeaves(c: Config, s: State)
    requires WorkStep(c, s).Some?
    ensures !WorkStep(c, s).value.wpc.WNone?
  {
  }

  lemma TermGrows(c: Config, s: State, i: nat)
    requires i < |s.terms| && TermStep(c, s, i).Some?
    ensures s.pushed <= TermStep(c, s, i).value.pushed
  {
  }

  lemma WorkRank(c: Config, s: State, k: nat)
    requires Inv(c, s) && WorkStep(c, s).Some? && !PastLoop(s.wpc) && InitResult(c) == 0
    requires k >= |s.popped| || (k == |s.popped| - 1 && Busy(s.wpc))
    ensures var s' := WorkStep(c, s).value;
      s'.wpc.WExitTest? || StepsToServe(s', k) + 1 <= StepsToServe(s, k)
  {
    if s.wpc.WPop? {
      PopEffect(s);
    } else {
      WorkKeepsFrame(c, s);
      RankDrops(c, s);
    }
  }

  lemma RankDrops(c: Config, s: State)
    requires Inv(c, s) && WorkStep(c, s).Some? && !PastLoop(s.wpc) && !s.wpc.WPop? && InitResult(c) == 0
    ensures PcRank(WorkStep(c, s).value.wpc) < PcRank(s.wpc)
  {
    if Busy(s.wpc) {
      WorkMoves(c, s);
    } else {
      LifeLogs(c, s);
    }
  }

  function WorkCount(acts: seq<Action>): nat {
    if acts == [] then 0 else WorkCount(acts[..|acts| - 1]) + if acts[|acts| - 1].Work? then 1 else 0
  }

  /**
   Bounded service: from a reachable state, an rpc ahead of the first NULL is served within
   `StepsToServe` steps of the worker thread, whatever anybody else does in between, and until
   then the worker thread is never blocked.
   */
  lemma {:induction false} RpcIsServed(c: Config, s: State, acts: seq<Action>, k: nat, id: nat)
    requires Inv(c, s) && Pending(c, s, k, id) && Exec(c, s, acts).Some?
    ensures var e := Exec(c, s, acts).value;
      && Inv(c, e) && Pending(c, e, k, id)
      && (Served(e, id) || (WorkStep(c, e).Some? && WorkCount(acts) + StepsToServe(e, k) <= StepsToServe(s, k)))
    decreases |acts|
  {
    ExecKeepsInv(c, s, acts);
    if acts == [] {
      if !Served(s, id) {
        WorkerCanServe(c, s, k, id);
      }
    } else {
      var before := acts[..|acts| - 1];
      RpcIsServed(c, s, before, k, id);
      var m := Exec(c, s, before).value;
      var e := Exec(c, s, acts).value;
      ServedStays(c, m, acts[|acts| - 1], k, id);
      if !Served(e, id) {
        ServeStep(c, m, acts[|acts| - 1], k, id);
        WorkerCanServe(c, e, k, id);
      }
    }
  }

  lemma ServedStays(c: Config, s: State, a: Action, k: nat, id: nat)
    requires Inv(c, s) && Pending(c, s, k, id) && Step(c, s, a).Some?
    ensures Pending(c, Step(c, s, a).value, k, id)
    ensures Served(s, id) ==> Served(Step(c, s, a).value, id)
  {
    StepGrows(c, s, a);
    StepKeepsInv(c, s, a);
    var s' := Step(c, s, a).value;
    assert s'.pushed[..k] == s.pushed[..k];
    if Served(s, id) {
      assert StageAt(s, k, s.calls[id].stage);
      assert StageAt(s', k, s'.calls[id].stage);
      PoppedStays(c, s, a, k);
    }
  }

  /** An item the thread is through with stays so. */
  lemma PoppedStays(c: Config, s: State, a: Action, k: nat)
    requires Inv(c, s) && Step(c, s, a).Some? && k < |s.popped| && !(k == |s.popped| - 1 && Busy(s.wpc))
    ensures var s' := Step(c, s, a).value; k < |s'.popped| && !(k == |s'.popped| - 1 && Busy(s'.wpc))
  {
    match a
    case Run => RunFrame(c, s);
    case Work =>
      if s.wpc.WPop? {
        PopEffect(s);
      } else {
        WorkKeepsFrame(c, s);
        if !Busy(s.wpc) {
          LifeEffect(c, s);
        }
      }
    case Terminate(i) => TermLogs(c, s, i);
    case _ =>
  }
}
