/** The inductive invariant of the worker machine. */
module WorkerInvariant {
  import opened Options
  import opened Worker

  /** What on_init returned, 0 when there is none. */
  function InitResult(c: Config): int {
    if c.onInit.Some? then c.onInit.value else 0
  }

  /** The value of w->error once the thread has finished. */
  function FinalResult(c: Config): int {
    if InitResult(c) == 0 && c.onExit.Some? then c.onExit.value else InitResult(c)
  }

  // ----- Lock and phases

  predicate RHolds(p: RPc) {
    !p.RIdle? && !p.RRead? && !p.RDone?
  }

  predicate THolds(p: TPc) {
    !p.TIdle? && !p.TDone?
  }

  ghost predicate LockInv(c: Config, s: State) {
    && |s.terms| == c.nterms
    && (RHolds(s.rpc) <==> s.lock == ByRunner)
    && (s.lock.ByTerm? ==> s.lock.i < |s.terms|)
    && (forall i :: 0 <= i < |s.terms| ==> (THolds(s.terms[i]) <==> s.lock == ByTerm(i)))
  }

  predicate BeforeRunning(p: WPc) {
    p.WNone? || p.WStart? || p.WIniting? || p.WSetRunning?
  }

  predicate BeforeLoop(p: WPc) {
    BeforeRunning(p) || p.WTest?
  }

  predicate InLoop(p: WPc) {
    p.WPop? || Busy(p)
  }

  predicate PastLoop(p: WPc) {
    p.WExitTest? || p.WExiting? || p.WSetTerm? || p.WDone?
  }

  predicate RunOver(p: RPc) {
    p.RRead? || p.RDone?
  }

  /** How far the runner and the worker thread can be apart. */
  ghost predicate RunInv(c: Config, s: State) {
    && (s.wpc.WNone? <==> s.rpc.RIdle? || s.rpc.RLocked?)
    && (s.running <==> !BeforeRunning(s.wpc))
    && (s.terminated <==> s.wpc.WDone?)
    && (s.rpc.RCheck? || s.rpc.RJoin? || s.rpc.RUnlock? || RunOver(s.rpc) ==> s.running)
    && (s.rpc.RJoin? ==> InitResult(c) != 0)
    && (s.rpc.RUnlock? || RunOver(s.rpc) ==> InitResult(c) != 0 ==> !s.joinable)
    && (s.wpc.WIniting? ==> c.onInit.Some?)
    && (s.wpc.WExiting? ==> c.onExit.Some?)
  }

  ghost predicate JoinInv(s: State) {
    && s.joins <= 1
    && (s.joinable ==> s.joins == 0)
    && (s.wpc.WNone? ==> !s.joinable && s.joins == 0)
    && (!s.wpc.WNone? && !s.joinable ==> s.joins == 1 && s.wpc.WDone?)
  }

  ghost predicate TermInv(c: Config, s: State) {
    && (Null in s.pushed ==> RunOver(s.rpc))
    && (forall i :: 0 <= i < |s.terms| ==> !s.terms[i].TIdle? ==> RunOver(s.rpc))
    && (!c.overlap && !s.rpc.RDone? ==> Null !in s.pushed && forall i :: 0 <= i < |s.terms| ==> s.terms[i].TIdle?)
    && (forall i :: 0 <= i < |s.terms| ==> !s.terms[i].TIdle? && !s.terms[i].TPush? ==> Null in s.pushed)
    && (forall i :: 0 <= i < |s.terms| ==>
          s.terms[i].TJoin? || s.terms[i].TRead? || s.terms[i].TUnlock? || s.terms[i].TDone? ==> s.wpc.WDone?)
    && (forall i :: 0 <= i < |s.terms| ==> s.terms[i].TRead? || s.terms[i].TUnlock? || s.terms[i].TDone? ==> !s.joinable)
    && (Null in s.pushed ==> exists i :: 0 <= i < |s.terms| && !s.terms[i].TIdle?)
  }

  ghost predicate ErrorInv(c: Config, s: State) {
    && (s.wpc.WNone? || s.wpc.WStart? || s.wpc.WIniting? ==> s.error == 0)
    && (s.wpc.WSetRunning? || s.wpc.WTest? || s.wpc.WExitTest? ==> s.error == InitResult(c))
    && (InLoop(s.wpc) || s.wpc.WExiting? ==> s.error == InitResult(c) == 0)
    && (s.wpc.WSetTerm? || s.wpc.WDone? ==> s.error == FinalResult(c))
    && (s.rpc.RDone? ==> s.rpc.result == InitResult(c) || (c.overlap && s.rpc.result == FinalResult(c) && c.nterms > 0))
    && (forall i :: 0 <= i < |s.terms| ==> s.terms[i].TUnlock? || s.terms[i].TDone? ==> s.terms[i].result == FinalResult(c))
  }

  ghost predicate QueueInv(c: Config, s: State) {
    && s.pushed == s.popped + s.queue
    && (BeforeLoop(s.wpc) || InitResult(c) != 0 ==> s.popped == [])
    && (forall j :: 0 <= j < |s.popped| && s.popped[j] == Null ==> j == |s.popped| - 1 && PastLoop(s.wpc))
    && (PastLoop(s.wpc) && InitResult(c) == 0 ==> s.popped != [] && s.popped[|s.popped| - 1] == Null)
    && (Busy(s.wpc) ==> s.popped != [] && s.wpc.item == s.popped[|s.popped| - 1])
    && (s.wpc.WFree? ==> s.wpc.item.Msg?)
    && (s.wpc.WLookup? || s.wpc.WReady? ==> s.wpc.item.Rpc?)
    && (s.wpc.WRunning? && s.wpc.item.Rpc? ==> s.wpc.item.tag in c.registered)
    && (s.wpc.WRunning? && s.wpc.item.Msg? ==> s.wpc.item.tag in c.registered)
  }

  // ----- Ids and calls

  predicate HasId(item: Item, id: nat) {
    !item.Null? && item.id == id
  }

  /** The stage a call can have when its RPC object is the k-th pushed item. */
  predicate StageAt(s: State, k: nat, stage: Stage) {
    if k >= |s.popped| then stage.Queued?
    else if k == |s.popped| - 1 && Busy(s.wpc) then
      (match s.wpc
       case WGot(_) => stage.Taken?
       case WLookup(_) => stage.Taken?
       case WRunning(_) => stage.Running?
       case _ => stage.Finished?)
    else stage.Ready? || stage.Returned?
  }

  ghost predicate IdInv(s: State) {
    && (forall i, j :: 0 <= i < j < |s.pushed| && !s.pushed[i].Null? ==> !HasId(s.pushed[j], s.pushed[i].id))
    && (forall i :: 0 <= i < |s.pushed| && !s.pushed[i].Null? ==> s.pushed[i].id in s.used)
    && (forall id :: id in s.calls ==> id in s.used)
    && (forall i :: 0 <= i < |s.pushed| && s.pushed[i].Msg? ==> s.pushed[i].id !in s.calls)
    && (forall i, id :: 0 <= i < |s.pushed| && id in s.calls && s.calls[id].stage.Called? ==> !HasId(s.pushed[i], id))
  }

  ghost predicate CallInv(c: Config, s: State) {
    && (forall i :: 0 <= i < |s.pushed| && s.pushed[i].Rpc? ==>
          s.pushed[i].id in s.calls && s.calls[s.pushed[i].id].tag == s.pushed[i].tag
          && StageAt(s, i, s.calls[s.pushed[i].id].stage))
    && (forall id :: id in s.calls && !s.calls[id].stage.Called? ==> Rpc(id, s.calls[id].tag) in s.pushed)
    && (forall id :: id in s.calls ==> ResultOk(c, id, s.calls[id]))
  }

  /** The fields of the RPC object: as the caller left them until the handler has run. */
  predicate ResultOk(c: Config, id: nat, k: Call) {
    match k.stage
    case Finished | Ready | Returned =>
      if k.tag in c.registered then k.reply == c.reply(id) && k.error == c.rerr(id)
      else k.reply == 0 && k.error == HANDLER_NOT_FOUND
    case Running => k.tag in c.registered && k.reply == 0 && k.error == 0
    case _ => k.reply == 0 && k.error == 0
  }

  ghost predicate Inv(c: Config, s: State) {
    && LockInv(c, s) && RunInv(c, s) && JoinInv(s) && TermInv(c, s) && ErrorInv(c, s) && QueueInv(c, s)
    && IdInv(s) && CallInv(c, s)
  }

  // ----- Preservation, one actor and one part at a time

  lemma RunKeepsLock(c: Config, s: State)
    requires LockInv(c, s) && RunStep(c, s).Some?
    ensures var s' := RunStep(c, s).value; LockInv(c, s')
  {
  }

  lemma RunKeepsRun(c: Config, s: State)
    requires Inv(c, s) && RunStep(c, s).Some?
    ensures var s' := RunStep(c, s).value; RunInv(c, s') && JoinInv(s')
  {
    hide LockInv, IdInv, CallInv;
  }

  lemma RunKeepsError(c: Config, s: State)
    requires Inv(c, s) && RunStep(c, s).Some?
    ensures var s' := RunStep(c, s).value; ErrorInv(c, s')
  {
    hide JoinInv, IdInv, CallInv;
  }

  lemma RunKeepsTerm(c: Config, s: State)
    requires Inv(c, s) && RunStep(c, s).Some?
    ensures var s' := RunStep(c, s).value; TermInv(c, s')
  {
    hide LockInv, ErrorInv, QueueInv, IdInv, CallInv;
  }

  lemma RunKeepsQueue(c: Config, s: State)
    requires Inv(c, s) && RunStep(c, s).Some?
    ensures var s' := RunStep(c, s).value; QueueInv(c, s')
  {
    hide LockInv, JoinInv, TermInv, ErrorInv, IdInv, CallInv;
  }

  lemma RunKeepsIds(c: Config, s: State)
    requires Inv(c, s) && RunStep(c, s).Some?
    ensures var s' := RunStep(c, s).value; IdInv(s')
  {
    hide RunStep, LockInv, RunInv, JoinInv, TermInv, ErrorInv, QueueInv, CallInv;
    RunFrame(c, s);
  }

  /** What a terminator does to the lock. */
  lemma TermLocks(c: Config, s: State, i: nat)
    requires i < |s.terms| && TermStep(c, s, i).Some?
    ensures var s' := TermStep(c, s, i).value;
      && |s'.terms| == |s.terms| && s'.terms == s.terms[i := s'.terms[i]] && s'.rpc == s.rpc
      && (THolds(s'.terms[i]) <==> !s.terms[i].TUnlock?)
      && s'.lock == (if s.terms[i].TIdle? then ByTerm(i) else if s.terms[i].TUnlock? then Free else s.lock)
      && (s.terms[i].TIdle? ==> s.lock.Free?) && !s.terms[i].TDone?
  {
  }

  lemma TermKeepsLock(c: Config, s: State, i: nat)
    requires LockInv(c, s) && i < |s.terms| && TermStep(c, s, i).Some?
    ensures var s' := TermStep(c, s, i).value; LockInv(c, s')
  {
    hide TermStep;
    TermLocks(c, s, i);
  }

  lemma TermKeepsRun(c: Config, s: State, i: nat)
    requires Inv(c, s) && i < |s.terms| && TermStep(c, s, i).Some?
    ensures var s' := TermStep(c, s, i).value; RunInv(c, s') && JoinInv(s')
  {
    hide LockInv, ErrorInv, QueueInv, IdInv, CallInv;
  }

  lemma TermKeepsError(c: Config, s: State, i: nat)
    requires Inv(c, s) && i < |s.terms| && TermStep(c, s, i).Some?
    ensures var s' := TermStep(c, s, i).value; ErrorInv(c, s')
  {
    hide LockInv, JoinInv, QueueInv, IdInv, CallInv;
  }

  /** A terminator pushes a NULL once, and leaves the worker thread alone. */
  lemma TermPushes(c: Config, s: State, i: nat)
    requires i < |s.terms| && TermStep(c, s, i).Some?
    ensures var s' := TermStep(c, s, i).value;
      && s'.popped == s.popped && s'.wpc == s.wpc
      && s'.pushed == (if s.terms[i].TPush? then s.pushed + [Null] else s.pushed)
      && s'.queue == (if s.terms[i].TPush? then s.queue + [Null] else s.queue)
  {
  }

  lemma TermKeepsQueue(c: Config, s: State, i: nat)
    requires QueueInv(c, s) && i < |s.terms| && TermStep(c, s, i).Some?
    ensures var s' := TermStep(c, s, i).value; QueueInv(c, s')
  {
    hide TermStep;
    TermPushes(c, s, i);
    Associative(s.popped, s.queue, [Null]);
  }

  lemma Associative<T>(x: seq<T>, y: seq<T>, z: seq<T>)
    ensures (x + y) + z == x + (y + z)
  {
  }

  lemma ClientKeepsLock(c: Config, s: State, a: Action)
    requires LockInv(c, s) && ClientStep(s, a).Some?
    ensures var s' := ClientStep(s, a).value; LockInv(c, s')
  {
  }

  lemma ClientKeepsRun(c: Config, s: State, a: Action)
    requires Inv(c, s) && ClientStep(s, a).Some?
    ensures var s' := ClientStep(s, a).value; RunInv(c, s') && JoinInv(s')
  {
    hide LockInv, TermInv, ErrorInv, QueueInv, IdInv, CallInv;
  }

  lemma ClientKeepsError(c: Config, s: State, a: Action)
    requires Inv(c, s) && ClientStep(s, a).Some?
    ensures var s' := ClientStep(s, a).value; ErrorInv(c, s')
  {
    hide LockInv, RunInv, JoinInv, TermInv, QueueInv, IdInv, CallInv;
  }

  lemma ClientKeepsTerm(c: Config, s: State, a: Action)
    requires Inv(c, s) && ClientStep(s, a).Some?
    ensures var s' := ClientStep(s, a).value; TermInv(c, s')
  {
    hide LockInv, RunInv, JoinInv, ErrorInv, QueueInv, IdInv, CallInv;
  }

  lemma ClientKeepsQueue(c: Config, s: State, a: Action)
    requires Inv(c, s) && ClientStep(s, a).Some?
    ensures var s' := ClientStep(s, a).value; QueueInv(c, s')
  {
    hide LockInv, RunInv, JoinInv, TermInv, ErrorInv, IdInv, CallInv;
  }

  lemma TermKeepsTerm(c: Config, s: State, i: nat)
    requires Inv(c, s) && i < |s.terms| && TermStep(c, s, i).Some?
    ensures TermInv(c, TermStep(c, s, i).value)
  {
    hide ErrorInv, QueueInv, IdInv, CallInv;
    var s' := TermStep(c, s, i).value;
    assert !s'.terms[i].TIdle?;
  }

  /** The runner leaves the queue, the calls and the terminators alone. */
  lemma RunFrame(c: Config, s: State)
    requires RunStep(c, s).Some?
    ensures var s' := RunStep(c, s).value;
      && s'.pushed == s.pushed && s'.popped == s.popped && s'.calls == s.calls && s'.used == s.used
      && (s'.wpc == s.wpc || (s.rpc.RLocked? && s'.wpc.WStart?))
  {
  }

  lemma RunKeepsCalls(c: Config, s: State)
    requires Inv(c, s) && RunStep(c, s).Some?
    ensures CallInv(c, RunStep(c, s).value)
  {
    RunFrame(c, s);
    SameCalls(c, s, RunStep(c, s).value);
  }

  // ----- The worker thread: its four kinds of step, then what they share

  /** What a worker step never touches. */
  ghost predicate WorkFrame(s: State, s': State) {
    && s'.lock == s.lock && s'.rpc == s.rpc && s'.terms == s.terms
    && s'.pushed == s.pushed && s'.used == s.used && s'.joinable == s.joinable && s'.joins == s.joins
    && s'.calls.Keys == s.calls.Keys && !s.wpc.WDone? && !s.wpc.WNone?
    && (!s.wpc.WPop? ==> s'.popped == s.popped && s'.queue == s.queue)
    && (InLoop(s.wpc) ==> s'.error == s.error)
    && (forall id :: id in s.calls && s'.calls[id].stage.Called? ==> s.calls[id].stage.Called?)
  }

  lemma PopEffect(s: State)
    requires s.wpc.WPop? && PopStep(s).Some?
    ensures var s' := PopStep(s).value;
      && WorkFrame(s, s') && s.queue != []
      && s'.queue == s.queue[1..] && s'.popped == s.popped + [s.queue[0]]
      && (if s.queue[0].Null? then s'.wpc == WExitTest && s'.calls == s.calls && s'.log == s.log
          else s'.wpc == WGot(s.queue[0]) && s'.log == s.log + [Dispatched(s.queue[0].id)])
      && (!s.queue[0].Rpc? ==> s'.calls == s.calls)
      && (s.queue[0].Rpc? && s.queue[0].id in s.calls ==>
            s'.calls == s.calls[s.queue[0].id := s.calls[s.queue[0].id].(stage := Taken)])
  {
  }

  lemma LifeKeepsOthers(c: Config, s: State)
    requires LifeStep(c, s).Some? && !InLoop(s.wpc)
    ensures var s' := LifeStep(c, s).value;
      s'.lock == s.lock && s'.rpc == s.rpc && s'.terms == s.terms && s'.joinable == s.joinable && s'.joins == s.joins
  {
  }

  lemma LifeKeepsItems(c: Config, s: State)
    requires LifeStep(c, s).Some? && !InLoop(s.wpc)
    ensures var s' := LifeStep(c, s).value;
      s'.pushed == s.pushed && s'.popped == s.popped && s'.queue == s.queue && s'.used == s.used && s'.calls == s.calls
  {
    match s.wpc
    case WIniting =>
    case WExiting =>
    case _ =>
  }

  lemma LifeEffect(c: Config, s: State)
    requires LifeStep(c, s).Some? && !InLoop(s.wpc)
    ensures var s' := LifeStep(c, s).value; WorkFrame(s, s') && s'.calls == s.calls && !Busy(s'.wpc)
  {
    LifeKeepsOthers(c, s);
    LifeKeepsItems(c, s);
  }

  lemma OnMsgEffect(c: Config, s: State, id: nat, tag: Tag)
    requires OnMsg(c, s, id, tag).Some? && Busy(s.wpc)
    ensures var s' := OnMsg(c, s, id, tag).value; WorkFrame(s, s') && s'.calls == s.calls
  {
  }

  lemma OnRpcCall(c: Config, s: State, id: nat, tag: Tag)
    requires OnRpc(c, s, id, tag).Some? && Busy(s.wpc)
    ensures id in s.calls
    ensures var s' := OnRpc(c, s, id, tag).value;
      && id in s'.calls && s'.calls == s.calls[id := s'.calls[id]] && s'.calls[id].tag == s.calls[id].tag
      && (s'.calls[id].stage.Called? ==> s.calls[id].stage.Called?)
  {
  }

  lemma OnRpcFields(c: Config, s: State, id: nat, tag: Tag)
    requires OnRpc(c, s, id, tag).Some? && Busy(s.wpc)
    ensures var s' := OnRpc(c, s, id, tag).value;
      && s'.lock == s.lock && s'.rpc == s.rpc && s'.terms == s.terms && s'.pushed == s.pushed && s'.used == s.used
      && s'.joinable == s.joinable && s'.joins == s.joins && s'.popped == s.popped && s'.queue == s.queue && s'.error == s.error
  {
  }

  lemma OnRpcEffect(c: Config, s: State, id: nat, tag: Tag)
    requires OnRpc(c, s, id, tag).Some? && Busy(s.wpc)
    ensures id in s.calls
    ensures var s' := OnRpc(c, s, id, tag).value;
      && WorkFrame(s, s') && s'.calls == s.calls[id := s'.calls[id]] && s'.calls[id].tag == s.calls[id].tag
  {
    OnRpcCall(c, s, id, tag);
    var calls' := OnRpc(c, s, id, tag).value.calls;
    assert calls'.Keys == s.calls.Keys by {
      assert calls' == s.calls[id := calls'[id]];
    }
    OnRpcFields(c, s, id, tag);
  }

  lemma WorkKeepsFrame(c: Config, s: State)
    requires WorkStep(c, s).Some?
    ensures WorkFrame(s, WorkStep(c, s).value)
  {
    if s.wpc.WPop? {
      PopEffect(s);
    } else if !Busy(s.wpc) {
      LifeEffect(c, s);
    } else if s.wpc.item.Rpc? {
      OnRpcEffect(c, s, s.wpc.item.id, s.wpc.item.tag);
    } else {
      OnMsgEffect(c, s, s.wpc.item.id, s.wpc.item.tag);
    }
  }

  lemma WorkKeepsRun(c: Config, s: State)
    requires Inv(c, s) && WorkStep(c, s).Some?
    ensures var s' := WorkStep(c, s).value; RunInv(c, s') && JoinInv(s')
  {
    WorkKeepsFrame(c, s);
    if s.wpc.WPop? {
      PopKeepsRun(c, s);
    } else if !Busy(s.wpc) {
      LifeKeepsRun(c, s);
    } else {
      WorkMoves(c, s);
      BusyKeepsRun(c, s);
    }
  }

  lemma PopKeepsRun(c: Config, s: State)
    requires RunInv(c, s) && JoinInv(s) && s.wpc.WPop? && PopStep(s).Some?
    ensures var s' := PopStep(s).value; RunInv(c, s') && JoinInv(s')
  {
  }

  lemma LifeKeepsRun(c: Config, s: State)
    requires RunInv(c, s) && JoinInv(s) && LifeStep(c, s).Some?
    ensures var s' := LifeStep(c, s).value; RunInv(c, s') && JoinInv(s')
  {
  }

  lemma BusyKeepsRun(c: Config, s: State)
    requires RunInv(c, s) && JoinInv(s) && Busy(s.wpc) && WorkStep(c, s).Some?
    ensures var s' := WorkStep(c, s).value; RunInv(c, s') && JoinInv(s')
  {
    if s.wpc.item.Rpc? {
      OnRpcFields(c, s, s.wpc.item.id, s.wpc.item.tag);
    }
  }

  lemma WorkKeepsError(c: Config, s: State)
    requires Inv(c, s) && WorkStep(c, s).Some?
    ensures ErrorInv(c, WorkStep(c, s).value)
  {
    WorkKeepsFrame(c, s);
    if s.wpc.WPop? {
      PopEffect(s);
    } else if !Busy(s.wpc) {
      LifeKeepsError(c, s);
    } else {
      WorkMoves(c, s);
    }
  }

  lemma LifeKeepsError(c: Config, s: State)
    requires RunInv(c, s) && ErrorInv(c, s) && LifeStep(c, s).Some?
    ensures ErrorInv(c, LifeStep(c, s).value)
  {
  }

  lemma WorkKeepsLock(c: Config, s: State)
    requires LockInv(c, s) && WorkStep(c, s).Some?
    ensures LockInv(c, WorkStep(c, s).value)
  {
    WorkKeepsFrame(c, s);
    SameLock(c, s, WorkStep(c, s).value);
  }

  lemma SameLock(c: Config, s: State, s': State)
    requires LockInv(c, s) && s'.lock == s.lock && s'.rpc == s.rpc && s'.terms == s.terms
    ensures LockInv(c, s')
  {
  }

  lemma WorkKeepsTerm(c: Config, s: State)
    requires Inv(c, s) && WorkStep(c, s).Some?
    ensures TermInv(c, WorkStep(c, s).value)
  {
    WorkKeepsFrame(c, s);
    SameTerm(c, s, WorkStep(c, s).value);
  }

  lemma SameTerm(c: Config, s: State, s': State)
    requires TermInv(c, s) && s'.rpc == s.rpc && s'.terms == s.terms && s'.pushed == s.pushed
    requires s'.joinable == s.joinable && !s.wpc.WDone?
    ensures TermInv(c, s')
  {
  }

  lemma PopKeepsQueue(c: Config, s: State)
    requires QueueInv(c, s) && ErrorInv(c, s) && s.wpc.WPop? && PopStep(s).Some?
    ensures QueueInv(c, PopStep(s).value)
  {
    PopEffect(s);
    var s' := PopStep(s).value;
    assert s.pushed == (s.popped + [s.queue[0]]) + s.queue[1..];
    assert s'.popped[..|s'.popped| - 1] == s.popped;
  }

  lemma WorkKeepsQueue(c: Config, s: State)
    requires Inv(c, s) && WorkStep(c, s).Some?
    ensures QueueInv(c, WorkStep(c, s).value)
  {
    if s.wpc.WPop? {
      PopKeepsQueue(c, s);
    } else {
      WorkKeepsFrame(c, s);
      WorkMoves(c, s);
      SameQueue(c, s, WorkStep(c, s).value);
    }
  }

  /** Where the worker thread can go from each point outside the pop. */
  lemma WorkMoves(c: Config, s: State)
    requires QueueInv(c, s) && ErrorInv(c, s) && RunInv(c, s) && !s.wpc.WPop? && WorkStep(c, s).Some?
    ensures NextPc(c, s, WorkStep(c, s).value.wpc)
  {
  }

  predicate NextPc(c: Config, s: State, p: WPc) {
    match s.wpc
    case WStart | WIniting => BeforeLoop(p)
    case WSetRunning => p.WTest?
    case WTest => if InitResult(c) == 0 then p.WPop? else p.WExitTest?
    case WGot(item) =>
      (item.Msg? && p == WFree(item)) || (item.Msg? && item.tag in c.registered && p == WRunning(item)) ||
      (item.Rpc? && p == WLookup(item))
    case WLookup(item) => item.Rpc? && p == if item.tag in c.registered then WRunning(item) else WReady(item)
    case WRunning(item) => (item.Msg? && p == WFree(item)) || (item.Rpc? && p == WReady(item))
    case WFree(_) | WReady(_) => p.WPop?
    case WExitTest | WExiting | WSetTerm => PastLoop(p)
    case _ => false
  }

  lemma SameQueue(c: Config, s: State, s': State)
    requires QueueInv(c, s) && ErrorInv(c, s) && !s.wpc.WPop? && NextPc(c, s, s'.wpc)
    requires s'.pushed == s.pushed && s'.popped == s.popped && s'.queue == s.queue
    ensures QueueInv(c, s')
  {
  }

  lemma WorkKeepsIds(c: Config, s: State)
    requires Inv(c, s) && WorkStep(c, s).Some?
    ensures IdInv(WorkStep(c, s).value)
  {
    WorkKeepsFrame(c, s);
    var s' := WorkStep(c, s).value;
    SameIds(s, s');
  }

  lemma SameIds(s: State, s': State)
    requires IdInv(s) && s'.pushed == s.pushed && s'.used == s.used && s'.calls.Keys == s.calls.Keys
    requires forall i, id :: 0 <= i < |s'.pushed| && id in s'.calls && s'.calls[id].stage.Called? ==> !HasId(s'.pushed[i], id)
    ensures IdInv(s')
  {
  }

  // ----- Calls under a worker step

  /** Nothing that the calls depend on changes. */
  lemma SameCalls(c: Config, s: State, s': State)
    requires CallInv(c, s) && s'.pushed == s.pushed && s'.popped == s.popped && s'.calls == s.calls
    requires s'.wpc == s.wpc || (!Busy(s.wpc) && !Busy(s'.wpc))
    ensures CallInv(c, s')
  {
  }

  /** A push behind everything else leaves the calls of the earlier items alone. */
  lemma PushedCalls(c: Config, s: State, s': State, item: Item)
    requires CallInv(c, s) && |s.popped| <= |s.pushed|
    requires s'.pushed == s.pushed + [item] && s'.popped == s.popped && s'.wpc == s.wpc
    requires if item.Rpc?
             then IdInv(s) && item.id in s.calls && s.calls[item.id].stage.Called? && s.calls[item.id].tag == item.tag
                  && s'.calls == s.calls[item.id := s.calls[item.id].(stage := Queued)]
             else s'.calls == s.calls
    ensures CallInv(c, s')
  {
    forall id | id in s'.calls && !s'.calls[id].stage.Called?
      ensures Rpc(id, s'.calls[id].tag) in s'.pushed
    {
      assert item in s'.pushed;
    }
    forall i | 0 <= i < |s'.pushed| && s'.pushed[i].Rpc?
      ensures s'.pushed[i].id in s'.calls && s'.calls[s'.pushed[i].id].tag == s'.pushed[i].tag
      ensures StageAt(s', i, s'.calls[s'.pushed[i].id].stage)
    {
      if i < |s.pushed| && item.Rpc? {
        assert !HasId(s.pushed[i], item.id);
      }
    }
  }

  /** A caller starts, or returns: the index of its RPC object, if any, is behind the current item. */
  lemma CallerMoves(c: Config, s: State, s': State, id: nat, k: Call)
    requires CallInv(c, s) && s'.pushed == s.pushed && s'.popped == s.popped && s'.wpc == s.wpc
    requires s'.calls == s.calls[id := k] && ResultOk(c, id, k)
    requires if id in s.calls then s.calls[id].stage.Ready? && k.stage.Returned? && k.tag == s.calls[id].tag
             else k.stage.Called?
    ensures CallInv(c, s')
  {
  }

  lemma TermKeepsCalls(c: Config, s: State, i: nat)
    requires Inv(c, s) && i < |s.terms| && TermStep(c, s, i).Some?
    ensures CallInv(c, TermStep(c, s, i).value)
  {
    if s.terms[i].TPush? {
      PushedCalls(c, s, TermStep(c, s, i).value, Null);
    } else {
      TermFrame(c, s, i);
      SameCalls(c, s, TermStep(c, s, i).value);
    }
  }

  lemma TermFrame(c: Config, s: State, i: nat)
    requires i < |s.terms| && !s.terms[i].TPush? && TermStep(c, s, i).Some?
    ensures var s' := TermStep(c, s, i).value;
      s'.pushed == s.pushed && s'.popped == s.popped && s'.calls == s.calls && s'.wpc == s.wpc && s'.used == s.used
  {
  }

  lemma NullKeepsIds(s: State)
    requires IdInv(s)
    ensures IdInv(Push(s, Null))
  {
  }

  lemma TermKeepsIds(c: Config, s: State, i: nat)
    requires Inv(c, s) && i < |s.terms| && TermStep(c, s, i).Some?
    ensures IdInv(TermStep(c, s, i).value)
  {
    if s.terms[i].TPush? {
      NullKeepsIds(s);
    } else {
      TermFrame(c, s, i);
      SameIds(s, TermStep(c, s, i).value);
    }
  }

  lemma SendKeepsIds(s: State, id: nat, tag: Tag)
    requires IdInv(s) && ClientStep(s, Send(id, tag)).Some?
    ensures IdInv(ClientStep(s, Send(id, tag)).value)
  {
  }

  lemma CallKeepsIds(s: State, id: nat, tag: Tag)
    requires IdInv(s) && ClientStep(s, CallRpc(id, tag)).Some?
    ensures IdInv(ClientStep(s, CallRpc(id, tag)).value)
  {
  }

  lemma PushRpcKeepsIds(s: State, id: nat)
    requires IdInv(s) && ClientStep(s, PushRpc(id)).Some?
    ensures IdInv(ClientStep(s, PushRpc(id)).value)
  {
  }

  lemma ReturnKeepsIds(s: State, id: nat)
    requires IdInv(s) && ClientStep(s, ReturnRpc(id)).Some?
    ensures IdInv(ClientStep(s, ReturnRpc(id)).value)
  {
  }

  lemma ClientKeepsIds(c: Config, s: State, a: Action)
    requires Inv(c, s) && ClientStep(s, a).Some?
    ensures IdInv(ClientStep(s, a).value)
  {
    match a
    case Send(id, tag) => SendKeepsIds(s, id, tag);
    case CallRpc(id, tag) => CallKeepsIds(s, id, tag);
    case PushRpc(id) => PushRpcKeepsIds(s, id);
    case ReturnRpc(id) => ReturnKeepsIds(s, id);
    case _ =>
  }

  lemma ClientKeepsCalls(c: Config, s: State, a: Action)
    requires Inv(c, s) && ClientStep(s, a).Some?
    ensures CallInv(c, ClientStep(s, a).value)
  {
    var s' := ClientStep(s, a).value;
    match a
    case Send(id, tag) => PushedCalls(c, s, s', Msg(id, tag));
    case CallRpc(id, tag) => CallerMoves(c, s, s', id, s'.calls[id]);
    case PushRpc(id) => PushedCalls(c, s, s', Rpc(id, s.calls[id].tag));
    case ReturnRpc(id) => CallerMoves(c, s, s', id, s'.calls[id]);
    case _ =>
  }

  /** The current item is a normal message, so no call is at its index. */
  lemma MessageMoves(c: Config, s: State, s': State)
    requires CallInv(c, s) && QueueInv(c, s) && s'.pushed == s.pushed && s'.popped == s.popped && s'.calls == s.calls
    requires Busy(s.wpc) && s.wpc.item.Msg?
    ensures CallInv(c, s')
  {
  }

  /** The call of the current item moves on to stage `k.stage`; every other one stays. */
  lemma CallMoves(c: Config, s: State, s': State, k: Call)
    requires CallInv(c, s) && IdInv(s) && QueueInv(c, s) && s'.pushed == s.pushed && s'.popped == s.popped
    requires Busy(s.wpc) && s.wpc.item.Rpc? && s'.calls == s.calls[s.wpc.item.id := k]
    requires k.tag == s.wpc.item.tag && !k.stage.Called? && StageAt(s', |s.popped| - 1, k.stage)
    requires ResultOk(c, s.wpc.item.id, k)
    ensures CallInv(c, s')
  {
    var n := |s.popped| - 1;
    assert s.pushed[n] == s.wpc.item;
    forall i | 0 <= i < |s'.pushed| && s'.pushed[i].Rpc?
      ensures s'.pushed[i].id in s'.calls && s'.calls[s'.pushed[i].id].tag == s'.pushed[i].tag
      ensures StageAt(s', i, s'.calls[s'.pushed[i].id].stage)
    {
      if i != n {
        assert !HasId(s.pushed[i], s.pushed[n].id);
      }
    }
  }

  /** The call of a popped rpc is taken, and no other call changes. */
  lemma PoppedCall(s: State)
    requires s.wpc.WPop? && PopStep(s).Some?
    ensures PopStep(s).value.calls == CallsAfterPop(s)
  {
  }

  function CallsAfterPop(s: State): map<nat, Call>
    requires s.queue != []
  {
    var item := s.queue[0];
    if item.Rpc? && item.id in s.calls then s.calls[item.id := s.calls[item.id].(stage := Taken)] else s.calls
  }

  lemma PopTakesCall(c: Config, s: State)
    requires CallInv(c, s) && IdInv(s) && QueueInv(c, s) && s.wpc.WPop? && PopStep(s).Some?
    ensures CallInv(c, PopStep(s).value)
  {
    PopEffect(s);
    PoppedCall(s);
    CallTaken(c, s, PopStep(s).value);
  }

  lemma CallTaken(c: Config, s: State, s': State)
    requires CallInv(c, s) && IdInv(s) && QueueInv(c, s) && !Busy(s.wpc) && s.queue != []
    requires s'.calls == CallsAfterPop(s) && s'.pushed == s.pushed && s'.popped == s.popped + [s.queue[0]]
    requires if s.queue[0].Null? then !Busy(s'.wpc) else s'.wpc == WGot(s.queue[0])
    ensures CallInv(c, s')
  {
    var n := |s.popped|;
    assert s.pushed[n] == s.queue[0];
    forall i | 0 <= i < |s'.pushed| && s'.pushed[i].Rpc?
      ensures s'.pushed[i].id in s'.calls && s'.calls[s'.pushed[i].id].tag == s'.pushed[i].tag
      ensures StageAt(s', i, s'.calls[s'.pushed[i].id].stage)
    {
      if i != n && !s.queue[0].Null? {
        assert !HasId(s.pushed[i], s.pushed[n].id);
      }
    }
  }

  lemma WorkKeepsCalls(c: Config, s: State)
    requires Inv(c, s) && WorkStep(c, s).Some?
    ensures CallInv(c, WorkStep(c, s).value)
  {
    if s.wpc.WPop? {
      PopTakesCall(c, s);
    } else if !Busy(s.wpc) {
      LifeEffect(c, s);
      SameCalls(c, s, LifeStep(c, s).value);
    } else if s.wpc.item.Msg? {
      OnMsgEffect(c, s, s.wpc.item.id, s.wpc.item.tag);
      MessageMoves(c, s, OnMsg(c, s, s.wpc.item.id, s.wpc.item.tag).value);
    } else {
      RpcMoves(c, s);
    }
  }

  lemma RpcMoves(c: Config, s: State)
    requires Inv(c, s) && WorkStep(c, s).Some? && Busy(s.wpc) && !s.wpc.item.Msg?
    ensures CallInv(c, WorkStep(c, s).value)
  {
    var id := s.wpc.item.id;
    var s' := OnRpc(c, s, id, s.wpc.item.tag).value;
    OnRpcEffect(c, s, id, s.wpc.item.tag);
    assert s.pushed[|s.popped| - 1] == s.wpc.item;
    RpcStages(c, s, id, s.wpc.item.tag);
    CallMoves(c, s, s', s'.calls[id]);
  }

  lemma RpcStages(c: Config, s: State, id: nat, tag: Tag)
    requires OnRpc(c, s, id, tag).Some? && Busy(s.wpc) && s.wpc.item == Rpc(id, tag) && s.calls[id].tag == tag
    requires s.popped != [] && StageAt(s, |s.popped| - 1, s.calls[id].stage) && ResultOk(c, id, s.calls[id])
    ensures var s' := OnRpc(c, s, id, tag).value;
      && StageAt(s', |s.popped| - 1, s'.calls[id].stage) && ResultOk(c, id, s'.calls[id])
      && !s'.calls[id].stage.Called?
  {
  }

  // ----- The invariant holds in every reachable state

  lemma StepKeepsInv(c: Config, s: State, a: Action)
    requires Inv(c, s) && Step(c, s, a).Some?
    ensures Inv(c, Step(c, s, a).value)
  {
    hide LockInv, RunInv, JoinInv, TermInv, ErrorInv, QueueInv, IdInv, CallInv;
    hide RunStep, WorkStep, TermStep, ClientStep;
    match a
    case Run =>
      RunKeepsLock(c, s); RunKeepsRun(c, s); RunKeepsError(c, s); RunKeepsTerm(c, s);
      RunKeepsQueue(c, s); RunKeepsIds(c, s); RunKeepsCalls(c, s);
    case Work =>
      WorkKeepsLock(c, s); WorkKeepsRun(c, s); WorkKeepsError(c, s); WorkKeepsTerm(c, s);
      WorkKeepsQueue(c, s); WorkKeepsIds(c, s); WorkKeepsCalls(c, s);
    case Terminate(i) =>
      TermKeepsLock(c, s, i); TermKeepsRun(c, s, i); TermKeepsError(c, s, i); TermKeepsTerm(c, s, i);
      TermKeepsQueue(c, s, i); TermKeepsIds(c, s, i); TermKeepsCalls(c, s, i);
    case _ =>
      ClientKeepsLock(c, s, a); ClientKeepsRun(c, s, a); ClientKeepsError(c, s, a); ClientKeepsTerm(c, s, a);
      ClientKeepsQueue(c, s, a); ClientKeepsIds(c, s, a); ClientKeepsCalls(c, s, a);
  }

  lemma {:induction false} ExecKeepsInv(c: Config, s: State, acts: seq<Action>)
    requires Inv(c, s) && Exec(c, s, acts).Some?
    ensures Inv(c, Exec(c, s, acts).value)
    decreases |acts|
  {
    if acts != [] {
      ExecKeepsInv(c, s, acts[..|acts| - 1]);
      StepKeepsInv(c, Exec(c, s, acts[..|acts| - 1]).value, acts[|acts| - 1]);
    }
  }

  lemma RunsInv(c: Config, acts: seq<Action>)
    requires Runs(c, acts).Some?
    ensures Inv(c, Runs(c, acts).value)
  {
    ExecKeepsInv(c, Init(c), acts);
  }
}
