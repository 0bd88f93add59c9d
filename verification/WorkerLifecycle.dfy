/** run and terminate: what they return, how often the thread is joined, and that nobody gets stuck. */
module WorkerLifecycle {
  import opened Options
  import opened Worker
  import opened WorkerInvariant
  import opened WorkerLog
  import opened WorkerTheorems

  ghost predicate Reachable(c: Config, s: State) {
    exists acts :: Runs(c, acts) == Some(s)
  }

  lemma ReachableInv(c: Config, s: State)
    requires Reachable(c, s)
    ensures Inv(c, s)
  {
    var acts :| Runs(c, acts) == Some(s);
    RunsInv(c, acts);
  }

  lemma ReachStep(c: Config, s: State, a: Action, s': State)
    requires Reachable(c, s) && Step(c, s, a) == Some(s')
    ensures Reachable(c, s')
  {
    var acts :| Runs(c, acts) == Some(s);
    assert (acts + [a])[..|acts|] == acts;
    assert Runs(c, acts + [a]) == Some(s');
  }

  // ----- The result of run

  /** The runner waiting for a worker thread that is past a successful on_init. */
  function Started(c: Config): State {
    Init(c).(lock := ByRunner, rpc := RWait, wpc := WSetRunning, joinable := true, log := InitTrace(c))
  }

  lemma StartingReachable(c: Config)
    ensures Reachable(c, Init(c).(lock := ByRunner, rpc := RWait, wpc := WStart, joinable := true))
  {
    var s0 := Init(c);
    assert Runs(c, []) == Some(s0);
    var s1 := s0.(lock := ByRunner, rpc := RLocked);
    ReachStep(c, s0, Run, s1);
    ReachStep(c, s1, Run, s1.(rpc := RWait, wpc := WStart, joinable := true));
  }

  lemma StartedReachable(c: Config)
    requires InitResult(c) == 0
    ensures Reachable(c, Started(c))
  {
    StartingReachable(c);
    var s2 := Init(c).(lock := ByRunner, rpc := RWait, wpc := WStart, joinable := true);
    if c.onInit.Some? {
      var s3 := s2.(wpc := WIniting);
      ReachStep(c, s2, Work, s3);
      assert [] + [Inited(0)] == InitTrace(c);
      ReachStep(c, s3, Work, Started(c));
    } else {
      ReachStep(c, s2, Work, Started(c));
    }
  }

  /** run has released the lock; the worker thread is about to test the error. */
  function Released(c: Config): State {
    Started(c).(lock := Free, running := true, rpc := RRead, wpc := WTest)
  }

  lemma ReleasedReachable(c: Config)
    requires InitResult(c) == 0
    ensures Reachable(c, Released(c))
  {
    StartedReachable(c);
    var s0 := Started(c);
    var s1 := s0.(running := true, wpc := WTest);
    ReachStep(c, s0, Work, s1);
    var s2 := s1.(rpc := RCheck);
    ReachStep(c, s1, Run, s2);
    var s3 := s2.(rpc := RUnlock);
    ReachStep(c, s2, Run, s3);
    ReachStep(c, s3, Run, Released(c));
  }

  /** The runner between unlock and its read of the error, with a NULL already queued by terminator 0. */
  function Overtaken(c: Config): State
    requires c.nterms > 0
  {
    Init(c).(lock := ByTerm(0), running := true, rpc := RRead, wpc := WPop, joinable := true, log := InitTrace(c),
             terms := Init(c).terms[0 := TWait], queue := [Null], pushed := [Null])
  }

  lemma OvertakenReachable(c: Config)
    requires InitResult(c) == 0 && c.overlap && c.nterms > 0
    ensures Reachable(c, Overtaken(c))
  {
    ReleasedReachable(c);
    var s4 := Released(c);
    var s5 := s4.(lock := ByTerm(0), terms := s4.terms[0 := TPush]);
    ReachStep(c, s4, Terminate(0), s5);
    var s6 := s5.(queue := [Null], pushed := [Null], terms := Init(c).terms[0 := TWait]);
    assert [] + [Null] == [Null] && s5.terms[0 := TWait] == s6.terms;
    ReachStep(c, s5, Terminate(0), s6);
    ReachStep(c, s6, Work, Overtaken(c));
  }

  /** In that state the worker thread can exit before run reads `w->error`. */
  lemma RunCanReturnExitResult(c: Config)
    requires InitResult(c) == 0 && c.overlap && c.nterms > 0 && c.onExit.Some?
    ensures exists s :: Reachable(c, s) && s.rpc == RDone(c.onExit.value)
  {
    ExitingReachable(c);
    var s2 := Exiting(c);
    var s3 := s2.(log := s2.log + [Exited(c.onExit.value)], error := c.onExit.value, wpc := WSetTerm);
    ReachStep(c, s2, Work, s3);
    var s4 := s3.(rpc := RDone(s3.error));
    ReachStep(c, s3, Run, s4);
    assert s4.rpc == RDone(c.onExit.value);
  }

  /** The worker thread is about to call on_exit while run is about to read the error. */
  function Exiting(c: Config): State
    requires c.nterms > 0
  {
    Overtaken(c).(queue := [], popped := [Null], wpc := WExiting)
  }

  lemma ExitingReachable(c: Config)
    requires InitResult(c) == 0 && c.overlap && c.nterms > 0 && c.onExit.Some?
    ensures Reachable(c, Exiting(c))
  {
    OvertakenReachable(c);
    var s0 := Overtaken(c);
    var s1 := s0.(queue := [], popped := [Null], wpc := WExitTest);
    assert [Null][1..] == [] && [] + [Null] == [Null];
    ReachStep(c, s0, Work, s1);
    ReachStep(c, s1, Work, Exiting(c));
  }

  /** on_exit changes the error, and terminate may overlap run. */
  predicate ExitMayOvertake(c: Config) {
    InitResult(c) == 0 && c.onExit.Some? && c.onExit.value != 0 && c.overlap && c.nterms > 0
  }

  /**
   run reads `w->error` after it has released the lock (tecc_worker.c:131-132), so it returns the
   on_init result in every run exactly when on_init fails, or on_exit is NULL or returns 0, or no
   terminate can start before run has returned.
   */
  lemma RunReturnsInitResultIff(c: Config)
    ensures (forall s :: Reachable(c, s) && s.rpc.RDone? ==> s.rpc.result == InitResult(c)) <==> !ExitMayOvertake(c)
  {
    if ExitMayOvertake(c) {
      RunCanReturnExitResult(c);
    } else {
      forall s | Reachable(c, s) && s.rpc.RDone?
        ensures s.rpc.result == InitResult(c)
      {
        ReachableInv(c, s);
      }
    }
  }

  // ----- Terminate and join

  /**
   The thread is joined at most once in every run, however many threads terminate; a terminate that
   has returned found the thread finished and joined exactly once, and all of them return the final
   error. A failed run has joined it too, and the worker has then handled nothing.
   */
  lemma JoinedOnce(c: Config, s: State)
    requires Reachable(c, s)
    ensures s.joins <= 1
    ensures forall i :: 0 <= i < |s.terms| && s.terms[i].TDone? ==>
              s.wpc.WDone? && s.joins == 1 && s.terms[i].result == FinalResult(c)
    ensures s.rpc.RDone? && InitResult(c) != 0 ==> s.wpc.WDone? && s.joins == 1 && s.popped == []
  {
    ReachableInv(c, s);
  }

  /** What a terminate returns: on_init's error if that failed, else what on_exit returned, else 0. */
  lemma TerminateReturns(c: Config, s: State, i: nat)
    requires Reachable(c, s) && i < |s.terms| && s.terms[i].TDone?
    ensures c.onInit.Some? && c.onInit.value != 0 ==> s.terms[i].result == c.onInit.value
    ensures !(c.onInit.Some? && c.onInit.value != 0) ==>
      s.terms[i].result == if c.onExit.Some? then c.onExit.value else 0
  {
    JoinedOnce(c, s);
  }

  // ----- No stuck state

  ghost predicate Settled(s: State) {
    s.rpc.RDone? && forall i :: 0 <= i < |s.terms| ==> s.terms[i].TDone?
  }

  /** Somebody other than a client can move. */
  ghost predicate CanMove(c: Config, s: State) {
    RunStep(c, s).Some? || WorkStep(c, s).Some? || exists i :: 0 <= i < |s.terms| && TermStep(c, s, i).Some?
  }

  /** The worker thread is only ever blocked at an empty queue, or when it has not started or has finished. */
  lemma WorkerBlocked(c: Config, s: State)
    requires Inv(c, s) && WorkStep(c, s).None?
    ensures s.wpc.WNone? || s.wpc.WDone? || (s.wpc.WPop? && s.queue == [])
  {
    if Busy(s.wpc) {
      BusyEnabled(c, s);
    }
  }

  lemma RunnerNotStuck(c: Config, s: State)
    requires Inv(c, s) && RHolds(s.rpc)
    ensures RunStep(c, s).Some? || WorkStep(c, s).Some?
  {
    if WorkStep(c, s).None? {
      WorkerBlocked(c, s);
    }
  }

  lemma TerminatorNotStuck(c: Config, s: State, i: nat)
    requires Inv(c, s) && s.lock == ByTerm(i)
    ensures TermStep(c, s, i).Some? || WorkStep(c, s).Some?
  {
    if WorkStep(c, s).None? {
      WorkerBlocked(c, s);
      if s.terms[i].TWait? {
        assert Null in s.pushed;
        assert s.queue == [] ==> s.pushed == s.popped;
      }
    }
  }

  /** In every reachable state run and every terminate have returned, or somebody can move. */
  lemma NobodyIsStuck(c: Config, s: State)
    requires Reachable(c, s)
    ensures Settled(s) || CanMove(c, s)
  {
    ReachableInv(c, s);
    match s.lock
    case ByRunner => RunnerNotStuck(c, s);
    case ByTerm(i) => TerminatorNotStuck(c, s, i);
    case Free =>
      if s.rpc.RDone? && !Settled(s) {
        var i :| 0 <= i < |s.terms| && !s.terms[i].TDone?;
        assert TermStep(c, s, i).Some?;
      }
  }

  // ----- Termination is bounded

  /** Worker steps that suffice to finish the thread once a NULL has been pushed. */
  function StepsToFinish(s: State): nat {
    match s.wpc
    case WDone => 0 case WSetTerm => 1 case WExiting => 2 case WExitTest => 3
    case p =>
      var ahead := |AheadOfNull(s.pushed)|;
      PcRank(p) + 4 + if ahead >= |s.popped| then 5 * (ahead - |s.popped|) else 0
  }

  lemma {:induction false} AheadStays(items: seq<Item>, more: seq<Item>)
    requires Null in items
    ensures AheadOfNull(items + more) == AheadOfNull(items)
  {
    if items[0] != Null {
      assert (items + more)[1..] == items[1..] + more;
      AheadStays(items[1..], more);
    }
  }

  lemma AheadSame(s: State, s': State)
    requires Null in s.pushed && s.pushed <= s'.pushed
    ensures Null in s'.pushed && AheadOfNull(s'.pushed) == AheadOfNull(s.pushed)
  {
    AheadStays(s.pushed, s'.pushed[|s.pushed|..]);
    assert s'.pushed == s.pushed + s'.pushed[|s.pushed|..];
  }

  lemma FinishingPop(c: Config, s: State)
    requires Inv(c, s) && Null in s.pushed && s.wpc.WPop? && PopStep(s).Some?
    ensures StepsToFinish(PopStep(s).value) < StepsToFinish(s)
  {
    PopEffect(s);
    PoppedAhead(c, s);
    if !s.queue[0].Null? {
      NextAhead(c, s);
    }
    hide PopStep, AheadOfNull, Inv;
  }

  /** An item that is not NULL is ahead of the first NULL when it is popped. */
  lemma NextAhead(c: Config, s: State)
    requires Inv(c, s) && s.wpc.WPop? && s.queue != [] && !s.queue[0].Null?
    ensures |AheadOfNull(s.pushed)| > |s.popped|
  {
    hide LockInv, RunInv, JoinInv, TermInv, ErrorInv, IdInv, CallInv;
    assert s.pushed[..|s.popped| + 1] == s.popped + [s.queue[0]];
    assert Null !in s.popped + [s.queue[0]];
    AheadIsLongest(s.pushed, |s.popped| + 1);
  }

  lemma FinishingMove(c: Config, s: State)
    requires Inv(c, s) && Null in s.pushed && !s.wpc.WPop? && WorkStep(c, s).Some?
    ensures StepsToFinish(WorkStep(c, s).value) < StepsToFinish(s)
  {
    WorkKeepsFrame(c, s);
    if Busy(s.wpc) {
      RankDrops(c, s);
      WorkMoves(c, s);
    } else {
      LifeLogs(c, s);
    }
    RankedMove(c, s, WorkStep(c, s).value);
  }

  lemma RankedMove(c: Config, s: State, s': State)
    requires s'.pushed == s.pushed && s'.popped == s.popped
    requires if Busy(s.wpc) then PcRank(s'.wpc) < PcRank(s.wpc) && InLoop(s'.wpc) else LifeMove(c, s.wpc, s'.wpc)
    ensures StepsToFinish(s') < StepsToFinish(s)
  {
  }

  lemma FinishingWork(c: Config, s: State)
    requires Inv(c, s) && Null in s.pushed && WorkStep(c, s).Some?
    ensures StepsToFinish(WorkStep(c, s).value) < StepsToFinish(s)
  {
    if s.wpc.WPop? {
      FinishingPop(c, s);
    } else {
      FinishingMove(c, s);
    }
  }

  lemma SameFinish(s: State, s': State)
    requires s'.wpc == s.wpc && s'.popped == s.popped && AheadOfNull(s'.pushed) == AheadOfNull(s.pushed)
    ensures StepsToFinish(s') == StepsToFinish(s)
  {
  }

  lemma ClientFrame(s: State, a: Action)
    requires ClientStep(s, a).Some?
    ensures ClientStep(s, a).value.wpc == s.wpc && ClientStep(s, a).value.popped == s.popped
  {
  }

  lemma FinishingOther(c: Config, s: State, a: Action)
    requires Inv(c, s) && Null in s.pushed && !a.Work? && Step(c, s, a).Some?
    ensures StepsToFinish(Step(c, s, a).value) == StepsToFinish(s)
  {
    StepGrows(c, s, a);
    AheadSame(s, Step(c, s, a).value);
    match a {
      case Run => RunFrame(c, s);
      case Terminate(i) => TermLogs(c, s, i);
      case _ => ClientFrame(s, a);
    }
    SameFinish(s, Step(c, s, a).value);
  }

  /**
   Bounded shutdown: once some terminate has pushed its NULL, the worker thread finishes after at
   most `StepsToFinish` steps of its own whatever the clients keep sending, and it is never blocked
   before it has finished.
   */
  lemma {:induction false} TerminateFinishes(c: Config, s: State, acts: seq<Action>)
    requires Inv(c, s) && Null in s.pushed && Exec(c, s, acts).Some?
    ensures var e := Exec(c, s, acts).value;
      && Inv(c, e) && Null in e.pushed
      && WorkCount(acts) + StepsToFinish(e) <= StepsToFinish(s)
      && (e.wpc.WDone? || WorkStep(c, e).Some?)
    decreases |acts|
  {
    if acts == [] {
      FinishingNotBlocked(c, s);
    } else {
      var before := acts[..|acts| - 1];
      var a := acts[|acts| - 1];
      TerminateFinishes(c, s, before);
      var m := Exec(c, s, before).value;
      var e := Exec(c, s, acts).value;
      StepKeepsInv(c, m, a);
      StepGrows(c, m, a);
      AheadSame(m, e);
      FinishingStep(c, m, a);
      FinishingNotBlocked(c, e);
    }
  }

  lemma FinishingStep(c: Config, s: State, a: Action)
    requires Inv(c, s) && Null in s.pushed && Step(c, s, a).Some?
    ensures StepsToFinish(Step(c, s, a).value) + (if a.Work? then 1 else 0) <= StepsToFinish(s)
  {
    if a.Work? {
      FinishingWork(c, s);
    } else {
      FinishingOther(c, s, a);
    }
  }

  lemma FinishingNotBlocked(c: Config, s: State)
    requires Inv(c, s) && Null in s.pushed
    ensures s.wpc.WDone? || WorkStep(c, s).Some?
  {
    if WorkStep(c, s).None? {
      WorkerBlocked(c, s);
      assert s.queue == [] ==> s.pushed == s.popped;
    }
  }
}
