/** Start and stop of the service complete under every schedule. */
module ServiceProgress {
  import opened Options
  import opened Service
  import opened ServiceTheorems
  import W = Worker
  import WI = WorkerInvariant
  import WL = WorkerLifecycle
  import WT = WorkerTheorems

  // ----- What the bounds need of a state

  /** A closed socket under a poll loop means that `running` is false. */
  ghost predicate ListenInv(s: State) {
    (s.spc.SSetStarted? || s.spc.SCheck? || s.spc.SAccept? || s.spc.SDispatch?) && !s.listening ==> !s.serving
  }

  ghost predicate Good(c: Config, s: State) {
    Inv(c, s) && WI.Inv(WorkerConfig(c), s.w) && ListenInv(s)
  }

  lemma ListenKept(c: Config, s: State, a: Action)
    requires Inv(c, s) && ListenInv(s) && Step(c, s, a).Some?
    ensures ListenInv(Step(c, s, a).value)
  {
    hide W.Step;
  }

  lemma StepKeepsGood(c: Config, s: State, a: Action)
    requires Good(c, s) && Step(c, s, a).Some?
    ensures Good(c, Step(c, s, a).value)
  {
    hide Inv, WI.Inv, ListenInv, Step;
    StepKeeps(c, s, a);
    ListenKept(c, s, a);
    StepOfWorker(c, s, a);
    if Step(c, s, a).value.w != s.w {
      WI.StepKeepsInv(WorkerConfig(c), s.w, a.a);
    }
  }

  lemma {:induction false} ExecKeepsGood(c: Config, s: State, acts: seq<Action>)
    requires Good(c, s) && Exec(c, s, acts).Some?
    ensures Good(c, Exec(c, s, acts).value)
    decreases |acts|
  {
    if acts != [] {
      hide Good, Step;
      ExecKeepsGood(c, s, acts[..|acts| - 1]);
      StepKeepsGood(c, Exec(c, s, acts[..|acts| - 1]).value, acts[|acts| - 1]);
    }
  }

  lemma RunsGood(c: Config, acts: seq<Action>)
    requires Runs(c, acts).Some?
    ensures Good(c, Runs(c, acts).value)
  {
    RefinesWorker(c, []);
    WL.ReachableInv(WorkerConfig(c), Init(c).w);
    ExecKeepsGood(c, Init(c), acts);
  }

  lemma {:induction false} RunsThenExec(c: Config, acts: seq<Action>, more: seq<Action>)
    requires Runs(c, acts).Some? && Exec(c, Runs(c, acts).value, more).Some?
    ensures Runs(c, acts + more) == Exec(c, Runs(c, acts).value, more)
    decreases |more|
  {
    hide Step;
    if more == [] {
      assert acts + more == acts;
    } else {
      var all := acts + more;
      assert all[..|all| - 1] == acts + more[..|more| - 1] && all[|all| - 1] == more[|more| - 1];
      RunsThenExec(c, acts, more[..|more| - 1]);
    }
  }

  // ----- Ranks

  function RunLeft(p: W.RPc): nat {
    match p
    case RIdle => 7 case RLocked => 6 case RWait => 5 case RCheck => 4 case RJoin => 3
    case RUnlock => 2 case RRead => 1 case RDone(_) => 0
  }

  /** A push is paid for with the steps that the loop spends on one item. */
  function TermLeft(p: W.TPc): nat {
    match p
    case TIdle => 12 case TPush => 11 case TWait => 4 case TJoin => 3 case TRead => 2
    case TUnlock(_) => 1 case TDone(_) => 0
  }

  function TermsLeft(terms: seq<W.TPc>): nat {
    if terms == [] then 0 else TermsLeft(terms[..|terms| - 1]) + TermLeft(terms[|terms| - 1])
  }

  function ThreadLeft(p: W.WPc): nat {
    match p
    case WNone => 12 case WStart => 12 case WIniting => 11 case WSetRunning => 10 case WTest => 9
    case WGot(_) => 8 case WLookup(_) => 7 case WRunning(_) => 6 case WFree(_) => 5 case WReady(_) => 5
    case WPop => 4 case WExitTest => 3 case WExiting => 2 case WSetTerm => 1 case WDone => 0
  }

  function WorkerLeft(w: W.State): nat {
    RunLeft(w.rpc) + TermsLeft(w.terms) + 6 * |w.queue| + ThreadLeft(w.wpc)
  }

  function InitLeft(p: IPc): nat {
    match p
    case ICreate => 5 case IWait => 4 case ICheck => 3 case IJoin => 2 case ISetStopped => 1 case IReturn => 0
  }

  function ExitLeft(p: EPc): nat {
    match p
    case ECreate => 4 case EJoinExit => 3 case EWaitStopped => 2 case EJoinService => 1 case EReturn => 0
  }

  function ShutdownLeft(p: XPc): nat {
    match p
    case XNone => 4 case XClear => 4 case XClose => 3 case XWait => 2 case XSetStopped => 1 case XDone => 0
  }

  /** Steps of the service thread that need no new connection. */
  function ServiceLeft(p: SPc, serving: bool): nat {
    match p
    case SNone => 8 case SOpen => 8 case SSetStarted => 7
    case SDispatch => if serving then 6 else 3
    case SCheck => if serving then 5 else 2
    case SAccept => 4 case SErrPolling => 2 case SErrStarted => 1 case SSetPolling => 1 case SDone => 0
  }

  function Rank(s: State): nat {
    WorkerLeft(s.w) + InitLeft(s.ipc) + ExitLeft(s.epc) + ShutdownLeft(s.xpc) + ServiceLeft(s.spc, s.serving)
  }

  // ----- Steps that are neither a client's nor a new connection

  predicate NewConnection(s: State, a: Action) {
    a.Service? && s.spc.SAccept? && s.listening
  }

  predicate Inner(s: State, a: Action) {
    match a
    case OfWorker(wa) => wa.Run? || wa.Work? || wa.Terminate?
    case Shutdown => true
    case Service(_) => !NewConnection(s, a)
  }

  lemma {:induction false} TermsAfter(terms: seq<W.TPc>, i: nat, p: W.TPc)
    requires i < |terms|
    ensures TermsLeft(terms[i := p]) == TermsLeft(terms) - TermLeft(terms[i]) + TermLeft(p)
  {
    var last := |terms| - 1;
    if i < last {
      TermsAfter(terms[..last], i, p);
      assert terms[i := p][..last] == terms[..last][i := p];
    } else {
      assert terms[i := p][..last] == terms[..last];
    }
  }

  lemma RunDrops(c: W.Config, w: W.State)
    requires WI.RunInv(c, w) && W.RunStep(c, w).Some?
    ensures WorkerLeft(W.RunStep(c, w).value) < WorkerLeft(w)
  {
  }

  lemma TermShape(c: W.Config, w: W.State, i: nat)
    requires i < |w.terms| && W.TermStep(c, w, i).Some?
    ensures var w' := W.TermStep(c, w, i).value;
      && |w'.terms| == |w.terms| && w'.terms == w.terms[i := w'.terms[i]]
      && w'.rpc == w.rpc && w'.wpc == w.wpc && |w'.queue| == |w.queue| + (if w.terms[i].TPush? then 1 else 0)
      && TermLeft(w'.terms[i]) + (if w.terms[i].TPush? then 7 else 1) <= TermLeft(w.terms[i])
  {
  }

  lemma TermDrops(c: W.Config, w: W.State, i: nat)
    requires i < |w.terms| && W.TermStep(c, w, i).Some?
    ensures WorkerLeft(W.TermStep(c, w, i).value) < WorkerLeft(w)
  {
    TermShape(c, w, i);
    TermsAfter(w.terms, i, W.TermStep(c, w, i).value.terms[i]);
  }

  lemma LifeDrops(c: W.Config, w: W.State)
    requires W.LifeStep(c, w).Some?
    ensures ThreadLeft(W.LifeStep(c, w).value.wpc) < ThreadLeft(w.wpc)
  {
  }

  /** The thread moves on; a pop pays for the item it begins. */
  lemma ThreadDrops(c: W.Config, w: W.State)
    requires WI.Inv(c, w) && W.WorkStep(c, w).Some? && !w.wpc.WPop?
    ensures ThreadLeft(W.WorkStep(c, w).value.wpc) < ThreadLeft(w.wpc)
  {
    hide WI.LockInv, WI.JoinInv, WI.TermInv, WI.IdInv, WI.CallInv;
    if !W.Busy(w.wpc) {
      hide W.LifeStep;
      LifeDrops(c, w);
    } else {
      WI.WorkMoves(c, w);
      hide W.WorkStep;
    }
  }

  lemma WorkDrops(c: W.Config, w: W.State)
    requires WI.Inv(c, w) && W.WorkStep(c, w).Some?
    ensures var w' := W.WorkStep(c, w).value;
      && w'.rpc == w.rpc && w'.terms == w.terms && WorkerLeft(w') < WorkerLeft(w)
      && (!w.wpc.WPop? ==> ThreadLeft(w'.wpc) < ThreadLeft(w.wpc))
  {
    hide WI.Inv;
    WI.WorkKeepsFrame(c, w);
    if w.wpc.WPop? {
      hide W.PopStep;
      WI.PopEffect(w);
    } else {
      hide W.WorkStep;
      ThreadDrops(c, w);
    }
  }

  lemma WorkerDrops(c: W.Config, w: W.State, a: W.Action)
    requires WI.Inv(c, w) && W.Step(c, w, a).Some? && (a.Run? || a.Work? || a.Terminate?)
    ensures WorkerLeft(W.Step(c, w, a).value) < WorkerLeft(w)
  {
    hide W.RunStep, W.WorkStep, W.TermStep, WorkerLeft;
    match a
    case Run => RunDrops(c, w);
    case Work => WorkDrops(c, w);
    case Terminate(i) => TermDrops(c, w, i);
  }

  lemma ServiceDrops(c: Config, s: State, conn: Option<nat>)
    requires Inv(c, s) && ListenInv(s) && ServiceStep(c, s, conn).Some?
    ensures var s' := ServiceStep(c, s, conn).value;
      && s'.ipc == s.ipc && s'.epc == s.epc && s'.xpc == s.xpc && s'.serving == s.serving
      && (!s.serving || !NewConnection(s, Service(conn)) ==>
            ServiceLeft(s'.spc, s'.serving) < ServiceLeft(s.spc, s.serving))
  {
  }

  lemma ShutdownFrame(s: State)
    requires ShutdownStep(s).Some?
    ensures var s' := ShutdownStep(s).value; s'.ipc == s.ipc && s'.epc == s.epc && s'.spc == s.spc
  {
  }

  lemma ShutdownDrops(s: State)
    requires ShutdownStep(s).Some?
    ensures var s' := ShutdownStep(s).value;
      ShutdownLeft(s'.xpc) < ShutdownLeft(s.xpc) && (s'.serving ==> s.serving)
  {
    hide ShutdownStep;
    if s.xpc.XClear? || s.xpc.XClose? {
      CloseDrops(s);
    } else {
      WaitDrops(s);
    }
  }

  lemma CloseDrops(s: State)
    requires s.xpc.XClear? || s.xpc.XClose?
    ensures var s' := ShutdownStep(s).value;
      ShutdownLeft(s'.xpc) < ShutdownLeft(s.xpc) && (s'.serving ==> s.serving)
  {
  }

  lemma WaitDrops(s: State)
    requires !s.xpc.XClear? && !s.xpc.XClose? && ShutdownStep(s).Some?
    ensures var s' := ShutdownStep(s).value;
      ShutdownLeft(s'.xpc) < ShutdownLeft(s.xpc) && s'.serving == s.serving
  {
  }

  /** Inside on_init the thread either moves on there, or returns. */
  lemma InitDrops(c: Config, s: State)
    requires Inv(c, s) && s.w.wpc.WIniting? && InitStep(s).Some?
    ensures var s' := InitStep(s).value;
      && s'.epc == s.epc && s'.xpc == s.xpc && s'.serving == s.serving
      && ServiceLeft(s'.spc, s'.serving) == ServiceLeft(s.spc, s.serving)
      && (if s'.w == s.w then InitLeft(s'.ipc) < InitLeft(s.ipc)
          else s'.ipc == s.ipc && W.LifeStep(WorkerConfig(c), s.w) == Some(s'.w))
  {
    hide InitStep;
    InitReturns(c, s);
    InitLeaves(s);
    InitFrame(s);
    InitSpawns(s);
    InitMoves(s);
  }

  lemma InitFrame(s: State)
    requires InitStep(s).Some?
    ensures var s' := InitStep(s).value; s'.epc == s.epc && s'.xpc == s.xpc && s'.serving == s.serving
  {
    hide LeaveInit;
  }

  lemma InitSpawns(s: State)
    requires InitStep(s).Some?
    ensures InitStep(s).value.spc == if s.ipc.ICreate? then SOpen else s.spc
  {
    hide LeaveInit;
  }

  lemma InitMoves(s: State)
    requires InitStep(s).Some?
    ensures var p := InitStep(s).value.ipc; if s.ipc.IReturn? then p == s.ipc else InitLeft(p) < InitLeft(s.ipc)
  {
    hide LeaveInit, JoinService;
    match s.ipc
    case IJoin => JoinLeavesPcs(s);
    case _ =>
  }

  lemma JoinLeavesPcs(s: State)
    requires JoinService(s).Some?
    ensures JoinService(s).value.ipc == s.ipc
  {
  }

  lemma ExitDrops(c: Config, s: State)
    requires Inv(c, s) && s.w.wpc.WExiting? && ExitStep(s).Some?
    ensures var s' := ExitStep(s).value;
      && s'.ipc == s.ipc && s'.spc == s.spc && s'.serving == s.serving
      && ShutdownLeft(s'.xpc) == ShutdownLeft(s.xpc)
      && (if s'.w == s.w then ExitLeft(s'.epc) < ExitLeft(s.epc)
          else s'.epc == s.epc && W.LifeStep(WorkerConfig(c), s.w) == Some(s'.w))
  {
    hide ExitStep;
    ExitReturns(c, s);
    ExitLeaves(s);
    ExitFrame(s);
    ExitSpawns(s);
    ExitMoves(s);
  }

  lemma ExitFrame(s: State)
    requires ExitStep(s).Some?
    ensures var s' := ExitStep(s).value; s'.ipc == s.ipc && s'.spc == s.spc && s'.serving == s.serving
  {
    hide LeaveExit;
  }

  lemma ExitSpawns(s: State)
    requires ExitStep(s).Some?
    ensures ExitStep(s).value.xpc == if s.epc.ECreate? then XClear else s.xpc
  {
    hide LeaveExit;
  }

  lemma ExitMoves(s: State)
    requires ExitStep(s).Some?
    ensures var p := ExitStep(s).value.epc; if s.epc.EReturn? then p == s.epc else ExitLeft(p) < ExitLeft(s.epc)
  {
    hide LeaveExit;
  }

  /** The worker thread's step is the worker machine's, or one inside on_init or on_exit. */
  lemma WorkDropsHere(c: Config, s: State, a: Action)
    requires Good(c, s) && a.OfWorker? && Inner(s, a) && Step(c, s, a).Some?
    ensures Rank(Step(c, s, a).value) < Rank(s)
  {
    hide WorkerLeft, W.Step, WI.Inv, InitStep, ExitStep;
    var wc := WorkerConfig(c);
    if a.a.Work? && s.w.wpc.WIniting? {
      InitDrops(c, s);
      if InitStep(s).value.w != s.w {
        LifeIsWork(wc, s.w);
        WorkerDrops(wc, s.w, a.a);
      }
    } else if a.a.Work? && s.w.wpc.WExiting? {
      ExitDrops(c, s);
      if ExitStep(s).value.w != s.w {
        LifeIsWork(wc, s.w);
        WorkerDrops(wc, s.w, a.a);
      }
    } else {
      WorkerDrops(wc, s.w, a.a);
    }
  }

  lemma LifeIsWork(c: W.Config, w: W.State)
    requires w.wpc.WIniting? || w.wpc.WExiting?
    ensures W.Step(c, w, W.Work) == W.LifeStep(c, w)
  {
  }

  lemma StepDrops(c: Config, s: State, a: Action)
    requires Good(c, s) && Inner(s, a) && Step(c, s, a).Some?
    ensures Rank(Step(c, s, a).value) < Rank(s)
  {
    match a
    case OfWorker(_) => WorkDropsHere(c, s, a);
    case Service(conn) =>
      hide ServiceStep, WorkerLeft;
      ServiceDrops(c, s, conn);
    case Shutdown =>
      hide ShutdownStep, WorkerLeft;
      ShutdownFrame(s);
      ShutdownDrops(s);
  }

  ghost predicate AllInner(c: Config, s: State, acts: seq<Action>)
    requires Exec(c, s, acts).Some?
  {
    acts == [] ||
    (AllInner(c, s, acts[..|acts| - 1]) && Inner(Exec(c, s, acts[..|acts| - 1]).value, acts[|acts| - 1]))
  }

  lemma {:induction false} InnerIsBounded(c: Config, s: State, acts: seq<Action>)
    requires Good(c, s) && Exec(c, s, acts).Some? && AllInner(c, s, acts)
    ensures |acts| + Rank(Exec(c, s, acts).value) <= Rank(s)
    decreases |acts|
  {
    if acts != [] {
      hide Good, Step, Inner, Rank;
      var before := acts[..|acts| - 1];
      InnerIsBounded(c, s, before);
      ExecKeepsGood(c, s, before);
      StepDrops(c, Exec(c, s, before).value, acts[|acts| - 1]);
    }
  }

  /**
   Without further clients and connections everything completes under every schedule, the start-error
   path included: from any reachable state at most `Rank` steps are left, and when no such step is
   possible run and every terminate have returned.
   */
  lemma Completes(c: Config, acts: seq<Action>, more: seq<Action>)
    requires Runs(c, acts).Some? && Exec(c, Runs(c, acts).value, more).Some? && AllInner(c, Runs(c, acts).value, more)
    ensures var s := Runs(c, acts).value; var e := Exec(c, s, more).value;
      && |more| <= Rank(s)
      && ((forall a :: Inner(e, a) ==> Step(c, e, a).None?) ==> WL.Settled(e.w))
  {
    hide Rank, Good, WL.Settled;
    RunsGood(c, acts);
    InnerIsBounded(c, Runs(c, acts).value, more);
    RunsThenExec(c, acts, more);
    NobodyIsStuck(c, acts + more);
    var e := Exec(c, Runs(c, acts).value, more).value;
    if CanMove(c, e) {
      CanMoveInner(c, e);
    }
  }

  lemma CanMoveInner(c: Config, s: State)
    requires CanMove(c, s)
    ensures exists a :: Inner(s, a) && Step(c, s, a).Some?
  {
    if i :| 0 <= i < |s.w.terms| && W.TermStep(WorkerConfig(c), s.w, i).Some? {
      hide W.TermStep;
      assert Step(c, s, OfWorker(W.Terminate(i))).Some? && Inner(s, OfWorker(W.Terminate(i)));
    } else {
      hide W.Step;
      assert Inner(s, OfWorker(W.Run)) && Inner(s, OfWorker(W.Work)) && Inner(s, Shutdown);
      assert !(s.spc.SAccept? && s.listening) ==> Inner(s, Service(None));
    }
  }

  // ----- Whatever clients send and whoever connects

  /** The service is being stopped, or has failed to start. */
  predicate Ending(c: Config, s: State) {
    W.Null in s.w.pushed || c.startErr != 0
  }

  /** Steps of the worker thread and the exit thread up to their ends. */
  function ThreadsLeft(c: Config, s: State): nat {
    (if c.startErr != 0 then ThreadLeft(s.w.wpc) else WL.StepsToFinish(s.w))
    + InitLeft(s.ipc) + ExitLeft(s.epc) + ShutdownLeft(s.xpc)
  }

  predicate OfThreads(a: Action) {
    a == OfWorker(W.Work) || a.Shutdown?
  }

  function ThreadSteps(acts: seq<Action>): nat {
    if acts == [] then 0 else ThreadSteps(acts[..|acts| - 1]) + if OfThreads(acts[|acts| - 1]) then 1 else 0
  }

  function ServiceSteps(acts: seq<Action>): nat {
    if acts == [] then 0 else ServiceSteps(acts[..|acts| - 1]) + if acts[|acts| - 1].Service? then 1 else 0
  }

  /** After a start error the worker thread never pops. */
  lemma NoPop(c: Config, s: State)
    requires Good(c, s) && c.startErr != 0
    ensures !s.w.wpc.WPop? && !W.Busy(s.w.wpc)
  {
    assert WI.ErrorInv(WorkerConfig(c), s.w);
  }

  /** A step of the worker machine: the thread comes nearer to its end, nobody else drives it back. */
  lemma MachineStep(c: Config, s: State, a: W.Action)
    requires Good(c, s) && Ending(c, s) && W.Step(WorkerConfig(c), s.w, a).Some?
    ensures var s' := s.(w := W.Step(WorkerConfig(c), s.w, a).value);
      Ending(c, s') && ThreadsLeft(c, s') + (if a.Work? then 1 else 0) <= ThreadsLeft(c, s)
  {
    hide W.Step, WL.StepsToFinish, ThreadLeft, WI.Inv, Inv;
    StepGrowsHere(WorkerConfig(c), s.w, a);
    if c.startErr != 0 {
      FailedThread(c, s, a);
    } else {
      WL.FinishingStep(WorkerConfig(c), s.w, a);
    }
  }

  lemma FailedThread(c: Config, s: State, a: W.Action)
    requires Good(c, s) && c.startErr != 0 && W.Step(WorkerConfig(c), s.w, a).Some?
    ensures var w' := W.Step(WorkerConfig(c), s.w, a).value;
      ThreadLeft(w'.wpc) + (if a.Work? then 1 else 0) <= ThreadLeft(s.w.wpc)
  {
    hide WI.Inv, Inv, W.WorkStep, W.RunStep, W.TermStep, W.ClientStep, WorkerLeft, ThreadLeft;
    if a.Work? {
      NoPop(c, s);
      WorkDrops(WorkerConfig(c), s.w);
    } else {
      OthersKeepThread(WorkerConfig(c), s.w, a);
    }
  }

  lemma StepGrowsHere(c: W.Config, w: W.State, a: W.Action)
    requires W.Step(c, w, a).Some?
    ensures W.Null in w.pushed ==> W.Null in W.Step(c, w, a).value.pushed
  {
    hide W.Step;
    WT.StepGrows(c, w, a);
  }

  lemma OthersKeepThread(c: W.Config, w: W.State, a: W.Action)
    requires WI.Inv(c, w) && W.Step(c, w, a).Some? && !a.Work?
    ensures ThreadLeft(W.Step(c, w, a).value.wpc) <= ThreadLeft(w.wpc)
  {
    match a
    case Run => hide W.TermStep, W.ClientStep;
    case Terminate(i) => TermShape(c, w, i);
    case _ =>
  }

  lemma EndingStep(c: Config, s: State, a: Action)
    requires Good(c, s) && Ending(c, s) && Step(c, s, a).Some?
    ensures var s' := Step(c, s, a).value;
      Ending(c, s') && ThreadsLeft(c, s') + (if OfThreads(a) then 1 else 0) <= ThreadsLeft(c, s)
  {
    match a
    case OfWorker(wa) => EndingWork(c, s, wa);
    case Service(conn) =>
      hide ServiceStep, WL.StepsToFinish;
      ServiceDrops(c, s, conn);
    case Shutdown =>
      hide ShutdownStep, WL.StepsToFinish;
      ShutdownFrame(s);
      ShutdownDrops(s);
  }

  lemma EndingWork(c: Config, s: State, wa: W.Action)
    requires Good(c, s) && Ending(c, s) && Step(c, s, OfWorker(wa)).Some?
    ensures var s' := Step(c, s, OfWorker(wa)).value;
      Ending(c, s') && ThreadsLeft(c, s') + (if wa.Work? then 1 else 0) <= ThreadsLeft(c, s)
  {
    hide WL.StepsToFinish, W.Step, WI.Inv, InitStep, ExitStep;
    if wa.Work? && s.w.wpc.WIniting? {
      InitDrops(c, s);
      if InitStep(s).value.w != s.w {
        LifeIsWork(WorkerConfig(c), s.w);
        MachineStep(c, s, wa);
      }
    } else if wa.Work? && s.w.wpc.WExiting? {
      ExitDrops(c, s);
      if ExitStep(s).value.w != s.w {
        LifeIsWork(WorkerConfig(c), s.w);
        MachineStep(c, s, wa);
      }
    } else {
      MachineStep(c, s, wa);
    }
  }

  /** The worker thread, the exit thread, or the service thread without a new connection. */
  ghost predicate ThreadsCanMove(c: Config, s: State) {
    || Step(c, s, OfWorker(W.Work)).Some?
    || Step(c, s, Shutdown).Some?
    || (!NewConnection(s, Service(None)) && Step(c, s, Service(None)).Some?)
  }

  lemma InitCanMove(c: Config, s: State)
    requires Inv(c, s) && ListenInv(s) && s.w.wpc.WIniting?
    ensures ThreadsCanMove(c, s)
  {
    hide W.Step;
  }

  lemma ExitCanMove(c: Config, s: State)
    requires Inv(c, s) && ListenInv(s) && s.w.wpc.WExiting?
    ensures ThreadsCanMove(c, s)
  {
    hide W.Step;
  }

  lemma EndingNotStuck(c: Config, s: State)
    requires Good(c, s) && Ending(c, s) && !s.w.wpc.WNone?
    ensures s.w.wpc.WDone? || ThreadsCanMove(c, s)
  {
    hide W.WorkStep, Inv, WI.Inv, ListenInv;
    if s.w.wpc.WIniting? {
      InitCanMove(c, s);
    } else if s.w.wpc.WExiting? {
      ExitCanMove(c, s);
    } else {
      if W.Null in s.w.pushed {
        WL.FinishingNotBlocked(WorkerConfig(c), s.w);
      } else {
        NoPop(c, s);
        if W.WorkStep(WorkerConfig(c), s.w).None? {
          WL.WorkerBlocked(WorkerConfig(c), s.w);
        }
      }
      assert !s.w.wpc.WDone? ==> Step(c, s, OfWorker(W.Work)).Some?;
    }
  }

  lemma {:induction false} EndingIsBounded(c: Config, s: State, acts: seq<Action>)
    requires Good(c, s) && Ending(c, s) && Exec(c, s, acts).Some?
    ensures var e := Exec(c, s, acts).value;
      Good(c, e) && Ending(c, e) && ThreadSteps(acts) + ThreadsLeft(c, e) <= ThreadsLeft(c, s)
    decreases |acts|
  {
    if acts != [] {
      hide Good, Step, Ending, ThreadsLeft;
      var before := acts[..|acts| - 1];
      EndingIsBounded(c, s, before);
      StepKeepsGood(c, Exec(c, s, before).value, acts[|acts| - 1]);
      EndingStep(c, Exec(c, s, before).value, acts[|acts| - 1]);
    }
  }

  /**
   Once a NULL has been pushed, or when the start has failed, the worker thread and the exit thread
   make at most `ThreadsLeft` more steps whatever clients send and whoever connects; once run has
   created the worker thread and until that has finished, one of the three threads can step without
   a new connection.
   */
  lemma EndsWhateverComes(c: Config, acts: seq<Action>, more: seq<Action>)
    requires Runs(c, acts).Some? && Exec(c, Runs(c, acts).value, more).Some? && Ending(c, Runs(c, acts).value)
    ensures var s := Runs(c, acts).value; var e := Exec(c, s, more).value;
      && ThreadSteps(more) <= ThreadsLeft(c, s)
      && (e.w.rpc.RIdle? || e.w.rpc.RLocked? || e.w.wpc.WDone? || ThreadsCanMove(c, e))
      && (W.Null in e.w.pushed ==> !e.w.rpc.RIdle? && !e.w.rpc.RLocked?)
  {
    hide Good, Ending, ThreadsLeft, ThreadsCanMove;
    RunsGood(c, acts);
    EndingIsBounded(c, Runs(c, acts).value, more);
    var e := Exec(c, Runs(c, acts).value, more).value;
    ThreadExists(c, e);
    if !e.w.wpc.WNone? {
      EndingNotStuck(c, e);
    }
  }

  /** The thread exists once run has created it, which is before anybody terminates. */
  lemma ThreadExists(c: Config, s: State)
    requires Good(c, s)
    ensures s.w.wpc.WNone? <==> s.w.rpc.RIdle? || s.w.rpc.RLocked?
    ensures W.Null in s.w.pushed ==> !s.w.wpc.WNone?
  {
    assert WI.RunInv(WorkerConfig(c), s.w) && WI.TermInv(WorkerConfig(c), s.w);
  }

  // ----- The poll loop

  lemma OthersKeepService(c: Config, s: State, a: Action)
    requires Inv(c, s) && !s.serving && Step(c, s, a).Some? && !a.Service?
    ensures var s' := Step(c, s, a).value;
      !s'.serving && ServiceLeft(s'.spc, false) == ServiceLeft(s.spc, false)
  {
    match a
    case Shutdown =>
      hide ShutdownStep;
      ShutdownFrame(s);
      ShutdownDrops(s);
    case OfWorker(wa) =>
      hide W.Step, InitStep, ExitStep;
      if wa.Work? && s.w.wpc.WIniting? {
        InitDrops(c, s);
      } else if wa.Work? && s.w.wpc.WExiting? {
        ExitDrops(c, s);
      }
    case Service(_) =>
  }

  lemma {:induction false} PollIsBounded(c: Config, s: State, acts: seq<Action>)
    requires Good(c, s) && !s.serving && Exec(c, s, acts).Some?
    ensures var e := Exec(c, s, acts).value;
      !e.serving && ServiceSteps(acts) + ServiceLeft(e.spc, false) <= ServiceLeft(s.spc, false)
    decreases |acts|
  {
    if acts != [] {
      var before := acts[..|acts| - 1];
      var a := acts[|acts| - 1];
      PollIsBounded(c, s, before);
      ExecKeepsGood(c, s, before);
      var m := Exec(c, s, before).value;
      hide Step, Inv, WI.Inv;
      if a.Service? {
        ServiceStepIs(c, m, a.conn);
        ServiceDrops(c, m, a.conn);
      } else {
        OthersKeepService(c, m, a);
      }
    }
  }

  lemma ServiceStepIs(c: Config, s: State, conn: Option<nat>)
    ensures Step(c, s, Service(conn)) == ServiceStep(c, s, conn)
  {
  }

  /**
   Once `running` is false the service thread makes at most 8 more steps, whatever else happens and
   however many connections arrive, and when it has none left sig_polling_stopped is set.
   */
  lemma PollEnds(c: Config, acts: seq<Action>, more: seq<Action>)
    requires Runs(c, acts).Some? && Exec(c, Runs(c, acts).value, more).Some? && !Runs(c, acts).value.serving
    ensures ServiceSteps(more) <= 8
    ensures var e := Exec(c, Runs(c, acts).value, more).value; ServiceLeft(e.spc, false) == 0 ==> e.pollingStopped
  {
    RunsGood(c, acts);
    PollIsBounded(c, Runs(c, acts).value, more);
    ExecKeepsGood(c, Runs(c, acts).value, more);
  }

  // ----- A failed start

  /** Steps of the runner, the worker thread and the service thread when the start fails. */
  function FailLeft(s: State): nat {
    RunLeft(s.w.rpc) + ThreadLeft(s.w.wpc) + InitLeft(s.ipc) + ServiceLeft(s.spc, s.serving)
  }

  predicate OfStart(a: Action) {
    a == OfWorker(W.Run) || a == OfWorker(W.Work) || a.Service?
  }

  function StartSteps(acts: seq<Action>): nat {
    if acts == [] then 0 else StartSteps(acts[..|acts| - 1]) + if OfStart(acts[|acts| - 1]) then 1 else 0
  }

  lemma RunMoves(c: W.Config, w: W.State)
    requires WI.RunInv(c, w) && W.RunStep(c, w).Some?
    ensures var w' := W.RunStep(c, w).value;
      RunLeft(w'.rpc) < RunLeft(w.rpc) && ThreadLeft(w'.wpc) == ThreadLeft(w.wpc)
  {
  }

  lemma ClientsKeepRun(c: W.Config, w: W.State, a: W.Action)
    requires W.Step(c, w, a).Some? && !a.Run? && !a.Work?
    ensures var w' := W.Step(c, w, a).value; w'.rpc == w.rpc && w'.wpc == w.wpc
  {
    if a.Terminate? {
      TermShape(c, w, a.i);
    }
  }

  lemma FailMachineStep(c: Config, s: State, a: W.Action)
    requires Good(c, s) && c.startErr != 0 && W.Step(WorkerConfig(c), s.w, a).Some?
    ensures var s' := s.(w := W.Step(WorkerConfig(c), s.w, a).value);
      FailLeft(s') + (if a.Run? || a.Work? then 1 else 0) <= FailLeft(s)
  {
    hide W.RunStep, W.WorkStep, W.TermStep, W.ClientStep, Inv;
    var wc := WorkerConfig(c);
    if a.Run? {
      RunMoves(wc, s.w);
    } else if a.Work? {
      hide WI.Inv;
      NoPop(c, s);
      WorkDrops(wc, s.w);
    } else {
      hide W.Step;
      ClientsKeepRun(wc, s.w, a);
    }
  }

  lemma FailStep(c: Config, s: State, a: Action)
    requires Good(c, s) && c.startErr != 0 && Step(c, s, a).Some?
    ensures FailLeft(Step(c, s, a).value) + (if OfStart(a) then 1 else 0) <= FailLeft(s)
  {
    assert s.xpc.XNone?;
    match a
    case OfWorker(wa) => FailWork(c, s, wa);
    case Service(conn) =>
      hide ServiceStep;
      ServiceDrops(c, s, conn);
    case Shutdown =>
  }

  lemma FailWork(c: Config, s: State, wa: W.Action)
    requires Good(c, s) && c.startErr != 0 && Step(c, s, OfWorker(wa)).Some?
    ensures FailLeft(Step(c, s, OfWorker(wa)).value) + (if wa.Run? || wa.Work? then 1 else 0) <= FailLeft(s)
  {
    hide W.Step, WI.Inv, InitStep;
    assert s.w.wpc.WExiting? ==> wa.Work? ==> ExitStep(s).Some?;
    if wa.Work? && s.w.wpc.WIniting? {
      InitDrops(c, s);
      if InitStep(s).value.w != s.w {
        LifeIsWork(WorkerConfig(c), s.w);
        FailMachineStep(c, s, wa);
      }
    } else {
      NotExiting(c, s);
      FailMachineStep(c, s, wa);
    }
  }

  /** After a start error on_exit is not called. */
  lemma NotExiting(c: Config, s: State)
    requires Good(c, s) && c.startErr != 0
    ensures !s.w.wpc.WExiting?
  {
    assert WI.ErrorInv(WorkerConfig(c), s.w);
  }

  lemma {:induction false} FailIsBounded(c: Config, s: State, acts: seq<Action>)
    requires Good(c, s) && c.startErr != 0 && Exec(c, s, acts).Some?
    ensures StartSteps(acts) + FailLeft(Exec(c, s, acts).value) <= FailLeft(s)
    decreases |acts|
  {
    if acts != [] {
      hide Good, Step, FailLeft;
      var before := acts[..|acts| - 1];
      FailIsBounded(c, s, before);
      ExecKeepsGood(c, s, before);
      FailStep(c, Exec(c, s, before).value, acts[|acts| - 1]);
    }
  }

  lemma FailNotStuck(c: Config, s: State)
    requires Good(c, s) && c.startErr != 0 && !s.w.rpc.RIdle?
    ensures s.w.rpc.RDone? || exists a :: OfStart(a) && Step(c, s, a).Some?
  {
    var wc := WorkerConfig(c);
    if Step(c, s, OfWorker(W.Run)).Some? {
      assert OfStart(OfWorker(W.Run));
    } else if !s.w.rpc.RDone? {
      RunnerWaits(wc, s.w);
      EndingNotStuck(c, s);
      assert s.xpc.XNone?;
      assert OfStart(OfWorker(W.Work)) && OfStart(Service(None));
    }
  }

  /** A blocked runner waits for the worker thread. */
  lemma RunnerWaits(c: W.Config, w: W.State)
    requires WI.Inv(c, w) && W.RunStep(c, w).None? && !w.rpc.RIdle? && !w.rpc.RDone?
    ensures !w.wpc.WNone? && !w.wpc.WDone?
  {
    assert WI.RunInv(c, w);
  }

  /**
   A failed start is reported under every schedule: once run has been called, it, the worker thread and
   the service thread make at most `FailLeft` more steps whatever clients and terminators do, and
   until run has returned one of the three can step.
   */
  lemma StartErrorReturns(c: Config, acts: seq<Action>, more: seq<Action>)
    requires Runs(c, acts).Some? && c.startErr != 0 && Exec(c, Runs(c, acts).value, more).Some?
    ensures var s := Runs(c, acts).value; var e := Exec(c, s, more).value;
      && StartSteps(more) <= FailLeft(s)
      && (e.w.rpc.RIdle? || e.w.rpc == W.RDone(c.startErr) || exists a :: OfStart(a) && Step(c, e, a).Some?)
  {
    hide Good, Step, FailLeft;
    RunsGood(c, acts);
    var s := Runs(c, acts).value;
    FailIsBounded(c, s, more);
    ExecKeepsGood(c, s, more);
    RunsThenExec(c, acts, more);
    var e := Exec(c, s, more).value;
    if e.w.rpc.RDone? {
      RunReturnsStartError(c, acts + more);
    } else if !e.w.rpc.RIdle? {
      FailNotStuck(c, e);
    }
  }
}
