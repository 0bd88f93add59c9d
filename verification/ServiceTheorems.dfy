/** The start and stop protocol of the service worker and the TCP server, in every interleaving. */
module ServiceTheorems {
  import opened Options
  import opened Service
  import W = Worker
  import WI = WorkerInvariant
  import WL = WorkerLifecycle
  import WLog = WorkerLog
  import WT = WorkerTheorems

  // ----- Invariant

  predicate BeforeInit(p: W.WPc) {
    p.WNone? || p.WStart?
  }

  predicate AfterInit(p: W.WPc) {
    !BeforeInit(p) && !p.WIniting?
  }

  predicate AfterExit(p: W.WPc) {
    p.WSetTerm? || p.WDone?
  }

  /** The service thread: its signals, and the error it leaves behind. */
  ghost predicate ThreadInv(c: Config, s: State) {
    && s.error == (if s.spc.SNone? || s.spc.SOpen? then 0 else c.startErr)
    && (s.spc.SErrPolling? || s.spc.SErrStarted? ==> c.startErr != 0)
    && (s.spc.SSetStarted? || s.spc.SCheck? || s.spc.SAccept? || s.spc.SDispatch? || s.spc.SSetPolling? ==> c.startErr == 0)
    && (s.pollingStopped <==> s.spc.SErrStarted? || s.spc.SDone?)
    && (s.started <==> s.spc.SCheck? || s.spc.SAccept? || s.spc.SDispatch? || s.spc.SSetPolling? || s.spc.SDone?)
    && (s.spc.SSetPolling? || (s.spc.SDone? && c.startErr == 0) ==> !s.serving)
  }

  /** on_init against the service thread. */
  ghost predicate InitInv(c: Config, s: State) {
    && (s.ipc.ICreate? <==> s.spc.SNone?)
    && (BeforeInit(s.w.wpc) ==> s.ipc.ICreate?)
    && (s.ipc.ICheck? || s.ipc.IJoin? || s.ipc.ISetStopped? || s.ipc.IReturn? ==> s.started)
    && (s.ipc.IJoin? || s.ipc.ISetStopped? ==> c.startErr != 0)
    && (AfterInit(s.w.wpc) ==> s.ipc.IReturn?)
    && (s.ipc.ISetStopped? || (s.ipc.IReturn? && c.startErr != 0) ==> !s.joinable && s.spc.SDone?)
  }

  /** on_exit and the exit thread. */
  ghost predicate ExitInv(c: Config, s: State) {
    && (s.epc.ECreate? <==> s.xpc.XNone?)
    && (!s.epc.ECreate? ==> c.startErr == 0 && (s.w.wpc.WExiting? || AfterExit(s.w.wpc)))
    && (AfterExit(s.w.wpc) && c.startErr == 0 ==> s.epc.EReturn?)
    && (s.epc.EWaitStopped? || s.epc.EJoinService? || s.epc.EReturn? ==> s.xpc.XDone?)
    && (s.epc.EReturn? ==> !s.joinable && s.spc.SDone?)
    && (s.serving <==> s.xpc.XNone? || s.xpc.XClear?)
    && (s.listening <==> c.startErr == 0 && !s.spc.SNone? && !s.spc.SOpen?
                         && (s.xpc.XNone? || s.xpc.XClear? || s.xpc.XClose?))
    && (s.xpc.XSetStopped? || s.xpc.XDone? ==> s.pollingStopped)
    && (s.stopped <==> (s.ipc.IReturn? && c.startErr != 0) || s.xpc.XDone?)
  }

  ghost predicate JoinInv(s: State) {
    && (s.spc.SNone? ==> !s.joinable && s.joins == 0)
    && (!s.spc.SNone? && s.joinable ==> s.joins == 0)
    && (!s.spc.SNone? && !s.joinable ==> s.joins == 1 && s.spc.SDone?)
  }

  ghost predicate Inv(c: Config, s: State) {
    ThreadInv(c, s) && InitInv(c, s) && ExitInv(c, s) && JoinInv(s)
  }

  /** on_init returns the start error: the composite step is the worker machine's. */
  lemma InitReturns(c: Config, s: State)
    requires InitInv(c, s) && ThreadInv(c, s) && s.w.wpc.WIniting? && InitStep(s).Some?
    ensures var s' := InitStep(s).value; s'.w == s.w || W.LifeStep(WorkerConfig(c), s.w) == Some(s'.w)
  {
    hide LeaveInit, InitStep, W.LifeStep;
    InitLeaves(s);
    if s.ipc.IReturn? {
      LeftInit(c, s.w);
    }
  }

  lemma InitLeaves(s: State)
    requires InitStep(s).Some?
    ensures InitStep(s).value.w == if s.ipc.IReturn? then LeaveInit(s.w, s.error) else s.w
  {
    hide LeaveInit;
  }

  lemma LeftInit(c: Config, w: W.State)
    requires w.wpc.WIniting?
    ensures W.LifeStep(WorkerConfig(c), w) == Some(LeaveInit(w, c.startErr))
  {
  }

  lemma ExitLeaves(s: State)
    requires ExitStep(s).Some?
    ensures ExitStep(s).value.w == if s.epc.EReturn? then LeaveExit(s.w, s.error) else s.w
  {
    hide LeaveExit;
  }

  lemma LeftExit(c: Config, w: W.State)
    requires w.wpc.WExiting?
    ensures W.LifeStep(WorkerConfig(c), w) == Some(LeaveExit(w, 0))
  {
  }

  /** on_exit returns 0: the composite step is the worker machine's. */
  lemma ExitReturns(c: Config, s: State)
    requires ExitInv(c, s) && ThreadInv(c, s) && s.w.wpc.WExiting? && ExitStep(s).Some?
    ensures var s' := ExitStep(s).value; s'.w == s.w || W.LifeStep(WorkerConfig(c), s.w) == Some(s'.w)
  {
    hide LeaveExit, ExitStep, W.LifeStep;
    ExitLeaves(s);
    if s.epc.EReturn? {
      LeftExit(c, s.w);
    }
  }

  /** A composite step is a step of the worker machine, or leaves the worker as it is. */
  lemma StepOfWorker(c: Config, s: State, a: Action)
    requires Inv(c, s) && WI.Inv(WorkerConfig(c), s.w) && Step(c, s, a).Some?
    ensures var s' := Step(c, s, a).value;
      s'.w == s.w || (a.OfWorker? && W.Step(WorkerConfig(c), s.w, a.a) == Some(s'.w))
  {
    if a.OfWorker? && a.a.Work? && s.w.wpc.WIniting? {
      InitReturns(c, s);
    } else if a.OfWorker? && a.a.Work? && s.w.wpc.WExiting? {
      ExitReturns(c, s);
    } else {
      OtherLeaves(c, s, a);
    }
  }

  lemma OtherLeaves(c: Config, s: State, a: Action)
    requires Step(c, s, a).Some? && !(a.OfWorker? && a.a.Work? && (s.w.wpc.WIniting? || s.w.wpc.WExiting?))
    ensures var s' := Step(c, s, a).value;
      if a.OfWorker? then W.Step(WorkerConfig(c), s.w, a.a) == Some(s'.w) else s'.w == s.w
  {
    hide W.Step, ServiceStep, ShutdownStep, InitStep, ExitStep;
  }

  lemma ServiceKeepsOwn(c: Config, s: State, conn: Option<nat>)
    requires ThreadInv(c, s) && JoinInv(s) && ServiceStep(c, s, conn).Some?
    ensures ThreadInv(c, ServiceStep(c, s, conn).value) && JoinInv(ServiceStep(c, s, conn).value)
  {
  }

  lemma ServiceKeepsOthers(c: Config, s: State, conn: Option<nat>)
    requires Inv(c, s) && ServiceStep(c, s, conn).Some?
    ensures InitInv(c, ServiceStep(c, s, conn).value) && ExitInv(c, ServiceStep(c, s, conn).value)
  {
  }

  lemma ServiceKeeps(c: Config, s: State, conn: Option<nat>)
    requires Inv(c, s) && ServiceStep(c, s, conn).Some?
    ensures Inv(c, ServiceStep(c, s, conn).value)
  {
    ServiceKeepsOwn(c, s, conn);
    ServiceKeepsOthers(c, s, conn);
  }

  lemma ShutdownKeeps(c: Config, s: State)
    requires Inv(c, s) && ShutdownStep(s).Some?
    ensures Inv(c, ShutdownStep(s).value)
  {
  }

  lemma InitKeeps(c: Config, s: State)
    requires Inv(c, s) && s.w.wpc.WIniting? && InitStep(s).Some?
    ensures Inv(c, InitStep(s).value)
  {
    InitKeepsThread(c, s);
    InitKeepsProtocol(c, s);
  }

  lemma InitKeepsThread(c: Config, s: State)
    requires ThreadInv(c, s) && InitInv(c, s) && JoinInv(s) && InitStep(s).Some?
    ensures ThreadInv(c, InitStep(s).value) && JoinInv(InitStep(s).value)
  {
    hide LeaveInit;
  }

  lemma InitKeepsProtocol(c: Config, s: State)
    requires Inv(c, s) && s.w.wpc.WIniting? && InitStep(s).Some?
    ensures InitInv(c, InitStep(s).value) && ExitInv(c, InitStep(s).value)
  {
    assert LeaveInit(s.w, s.error).wpc == W.WSetRunning;
    hide LeaveInit;
  }

  lemma ExitKeeps(c: Config, s: State)
    requires Inv(c, s) && WI.Inv(WorkerConfig(c), s.w) && s.w.wpc.WExiting? && ExitStep(s).Some?
    ensures Inv(c, ExitStep(s).value)
  {
    assert LeaveExit(s.w, s.error).wpc == W.WSetTerm;
    assert WI.ErrorInv(WorkerConfig(c), s.w);
    hide LeaveExit, WI.Inv;
  }

  /** Where the worker's own steps can take its thread, away from on_init and on_exit. */
  lemma WorkerMove(c: W.Config, w: W.State, a: W.Action)
    requires WI.Inv(c, w) && W.Step(c, w, a).Some? && !(a.Work? && (w.wpc.WIniting? || w.wpc.WExiting?))
    requires c.onInit.Some? && c.onExit.Some?
    ensures var p := W.Step(c, w, a).value.wpc;
      || p == w.wpc
      || (BeforeInit(w.wpc) && (BeforeInit(p) || p.WIniting?))
      || (AfterInit(w.wpc) && AfterInit(p) && !AfterExit(w.wpc) && !w.wpc.WExiting? &&
          (AfterExit(p) ==> WI.InitResult(c) != 0))
      || (AfterExit(w.wpc) && AfterExit(p))
  {
    match a
    case Run => WI.RunFrame(c, w);
    case Terminate(i) =>
      TermKeepsPc(c, w, i);
    case Work => WorkMove(c, w);
    case _ =>
  }

  lemma TermKeepsPc(c: W.Config, w: W.State, i: nat)
    requires i < |w.terms| && W.TermStep(c, w, i).Some?
    ensures W.TermStep(c, w, i).value.wpc == w.wpc
  {
  }

  lemma WorkMove(c: W.Config, w: W.State)
    requires WI.Inv(c, w) && W.WorkStep(c, w).Some? && !w.wpc.WIniting? && !w.wpc.WExiting?
    requires c.onInit.Some? && c.onExit.Some?
    ensures var p := W.WorkStep(c, w).value.wpc;
      || (BeforeInit(w.wpc) && (BeforeInit(p) || p.WIniting?))
      || (AfterInit(w.wpc) && AfterInit(p) && !AfterExit(w.wpc) && (AfterExit(p) ==> WI.InitResult(c) != 0))
      || (AfterExit(w.wpc) && AfterExit(p))
  {
    if w.wpc.WPop? {
      WI.PopEffect(w);
    } else {
      WI.WorkMoves(c, w);
      if w.wpc.WExitTest? {
        assert w.error == WI.InitResult(c);
      }
    }
  }

  lemma WorkerKeeps(c: Config, s: State, a: W.Action)
    requires Inv(c, s) && WI.Inv(WorkerConfig(c), s.w) && W.Step(WorkerConfig(c), s.w, a).Some?
    requires !(a.Work? && (s.w.wpc.WIniting? || s.w.wpc.WExiting?))
    ensures Inv(c, s.(w := W.Step(WorkerConfig(c), s.w, a).value))
  {
    WorkerMove(WorkerConfig(c), s.w, a);
  }

  lemma StepKeeps(c: Config, s: State, a: Action)
    requires Inv(c, s) && WI.Inv(WorkerConfig(c), s.w) && Step(c, s, a).Some?
    ensures Inv(c, Step(c, s, a).value)
  {
    match a
    case Service(conn) => ServiceKeeps(c, s, conn);
    case Shutdown => ShutdownKeeps(c, s);
    case OfWorker(wa) =>
      if wa.Work? && s.w.wpc.WIniting? {
        InitKeeps(c, s);
      } else if wa.Work? && s.w.wpc.WExiting? {
        ExitKeeps(c, s);
      } else {
        WorkerKeeps(c, s, wa);
      }
  }

  // ----- Main results

  /**
   The worker part of every reachable state is reachable in the worker machine whose on_init returns
   the start error and whose on_exit returns 0: what holds in all its reachable states holds here.
   */
  lemma {:induction false} RefinesWorker(c: Config, acts: seq<Action>)
    requires Runs(c, acts).Some?
    ensures Inv(c, Runs(c, acts).value)
    ensures WL.Reachable(WorkerConfig(c), Runs(c, acts).value.w)
    ensures |Runs(c, acts).value.w.terms| == c.nterms
    decreases |acts|
  {
    if acts == [] {
      assert W.Runs(WorkerConfig(c), []) == Some(W.Init(WorkerConfig(c)));
    } else {
      var before := acts[..|acts| - 1];
      var a := acts[|acts| - 1];
      RefinesWorker(c, before);
      var m := Runs(c, before).value;
      WL.ReachableInv(WorkerConfig(c), m.w);
      StepKeeps(c, m, a);
      StepOfWorker(c, m, a);
      if Runs(c, acts).value.w != m.w {
        WL.ReachStep(WorkerConfig(c), m.w, a.a, Runs(c, acts).value.w);
      }
    }
    WL.ReachableInv(WorkerConfig(c), Runs(c, acts).value.w);
  }

  /**
   Signal order in every interleaving, error path included: sig_running follows sig_started, and
   sig_terminated follows sig_stopped, which follows sig_polling_stopped.
   */
  lemma SignalOrder(c: Config, acts: seq<Action>)
    requires Runs(c, acts).Some?
    ensures var s := Runs(c, acts).value;
      && (s.w.running ==> s.started)
      && (s.w.terminated ==> s.stopped)
      && (s.stopped ==> s.pollingStopped)
  {
    RefinesWorker(c, acts);
    WL.ReachableInv(WorkerConfig(c), Runs(c, acts).value.w);
  }

  /**
   When some terminate has returned, the poll loop has ended, the socket is closed, the service thread
   is joined exactly once, and the exit thread has finished if it was needed; terminate and run return the start error.
   */
  lemma TerminateMeansStopped(c: Config, acts: seq<Action>, i: nat)
    requires Runs(c, acts).Some? && i < |Runs(c, acts).value.w.terms| && Runs(c, acts).value.w.terms[i].TDone?
    ensures var s := Runs(c, acts).value;
      && s.spc.SDone? && s.pollingStopped && s.stopped && s.w.wpc.WDone? && s.joins == 1 && !s.listening
      && (c.startErr == 0 ==> s.xpc.XDone?)
      && s.w.terms[i].result == c.startErr
  {
    RefinesWorker(c, acts);
    WL.JoinedOnce(WorkerConfig(c), Runs(c, acts).value.w);
  }

  /** on_exit cannot change the error here, so run always returns the start error. */
  lemma RunReturnsStartError(c: Config, acts: seq<Action>)
    requires Runs(c, acts).Some? && Runs(c, acts).value.w.rpc.RDone?
    ensures Runs(c, acts).value.w.rpc.result == c.startErr
  {
    RefinesWorker(c, acts);
    WL.RunReturnsInitResultIff(WorkerConfig(c));
  }

  /** From the return of a successful run until the worker thread exits, the server listens and polls. */
  lemma ServesBetween(c: Config, acts: seq<Action>)
    requires Runs(c, acts).Some? && Runs(c, acts).value.w.rpc.RDone? && c.startErr == 0
    requires Runs(c, acts).value.xpc.XNone?
    ensures var s := Runs(c, acts).value; s.started && s.serving && s.listening && !s.pollingStopped
  {
    RefinesWorker(c, acts);
    var s := Runs(c, acts).value;
    WL.ReachableInv(WorkerConfig(c), s.w);
    assert WI.RunInv(WorkerConfig(c), s.w);
  }

  // ----- Which connections are dispatched

  /** The valid connections that the calls of accept have yielded, in order. */
  ghost function Accepted(c: Config, acts: seq<Action>): seq<nat>
    requires Runs(c, acts).Some?
  {
    if acts == [] then []
    else
      var before := acts[..|acts| - 1];
      var a := acts[|acts| - 1];
      Accepted(c, before)
      + if Runs(c, before).value.spc.SAccept? && a.Service? && a.conn.Some? then [a.conn.value] else []
  }

  /** The connection that has been accepted and is to be dispatched next. */
  function InHand(s: State): seq<nat> {
    if s.spc.SDispatch? then [s.client] else []
  }

  /** The service thread accepts, */
  lemma AcceptsOne(c: Config, s: State, conn: Option<nat>)
    requires s.spc.SAccept? && ServiceStep(c, s, conn).Some?
    ensures var s' := ServiceStep(c, s, conn).value;
      s'.dispatched == s.dispatched && InHand(s') == if conn.Some? then [conn.value] else []
  {
  }

  /** dispatches, */
  lemma DispatchesOne(c: Config, s: State, conn: Option<nat>)
    requires s.spc.SDispatch? && ServiceStep(c, s, conn).Some?
    ensures var s' := ServiceStep(c, s, conn).value; s'.dispatched == s.dispatched + [s.client] && InHand(s') == []
  {
  }

  /** or does neither. */
  lemma Starts(c: Config, s: State, conn: Option<nat>)
    requires s.spc.SOpen? || s.spc.SErrPolling? || s.spc.SErrStarted? || s.spc.SSetStarted?
    ensures var s' := ServiceStep(c, s, conn).value; s'.dispatched == s.dispatched && !s'.spc.SDispatch?
  {
  }

  lemma Polls(c: Config, s: State, conn: Option<nat>)
    requires s.spc.SCheck? || s.spc.SSetPolling?
    ensures var s' := ServiceStep(c, s, conn).value; s'.dispatched == s.dispatched && !s'.spc.SDispatch?
  {
  }

  lemma StepsOf(c: Config, s: State, conn: Option<nat>)
    requires ServiceStep(c, s, conn).Some?
    ensures !s.spc.SNone? && !s.spc.SDone?
  {
  }

  lemma ServiceDispatches(c: Config, s: State, conn: Option<nat>)
    requires ServiceStep(c, s, conn).Some?
    ensures var s' := ServiceStep(c, s, conn).value;
      s'.dispatched + InHand(s') ==
        s.dispatched + InHand(s) + if s.spc.SAccept? && conn.Some? then [conn.value] else []
  {
    hide ServiceStep;
    if s.spc.SAccept? {
      AcceptsOne(c, s, conn);
    } else if s.spc.SDispatch? {
      DispatchesOne(c, s, conn);
    } else if s.spc.SCheck? || s.spc.SSetPolling? {
      Polls(c, s, conn);
    } else {
      StepsOf(c, s, conn);
      Starts(c, s, conn);
    }
  }

  lemma JoinDispatchesNothing(s: State)
    requires JoinService(s).Some?
    ensures var s' := JoinService(s).value;
      s'.dispatched == s.dispatched && s'.client == s.client && s'.spc == s.spc && s'.serving == s.serving
  {
  }

  lemma InitDispatchesNothing(s: State)
    requires InitStep(s).Some? && (s.ipc.ICreate? ==> s.spc.SNone?)
    ensures var s' := InitStep(s).value;
      && s'.dispatched == s.dispatched && s'.client == s.client && s'.serving == s.serving
      && (s'.spc == s.spc || (s.spc.SNone? && s'.spc.SOpen?))
  {
    hide LeaveInit, JoinService;
    if s.ipc.IJoin? {
      JoinDispatchesNothing(s);
    }
  }

  lemma ExitDispatchesNothing(s: State)
    requires ExitStep(s).Some?
    ensures var s' := ExitStep(s).value;
      s'.dispatched == s.dispatched && s'.client == s.client && s'.spc == s.spc && s'.serving == s.serving
  {
    hide LeaveExit, JoinService;
    if s.epc.EJoinService? {
      JoinDispatchesNothing(s);
    }
  }

  lemma ShutdownDispatchesNothing(s: State)
    requires ShutdownStep(s).Some?
    ensures var s' := ShutdownStep(s).value;
      && s'.dispatched == s.dispatched && s'.client == s.client && s'.spc == s.spc && (s'.serving ==> s.serving)
  {
  }

  lemma StepDispatches(c: Config, s: State, a: Action)
    requires Step(c, s, a).Some? && (s.ipc.ICreate? ==> s.spc.SNone?)
    ensures var s' := Step(c, s, a).value;
      s'.dispatched + InHand(s') ==
        s.dispatched + InHand(s) + if s.spc.SAccept? && a.Service? && a.conn.Some? then [a.conn.value] else []
  {
    hide W.Step, ServiceStep, ShutdownStep, InitStep, ExitStep;
    match a
    case Service(conn) => ServiceDispatches(c, s, conn);
    case Shutdown => ShutdownDispatchesNothing(s);
    case OfWorker(wa) =>
      if wa.Work? && s.w.wpc.WIniting? {
        InitDispatchesNothing(s);
      } else if wa.Work? && s.w.wpc.WExiting? {
        ExitDispatchesNothing(s);
      }
  }

  /**
   In every run the dispatched connections are exactly the valid ones that accept has yielded, each once
   and in order, but for the one in hand; when the service thread has ended there is none in hand.
   */
  lemma {:induction false} DispatchesAccepted(c: Config, acts: seq<Action>)
    requires Runs(c, acts).Some?
    ensures var s := Runs(c, acts).value;
      && Accepted(c, acts) == s.dispatched + InHand(s)
      && (s.spc.SDone? ==> Accepted(c, acts) == s.dispatched)
    decreases |acts|
  {
    hide Step, Inv;
    if acts != [] {
      var before := acts[..|acts| - 1];
      DispatchesAccepted(c, before);
      RefinesWorker(c, before);
      InitAtStart(c, Runs(c, before).value);
      StepDispatches(c, Runs(c, before).value, acts[|acts| - 1]);
    }
  }

  lemma ThreadOf(c: Config, s: State)
    requires Inv(c, s)
    ensures ThreadInv(c, s) && (s.ipc.ICreate? ==> s.spc.SNone?)
  {
  }

  lemma InitAtStart(c: Config, s: State)
    requires Inv(c, s)
    ensures s.ipc.ICreate? <==> s.spc.SNone?
  {
  }

  /** Connections dispatched, or perhaps about to be. */
  function Underway(s: State): nat {
    |s.dispatched| + if s.spc.SAccept? || s.spc.SDispatch? then 1 else 0
  }

  lemma PollLate(c: Config, s: State, conn: Option<nat>)
    requires !s.serving && ServiceStep(c, s, conn).Some? && (s.spc.SCheck? || s.spc.SAccept? || s.spc.SDispatch?)
    ensures var s' := ServiceStep(c, s, conn).value; !s'.serving && Underway(s') <= Underway(s)
  {
  }

  lemma StartLate(c: Config, s: State, conn: Option<nat>)
    requires !s.serving && ServiceStep(c, s, conn).Some? && !s.spc.SCheck? && !s.spc.SAccept? && !s.spc.SDispatch?
    ensures var s' := ServiceStep(c, s, conn).value;
      !s'.serving && s'.dispatched == s.dispatched && !s'.spc.SAccept? && !s'.spc.SDispatch?
  {
  }

  lemma OthersLate(c: Config, s: State, a: Action)
    requires Inv(c, s) && !s.serving && Step(c, s, a).Some? && !a.Service?
    ensures var s' := Step(c, s, a).value; !s'.serving && Underway(s') <= Underway(s)
  {
    hide W.Step, InitStep, ExitStep, ShutdownStep, ExitInv, ThreadInv, JoinInv;
    match a
    case Shutdown => ShutdownDispatchesNothing(s);
    case OfWorker(wa) =>
      if wa.Work? && s.w.wpc.WIniting? {
        InitDispatchesNothing(s);
      } else if wa.Work? && s.w.wpc.WExiting? {
        ExitDispatchesNothing(s);
      }
  }

  lemma StepLate(c: Config, s: State, a: Action)
    requires Inv(c, s) && !s.serving && Step(c, s, a).Some?
    ensures var s' := Step(c, s, a).value; !s'.serving && Underway(s') <= Underway(s)
  {
    hide ServiceStep, ShutdownStep, InitStep, ExitStep, W.Step;
    if !a.Service? {
      OthersLate(c, s, a);
    } else if s.spc.SCheck? || s.spc.SAccept? || s.spc.SDispatch? {
      PollLate(c, s, a.conn);
    } else {
      StartLate(c, s, a.conn);
    }
  }

  lemma {:induction false} RunsLate(c: Config, acts: seq<Action>, more: seq<Action>)
    requires Runs(c, acts).Some? && !Runs(c, acts).value.serving && Runs(c, acts + more).Some?
    ensures var e := Runs(c, acts + more).value; !e.serving && Underway(e) <= Underway(Runs(c, acts).value)
    decreases |more|
  {
    hide Step, Inv, Underway;
    var all := acts + more;
    if more == [] {
      assert all == acts;
    } else {
      assert all[..|all| - 1] == acts + more[..|more| - 1];
      RunsLate(c, acts, more[..|more| - 1]);
      RefinesWorker(c, all[..|all| - 1]);
      StepLate(c, Runs(c, all[..|all| - 1]).value, all[|all| - 1]);
    }
  }

  /** However a run goes on after `running` has become false, at most one more connection is dispatched. */
  lemma AtMostOneLateConnection(c: Config, acts: seq<Action>, more: seq<Action>)
    requires Runs(c, acts).Some? && !Runs(c, acts).value.serving && Runs(c, acts + more).Some?
    ensures |Runs(c, acts + more).value.dispatched| <= |Runs(c, acts).value.dispatched| + 1
  {
    RunsLate(c, acts, more);
  }

  lemma StepStopped(c: Config, s: State, a: Action)
    requires Inv(c, s) && s.pollingStopped && Step(c, s, a).Some?
    ensures Step(c, s, a).value.dispatched == s.dispatched
  {
    hide W.Step, InitStep, ExitStep, ShutdownStep, ServiceStep, ExitInv, JoinInv;
    match a
    case Shutdown => ShutdownDispatchesNothing(s);
    case Service(conn) => StepsOf(c, s, conn); Starts(c, s, conn);
    case OfWorker(wa) =>
      if wa.Work? && s.w.wpc.WIniting? {
        InitDispatchesNothing(s);
      } else if wa.Work? && s.w.wpc.WExiting? {
        ExitDispatchesNothing(s);
      }
  }

  /** The two places that sig_polling_stopped is set at are the last but one and the last. */
  lemma StaysStopped(c: Config, s: State, a: Action)
    requires ThreadInv(c, s) && s.pollingStopped && Step(c, s, a).Some? && (s.ipc.ICreate? ==> s.spc.SNone?)
    requires ThreadInv(c, Step(c, s, a).value)
    ensures Step(c, s, a).value.pollingStopped
  {
    hide W.Step, InitStep, ExitStep, ShutdownStep, ServiceStep;
    match a
    case Shutdown => ShutdownDispatchesNothing(s);
    case Service(conn) => LastSteps(c, s, conn);
    case OfWorker(wa) =>
      if wa.Work? && s.w.wpc.WIniting? {
        InitDispatchesNothing(s);
      } else if wa.Work? && s.w.wpc.WExiting? {
        ExitDispatchesNothing(s);
      }
  }

  lemma LastSteps(c: Config, s: State, conn: Option<nat>)
    requires (s.spc.SErrStarted? || s.spc.SDone?) && ServiceStep(c, s, conn).Some?
    ensures ServiceStep(c, s, conn).value.spc.SDone?
  {
  }

  /** After sig_polling_stopped none is. */
  lemma {:induction false} NoneAfterStopped(c: Config, acts: seq<Action>, more: seq<Action>)
    requires Runs(c, acts).Some? && Runs(c, acts).value.pollingStopped && Runs(c, acts + more).Some?
    ensures Runs(c, acts + more).value.pollingStopped
    ensures Runs(c, acts + more).value.dispatched == Runs(c, acts).value.dispatched
    decreases |more|
  {
    hide Step, Inv;
    var all := acts + more;
    if more == [] {
      assert all == acts;
    } else {
      assert all[..|all| - 1] == acts + more[..|more| - 1];
      hide ThreadInv;
      NoneAfterStopped(c, acts, more[..|more| - 1]);
      RefinesWorker(c, all[..|all| - 1]);
      var m := Runs(c, all[..|all| - 1]).value;
      StepStopped(c, m, all[|all| - 1]);
      RefinesWorker(c, all);
      ThreadOf(c, m);
      ThreadOf(c, Runs(c, all).value);
      StaysStopped(c, m, all[|all| - 1]);
    }
  }

  /** A step is possible that is neither a client's nor the return of accept on an open socket. */
  ghost predicate CanMove(c: Config, s: State) {
    || Step(c, s, OfWorker(W.Run)).Some?
    || Step(c, s, OfWorker(W.Work)).Some?
    || (exists i :: 0 <= i < |s.w.terms| && W.TermStep(WorkerConfig(c), s.w, i).Some?)
    || Step(c, s, Shutdown).Some?
    || (!(s.spc.SAccept? && s.listening) && Step(c, s, Service(None)).Some?)
  }

  lemma InitNotStuck(c: Config, s: State)
    requires Inv(c, s) && s.w.wpc.WIniting?
    ensures CanMove(c, s)
  {
  }

  lemma ExitNotStuck(c: Config, s: State)
    requires Inv(c, s) && s.w.wpc.WExiting?
    ensures CanMove(c, s)
  {
  }

  /** In every reachable state run and every terminate have returned, or somebody can move. */
  lemma NobodyIsStuck(c: Config, acts: seq<Action>)
    requires Runs(c, acts).Some?
    ensures var s := Runs(c, acts).value; WL.Settled(s.w) || CanMove(c, s)
  {
    RefinesWorker(c, acts);
    var s := Runs(c, acts).value;
    if s.w.wpc.WIniting? {
      InitNotStuck(c, s);
    } else if s.w.wpc.WExiting? {
      ExitNotStuck(c, s);
    } else {
      WL.NobodyIsStuck(WorkerConfig(c), s.w);
    }
  }

  /** Steps the service thread has left once `running` is false. */
  function PollLeft(p: SPc): nat {
    match p
    case SSetStarted => 5 case SAccept => 4 case SDispatch => 3 case SCheck => 2 case SSetPolling => 1
    case _ => 0
  }

  /** Once `running` is false, every step of the service thread brings sig_polling_stopped nearer. */
  lemma PollLoopEnds(c: Config, acts: seq<Action>, conn: Option<nat>)
    requires Runs(c, acts).Some? && !Runs(c, acts).value.serving && ServiceStep(c, Runs(c, acts).value, conn).Some?
    ensures var s := Runs(c, acts).value; var s' := ServiceStep(c, s, conn).value;
      PollLeft(s'.spc) < PollLeft(s.spc) && (PollLeft(s'.spc) == 0 ==> s'.pollingStopped)
  {
    RefinesWorker(c, acts);
    WL.ReachableInv(WorkerConfig(c), Runs(c, acts).value.w);
  }

  // ----- Messages and rpcs of a service worker

  predicate OfClient(a: W.Action) {
    a.Send? || a.CallRpc? || a.PushRpc? || a.ReturnRpc?
  }

  /** A run of the worker machine with the same steps of the clients. */
  lemma {:induction false} WorkerSteps(c: Config, acts: seq<Action>) returns (steps: seq<W.Action>)
    requires Runs(c, acts).Some?
    ensures W.Runs(WorkerConfig(c), steps) == Some(Runs(c, acts).value.w)
    ensures forall a :: OfClient(a) ==> (a in steps <==> OfWorker(a) in acts)
    decreases |acts|
  {
    hide Step, W.Step, Inv;
    if acts == [] {
      steps := [];
    } else {
      var before := acts[..|acts| - 1];
      var a := acts[|acts| - 1];
      assert acts == before + [a];
      steps := WorkerSteps(c, before);
      RefinesWorker(c, before);
      var m := Runs(c, before).value;
      WL.ReachableInv(WorkerConfig(c), m.w);
      StepOfWorker(c, m, a);
      ClientsStep(c, m, a);
      if a.OfWorker? && W.Step(WorkerConfig(c), m.w, a.a) == Some(Runs(c, acts).value.w) {
        var more := steps + [a.a];
        assert more[..|steps|] == steps;
        steps := more;
      }
    }
  }

  lemma ClientsStep(c: Config, s: State, a: Action)
    requires Step(c, s, a).Some? && a.OfWorker? ==> !OfClient(a.a) || !a.a.Work?
    ensures Step(c, s, a).Some? && a.OfWorker? && OfClient(a.a) ==>
      W.Step(WorkerConfig(c), s.w, a.a) == Some(Step(c, s, a).value.w)
  {
    hide W.Step;
  }

  /** A returned rpc of a service worker ran once, with the handlers, replies and errors it was configured with. */
  lemma RpcRunsOnce(c: Config, acts: seq<Action>, id: nat, tag: W.Tag)
    requires Runs(c, acts).Some? && OfWorker(W.CallRpc(id, tag)) in acts && OfWorker(W.ReturnRpc(id)) in acts
    ensures WLog.OfId(Runs(c, acts).value.w.log, id) ==
      if tag in c.registered
      then [W.Calling(id), W.Sent(id), W.Dispatched(id), W.Began(id), W.Ended(id), W.Readied(id),
            W.Returning(id, c.reply(id), c.rerr(id))]
      else [W.Calling(id), W.Sent(id), W.Dispatched(id), W.Readied(id), W.Returning(id, 0, -2)]
  {
    hide Runs, W.Runs;
    var steps := WorkerSteps(c, acts);
    WT.RpcRunsOnce(WorkerConfig(c), steps, id, tag);
  }
}
