/** What a step of the worker thread does to the calls of rpc. */
module WorkerCalls {
  import opened Options
  import opened Worker
  import opened WorkerInvariant

  /** Stages that callers cannot tell apart. */
  predicate SameKind(a: Stage, b: Stage) {
    (a.Called? <==> b.Called?) && (a.Ready? <==> b.Ready?) && (a.Returned? <==> b.Returned?)
  }

  ghost predicate SameCalls(calls: map<nat, Call>, calls': map<nat, Call>) {
    && calls'.Keys == calls.Keys
    && forall id :: id in calls ==> SameKind(calls[id].stage, calls'[id].stage) && calls'[id].tag == calls[id].tag
  }

  /** A pop takes a call from queued to taken. */
  lemma PopCalls(c: Config, s: State)
    requires Inv(c, s) && s.wpc.WPop? && PopStep(s).Some?
    ensures SameCalls(s.calls, PopStep(s).value.calls)
  {
    hide PopStep, LockInv, RunInv, JoinInv, TermInv, ErrorInv, IdInv, ResultOk;
    PopEffect(s);
    PoppedCall(s);
    var n := |s.popped|;
    assert s.pushed[n] == s.queue[0];
    if s.queue[0].Rpc? {
      assert StageAt(s, n, s.calls[s.queue[0].id].stage);
    }
  }

  /** The stage of the call in hand. */
  lemma InHand(c: Config, s: State)
    requires Inv(c, s) && Busy(s.wpc) && s.wpc.item.Rpc?
    ensures var id := s.wpc.item.id;
      && id in s.calls && s.calls[id].tag == s.wpc.item.tag
      && (match s.wpc case WGot(_) => s.calls[id].stage.Taken? case WLookup(_) => s.calls[id].stage.Taken?
          case WRunning(_) => s.calls[id].stage.Running? case _ => s.calls[id].stage.Finished?)
  {
    hide LockInv, RunInv, JoinInv, TermInv, ErrorInv, IdInv, ResultOk;
    var n := |s.popped| - 1;
    assert s.pushed[n] == s.wpc.item;
    assert StageAt(s, n, s.calls[s.wpc.item.id].stage);
  }

  lemma OnRpcKind(c: Config, s: State, id: nat, tag: Tag)
    requires OnRpc(c, s, id, tag).Some? && Busy(s.wpc) && !s.wpc.WReady?
    requires !s.calls[id].stage.Called? && !s.calls[id].stage.Ready? && !s.calls[id].stage.Returned?
    requires s.wpc.WGot? ==> s.calls[id].stage.Taken?
    ensures var s' := OnRpc(c, s, id, tag).value; id in s'.calls && SameKind(s.calls[id].stage, s'.calls[id].stage)
  {
  }

  /** While it handles an item the worker does not call, ready or return anything. */
  lemma WorkLinks(c: Config, s: State)
    requires Inv(c, s) && WorkStep(c, s).Some? && !s.wpc.WReady?
    ensures var s' := WorkStep(c, s).value;
      && s'.terms == s.terms && s'.used == s.used && s'.rpc == s.rpc && SameCalls(s.calls, s'.calls)
  {
    hide PopStep, LifeStep, OnMsg, OnRpc, Inv;
    WorkKeepsFrame(c, s);
    if s.wpc.WPop? {
      PopCalls(c, s);
    } else if !Busy(s.wpc) {
      LifeEffect(c, s);
    } else if s.wpc.item.Msg? {
      OnMsgEffect(c, s, s.wpc.item.id, s.wpc.item.tag);
    } else {
      InHand(c, s);
      OnRpcCall(c, s, s.wpc.item.id, s.wpc.item.tag);
      OnRpcKind(c, s, s.wpc.item.id, s.wpc.item.tag);
    }
  }

  lemma CallsAlone(calls: map<nat, Call>)
    ensures SameCalls(calls, calls)
  {
  }
}
