/** Calls of rpc take effect in real-time order: one that returned before another was made comes first. */
module WorkerOrder {
  import opened Options
  import opened Worker
  import opened WorkerInvariant
  import opened WorkerInputs
  import opened WorkerLog
  import opened WorkerStories
  import opened WorkerTheorems
  import R = WorkerRpc

  // ----- The log only grows

  lemma WorkLogGrows(c: Config, s: State)
    requires Inv(c, s) && WorkStep(c, s).Some?
    ensures s.log <= WorkStep(c, s).value.log
  {
    hide LockInv, JoinInv, TermInv, IdInv, CallInv, PopStep, OnMsg, OnRpc, LifeStep;
    if s.wpc.WPop? {
      PopEffect(s);
    } else if Busy(s.wpc) {
      BusyLogs(c, s);
    } else {
      LifeLogs(c, s);
    }
  }

  lemma RunLogGrows(c: Config, s: State)
    requires RunStep(c, s).Some?
    ensures s.log <= RunStep(c, s).value.log
  {
  }

  lemma ClientLogGrows(s: State, a: Action)
    requires ClientStep(s, a).Some?
    ensures s.log <= ClientStep(s, a).value.log
  {
  }

  lemma StepLogGrows(c: Config, s: State, a: Action)
    requires Inv(c, s) && Step(c, s, a).Some?
    ensures s.log <= Step(c, s, a).value.log
  {
    hide Inv, RunStep, WorkStep, TermStep, ClientStep;
    match a
    case Run => RunLogGrows(c, s);
    case Work => WorkLogGrows(c, s);
    case Terminate(i) => TermLogs(c, s, i);
    case _ => ClientLogGrows(s, a);
  }

  lemma {:induction false} ExecLogGrows(c: Config, s: State, acts: seq<Action>)
    requires Inv(c, s) && Exec(c, s, acts).Some?
    ensures s.log <= Exec(c, s, acts).value.log
    decreases |acts|
  {
    if acts != [] {
      hide Step, Inv;
      ExecKeepsInv(c, s, acts[..|acts| - 1]);
      ExecLogGrows(c, s, acts[..|acts| - 1]);
      StepLogGrows(c, Exec(c, s, acts[..|acts| - 1]).value, acts[|acts| - 1]);
    }
  }

  // ----- The events of one id

  lemma {:induction false} OfIdConcat(log: seq<Event>, more: seq<Event>, id: nat)
    ensures OfId(log + more, id) == OfId(log, id) + OfId(more, id)
  {
    if more == [] {
      assert log + more == log;
    } else {
      assert (log + more)[..|log + more| - 1] == log + more[..|more| - 1];
      OfIdConcat(log, more[..|more| - 1], id);
    }
  }

  lemma {:induction false} NoneAbout(log: seq<Event>, id: nat, x: nat)
    requires OfId(log, id) == [] && x < |log|
    ensures !About(log[x], id)
  {
    if x < |log| - 1 {
      NoneAbout(log[..|log| - 1], id, x);
    }
  }

  lemma SoFarLength(c: Config, p: WPc)
    requires Busy(p)
    ensures |SoFar(c, p)| <= |ItemTrace(c, p.item)|
  {
  }

  /** The longest story an rpc can have is that of a returned call. */
  lemma StoryLength(c: Config, s: State, k: nat)
    requires k < |s.pushed| && s.pushed[k].Rpc? && QueueInv(c, s)
    ensures |Story(c, s, k)| <= |ItemTrace(c, s.pushed[k])| + 3
  {
    hide SoFar, ItemTrace;
    if Busy(s.wpc) {
      SoFarLength(c, s.wpc);
    }
  }

  lemma ReturnedStory(c: Config, s: State, k: nat)
    requires Inv(c, s) && k < |s.pushed| && s.pushed[k].Rpc? && R.Returned(s, s.pushed[k].id)
    ensures |Story(c, s, k)| == |ItemTrace(c, s.pushed[k])| + 3
  {
    hide LockInv, RunInv, JoinInv, TermInv, ErrorInv, IdInv;
    assert StageAt(s, k, s.calls[s.pushed[k].id].stage);
  }

  lemma {:induction false} RunsThenExec(c: Config, acts: seq<Action>, more: seq<Action>)
    requires Runs(c, acts).Some? && Exec(c, Runs(c, acts).value, more).Some?
    ensures Runs(c, acts + more) == Exec(c, Runs(c, acts).value, more)
    decreases |more|
  {
    hide Step;
    if more == [] {
      assert acts + more == acts;
    } else {
      var all := acts + more;
      assert all[..|all| - 1] == acts + more[..|more| - 1] && all[|all| - 1] == more[|more| - 1];
      RunsThenExec(c, acts, more[..|more| - 1]);
    }
  }

  /** The story of a returned call is complete, and has no room to grow. */
  lemma CompleteStory(c: Config, s: State, e: State, a: nat)
    requires Inv(c, s) && StoryInv(c, s) && Inv(c, e) && StoryInv(c, e) && R.Returned(s, a)
    requires s.pushed <= e.pushed
    ensures |OfId(e.log, a)| <= |OfId(s.log, a)|
  {
    hide LockInv, RunInv, JoinInv, TermInv, ErrorInv, IdInv, Story, StageAt, OfId, ItemTrace, ResultOk;
    var k :| 0 <= k < |s.pushed| && s.pushed[k] == Rpc(a, s.calls[a].tag);
    ReturnedStory(c, s, k);
    StoryLength(c, e, k);
  }

  /** Once a call has returned nothing more is ever logged about it. */
  lemma SilentAfterReturn(c: Config, acts: seq<Action>, more: seq<Action>, a: nat)
    requires Runs(c, acts).Some? && Exec(c, Runs(c, acts).value, more).Some? && R.Returned(Runs(c, acts).value, a)
    ensures OfId(Exec(c, Runs(c, acts).value, more).value.log, a) == OfId(Runs(c, acts).value.log, a)
  {
    hide Exec, Runs, Inv, StoryInv, OfId;
    var s := Runs(c, acts).value;
    var e := Exec(c, s, more).value;
    RunsInv(c, acts);
    RunsStories(c, acts);
    RunsThenExec(c, acts, more);
    RunsInv(c, acts + more);
    RunsStories(c, acts + more);
    R.ExecGrows(c, s, more);
    ExecLogGrows(c, s, more);
    CompleteStory(c, s, e, a);
    assert e.log == s.log + e.log[|s.log|..];
    OfIdConcat(s.log, e.log[|s.log|..], a);
  }

  lemma LogsApart(log: seq<Event>, rest: seq<Event>, a: nat, b: nat)
    requires OfId(log + rest, a) == OfId(log, a) && OfId(log, b) == []
    ensures forall x :: 0 <= x < |log + rest| && About((log + rest)[x], a) ==> x < |log|
    ensures forall y :: 0 <= y < |log + rest| && About((log + rest)[y], b) ==> |log| <= y
  {
    hide OfId, About;
    OfIdConcat(log, rest, a);
    forall x | 0 <= x < |log + rest|
      ensures x >= |log| ==> !About((log + rest)[x], a)
      ensures x < |log| ==> !About((log + rest)[x], b)
    {
      if x >= |log| {
        NoneAbout(rest, a, x - |log|);
      } else {
        NoneAbout(log, b, x);
      }
    }
  }

  // ----- Ids are new when they are used first

  lemma StepUses(c: Config, s: State, a: Action)
    requires Step(c, s, a).Some?
    ensures s.used <= Step(c, s, a).value.used && (a.CallRpc? ==> a.id !in s.used)
  {
    hide RunStep, WorkStep, TermStep;
    match a
    case Run => RunFrame(c, s);
    case Work => WorkKeepsFrame(c, s);
    case Terminate(i) => TermUses(c, s, i);
    case _ =>
  }

  lemma TermUses(c: Config, s: State, i: nat)
    requires i < |s.terms| && TermStep(c, s, i).Some?
    ensures TermStep(c, s, i).value.used == s.used
  {
  }

  lemma {:induction false} NewLater(c: Config, s: State, more: seq<Action>, id: nat, tag: Tag)
    requires Exec(c, s, more).Some?
    ensures s.used <= Exec(c, s, more).value.used
    ensures CallRpc(id, tag) in more ==> id !in s.used
    decreases |more|
  {
    hide Step;
    if more != [] {
      var before := more[..|more| - 1];
      NewLater(c, s, before, id, tag);
      StepUses(c, Exec(c, s, before).value, more[|more| - 1]);
      assert more == before + [more[|more| - 1]];
    }
  }

  /**
   Real-time order: when call `a` has returned before call `b` is made, everything logged about `a`,
   its handler's run included, precedes everything ever logged about `b`.
   */
  lemma CallsInOrder(c: Config, acts: seq<Action>, more: seq<Action>, a: nat, b: nat, tag: Tag)
    requires Runs(c, acts).Some? && Exec(c, Runs(c, acts).value, more).Some?
    requires ReturnRpc(a) in acts && CallRpc(b, tag) in more
    ensures var now := |Runs(c, acts).value.log|; var log := Exec(c, Runs(c, acts).value, more).value.log;
      && now <= |log|
      && (forall x :: 0 <= x < |log| && About(log[x], a) ==> x < now)
      && (forall y :: 0 <= y < |log| && About(log[y], b) ==> now <= y)
  {
    hide Exec, Runs, Inv, OfId, About;
    var s := Runs(c, acts).value;
    var e := Exec(c, s, more).value;
    CallsAreGiven(c, acts);
    NewLater(c, s, more, b, tag);
    SilentAfterReturn(c, acts, more, a);
    RunsInv(c, acts);
    RunsStories(c, acts);
    ExecLogGrows(c, s, more);
    assert e.log == s.log + e.log[|s.log|..];
    LogsApart(s.log, e.log[|s.log|..], a, b);
  }
}
