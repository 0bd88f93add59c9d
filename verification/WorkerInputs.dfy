/** What clients gave a run of the worker, read off its actions alone, and that the state keeps it. */
module WorkerInputs {
  import opened Options
  import opened Worker
  import opened WorkerInvariant
  import opened WorkerCalls
  import opened WorkerLog

  // ----- The items pushed

  /** How often terminator `i` has stepped: it pushes its NULL with its second step. */
  function TermCount(acts: seq<Action>, i: nat): nat {
    if acts == [] then 0 else TermCount(acts[..|acts| - 1], i) + if acts[|acts| - 1] == Terminate(i) then 1 else 0
  }

  /** The tag of the request that call `id` was made with. */
  function GivenTag(acts: seq<Action>, id: nat): Tag {
    if acts == [] then []
    else
      var a := acts[|acts| - 1];
      if a.CallRpc? && a.id == id then a.tag else GivenTag(acts[..|acts| - 1], id)
  }

  /** The messages sent, the requests of the rpcs pushed and one NULL for each terminate, in order. */
  function Pushes(acts: seq<Action>): seq<Item> {
    if acts == [] then []
    else
      var before := acts[..|acts| - 1];
      Pushes(before) + PushBy(before, acts[|acts| - 1])
  }

  function PushBy(before: seq<Action>, a: Action): seq<Item> {
    match a
    case Send(id, tag) => [Msg(id, tag)]
    case PushRpc(id) => [Rpc(id, GivenTag(before, id))]
    case Terminate(i) => if TermCount(before, i) == 1 then [Null] else []
    case _ => []
  }

  /** Steps behind a terminator. */
  function StepsDone(p: TPc): nat {
    match p
    case TIdle => 0 case TPush => 1 case TWait => 2 case TJoin => 3 case TRead => 4 case TUnlock(_) => 5 case TDone(_) => 6
  }

  ghost predicate CallsGiven(s: State, acts: seq<Action>) {
    && (forall id :: id in s.calls ==> s.calls[id].tag == GivenTag(acts, id))
    && (forall id, tag :: CallRpc(id, tag) in acts <==> id in s.calls && s.calls[id].tag == tag)
    && (forall id :: ReturnRpc(id) in acts <==> id in s.calls && s.calls[id].stage.Returned?)
    && (forall id :: PushRpc(id) in acts <==> id in s.calls && !s.calls[id].stage.Called?)
  }

  ghost predicate TermsGiven(s: State, acts: seq<Action>) {
    forall i :: 0 <= i < |s.terms| ==> StepsDone(s.terms[i]) == TermCount(acts, i)
  }

  // ----- One step

  lemma StepPushes(c: Config, s: State, a: Action, acts: seq<Action>)
    requires Step(c, s, a).Some? && CallsGiven(s, acts) && TermsGiven(s, acts)
    ensures Step(c, s, a).value.pushed == s.pushed + PushBy(acts, a)
  {
    hide RunStep, WorkStep, TermStep, TermCount, GivenTag;
    match a
    case Run => RunFrame(c, s);
    case Work => WorkKeepsFrame(c, s);
    case Terminate(i) => TermPushes(c, s, i);
    case _ =>
  }

  lemma TermCounts(c: Config, s: State, i: nat)
    requires i < |s.terms| && TermStep(c, s, i).Some?
    ensures var s' := TermStep(c, s, i).value;
      && |s'.terms| == |s.terms| && s'.terms == s.terms[i := s'.terms[i]]
      && StepsDone(s'.terms[i]) == StepsDone(s.terms[i]) + 1
  {
  }

  lemma StepTerms(c: Config, s: State, a: Action, acts: seq<Action>)
    requires Step(c, s, a).Some? && TermsGiven(s, acts)
    ensures TermsGiven(Step(c, s, a).value, acts + [a])
  {
    hide RunStep, WorkStep, TermStep, StepsDone;
    assert (acts + [a])[..|acts|] == acts;
    match a
    case Run => RunKeepsTerms(c, s);
    case Work => WorkKeepsFrame(c, s);
    case Terminate(i) => TermCounts(c, s, i);
    case _ => ClientKeepsTerms(s, a);
  }

  lemma RunKeepsTerms(c: Config, s: State)
    requires RunStep(c, s).Some?
    ensures RunStep(c, s).value.terms == s.terms
  {
  }

  lemma ClientKeepsTerms(s: State, a: Action)
    requires ClientStep(s, a).Some?
    ensures ClientStep(s, a).value.terms == s.terms
  {
  }

  /** Whatever the worker thread does, a call keeps its tag, and does not become called or returned. */
  ghost predicate CallsKept(s: State, s': State) {
    && s'.calls.Keys == s.calls.Keys
    && forall id :: id in s.calls ==>
         && s'.calls[id].tag == s.calls[id].tag
         && (s'.calls[id].stage.Called? <==> s.calls[id].stage.Called?)
         && (s'.calls[id].stage.Returned? <==> s.calls[id].stage.Returned?)
  }

  lemma WorkKeepsCalled(c: Config, s: State)
    requires Inv(c, s) && WorkStep(c, s).Some?
    ensures CallsKept(s, WorkStep(c, s).value)
  {
    hide Inv, PopStep, LifeStep, OnMsg;
    if s.wpc.WReady? {
      ReadyRpc(c, s);
      InHand(c, s);
    } else {
      hide WorkStep;
      WorkLinks(c, s);
    }
  }

  lemma ReadyRpc(c: Config, s: State)
    requires Inv(c, s) && s.wpc.WReady?
    ensures s.wpc.item.Rpc?
  {
  }

  lemma KeptGiven(s: State, s': State, acts: seq<Action>, a: Action)
    requires CallsGiven(s, acts) && CallsKept(s, s') && !a.CallRpc? && !a.ReturnRpc? && !a.PushRpc?
    ensures CallsGiven(s', acts + [a])
  {
    assert (acts + [a])[..|acts|] == acts;
  }

  lemma SendGiven(s: State, id: nat, tag: Tag, acts: seq<Action>)
    requires ClientStep(s, Send(id, tag)).Some? && CallsGiven(s, acts)
    ensures CallsGiven(ClientStep(s, Send(id, tag)).value, acts + [Send(id, tag)])
  {
    hide CallsGiven;
    KeptGiven(s, ClientStep(s, Send(id, tag)).value, acts, Send(id, tag));
  }

  lemma CallGiven(s: State, id: nat, tag: Tag, acts: seq<Action>)
    requires IdInv(s) && ClientStep(s, CallRpc(id, tag)).Some? && CallsGiven(s, acts)
    ensures CallsGiven(ClientStep(s, CallRpc(id, tag)).value, acts + [CallRpc(id, tag)])
  {
    assert (acts + [CallRpc(id, tag)])[..|acts|] == acts;
  }

  /** The caller pushes its rpc, or returns. */
  lemma CallerGiven(s: State, a: Action, acts: seq<Action>)
    requires (a.PushRpc? || a.ReturnRpc?) && ClientStep(s, a).Some? && CallsGiven(s, acts)
    ensures CallsGiven(ClientStep(s, a).value, acts + [a])
  {
    assert (acts + [a])[..|acts|] == acts;
  }

  lemma ClientGiven(c: Config, s: State, a: Action, acts: seq<Action>)
    requires IdInv(s) && ClientStep(s, a).Some? && CallsGiven(s, acts)
    ensures CallsGiven(ClientStep(s, a).value, acts + [a])
  {
    hide CallsGiven, IdInv;
    match a
    case Send(id, tag) => SendGiven(s, id, tag, acts);
    case CallRpc(id, tag) => CallGiven(s, id, tag, acts);
    case PushRpc(_) => CallerGiven(s, a, acts);
    case ReturnRpc(_) => CallerGiven(s, a, acts);
    case _ =>
  }

  lemma StepGiven(c: Config, s: State, a: Action, acts: seq<Action>)
    requires Inv(c, s) && Step(c, s, a).Some? && CallsGiven(s, acts)
    ensures CallsGiven(Step(c, s, a).value, acts + [a])
  {
    hide RunStep, WorkStep, TermStep, ClientStep, CallsGiven;
    hide LockInv, RunInv, JoinInv, TermInv, ErrorInv, QueueInv, CallInv;
    match a
    case Run =>
      RunFrame(c, s);
      KeptGiven(s, RunStep(c, s).value, acts, a);
    case Work =>
      WorkKeepsCalled(c, s);
      KeptGiven(s, WorkStep(c, s).value, acts, a);
    case Terminate(i) =>
      TermKeepsCalled(c, s, i);
      KeptGiven(s, TermStep(c, s, i).value, acts, a);
    case _ => ClientGiven(c, s, a, acts);
  }

  lemma TermKeepsCalled(c: Config, s: State, i: nat)
    requires i < |s.terms| && TermStep(c, s, i).Some?
    ensures TermStep(c, s, i).value.calls == s.calls
  {
  }

  // ----- Every run

  lemma {:induction false} RunsGiven(c: Config, acts: seq<Action>)
    requires Runs(c, acts).Some?
    ensures var s := Runs(c, acts).value; s.pushed == Pushes(acts) && CallsGiven(s, acts) && TermsGiven(s, acts)
    decreases |acts|
  {
    hide Step, CallsGiven, TermsGiven, Inv;
    if acts == [] {
      NothingGiven(c);
    } else {
      var before := acts[..|acts| - 1];
      var a := acts[|acts| - 1];
      assert acts == before + [a];
      RunsGiven(c, before);
      RunsInv(c, before);
      var m := Runs(c, before).value;
      StepPushes(c, m, a, before);
      StepTerms(c, m, a, before);
      StepGiven(c, m, a, before);
    }
  }

  lemma NothingGiven(c: Config)
    ensures CallsGiven(Init(c), []) && TermsGiven(Init(c), [])
  {
  }

  /** In every run the items pushed are those the clients gave, in the order of their pushes. */
  lemma PushedIsGiven(c: Config, acts: seq<Action>)
    requires Runs(c, acts).Some?
    ensures Runs(c, acts).value.pushed == Pushes(acts)
  {
    RunsGiven(c, acts);
  }

  /** The calls are those that were made, each with the tag of its request and at the stage its caller has reached. */
  lemma CallsAreGiven(c: Config, acts: seq<Action>)
    requires Runs(c, acts).Some?
    ensures CallsGiven(Runs(c, acts).value, acts)
  {
    RunsGiven(c, acts);
  }

  /** Every message sent is pushed with its tag, and no other. */
  lemma {:induction false} SendIsPushed(acts: seq<Action>, id: nat, tag: Tag)
    ensures Msg(id, tag) in Pushes(acts) <==> Send(id, tag) in acts
  {
    if acts != [] {
      var before := acts[..|acts| - 1];
      SendIsPushed(before, id, tag);
      assert acts == before + [acts[|acts| - 1]];
    }
  }
}
