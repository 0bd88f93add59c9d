/** Which rpc calls return: exactly those pushed ahead of the first NULL on a worker whose on_init succeeds. */
module WorkerRpc {
  import opened Options
  import opened Worker
  import opened WorkerInvariant
  import opened WorkerTheorems
  import L = WorkerLifecycle

  /** Some continuation of the run has the call `id` returned. */
  ghost predicate CanReturn(c: Config, s: State, id: nat) {
    exists acts :: Exec(c, s, acts).Some? && Returned(Exec(c, s, acts).value, id)
  }

  predicate Returned(s: State, id: nat) {
    id in s.calls && s.calls[id].stage.Returned?
  }

  lemma {:induction false} ExecFront(c: Config, s: State, a: Action, rest: seq<Action>)
    requires Step(c, s, a).Some?
    ensures Exec(c, s, [a] + rest) == Exec(c, Step(c, s, a).value, rest)
    decreases |rest|
  {
    var acts := [a] + rest;
    if rest == [] {
      assert acts[..0] == [] && acts[|acts| - 1] == a;
    } else {
      assert acts[..|acts| - 1] == [a] + rest[..|rest| - 1];
      ExecFront(c, s, a, rest[..|rest| - 1]);
    }
  }

  // ----- Never served

  lemma {:induction false} ExecGrows(c: Config, s: State, acts: seq<Action>)
    requires Exec(c, s, acts).Some?
    ensures s.pushed <= Exec(c, s, acts).value.pushed
    decreases |acts|
  {
    if acts != [] {
      ExecGrows(c, s, acts[..|acts| - 1]);
      StepGrows(c, Exec(c, s, acts[..|acts| - 1]).value, acts[|acts| - 1]);
    }
  }

  /** An rpc behind a NULL, or on a worker whose on_init failed, is still queued. */
  lemma StaysQueued(c: Config, s: State, k: nat)
    requires Inv(c, s) && k < |s.pushed| && s.pushed[k].Rpc? && (InitResult(c) != 0 || Null in s.pushed[..k])
    ensures s.pushed[k].id in s.calls && s.calls[s.pushed[k].id].stage.Queued?
  {
    hide LockInv, RunInv, JoinInv, TermInv, ErrorInv, IdInv;
    assert StageAt(s, k, s.calls[s.pushed[k].id].stage);
    if InitResult(c) == 0 {
      var j :| 0 <= j < k && s.pushed[j] == Null;
      assert j < |s.popped| ==> s.popped[j] == Null;
    }
  }

  lemma NeverReturns(c: Config, s: State, k: nat, acts: seq<Action>)
    requires Inv(c, s) && k < |s.pushed| && s.pushed[k].Rpc? && (InitResult(c) != 0 || Null in s.pushed[..k])
    requires Exec(c, s, acts).Some?
    ensures !Returned(Exec(c, s, acts).value, s.pushed[k].id)
  {
    hide Inv, Exec, Step;
    ExecKeepsInv(c, s, acts);
    ExecGrows(c, s, acts);
    assert Exec(c, s, acts).value.pushed[..k] == s.pushed[..k];
    StaysQueued(c, Exec(c, s, acts).value, k);
  }

  // ----- Always served

  function StartRank(s: State): nat {
    if s.rpc.RIdle? then 2 else if s.rpc.RLocked? then 1 else 0
  }

  /** Before the worker thread exists nobody keeps run from creating it. */
  lemma CanStart(c: Config, s: State)
    requires Inv(c, s) && s.wpc.WNone?
    ensures Step(c, s, Run).Some?
    ensures var s' := Step(c, s, Run).value; StartRank(s') < StartRank(s) && s'.pushed == s.pushed
  {
    hide QueueInv, IdInv, CallInv, ErrorInv, JoinInv;
  }

  /** What happens next to an rpc that is not returned: run starts the thread, the thread works, or the caller returns. */
  function Onwards(s: State, id: nat): Action {
    if s.wpc.WNone? then Run else if Served(s, id) then ReturnRpc(id) else Work
  }

  lemma {:induction false} Returns(c: Config, s: State, k: nat, id: nat) returns (acts: seq<Action>)
    requires Inv(c, s) && k < |s.pushed| && s.pushed[k].Rpc? && s.pushed[k].id == id
    requires InitResult(c) == 0 && Null !in s.pushed[..k]
    ensures Exec(c, s, acts).Some? && Returned(Exec(c, s, acts).value, id)
    decreases StartRank(s), if Served(s, id) then 0 else 1, StepsToServe(s, k)
  {
    hide Inv, Step;
    if Returned(s, id) {
      return [];
    }
    var a := Onwards(s, id);
    if s.wpc.WNone? {
      CanStart(c, s);
    } else if Served(s, id) {
      ReturnStep(c, s, id);
      ExecFront(c, s, a, []);
      return [a] + [];
    } else {
      WorkStepTowards(c, s, k, id);
    }
    StepKeepsInv(c, s, a);
    var rest := Returns(c, Step(c, s, a).value, k, id);
    ExecFront(c, s, a, rest);
    acts := [a] + rest;
  }

  lemma ReturnStep(c: Config, s: State, id: nat)
    requires Served(s, id) && !Returned(s, id)
    ensures Step(c, s, ReturnRpc(id)).Some? && Returned(Step(c, s, ReturnRpc(id)).value, id)
  {
  }

  lemma WorkStepTowards(c: Config, s: State, k: nat, id: nat)
    requires Inv(c, s) && Pending(c, s, k, id) && !Served(s, id)
    ensures Step(c, s, Work).Some?
    ensures var s' := Step(c, s, Work).value;
      && Pending(c, s', k, id) && s'.rpc == s.rpc
      && (StepsToServe(s', k) < StepsToServe(s, k) || Served(s', id))
  {
    WorkerCanServe(c, s, k, id);
    ServeStep(c, s, Work, k, id);
    WorkKeepsFrame(c, s);
  }

  /**
   The call of an rpc that has been pushed can return if and only if on_init succeeds and no NULL was
   pushed ahead of it; otherwise its caller is blocked in every continuation.
   */
  lemma RpcReturnsIff(c: Config, s: State, k: nat)
    requires L.Reachable(c, s) && k < |s.pushed| && s.pushed[k].Rpc?
    ensures CanReturn(c, s, s.pushed[k].id) <==> InitResult(c) == 0 && Null !in s.pushed[..k]
  {
    L.ReachableInv(c, s);
    var id := s.pushed[k].id;
    if InitResult(c) == 0 && Null !in s.pushed[..k] {
      var acts := Returns(c, s, k, id);
    } else {
      forall acts | Exec(c, s, acts).Some?
        ensures !Returned(Exec(c, s, acts).value, id)
      {
        NeverReturns(c, s, k, acts);
      }
    }
  }
}
