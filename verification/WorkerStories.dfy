/** The events of one message or rpc, over a whole run of the worker. */
module WorkerStories {
  import opened Options
  import opened Worker
  import opened WorkerInvariant
  import opened WorkerLog

  function Before(item: Item): seq<Event>
    requires !item.Null?
  {
    if item.Rpc? then [Calling(item.id), Sent(item.id)] else [Sent(item.id)]
  }

  /** What the worker thread has logged of the k-th pushed item. */
  function During(c: Config, s: State, k: nat): seq<Event>
    requires k < |s.pushed|
  {
    if k >= |s.popped| then []
    else if k == |s.popped| - 1 && Busy(s.wpc) then SoFar(c, s.wpc)
    else ItemTrace(c, s.pushed[k])
  }

  function After(s: State, item: Item): seq<Event> {
    if item.Rpc? && item.id in s.calls && s.calls[item.id].stage.Returned?
    then [Returning(item.id, s.calls[item.id].reply, s.calls[item.id].error)]
    else []
  }

  function Story(c: Config, s: State, k: nat): seq<Event>
    requires k < |s.pushed| && !s.pushed[k].Null?
  {
    Before(s.pushed[k]) + During(c, s, k) + After(s, s.pushed[k])
  }

  ghost predicate StoryInv(c: Config, s: State) {
    && (forall id :: id !in s.used ==> OfId(s.log, id) == [])
    && (forall id :: id in s.calls && s.calls[id].stage.Called? ==> OfId(s.log, id) == [Calling(id)])
    && (forall k :: 0 <= k < |s.pushed| && !s.pushed[k].Null? ==> OfId(s.log, s.pushed[k].id) == Story(c, s, k))
  }

  /** The log grows by events that are about no id, and nothing else that stories depend on changes. */
  lemma QuietStories(c: Config, s: State, s': State)
    requires StoryInv(c, s) && s'.calls == s.calls && s'.used == s.used && s'.popped == s.popped
    requires forall id :: OfId(s'.log, id) == OfId(s.log, id)
    requires s'.pushed == s.pushed || (s'.pushed == s.pushed + [Null] && |s.popped| <= |s.pushed|)
    requires s'.wpc == s.wpc || (!Busy(s.wpc) && !Busy(s'.wpc))
    ensures StoryInv(c, s')
  {
    forall k | 0 <= k < |s'.pushed| && !s'.pushed[k].Null?
      ensures OfId(s'.log, s'.pushed[k].id) == Story(c, s', k)
    {
      assert Story(c, s', k) == Story(c, s, k);
    }
  }

  /** The k-th item's story gains `e`; the log gains `e`, which is about that item. */
  lemma OneStory(c: Config, s: State, s': State, n: nat, e: seq<Event>)
    requires StoryInv(c, s) && IdInv(s) && s'.pushed == s.pushed && s'.used == s.used && |e| <= 1
    requires n < |s.pushed| && !s.pushed[n].Null? && s'.log == s.log + e && (e != [] ==> About(e[0], s.pushed[n].id))
    requires forall k :: 0 <= k < |s.pushed| && k != n && !s.pushed[k].Null? ==> Story(c, s', k) == Story(c, s, k)
    requires Story(c, s', n) == Story(c, s, n) + e
    requires s'.calls.Keys == s.calls.Keys
    requires forall id :: id in s.calls && s'.calls[id].stage.Called? ==> s.calls[id].stage.Called?
    ensures StoryInv(c, s')
  {
    if e == [] {
      assert s'.log == s.log;
    } else {
      assert e == [e[0]];
      forall id ensures OfId(s'.log, id) == if id == s.pushed[n].id then OfId(s.log, id) + e else OfId(s.log, id) {
        OfIdAfter(s.log, e[0], id);
      }
    }
    forall k | 0 <= k < |s'.pushed| && !s'.pushed[k].Null?
      ensures OfId(s'.log, s'.pushed[k].id) == Story(c, s', k)
    {
      if k != n {
        assert !HasId(s.pushed[k], s.pushed[n].id);
      }
    }
  }

  /** Calls that agree on every id but `id`. */
  predicate OnlyCall(calls: map<nat, Call>, calls': map<nat, Call>, id: nat) {
    calls' == calls || (id in calls && id in calls' && calls' == calls[id := calls'[id]])
  }

  /** Only an item's own call matters to the end of its story. */
  lemma OtherStory(c: Config, s: State, s': State, k: nat, id: nat)
    requires OnlyCall(s.calls, s'.calls, id) && s'.pushed == s.pushed
    requires k < |s.pushed| && !s.pushed[k].Null? && !HasId(s.pushed[k], id)
    requires During(c, s', k) == During(c, s, k)
    ensures Story(c, s', k) == Story(c, s, k)
  {
  }

  lemma StoryGrows(c: Config, s: State, s': State, n: nat, e: seq<Event>)
    requires n < |s.pushed| && !s.pushed[n].Null? && s'.pushed == s.pushed
    requires During(c, s', n) == During(c, s, n) + e && After(s, s.pushed[n]) == After(s', s.pushed[n]) == []
    ensures Story(c, s', n) == Story(c, s, n) + e
  {
  }

  lemma BusyKeepsStories(c: Config, s: State)
    requires Inv(c, s) && StoryInv(c, s) && Busy(s.wpc) && WorkStep(c, s).Some?
    ensures StoryInv(c, WorkStep(c, s).value)
  {
    var s' := WorkStep(c, s).value;
    BusyLogs(c, s);
    WorkKeepsFrame(c, s);
    BusyCalls(c, s);
    BusyStory(c, s, s', BusyEvent(c, s.wpc));
  }

  lemma BusyCalls(c: Config, s: State)
    requires Inv(c, s) && Busy(s.wpc) && !s.wpc.item.Null? && WorkStep(c, s).Some?
    ensures OnlyCall(s.calls, WorkStep(c, s).value.calls, s.wpc.item.id)
    ensures After(s, s.wpc.item) == After(WorkStep(c, s).value, s.wpc.item) == []
  {
    if s.wpc.item.Rpc? {
      OnRpcCall(c, s, s.wpc.item.id, s.wpc.item.tag);
      assert s.pushed[|s.popped| - 1] == s.wpc.item;
    } else {
      OnMsgEffect(c, s, s.wpc.item.id, s.wpc.item.tag);
    }
  }

  lemma BusyStory(c: Config, s: State, s': State, e: seq<Event>)
    requires QueueInv(c, s) && IdInv(s) && StoryInv(c, s) && Busy(s.wpc)
    requires WorkFrame(s, s') && s'.log == s.log + e && e == BusyEvent(c, s.wpc) && !s.wpc.item.Null?
    requires if s'.wpc.WPop? then SoFar(c, s.wpc) + e == ItemTrace(c, s.wpc.item)
             else Busy(s'.wpc) && SoFar(c, s.wpc) + e == SoFar(c, s'.wpc)
    requires OnlyCall(s.calls, s'.calls, s.wpc.item.id)
    requires After(s, s.wpc.item) == After(s', s.wpc.item) == []
    ensures StoryInv(c, s')
  {
    var n := |s.popped| - 1;
    assert s.pushed[n] == s.wpc.item;
    forall k | 0 <= k < |s.pushed| && k != n && !s.pushed[k].Null?
      ensures Story(c, s', k) == Story(c, s, k)
    {
      assert !HasId(s.pushed[k], s.pushed[n].id);
      OtherStory(c, s, s', k, s.pushed[n].id);
    }
    StoryGrows(c, s, s', n, e);
    OneStory(c, s, s', n, e);
  }

  lemma PopStory(c: Config, s: State, s': State, item: Item)
    requires QueueInv(c, s) && IdInv(s) && CallInv(c, s) && StoryInv(c, s) && s.wpc.WPop? && s.queue != [] && item == s.queue[0]
    requires WorkFrame(s, s') && s'.popped == s.popped + [item]
    requires if item.Null? then s'.wpc == WExitTest && s'.log == s.log && s'.calls == s.calls
             else s'.wpc == WGot(item) && s'.log == s.log + [Dispatched(item.id)]
    requires !item.Null? ==> OnlyCall(s.calls, s'.calls, item.id) && After(s, item) == After(s', item) == []
    ensures StoryInv(c, s')
  {
    var n := |s.popped|;
    assert s.pushed[n] == item;
    forall k | 0 <= k < |s.pushed| && k != n && !s.pushed[k].Null?
      ensures Story(c, s', k) == Story(c, s, k)
    {
      if !item.Null? {
        assert !HasId(s.pushed[k], s.pushed[n].id);
        OtherStory(c, s, s', k, item.id);
      }
    }
    if item.Null? {
      SameStories(c, s, s');
    } else {
      StoryGrows(c, s, s', n, [Dispatched(item.id)]);
      OneStory(c, s, s', n, [Dispatched(item.id)]);
    }
  }

  lemma SameStories(c: Config, s: State, s': State)
    requires StoryInv(c, s) && s'.log == s.log && s'.pushed == s.pushed && s'.used == s.used && s'.calls == s.calls
    requires forall k :: 0 <= k < |s.pushed| && !s.pushed[k].Null? ==> Story(c, s', k) == Story(c, s, k)
    ensures StoryInv(c, s')
  {
  }

  lemma PopKeepsStories(c: Config, s: State)
    requires Inv(c, s) && StoryInv(c, s) && s.wpc.WPop? && PopStep(s).Some?
    ensures StoryInv(c, PopStep(s).value)
  {
    PopEffect(s);
    assert s.pushed[|s.popped|] == s.queue[0];
    PopStory(c, s, PopStep(s).value, s.queue[0]);
  }

  lemma LifeKeepsStories(c: Config, s: State)
    requires Inv(c, s) && StoryInv(c, s) && !InLoop(s.wpc) && LifeStep(c, s).Some?
    ensures StoryInv(c, LifeStep(c, s).value)
  {
    var s' := LifeStep(c, s).value;
    LifeLogs(c, s);
    LifeEffect(c, s);
    forall id ensures OfId(s'.log, id) == OfId(s.log, id) {
      if LifeEvent(c, s.wpc) != [] {
        OfIdAfter(s.log, LifeEvent(c, s.wpc)[0], id);
      } else {
        assert s'.log == s.log;
      }
    }
    QuietStories(c, s, s');
  }

  lemma WorkKeepsStories(c: Config, s: State)
    requires Inv(c, s) && StoryInv(c, s) && WorkStep(c, s).Some?
    ensures StoryInv(c, WorkStep(c, s).value)
  {
    if s.wpc.WPop? {
      PopKeepsStories(c, s);
    } else if Busy(s.wpc) {
      BusyKeepsStories(c, s);
    } else {
      LifeKeepsStories(c, s);
    }
  }

  lemma RunKeepsStories(c: Config, s: State)
    requires Inv(c, s) && StoryInv(c, s) && RunStep(c, s).Some?
    ensures StoryInv(c, RunStep(c, s).value)
  {
    RunFrame(c, s);
    RunLogs(c, s);
    QuietStories(c, s, RunStep(c, s).value);
  }

  lemma RunLogs(c: Config, s: State)
    requires RunStep(c, s).Some?
    ensures RunStep(c, s).value.log == s.log
  {
  }

  lemma TermKeepsStories(c: Config, s: State, i: nat)
    requires Inv(c, s) && StoryInv(c, s) && i < |s.terms| && TermStep(c, s, i).Some?
    ensures StoryInv(c, TermStep(c, s, i).value)
  {
    TermLogs(c, s, i);
    if !s.terms[i].TPush? {
      TermFrame(c, s, i);
    }
    QuietStories(c, s, TermStep(c, s, i).value);
  }

  // ----- Clients

  /** `id` becomes known with event `e`; `item` is pushed for it, or nothing is. */
  lemma PushStory(c: Config, s: State, s': State, item: Item)
    requires StoryInv(c, s) && IdInv(s) && QueueInv(c, s) && !item.Null?
    requires s'.pushed == s.pushed + [item] && s'.popped == s.popped && s'.wpc == s.wpc && s'.log == s.log + [Sent(item.id)]
    requires OnlyCall(s.calls, s'.calls, item.id) && s'.used == s.used + {item.id}
    requires if item.Rpc? then item.id in s.calls && s.calls[item.id].stage.Called? && s'.calls[item.id].stage.Queued?
             else item.id !in s.used && s'.calls == s.calls
    ensures StoryInv(c, s')
  {
    hide SoFar, ItemTrace;
    forall id ensures OfId(s'.log, id) == if id == item.id then OfId(s.log, id) + [Sent(id)] else OfId(s.log, id) {
      OfIdAfter(s.log, Sent(item.id), id);
    }
    forall k | 0 <= k < |s'.pushed| && !s'.pushed[k].Null?
      ensures OfId(s'.log, s'.pushed[k].id) == Story(c, s', k)
    {
      if k < |s.pushed| {
        assert !HasId(s.pushed[k], item.id);
        StoryOfOther(c, s, s', k, item);
      } else {
        StoryOfNew(c, s, s', item);
      }
    }
  }

  lemma StoryOfOther(c: Config, s: State, s': State, k: nat, item: Item)
    requires k < |s.pushed| && !s.pushed[k].Null? && !item.Null? && s.pushed[k].id != item.id
    requires s'.pushed == s.pushed + [item] && s'.popped == s.popped && s'.wpc == s.wpc
    requires OnlyCall(s.calls, s'.calls, item.id)
    ensures Story(c, s', k) == Story(c, s, k)
  {
    assert During(c, s', k) == During(c, s, k);
  }

  /** So far it has only been called, if it is an rpc, and sent. */
  lemma StoryOfNew(c: Config, s: State, s': State, item: Item)
    requires StoryInv(c, s) && QueueInv(c, s) && !item.Null?
    requires s'.pushed == s.pushed + [item] && s'.popped == s.popped && s'.wpc == s.wpc
    requires if item.Rpc? then item.id in s.calls && s.calls[item.id].stage.Called?
                               && item.id in s'.calls && s'.calls[item.id].stage.Queued?
             else item.id !in s.used && item.id !in s'.calls
    ensures Story(c, s', |s.pushed|) == OfId(s.log, item.id) + [Sent(item.id)]
  {
  }

  lemma CallStory(c: Config, s: State, s': State, id: nat)
    requires StoryInv(c, s) && IdInv(s) && id !in s.used && s'.pushed == s.pushed && s'.popped == s.popped
    requires s'.wpc == s.wpc && s'.log == s.log + [Calling(id)] && s'.used == s.used + {id}
    requires id in s'.calls && s'.calls == s.calls[id := s'.calls[id]] && s'.calls[id].stage.Called?
    ensures StoryInv(c, s')
  {
    forall i ensures OfId(s'.log, i) == if i == id then OfId(s.log, i) + [Calling(id)] else OfId(s.log, i) {
      OfIdAfter(s.log, Calling(id), i);
    }
    forall k | 0 <= k < |s'.pushed| && !s'.pushed[k].Null?
      ensures OfId(s'.log, s'.pushed[k].id) == Story(c, s', k)
    {
      assert During(c, s', k) == During(c, s, k);
      assert Story(c, s', k) == Story(c, s, k);
    }
  }

  lemma ReturnStory(c: Config, s: State, s': State, id: nat, n: nat)
    requires StoryInv(c, s) && IdInv(s) && id in s.calls && s.calls[id].stage.Ready?
    requires n < |s.pushed| && s.pushed[n].Rpc? && s.pushed[n].id == id
    requires s'.pushed == s.pushed && s'.popped == s.popped && s'.wpc == s.wpc && s'.used == s.used
    requires s'.calls == s.calls[id := s.calls[id].(stage := Returned)]
    requires s'.log == s.log + [Returning(id, s.calls[id].reply, s.calls[id].error)]
    ensures StoryInv(c, s')
  {
    forall k | 0 <= k < |s.pushed| && k != n && !s.pushed[k].Null?
      ensures Story(c, s', k) == Story(c, s, k)
    {
      assert !HasId(s.pushed[k], s.pushed[n].id);
      OtherStory(c, s, s', k, id);
    }
    assert During(c, s', n) == During(c, s, n);
    assert Story(c, s', n) == Story(c, s, n) + [Returning(id, s.calls[id].reply, s.calls[id].error)];
    OneStory(c, s, s', n, [Returning(id, s.calls[id].reply, s.calls[id].error)]);
  }

  lemma ClientKeepsStories(c: Config, s: State, a: Action)
    requires Inv(c, s) && StoryInv(c, s) && ClientStep(s, a).Some?
    ensures StoryInv(c, ClientStep(s, a).value)
  {
    hide StoryInv, LockInv, RunInv, JoinInv, TermInv, ErrorInv;
    var s' := ClientStep(s, a).value;
    match a
    case Send(id, tag) => PushStory(c, s, s', Msg(id, tag));
    case CallRpc(id, tag) => CallStory(c, s, s', id);
    case PushRpc(id) =>
      assert s.used + {id} == s.used;
      PushStory(c, s, s', Rpc(id, s.calls[id].tag));
    case ReturnRpc(id) =>
      var n :| 0 <= n < |s.pushed| && s.pushed[n] == Rpc(id, s.calls[id].tag);
      ReturnStory(c, s, s', id, n);
    case _ =>
  }

  lemma StepKeepsStories(c: Config, s: State, a: Action)
    requires Inv(c, s) && StoryInv(c, s) && Step(c, s, a).Some?
    ensures StoryInv(c, Step(c, s, a).value)
  {
    match a
    case Run => RunKeepsStories(c, s);
    case Work => WorkKeepsStories(c, s);
    case Terminate(i) => TermKeepsStories(c, s, i);
    case _ => ClientKeepsStories(c, s, a);
  }

  lemma {:induction false} RunsStories(c: Config, acts: seq<Action>)
    requires Runs(c, acts).Some?
    ensures StoryInv(c, Runs(c, acts).value)
    decreases |acts|
  {
    if acts != [] {
      var before := acts[..|acts| - 1];
      RunsInv(c, before);
      RunsStories(c, before);
      StepKeepsStories(c, Runs(c, before).value, acts[|acts| - 1]);
    }
  }
}
