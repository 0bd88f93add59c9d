/**
 The body of the worker thread (tecc_worker.c:34-100) on the real queue and the real table of
 callbacks, run against a queue that holds a NULL already, so that no pop waits.
 */
module WorkerLoop {
  import opened Options
  import opened Worker
  import opened WorkerInvariant
  import opened WorkerLog
  import Map
  import Queue

  /** A tag as the key of its callback. */
  function KeyOf(tag: Tag): Map.Key {
    Map.CString(tag)
  }

  /** The table holds a callback, a pointer other than NULL, for exactly the registered tags. */
  ghost predicate IsTableOf(callbacks: Map.TecMap, registered: set<Tag>)
    reads callbacks
  {
    forall tag :: tag in registered <==>
      KeyOf(tag) in callbacks.contents && callbacks.contents[KeyOf(tag)] != 0
  }

  /** TecWorker_register_: a callback for one more tag, or NULL for one less. */
  method Register(callbacks: Map.TecMap, tag: Tag, callback: nat, ghost registered: set<Tag>)
    requires callbacks.Valid() && IsTableOf(callbacks, registered)
    modifies callbacks, callbacks.nodes, callbacks.repr
    ensures callbacks.Valid() && callbacks.nodes == old(callbacks.nodes) && fresh(callbacks.repr - old(callbacks.repr))
    ensures IsTableOf(callbacks, if callback != 0 then registered + {tag} else registered - {tag})
  {
    hide Map.TecMap.Valid;
    var before := callbacks.Set(KeyOf(tag), callback);
  }

  function Tags(tags: seq<Tag>): set<Tag> {
    set tag | tag in tags
  }

  /** Registering tags one after the other gives the table of exactly these tags, whatever they are. */
  method TableOf(tags: seq<Tag>, size: nat, callback: nat) returns (callbacks: Map.TecMap)
    requires callback != 0
    ensures fresh(callbacks) && callbacks.Valid()
    ensures IsTableOf(callbacks, Tags(tags))
  {
    hide Map.TecMap.Valid;
    callbacks := Map.Init(size);
    for i := 0 to |tags|
      invariant fresh(callbacks) && fresh(callbacks.nodes) && fresh(callbacks.repr) && callbacks.Valid()
      invariant IsTableOf(callbacks, Tags(tags[..i]))
    {
      Register(callbacks, tags[i], callback, Tags(tags[..i]));
      assert Tags(tags[..i + 1]) == Tags(tags[..i]) + {tags[i]};
    }
    assert tags[..|tags|] == tags;
  }

  // ----- The RPC objects of the callers

  /** What on_rpc leaves in the RPC object of a call: the handler's reply and error, or that there is none. */
  function Answer(c: Config, item: Item, k: Call): Call
    requires item.Rpc?
  {
    if item.tag in c.registered then k.(reply := c.reply(item.id), error := c.rerr(item.id), stage := Ready)
    else k.(error := HANDLER_NOT_FOUND, stage := Ready)
  }

  function Answers(c: Config, calls: map<nat, Call>, items: seq<Item>): (r: map<nat, Call>)
    ensures r.Keys == calls.Keys
  {
    if items == [] then calls
    else
      var before := Answers(c, calls, items[..|items| - 1]);
      var item := items[|items| - 1];
      if item.Rpc? && item.id in calls then before[item.id := Answer(c, item, before[item.id])] else before
  }

  /** The fields of an RPC object that has been answered. */
  predicate Answered(c: Config, item: Item, before: Call, after: Call)
    requires item.Rpc?
  {
    && after.stage.Ready? && after.tag == before.tag
    && (item.tag in c.registered ==> after.reply == c.reply(item.id) && after.error == c.rerr(item.id))
    && (item.tag !in c.registered ==> after.reply == before.reply && after.error == -2)
  }

  /**
   With distinct ids each rpc is ready with the handler's reply and error, or without a handler with -2
   and its reply untouched, and nobody else's object is touched.
   */
  lemma {:induction false} AnswersAre(c: Config, calls: map<nat, Call>, items: seq<Item>, id: nat)
    requires id in calls
    requires forall i, j :: 0 <= i < j < |items| && HasId(items[i], id) ==> !HasId(items[j], id)
    ensures forall k :: 0 <= k < |items| && items[k].Rpc? && HasId(items[k], id) ==>
      Answered(c, items[k], calls[id], Answers(c, calls, items)[id])
    ensures (forall k :: 0 <= k < |items| && items[k].Rpc? ==> !HasId(items[k], id)) ==>
      Answers(c, calls, items)[id] == calls[id]
  {
    if items != [] {
      AnswersAre(c, calls, items[..|items| - 1], id);
    }
  }

  lemma WorkTwice(c: Config, s: State, n: nat)
    requires Exec(c, s, seq(n, _ => Work)).Some?
    ensures Exec(c, s, seq(n + 1, _ => Work)) == WorkStep(c, Exec(c, s, seq(n, _ => Work)).value)
  {
    hide WorkStep;
    var more := seq(n + 1, _ => Work);
    assert more[..n] == seq(n, _ => Work) && more[n] == Work;
  }

  /** In module Worker the steps from the pop of an rpc to sig_ready leave the same answer and the same events. */
  lemma MachineAnswers(c: Config, s: State, id: nat, tag: Tag) returns (n: nat)
    requires s.wpc == WGot(Rpc(id, tag)) && id in s.calls
    ensures Exec(c, s, seq(n, _ => Work)).Some?
    ensures var e := Exec(c, s, seq(n, _ => Work)).value;
      && e.wpc == WPop && e.calls == Answers(c, s.calls, [Rpc(id, tag)])
      && e.log == s.log + ItemTrace(c, Rpc(id, tag))[1..]
  {
    hide Exec, LifeStep, PopStep, OnMsg;
    var item := Rpc(id, tag);
    n := if tag in c.registered then 4 else 3;
    ExecNothing(c, s);
    WorkTwice(c, s, 0);
    WorkTwice(c, s, 1);
    WorkTwice(c, s, 2);
    if tag in c.registered {
      WorkTwice(c, s, 3);
    }
    assert [item][..0] == [] && [item][0] == item;
  }

  lemma ExecNothing(c: Config, s: State)
    ensures Exec(c, s, seq(0, _ => Work)) == Some(s)
  {
  }

  lemma {:induction false} AheadIs(items: seq<Item>, k: nat)
    requires k < |items| && items[k] == Null && Null !in items[..k]
    ensures AheadOfNull(items) == items[..k]
  {
    if k > 0 {
      assert items[..k][0] == items[0];
      assert items[1..][..k - 1] == items[..k][1..];
      AheadIs(items[1..], k - 1);
      assert items[..k] == [items[0]] + items[1..][..k - 1];
    }
  }

  lemma NotEmpty(queue: Queue.TecQueue<Item>)
    requires queue.Valid() && queue.Contents() != []
    ensures queue.head != null
  {
  }

  lemma Split(items: seq<Item>, k: nat, item: Item, rest: seq<Item>)
    requires k < |items| && items[k..] == [item] + rest
    ensures item == items[k] && rest == items[k + 1..]
  {
    assert items[k..][1..] == rest;
  }

  lemma FlatNothing(c: Config, before: seq<Event>, items: seq<Item>)
    ensures before == before + Flat(c, items[..0])
  {
  }

  lemma FlatNext(c: Config, before: seq<Event>, items: seq<Item>, k: nat)
    requires k < |items|
    ensures before + Flat(c, items[..k + 1]) == before + Flat(c, items[..k]) + ItemTrace(c, items[k])
  {
    assert items[..k + 1][..k] == items[..k];
    Associative(before, Flat(c, items[..k]), ItemTrace(c, items[k]));
  }

  lemma AnswersNothing(c: Config, calls: map<nat, Call>, items: seq<Item>)
    ensures calls == Answers(c, calls, items[..0])
  {
  }

  lemma AnswersNext(c: Config, calls: map<nat, Call>, items: seq<Item>, k: nat)
    requires k < |items|
    ensures Answers(c, calls, items[..k + 1]) == Answers(c, Answers(c, calls, items[..k]), [items[k]])
  {
    assert items[..k + 1][..k] == items[..k] && [items[k]][..0] == [];
  }

  /** The sequential program behind a log. */
  lemma SequentialAfter(c: Config, before: seq<Event>, items: seq<Item>)
    requires Null in items
    ensures before + SequentialTrace(c, items) ==
      if InitResult(c) != 0 then before + InitTrace(c)
      else before + InitTrace(c) + Flat(c, AheadOfNull(items)) + ExitTrace(c)
  {
    hide Flat, AheadOfNull, InitTrace, ExitTrace;
    Associative(before, InitTrace(c), Flat(c, AheadOfNull(items)));
    Associative(before, InitTrace(c) + Flat(c, AheadOfNull(items)), ExitTrace(c));
  }

  /** Every queued rpc points to the RPC object of a caller that waits for it. */
  ghost predicate Waited(items: seq<Item>, calls: map<nat, Call>) {
    forall i :: 0 <= i < |items| && items[i].Rpc? ==> items[i].id in calls
  }

  /**
   The fields of a TecWorker that the thread uses. `log` records what it does; `runningAt` and
   `terminatedAt` are the length of the log at the time each signal is set.
   */
  class TecWorker {
    const config: Config
    const queue: Queue.TecQueue<Item>
    const callbacks: Map.TecMap
    var error: int
    var sigRunning: bool
    var sigTerminated: bool
    var calls: map<nat, Call>
    var log: seq<Event>
    ghost var runningAt: nat
    ghost var terminatedAt: nat

    constructor (config: Config, queue: Queue.TecQueue<Item>, callbacks: Map.TecMap, calls: map<nat, Call>)
      ensures this.config == config && this.queue == queue && this.callbacks == callbacks && this.calls == calls
      ensures error == 0 && !sigRunning && !sigTerminated && log == []
    {
      this.config, this.queue, this.callbacks, this.calls := config, queue, callbacks, calls;
      error, sigRunning, sigTerminated, log := 0, false, false, [];
    }

    /** Queue and table are in order, and the table holds the registered callbacks. */
    ghost predicate Valid()
      reads queue, queue.nodes, callbacks, callbacks.nodes, callbacks.repr
    {
      queue.Valid() && callbacks.Valid() && IsTableOf(callbacks, config.registered)
    }

    method Find(tag: Tag) returns (callback: nat)
      requires Valid()
      ensures callback != 0 <==> tag in config.registered
    {
      hide Map.TecMap.Valid;
      callback := callbacks.Get(KeyOf(tag));
    }

    /** on_msg */
    method OnMsg(item: Item)
      requires Valid() && item.Msg?
      modifies this`log
      ensures Valid()
      ensures log == old(log) + ItemTrace(config, item)[1..]
    {
      hide Valid;
      var callback := Find(item.tag);
      if callback != 0 {
        log := log + [Began(item.id), Ended(item.id)];
      }
      log := log + [Freed(item.id)];
    }

    /** on_rpc; the handler answers through the RPC object. */
    method OnRpc(item: Item)
      requires Valid() && item.Rpc? && item.id in calls
      modifies this`log, this`calls
      ensures Valid()
      ensures log == old(log) + ItemTrace(config, item)[1..]
      ensures calls == old(calls)[item.id := Answer(config, item, old(calls)[item.id])]
      ensures Answered(config, item, old(calls)[item.id], calls[item.id])
    {
      hide Valid;
      var callback := Find(item.tag);
      var rpc := calls[item.id].(error := 0);
      if callback != 0 {
        log := log + [Began(item.id), Ended(item.id)];
        rpc := rpc.(reply := config.reply(item.id), error := config.rerr(item.id));
      } else {
        rpc := rpc.(error := HANDLER_NOT_FOUND);
      }
      log := log + [Readied(item.id)];
      calls := calls[item.id := rpc.(stage := Ready)];
    }

    /** dispatch */
    method Dispatch(item: Item)
      requires Valid() && !item.Null? && Waited([item], calls)
      modifies this`log, this`calls
      ensures Valid()
      ensures log == old(log) + ItemTrace(config, item)
      ensures calls == Answers(config, old(calls), [item])
      ensures item.Rpc? ==> item.id in calls && Answered(config, item, old(calls)[item.id], calls[item.id])
    {
      hide Valid;
      ghost var before := log;
      assert [item][0] == item && [item][..0] == [];
      log := log + [Dispatched(item.id)];
      if item.Rpc? {
        OnRpc(item);
      } else {
        OnMsg(item);
      }
      assert ItemTrace(config, item) == [Dispatched(item.id)] + ItemTrace(config, item)[1..];
      Associative(before, [Dispatched(item.id)], ItemTrace(config, item)[1..]);
    }

    /** on_init and sig_running. */
    method Begin()
      modifies this`error, this`log, this`sigRunning, this`runningAt
      ensures error == (if old(error) != 0 then old(error) else InitResult(config))
      ensures log == (if old(error) != 0 then old(log) else old(log) + InitTrace(config))
      ensures sigRunning && runningAt == |log|
    {
      if config.onInit.Some? && error == 0 {
        error := config.onInit.value;
        log := log + [Inited(error)];
      }
      sigRunning, runningAt := true, |log|;
    }

    /** on_exit and sig_terminated. */
    method End()
      modifies this`error, this`log, this`sigTerminated, this`terminatedAt
      ensures error == if old(error) == 0 && config.onExit.Some? then config.onExit.value else old(error)
      ensures log == if old(error) == 0 && config.onExit.Some? then old(log) + [Exited(error)] else old(log)
      ensures sigTerminated && terminatedAt == |log|
    {
      if config.onExit.Some? && error == 0 {
        error := config.onExit.value;
        log := log + [Exited(error)];
      }
      sigTerminated, terminatedAt := true, |log|;
    }

    /** The loop between the two signals. */
    method MessageLoop()
      requires Valid()
      requires Null in queue.Contents() && Waited(queue.Contents(), calls)
      modifies this`log, this`calls, queue
      ensures Valid()
      ensures log == old(log) + Flat(config, AheadOfNull(old(queue.Contents())))
      ensures calls == Answers(config, old(calls), AheadOfNull(old(queue.Contents())))
      ensures queue.Contents() == old(queue.Contents())[|AheadOfNull(old(queue.Contents()))| + 1..]
    {
      hide Map.TecMap.Valid, Queue.TecQueue.Valid, Queue.TecQueue.Contents, IsTableOf;
      hide Flat, AheadOfNull, ItemTrace, Answers, Answer;
      ghost var items := queue.Contents();
      ghost var k := 0;
      FlatNothing(config, log, items);
      AnswersNothing(config, calls, items);
      while true
        invariant Valid() && k <= |items| && queue.Contents() == items[k..]
        invariant Null in items[k..] && Null !in items[..k]
        invariant log == old(log) + Flat(config, items[..k])
        invariant calls == Answers(config, old(calls), items[..k])
        decreases |items| - k
      {
        NotEmpty(queue);
        var item := queue.Pop();
        Split(items, k, item, queue.Contents());
        if item.Null? {
          break;
        }
        FlatNext(config, old(log), items, k);
        AnswersNext(config, old(calls), items, k);
        Dispatch(item);
        k := k + 1;
      }
      AheadIs(items, k);
    }

    /**
     worker_func. What the thread does and returns is what the sequential program does, every rpc ahead
     of the first NULL is answered, sig_running is set behind on_init and before anything else, and
     sig_terminated at the very end. With an error set beforehand only the signals are set.
     */
    method WorkerFunc() returns (result: int)
      requires Valid()
      requires Null in queue.Contents() && Waited(queue.Contents(), calls)
      modifies this, queue
      ensures Valid()
      ensures sigRunning && sigTerminated && terminatedAt == |log| && result == error
      ensures old(error) == 0 ==>
        && log == old(log) + SequentialTrace(config, old(queue.Contents()))
        && runningAt == |old(log)| + |InitTrace(config)|
        && error == FinalResult(config)
      ensures old(error) != 0 ==> log == old(log) && runningAt == |log| && error == old(error)
      ensures var items := old(queue.Contents());
        if old(error) != 0 || InitResult(config) != 0 then queue.Contents() == items && calls == old(calls)
        else queue.Contents() == items[|AheadOfNull(items)| + 1..] && calls == Answers(config, old(calls), AheadOfNull(items))
    {
      hide Valid, Queue.TecQueue.Contents, Flat, AheadOfNull, Answers, Waited, SequentialTrace, InitTrace;
      SequentialAfter(config, log, queue.Contents());
      Begin();
      if error == 0 {
        MessageLoop();
      }
      End();
      result := error;
    }
  }
}
