# TECC, modelled and proved in Dafny

TECC is a small C concurrency library. This project models its concurrency protocols and the heap
structures under them, and proves their main properties for every input, every interleaving or every
sequence of operations. `dafny verify dfyconfig.toml` checks the whole project.

## How it is modelled

**Protocols** are interleaving machines: a `State`, a list of actions, and a function `Step` (or
`Next`) that gives the next state or `None` while the acting thread is blocked. One action is one lock,
unlock, wait, signal, atomic load or store, pop, dispatch or join. `Run` / `Runs` folds `Step` over any
list of actions, so a theorem about it speaks of every reachable state of every schedule, with any
number of threads. Ghost histories (`pushed`, `popped`, `log`, `ran`, `seen`, `dispatched`) say what happened. What clients gave is
read off the list of actions (`WorkerInputs.Pushes`, `ThreadPoolTheorems.Takes`, `ServiceTheorems.Accepted`),
and the results are stated on that.

- `Signal`: the latch, with its load outside the mutex, spurious wakeups and timed waiters.
- `QueueProtocol`: the blocking queue, with any number of producers and consumers, spurious wakeups
  and consumers that take the mutex ahead of a woken one. `Queue` is its linked list on real nodes.
- `Worker*`: the message loop with run, terminate, send and rpc. `WorkerLoop` is the same thread body
  as imperative code over the real queue and the real table of callbacks. `WorkerRpc` says which calls
  return, `WorkerOrder` that they take effect in real-time order.
- `Service*`: the service worker that drives the TCP server, four threads and five signals, on top of
  the worker machine; `ServiceProgress` bounds start and stop.
- `ThreadPool*`, `Tickets`, `TaskIsolation`: round-robin dispatch with one arena bookkeeping per node,
  drain at shutdown, the arithmetic of the ticket counter, and what a task sees of its payload.

The worker, service and pool machines use a signal as an atomic latch and a queue as an atomic FIFO whose
pop blocks. `AtomicLatch` and `AtomicQueue` justify that: every run of `Signal` and of `QueueProtocol` is,
with its locking left out, a run of one of these. `Composed*` puts the two protocols into the worker: one
queue and all its signals, step by step. Its runs show runs of `Worker`, and every schedule of it comes to
rest with nobody left waiting who is owed an answer (`ComposedProgress.ComesToRest`). The service and pool
machines rest on `Signal.EveryRunEnds` and `QueueProtocol.EverybodyServed`.

**Structures** are classes with the fields of the C structs, changed in place by methods whose
postconditions give the new value of an abstract model: `Arena.TecArena` on addresses and header words
(model: a set of slots), `Map.TecMap` and `MapIteration.MapIter` on doubly linked nodes (model: a
`map`), `Buffer.TecBuffer` on an array (model: bytes and a position), `Hex` on top of it, `Fnv` for the
hash. `Queue.TecQueue` belongs here too.

## Where the code does less than one expects

Each of these is a theorem with the exact condition.

- `run` reads `w->error` after it has released the lock (`tecc_worker.c:131-132`). If a terminate may
  start before `run` has returned, the worker thread can run `on_exit` first and `run` returns its
  result. `WorkerLifecycle.RunReturnsInitResultIff` gives the condition, `RunCanReturnExitResult` the
  runs. The service worker is not affected, since its two callbacks return the same field
  (`ServiceTheorems.RunReturnsStartError`).
- The caller of an rpc can be blocked for ever. Its call can return exactly if `on_init` succeeds and no
  NULL was pushed ahead of it (`WorkerRpc.RpcReturnsIff`).
- An empty buffer grows to one block whatever was asked, so the first `TecBuffer_write` must fit into a
  block (`BufferModel.GrowthSufficesIff`, `FirstRequestTooLarge`); `Buffer.TecBuffer.Write` returns None
  exactly where the code would copy past its block. `TecBuffer_puts` is not affected, since it makes its
  request twice (`BufferModel.GrownTwice`, `Buffer.PutSeries`). The initial size given to the constructor
  is subject to the same rule. The loop at `tecc_buffer.c:79-82` is never entered, as the new capacity is
  never below the old one.
- The ticket counter is an `int`. Once it wraps, tickets stay in cyclic order only if the number of
  threads divides 2^32 (`Tickets.CyclicForeverIff`). Otherwise the loads of some two nodes drift apart
  without bound, by one or two enqueues at every wrap (`Tickets.BalancedForeverIff`, `DriftsApart`).
- Payload and buffer belong to a node. Whatever discipline the clients keep in taking tickets and
  starting copies, every task sees its own payload in every run exactly if no copy starts on a node
  while a task with a function is still to read that node's region, or while another copy is in
  progress and one of the two tasks has a function (`TaskIsolation.IsolatedIffClean`). Letting each task
  finish before the enqueue `nthreads` later begins is enough, below the wrap (`WindowIsolates`).
- A put behind a NUL makes the file one byte shorter before it writes. When the string ends inside the
  file, the byte that is lost is the last one of the file, not the NUL (`BufferModel.PutsBehindNul`).
- Hexadecimal printing indexes a table by a `char`: with a signed `char` it is safe exactly for bytes
  below 0x80 (`HexModel.SafeIff`). `Hex.ToHexChars`, `AsHex` and `AsTable` report the other bytes.
- A table that starts at byte 32 or later begins with blank cells from byte 0 on but labels its first
  row with the offset of `start`, so its labels do not match its bytes (`Hex.LabelsMatchIff`).

## Model

| member | source | states |
|---|---|---|
| Signal.NoWakeupIsLost | tecc_signal.c:48-82 | In every run, while a waiter sleeps or is about to sleep after reading 0, the value is 0 or a setter is between its store and its broadcast; once a setter has completed nobody stays asleep |
| Signal.WaitReturnsAfterSet | tecc_signal.c:64-113 | A wait that has returned 0 observed the value 1; only a timed wait returns an error |
| Signal.TimedWaitReturns | tecc_signal.c:85-113 | A timed wait returns ETIMEDOUT, 110, exactly if its waiting has timed out, and every other completed call 0 |
| Signal.ValueStays | tecc_signal.c:48-50 | Once 1, the value is 1 in every continuation |
| Signal.StepKeepsInv | tecc_signal.c:48-113 | Every step of every thread keeps the mutex, program-counter and wakeup invariants |
| Signal.QuietMeansDone | tecc_signal.c:48-113 | If there is a setter and nothing but spurious wakeups can happen, every thread has returned |
| Signal.EverybodyReturns | tecc_signal.c:48-113 | Once the value is 1, any schedule has at most 7 steps per thread left, and when only spurious wakeups are possible everybody has returned |
| Signal.EveryRunEnds | tecc_signal.c:48-113 | From the start every schedule has at most 8 steps per thread and 3 per spurious wakeup, besides these wakeups; with a setter everybody has returned at its end |
| AtomicLatch.StepRefines | tecc_signal.c:48-113 | Every step of the signal is a step of an atomic latch by the same thread, or does not show: a set takes effect with its store, a wait passes only at a read of 1, only a timed wait gives up |
| AtomicLatch.RunRefines | tecc_signal.c:48-113 | So every run of the signal is, with its locking left out, a run of the latch |
| QueueProtocol.FirstInFirstOut | tecc_queue.c:55-86 | Popped objects followed by queued ones are the pushed ones in order, in every reachable state |
| QueueProtocol.DeliveredOnce | tecc_queue.c:55-86 | Of every object, the copies pushed are the copies consumers got plus the copies queued: none lost, invented or delivered twice |
| QueueProtocol.WokenCoverItems | tecc_queue.c:67-75 | With the mutex free and a consumer asleep, the queue is no longer than the number of woken consumers that have not run |
| QueueProtocol.QuietMeansServed | tecc_queue.c:55-86 | If only spurious wakeups are possible, all pushes are complete, and all pops too unless the queue is empty |
| QueueProtocol.EverybodyServed | tecc_queue.c:55-86 | Every schedule has at most 8 steps per call and 4 per spurious wakeup, besides these wakeups, and at its end all pushes are complete, and all pops too unless the queue is empty |
| QueueProtocol.StepKeepsInv | tecc_queue.c:55-86 | Every step keeps the queue invariant, from which the four results above follow |
| AtomicQueue.StepRefines | tecc_queue.c:55-86 | Every step of the queue protocol is an atomic push or an atomic pop of the head by the same thread, or does not show |
| AtomicQueue.RunRefines | tecc_queue.c:55-86 | So every run of the protocol is, with its locking left out, a run of a FIFO whose pop blocks |
| Queue.TecQueue.Push | tecc_queue.c:55-69 | head, tail and next stay an acyclic chain; the object is appended |
| Queue.TecQueue.Pop | tecc_queue.c:77-85 | The first object is unlinked and returned, and the histories agree |
| Queue.TecQueue.Done | tecc_queue.c:41-52 | The loop ends and frees every node once |
| WorkerInvariant.StepKeepsInv | tecc_worker.c:34-166 | Lock ownership, phases, join state, errors, queue and rpc records stay consistent under every step of the runner, the worker, the terminators and the clients |
| WorkerTheorems.LoopRefinesSequentialProgram | tecc_worker.c:34-100 | What the worker thread does in any run is a prefix of, and at its end equal to, a sequential program: on_init, every item ahead of the first NULL in push order, on_exit; nothing but on_init if that fails |
| WorkerInputs.PushedIsGiven | tecc_worker.c:135-161 | In every run the items pushed are, in order, the messages given to send with their tags, the requests given to rpc with theirs, and one NULL for each terminate |
| WorkerInputs.CallsAreGiven | tecc_worker.c:155-166 | In every run the calls are those made by rpc, each with the tag of its own request, pushed and returned exactly if its caller has done so |
| WorkerInputs.SendIsPushed | tecc_worker.c:149-152 | Every message sent is pushed with its tag, and no other |
| WorkerTheorems.FirstAndLast | tecc_worker.c:34-57 | A finished thread has run nothing but a failing on_init; else on_init before and on_exit behind everything, each if there is one |
| WorkerTheorems.MessageLife | tecc_worker.c:61-70 | A message sent ahead of the first NULL is dispatched once, handled once if the tag given to send has a handler and freed once; behind it, it is only sent |
| WorkerTheorems.RpcRunsOnce | tecc_worker.c:73-87 | An rpc that was called with a request and has returned was handled exactly once in between, if the tag of that request has a handler, and returns the reply and error of that run; else it was not handled and returns -2 with its reply untouched |
| WorkerTheorems.RpcIsServed | tecc_worker.c:73-166 | An rpc ahead of the first NULL is served within a bounded number of worker steps under every schedule, and until then the worker thread is never blocked |
| WorkerTheorems.RpcBehindNullBlocks | tecc_worker.c:42-46 | An rpc pushed behind a NULL is still queued in every reachable state, and its caller cannot return there |
| WorkerRpc.RpcReturnsIff | tecc_worker.c:34-166 | From any reachable state the call of a pushed rpc can return exactly if on_init succeeds and no NULL is ahead of it |
| WorkerRpc.NeverReturns | tecc_worker.c:34-57 | Behind a NULL, or after a failed on_init, no continuation has it returned |
| WorkerRpc.Returns | tecc_worker.c:34-166 | Otherwise a continuation in which only run, the worker thread and the caller move has it returned |
| WorkerOrder.CallsInOrder | tecc_worker.c:73-166 | Real-time order: if one rpc has returned before another is made, all of its events, its handler's run included, come before all events of the other, in every run |
| WorkerOrder.SilentAfterReturn | tecc_worker.c:73-166 | Once a call has returned, no continuation logs anything more about it |
| ComposedInvariant.StepRefines | tecc_worker.c:34-166 | With the protocols of tecc_queue.c and tecc_signal.c in place of the one-step queue and signals, every step is a step of module Worker by the same thread, or does not show |
| ComposedLinks.StepKeepsInv | tecc_worker.c:34-166 | Every step keeps the invariants of all protocols and of the worker, and what ties them to where each thread stands |
| ComposedTheorems.RunRefines | tecc_worker.c:34-166 | So every run of the composed worker shows a run of module Worker with the same calls and messages, and all that holds in its reachable states holds here |
| ComposedTheorems.MovesTogether | tecc_worker.c:34-166 | No wakeup is lost: while module Worker lets run, the worker thread, a terminate or a caller move, somebody can move in the composed worker without a spurious wakeup |
| ComposedTheorems.ProgramOrder | tecc_worker.c:34-166 | A thread does one thing at a time: what shows as its step happens outside every call of push, pop, set and wait, or is the step by which such a call takes effect; the thread is joined only after its last call |
| ComposedProgress.ComesToRest | tecc_worker.c:34-166 | Every schedule has at most 35 steps, 32 per terminate, 30 per new message or call and 4 per spurious wakeup, besides these; when no step is owed run and every terminate have returned, every push is complete, and so is every rpc ahead of the first NULL if on_init succeeds; every message sent and rpc called has been pushed with its tag |
| WorkerLifecycle.RunReturnsInitResultIff | tecc_worker.c:110-133 | run returns the on_init result in every run exactly if on_exit cannot overtake its last read |
| WorkerLifecycle.RunCanReturnExitResult | tecc_worker.c:131-132 | A run in which run returns the on_exit result, whenever terminate may overlap |
| WorkerLifecycle.JoinedOnce | tecc_threads.h:122-125 | The thread is joined at most once under any number of terminators, exactly once when one has returned, and all return the final error; a failed run has joined it and handled nothing |
| WorkerLifecycle.TerminateReturns | tecc_worker.c:137-146 | terminate returns on_init's error if that failed, else what on_exit returned, else 0 |
| WorkerLifecycle.NobodyIsStuck | tecc_worker.c:110-146 | In every reachable state run and all terminates have returned, or one of them or the worker thread can move |
| WorkerLifecycle.TerminateFinishes | tecc_worker.c:136-146 | After a NULL is pushed the worker thread finishes within a bounded number of its steps whatever clients send, and is never blocked before |
| WorkerLoop.Register | tecc_worker.c:222-226 | Registering a callback adds its tag to the table, registering NULL takes it out, no other tag is touched |
| WorkerLoop.TableOf | tecc_worker.c:222-226 | Registering any finite series of tags gives the table of exactly these tags |
| WorkerLoop.TecWorker.Dispatch | tecc_worker.c:61-100 | Dispatching one item to the handler in the table, with free or sig_ready behind it, is what the sequential program does with it; an rpc is left ready, with the handler's reply and error, or with -2 and its reply untouched |
| WorkerLoop.AnswersAre | tecc_worker.c:73-87 | After any series of items with distinct ids every rpc among them is ready with the reply and error of the handler for its own request, or with -2 and its reply untouched, and the object of every other call is as before |
| WorkerLoop.MachineAnswers | tecc_worker.c:73-87 | The steps of module Worker from the pop of an rpc to sig_ready leave the same answer and log the same events |
| WorkerLoop.TecWorker.MessageLoop | tecc_worker.c:41-49 | On the real queue the loop handles the items ahead of the first NULL in order, answers their rpcs, and leaves the items behind it |
| WorkerLoop.TecWorker.WorkerFunc | tecc_worker.c:34-57 | The thread function on the real queue and table is the sequential program and returns the final error; sig_running is set right behind on_init, sig_terminated at the end, and with an error set beforehand nothing else happens |
| ServiceTheorems.RefinesWorker | tecc_service_worker.c:49-81 | The worker part of every reachable service state is reachable in the worker machine, so what holds in all reachable worker states holds here; the service invariant holds in every reachable state |
| ServiceTheorems.SignalOrder | tecc_tcp_server.c:110-139 | sig_running follows sig_started; sig_terminated follows sig_stopped, which follows sig_polling_stopped; start errors included |
| ServiceTheorems.TerminateMeansStopped | tecc_service_worker.c:67-81 | When a terminate has returned the poll loop is over, the socket is closed, the service thread is joined exactly once and the start error is returned |
| ServiceTheorems.RunReturnsStartError | tecc_service_worker.c:49-64 | run always returns the start error |
| ServiceTheorems.DispatchesAccepted | tecc_tcp_server.c:60-80 | In every run the connections dispatched are exactly the valid ones that accept has yielded, each once and in order, but for one in hand; when the service thread has ended there is none |
| ServiceTheorems.ServesBetween | tecc_tcp_server.c:88-126 | From the return of a successful run until the worker thread exits, the socket listens and the poll loop goes on |
| ServiceTheorems.AtMostOneLateConnection | tecc_tcp_server.c:60-80 | However a run goes on after `running` has become false, at most one more connection is dispatched |
| ServiceTheorems.NoneAfterStopped | tecc_tcp_server.c:60-80 | After sig_polling_stopped no connection is dispatched any more |
| ServiceTheorems.RpcRunsOnce | tecc_service_worker.c:49-81 | A returned rpc of a service worker ran once, with the handlers, replies and errors it was configured with |
| ServiceTheorems.NobodyIsStuck | tecc_service_worker.c:49-81 | In every reachable state all calls have returned or somebody can move, without counting on a new connection |
| ServiceTheorems.PollLoopEnds | tecc_tcp_server.c:60-80 | Once `running` is false every step of the service thread brings sig_polling_stopped nearer |
| ServiceProgress.Completes | tecc_service_worker.c:34-81 | Without further clients and connections every schedule is bounded from every reachable state, and when nobody can step run and every terminate have returned; start errors included |
| ServiceProgress.EndsWhateverComes | tecc_service_worker.c:49-81 | Once a NULL is pushed, or the start failed, worker and exit thread make a bounded number of steps whatever clients send and whoever connects, and from the creation of the worker thread to its end one of the threads can step without a new connection |
| ServiceProgress.PollEnds | tecc_tcp_server.c:60-80 | Once `running` is false the service thread makes at most 8 more steps whatever else happens, and with none left sig_polling_stopped is set |
| ServiceProgress.StartErrorReturns | tecc_tcp_server.c:96-112 | When the start fails, run returns its error under every schedule: bounded steps of run, worker and service thread, one of which can step until run has returned |
| ThreadPoolTheorems.TasksAreTakes | tecc_thread_pool.c:172-203 | In every run task t holds the function and the payload given to the t-th enqueue |
| ThreadPoolTheorems.RunsInPushOrder | tecc_thread_pool.c:47-66 | Each node starts only functions given to enqueues with its own tickets, each at most once, in push order |
| ThreadPoolTheorems.DoneMeansDrained | tecc_thread_pool.c:88-97 | When done has finished, every function given to an enqueue has run exactly once on the node of its ticket, every task is released, and every arena is in its initial state again with no slot and no heap object in use |
| ThreadPoolTheorems.HeapOnlyWhenFull | tecc_thread_pool.c:180-182 | In every run an enqueue gets an object that no live task of its node holds, from the heap exactly if as many live tasks as the capacity lie in the arena |
| ThreadPoolTheorems.LiveTasksApart | tecc_thread_pool.c:68-86 | In every run a node's arena bookkeeping is sound and its live tasks hold different objects, all in use |
| ThreadPoolTheorems.ReleasedOnce | tecc_thread_pool.c:62-62 | A node thread that is to release a task finds its object in use, can release it, and takes it out of use |
| ThreadPoolTheorems.ReleasedStays | tecc_thread_pool.c:47-66 | No step changes a released task, so none is released twice |
| ThreadPoolTheorems.DoneFinishes | tecc_thread_pool.c:155-160 | done finishes within a bounded number of steps under every schedule |
| Tickets.CyclicForeverIff | tecc_thread_pool.c:177-179 | Tickets select nodes in cyclic order for ever exactly if the number of threads divides 2^32 |
| Tickets.CyclicIff | tecc_thread_pool.c:177-179 | For one ticket, the next one selects the next node exactly if the counter does not change sign there, or the divisibility makes up for it |
| Tickets.LoadIs | tecc_thread_pool.c:177-179 | How many of the first m tickets a node gets, below the wrap |
| Tickets.Balanced | tecc_thread_pool.c:177-179 | Below the wrap the loads of two nodes differ by at most one |
| Tickets.DriftsApart | tecc_thread_pool.c:177-179 | With every 2^32 enqueues the loads of two nodes drift apart by the same number, at most two |
| Tickets.DriftOfTwo | tecc_thread_pool.c:177-179 | The bound is reached: with seven threads node 0 gains two enqueues on node 2 each time |
| Tickets.NearlyBalanced | tecc_thread_pool.c:177-179 | Up to 2^32 enqueues the loads of two nodes differ by at most two |
| Tickets.LoadsAddUp | tecc_thread_pool.c:177-179 | Of any number of enqueues each goes to exactly one node, beyond the wrap too |
| Tickets.BalancedForeverIff | tecc_thread_pool.c:177-179 | There is a bound on the difference of two loads for any number of enqueues exactly if the number of threads divides 2^32, and the bound is then one |
| TaskIsolation.RegionsDisjoint | tecc_thread_pool.c:185-189 | Payload and buffer regions of different nodes are disjoint and inside their block |
| TaskIsolation.CleanIsolates | tecc_thread_pool.c:184-192 | In a run in which no copy starts that disturbs a task, every function finds the bytes given to its own enqueue at its start and at its end |
| TaskIsolation.DirtyCopyHarms | tecc_thread_pool.c:184-192 | After a copy has started that disturbs a task, the steps under way alone can lead to a task that does not find its payload |
| TaskIsolation.IsolatedIffClean | tecc_thread_pool.c:172-203 | A discipline of the clients isolates the tasks of all its runs exactly if it never lets such a copy start |
| TaskIsolation.WindowIsClean | tecc_thread_pool.c:177-192 | Below the wrap no such copy starts in a run in which every task finishes before the enqueue nthreads later begins |
| TaskIsolation.WindowIsolates | tecc_thread_pool.c:177-192 | So every function of such a run finds the bytes given to its own enqueue |
| TaskIsolation.OverwriteReachable | tecc_thread_pool.c:184-192 | Every pool with payload regions has a run of nthreads + 1 tasks in which one does not find its own payload |
| ArenaModel.AllocateIsSound | tecc_arena.c:56-82 | An allocation returns an object not in use, from the heap exactly if all slots are live, and keeps the slots in use and the free list disjoint and together a prefix of the block |
| ArenaModel.ReleaseIsSound | tecc_arena.c:85-106 | A release takes exactly its object out of use and keeps the bookkeeping sound, the reset at zero included |
| ArenaModel.AlwaysSound | tecc_arena.c:56-106 | Sound after every sequence of allocations and releases, and without live slots as at the start |
| ArenaModel.LastReleasedIsNext | tecc_arena.c:88-100 | While others are live the slot released last is handed out next; without any the block starts anew |
| ArenaModel.BumpIsSound | tecc_arena.c:65-71 | With an empty free list the live count is the number of a slot that is not live |
| Arena.SlotsDisjoint | tecc_arena.c:69-69 | Slots do not overlap and lie inside the block |
| Arena.AfterAllocate | tecc_arena.c:56-82 | On header words: the chosen branch yields the slot the bookkeeping names, keeps the chain of next pointers acyclic and duplicate-free, and sets the mark of exactly the objects from the block |
| Arena.AfterPush | tecc_arena.c:90-100 | On header words: overlaying the next pointer on the header of a released slot keeps the chain and the other marks |
| Arena.AfterFree | tecc_arena.c:101-104 | Freeing a heap object leaves chain and marks alone |
| Arena.TecArena.Allocate | tecc_arena.c:56-82 | The method on memory does what the bookkeeping does and returns the address of that object |
| Arena.TecArena.Release | tecc_arena.c:85-106 | The mark chooses the right branch, NULL is ignored |
| Map.FindIn | tecc_map.c:75-94 | Finds the node with the key in a bucket exactly if there is one |
| Map.PushFront | tecc_map.c:144-151 | A new root keeps the bucket a doubly linked list of distinct keys |
| Map.UnlinkRoot | tecc_map.c:176-184 | Removing the root keeps it so |
| Map.UnlinkInner | tecc_map.c:185-192 | Removing any other node keeps it so |
| Map.PushedKeys | tecc_map.c:144-151 | With a node in front, the bucket holds the updated map and its keys stay distinct and in their bucket |
| Map.RemovedKeys | tecc_map.c:176-192 | Without the node, it holds the map without the key |
| Map.Spliced | tecc_map.c:188-191 | When the neighbours of a node point past it, the rest is a doubly linked list |
| Map.TecMap.Get | tecc_map.c:157-164 | Map lookup, NULL if the key is absent, for any hash |
| Map.TecMap.Set | tecc_map.c:134-154 | Map update, the old value or NULL returned, size the cardinality; a new node goes in front of its bucket and no other chain changes |
| Map.TecMap.Remove | tecc_map.c:168-196 | Map removal, the old value or NULL returned; exactly one node leaves its chain |
| Map.TecMap.Clear | tecc_map.c:115-124 | Frees every node once and leaves the empty map |
| Map.Init | tecc_map.c:102-113 | The empty table of the given or default size, with the FNV hash modulo the capacity |
| MapIteration.MapIter.Begin | tecc_map.c:204-217 | Stands on the first node in bucket order, NULL exactly for an empty map |
| MapIteration.MapIter.Next | tecc_map.c:219-240 | Moves to the next node in bucket order; at the end returns NULL and changes nothing, so it stays there |
| MapIteration.MapIter.Rewind | tecc_map.c:242-249 | Starts the same sequence again, NULL without a map |
| MapIteration.OrderCovers | tecc_map.c:204-240 | The nodes in bucket order are the pairs of the map, each once, size in number |
| MapIteration.OrderListsMap | tecc_map.c:204-240 | The pairs in bucket order list the map without repetition |
| MapIteration.Traverse | tecc_map.h:102-112 | begin, then next until NULL, ends and yields every pair exactly once in bucket order |
| Fnv.HashString | tecc_map.c:43-50 | The loop over a C string computes the fold over the bytes before its NUL |
| Fnv.KnownHashes | tecc_map.c:43-50 | The published FNV-1a values of the empty string and of "a" |
| Fnv.XorBit | tecc_map.c:46-46 | Exclusive or, on every bit |
| Fnv.CommonEnding | tecc_map.c:43-50 | A common ending neither makes nor hides a collision, whatever the lengths |
| Fnv.OneByteDiffers | tecc_map.c:43-50 | Two strings of equal length that differ in exactly one byte have different hashes |
| Fnv.TimesInjective | tecc_map.c:47-47 | Multiplication by the prime modulo 2^64 is injective |
| BufferModel.WriteSeekRead | tecc_buffer.c:126-172 | What was written is read back after seeking back, and no other byte changed |
| BufferModel.ReadSeekWrite | tecc_buffer.c:126-172 | Writing back what was read changes nothing |
| BufferModel.WriteWrite | tecc_buffer.c:126-139 | Two writes in a row are one write of both |
| BufferModel.SeekBackFromEnd | tecc_buffer.c:163-171 | Seeking k bytes back from the end leaves exactly the last k bytes to read |
| BufferModel.SeekAnywhere | tecc_buffer.c:155-172 | From the position a seek is one to the position plus the offset, from the end only 0 and below succeed, and a failing seek moves nothing |
| BufferModel.PutsBehindText | tecc_buffer.c:188-195 | Behind a byte that is not NUL a put drops nothing |
| BufferModel.PutsBehindNul | tecc_buffer.c:188-195 | Behind a NUL it starts one byte earlier and the file loses its last byte, which is not that NUL exactly if the string ends inside the file |
| BufferModel.PutsConcatenate | tecc_buffer.c:177-196 | Any series of puts into an empty buffer leaves the concatenation and a single NUL |
| BufferModel.GrowthRule | tecc_buffer.c:71-87 | Capacities are whole blocks; regrowth covers the request, at least doubles and stays below twice the request |
| BufferModel.GrowsBy | tecc_buffer.c:75-78 | A regrowth adds the largest number of whole blocks not above the request, a first one adds one block |
| BufferModel.GrowthSufficesIff | tecc_buffer.c:71-87 | The request fits afterwards exactly if the buffer had a block or the request is at most one |
| BufferModel.FirstRequestTooLarge | tecc_buffer.c:75-78 | An empty buffer asked for more than a block gets one block, which does not hold it |
| BufferModel.GrownTwice | tecc_buffer.c:71-87 | A request made a second time always fits, and grows the buffer again exactly if it was a first one for more than a block |
| Buffer.TecBuffer.Realloc | tecc_buffer.c:53-69 | Takes any capacity, never shrinks, keeps the contents, and copies exactly the bytes stored when it grows |
| Buffer.TecBuffer.EnsureCapacity | tecc_buffer.c:71-87 | Grows by the rule and keeps the contents; the bytes ever copied never exceed the capacity |
| Buffer.TecBuffer.Write | tecc_buffer.c:126-139 | Overwrites at the position and extends, as the file model does; None exactly if the copy would leave the block |
| Buffer.TecBuffer.Read | tecc_buffer.c:142-152 | Returns min(len, size - pos) bytes from the position and leaves the rest of the destination alone |
| Buffer.TecBuffer.Seek | tecc_buffer.c:155-172 | Succeeds exactly for a target in [0, size], else changes nothing |
| Buffer.TecBuffer.Puts | tecc_buffer.c:177-196 | Drops a NUL before the position and writes the string and its NUL, whatever its length; nothing for NULL or an empty string. The capacity is that of the request made twice |
| Buffer.PutSeries | tecc_buffer.c:177-196 | Any series of puts into a fresh buffer of any block size stores the concatenation and a single NUL |
| HexModel.SafeIff | tecc_buffer.c:239-248 | The digit table is read in bounds exactly if `char` is unsigned or the byte is below 0x80 |
| HexModel.DecodeHex | tecc_buffer.c:239-287 | A decoder gives back every sequence of bytes from its printed form |
| HexModel.CellShows | tecc_buffer.c:239-248 | The bytes 0x21 to 0x7E are shown as themselves behind a space, all others as two digits |
| HexModel.ClipIs | tecc_buffer.c:262-273 | The range printed: `len` 0 stands for the rest of the buffer, a negative start for 0 |
| HexModel.RenderIsRows | tecc_buffer.c:336-352 | The cells the loop appends one by one are rows of a prefix and up to 32 cells |
| HexModel.StripRows | tecc_buffer.c:336-352 | Removing the prefixes, every 64 characters, gives back the cells |
| HexModel.TableDecodes | tecc_buffer.c:333-352 | The stripped table is 2 * start spaces and the hexadecimal string, which decodes to the printed bytes |
| Hex.HeaderLabels | tecc_buffer.c:303-309 | The label 2k of the first line stands above cell 2k of each row |
| Hex.NothingToPrint | tecc_buffer.c:325-331 | Without a byte to print there is one row prefix, labelled with the row of `start` |
| Hex.LabelsMatchIff | tecc_buffer.c:324-343 | For a range that is not empty, the table text is the one with labels from offset 0 on, for every prefix, exactly if `start` is below 32 |
| Hex.ToHexChars | tecc_buffer.c:239-248 | The two characters decode to the byte and neither is NUL; none exactly if the table would be read out of bounds |
| Hex.Fill | tecc_buffer.c:283-291 | The loop writes the printed form and a NUL inside the block, or stops exactly if some byte is unsafe to print |
| Hex.AsHex | tecc_buffer.c:254-293 | The printed form of the clipped range, with its NUL inside the capacity, exactly if all its bytes are safe to print |
| Hex.AsTable | tecc_buffer.c:311-355 | Header and rows, or header and one prefix if nothing is printed, as one string with one NUL, exactly if all bytes of the range are safe to print |
| Hex.PrintRows | tecc_buffer.c:335-352 | The loop ends and appends exactly the rows |

## Left out

- Sockets, the TCP client and real input and output: the listening socket is open or closed, and accept yields a valid connection or not.
- Destruction: signals, queues and arenas are never freed while in use, and nothing is claimed about the lifetime of a mutex; the `_done` functions other than the queue's node loop, the pool's shutdown and the map's clear are not part of the model.
- C11 memory orders and data races on plain fields: steps are sequentially consistent.
- Failures of thread creation, mutex and condition variable calls, memory allocation, and the EINVAL path of the timed wait when the clock cannot be read.
- The signals and queues of the service and pool machines step by step: they are the same two protocols, here in the one-step form that `AtomicLatch` and `AtomicQueue` justify. Module Composed takes the steps apart for the worker.
- Concurrency as objects: the threaded parts of the worker, service, pool, signal and queue are state machines on values, since an interleaving has no single caller; what this does not capture is aliasing between the threads' plain fields. The queue list, the arena and the sequential thread body of the worker are given on real objects as well.
- Registering callbacks while the worker runs: the table is fixed before run.
- Handlers are arbitrary functions of the message or rpc; message subclassing by casts is a datatype.
- `TecArena` block memory beyond the header words, and the mutex around its operations, which are taken as atomic.
- The argument `args` of a pool task, which is passed on, and which function it is: an enqueue has one or has none.
- Map changes during an iteration, and the lifetime of the key strings, which the table does not copy. Values of the map are pointers, taken as numbers.
- `sprintf`: the prefix of a table row is an arbitrary function of the offset that is not empty where the rows are taken apart.
- `TecBuffer_json`, the trace, time, daemon, rpc and service helpers: formatting and plain initialisation.
- The buffer a pool task receives is built with block size 0, so growing it would divide by zero; the model covers buffers made by the constructor.
- Truncation of huge lengths to `int` or `long`.
- Undefined behaviour of C: where `TecBuffer_write` would copy past a first block that is too small, and where a `char` below 0 would index the digit table, the methods report the case and stop; what the machine does then is not modelled.
- Two copies into one region at the same time, or a copy while the region is read, are data races; the region then has indeterminate contents, different from every payload, even if the same bytes are written.
- The object a heap allocation returns is any address that is not in use on the node.
- TaskIsolation.WindowIsolates: covers up to 2^31 tasks, because beyond the wrap of the ticket counter consecutive tickets need not be `nthreads` apart on a node.
