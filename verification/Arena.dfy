/**
 The bookkeeping of TecArena (tecc_arena.c:56-106) on slot numbers: one counter that is both the
 number of live slots and the bump index, and a free list. Lemmas show that it never hands out a
 live slot; module Arena implements it on addresses and header words.
 */
module ArenaModel {
  import opened Options

  /** A slot of the block, or an object from the heap. */
  datatype Ptr = Slot(i: nat) | Heap(h: nat)

  /** `live` and `heap` are the objects handed out and not yet released. */
  datatype State = State(capacity: nat, count: nat, free: seq<nat>, live: set<nat>, heap: set<nat>)

  function Init(capacity: nat): State {
    State(capacity, 0, [], {}, {})
  }

  /** `h` is the address that calloc would return. */
  function Allocate(a: State, h: nat): (State, Ptr) {
    if a.free != [] then
      (a.(free := a.free[1..], count := a.count + 1, live := a.live + {a.free[0]}), Slot(a.free[0]))
    else if a.count < a.capacity then
      (a.(count := a.count + 1, live := a.live + {a.count}), Slot(a.count))
    else
      (a.(heap := a.heap + {h}), Heap(h))
  }

  predicate InUse(a: State, p: Ptr) {
    match p
    case Slot(i) => i in a.live
    case Heap(h) => h in a.heap
  }

  function Release(a: State, p: Ptr): State
    requires InUse(a, p) && (p.Slot? ==> a.count > 0)
  {
    match p
    case Slot(i) =>
      var left := a.count - 1;
      a.(count := left, live := a.live - {i}, free := if left == 0 then [] else [i] + a.free)
    case Heap(h) => a.(heap := a.heap - {h})
  }

  /** The live and the free slots are disjoint and together exactly the first `count + |free|` ones. */
  ghost predicate Sound(a: State) {
    && a.count == |a.live|
    && a.count + |a.free| <= a.capacity
    && (forall j, k :: 0 <= j < k < |a.free| ==> a.free[j] != a.free[k])
    && (forall i :: i in a.live ==> i !in a.free)
    && (forall i :: i in a.live || i in a.free <==> 0 <= i < a.count + |a.free|)
  }

  lemma PopIsSound(a: State)
    requires Sound(a) && a.free != []
    ensures a.free[0] !in a.live && |a.live| < a.capacity
    ensures Sound(a.(free := a.free[1..], count := a.count + 1, live := a.live + {a.free[0]}))
  {
    assert a.free[0] in a.free;
    forall i ensures i in a.free <==> i == a.free[0] || i in a.free[1..] {
    }
  }

  /** With an empty free list the counter is the number of the first slot that is not live. */
  lemma BumpIsSound(a: State)
    requires Sound(a) && a.free == [] && a.count < a.capacity
    ensures a.count !in a.live
    ensures Sound(a.(count := a.count + 1, live := a.live + {a.count}))
  {
  }

  /**
   An allocation keeps the bookkeeping sound and returns an object not in use: a slot inside the
   block while some slot is not live, the heap object exactly when all `capacity` slots are.
   */
  lemma AllocateIsSound(a: State, h: nat)
    requires Sound(a) && h !in a.heap
    ensures var (a', p) := Allocate(a, h);
      && Sound(a') && !InUse(a, p)
      && (p.Slot? ==> p.i < a.capacity && a'.live == a.live + {p.i} && a'.heap == a.heap)
      && (p.Heap? <==> |a.live| == a.capacity)
      && (p.Heap? ==> a'.live == a.live && a'.heap == a.heap + {h})
  {
    if a.free != [] {
      PopIsSound(a);
      assert a.free[0] in a.free;
    } else if a.count < a.capacity {
      BumpIsSound(a);
    }
  }

  /** A release keeps it sound and takes exactly the released object out of use. */
  lemma ReleaseIsSound(a: State, p: Ptr)
    requires Sound(a) && InUse(a, p)
    ensures p.Slot? ==> a.count > 0
    ensures var a' := Release(a, p);
      && Sound(a')
      && (p.Slot? ==> a'.live == a.live - {p.i} && a'.heap == a.heap)
      && (p.Heap? ==> a'.live == a.live && a'.heap == a.heap - {p.h})
  {
    if p.Slot? {
      assert a.live == (a.live - {p.i}) + {p.i};
      var a' := Release(a, p);
      if a'.count == 0 {
        assert a'.live == {};
      } else {
        forall i ensures i in a'.free <==> i == p.i || i in a.free {
        }
      }
    }
  }

  /** While others are live, the slot released last is the next one handed out; without any the block starts anew. */
  lemma LastReleasedIsNext(a: State, i: nat, h: nat)
    requires Sound(a) && i in a.live
    ensures a.count > 0
    ensures Allocate(Release(a, Slot(i)), h).1 == if |a.live| > 1 then Slot(i) else Slot(0)
  {
    ReleaseIsSound(a, Slot(i));
  }

  // ----- Every sequence of operations

  datatype Op = Alloc(h: nat) | Free(p: Ptr)

  /** The operations a client may do: the heap returns unused addresses, each pointer is released once. */
  predicate Allowed(a: State, op: Op) {
    match op
    case Alloc(h) => h !in a.heap
    case Free(p) => InUse(a, p) && (p.Slot? ==> a.count > 0)
  }

  function Apply(a: State, op: Op): State
    requires Allowed(a, op)
  {
    match op
    case Alloc(h) => Allocate(a, h).0
    case Free(p) => Release(a, p)
  }

  /** The state after a list of operations, or None when the client broke its part. */
  function Exec(capacity: nat, ops: seq<Op>): Option<State> {
    if ops == [] then Some(Init(capacity))
    else match Exec(capacity, ops[..|ops| - 1])
      case None => None
      case Some(a) => if Allowed(a, ops[|ops| - 1]) then Some(Apply(a, ops[|ops| - 1])) else None
  }

  /** After any sequence of allocations and releases the bookkeeping is sound, and without live slots as it was at first. */
  lemma {:induction false} AlwaysSound(capacity: nat, ops: seq<Op>)
    requires Exec(capacity, ops).Some?
    ensures Sound(Exec(capacity, ops).value) && Exec(capacity, ops).value.capacity == capacity
    ensures var a := Exec(capacity, ops).value; a.live == {} ==> a.count == 0 && a.free == []
    decreases |ops|
  {
    if ops != [] {
      AlwaysSound(capacity, ops[..|ops| - 1]);
      var a := Exec(capacity, ops[..|ops| - 1]).value;
      match ops[|ops| - 1]
      case Alloc(h) => AllocateIsSound(a, h);
      case Free(p) => ReleaseIsSound(a, p);
    }
  }
}

/**
 TecArena on memory. An element starts with a header word of pointer size: while the element is live
 its low 32 bits are the flags, while it is on the free list the whole word is the `next` pointer.
 Addresses are numbers and 0 is NULL; `mem` holds the header words.
 */
module Arena {
  import M = ArenaModel

  const ALLOCATED: nat := 1
  const FLAGS_RANGE: nat := 0x1_0000_0000

  /** `flags & TECC_ARENA_ALLOCATED` */
  predicate Marked(word: nat) {
    word % FLAGS_RANGE % 2 == ALLOCATED
  }

  /** The word after `flags = TECC_ARENA_ALLOCATED`, a store into its low 32 bits. */
  function WithMark(word: nat): (r: nat)
    ensures Marked(r) && r / FLAGS_RANGE == word / FLAGS_RANGE && r % 0x1_0000_0000 == 1
  {
    word / FLAGS_RANGE * FLAGS_RANGE + ALLOCATED
  }

  /** The flag is the lowest bit of the header. */
  lemma MarkIsLowestBit(word: nat)
    ensures Marked(word) <==> word % 2 == 1
  {
  }

  /** The address of slot `i`, element after element. */
  function SlotAt(buf: nat, size: nat, i: nat): nat {
    if i == 0 then buf else SlotAt(buf, size, i - 1) + size
  }

  /** It is the address the code computes. */
  lemma {:induction false} SlotAddress(buf: nat, size: nat, i: nat)
    ensures SlotAt(buf, size, i) == buf + i * size
  {
    if i > 0 {
      SlotAddress(buf, size, i - 1);
      assert i * size == (i - 1) * size + size;
    }
  }

  lemma {:induction false} SlotOrder(buf: nat, size: nat, i: nat, j: nat)
    requires i < j
    ensures buf <= SlotAt(buf, size, i) && SlotAt(buf, size, i) + size <= SlotAt(buf, size, j)
    decreases j
  {
    if i + 1 < j {
      SlotOrder(buf, size, i, j - 1);
    } else if i > 0 {
      SlotOrder(buf, size, i - 1, i);
    }
  }

  /** Different slots do not overlap, and a slot below the capacity lies inside the block. */
  lemma SlotsDisjoint(buf: nat, size: nat, i: nat, j: nat, capacity: nat)
    ensures i < j ==> SlotAt(buf, size, i) + size <= SlotAt(buf, size, j)
    ensures i < capacity ==> buf <= SlotAt(buf, size, i) && SlotAt(buf, size, i) + size <= buf + capacity * size
  {
    if i < j {
      SlotOrder(buf, size, i, j);
    }
    if i < capacity {
      SlotOrder(buf, size, i, capacity);
      SlotAddress(buf, size, capacity);
    }
  }

  // ----- How memory represents the bookkeeping

  ghost predicate Outside(buf: nat, size: nat, capacity: nat, h: nat) {
    forall i :: 0 <= i < capacity ==> h != SlotAt(buf, size, i)
  }

  /** The chain of `next` words from `head` runs through the free slots in order, up to NULL. */
  ghost predicate Chain(buf: nat, size: nat, mem: map<nat, nat>, head: nat, free: seq<nat>) {
    && head == (if free == [] then 0 else SlotAt(buf, size, free[0]))
    && (forall k :: 0 <= k < |free| ==> SlotAt(buf, size, free[k]) in mem)
    && (forall k :: 0 < k < |free| ==> mem[SlotAt(buf, size, free[k - 1])] == SlotAt(buf, size, free[k]))
    && (free != [] ==> mem[SlotAt(buf, size, free[|free| - 1])] == 0)
  }

  /** Every live slot is marked as coming from the block, every live heap object is not. */
  ghost predicate Marks(buf: nat, size: nat, mem: map<nat, nat>, m: M.State) {
    && (forall i :: i in m.live ==> SlotAt(buf, size, i) in mem && Marked(mem[SlotAt(buf, size, i)]))
    && (forall h :: h in m.heap ==> h != 0 && h in mem && !Marked(mem[h]) && Outside(buf, size, m.capacity, h))
  }

  ghost predicate Represents(buf: nat, size: nat, mem: map<nat, nat>, head: nat, m: M.State) {
    && size >= 8 && (m.capacity > 0 ==> buf > 0)
    && M.Sound(m) && Chain(buf, size, mem, head, m.free) && Marks(buf, size, mem, m)
  }

  /** A store to the header of slot `i` leaves the other slots' headers alone. */
  lemma OthersKept(buf: nat, size: nat, i: nat)
    requires size > 0
    ensures forall j: nat :: j != i ==> SlotAt(buf, size, j) != SlotAt(buf, size, i)
  {
    forall j: nat | j != i
      ensures SlotAt(buf, size, j) != SlotAt(buf, size, i)
    {
      if i < j {
        SlotOrder(buf, size, i, j);
      } else {
        SlotOrder(buf, size, j, i);
      }
    }
  }

  lemma HeadIsNotNull(buf: nat, size: nat, mem: map<nat, nat>, head: nat, m: M.State)
    requires Represents(buf, size, mem, head, m) && m.free != []
    ensures head != 0
  {
    assert m.free[0] in m.free && m.capacity > 0;
    if m.free[0] > 0 {
      SlotOrder(buf, size, 0, m.free[0]);
    }
  }

  lemma PopChain(buf: nat, size: nat, mem: map<nat, nat>, head: nat, free: seq<nat>, word: nat)
    requires size > 0 && free != [] && Chain(buf, size, mem, head, free)
    requires forall j, k :: 0 <= j < k < |free| ==> free[j] != free[k]
    ensures Chain(buf, size, mem[head := word], mem[head], free[1..])
  {
    OthersKept(buf, size, free[0]);
    assert forall k :: 0 <= k < |free| - 1 ==> free[1..][k] == free[k + 1];
  }

  /** A slot that was not live is marked and becomes live. */
  lemma MarkSlot(buf: nat, size: nat, mem: map<nat, nat>, m: M.State, m': M.State, i: nat, word: nat)
    requires size > 0 && Marks(buf, size, mem, m) && i < m.capacity && Marked(word)
    requires m'.live == m.live + {i} && m'.heap == m.heap && m'.capacity == m.capacity
    ensures Marks(buf, size, mem[SlotAt(buf, size, i) := word], m')
  {
    OthersKept(buf, size, i);
  }

  lemma AfterPop(buf: nat, size: nat, mem: map<nat, nat>, head: nat, m: M.State, h: nat, word: nat)
    requires Represents(buf, size, mem, head, m) && m.free != [] && Marked(word)
    ensures head != 0 && head in mem && head == SlotAt(buf, size, m.free[0])
    ensures Represents(buf, size, mem[head := word], mem[head], M.Allocate(m, h).0)
  {
    HeadIsNotNull(buf, size, mem, head, m);
    M.PopIsSound(m);
    assert m.free[0] in m.free;
    PopChain(buf, size, mem, head, m.free, word);
    MarkSlot(buf, size, mem, m, M.Allocate(m, h).0, m.free[0], word);
  }

  lemma AfterBump(buf: nat, size: nat, mem: map<nat, nat>, head: nat, m: M.State, h: nat, word: nat)
    requires Represents(buf, size, mem, head, m) && head == 0 && m.count < m.capacity && Marked(word)
    ensures m.free == [] && SlotAt(buf, size, m.count) != 0
    ensures Represents(buf, size, mem[SlotAt(buf, size, m.count) := word], 0, M.Allocate(m, h).0)
  {
    if m.free != [] {
      HeadIsNotNull(buf, size, mem, head, m);
    }
    M.BumpIsSound(m);
    if m.count > 0 {
      SlotOrder(buf, size, 0, m.count);
    }
    MarkSlot(buf, size, mem, m, M.Allocate(m, h).0, m.count, word);
  }

  lemma AfterHeap(buf: nat, size: nat, mem: map<nat, nat>, head: nat, m: M.State, h: nat)
    requires Represents(buf, size, mem, head, m) && head == 0 && m.count >= m.capacity
    requires h != 0 && h !in m.heap && Outside(buf, size, m.capacity, h)
    ensures m.free == []
    ensures Represents(buf, size, mem[h := 0], 0, M.Allocate(m, h).0)
  {
    if m.free != [] {
      HeadIsNotNull(buf, size, mem, head, m);
    }
    assert forall i :: i in m.live ==> i < m.capacity;
  }

  lemma PushChain(buf: nat, size: nat, mem: map<nat, nat>, head: nat, free: seq<nat>, i: nat)
    requires size > 0 && i !in free && Chain(buf, size, mem, head, free)
    ensures Chain(buf, size, mem[SlotAt(buf, size, i) := head], SlotAt(buf, size, i), [i] + free)
  {
    OthersKept(buf, size, i);
    var free' := [i] + free;
    assert forall k :: 0 <= k < |free| ==> free[k] in free;
    assert forall k :: 1 <= k < |free'| ==> free'[k] == free[k - 1];
    assert free != [] ==> free'[|free'| - 1] == free[|free| - 1];
  }

  /** A live slot's header is overwritten once it is live no more. */
  lemma UnmarkSlot(buf: nat, size: nat, mem: map<nat, nat>, m: M.State, m': M.State, i: nat, word: nat)
    requires size > 0 && Marks(buf, size, mem, m) && i < m.capacity
    requires m'.live == m.live - {i} && m'.heap == m.heap && m'.capacity == m.capacity
    ensures Marks(buf, size, mem[SlotAt(buf, size, i) := word], m')
  {
    OthersKept(buf, size, i);
  }

  lemma AfterPush(buf: nat, size: nat, mem: map<nat, nat>, head: nat, m: M.State, i: nat)
    requires Represents(buf, size, mem, head, m) && i in m.live
    ensures m.count > 0
    ensures var m' := M.Release(m, M.Slot(i)); var p := SlotAt(buf, size, i);
      Represents(buf, size, mem[p := head], if m'.count == 0 then 0 else p, m')
  {
    M.ReleaseIsSound(m, M.Slot(i));
    PushChain(buf, size, mem, head, m.free, i);
    UnmarkSlot(buf, size, mem, m, M.Release(m, M.Slot(i)), i, head);
  }

  lemma FreeChain(buf: nat, size: nat, mem: map<nat, nat>, head: nat, free: seq<nat>, h: nat)
    requires Chain(buf, size, mem, head, free)
    requires forall k :: 0 <= k < |free| ==> SlotAt(buf, size, free[k]) != h
    ensures Chain(buf, size, mem - {h}, head, free)
  {
  }

  lemma FreeMarks(buf: nat, size: nat, mem: map<nat, nat>, m: M.State, m': M.State, h: nat)
    requires Marks(buf, size, mem, m) && forall i :: i in m.live ==> SlotAt(buf, size, i) != h
    requires m'.live == m.live && m'.heap == m.heap - {h} && m'.capacity == m.capacity
    ensures Marks(buf, size, mem - {h}, m')
  {
  }

  lemma AfterFree(buf: nat, size: nat, mem: map<nat, nat>, head: nat, m: M.State, h: nat)
    requires Represents(buf, size, mem, head, m) && h in m.heap
    ensures Represents(buf, size, mem - {h}, head, M.Release(m, M.Heap(h)))
  {
    M.ReleaseIsSound(m, M.Heap(h));
    assert forall k :: 0 <= k < |m.free| ==> m.free[k] in m.free;
    assert forall i :: i in m.live || i in m.free ==> i < m.capacity;
    FreeChain(buf, size, mem, head, m.free, h);
    FreeMarks(buf, size, mem, m, M.Release(m, M.Heap(h)), h);
  }

  /** The address behind the slots in use when the free list is empty. */
  function BumpAt(buf: nat, size: nat, count: nat): (r: nat)
    ensures r == SlotAt(buf, size, count)
  {
    SlotAddress(buf, size, count);
    buf + count * size
  }

  lemma HeadMapped(buf: nat, size: nat, mem: map<nat, nat>, head: nat, m: M.State)
    requires Represents(buf, size, mem, head, m)
    ensures head != 0 ==> head in mem
  {
  }

  /** What the branches of TecArena_allocate compute, from the chosen pointer on. */
  lemma AfterAllocate(buf: nat, size: nat, mem: map<nat, nat>, head: nat, m: M.State, h: nat, p: nat, word: nat)
    requires Represents(buf, size, mem, head, m) && Marked(word)
    requires h != 0 && h !in m.heap && Outside(buf, size, m.capacity, h)
    requires p == if head != 0 then head else if m.count < m.capacity then BumpAt(buf, size, m.count) else 0
    ensures var (m', q) := M.Allocate(m, h);
      if p != 0
      then q.Slot? && p == SlotAt(buf, size, q.i) && m'.count == m.count + 1 && (head != 0 ==> head in mem)
           && Represents(buf, size, mem[p := word], if head != 0 then mem[head] else 0, m')
      else q == M.Heap(h) && m'.count == m.count && Represents(buf, size, mem[h := 0], 0, m')
  {
    if head != 0 {
      AfterPop(buf, size, mem, head, m, h, word);
    } else if m.count < m.capacity {
      AfterBump(buf, size, mem, head, m, h, word);
    } else {
      AfterHeap(buf, size, mem, head, m, h);
    }
  }

  class TecArena {
    var buf: nat
    var elemSize: nat
    var capacity: nat
    var count: nat
    var freeList: nat
    var mem: map<nat, nat>
    ghost var model: M.State

    ghost predicate Valid()
      reads this
    {
      model.capacity == capacity && model.count == count && Represents(buf, elemSize, mem, freeList, model)
    }

    ghost function AddressOf(p: M.Ptr): nat
      reads this
    {
      match p
      case Slot(i) => SlotAt(buf, elemSize, i)
      case Heap(h) => h
    }

    constructor (nelems: nat, size: nat, block: nat)
      requires size >= 8 && (nelems > 0 ==> block > 0)
      ensures Valid() && model == M.Init(nelems) && elemSize == size
    {
      elemSize, capacity, count, freeList := size, nelems, 0, 0;
      buf := if nelems > 0 then block else 0;
      mem := map[];
      model := M.Init(nelems);
    }

    /** The slot to hand out: the head of the free list, or the one behind the slots in use, or NULL. */
    method Choose() returns (p: nat)
      requires freeList != 0 ==> freeList in mem
      modifies this`freeList
      ensures p == if old(freeList) != 0 then old(freeList)
                   else if count < capacity then BumpAt(buf, elemSize, count) else 0
      ensures freeList == if old(freeList) != 0 then mem[old(freeList)] else 0
    {
      p := 0;
      if freeList != 0 {
        p := freeList;
        freeList := mem[freeList];
      } else if count < capacity {
        p := BumpAt(buf, elemSize, count);
      }
    }

    /** `h` is what calloc would return: not NULL, not in use, outside the block. */
    method Allocate(h: nat) returns (p: nat)
      requires Valid() && h != 0 && h !in model.heap && Outside(buf, elemSize, capacity, h)
      modifies this
      ensures Valid() && buf == old(buf) && elemSize == old(elemSize)
      ensures model == M.Allocate(old(model), h).0
      ensures p != 0 && p == AddressOf(M.Allocate(old(model), h).1)
    {
      HeadMapped(buf, elemSize, mem, freeList, model);
      ghost var head := freeList;
      p := Choose();
      var word := WithMark(if p in mem then mem[p] else 0);
      AfterAllocate(buf, elemSize, mem, head, model, h, p, word);
      if p != 0 {
        count, mem := count + 1, mem[p := word];
      } else {
        p, mem := h, mem[h := 0];
      }
      model := M.Allocate(model, h).0;
    }

    /** `q` names the object behind `p`. */
    method Release(p: nat, ghost q: M.Ptr)
      requires Valid() && (p != 0 ==> M.InUse(model, q) && p == AddressOf(q))
      modifies this
      ensures Valid() && buf == old(buf) && elemSize == old(elemSize)
      ensures p == 0 ==> model == old(model)
      ensures q.Slot? && p != 0 ==> old(count) > 0
      ensures p != 0 ==> model == M.Release(old(model), q)
    {
      if p == 0 {
        return;
      }
      if Marked(mem[p]) {
        AfterPush(buf, elemSize, mem, freeList, model, q.i);
        mem := mem[p := freeList];
        freeList := p;
        count := count - 1;
        if count == 0 {
          freeList := 0;
        }
      } else {
        AfterFree(buf, elemSize, mem, freeList, model, p);
        mem := mem - {p};
      }
      model := M.Release(model, q);
    }
  }
}
