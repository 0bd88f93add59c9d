/**
 The linked list inside TecQueue (tecc_queue.c:26-86): the critical sections of push and pop, and
 the loop of the destructor, on real nodes. `pushed` and `popped` are ghost histories.
 */
module Queue {

  class Node<T> {
    var obj: T
    var next: Node?<T>

    constructor (obj: T)
      ensures this.obj == obj && next == null
    {
      this.obj := obj;
      this.next := null;
    }
  }

  class TecQueue<T> {
    var head: Node?<T>
    var tail: Node?<T>
    ghost var nodes: seq<Node<T>>
    ghost var pushed: seq<T>
    ghost var popped: seq<T>

    /** head, next and tail describe exactly the duplicate-free chain `nodes`. */
    ghost predicate Valid()
      reads this, nodes
    {
      && (forall i, j :: 0 <= i < j < |nodes| ==> nodes[i] != nodes[j])
      && (head == null <==> nodes == [])
      && (tail == null <==> nodes == [])
      && (nodes != [] ==> head == nodes[0] && tail == nodes[|nodes| - 1] && tail.next == null)
      && (forall i {:trigger nodes[i].next} :: 0 <= i < |nodes| - 1 ==> nodes[i].next == nodes[i + 1])
      && pushed == popped + Contents()
    }

    /** The queued objects, head first. */
    ghost function Contents(): (r: seq<T>)
      reads this, nodes
      ensures |r| == |nodes|
    {
      seq(|nodes|, i requires 0 <= i < |nodes| reads this, nodes => nodes[i].obj)
    }

    constructor ()
      ensures Valid() && nodes == [] && pushed == [] && popped == []
    {
      head, tail := null, null;
      nodes, pushed, popped := [], [], [];
    }

    method Push(obj: T)
      requires Valid()
      modifies this, nodes
      ensures Valid()
      ensures Contents() == old(Contents()) + [obj]
      ensures pushed == old(pushed) + [obj] && popped == old(popped)
      ensures exists n: Node<T> :: fresh(n) && nodes == old(nodes) + [n]
    {
      var node := new Node(obj);
      if tail != null {
        tail.next := node;
      } else {
        head := node;
      }
      tail := node;
      nodes := nodes + [node];
      pushed := pushed + [obj];
      assert Contents() == old(Contents()) + [obj];
      assert fresh(node) && nodes == old(nodes) + [node];
    }

    /** The part of pop after the wait loop, which leaves it with `head != NULL`. */
    method Pop() returns (obj: T)
      requires Valid() && head != null
      modifies this
      ensures Valid()
      ensures old(Contents()) == [obj] + Contents()
      ensures popped == old(popped) + [obj] && pushed == old(pushed)
      ensures nodes == old(nodes)[1..]
    {
      var first := head;
      obj := first.obj;
      head := first.next;
      if head == null {
        tail := null;
      }
      nodes := nodes[1..];
      popped := popped + [obj];
      assert old(Contents()) == [obj] + Contents();
    }

    /** The destructor's loop visits, and frees, every node once. */
    method Done() returns (freed: seq<Node<T>>)
      requires Valid()
      ensures freed == nodes
    {
      freed := [];
      var n := head;
      while n != null
        invariant |freed| <= |nodes| && freed == nodes[..|freed|]
        invariant n == if |freed| < |nodes| then nodes[|freed|] else null
        decreases |nodes| - |freed|
      {
        var next := n.next;
        freed := freed + [n];
        n := next;
      }
    }
  }
}
