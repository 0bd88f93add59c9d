/**
 TecMap (tecc_map.c:53-249) on its real nodes: an array of buckets, each a doubly linked list, and an
 iterator. Keys are C strings compared by their bytes; a value is a pointer, a number with 0 for NULL.
 */
module Map {
  import opened Bytes
  import Fnv

  datatype Key = CString(text: seq<Byte>)

  /** The bucket of each key: its hash modulo the capacity. */
  type Place = Key -> nat

  const DEFAULT_SIZE: nat := 117

  class MapNode {
    const key: Key
    var value: nat
    var prev: MapNode?
    var next: MapNode?

    constructor (key: Key, value: nat, prev: MapNode?, next: MapNode?)
      ensures this.key == key && this.value == value && this.prev == prev && this.next == next
    {
      this.key, this.value, this.prev, this.next := key, value, prev, next;
    }
  }

  type Chain = seq<MapNode>

  // ----- One bucket

  ghost function NextOf(chain: Chain, k: nat): MapNode? {
    if k + 1 < |chain| then chain[k + 1] else null
  }

  ghost function PrevOf(chain: Chain, k: nat): MapNode? {
    if 0 < k <= |chain| then chain[k - 1] else null
  }

  /** The links of the `k`-th node are the ones of a doubly linked list. */
  ghost predicate InPlace(chain: Chain, k: nat)
    reads chain
  {
    k < |chain| && chain[k].next == NextOf(chain, k) && chain[k].prev == PrevOf(chain, k)
  }

  /** `chain` is a doubly linked list that starts at `root`. */
  ghost predicate Linked(root: MapNode?, chain: Chain)
    reads chain
  {
    && root == (if chain == [] then null else chain[0])
    && (forall k :: 0 <= k < |chain| ==> InPlace(chain, k))
  }

  /** The keys of bucket `b` hash to it and are distinct; so no node occurs twice. */
  ghost predicate Keyed(chain: Chain, b: nat, at: Place) {
    && (forall k :: 0 <= k < |chain| ==> at(chain[k].key) == b)
    && (forall j, k :: 0 <= j < k < |chain| ==> chain[j].key != chain[k].key)
  }

  ghost predicate Has(chain: Chain, key: Key) {
    exists k :: 0 <= k < |chain| && chain[k].key == key
  }

  /** The nodes of `chain` with their values are what `contents` says about the keys of bucket `b`. */
  ghost predicate Holds(chain: Chain, b: nat, at: Place, contents: map<Key, nat>)
    reads chain
  {
    && (forall k :: 0 <= k < |chain| ==> chain[k].key in contents && contents[chain[k].key] == chain[k].value)
    && (forall key :: key in contents && at(key) == b ==> Has(chain, key))
  }

  ghost predicate IsBucket(root: MapNode?, chain: Chain, b: nat, at: Place, contents: map<Key, nat>)
    reads chain
  {
    Linked(root, chain) && Keyed(chain, b, at) && Holds(chain, b, at, contents)
  }

  lemma NodeIn(root: MapNode?, chain: Chain, k: nat, b: nat, at: Place, c: map<Key, nat>)
    requires IsBucket(root, chain, b, at, c)
    ensures root == if chain == [] then null else chain[0]
    ensures k < |chain| ==>
      && InPlace(chain, k) && at(chain[k].key) == b
      && chain[k].key in c && c[chain[k].key] == chain[k].value
      && (k > 0 ==> at(chain[k - 1].key) == b)
      && (k + 1 < |chain| ==> at(chain[k + 1].key) == b)
  {
  }

  lemma CardReplaced(c: map<Key, nat>, key: Key, value: nat)
    requires key in c
    ensures |c[key := value]| == |c|
  {
    assert c[key := value].Keys == c.Keys;
  }

  lemma CardWithout(c: map<Key, nat>, key: Key)
    requires key in c
    ensures |c - {key}| == |c| - 1
  {
    assert c == (c - {key})[key := c[key]];
  }

  lemma EmptyBucket(b: nat, at: Place)
    ensures IsBucket(null, [], b, at, map[])
  {
  }

  /** Looks at the root first and then walks the rest of the bucket. */
  method FindIn(root: MapNode?, key: Key, ghost chain: Chain) returns (node: MapNode?, ghost k: nat)
    requires Linked(root, chain)
    ensures node == null <==> !Has(chain, key)
    ensures node != null ==> k < |chain| && node == chain[k] && node.key == key
  {
    k, node := 0, root;
    if node == null {
      return;
    } else if node.key == key {
      return;
    }
    assert InPlace(chain, 0);
    node, k := node.next, 1;
    while node != null
      invariant 1 <= k <= |chain| && forall j :: 0 <= j < k ==> chain[j].key != key
      invariant node == if k < |chain| then chain[k] else null
      decreases |chain| - k
    {
      if node.key == key {
        return;
      }
      assert InPlace(chain, k);
      node, k := node.next, k + 1;
    }
  }

  method ChangeValue(found: MapNode, value: nat, root: MapNode?, ghost chain: Chain, ghost k: nat,
                     ghost b: nat, ghost at: Place, ghost c: map<Key, nat>)
    requires IsBucket(root, chain, b, at, c) && k < |chain| && found == chain[k]
    modifies found`value
    ensures IsBucket(root, chain, b, at, c[found.key := value])
  {
    found.value := value;
    forall j | 0 <= j < |chain|
      ensures InPlace(chain, j)
    {
      assert old(InPlace(chain, j));
    }
  }

  lemma PushedKeys(chain: Chain, n: MapNode, b: nat, at: Place, c: map<Key, nat>)
    requires Keyed(chain, b, at) && Holds(chain, b, at, c) && at(n.key) == b && n.key !in c
    ensures Keyed([n] + chain, b, at) && Holds([n] + chain, b, at, c[n.key := n.value])
  {
    var chain' := [n] + chain;
    assert forall k :: 0 < k < |chain'| ==> chain'[k] == chain[k - 1];
    forall q | q in c[n.key := n.value] && at(q) == b
      ensures Has(chain', q)
    {
      if q == n.key {
        assert chain'[0].key == q;
      } else {
        var k :| 0 <= k < |chain| && chain[k].key == q;
        assert chain'[k + 1].key == q;
      }
    }
  }

  /** A new root in front of the bucket. */
  method PushFront(root: MapNode?, key: Key, value: nat, ghost chain: Chain,
                   ghost b: nat, ghost at: Place, ghost c: map<Key, nat>) returns (newroot: MapNode)
    requires IsBucket(root, chain, b, at, c) && at(key) == b && key !in c
    modifies if root == null then {} else {root}
    ensures fresh(newroot) && newroot.key == key
    ensures IsBucket(newroot, [newroot] + chain, b, at, c[key := value])
  {
    newroot := new MapNode(key, value, null, root);
    if root != null {
      root.prev := newroot;
    }
    ghost var chain' := [newroot] + chain;
    forall k | 0 <= k < |chain'|
      ensures InPlace(chain', k)
    {
      if k > 0 {
        assert chain'[k] == chain[k - 1] && old(InPlace(chain, k - 1));
      }
    }
    PushedKeys(chain, newroot, b, at, c);
  }

  ghost function Without(chain: Chain, k: nat): (r: Chain)
    requires k < |chain|
    ensures |r| == |chain| - 1
    ensures forall j :: 0 <= j < |r| ==> r[j] == if j < k then chain[j] else chain[j + 1]
  {
    chain[..k] + chain[k + 1..]
  }

  lemma RemovedKeys(chain: Chain, k: nat, b: nat, at: Place, c: map<Key, nat>)
    requires Keyed(chain, b, at) && Holds(chain, b, at, c) && k < |chain|
    ensures Keyed(Without(chain, k), b, at) && Holds(Without(chain, k), b, at, c - {chain[k].key})
  {
    var chain' := Without(chain, k);
    forall q | q in c - {chain[k].key} && at(q) == b
      ensures Has(chain', q)
    {
      var j :| 0 <= j < |chain| && chain[j].key == q;
      assert chain'[if j < k then j else j - 1].key == q;
    }
  }

  method UnlinkRoot(root: MapNode, ghost chain: Chain, ghost b: nat, ghost at: Place, ghost c: map<Key, nat>)
    returns (newroot: MapNode?)
    requires IsBucket(root, chain, b, at, c)
    modifies if root.next == null then {} else {root.next}
    ensures IsBucket(newroot, Without(chain, 0), b, at, c - {root.key})
  {
    assert InPlace(chain, 0);
    newroot := root.next;
    if newroot != null {
      newroot.prev := null;
    }
    ghost var chain' := Without(chain, 0);
    forall k | 0 <= k < |chain'|
      ensures InPlace(chain', k)
    {
      assert old(InPlace(chain, k + 1));
    }
    RemovedKeys(chain, 0, b, at, c);
  }

  /** The links of the `i`-th node when its neighbour, the `k`-th, is skipped. */
  ghost predicate PointsPast(chain: Chain, k: nat, i: nat)
    reads chain
  {
    && k < |chain| && i < |chain|
    && chain[i].next == (if i + 1 == k then NextOf(chain, k) else NextOf(chain, i))
    && chain[i].prev == (if i == k + 1 then PrevOf(chain, k) else PrevOf(chain, i))
  }

  lemma Spliced(chain: Chain, k: nat)
    requires 0 < k < |chain| && forall i :: 0 <= i < |chain| ==> PointsPast(chain, k, i)
    ensures Linked(chain[0], Without(chain, k))
  {
    var chain' := Without(chain, k);
    forall j | 0 <= j < |chain'|
      ensures InPlace(chain', j)
    {
      assert PointsPast(chain, k, if j < k then j else j + 1);
    }
  }

  method UnlinkInner(node: MapNode, root: MapNode?, ghost chain: Chain, ghost k: nat,
                     ghost b: nat, ghost at: Place, ghost c: map<Key, nat>)
    requires IsBucket(root, chain, b, at, c) && k < |chain| && node == chain[k] && node.prev != null
    modifies node.prev, if node.next == null then {} else {node.next}
    ensures IsBucket(root, Without(chain, k), b, at, c - {node.key})
  {
    assert InPlace(chain, k);
    node.prev.next := node.next;
    if node.next != null {
      node.next.prev := node.prev;
    }
    forall i | 0 <= i < |chain|
      ensures PointsPast(chain, k, i)
    {
      assert old(InPlace(chain, i));
    }
    Spliced(chain, k);
    RemovedKeys(chain, k, b, at, c);
  }

  method DeleteBucket(root: MapNode?, ghost chain: Chain) returns (freed: Chain)
    requires Linked(root, chain)
    ensures freed == chain
  {
    freed := [];
    var n := root;
    while n != null
      invariant |freed| <= |chain| && freed == chain[..|freed|]
      invariant n == if |freed| < |chain| then chain[|freed|] else null
      decreases |chain| - |freed|
    {
      assert InPlace(chain, |freed|);
      var next := n.next;
      freed := freed + [n];
      n := next;
    }
  }

  // ----- The table

  /** The nodes bucket after bucket. */
  function Flatten(chains: seq<Chain>): Chain {
    if chains == [] then [] else Flatten(chains[..|chains| - 1]) + chains[|chains| - 1]
  }

  /** `c'` says about the keys of bucket `b` what `c` says. */
  ghost predicate SameIn(b: nat, at: Place, c: map<Key, nat>, c': map<Key, nat>) {
    forall key :: at(key) == b ==> (key in c <==> key in c') && (key in c ==> c[key] == c'[key])
  }

  class TecMap {
    var nodes: array<MapNode?>
    var size: nat
    var capacity: nat
    const at: Place
    ghost var chains: seq<Chain>
    ghost var repr: set<MapNode>
    ghost var contents: map<Key, nat>

    ghost predicate Valid()
      reads this, nodes, repr
    {
      && capacity == nodes.Length == |chains| && capacity > 0
      && (forall key :: at(key) < capacity)
      && size == |contents|
      && (forall b, k :: 0 <= b < |chains| && 0 <= k < |chains[b]| ==> chains[b][k] in repr)
      && (forall b :: 0 <= b < |chains| ==> BucketValid(b))
    }

    ghost predicate BucketValid(b: nat)
      requires b < nodes.Length && b < |chains| && (forall k :: 0 <= k < |chains[b]| ==> chains[b][k] in repr)
      reads this, nodes, repr
    {
      IsBucket(nodes[b], chains[b], b, at, contents)
    }

    constructor (size: nat, hash: Key -> nat)
      ensures Valid() && fresh(nodes) && repr == {} && contents == map[]
      ensures capacity == if size == 0 then DEFAULT_SIZE else size
      ensures forall key :: at(key) == hash(key) % capacity
    {
      var n := if size == 0 then DEFAULT_SIZE else size;
      nodes := new MapNode?[n](_ => null);
      this.size, capacity, at := 0, n, key => hash(key) % n;
      chains, repr, contents := seq(n, _ => []), {}, map[];
    }

    method FindNode(key: Key, ndx: nat) returns (node: MapNode?, ghost k: nat)
      requires Valid() && ndx == at(key)
      ensures node == null <==> key !in contents
      ensures node != null ==> k < |chains[ndx]| && node == chains[ndx][k] && node.key == key
      ensures node != null ==> node.value == contents[key]
    {
      assert BucketValid(ndx);
      node, k := FindIn(nodes[ndx], key, chains[ndx]);
    }

    method Get(key: Key) returns (value: nat)
      requires Valid()
      ensures value == if key in contents then contents[key] else 0
    {
      var ndx := at(key);
      var node, k := FindNode(key, ndx);
      value := if node != null then node.value else 0;
    }

    /** The buckets hold `c`, bucket `ndx` in the nodes of `chain`. */
    ghost predicate Hold(ndx: nat, chain: Chain, c: map<Key, nat>)
      reads this, nodes, repr, chain
      requires |chains| == nodes.Length
      requires forall b, k :: 0 <= b < |chains| && 0 <= k < |chains[b]| ==> chains[b][k] in repr
    {
      forall b :: 0 <= b < |chains| ==> IsBucket(nodes[b], if b == ndx then chain else chains[b], b, at, c)
    }

    /** Work on bucket `ndx` alone leaves the other buckets as they are. */
    twostate lemma OthersStay(ndx: nat, new chain: Chain, new c: map<Key, nat>)
      requires old(Valid()) && nodes == old(nodes) && chains == old(chains) && repr == old(repr)
      requires contents == old(contents) && ndx < |chains| && IsBucket(nodes[ndx], chain, ndx, at, c)
      requires forall b :: 0 <= b < |chains| && b != ndx ==> nodes[b] == old(nodes[b])
      requires forall n :: n in repr && at(n.key) != ndx ==> unchanged(n)
      requires forall key :: at(key) != ndx ==>
        (key in c <==> key in contents) && (key in c ==> c[key] == contents[key])
      ensures Hold(ndx, chain, c)
    {
      forall b | 0 <= b < |chains| && b != ndx
        ensures IsBucket(nodes[b], chains[b], b, at, c)
      {
        assert old(BucketValid(b));
        forall k | 0 <= k < |chains[b]|
          ensures InPlace(chains[b], k)
        {
          assert old(InPlace(chains[b], k));
        }
        assert SameIn(b, at, contents, c);
      }
    }

    /** The rest of an operation: the new size, and what the table now holds. */
    method Commit(newSize: nat, ghost ndx: nat, ghost chain: Chain, ghost c: map<Key, nat>, ghost more: set<MapNode>)
      requires capacity == nodes.Length == |chains| && capacity > 0 && (forall key :: at(key) < capacity)
      requires forall b, k :: 0 <= b < |chains| && 0 <= k < |chains[b]| ==> chains[b][k] in repr
      requires ndx < |chains| && newSize == |c| && Hold(ndx, chain, c) && forall n :: n in chain ==> n in repr + more
      modifies this
      ensures Valid() && nodes == old(nodes) && capacity == old(capacity)
      ensures chains == old(chains)[ndx := chain] && contents == c && repr == old(repr) + more
    {
      hide IsBucket;
      assert forall b :: 0 <= b < |chains| ==> IsBucket(nodes[b], if b == ndx then chain else chains[b], b, at, c);
      size, chains, contents, repr := newSize, chains[ndx := chain], c, repr + more;
      assert forall b :: 0 <= b < |chains| ==> BucketValid(b);
    }

    /** The chains are `before` with one new node for `key` in front of bucket `b`. */
    ghost predicate Grew(before: seq<Chain>, b: nat, key: Key)
      reads this, nodes, repr
    {
      && |chains| == |before| && b < |before|
      && |chains[b]| > 0 && chains[b][0].key == key
      && chains == before[b := [chains[b][0]] + before[b]]
    }

    method ReplaceValue(found: MapNode, value: nat, ndx: nat, ghost k: nat)
      requires Valid() && ndx < |chains| && k < |chains[ndx]| && found == chains[ndx][k]
      modifies this, found
      ensures Valid() && found.key in old(contents)
      ensures contents == old(contents)[found.key := value]
      ensures nodes == old(nodes) && capacity == old(capacity) && chains == old(chains) && repr == old(repr)
    {
      hide IsBucket;
      assert BucketValid(ndx);
      NodeIn(nodes[ndx], chains[ndx], k, ndx, at, contents);
      ChangeValue(found, value, nodes[ndx], chains[ndx], k, ndx, at, contents);
      CardReplaced(contents, found.key, value);
      OthersStay(ndx, chains[ndx], contents[found.key := value]);
      Commit(size, ndx, chains[ndx], contents[found.key := value], {});
    }

    method AddRoot(key: Key, value: nat, ndx: nat)
      requires Valid() && ndx == at(key) && key !in contents
      modifies this, nodes, repr
      ensures Valid() && nodes == old(nodes) && capacity == old(capacity) && fresh(repr - old(repr))
      ensures contents == old(contents)[key := value]
      ensures Grew(old(chains), ndx, key)
    {
      hide IsBucket;
      assert BucketValid(ndx);
      var root := nodes[ndx];
      NodeIn(root, chains[ndx], 0, ndx, at, contents);
      var newroot := PushFront(root, key, value, chains[ndx], ndx, at, contents);
      ghost var chain := [newroot] + chains[ndx];
      nodes[ndx] := newroot;
      OthersStay(ndx, chain, contents[key := value]);
      Commit(size + 1, ndx, chain, contents[key := value], {newroot});
    }

    /** A new key goes in front of its bucket; returns the old value. */
    method Set(key: Key, value: nat) returns (oldvalue: nat)
      requires Valid()
      modifies this, nodes, repr
      ensures Valid() && nodes == old(nodes) && capacity == old(capacity) && fresh(repr - old(repr))
      ensures contents == old(contents)[key := value]
      ensures oldvalue == if key in old(contents) then old(contents)[key] else 0
      ensures key in old(contents) ==> chains == old(chains)
      ensures key !in old(contents) ==> Grew(old(chains), at(key), key)
    {
      var ndx := at(key);
      var found, k := FindNode(key, ndx);
      if found != null {
        oldvalue := found.value;
        ReplaceValue(found, value, ndx, k);
      } else {
        oldvalue := 0;
        AddRoot(key, value, ndx);
      }
    }

    /** The chains are `before` without the node for `key` in bucket `b`. */
    ghost predicate Shrank(before: seq<Chain>, b: nat, key: Key)
      reads this
    {
      b < |before| &&
      exists k :: 0 <= k < |before[b]| && before[b][k].key == key && chains == before[b := Without(before[b], k)]
    }

    method DropRoot(node: MapNode, ndx: nat)
      requires Valid() && ndx < |chains| && nodes[ndx] == node
      modifies this, nodes, repr
      ensures Valid() && nodes == old(nodes) && capacity == old(capacity) && repr == old(repr)
      ensures node.key in old(contents) && contents == old(contents) - {node.key}
      ensures Shrank(old(chains), ndx, node.key)
    {
      hide IsBucket;
      assert BucketValid(ndx);
      NodeIn(node, chains[ndx], 0, ndx, at, contents);
      CardWithout(contents, node.key);
      ghost var chain := Without(chains[ndx], 0);
      var newroot := UnlinkRoot(node, chains[ndx], ndx, at, contents);
      nodes[ndx] := newroot;
      OthersStay(ndx, chain, contents - {node.key});
      Commit(size - 1, ndx, chain, contents - {node.key}, {});
    }

    method DropInner(node: MapNode, ndx: nat, ghost k: nat)
      requires Valid() && ndx < |chains| && k < |chains[ndx]| && node == chains[ndx][k] && node.prev != null
      modifies this, nodes, repr
      ensures Valid() && nodes == old(nodes) && capacity == old(capacity) && repr == old(repr)
      ensures node.key in old(contents) && contents == old(contents) - {node.key}
      ensures Shrank(old(chains), ndx, node.key)
    {
      hide IsBucket;
      assert BucketValid(ndx);
      NodeIn(nodes[ndx], chains[ndx], k, ndx, at, contents);
      CardWithout(contents, node.key);
      ghost var chain := Without(chains[ndx], k);
      UnlinkInner(node, nodes[ndx], chains[ndx], k, ndx, at, contents);
      OthersStay(ndx, chain, contents - {node.key});
      Commit(size - 1, ndx, chain, contents - {node.key}, {});
    }

    /** Returns the old value. */
    method Remove(key: Key) returns (oldvalue: nat)
      requires Valid()
      modifies this, nodes, repr
      ensures Valid() && nodes == old(nodes) && capacity == old(capacity) && repr == old(repr)
      ensures contents == old(contents) - {key}
      ensures oldvalue == if key in old(contents) then old(contents)[key] else 0
      ensures key !in old(contents) ==> chains == old(chains)
      ensures key in old(contents) ==> Shrank(old(chains), at(key), key)
    {
      var ndx := at(key);
      var node, k := FindNode(key, ndx);
      oldvalue := 0;
      if node == null {
        return;
      }
      assert BucketValid(ndx) && InPlace(chains[ndx], k);
      oldvalue := node.value;
      if node.prev == null {
        DropRoot(node, ndx);
      } else {
        DropInner(node, ndx, k);
      }
    }

    /** The loop over the buckets: every node is freed once, bucket after bucket. */
    method FreeAll() returns (freed: seq<MapNode>)
      requires Valid()
      modifies nodes
      ensures forall b :: 0 <= b < nodes.Length ==> nodes[b] == null
      ensures freed == Flatten(chains)
    {
      hide Keyed, Holds;
      freed := [];
      var i := 0;
      while i < capacity
        invariant i <= capacity == nodes.Length
        invariant freed == Flatten(chains[..i])
        invariant forall b :: 0 <= b < nodes.Length ==> nodes[b] == if b < i then null else old(nodes[b])
      {
        assert chains[..i + 1] == chains[..i] + [chains[i]];
        assert old(BucketValid(i));
        if nodes[i] != null {
          var f := DeleteBucket(nodes[i], chains[i]);
          freed := freed + f;
          nodes[i] := null;
        }
        i := i + 1;
      }
      assert chains[..i] == chains;
    }

    method Clear() returns (freed: seq<MapNode>)
      requires Valid()
      modifies this, nodes
      ensures Valid() && nodes == old(nodes) && capacity == old(capacity) && contents == map[] && size == 0
      ensures freed == Flatten(old(chains))
    {
      hide IsBucket;
      freed := FreeAll();
      size, contents, repr := 0, map[], {};
      chains := seq(capacity, _ => []);
      forall b | 0 <= b < |chains|
        ensures BucketValid(b)
      {
        EmptyBucket(b, at);
      }
    }
  }

  /** The table with the hash the code uses. */
  method Init(size: nat) returns (m: TecMap)
    ensures fresh(m) && fresh(m.nodes) && m.repr == {} && m.Valid() && m.contents == map[]
    ensures m.capacity == if size == 0 then 117 else size
    ensures forall key: Key :: m.at(key) == Fnv.Hash(key.text) % m.capacity
  {
    m := new TecMap(size, (key: Key) => Fnv.Hash(key.text));
  }
}
