/** The iterator of TecMap (tecc_map.c:204-249) over a map nobody changes meanwhile. */
module MapIteration {
  import opened Map

  // ----- Positions in the sequence of all nodes

  function StartOf(chains: seq<Chain>, b: nat): nat
    requires b <= |chains|
  {
    |Flatten(chains[..b])|
  }

  lemma {:induction false} FlattenPrefix(chains: seq<Chain>, b: nat)
    requires b <= |chains|
    ensures Flatten(chains[..b]) <= Flatten(chains)
    decreases |chains|
  {
    if b < |chains| {
      var n := |chains| - 1;
      FlattenPrefix(chains[..n], b);
      assert chains[..n][..b] == chains[..b];
    } else {
      assert chains[..b] == chains;
    }
  }

  lemma StartOfNext(chains: seq<Chain>, b: nat)
    requires b < |chains|
    ensures StartOf(chains, b + 1) == StartOf(chains, b) + |chains[b]|
    ensures Flatten(chains[..b + 1]) == Flatten(chains[..b]) + chains[b]
  {
    assert chains[..b + 1][..b] == chains[..b];
  }

  /** The `j`-th node of bucket `b` in the sequence of all nodes. */
  lemma NodeAt(chains: seq<Chain>, b: nat, j: nat)
    requires b < |chains| && j < |chains[b]|
    ensures StartOf(chains, b) + j < |Flatten(chains)|
    ensures Flatten(chains)[StartOf(chains, b) + j] == chains[b][j]
  {
    StartOfNext(chains, b);
    FlattenPrefix(chains, b + 1);
  }

  /** Empty buckets take no room. */
  lemma {:induction false} Gap(chains: seq<Chain>, a: nat, b: nat)
    requires a <= b <= |chains| && forall c :: a <= c < b ==> chains[c] == []
    ensures StartOf(chains, b) == StartOf(chains, a)
    decreases b
  {
    if a < b {
      StartOfNext(chains, b - 1);
      Gap(chains, a, b - 1);
    }
  }

  lemma StartOfEnd(chains: seq<Chain>)
    ensures StartOf(chains, |chains|) == |Flatten(chains)|
  {
    assert chains[..|chains|] == chains;
  }

  lemma NextInBucket(m: TecMap, b: nat, j: nat)
    requires m.Valid() && b < |m.chains| && j < |m.chains[b]|
    ensures m.chains[b][j].next == NextOf(m.chains[b], j) && |m.chains| == m.capacity
  {
    assert m.BucketValid(b) && InPlace(m.chains[b], j);
  }

  class MapIter {
    var table: TecMap?
    var pos: nat
    var cur: MapNode?
    ghost var index: nat

    constructor ()
      ensures table == null && cur == null
    {
      table, pos, cur, index := null, 0, null, 0;
    }

    /** The nodes in the order of the iteration. */
    ghost function Order(): Chain
      requires table != null
      reads this, table
    {
      Flatten(table.chains)
    }

    /** The iterator stands on node number `index`; on none only if the map is empty. */
    ghost predicate Valid()
      reads this, table, if table == null then {} else {table.nodes} + table.repr
    {
      && table != null && table.Valid()
      && (cur == null ==> Order() == [])
      && (cur != null ==> pos < |table.chains| && OnNode())
    }

    ghost predicate OnNode()
      requires table != null && pos < |table.chains|
      reads this, table
    {
      var start := StartOf(table.chains, pos);
      start <= index < start + |table.chains[pos]| && cur == table.chains[pos][index - start]
    }

    /** The root of the first bucket from `from` on that is not empty. */
    method FirstFrom(m: TecMap, from: nat) returns (p: nat, node: MapNode?)
      requires m.Valid() && from <= m.capacity
      ensures node != null ==> from <= p < |m.chains| && m.chains[p] != [] && node == m.chains[p][0]
      ensures node != null ==> StartOf(m.chains, p) == StartOf(m.chains, from)
      ensures node == null ==> StartOf(m.chains, from) == |Flatten(m.chains)|
    {
      p := from;
      while p < m.capacity
        invariant from <= p <= m.capacity && forall c :: from <= c < p ==> m.chains[c] == []
      {
        assert m.BucketValid(p);
        Gap(m.chains, from, p);
        node := m.nodes[p];
        if node != null {
          return;
        }
        p := p + 1;
      }
      Gap(m.chains, from, p);
      StartOfEnd(m.chains);
      node := null;
    }

    method Begin(m: TecMap) returns (r: MapNode?)
      requires m.Valid()
      modifies this
      ensures Valid() && table == m && r == cur
      ensures r == if Order() == [] then null else Order()[0]
      ensures r != null ==> index == 0
    {
      hide TecMap.Valid;
      table, pos, cur := m, 0, null;
      var p, node := FirstFrom(m, 0);
      if node != null {
        pos, cur, index := p, node, 0;
        NodeAt(m.chains, p, 0);
      }
      r := node;
    }

    /** The next node, or NULL at the end; at the end nothing changes, so it stays there. */
    method Next() returns (r: MapNode?)
      requires cur != null ==> Valid()
      modifies this
      ensures table == old(table)
      ensures old(cur) == null ==> r == null && unchanged(this)
      ensures old(cur) != null ==> Valid() && old(index) < |Order()|
      ensures old(cur) != null && old(index) + 1 == |Order()| ==> r == null && unchanged(this)
      ensures old(cur) != null && old(index) + 1 < |Order()| ==>
        index == old(index) + 1 && r == cur == Order()[index]
    {
      hide TecMap.Valid, StartOf, Flatten;
      if cur == null {
        return null;
      }
      ghost var j := index - StartOf(table.chains, pos);
      NextInBucket(table, pos, j);
      NodeAt(table.chains, pos, j);
      if cur.next != null {
        NodeAt(table.chains, pos, j + 1);
        cur, index := cur.next, index + 1;
        r := cur;
      } else {
        StartOfNext(table.chains, pos);
        var p, node := FirstFrom(table, pos + 1);
        if node != null {
          NodeAt(table.chains, p, 0);
          cur, pos, index := node, p, index + 1;
        }
        r := node;
      }
    }

    method Rewind() returns (r: MapNode?)
      requires table != null ==> table.Valid()
      modifies this
      ensures table == old(table)
      ensures table == null ==> r == null && unchanged(this)
      ensures table != null ==> Valid() && r == cur && r == (if Order() == [] then null else Order()[0])
      ensures r != null ==> index == 0
    {
      if table == null {
        return null;
      } else {
        r := Begin(table);
      }
    }
  }

  // ----- The nodes are the pairs of the map

  function KeysOf(chain: Chain): (r: seq<Key>)
    ensures |r| == |chain|
  {
    seq(|chain|, i requires 0 <= i < |chain| => chain[i].key)
  }

  ghost predicate Distinct(s: seq<Key>) {
    forall i, j :: 0 <= i < j < |s| ==> s[i] != s[j]
  }

  lemma {:induction false} DistinctCard(s: seq<Key>)
    requires Distinct(s)
    ensures |set x | x in s| == |s|
  {
    if s != [] {
      var n := |s| - 1;
      DistinctCard(s[..n]);
      assert s[n] !in s[..n];
      assert (set x | x in s) == (set x | x in s[..n]) + {s[n]};
    }
  }

  /** The keys of the first buckets are distinct and hash below them. */
  lemma {:induction false} KeysDistinct(chains: seq<Chain>, at: Place)
    requires forall b :: 0 <= b < |chains| ==> Keyed(chains[b], b, at)
    ensures Distinct(KeysOf(Flatten(chains)))
    ensures forall key :: key in KeysOf(Flatten(chains)) ==> at(key) < |chains|
  {
    if chains != [] {
      var n := |chains| - 1;
      KeysDistinct(chains[..n], at);
      var front, last := KeysOf(Flatten(chains[..n])), KeysOf(chains[n]);
      assert KeysOf(Flatten(chains)) == front + last;
      assert Distinct(last) && forall key :: key in last ==> at(key) == n;
    }
  }

  lemma NodeIsStored(m: TecMap, i: nat)
    requires m.Valid() && i < |Flatten(m.chains)|
    ensures var n := Flatten(m.chains)[i]; n.key in m.contents && m.contents[n.key] == n.value
  {
    var b, j := Locate(m.chains, i);
    assert m.BucketValid(b);
  }

  /** The bucket and the place in it of a node number. */
  lemma {:induction false} Locate(chains: seq<Chain>, i: nat) returns (b: nat, j: nat)
    requires i < |Flatten(chains)|
    ensures b < |chains| && j < |chains[b]| && Flatten(chains)[i] == chains[b][j]
  {
    var n := |chains| - 1;
    if i < |Flatten(chains[..n])| {
      b, j := Locate(chains[..n], i);
    } else {
      b, j := n, i - |Flatten(chains[..n])|;
    }
  }

  lemma StoredHasNode(m: TecMap, key: Key)
    requires m.Valid() && key in m.contents
    ensures key in KeysOf(Flatten(m.chains))
  {
    var b := m.at(key);
    assert m.BucketValid(b);
    var j :| 0 <= j < |m.chains[b]| && m.chains[b][j].key == key;
    NodeAt(m.chains, b, j);
    assert KeysOf(Flatten(m.chains))[StartOf(m.chains, b) + j] == key;
  }

  /** Every pair of the map is on exactly one node, so there are `size` nodes. */
  lemma OrderCovers(m: TecMap)
    requires m.Valid()
    ensures Distinct(KeysOf(Flatten(m.chains))) && |Flatten(m.chains)| == m.size
    ensures forall key :: key in m.contents <==> key in KeysOf(Flatten(m.chains))
    ensures forall n :: n in Flatten(m.chains) ==> n.key in m.contents && m.contents[n.key] == n.value
  {
    var keys := KeysOf(Flatten(m.chains));
    forall b | 0 <= b < |m.chains|
      ensures Keyed(m.chains[b], b, m.at)
    {
      assert m.BucketValid(b);
    }
    KeysDistinct(m.chains, m.at);
    forall i | 0 <= i < |Flatten(m.chains)|
      ensures var n := Flatten(m.chains)[i]; n.key in m.contents && m.contents[n.key] == n.value
    {
      NodeIsStored(m, i);
    }
    assert forall i :: 0 <= i < |keys| ==> keys[i] in m.contents;
    forall key | key in m.contents
      ensures key in keys
    {
      StoredHasNode(m, key);
    }
    DistinctCard(keys);
    assert (set key | key in keys) == m.contents.Keys;
  }

  ghost function PairsOf(chain: Chain): (r: seq<(Key, nat)>)
    reads chain
    ensures |r| == |chain| && forall i :: 0 <= i < |r| ==> r[i] == (chain[i].key, chain[i].value)
  {
    seq(|chain|, i requires 0 <= i < |chain| reads chain => (chain[i].key, chain[i].value))
  }

  /** `pairs` lists the map: each of its pairs once and nothing else. */
  ghost predicate Lists(pairs: seq<(Key, nat)>, contents: map<Key, nat>) {
    && |pairs| == |contents|
    && (forall i :: 0 <= i < |pairs| ==> pairs[i].0 in contents && contents[pairs[i].0] == pairs[i].1)
    && (forall i, j :: 0 <= i < j < |pairs| ==> pairs[i].0 != pairs[j].0)
    && (forall key :: key in contents ==> (key, contents[key]) in pairs)
  }

  lemma OrderListsMap(m: TecMap)
    requires m.Valid()
    ensures Lists(PairsOf(Flatten(m.chains)), m.contents)
  {
    hide TecMap.BucketValid;
    OrderCovers(m);
    var order := Flatten(m.chains);
    var pairs, keys := PairsOf(order), KeysOf(order);
    forall i | 0 <= i < |pairs|
      ensures pairs[i].0 == keys[i] && keys[i] in m.contents && m.contents[keys[i]] == pairs[i].1
    {
      assert order[i] in order;
    }
    forall key | key in m.contents
      ensures (key, m.contents[key]) in pairs
    {
      var i :| 0 <= i < |keys| && keys[i] == key;
      assert pairs[i] == (key, m.contents[key]);
    }
  }

  lemma NextPrefix<T>(items: seq<T>, k: nat)
    requires k < |items|
    ensures items[..k] + [items[k]] == items[..k + 1]
  {
  }

  /**
   The loop a user of the iterator writes, begin and then next until NULL: it ends, and has seen every
   pair of the map exactly once, in bucket order.
   */
  method Traverse(m: TecMap) returns (pairs: seq<(Key, nat)>)
    requires m.Valid()
    ensures pairs == PairsOf(Flatten(m.chains)) && |pairs| == m.size
    ensures Lists(pairs, m.contents)
  {
    hide TecMap.Valid, MapIter.Valid, Lists, PairsOf, Flatten;
    OrderListsMap(m);
    OrderCovers(m);
    ghost var order := Flatten(m.chains);
    ghost var all := PairsOf(order);
    pairs := [];
    var iter := new MapIter();
    var p := iter.Begin(m);
    while p != null
      invariant iter.table == m && m.Valid() && fresh(iter)
      invariant |pairs| <= |order| && pairs == all[..|pairs|]
      invariant p == if |pairs| < |order| then order[|pairs|] else null
      invariant p != null ==> iter.Valid() && iter.cur == p && iter.index == |pairs|
      decreases |order| - |pairs|
    {
      assert all[|pairs|] == (p.key, p.value);
      NextPrefix(all, |pairs|);
      pairs := pairs + [(p.key, p.value)];
      p := iter.Next();
    }
  }
}
