/** The router's prefix cache: per instance a map and a doubly linked list, kept in step by separate
    statements (sim/prefix_cache_index.go). */
module PrefixCache {
  import opened Sequences
  import opened RecencyOrder

  /** A chained block hash is determined by, and determines, the tokens up to the end of its block;
      it is written as those tokens. */
  type Hash = seq<int>

  class LruNode {
    const hash: Hash
    var prev: LruNode?
    var next: LruNode?
    ghost const owner: LruBlockCache

    constructor (h: Hash, ghost owner: LruBlockCache)
      ensures hash == h && prev == null && next == null && this.owner == owner
    {
      hash, prev, next, this.owner := h, null, null, owner;
    }
  }

  ghost function HashesOf(nodes: seq<LruNode>): (s: seq<Hash>)
    ensures |s| == |nodes| && forall i :: 0 <= i < |s| ==> s[i] == nodes[i].hash
  {
    seq(|nodes|, i requires 0 <= i < |nodes| => nodes[i].hash)
  }

  class LruBlockCache {
    var lookup: map<Hash, LruNode>
    var head: LruNode?     // most recently used
    var tail: LruNode?     // least recently used
    const capacity: nat
    ghost const instance: string
    ghost var nodes: seq<LruNode>   // the list, head to tail

    constructor (capacity: nat, ghost instance: string)
      requires capacity > 0
      ensures Valid() && this.capacity == capacity && this.instance == instance && nodes == []
    {
      lookup, head, tail, this.capacity, nodes := map[], null, null, capacity, [];
      this.instance := instance;
    }

    /** `nodes` is the list: every prev and next points at the neighbour, head and tail at the ends. */
    ghost predicate Linked()
      reads this`head, this`tail, this`nodes, Elements(nodes)
    {
      && Distinct(nodes)
      && (nodes == [] ==> head == null && tail == null)
      && (nodes != [] ==> head == nodes[0] && tail == nodes[|nodes| - 1] && nodes[0].prev == null && nodes[|nodes| - 1].next == null)
      && (forall i, j :: 0 <= i < j < |nodes| && j == i + 1 ==> nodes[i].next == nodes[j] && nodes[j].prev == nodes[i])
    }

    ghost predicate Valid()
      reads this, Elements(nodes)
    {
      Linked() && Indexes(lookup, nodes) && Owned() && |nodes| <= capacity && capacity > 0
    }

    /** No node is in two caches. */
    ghost predicate Owned()
      reads this
    {
      forall node :: node in Elements(nodes) ==> node.owner == this
    }

    /** The list and the map describe the same blocks: following next and prev leads back and forth
        between neighbours, the list ends where the map is exhausted, and neither outgrows the capacity. */
    lemma ListAndMapAgree()
      requires Valid()
      ensures tail == null <==> |lookup| == 0
      ensures tail == null <==> head == null
      ensures |lookup| <= capacity && Elements(Order()) == lookup.Keys
      ensures forall node :: node in Elements(nodes) ==>
                && (node.next != null ==> node.next in Elements(nodes) && (node.next as LruNode).prev == node)
                && (node.prev != null ==> node.prev in Elements(nodes) && (node.prev as LruNode).next == node)
    {
      HashesDistinct(lookup, nodes);
      forall node | node in Elements(nodes)
        ensures node.next != null ==> node.next in Elements(nodes) && (node.next as LruNode).prev == node
        ensures node.prev != null ==> node.prev in Elements(nodes) && (node.prev as LruNode).next == node
      {
        var i :| 0 <= i < |nodes| && nodes[i] == node;
        if i + 1 < |nodes| { assert nodes[i].next == nodes[i + 1]; }
        if i > 0 { assert nodes[i].prev == nodes[i - 1]; }
      }
    }

    /** The cached hashes, most recently used first. */
    ghost function Order(): seq<Hash>
      reads this
    {
      HashesOf(nodes)
    }

    method RemoveNode(node: LruNode, ghost i: nat)
      requires Linked() && i < |nodes| && nodes[i] == node
      modifies this`head, this`tail, this`nodes, Elements(nodes)
      ensures Linked() && nodes == RemoveAt(old(nodes), i)
      ensures node.prev == null && node.next == null
    {
      ghost var s := nodes;
      assert i > 0 ==> s[i - 1].next == s[i] && s[i].prev == s[i - 1];
      assert i + 1 < |s| ==> s[i].next == s[i + 1] && s[i + 1].prev == s[i];
      if node.prev != null {
        node.prev.next := node.next;
      } else {
        head := node.next;
      }
      if node.next != null {
        node.next.prev := node.prev;
      } else {
        tail := node.prev;
      }
      node.prev := null;
      node.next := null;
      nodes := RemoveAt(nodes, i);
      assert forall k :: 0 <= k < |nodes| ==> nodes[k] == if k < i then s[k] else s[k + 1];
    }

    method PushHead(node: LruNode)
      requires Linked() && node !in nodes
      modifies this`head, this`tail, this`nodes, node, Elements(nodes)
      ensures Linked() && nodes == [node] + old(nodes)
    {
      node.prev := null;
      node.next := head;
      if head != null {
        assert head in nodes;
        head.prev := node;
      }
      head := node;
      if tail == null {
        tail := node;
      }
      nodes := [node] + nodes;
    }

    /** Called at capacity only, where the list cannot be empty: `tail` is a node. */
    method EvictOldest()
      requires Valid() && |lookup| >= capacity
      modifies this`lookup, this`head, this`tail, this`nodes, Elements(nodes)
      ensures Valid() && old(nodes) != [] && nodes == RemoveAt(old(nodes), |old(nodes)| - 1)
      ensures lookup == old(lookup) - {old(nodes)[|old(nodes)| - 1].hash}
    {
      hide Indexes, RemoveAt, Distinct;
      ghost var last := |nodes| - 1;
      SameSize(lookup, nodes);
      IndexesLess(lookup, nodes, last);
      LastApart(lookup, nodes);
      RemoveAtLength(nodes, last);
      var node: LruNode := tail;
      lookup := lookup - {node.hash};
      RemoveNode(node, last);
    }

    method Touch(h: Hash)
      requires Valid()
      modifies this`lookup, this`head, this`tail, this`nodes, Elements(nodes)
      ensures Valid() && fresh(Elements(nodes) - old(Elements(nodes)))
      ensures Order() == RecencyOrder.Touch(old(Order()), capacity, h)
    {
      hide Linked, Indexes, RecencyOrder.Touch, HashesOf;
      if h in lookup {
        var node := lookup[h];
        ghost var i := Listed(lookup, nodes, h);
        TouchHit(lookup, nodes, i, capacity);
        MoveToHead(node, i);
        return;
      }
      TouchMiss(lookup, nodes, h, capacity);
      ghost var was := nodes;
      if |lookup| >= capacity {
        LastApart(lookup, nodes);
        EvictOldest();
      }
      ghost var kept := nodes;
      var node := AddNew(h);
      PushedHashes(node, was, kept, capacity);
    }

    method MoveToHead(node: LruNode, ghost i: nat)
      requires Valid() && i < |nodes| && nodes[i] == node
      modifies this`head, this`tail, this`nodes, Elements(nodes)
      ensures Valid() && nodes == [node] + RemoveAt(old(nodes), i) && Elements(nodes) <= old(Elements(nodes))
    {
      hide Linked, Indexes, RemoveAt, Elements;
      IndexesMoved(lookup, nodes, i);
      RemoveAtLength(nodes, i);
      NodeApart(lookup, nodes, i);
      RemoveNode(node, i);
      PushHead(node);
    }

    method AddNew(h: Hash) returns (node: LruNode)
      requires Valid() && |nodes| < capacity && h !in lookup
      modifies this`lookup, this`head, this`tail, this`nodes, Elements(nodes)
      ensures Valid() && fresh(Elements(nodes) - old(Elements(nodes)))
      ensures fresh(node) && node.hash == h && nodes == [node] + old(nodes)
    {
      hide Linked, Indexes;
      node := new LruNode(h, this);
      IndexesMore(lookup, nodes, node);
      lookup := lookup[h := node];
      assert forall x :: x in Elements(nodes) ==> x in old(Elements(nodes));
      PushHead(node);
    }
  }

  /** The map finds exactly the listed nodes, by their hashes. */
  ghost predicate Indexes(lookup: map<Hash, LruNode>, nodes: seq<LruNode>) {
    && |lookup| == |nodes| && Distinct(nodes)
    && (forall i :: 0 <= i < |nodes| ==> nodes[i].hash in lookup && lookup[nodes[i].hash] == nodes[i])
    && (forall h :: h in lookup ==> lookup[h] in nodes && lookup[h].hash == h)
  }

  lemma Listed(lookup: map<Hash, LruNode>, nodes: seq<LruNode>, h: Hash) returns (i: nat)
    requires Indexes(lookup, nodes) && h in lookup
    ensures i < |nodes| && nodes[i] == lookup[h] && nodes[i].hash == h
  {
    i :| 0 <= i < |nodes| && nodes[i] == lookup[h];
  }

  lemma HashesApart(lookup: map<Hash, LruNode>, nodes: seq<LruNode>, i: nat)
    requires Indexes(lookup, nodes) && i < |nodes|
    ensures forall k :: 0 <= k < |nodes| && k != i ==> nodes[k].hash != nodes[i].hash
  {
    forall k | 0 <= k < |nodes| && k != i ensures nodes[k].hash != nodes[i].hash {
      assert lookup[nodes[k].hash] == nodes[k];
    }
  }

  lemma HashesDistinct(lookup: map<Hash, LruNode>, nodes: seq<LruNode>)
    requires Indexes(lookup, nodes)
    ensures Distinct(HashesOf(nodes)) && Elements(HashesOf(nodes)) == lookup.Keys
  {
    forall i, j | 0 <= i < j < |nodes| ensures HashesOf(nodes)[i] != HashesOf(nodes)[j] {
      HashesApart(lookup, nodes, i);
    }
    forall h | h in lookup ensures h in HashesOf(nodes) {
      var i := Listed(lookup, nodes, h);
      assert HashesOf(nodes)[i] == h;
    }
  }

  /** Taking a node out of both structures keeps them in step. */
  lemma IndexesLess(lookup: map<Hash, LruNode>, nodes: seq<LruNode>, i: nat)
    requires Indexes(lookup, nodes) && i < |nodes|
    ensures Indexes(lookup - {nodes[i].hash}, RemoveAt(nodes, i))
  {
    hide Distinct, Without;
    var h, rest := nodes[i].hash, RemoveAt(nodes, i);
    var left := lookup - {h};
    assert left.Keys == lookup.Keys - {h};
    HashesApart(lookup, nodes, i);
    RemoveAtIsWithout(nodes, i);
    forall k | 0 <= k < |rest| ensures rest[k].hash in left && left[rest[k].hash] == rest[k] {
      assert rest[k] == nodes[if k < i then k else k + 1];
    }
    forall g | g in left ensures left[g] in rest && left[g].hash == g {
      var j := Listed(lookup, nodes, g);
      assert rest[if j < i then j else j - 1] == nodes[j];
    }
  }

  lemma SameSize(lookup: map<Hash, LruNode>, nodes: seq<LruNode>)
    requires Indexes(lookup, nodes)
    ensures |lookup| == |nodes| && Distinct(nodes)
  {
  }

  lemma IndexesMoved(lookup: map<Hash, LruNode>, nodes: seq<LruNode>, i: nat)
    requires Indexes(lookup, nodes) && i < |nodes|
    ensures Indexes(lookup, [nodes[i]] + RemoveAt(nodes, i))
  {
    RemoveAtIsWithout(nodes, i);
    RemoveAtLength(nodes, i);
    var rest, moved := RemoveAt(nodes, i), [nodes[i]] + RemoveAt(nodes, i);
    DistinctConcat([nodes[i]], rest);
    hide Distinct, RemoveAt, Without;
    forall k | 0 <= k < |moved| ensures moved[k].hash in lookup && lookup[moved[k].hash] == moved[k] {
      assert moved[k] in nodes by {
        if k > 0 { assert moved[k] == rest[k - 1] && rest[k - 1] in rest; }
      }
    }
    forall h | h in lookup ensures lookup[h] in moved {
      assert lookup[h] in nodes;
      assert lookup[h] != nodes[i] ==> lookup[h] in rest;
    }
  }

  lemma IndexesMore(lookup: map<Hash, LruNode>, nodes: seq<LruNode>, node: LruNode)
    requires Indexes(lookup, nodes) && node.hash !in lookup
    ensures node !in nodes && Indexes(lookup[node.hash := node], [node] + nodes)
  {
    var z, more := lookup[node.hash := node], [node] + nodes;
    assert z.Keys == lookup.Keys + {node.hash};
    assert node !in nodes;
    DistinctConcat([node], nodes);
    hide Distinct;
    forall h | h in z ensures z[h] in more && z[h].hash == h {
      assert h != node.hash ==> lookup[h] in nodes;
    }
  }

  lemma NodeApart(lookup: map<Hash, LruNode>, nodes: seq<LruNode>, i: nat)
    requires Indexes(lookup, nodes) && i < |nodes|
    ensures nodes[i] !in RemoveAt(nodes, i) && nodes[i] in Elements(nodes)
    ensures Elements(RemoveAt(nodes, i)) <= Elements(nodes)
    ensures Elements([nodes[i]] + RemoveAt(nodes, i)) <= Elements(nodes)
  {
    RemoveAtIsWithout(nodes, i);
    ElementsRemoveAt(nodes, i);
    ElementsConcat([nodes[i]], RemoveAt(nodes, i));
    ElementsOfOne(nodes[i]);
  }

  lemma LastApart(lookup: map<Hash, LruNode>, nodes: seq<LruNode>)
    requires Indexes(lookup, nodes) && nodes != []
    ensures Elements(RemoveAt(nodes, |nodes| - 1)) <= Elements(nodes)
  {
    NodeApart(lookup, nodes, |nodes| - 1);
  }

  lemma HashesMoved(nodes: seq<LruNode>, i: nat)
    requires i < |nodes|
    ensures HashesOf([nodes[i]] + RemoveAt(nodes, i)) == [nodes[i].hash] + RemoveAt(HashesOf(nodes), i)
  {
  }

  lemma TouchHit(lookup: map<Hash, LruNode>, nodes: seq<LruNode>, i: nat, capacity: nat)
    requires Indexes(lookup, nodes) && i < |nodes| && capacity > 0
    ensures HashesOf([nodes[i]] + RemoveAt(nodes, i)) == RecencyOrder.Touch(HashesOf(nodes), capacity, nodes[i].hash)
  {
    hide Indexes, Without, RemoveAt, HashesOf, Distinct, Elements;
    HashesDistinct(lookup, nodes);
    HashesMoved(nodes, i);
    WithoutAt(HashesOf(nodes), i);
    assert HashesOf(nodes)[i] == nodes[i].hash;
  }

  /** What a new hash finds: it is not listed, and the list is at most full. */
  lemma TouchMiss(lookup: map<Hash, LruNode>, nodes: seq<LruNode>, h: Hash, capacity: nat)
    requires Indexes(lookup, nodes) && h !in lookup
    ensures |lookup| == |nodes| && h !in HashesOf(nodes)
  {
    HashesDistinct(lookup, nodes);
    assert h !in Elements(HashesOf(nodes));
  }

  lemma PushedHashes(node: LruNode, was: seq<LruNode>, kept: seq<LruNode>, capacity: nat)
    requires capacity > 0 && node.hash !in HashesOf(was)
    requires kept == if |was| >= capacity then RemoveAt(was, |was| - 1) else was
    ensures HashesOf([node] + kept) == RecencyOrder.Touch(HashesOf(was), capacity, node.hash)
  {
  }
}
