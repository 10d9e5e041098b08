/** The prefix cache index: one LRU cache per instance, and the block hashes of a prompt
    (sim/prefix_cache_index.go, sim/internal/hash/hash.go). */
module PrefixIndex {
  import opened Arithmetic
  import opened Sequences
  import opened RecencyOrder
  import opened PrefixCache

  // ----- Block hashes -----

  /** Chaining a block to the hash before it. */
  function HashBlock(prev: Hash, block: seq<int>): Hash {
    prev + block
  }

  /** The tokens up to the end of block `k`. */
  function UpTo(size: nat, tokens: seq<int>, k: nat): Hash
    requires size > 0 && k < |tokens| / size
  {
    BlockEnd(|tokens|, size, k);
    tokens[..(k + 1) * size]
  }

  function BlockHashes(size: nat, tokens: seq<int>): (hs: seq<Hash>)
    requires size > 0
    ensures |hs| == |tokens| / size
    ensures forall k :: 0 <= k < |hs| ==> hs[k] == UpTo(size, tokens, k)
  {
    seq(|tokens| / size, k requires 0 <= k < |tokens| / size => UpTo(size, tokens, k))
  }

  lemma BlockEnd(n: nat, size: nat, k: nat)
    requires size > 0 && k < n / size
    ensures (k + 1) * size <= n
  {
    MulMonotone(k + 1, n / size, size);
    assert n / size * size <= n;
  }

  /** One hash per full block, each chained to the one before; a rest that fills no block is ignored. */
  method ComputeBlockHashes(size: nat, tokens: seq<int>) returns (hashes: seq<Hash>)
    requires size > 0
    ensures hashes == BlockHashes(size, tokens)
  {
    var numBlocks := |tokens| / size;
    hashes := [];
    var prev: Hash := [];
    var i, start := 0, 0;
    while i < numBlocks
      invariant i <= numBlocks && |hashes| == i && start == i * size <= |tokens|
      invariant prev == tokens[..start]
      invariant forall k :: 0 <= k < i ==> hashes[k] == UpTo(size, tokens, k)
    {
      BlockEnd(|tokens|, size, i);
      assert (i + 1) * size == start + size;
      prev := HashBlock(prev, tokens[start..start + size]);
      assert prev == tokens[..start + size] == UpTo(size, tokens, i);
      hashes := hashes + [prev];
      i, start := i + 1, start + size;
    }
  }

  /** A prompt's block hashes are all different. */
  lemma HashesDiffer(size: nat, tokens: seq<int>)
    requires size > 0
    ensures Distinct(BlockHashes(size, tokens))
  {
    var hs := BlockHashes(size, tokens);
    forall i, j | 0 <= i < j < |hs| ensures hs[i] != hs[j] {
      BlockEnd(|tokens|, size, i);
      BlockEnd(|tokens|, size, j);
      assert |hs[i]| == (i + 1) * size && |hs[j]| == (j + 1) * size;
      MulMonotone(i + 2, j + 1, size);
      assert (i + 2) * size == (i + 1) * size + size;
    }
  }

  /** Prompts agree on a block hash exactly when they agree on every token up to its end, and then on
      every hash before it. */
  lemma HashesTellPrefix(size: nat, a: seq<int>, b: seq<int>, k: nat)
    requires size > 0 && k < |a| / size && k < |b| / size
    ensures (k + 1) * size <= |a| && (k + 1) * size <= |b|
    ensures BlockHashes(size, a)[k] == BlockHashes(size, b)[k] <==> a[..(k + 1) * size] == b[..(k + 1) * size]
    ensures BlockHashes(size, a)[k] == BlockHashes(size, b)[k] ==> BlockHashes(size, a)[..k + 1] == BlockHashes(size, b)[..k + 1]
  {
    BlockEnd(|a|, size, k);
    BlockEnd(|b|, size, k);
    if UpTo(size, a, k) == UpTo(size, b, k) {
      forall i | 0 <= i <= k ensures UpTo(size, a, i) == UpTo(size, b, i) {
        MulMonotone(i + 1, k + 1, size);
        assert UpTo(size, a, i) == UpTo(size, a, k)[..(i + 1) * size];
        assert UpTo(size, b, i) == UpTo(size, b, k)[..(i + 1) * size];
      }
      hide UpTo;
      assert forall i :: 0 <= i <= k ==> BlockHashes(size, a)[i] == BlockHashes(size, b)[i];
    }
  }

  // ----- The index -----

  class PrefixCacheIndex {
    const blockSize: nat
    const lruCapacity: nat
    var instances: map<string, LruBlockCache>
    ghost var touched: map<string, seq<Hash>>   // every hash ever recorded, per instance
    ghost var Repr: set<object>

    /** The panics of the constructor are its preconditions. */
    constructor (blockSize: nat, lruCapacity: nat)
      requires blockSize > 0 && lruCapacity > 0
      ensures Valid() && this.blockSize == blockSize && this.lruCapacity == lruCapacity
      ensures instances == map[] && fresh(Repr)
    {
      this.blockSize, this.lruCapacity, instances, touched := blockSize, lruCapacity, map[], map[];
      Repr := {this};
    }

    ghost predicate Valid()
      reads this, Repr
    {
      && this in Repr && blockSize > 0 && lruCapacity > 0 && touched.Keys == instances.Keys
      && forall id :: id in instances ==> Holds(id)
    }

    /** The instance's cache is its own, and has seen exactly its touches. */
    ghost predicate Holds(id: string)
      requires lruCapacity > 0 && id in instances && id in touched
      reads this, Repr
    {
      var cache := instances[id];
      && cache in Repr && Elements(cache.nodes) <= Repr
      && cache.instance == id && cache.capacity == lruCapacity && cache.Valid()
      && cache.Order() == TouchAll([], lruCapacity, touched[id])
    }

    /** What an instance is believed to hold, most recently recorded first. */
    ghost function Contents(id: string): seq<Hash>
      requires Valid()
      reads this, Repr
    {
      if id in instances then instances[id].Order() else []
    }

    /** A block counts only behind cached blocks; recency does not change. */
    method MatchLength(hashes: seq<Hash>, id: string) returns (matched: nat)
      requires Valid()
      ensures matched == RecencyOrder.MatchLength(hashes, Elements(Contents(id)))
    {
      hide Valid, Contents, Elements, RecencyOrder.MatchLength;
      Cached(id);
      if id !in instances {
        NothingMatches(hashes);
        return 0;
      }
      var lookup := instances[id].lookup;
      matched := 0;
      while matched < |hashes|
        invariant matched <= |hashes|
        invariant forall i :: 0 <= i < matched ==> hashes[i] in lookup
      {
        if hashes[matched] !in lookup { break; }
        matched := matched + 1;
      }
      MatchIsUnique(hashes, lookup.Keys, matched);
    }

    lemma Cached(id: string)
      requires Valid()
      ensures Elements(Contents(id)) == if id in instances then instances[id].lookup.Keys else {}
    {
      if id in instances {
        assert Holds(id);
        HashesDistinct(instances[id].lookup, instances[id].nodes);
        hide Indexes, LruBlockCache.Linked, HashesOf;
      }
    }

    /** After any history an instance's cache is the most recently recorded distinct hashes, as many as
        fit, in the order of their last recording. */
    lemma HoldsMostRecent(id: string)
      requires Valid() && id in instances
      ensures id in touched && Contents(id) == Take(Recent(touched[id]), lruCapacity)
      ensures ByLastTouch(touched[id], Recent(touched[id]))
    {
      hide LruBlockCache.Valid, TouchAll, Recent, Take, HashesOf, ByLastTouch;
      assert Holds(id);
      KeepsMostRecent(lruCapacity, touched[id]);
      RecentIsByLastTouch(touched[id]);
    }

    lemma ContentsBounded(id: string)
      requires Valid()
      ensures Distinct(Contents(id)) && |Contents(id)| <= lruCapacity
    {
      if id in instances {
        hide LruBlockCache.Valid, TouchAll, HashesOf;
        assert Holds(id);
        TouchAllKeeps([], lruCapacity, touched[id]);
      }
    }

    method InstanceBlockCount(id: string) returns (n: nat)
      requires Valid()
      ensures n == |Contents(id)| <= lruCapacity
    {
      if id !in instances { return 0; }
      assert Holds(id);
      n := |instances[id].lookup|;
    }

    /** The instance's cache is touched by every hash in turn; every other one is left alone. */
    method RecordBlocks(hashes: seq<Hash>, id: string)
      requires Valid()
      modifies Repr
      ensures Valid() && fresh(Repr - old(Repr))
      ensures Contents(id) == TouchAll(old(Contents(id)), lruCapacity, hashes)
      ensures forall other :: other != id ==> Contents(other) == old(Contents(other))
    {
      hide Valid, Contents, TouchAll, RecencyOrder.Touch;
      StillValid();
      if id !in instances {
        Open(id);
      }
      var i := 0;
      Untouched(Contents(id), lruCapacity);
      while i < |hashes|
        invariant i <= |hashes| && Valid() && id in instances && fresh(Repr - old(Repr))
        invariant Contents(id) == TouchAll(old(Contents(id)), lruCapacity, hashes[..i])
        invariant forall other :: other != id ==> Contents(other) == old(Contents(other))
      {
        TouchedMore(old(Contents(id)), lruCapacity, hashes, i);
        TouchIn(id, hashes[i]);
        i := i + 1;
      }
      assert hashes[..i] == hashes;
    }

    lemma StillValid()
      requires Valid()
      ensures lruCapacity > 0 && this in Repr
    {
    }

    method Open(id: string)
      requires Valid() && id !in instances
      modifies this
      ensures Valid() && id in instances && Contents(id) == old(Contents(id)) && fresh(Repr - old(Repr))
      ensures forall other :: other != id ==> Contents(other) == old(Contents(other))
    {
      hide Indexes, LruBlockCache.Linked, LruBlockCache.Owned, TouchAll, HashesOf;
      Untouched([], lruCapacity);
      var cache := new LruBlockCache(lruCapacity, id);
      instances := instances[id := cache];
      touched := touched[id := []];
      Repr := Repr + {cache};
      assert cache.Order() == [];
      forall other | other in instances ensures Holds(other) {
        assert other != id ==> old(Holds(other));
      }
    }

    method TouchIn(id: string, h: Hash)
      requires Valid() && id in instances
      modifies Repr
      ensures Valid() && instances == old(instances) && fresh(Repr - old(Repr))
      ensures Contents(id) == RecencyOrder.Touch(old(Contents(id)), lruCapacity, h)
      ensures forall other :: other != id ==> Contents(other) == old(Contents(other))
    {
      hide LruBlockCache.Linked, Indexes, TouchAll, RecencyOrder.Touch, HashesOf;
      var cache := instances[id];
      assert Holds(id);
      cache.Touch(h);
      TouchAllConcat([], lruCapacity, touched[id], [h]);
      TouchOne(TouchAll([], lruCapacity, touched[id]), lruCapacity, h);
      touched := touched[id := touched[id] + [h]];
      Repr := Repr + Elements(cache.nodes);
      forall other | other in instances ensures Holds(other) {
        assert old(Holds(other));
        if other != id {
          assert instances[other].instance == other;
          assert forall node :: node in Elements(instances[other].nodes) ==> node.owner == instances[other];
        }
      }
    }
  }

  lemma TouchOne(order: seq<Hash>, capacity: nat, h: Hash)
    requires capacity > 0
    ensures TouchAll(order, capacity, [h]) == RecencyOrder.Touch(order, capacity, h)
  {
  }

  lemma Untouched(order: seq<Hash>, capacity: nat)
    requires capacity > 0
    ensures TouchAll(order, capacity, []) == order
  {
  }

  lemma TouchedMore(order: seq<Hash>, capacity: nat, hashes: seq<Hash>, i: nat)
    requires capacity > 0 && i < |hashes|
    ensures TouchAll(order, capacity, hashes[..i + 1])
            == RecencyOrder.Touch(TouchAll(order, capacity, hashes[..i]), capacity, hashes[i])
  {
    assert hashes[..i + 1][..i] == hashes[..i];
  }

  lemma NothingMatches(hashes: seq<Hash>)
    ensures RecencyOrder.MatchLength(hashes, {}) == 0
  {
  }
}
