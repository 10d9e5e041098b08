/** The prefix-affinity scorer and its observer, sharing memoised block hashes
    (sim/routing_prefix_scorer.go). */
module PrefixAffinity {
  import opened Requests
  import opened Sequences
  import opened RecencyOrder
  import opened PrefixCache
  import opened PrefixIndex

  const DEFAULT_LRU_CAPACITY: nat := 10000

  /** The share of a prompt's blocks that are cached, from the start on. */
  function Affinity(hashes: seq<Hash>, cached: set<Hash>): real {
    if hashes == [] then 0.0 else RecencyOrder.MatchLength(hashes, cached) as real / |hashes| as real
  }

  class PrefixScorer {
    const idx: PrefixCacheIndex
    var cachedHashes: seq<Hash>          // empty is the nil slice
    var cachedReqID: string
    ghost var cachedTokens: seq<int>     // the prompt they were computed from

    constructor (blockSize: nat)
      requires blockSize > 0
      ensures Valid() && fresh(idx) && fresh(idx.Repr)
      ensures idx.blockSize == blockSize && idx.lruCapacity == 10000
      ensures forall id :: idx.Contents(id) == []
    {
      var index := new PrefixCacheIndex(blockSize, DEFAULT_LRU_CAPACITY);
      idx := index;
      cachedHashes, cachedReqID, cachedTokens := [], "", [];
      new;
      assert |BlockHashes(blockSize, [])| == 0;
    }

    ghost predicate Valid()
      reads this, idx, idx.Repr
    {
      && idx.Valid() && idx.blockSize > 0 && idx.lruCapacity > 0 && this !in idx.Repr
      && cachedHashes == BlockHashes(idx.blockSize, cachedTokens)
    }

    /** Scores every instance by what it has cached of the prompt; nothing is recorded. */
    method Score(req: Option<Request>, snapshots: seq<string>) returns (scores: map<string, real>)
      requires Valid()
      modifies this
      ensures Valid()
      ensures req.None? ==> scores == map[] && cachedTokens == old(cachedTokens) && cachedReqID == old(cachedReqID)
      ensures req.Some? ==> cachedReqID == req.value.id && cachedTokens == req.value.inputTokens
      ensures req.Some? ==> scores.Keys == Elements(snapshots)
      ensures req.Some? ==> forall id :: id in scores ==>
                scores[id] == Affinity(BlockHashes(idx.blockSize, req.value.inputTokens), Elements(idx.Contents(id)))
    {
      hide PrefixCacheIndex.Valid, PrefixCacheIndex.Contents, BlockHashes, RecencyOrder.MatchLength;
      scores := map[];
      if req.None? { return; }
      cachedHashes := ComputeBlockHashes(idx.blockSize, req.value.inputTokens);
      cachedReqID, cachedTokens := req.value.id, req.value.inputTokens;
      var total := |cachedHashes|;
      var i := 0;
      while i < |snapshots|
        invariant i <= |snapshots| && scores.Keys == Elements(snapshots[..i])
        invariant Valid() && total == |cachedHashes|
        invariant cachedReqID == req.value.id && cachedTokens == req.value.inputTokens
        invariant forall id :: id in scores ==> scores[id] == Affinity(cachedHashes, Elements(idx.Contents(id)))
      {
        var id := snapshots[i];
        assert snapshots[..i + 1] == snapshots[..i] + [id];
        if total == 0 {
          scores := scores[id := 0.0];
        } else {
          var matched := idx.MatchLength(cachedHashes, id);
          scores := scores[id := matched as real / total as real];
        }
        i := i + 1;
      }
      assert snapshots[..i] == snapshots;
    }

    /** Records the prompt at its target. The memoised hashes stand in for a fresh computation whenever
        the last scored request had the same id; they are the same if it had the same tokens. */
    method Observe(req: Option<Request>, target: string)
      requires Valid()
      modifies idx, idx.Repr
      ensures Valid() && fresh(idx.Repr - old(idx.Repr))
      ensures req.None? ==> forall id :: idx.Contents(id) == old(idx.Contents(id))
      ensures req.Some? ==> forall id :: id != target ==> idx.Contents(id) == old(idx.Contents(id))
      ensures req.Some? && (req.value.id == cachedReqID ==> req.value.inputTokens == cachedTokens) ==>
                idx.Contents(target) == TouchAll(old(idx.Contents(target)), idx.lruCapacity, BlockHashes(idx.blockSize, req.value.inputTokens))
    {
      hide PrefixCacheIndex.Valid, PrefixCacheIndex.Contents, BlockHashes, TouchAll;
      if req.None? { return; }
      var hashes := cachedHashes;
      if req.value.id != cachedReqID || cachedHashes == [] {
        hashes := ComputeBlockHashes(idx.blockSize, req.value.inputTokens);
      }
      idx.RecordBlocks(hashes, target);
    }
  }

  // ----- Stickiness -----

  /** An instance that was just sent a prompt of 1 to `capacity` blocks has all of it: affinity 1. */
  lemma RoutedPromptSticks(order: seq<Hash>, capacity: nat, size: nat, prompt: seq<int>)
    requires capacity > 0 && size > 0 && Distinct(order) && |order| <= capacity
    requires var hs := BlockHashes(size, prompt); 1 <= |hs| <= capacity
    ensures var hs := BlockHashes(size, prompt);
            Affinity(hs, Elements(TouchAll(order, capacity, hs))) == 1.0
  {
    var hs := BlockHashes(size, prompt);
    BlockTotal(|prompt|, size);
    hide TouchAll, BlockHashes, UpTo, RecencyOrder.MatchLength, Distinct, Elements;
    SharedBlocksMatch(order, capacity, size, prompt, prompt, |hs|);
    Whole(|hs| as real);
  }

  lemma BlockTotal(n: nat, size: nat)
    requires size > 0
    ensures n / size * size <= n
  {
  }

  lemma Whole(d: real)
    requires d > 0.0
    ensures d / d == 1.0
  {
  }

  /** A prompt that shares its first `k` blocks with it matches at least those. */
  lemma SharedBlocksMatch(order: seq<Hash>, capacity: nat, size: nat, prompt: seq<int>, other: seq<int>, k: nat)
    requires capacity > 0 && size > 0 && Distinct(order) && |order| <= capacity
    requires var hs := BlockHashes(size, prompt); 1 <= |hs| <= capacity && k <= |hs|
    requires k <= |BlockHashes(size, other)| && k * size <= |prompt| && k * size <= |other| && prompt[..k * size] == other[..k * size]
    ensures RecencyOrder.MatchLength(BlockHashes(size, other), Elements(TouchAll(order, capacity, BlockHashes(size, prompt)))) >= k
  {
    var hs, os := BlockHashes(size, prompt), BlockHashes(size, other);
    var cached := Elements(TouchAll(order, capacity, hs));
    HashesDiffer(size, prompt);
    MatchIsLongest(os, cached);
    if k > 0 {
      HashesTellPrefix(size, prompt, other, k - 1);
      forall i | 0 <= i < k ensures os[i] in cached {
        assert hs[i] == hs[..k][i] == os[..k][i];
        TouchedAreCached(order, capacity, hs, i);
      }
    }
  }

  lemma SharedBlocksScore(order: seq<Hash>, capacity: nat, size: nat, prompt: seq<int>, other: seq<int>, k: nat)
    requires capacity > 0 && size > 0 && Distinct(order) && |order| <= capacity
    requires var hs := BlockHashes(size, prompt); 1 <= |hs| <= capacity && k <= |hs|
    requires k <= |BlockHashes(size, other)| && k * size <= |prompt| && k * size <= |other| && prompt[..k * size] == other[..k * size]
    requires BlockHashes(size, other) != []
    ensures Affinity(BlockHashes(size, other), Elements(TouchAll(order, capacity, BlockHashes(size, prompt))))
            >= k as real / |BlockHashes(size, other)| as real
  {
    SharedBlocksMatch(order, capacity, size, prompt, other, k);
    DivMonotone(k as real,
                RecencyOrder.MatchLength(BlockHashes(size, other), Elements(TouchAll(order, capacity, BlockHashes(size, prompt)))) as real,
                |BlockHashes(size, other)| as real);
  }

  lemma DivMonotone(a: real, b: real, d: real)
    requires a <= b && d > 0.0
    ensures a / d <= b / d
  {
  }

  /** A prompt of more blocks than fit pushes its own first block out: it scores 0 where it just went. */
  lemma OversizedPromptScoresZero(order: seq<Hash>, capacity: nat, size: nat, prompt: seq<int>)
    requires capacity > 0 && size > 0 && Distinct(order) && |order| <= capacity
    requires |BlockHashes(size, prompt)| > capacity
    ensures var hs := BlockHashes(size, prompt); Affinity(hs, Elements(TouchAll(order, capacity, hs))) == 0.0
  {
    hide TouchAll, BlockHashes, UpTo, Distinct, RecencyOrder.MatchLength, Elements;
    var hs := BlockHashes(size, prompt);
    var z := TouchAll(order, capacity, hs);
    HashesDiffer(size, prompt);
    FirstIsPushedOut(order, capacity, hs);
    NoMatchWithoutFirst(hs, z);
  }

  lemma NoMatchWithoutFirst(hs: seq<Hash>, cached: seq<Hash>)
    requires hs != [] && hs[0] !in cached
    ensures RecencyOrder.MatchLength(hs, Elements(cached)) == 0
  {
  }
}
