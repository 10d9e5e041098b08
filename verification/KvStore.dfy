/** The KV store as batch formation sees it (sim/kv_store.go). Batch formation relies on the contracts
    only, so it is proved for every store that meets them; the bodies are one plain block-counting
    store, with the choices a store is free to make left open. */
module KvStores {
  import opened Arithmetic
  import opened Requests
  import opened Limits

  type Positive = n: nat | n > 0 witness 1

  /** What the store was asked, and what it answered. */
  datatype Answer =
    | CachedPrefix(tokens: seq<int>, blocks: nat)
    | Reloadable(id: string, start: nat, reaches: Option<nat>)
    | Allocation(id: string, start: nat, end: nat, ok: bool)
    | Polled(still: set<string>)

  /** The value at `id`, or 0. */
  function At(m: map<string, nat>, id: string): nat {
    if id in m then m[id] else 0
  }

  /** Every holder has tokens, in as many blocks as they take up. */
  predicate InStep(all: set<nat>, size: nat, held: map<string, set<nat>>, stored: map<string, nat>)
    requires size > 0
  {
    && held.Keys == stored.Keys
    && (forall id :: id in held ==> held[id] <= all && |held[id]| == BlocksFor(stored[id], size))
    && (forall id :: id in stored ==> stored[id] > 0)
  }

  lemma InStepGrows(all: set<nat>, size: nat, held: map<string, set<nat>>, stored: map<string, nat>, id: string, blocks: set<nat>, n: nat)
    requires size > 0 && InStep(all, size, held, stored)
    requires blocks <= all && n > 0 && |blocks| == BlocksFor(n, size)
    ensures InStep(all, size, held[id := blocks], stored[id := n])
  {
    hide BlocksFor;
  }

  class KVStore {
    const totalBlocks: nat
    const blockSize: Positive
    const deferrable: bool    // DeferrableKVStore
    const reloads: bool       // ReloadReportingKVStore
    var held: map<string, set<nat>>
    var stored: map<string, nat>      // the tokens in a request's blocks
    var deferred: set<string>
    ghost var answers: seq<Answer>    // every answer, in order

    ghost predicate Valid()
      reads this
    {
      InStep(AllBlocks(), blockSize, held, stored) && (deferrable || deferred == {})
    }

    constructor (totalBlocks: nat, blockSize: Positive, deferrable: bool, reloads: bool)
      ensures Valid() && held == map[] && stored == map[] && deferred == {} && answers == []
      ensures this.totalBlocks == totalBlocks && this.blockSize == blockSize
      ensures this.deferrable == deferrable && this.reloads == reloads
    {
      this.totalBlocks, this.blockSize, this.deferrable, this.reloads := totalBlocks, blockSize, deferrable, reloads;
      held, stored, deferred, answers := map[], map[], {}, [];
    }

    function AllBlocks(): set<nat> {
      FirstBlocks(totalBlocks)
    }

    function Used(): set<nat>
      reads this`held, this`stored
    {
      set id, b | id in held && b in held[id] :: b
    }

    function Capacity(): nat { totalBlocks * blockSize }

    /** The blocks `id` starts from: its own, or the shared ones if it has none. */
    function Base(id: string, cachedBlocks: set<nat>): set<nat>
      reads this`held, this`stored
    {
      if id in held then held[id] else cachedBlocks
    }

    /** The tokens in `id`'s blocks once `written` more are in. */
    function Filled(id: string, written: nat, cachedBlocks: set<nat>): nat
      reads this`held, this`stored
    {
      (if id in stored then stored[id] else |cachedBlocks| * blockSize) + written
    }

    /** Enough free blocks for `written` more tokens of `id`. A request that has no blocks and brings no
        token takes none. */
    predicate HasRoom(id: string, written: nat, cachedBlocks: set<nat>)
      reads this`held, this`stored
    {
      (id !in held && written == 0)
      || BlocksFor(Filled(id, written, cachedBlocks), blockSize) - |Base(id, cachedBlocks)|
         <= |AllBlocks() - Used() - Base(id, cachedBlocks)|
    }

    /** A refused request changes nothing but its own deferral. A served one has what was written for it
        added to its blocks; a request without blocks first takes over the shared ones, but only if
        something is written. A plain store serves exactly what it has room for. */
    method AllocateKVBlocks(r: Request, startIndex: nat, endIndex: nat, cachedBlocks: set<nat>) returns (ok: bool)
      requires Valid() && startIndex <= endIndex && cachedBlocks <= AllBlocks()
      modifies this`held, this`stored, this`deferred, this`answers
      ensures Valid() && answers == old(answers) + [Allocation(r.id, startIndex, endIndex, ok)]
      ensures !ok ==> held == old(held) && stored == old(stored)
      ensures var written := Written(r, r.progressIndex, endIndex - startIndex);
              && (ok ==> stored == if r.id in old(held) || written > 0
                                   then old(stored)[r.id := old(Filled(r.id, written, cachedBlocks))] else old(stored))
              && (!deferrable && !reloads ==> (ok <==> old(HasRoom(r.id, written, cachedBlocks))))
              && (!deferrable && old(held).Keys <= {r.id} && old(Filled(r.id, written, cachedBlocks)) <= Capacity() ==> ok)
      ensures held - {r.id} == old(held) - {r.id}
      ensures ok && r.id in held ==>
                old(Base(r.id, cachedBlocks)) <= held[r.id] && held[r.id] - old(Base(r.id, cachedBlocks)) !! old(Used())
      ensures deferred - {r.id} == old(deferred) - {r.id} && (ok ==> deferred <= old(deferred))
      ensures r.id in old(held) || r.isDecodeSub ==> deferred <= old(deferred)
    {
      hide BlocksFor, FirstBlocks, HasRoom, Filled, Written;
      var setAside: bool := *;
      if deferrable && setAside && r.id !in held && !r.isDecodeSub {
        deferred, answers := deferred + {r.id}, answers + [Allocation(r.id, startIndex, endIndex, false)];
        return false;
      }
      var written := Written(r, r.progressIndex, endIndex - startIndex);
      RoomForLone(r.id, written, cachedBlocks);
      ok := HasRoom(r.id, written, cachedBlocks);
      answers := answers + [Allocation(r.id, startIndex, endIndex, ok)];
      if ok && (r.id in held || written > 0) {
        Take(r.id, written, cachedBlocks);
      }
    }

    method Take(id: string, written: nat, cachedBlocks: set<nat>)
      requires Valid() && cachedBlocks <= AllBlocks() && HasRoom(id, written, cachedBlocks) && (id in held || written > 0)
      modifies this`held, this`stored
      ensures Valid()
      ensures stored == old(stored)[id := old(Filled(id, written, cachedBlocks))]
      ensures held.Keys == old(held).Keys + {id} && held - {id} == old(held) - {id}
      ensures old(Base(id, cachedBlocks)) <= held[id] && held[id] - old(Base(id, cachedBlocks)) !! old(Used())
    {
      FilledPositive(id, written, cachedBlocks);
      hide BlocksFor, FirstBlocks, HasRoom, Filled, Base, Used, InStep;
      HolderInStep(id);
      var blocks := Placement(id, written, cachedBlocks);
      InStepGrows(AllBlocks(), blockSize, held, stored, id, blocks, Filled(id, written, cachedBlocks));
      held, stored := held[id := blocks], stored[id := Filled(id, written, cachedBlocks)];
    }

    /** The blocks `id` has, or shares, and as many free ones as are missing. */
    function Placement(id: string, written: nat, cachedBlocks: set<nat>): (blocks: set<nat>)
      requires cachedBlocks <= AllBlocks() && HasRoom(id, written, cachedBlocks) && (id in held || written > 0)
      requires (id in held <==> id in stored)
               && (id in held ==> held[id] <= AllBlocks() && |held[id]| == BlocksFor(stored[id], blockSize))
      reads this
      ensures Base(id, cachedBlocks) <= blocks <= AllBlocks() && blocks - Base(id, cachedBlocks) !! Used()
      ensures |blocks| == BlocksFor(Filled(id, written, cachedBlocks), blockSize)
    {
      hide BlocksFor, FirstBlocks;
      var mine := Base(id, cachedBlocks);
      var free := AllBlocks() - Used() - mine;
      var total := BlocksFor(Filled(id, written, cachedBlocks), blockSize);
      BlocksForMonotone(Filled(id, 0, cachedBlocks), Filled(id, written, cachedBlocks), blockSize);
      BlocksForFull(|cachedBlocks|, blockSize);
      mine + TakeSome(free, total - |mine|)
    }

    /** Room in numbers: a holder needs the blocks its new tokens spill over to, a newcomer those of its
        tokens behind the shared blocks, and what is neither used nor shared with it is free. */
    lemma RoomInNumbers(id: string, written: nat, cachedBlocks: set<nat>)
      requires Valid() && cachedBlocks <= AllBlocks()
      ensures id in held ==>
                (HasRoom(id, written, cachedBlocks) <==>
                   BlocksFor(stored[id] + written, blockSize) - BlocksFor(stored[id], blockSize) + |Used()| <= totalBlocks)
      ensures id !in held ==>
                (HasRoom(id, written, cachedBlocks) <==>
                   written == 0 || BlocksFor(written, blockSize) + |Used() + cachedBlocks| <= totalBlocks)
    {
      hide BlocksFor, FirstBlocks, InStep;
      var mine := Base(id, cachedBlocks);
      HolderInStep(id);
      UsedAmongAll();
      assert Used() + mine <= AllBlocks();
      Remainder(AllBlocks(), Used() + mine);
      assert AllBlocks() - Used() - mine == AllBlocks() - (Used() + mine);
      if id in held {
        assert forall b :: b in held[id] ==> b in Used();
        assert Used() + mine == Used();
      } else {
        BlocksForBehind(|cachedBlocks|, written, blockSize);
      }
    }

    lemma UsedAmongAll()
      requires Valid()
      ensures Used() <= AllBlocks() && |AllBlocks()| == totalBlocks
    {
      hide BlocksFor;
    }

    lemma HolderInStep(id: string)
      requires Valid()
      ensures (id in held <==> id in stored)
              && (id in held ==> held[id] <= AllBlocks() && |held[id]| == BlocksFor(stored[id], blockSize))
    {
      hide BlocksFor, FirstBlocks;
    }

    lemma FilledPositive(id: string, written: nat, cachedBlocks: set<nat>)
      requires Valid() && (id in held || written > 0)
      ensures Filled(id, written, cachedBlocks) > 0
    {
      hide BlocksFor, FirstBlocks;
    }

    lemma RoomForLone(id: string, written: nat, cachedBlocks: set<nat>)
      requires Valid()
      ensures held.Keys <= {id} && Filled(id, written, cachedBlocks) <= Capacity() ==> HasRoom(id, written, cachedBlocks)
    {
      hide BlocksFor, FirstBlocks;
      if held.Keys <= {id} && Filled(id, written, cachedBlocks) <= Capacity() {
        var mine := Base(id, cachedBlocks);
        assert id in held ==> Used() <= mine;
        assert id !in held ==> Used() == {};
        FewerBlocks(AllBlocks(), mine, AllBlocks() - Used() - mine);
        BlocksFit(Filled(id, written, cachedBlocks), blockSize, totalBlocks);
      }
    }

    /** The blocks that hold the longest cached prefix of a prompt. Which prefix that is, is the store's
        affair; it is never longer than the prompt. */
    method GetCachedBlocks(tokens: seq<int>) returns (blocks: set<nat>)
      requires Valid()
      modifies this`answers
      ensures blocks <= AllBlocks() && |blocks| * blockSize <= |tokens|
      ensures answers == old(answers) + [CachedPrefix(tokens, |blocks|)]
    {
      var n: nat := *;
      blocks := {};
      if n <= |tokens| / blockSize && n <= totalBlocks {
        blocks := FirstBlocks(n);
        FewerFirstBlocks(n, totalBlocks);
        WholeBlocks(n, |tokens|, blockSize);
      }
      answers := answers + [CachedPrefix(tokens, |blocks|)];
    }

    /** How far a same-step reload from a slower tier would extend the cached prefix. */
    method ReloadablePrefixEnd(r: Request, startIndex: nat) returns (end: Option<nat>)
      requires Valid()
      modifies this`answers
      ensures end.Some? ==> startIndex < end.value <= r.InputLen()
      ensures answers == old(answers) + [Reloadable(r.id, startIndex, end)]
    {
      var n: nat := *;
      end := if startIndex < n <= r.InputLen() then Some(n) else None;
      answers := answers + [Reloadable(r.id, startIndex, end)];
    }

    method ReleaseKVBlocks(r: Request)
      requires Valid()
      modifies this`held, this`stored
      ensures Valid()
      ensures held == old(held) - {r.id} && stored == old(stored) - {r.id}
    {
      held, stored := held - {r.id}, stored - {r.id};
    }

    /** Advances every pending fetch; what is still pending stays deferred. */
    method PollDeferred() returns (still: set<string>)
      requires Valid()
      modifies this`deferred, this`answers
      ensures Valid() && answers == old(answers) + [Polled(still)]
      ensures still == deferred <= old(deferred)
    {
      var landed: set<string> := *;
      deferred := deferred - landed;
      still := deferred;
      answers := answers + [Polled(still)];
    }

    function IsDeferred(id: string): bool
      reads this
    {
      id in deferred
    }

    method ClearDeferred(id: string)
      requires Valid()
      modifies this`deferred
      ensures Valid()
      ensures deferred == old(deferred) - {id}
    {
      deferred := deferred - {id};
    }

    /** Used blocks never exceed capacity. */
    lemma UsedWithinCapacity()
      requires Valid()
      ensures |Used()| <= totalBlocks
    {
      assert Used() <= AllBlocks();
      SubsetCardinality(Used(), AllBlocks());
    }
  }

  /** The blocks `n` tokens take up. */
  function BlocksFor(n: nat, size: nat): nat
    requires size > 0
  {
    (n + size - 1) / size
  }

  /** They hold the tokens, with less than a block to spare. */
  lemma BlocksForHolds(n: nat, size: nat)
    requires size > 0
    ensures n <= BlocksFor(n, size) * size < n + size
  {
  }

  lemma BlocksForMonotone(m: nat, n: nat, size: nat)
    requires size > 0 && m <= n
    ensures BlocksFor(m, size) <= BlocksFor(n, size)
  {
    var a, b := BlocksFor(m, size), BlocksFor(n, size);
    BlocksForHolds(m, size);
    BlocksForHolds(n, size);
    hide BlocksFor;
    if a > b {
      MulMonotone(b + 1, a, size);
    }
  }

  lemma BlocksForBehind(blocks: nat, n: nat, size: nat)
    requires size > 0
    ensures BlocksFor(blocks * size + n, size) == blocks + BlocksFor(n, size)
  {
    var a, b := BlocksFor(blocks * size + n, size), BlocksFor(n, size);
    BlocksForHolds(blocks * size + n, size);
    BlocksForHolds(n, size);
    hide BlocksFor;
    assert (blocks + b) * size == blocks * size + b * size;
    if a > blocks + b { MulMonotone(blocks + b + 1, a, size); }
    if a < blocks + b { MulMonotone(a + 1, blocks + b, size); }
  }

  lemma BlocksForFull(blocks: nat, size: nat)
    requires size > 0
    ensures BlocksFor(blocks * size, size) == blocks
  {
    var a := BlocksFor(blocks * size, size);
    BlocksForHolds(blocks * size, size);
    hide BlocksFor;
    if a > blocks {
      MulMonotone(blocks + 1, a, size);
    } else if a < blocks {
      MulMonotone(a + 1, blocks, size);
    }
  }

  function TakeSome(s: set<nat>, n: nat): (t: set<nat>)
    requires n <= |s|
    ensures t <= s && |t| == n
    decreases n
  {
    if n == 0 then {}
    else
      var b := Least(s);
      {b} + TakeSome(s - {b}, n - 1)
  }

  function Least(s: set<nat>): (b: nat)
    requires s != {}
    ensures b in s
  {
    LeastExists(s);
    var b :| b in s && forall c :: c in s ==> b <= c;
    b
  }

  lemma {:induction false} LeastExists(s: set<nat>)
    requires s != {}
    ensures exists b :: b in s && forall c :: c in s ==> b <= c
  {
    var x :| x in s;
    Below(s, x);
  }

  /** Going down from `x` ends at a least member. */
  lemma {:induction false} Below(s: set<nat>, x: nat)
    requires x in s
    ensures exists b :: b in s && forall c :: c in s ==> b <= c
    decreases x
  {
    if y :| y in s && y < x {
      Below(s, y);
    } else {
      assert forall c :: c in s ==> x <= c;
    }
  }

  lemma {:induction false} SubsetCardinality(a: set<nat>, b: set<nat>)
    requires a <= b
    ensures |a| <= |b|
  {
    if a != {} {
      var x :| x in a;
      SubsetCardinality(a - {x}, b - {x});
    }
  }

  function FirstBlocks(n: nat): (s: set<nat>)
    ensures |s| == n && forall b :: b in s ==> b < n
  {
    if n == 0 then {} else FirstBlocks(n - 1) + {n - 1}
  }

  lemma {:induction false} FewerFirstBlocks(m: nat, n: nat)
    requires m <= n
    ensures FirstBlocks(m) <= FirstBlocks(n)
  {
    if m < n {
      FewerFirstBlocks(m, n - 1);
    }
  }

  lemma Remainder(all: set<nat>, part: set<nat>)
    requires part <= all
    ensures |all - part| == |all| - |part|
  {
    assert all == part + (all - part);
  }

  lemma FewerBlocks(all: set<nat>, a: set<nat>, b: set<nat>)
    requires all <= a + b
    ensures |all| <= |a| + |b|
  {
    SubsetCardinality(all, a + b);
    SubsetCardinality(b - a, b);
    assert a + b == a + (b - a);
  }

  lemma BlocksFit(n: nat, size: nat, total: nat)
    requires size > 0 && n <= total * size
    ensures BlocksFor(n, size) <= total
  {
    BlocksForHolds(n, size);
    hide BlocksFor;
    if BlocksFor(n, size) > total { MulMonotone(total + 1, BlocksFor(n, size), size); }
  }

  lemma WholeBlocks(count: nat, tokens: nat, size: nat)
    requires size > 0 && count <= tokens / size
    ensures count * size <= tokens
  {
    assert (tokens / size) * size <= tokens;
    assert count * size <= (tokens / size) * size;
  }
}
