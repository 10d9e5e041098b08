/** VLLMBatchFormation on its objects: requests, batch, queue, KV store and token table are changed in
    place, and the result is what the two state machines say (sim/batch_formation.go). */
module BatchFormation {
  import opened Arithmetic
  import opened Requests
  import opened Sequences
  import opened Limits
  import opened RunningPass
  import opened RunningPassOrder
  import opened AdmissionPass
  import opened WaitQueues
  import opened KvStores
  import opened Runs
  import opened StoreLog

  /** ComputedTokens, keyed by request id. */
  class TokenTable {
    var m: map<string, nat>

    constructor ()
      ensures m == map[]
    {
      m := map[];
    }

    function Get(id: string): nat
      reads this
    {
      if id in m then m[id] else 0
    }
  }

  /** The fields of a request that batch formation may change, NumNewTokens apart. */
  datatype Dynamic = Dynamic(state: RequestState, progress: nat, scheduled: int, ttftSet: bool, itl: seq<int>, carry: real)

  function DynamicOf(r: Request): Dynamic
    reads r
  {
    Dynamic(r.state, r.progressIndex, r.scheduledStepIdx, r.ttftSet, r.itl, r.specDecodeCarry)
  }

  /** What preemption leaves of a request: a full reset. */
  function Preempted(d: Dynamic): Dynamic {
    Dynamic(Queued, 0, d.scheduled, false, [], 0.0)
  }

  datatype BatchContext = BatchContext(
    waitQ: WaitQueue,
    kv: KVStore,
    computed: TokenTable,
    config: Config,
    inputs: StepInputs,
    stepCount: int)

  /** The state in which a pass begins. */
  datatype Origin = Origin(
    batch: seq<Request>,
    queue: seq<Request>,
    before: map<Request, Dynamic>,
    progress: map<Request, nat>,
    computed: map<string, nat>,
    stored: map<string, nat>)     // tokens in blocks

  ghost predicate WellFormed(o: Origin) {
    && DistinctIds(o.batch + o.queue)
    && (forall r :: r in o.batch ==> r in o.before && r.id in o.computed)
    && (forall r :: r in o.queue ==> r in o.before)
    && (forall r :: r in o.before ==> r in o.progress && o.progress[r] == o.before[r].progress)
  }

  lemma OriginDistinct(o: Origin)
    requires WellFormed(o)
    ensures Distinct(o.batch) && Distinct(o.queue) && DistinctIds(o.batch) && DistinctIds(o.queue)
    ensures forall r, s :: r in o.batch && s in o.queue ==> r.id != s.id
  {
    var all := o.batch + o.queue;
    assert forall i :: 0 <= i < |o.batch| ==> all[i] == o.batch[i];
    assert forall j :: 0 <= j < |o.queue| ==> all[|o.batch| + j] == o.queue[j];
  }

  /** The token table while a pass runs: victims dropped, granted tokens added, the rest as it was. */
  ghost predicate TableMatches(o: Origin, p: Pass, m: map<string, nat>) {
    && m.Keys == o.computed.Keys - Ids(p.evicted)
    && (forall r :: r in p.batch && r.id in o.computed ==> r.id in m && m[r.id] == o.computed[r.id] + Tokens(p.granted, r))
    && (forall id :: id in m && id !in Ids(o.batch) ==> m[id] == o.computed[id])
  }

  /** Tokens a pass has put into the blocks of `r`. */
  function Charged(o: Origin, p: Pass, r: Request): nat {
    if r in p.granted && r in o.progress then Written(r, o.progress[r], p.granted[r]) else 0
  }

  /** Blocks while a pass runs: victims have none, survivors what was written for them on top of what they
      had, everybody else what they had. */
  ghost predicate StoreMatches(o: Origin, p: Pass, stored: map<string, nat>) {
    && (forall r :: r in p.evicted ==> r.id !in stored)
    && (forall r :: r in p.batch ==> At(stored, r.id) == At(o.stored, r.id) + Charged(o, p, r))
    && stored - Ids(o.batch) == o.stored - Ids(o.batch)
  }

  /** Batch, queue, requests and token table stand as the state `p` of the pass says. */
  ghost predicate ObjectsMirror(o: Origin, p: Pass, ctx: BatchContext, batch: Batch)
    reads batch, ctx.waitQ, ctx.computed, Elements(o.batch)
  {
    && batch.requests == p.batch
    && ctx.waitQ.queue == Reverse(p.evicted) + o.queue
    && (forall r :: r in o.batch ==> r in o.before && r.numNewTokens == Tokens(p.granted, r))
    && (forall r :: r in o.batch ==> DynamicOf(r) == if r in p.evicted then Preempted(o.before[r]) else o.before[r])
    && TableMatches(o, p, ctx.computed.m)
  }

  /** So does the store. */
  ghost predicate Mirrors(o: Origin, p: Pass, ctx: BatchContext, batch: Batch)
    reads batch, ctx.waitQ, ctx.kv, ctx.computed, Elements(o.batch)
  {
    ObjectsMirror(o, p, ctx, batch) && ctx.kv.Valid() && StoreMatches(o, p, ctx.kv.stored)
  }

  // ----- selectPriorityVictim -----

  method SelectPriorityVictim(requests: seq<Request>) returns (victimIdx: nat)
    requires requests != []
    ensures victimIdx < |requests| && victimIdx == PriorityVictim(requests)
  {
    victimIdx := |requests| - 1;
    var victimPri := requests[victimIdx].priority;
    var victimArrival := requests[victimIdx].arrivalTime;
    var i := |requests| - 2;
    while i >= 0
      invariant -1 <= i <= |requests| - 2 && i < victimIdx < |requests|
      invariant victimPri == requests[victimIdx].priority && victimArrival == requests[victimIdx].arrivalTime
      invariant forall k :: i < k < |requests| ==> !LessUrgent(requests[k], requests[victimIdx])
      invariant forall k :: victimIdx < k < |requests| ==> LessUrgent(requests[victimIdx], requests[k])
    {
      var pri := requests[i].priority;
      if pri > victimPri || (pri == victimPri && requests[i].arrivalTime > victimArrival) {
        victimIdx := i;
        victimPri := pri;
        victimArrival := requests[i].arrivalTime;
      }
      i := i - 1;
    }
    PriorityVictimIsLeastUrgent(requests);
    VictimUnique(requests, victimIdx, PriorityVictim(requests));
  }

  // ----- preemptForTokens -----

  lemma EvictForSnoc(policy: PreemptionPolicy, p: Pass, r: Request, fails: nat)
    requires r in EvictFor(policy, p, r, fails).batch
    ensures EvictFor(policy, p, r, fails + 1) == EvictOne(policy, EvictFor(policy, p, r, fails))
    decreases fails
  {
    if fails > 0 && r in p.batch {
      EvictForSnoc(policy, EvictOne(policy, p), r, fails - 1);
    }
  }

  lemma TableEvicted(o: Origin, policy: PreemptionPolicy, p: Pass, m: map<string, nat>)
    requires p.batch != [] && DistinctIds(p.batch)
    requires p.batch[Victim(policy, p.batch)] in o.batch
    requires TableMatches(o, p, m)
    ensures TableMatches(o, EvictOne(policy, p), m - {p.batch[Victim(policy, p.batch)].id})
  {
    var v := Victim(policy, p.batch);
    IdsWithoutOne(p.batch, v);
    IdsSnoc(p.evicted, p.batch[v]);
    assert p.batch[v].id in Ids(o.batch);
    hide Victim;
  }

  lemma StoreEvicted(o: Origin, policy: PreemptionPolicy, p: Pass, stored: map<string, nat>)
    requires p.batch != [] && DistinctIds(p.batch)
    requires p.batch[Victim(policy, p.batch)] in o.batch
    requires StoreMatches(o, p, stored)
    ensures StoreMatches(o, EvictOne(policy, p), stored - {p.batch[Victim(policy, p.batch)].id})
  {
    var v := Victim(policy, p.batch);
    var id := p.batch[v].id;
    IdsWithoutOne(p.batch, v);
    assert id in Ids(o.batch);
    hide Victim, Written, Ids, RemoveAt;
    assert (stored - {id}) - Ids(o.batch) == stored - Ids(o.batch);
  }

  /** Takes back what the request was granted in this pass and resets it. */
  method Reset(r: Request) returns (refund: nat)
    modifies r
    ensures DynamicOf(r) == Preempted(old(DynamicOf(r))) && r.numNewTokens == 0 && refund == old(r.numNewTokens)
  {
    refund := 0;
    if r.numNewTokens > 0 {
      refund := r.numNewTokens;
      r.numNewTokens := 0;
    }
    r.state := Queued;
    r.progressIndex := 0;
    r.itl := [];
    r.specDecodeCarry := 0.0;
    r.ttftSet := false;
  }

  /** What one eviction does, field by field. */
  lemma EvictionFollowed(c: Config, o: Origin, p: Pass, m: map<string, nat>, stored: map<string, nat>)
    requires WellFormed(o) && Sound(c, o.batch, p) && p.batch != []
    requires TableMatches(o, p, m) && StoreMatches(o, p, stored)
    ensures var v := Victim(c.policy, p.batch);
            var q := EvictOne(c.policy, p);
            var r := p.batch[v];
            && r in o.batch && r in Elements(o.batch) && r !in p.evicted
            && q.batch == p.batch[..v] + p.batch[v + 1..]
            && q.evicted == p.evicted + [r]
            && q.granted == p.granted - {r}
            && q.budget == p.budget + Tokens(p.granted, r)
            && Reverse(q.evicted) + o.queue == [r] + (Reverse(p.evicted) + o.queue)
            && Sound(c, o.batch, q)
            && TableMatches(o, q, m - {r.id}) && StoreMatches(o, q, stored - {r.id})
  {
    hide TableMatches, StoreMatches, Sound, Victim, WellFormed, Reverse, Distinct, Ids, DistinctIds;
    var v := Victim(c.policy, p.batch);
    var q := EvictOne(c.policy, p);
    VictimIsOld(c, o, p);
    EvictOneSound(c, o.batch, p);
    TableEvicted(o, c.policy, p, m);
    StoreEvicted(o, c.policy, p, stored);
    ReverseSnoc(p.evicted, p.batch[v]);
    assert Reverse(q.evicted) + o.queue == [p.batch[v]] + (Reverse(p.evicted) + o.queue);
  }

  lemma VictimIsOld(c: Config, o: Origin, p: Pass)
    requires WellFormed(o) && Sound(c, o.batch, p) && p.batch != []
    ensures var r := p.batch[Victim(c.policy, p.batch)];
            && r in o.batch && r in Elements(o.batch) && r !in p.evicted
            && Distinct(o.batch) && DistinctIds(p.batch)
  {
    OriginDistinct(o);
    DistinctIdsWithout(o.batch, Elements(p.evicted));
    EvictedBatch(o.batch, p.evicted, p.batch, Victim(c.policy, p.batch));
    ElementsWithout(o.batch, Elements(p.evicted));
    assert p.batch[Victim(c.policy, p.batch)] in Elements(p.batch);
  }

  /** Evicts the request at `victimIdx`: out of the batch, reset, refunded, and back to the queue head. */
  method Evict(ctx: BatchContext, batch: Batch, victimIdx: nat, tokenBudget: int, ghost o: Origin, ghost p: Pass)
    returns (victim: Request, budget: int)
    requires WellFormed(o) && Mirrors(o, p, ctx, batch) && Sound(ctx.config, o.batch, p) && p.budget == tokenBudget
    requires p.batch != [] && victimIdx == Victim(ctx.config.policy, p.batch)
    modifies batch, ctx.waitQ, ctx.kv, ctx.computed, Elements(o.batch)
    ensures victim == p.batch[victimIdx] && ctx.kv.answers == old(ctx.kv.answers)
    ensures forall r :: r in o.batch && r != victim ==> r.progressIndex == old(r.progressIndex)
    ensures var q := EvictOne(ctx.config.policy, p);
            Mirrors(o, q, ctx, batch) && Sound(ctx.config, o.batch, q) && budget == q.budget
  {
    hide TableMatches, StoreMatches, Sound, Victim, WellFormed, Reverse, EvictOne;
    ghost var q := EvictOne(ctx.config.policy, p);
    EvictionFollowed(ctx.config, o, p, ctx.computed.m, ctx.kv.stored);
    victim := batch.requests[victimIdx];
    batch.requests := batch.requests[..victimIdx] + batch.requests[victimIdx + 1..];
    ctx.kv.ReleaseKVBlocks(victim);
    ctx.computed.m := ctx.computed.m - {victim.id};
    ctx.waitQ.PrependFront(victim);
    var refund := Reset(victim);
    budget := tokenBudget + refund;
    forall r | r in o.batch
      ensures r.numNewTokens == Tokens(q.granted, r)
      ensures DynamicOf(r) == if r in q.evicted then Preempted(o.before[r]) else o.before[r]
    {
      if r == victim {
        assert r !in p.evicted;
      } else {
        assert r in q.evicted <==> r in p.evicted;
      }
    }
  }

  /** The instance in which a lone request always fits: nothing but running requests holds blocks. */
  ghost predicate LoneFits(ctx: BatchContext, o: Origin, r: Request, n: nat)
    requires r in o.progress
  {
    && !ctx.kv.deferrable && o.stored.Keys <= Ids(o.batch)
    && At(o.stored, r.id) + Written(r, o.progress[r], n) <= ctx.kv.Capacity()
  }

  /** The pass with `n` tokens granted to `r`. */
  function Granting(p: Pass, r: Request, n: nat): Pass {
    p.(granted := p.granted[r := n])
  }

  /** Allocates for the request under the cursor, evicting victims until the store accepts or the
      request itself is out. The caller takes `adjustment` off its index. The store is ahead of the pass
      by the tokens of a request that may be scheduled. */
  method PreemptForTokens(ctx: BatchContext, batch: Batch, req: Request, numNewTokens: nat, preempted: seq<Request>,
                          tokenBudget: int, reqIndex: nat, ghost o: Origin, ghost p: Pass)
    returns (canSchedule: bool, adjustment: nat, evicted: seq<Request>, budget: int, ghost fails: nat)
    requires WellFormed(o) && Mirrors(o, p, ctx, batch) && Sound(ctx.config, o.batch, p)
    requires preempted == p.evicted && tokenBudget == p.budget
    requires p.idx == reqIndex < |p.batch| && p.batch[reqIndex] == req
    requires req in o.progress && req.progressIndex == o.progress[req]
    modifies batch, ctx.waitQ, ctx.kv, ctx.computed, Elements(o.batch)
    ensures ctx.kv.answers == old(ctx.kv.answers) + Refusals(req, o.progress[req], o.progress[req] + numNewTokens, fails)
                              + (if canSchedule then [Allocation(req.id, o.progress[req], o.progress[req] + numNewTokens, true)] else [])
    ensures var q := EvictFor(ctx.config.policy, p, req, fails);
            && ObjectsMirror(o, q, ctx, batch) && Sound(ctx.config, o.batch, q) && ctx.kv.Valid()
            && StoreMatches(o, if canSchedule then Granting(q, req, numNewTokens) else q, ctx.kv.stored)
            && (canSchedule <==> req in q.batch)
            && (canSchedule ==> q.idx == reqIndex - adjustment < |q.batch| && q.batch[q.idx] == req)
            && evicted == q.evicted && budget == q.budget
    ensures LoneFits(ctx, o, req, numNewTokens) ==>
              && EvictFor(ctx.config.policy, p, req, fails).batch != []
              && (ctx.config.policy == Fcfs && reqIndex == 0 ==> canSchedule)
  {
    hide Sound, EvictFor, EvictOne, Victim, WellFormed, ObjectsMirror, StoreMatches, LoneFits, Refusals;
    adjustment, evicted, budget, fails := 0, preempted, tokenBudget, 0;
    ghost var q := p;
    OneRefusalMore(ctx.kv.answers, req, o.progress[req], o.progress[req] + numNewTokens, 0);
    EvictForNone(ctx.config.policy, p, req);
    while true
      invariant q == EvictFor(ctx.config.policy, p, req, fails)
      invariant Mirrors(o, q, ctx, batch) && Sound(ctx.config, o.batch, q)
      invariant evicted == q.evicted && budget == q.budget
      invariant q.idx == reqIndex - adjustment < |q.batch| && q.batch[q.idx] == req
      invariant req.progressIndex == old(req.progressIndex)
      invariant ctx.kv.answers == old(ctx.kv.answers) + Refusals(req, o.progress[req], o.progress[req] + numNewTokens, fails)
      decreases |q.batch|
    {
      assert req in q.batch;
      var ok := TryAllocate(ctx, batch, req, numNewTokens, o, q);
      OneRefusalMore(old(ctx.kv.answers), req, o.progress[req], o.progress[req] + numNewTokens, fails);
      if ok {
        return true, adjustment, evicted, budget, fails;
      }
      MirroredBatch(ctx, batch, o, q);
      assert |q.batch| == 1 ==> q.batch == [req];
      // The circuit breaker for an empty batch is dead: the served request is still in it.
      assert batch.requests != [];
      var victimIdx: nat;
      match ctx.config.policy {
        case Priority => victimIdx := SelectPriorityVictim(batch.requests);
        case Fcfs => victimIdx := |batch.requests| - 1;
      }
      VictimOf(ctx.config.policy, batch.requests);
      EvictForSnoc(ctx.config.policy, p, req, fails);
      CursorAfterEviction(ctx.config, o, q, victimIdx);
      ghost var next := EvictOne(ctx.config.policy, q);
      var victim: Request;
      victim, budget := Evict(ctx, batch, victimIdx, budget, o, q);
      if victimIdx < reqIndex - adjustment {
        adjustment := adjustment + 1;
      }
      evicted := evicted + [victim];
      fails := fails + 1;
      q := next;
      if victim == req {
        return false, adjustment, evicted, budget, fails;
      }
    }
  }

  lemma OneRefusalMore(before: seq<Answer>, r: Request, start: nat, end: nat, k: nat)
    ensures before + Refusals(r, start, end, k) + [Allocation(r.id, start, end, false)] == before + Refusals(r, start, end, k + 1)
    ensures before + Refusals(r, start, end, k) + [] == before + Refusals(r, start, end, k) && Refusals(r, start, end, 0) == []
  {
  }

  method TryAllocate(ctx: BatchContext, batch: Batch, req: Request, n: nat, ghost o: Origin, ghost q: Pass) returns (ok: bool)
    requires WellFormed(o) && Mirrors(o, q, ctx, batch) && Sound(ctx.config, o.batch, q)
    requires q.idx < |q.batch| && q.batch[q.idx] == req && req in o.progress && req.progressIndex == o.progress[req]
    modifies ctx.kv
    ensures ObjectsMirror(o, q, ctx, batch) && ctx.kv.Valid()
    ensures ctx.kv.answers == old(ctx.kv.answers) + [Allocation(req.id, o.progress[req], o.progress[req] + n, ok)]
    ensures StoreMatches(o, if ok then Granting(q, req, n) else q, ctx.kv.stored)
    ensures q.batch == [req] && LoneFits(ctx, o, req, n) ==> ok
  {
    hide Sound, WellFormed, StoreMatches, TableMatches, KVStore.HasRoom, KVStore.Used, BlocksFor;
    ServedFacts(ctx.config, o, q, req);
    LoneHolder(o, q, req, ctx.kv.stored);
    StoreGranted(o, q, req, n, ctx.kv.stored);
    ok := ctx.kv.AllocateKVBlocks(req, req.progressIndex, req.progressIndex + n, {});
  }

  /** Serving the request under the cursor, as the store's contract says. */
  lemma StoreGranted(o: Origin, q: Pass, r: Request, n: nat, stored: map<string, nat>)
    requires StoreMatches(o, q, stored) && r in o.progress && r in q.batch && r.id in Ids(o.batch)
    requires r !in q.granted && r !in q.evicted
    requires forall s :: (s in q.batch || s in q.evicted) && s != r ==> s.id != r.id
    ensures var written := Written(r, o.progress[r], n);
            && StoreMatches(o, Granting(q, r, n), stored[r.id := At(stored, r.id) + written])
            && (written == 0 ==> StoreMatches(o, Granting(q, r, n), stored))
  {
    hide Written;
    var written := Written(r, o.progress[r], n);
    var h := stored[r.id := At(stored, r.id) + written];
    assert h - Ids(o.batch) == stored - Ids(o.batch);
  }

  lemma MirroredBatch(ctx: BatchContext, batch: Batch, o: Origin, q: Pass)
    requires Mirrors(o, q, ctx, batch)
    ensures batch.requests == q.batch
  {
  }

  lemma EvictForNone(policy: PreemptionPolicy, p: Pass, r: Request)
    ensures EvictFor(policy, p, r, 0) == p
  {
  }

  lemma VictimOf(policy: PreemptionPolicy, s: seq<Request>)
    requires s != []
    ensures Victim(policy, s) == match policy case Fcfs => |s| - 1 case Priority => PriorityVictim(s)
  {
  }

  /** The cursor, and the evicted list, after the request at `victimIdx` is gone. */
  lemma CursorAfterEviction(c: Config, o: Origin, q: Pass, victimIdx: nat)
    requires WellFormed(o) && Sound(c, o.batch, q) && q.idx < |q.batch| && victimIdx == Victim(c.policy, q.batch)
    ensures var z := EvictOne(c.policy, q);
            && |z.batch| == |q.batch| - 1
            && z.evicted == q.evicted + [q.batch[victimIdx]]
            && (q.batch[victimIdx] == q.batch[q.idx] ==> victimIdx == q.idx && q.batch[q.idx] !in z.batch)
            && (q.batch[victimIdx] != q.batch[q.idx] ==>
                  && z.idx == (if victimIdx < q.idx then q.idx - 1 else q.idx) < |z.batch|
                  && z.batch[z.idx] == q.batch[q.idx])
  {
    hide WellFormed, Sound;
    VictimIsOld(c, o, q);
    EvictOneSound(c, o.batch, q);
    EvictOneCursor(c.policy, q);
  }

  lemma LoneHolder(o: Origin, q: Pass, r: Request, stored: map<string, nat>)
    requires StoreMatches(o, q, stored) && r in q.batch && r !in q.granted
    requires forall s :: s in o.batch ==> s in q.batch || s in q.evicted
    ensures At(stored, r.id) == At(o.stored, r.id)
    ensures q.batch == [r] && o.stored.Keys <= Ids(o.batch) ==> stored.Keys <= {r.id}
  {
    if q.batch == [r] && o.stored.Keys <= Ids(o.batch) {
      forall id | id in stored ensures id == r.id {
        assert id !in Ids(o.batch) ==> id in stored - Ids(o.batch);
        assert id !in o.stored - Ids(o.batch);
        var s :| s in o.batch && s.id == id;
      }
    }
  }

  // ----- Phase 1 -----

  /** `ctx.ComputedTokens[req.ID] += n`, and NumNewTokens. */
  method Record(ctx: BatchContext, batch: Batch, req: Request, n: nat, ghost o: Origin, ghost q: Pass)
    requires WellFormed(o) && ObjectsMirror(o, q, ctx, batch) && Sound(ctx.config, o.batch, q)
    requires ctx.kv.Valid() && StoreMatches(o, Granting(q, req, n), ctx.kv.stored)
    requires q.idx < |q.batch| && q.batch[q.idx] == req
    modifies ctx.computed, req`numNewTokens
    ensures Mirrors(o, q.(idx := q.idx + 1, budget := q.budget - n, granted := q.granted[req := n],
                          visited := q.visited + [req]), ctx, batch)
  {
    hide Sound, WellFormed, StoreMatches, TableMatches;
    ghost var z := q.(idx := q.idx + 1, budget := q.budget - n, granted := q.granted[req := n], visited := q.visited + [req]);
    TableGranted(ctx.config, o, q, req, n, ctx.computed.m);
    SameBlocks(o, Granting(q, req, n), z, ctx.kv.stored);
    req.numNewTokens := n;
    ctx.computed.m := ctx.computed.m[req.id := ctx.computed.Get(req.id) + n];
  }

  lemma SameBlocks(o: Origin, q: Pass, z: Pass, stored: map<string, nat>)
    requires StoreMatches(o, q, stored) && z.batch == q.batch && z.evicted == q.evicted && z.granted == q.granted
    ensures StoreMatches(o, z, stored)
  {
  }

  lemma ServedFacts(c: Config, o: Origin, q: Pass, r: Request)
    requires WellFormed(o) && Sound(c, o.batch, q) && q.idx < |q.batch| && q.batch[q.idx] == r
    ensures r in o.batch && r.id in o.computed && r.id in Ids(o.batch) && r !in q.granted && DistinctIds(q.batch)
    ensures forall s :: (s in q.batch || s in q.evicted) && s != r ==> s.id != r.id
    ensures r !in q.evicted && forall s :: s in o.batch ==> s in q.batch || s in q.evicted
  {
    hide Without, Spent;
    OriginDistinct(o);
    CursorIsFresh(o.batch, q);
    ElementsWithout(o.batch, Elements(q.evicted));
    DistinctIdsWithout(o.batch, Elements(q.evicted));
    DistinctPrefix(q.batch, q.idx);
    assert r in Elements(q.batch);
    forall s | s in o.batch ensures s in q.batch || s in q.evicted {
      assert s in Elements(o.batch);
      assert s in Elements(q.batch) || s in Elements(q.evicted);
    }
  }

  lemma TableGranted(c: Config, o: Origin, q: Pass, r: Request, n: nat, m: map<string, nat>)
    requires WellFormed(o) && Sound(c, o.batch, q) && TableMatches(o, q, m)
    requires q.idx < |q.batch| && q.batch[q.idx] == r
    ensures r.id in m && r in o.batch
    ensures TableMatches(o, q.(idx := q.idx + 1, budget := q.budget - n, granted := q.granted[r := n],
                               visited := q.visited + [r]), m[r.id := m[r.id] + n])
  {
    hide Without, WellFormed, Sound, Ids, Distinct;
    ServedFacts(c, o, q, r);
    var h := m[r.id := m[r.id] + n];
    forall s | s in q.batch && s.id in o.computed
      ensures s.id in h && h[s.id] == o.computed[s.id] + Tokens(q.granted[r := n], s)
    {
      assert s != r ==> s.id != r.id;
    }
  }

  /** Allocates `n` tokens for the request under the cursor and records the grant; the pass stops when the
      request is evicted itself. */
  method ServeTokens(ctx: BatchContext, batch: Batch, req: Request, n: nat, reqIndex: nat, tokenBudget: int,
                     preempted: seq<Request>, ghost o: Origin, ghost p: Pass)
    returns (go: bool, nextIndex: nat, budget: int, evicted: seq<Request>, ghost fails: nat)
    requires WellFormed(o) && Mirrors(o, p, ctx, batch) && Sound(ctx.config, o.batch, p)
    requires p.idx == reqIndex < |p.batch| && tokenBudget == p.budget > 0 && preempted == p.evicted && !p.stopped
    requires p.batch[reqIndex] == req && req in o.batch && req in o.progress && req.progressIndex == o.progress[req]
    requires NeedsBlocks(ctx.config, ctx.inputs, req, o.progress[req], p.budget)
    requires n == Grant(ctx.config, ctx.inputs, req, o.progress[req], p.budget)
    modifies batch, ctx.waitQ, ctx.kv, ctx.computed, Elements(o.batch)
    ensures ctx.kv.answers == old(ctx.kv.answers) + VisitLog(ctx.config, ctx.inputs, o.progress, p, fails)
    ensures var q := Visit(ctx.config, ctx.inputs, o.progress, p, fails);
            && Mirrors(o, q, ctx, batch) && Sound(ctx.config, o.batch, q)
            && evicted == q.evicted && budget == q.budget
            && (go <==> !q.stopped) && (go ==> nextIndex == q.idx)
    ensures AllFit(ctx, o) ==>
              && Visit(ctx.config, ctx.inputs, o.progress, p, fails).batch != []
              && (ctx.config.policy == Fcfs && reqIndex == 0 ==> go)
    ensures go && ctx.config.policy == Fcfs ==> fails < |p.batch| - p.idx
  {
    hide Sound, WellFormed, EvictFor, ObjectsMirror, StoreMatches, Refusals, Grant, NeedsBlocks, Granting;
    var c := ctx.config;
    OriginDistinct(o);
    GrantWithinBudget(c, ctx.inputs, req, req.progressIndex, p.budget);
    if AllFit(ctx, o) {
      GrantStopsAtBoundary(c, ctx.inputs, req, req.progressIndex, p.budget);
      assert LoneFits(ctx, o, req, n);
    }
    var adj: nat;
    go, adj, evicted, budget, fails := PreemptForTokens(ctx, batch, req, n, preempted, tokenBudget, reqIndex, o, p);
    VisitSound(c, ctx.inputs, o.progress, o.batch, p, fails);
    EvictForFrame(c.policy, p, req, fails);
    TailsLeft(c, o.batch, p, req, fails);
    ghost var q := EvictFor(c.policy, p, req, fails);
    nextIndex := reqIndex;
    if !go {
      StoppedMirrors(ctx, batch, o, q);
      return;
    }
    Record(ctx, batch, req, n, o, q);
    nextIndex, budget := reqIndex - adj + 1, budget - n;
  }

  /** One turn of the phase 1 loop. `go` is false when the pass must break off. */
  method ServeOne(ctx: BatchContext, batch: Batch, reqIndex: nat, tokenBudget: int, preempted: seq<Request>,
                  ghost o: Origin, ghost p: Pass)
    returns (go: bool, nextIndex: nat, budget: int, evicted: seq<Request>, ghost fails: nat)
    requires WellFormed(o) && Mirrors(o, p, ctx, batch) && Sound(ctx.config, o.batch, p)
    requires p.idx == reqIndex < |p.batch| && tokenBudget == p.budget > 0 && preempted == p.evicted && !p.stopped
    modifies batch, ctx.waitQ, ctx.kv, ctx.computed, Elements(o.batch)
    ensures ctx.kv.answers == old(ctx.kv.answers) + VisitLog(ctx.config, ctx.inputs, o.progress, p, fails)
    ensures var q := Visit(ctx.config, ctx.inputs, o.progress, p, fails);
            && Mirrors(o, q, ctx, batch) && Sound(ctx.config, o.batch, q)
            && evicted == q.evicted && budget == q.budget
            && (go <==> !q.stopped) && (go ==> nextIndex == q.idx)
    ensures AllFit(ctx, o) ==>
              && Visit(ctx.config, ctx.inputs, o.progress, p, fails).batch != []
              && (ctx.config.policy == Fcfs && reqIndex == 0 ==> go)
    ensures go && ctx.config.policy == Fcfs ==> fails < |p.batch| - p.idx
  {
    hide Sound, WellFormed, EvictFor, Mirrors;
    var c := ctx.config;
    MirroredBatch(ctx, batch, o, p);
    var req := batch.requests[reqIndex];
    MirroredProgress(ctx, batch, o, p, req);
    OriginDistinct(o);
    VisitSound(c, ctx.inputs, o.progress, o.batch, p, 0);
    evicted, budget, nextIndex, fails := preempted, tokenBudget, reqIndex, 0;
    var n := req.InputLen() - req.progressIndex;
    if n > 0 {
      if 0 < c.prefillThreshold < n { n := c.prefillThreshold; }
      n := Min(n, budget);
      if c.maxModelLen > 0 {
        n := Min(n, Max(c.maxModelLen - 1 - req.progressIndex, 0));
      }
      go, nextIndex, budget, evicted, fails := ServeTokens(ctx, batch, req, n, reqIndex, budget, evicted, o, p);
      return;
    }
    // Only here: a request that is still prefilling does not decode in the same visit.
    if req.progressIndex >= req.InputLen() && req.outputTokens != [] {
      var d := 1;
      if ctx.inputs.proposals.Some? {
        d := ctx.inputs.proposals.value(req);
        d := Min(d, budget);
        d := Min(d, DecodeTokensToCompletion(req, req.progressIndex));
      }
      if c.maxModelLen > 0 {
        d := Min(d, Max(c.maxModelLen - 1 - req.progressIndex, 0));
      }
      if d > 0 {
        go, nextIndex, budget, evicted, fails := ServeTokens(ctx, batch, req, d, reqIndex, budget, evicted, o, p);
        return;
      }
    }
    PassedMirrors(ctx, batch, o, p, req);
    nextIndex, go := nextIndex + 1, true;
  }

  lemma TailsLeft(c: Config, batch0: seq<Request>, p: Pass, r: Request, fails: nat)
    requires Distinct(batch0) && Sound(c, batch0, p) && p.idx < |p.batch| && p.batch[p.idx] == r
    ensures c.policy == Fcfs && r in EvictFor(c.policy, p, r, fails).batch ==> fails < |p.batch| - p.idx
  {
    if c.policy == Fcfs {
      FcfsNeverRefunds(c, batch0, p, r, fails);
    }
  }

  /** Every running request stops within what a lone request may take. */
  ghost predicate AllFit(ctx: BatchContext, o: Origin) {
    && !ctx.kv.deferrable && o.stored.Keys <= Ids(o.batch)
    && forall r :: r in o.batch ==>
         && r in o.progress && o.progress[r] < Boundary(ctx.config, r)
         && At(o.stored, r.id) + (Boundary(ctx.config, r) - o.progress[r]) <= ctx.kv.Capacity()
  }

  lemma MirroredProgress(ctx: BatchContext, batch: Batch, o: Origin, p: Pass, r: Request)
    requires WellFormed(o) && Mirrors(o, p, ctx, batch) && Sound(ctx.config, o.batch, p) && r in p.batch
    ensures r in o.batch && r in o.progress && r.progressIndex == o.progress[r]
  {
    ElementsWithout(o.batch, Elements(p.evicted));
    assert r in Elements(p.batch);
    assert r in o.batch && r !in p.evicted;
    assert DynamicOf(r) == o.before[r];
  }

  lemma StoppedMirrors(ctx: BatchContext, batch: Batch, o: Origin, q: Pass)
    requires Mirrors(o, q, ctx, batch)
    ensures Mirrors(o, q.(stopped := true), ctx, batch)
  {
    SameBlocks(o, q, q.(stopped := true), ctx.kv.stored);
  }

  lemma PassedMirrors(ctx: BatchContext, batch: Batch, o: Origin, q: Pass, r: Request)
    requires Mirrors(o, q, ctx, batch)
    ensures Mirrors(o, q.(idx := q.idx + 1, visited := q.visited + [r]), ctx, batch)
  {
    SameBlocks(o, q, q.(idx := q.idx + 1, visited := q.visited + [r]), ctx.kv.stored);
  }

  /** The objects before anything has happened, NumNewTokens apart. */
  ghost predicate Pristine(o: Origin, ctx: BatchContext, batch: Batch)
    reads batch, ctx.waitQ, ctx.kv, ctx.computed, Elements(o.batch)
  {
    && batch.requests == o.batch && ctx.waitQ.queue == o.queue
    && (forall r :: r in o.batch ==> r in o.before && DynamicOf(r) == o.before[r])
    && ctx.computed.m == o.computed && ctx.kv.Valid() && ctx.kv.stored == o.stored
  }

  /** Stale grants of the last step are cleared before anybody can be refunded them. */
  method ClearGrants(ctx: BatchContext, batch: Batch, ghost o: Origin)
    requires WellFormed(o) && Pristine(o, ctx, batch)
    modifies Elements(o.batch)
    ensures Mirrors(o, Start(ctx.config, o.batch), ctx, batch)
  {
    var i := 0;
    while i < |batch.requests|
      invariant i <= |batch.requests| && Pristine(o, ctx, batch)
      invariant forall k :: 0 <= k < i ==> batch.requests[k].numNewTokens == 0
    {
      assert batch.requests[i] in o.batch;
      batch.requests[i].numNewTokens := 0;
      i := i + 1;
    }
    assert Reverse<Request>([]) + o.queue == o.queue;
  }

  lemma RunSnoc(c: Config, x: StepInputs, progress: map<Request, nat>, batch0: seq<Request>, fails: seq<nat>, k: nat)
    ensures Run(c, x, progress, batch0, fails + [k]) == Visit(c, x, progress, Run(c, x, progress, batch0, fails), k)
  {
    assert (fails + [k])[..|fails + [k]| - 1] == fails;
  }

  lemma NoRefusals(c: Config, x: StepInputs, progress: map<Request, nat>, batch0: seq<Request>)
    ensures RunLog(c, x, progress, batch0, []) == [] && Run(c, x, progress, batch0, []) == Start(c, batch0)
  {
  }

  lemma RunLogSnoc(c: Config, x: StepInputs, progress: map<Request, nat>, batch0: seq<Request>, fails: seq<nat>, k: nat)
    ensures RunLog(c, x, progress, batch0, fails + [k])
            == RunLog(c, x, progress, batch0, fails) + VisitLog(c, x, progress, Run(c, x, progress, batch0, fails), k)
  {
    assert (fails + [k])[..|fails + [k]| - 1] == fails;
  }

  lemma {:induction false} EvictForMeasure(c: Config, batch0: seq<Request>, p: Pass, r: Request, fails: nat)
    requires Distinct(batch0) && Sound(c, batch0, p)
    ensures var q := EvictFor(c.policy, p, r, fails); |q.batch| - q.idx <= |p.batch| - p.idx
    decreases fails
  {
    hide Sound;
    if fails > 0 && r in p.batch {
      EvictOneSound(c, batch0, p);
      EvictForMeasure(c, batch0, EvictOne(c.policy, p), r, fails - 1);
    }
  }

  /** A visit that does not stop the pass leaves fewer requests ahead of the cursor. */
  lemma VisitGoesOn(c: Config, x: StepInputs, progress: map<Request, nat>, batch0: seq<Request>, p: Pass)
    requires Distinct(batch0) && Sound(c, batch0, p) && !Over(p) && p.batch[p.idx] in progress
    ensures forall k: nat :: var q := Visit(c, x, progress, p, k);
              q.stopped || |q.batch| - q.idx < |p.batch| - p.idx
  {
    forall k: nat
      ensures var q := Visit(c, x, progress, p, k); q.stopped || |q.batch| - q.idx < |p.batch| - p.idx
    {
      hide Sound, EvictFor, Grant;
      EvictForMeasure(c, batch0, p, p.batch[p.idx], k);
    }
  }

  /** Phase 1. Whatever the KV store answers, the objects end as the pass driven by its refusals ends;
      and when every running request fits alone, the first one is not evicted. */
  method ServeRunning(ctx: BatchContext, batch: Batch, ghost o: Origin)
    returns (preempted: seq<Request>, tokenBudget: int, ghost fails: seq<nat>)
    requires WellFormed(o) && Pristine(o, ctx, batch)
    modifies batch, ctx.waitQ, ctx.kv, ctx.computed, Elements(o.batch)
    ensures ctx.kv.answers == old(ctx.kv.answers) + RunLog(ctx.config, ctx.inputs, o.progress, o.batch, fails)
    ensures var p := Run(ctx.config, ctx.inputs, o.progress, o.batch, fails);
            && Mirrors(o, p, ctx, batch) && Sound(ctx.config, o.batch, p) && Over(p)
            && preempted == p.evicted && tokenBudget == p.budget
    ensures AllFit(ctx, o) && o.batch != [] ==>
              && Run(ctx.config, ctx.inputs, o.progress, o.batch, fails).batch != []
              && (ctx.config.policy == Fcfs && ctx.config.maxBatchedTokens > 0 ==> fails != [] && fails[0] < |o.batch|)
  {
    hide Sound, WellFormed, Mirrors, Visit, VisitLog, RunLog, EvictFor;
    var c := ctx.config;
    NoRefusals(c, ctx.inputs, o.progress, o.batch);
    ClearGrants(ctx, batch, o);
    StartSound(c, o.batch);
    OriginDistinct(o);
    preempted, tokenBudget, fails := [], c.maxBatchedTokens, [];
    var reqIndex, go := 0, true;
    ghost var p := Start(c, o.batch);
    MirroredBatch(ctx, batch, o, p);
    while go && reqIndex < |batch.requests|
      invariant p == Run(c, ctx.inputs, o.progress, o.batch, fails)
      invariant Mirrors(o, p, ctx, batch) && Sound(c, o.batch, p) && batch.requests == p.batch
      invariant ctx.kv.answers == old(ctx.kv.answers) + RunLog(c, ctx.inputs, o.progress, o.batch, fails)
      invariant preempted == p.evicted && tokenBudget == p.budget
      invariant go <==> !p.stopped
      invariant go ==> reqIndex == p.idx
      invariant fails == [] ==> reqIndex == 0 && p == Start(c, o.batch)
      invariant AllFit(ctx, o) && o.batch != [] ==> p.batch != []
      invariant fails != [] && AllFit(ctx, o) && c.policy == Fcfs ==> o.batch == [] || fails[0] < |o.batch|
      decreases |p.batch| - (if go then p.idx else |p.batch|)
    {
      if tokenBudget <= 0 { break; }
      ghost var k: nat;
      ghost var was := p;
      MirroredProgress(ctx, batch, o, p, p.batch[p.idx]);
      VisitGoesOn(c, ctx.inputs, o.progress, o.batch, p);
      go, reqIndex, tokenBudget, preempted, k := ServeOne(ctx, batch, reqIndex, tokenBudget, preempted, o, p);
      p := Visit(c, ctx.inputs, o.progress, p, k);
      RunSnoc(c, ctx.inputs, o.progress, o.batch, fails, k);
      Appended(ctx.kv.answers, old(ctx.kv.answers), RunLog(c, ctx.inputs, o.progress, o.batch, fails),
               VisitLog(c, ctx.inputs, o.progress, was, k));
      RunLogSnoc(c, ctx.inputs, o.progress, o.batch, fails, k);
      fails := fails + [k];
      MirroredBatch(ctx, batch, o, p);
    }
  }

  // ----- Phase 2 -----

  /** The token table while requests are admitted. */
  ghost predicate AdmissionTable(o: Origin, p: Pass, a: Admission, m: map<string, nat>) {
    && m.Keys == o.computed.Keys - Ids(p.evicted) + Ids(a.admitted)
    && (forall r :: r in p.batch && r.id in o.computed ==> r.id in m && m[r.id] == o.computed[r.id] + Tokens(p.granted, r))
    && (forall r :: r in a.admitted && r in a.reached ==> r.id in m && m[r.id] == a.reached[r])
    && (forall id :: id in m && id !in Ids(o.batch) && id !in Ids(a.admitted) ==> m[id] == o.computed[id])
  }

  /** Requests, batch, queue and token table stand as the state `a` of the scan begun after pass `p` says. */
  ghost predicate AdmissionObjects(o: Origin, p: Pass, a: Admission, ctx: BatchContext, batch: Batch)
    reads batch, ctx.waitQ, ctx.computed, Elements(o.batch), Elements(o.queue)
  {
    && batch.requests == a.batch && ctx.waitQ.queue == a.queue
    && (forall r :: r in o.batch ==> r in o.before && r.numNewTokens == Tokens(p.granted, r))
    && (forall r :: r in o.batch ==> DynamicOf(r) == if r in p.evicted then Preempted(o.before[r]) else o.before[r])
    && (forall r :: r in o.queue ==> r in o.before && (r in a.admitted ==> r.numNewTokens == Tokens(a.granted, r)))
    && (forall r :: r in o.queue ==>
          DynamicOf(r) == if r in a.admitted then o.before[r].(state := Running, scheduled := ctx.stepCount) else o.before[r])
    && AdmissionTable(o, p, a, ctx.computed.m)
  }

  /** Tokens an admission has put into the blocks of `r`. */
  function Laid(o: Origin, a: Admission, r: Request): nat {
    if r in a.from && r in a.reached && r in o.progress && a.from[r] <= a.reached[r]
    then Deposit(r, o.progress[r], a.from[r], a.reached[r]) else 0
  }

  /** Blocks while requests are admitted: an admitted one has what the store put in on top of what it had. */
  ghost predicate AdmissionBlocks(o: Origin, p: Pass, a: Admission, stored: map<string, nat>) {
    && (forall r :: r in p.evicted ==> r.id !in stored)
    && (forall r :: r in p.batch ==> At(stored, r.id) == At(o.stored, r.id) + Charged(o, p, r))
    && (forall r :: r in a.admitted && (r.isDecodeSub || r.id !in o.stored) ==>
          At(stored, r.id) == At(o.stored, r.id) + Laid(o, a, r))
    && stored - (Ids(o.batch) + Ids(a.admitted)) == o.stored - (Ids(o.batch) + Ids(a.admitted))
  }

  /** The store stands as the scan says, and the skipped are deferred. */
  ghost predicate AdmissionStore(o: Origin, p: Pass, a: Admission, kv: KVStore)
    reads kv
  {
    && kv.Valid() && AdmissionBlocks(o, p, a, kv.stored)
    && a.skipped <= |a.queue|
    && (forall r :: r in a.queue[..a.skipped] ==> r.id in kv.deferred)
  }

  /** dequeueAdmitted: the head when nobody was skipped, otherwise by identity. */
  method DequeueAdmitted(wq: WaitQueue, req: Request, skipped: nat)
    requires skipped < |wq.queue| && wq.queue[skipped] == req && Distinct(wq.queue)
    modifies wq
    ensures wq.queue == RemoveAt(old(wq.queue), skipped)
  {
    if skipped == 0 {
      var _ := wq.DequeueBatch();
    } else {
      var _ := wq.Remove(req);
    }
  }

  lemma AdmittedTable(o: Origin, p: Pass, a: Admission, r: Request, n: nat, reached: nat, from: nat, m: map<string, nat>)
    requires WellFormed(o) && AdmissionTable(o, p, a, m) && a.skipped < |a.queue| && r in o.queue
    requires Elements(p.batch) <= Elements(o.batch) && Elements(a.admitted) <= Elements(o.queue)
    requires r !in a.admitted
    ensures AdmissionTable(o, p, Admit(a, r, n, reached, from), m[r.id := reached])
  {
    OriginDistinct(o);
    IdsSnoc(a.admitted, r);
    var h := m[r.id := reached];
    forall s | s in a.admitted ensures s.id != r.id {
      assert s in Elements(a.admitted);
    }
    forall s | s in p.batch ensures s.id != r.id {
      assert s in Elements(p.batch);
    }
  }

  /** The state in which phase 2 considers somebody. */
  ghost predicate Scanning(ctx: BatchContext, o: Origin, p: Pass, x: StepInputs, a: Admission) {
    && WellFormed(o) && Sound(ctx.config, o.batch, p) && p.evicted == []
    && AdmissionSound(x, p.batch, p.budget, o.queue, a)
  }

  lemma CandidateFacts(ctx: BatchContext, o: Origin, p: Pass, x: StepInputs, a: Admission)
    requires Scanning(ctx, o, p, x, a) && a.skipped < |a.queue|
    ensures WellFormed(o)
    ensures var r := a.queue[a.skipped];
            && r in o.queue && r in o.before && r in Elements(o.queue)
            && r !in a.admitted && r !in o.batch
            && Distinct(a.queue)
            && Elements(p.batch) <= Elements(o.batch) && Elements(a.admitted) <= Elements(o.queue)
            && (forall i :: 0 <= i < a.skipped ==> a.queue[i].id != r.id)
  {
    OriginDistinct(o);
    ScanCandidate(o.queue, a.queue, a.admitted, a.skipped);
    ElementsWithout(o.batch, Elements(p.evicted));
  }

  lemma CandidateIds(ctx: BatchContext, o: Origin, p: Pass, x: StepInputs, a: Admission)
    requires Scanning(ctx, o, p, x, a) && a.skipped < |a.queue|
    ensures var r := a.queue[a.skipped]; r.id !in Ids(o.batch) && r.id !in Ids(a.admitted)
    ensures p.evicted == []
  {
    CandidateFacts(ctx, o, p, x, a);
    OriginDistinct(o);
    forall s | s in a.admitted ensures s.id != a.queue[a.skipped].id {
      assert s in Elements(a.admitted);
      assert s in o.queue && s != a.queue[a.skipped];
    }
  }

  method MarkRunning(r: Request, n: nat, step: int)
    modifies r
    ensures DynamicOf(r) == old(DynamicOf(r)).(state := Running, scheduled := step) && r.numNewTokens == n
  {
    r.scheduledStepIdx := step;
    r.state := Running;
    r.numNewTokens := n;
  }

  /** Admits the candidate whose blocks have just been allocated. */
  method AdmitRequest(ctx: BatchContext, batch: Batch, req: Request, skipped: nat, n: nat, reached: nat, ghost from: nat,
                      ghost o: Origin, ghost p: Pass, ghost x: StepInputs, ghost a: Admission)
    requires Scanning(ctx, o, p, x, a) && AdmissionObjects(o, p, a, ctx, batch)
    requires a.skipped == skipped < |a.queue| && a.queue[skipped] == req
    modifies batch, ctx.waitQ, ctx.computed, Elements(o.queue)
    ensures AdmissionObjects(o, p, Admit(a, req, n, reached, from), ctx, batch)
  {
    hide Scanning, AdmissionTable, WellFormed, Distinct, DistinctIds, RemoveAt, ScanOrder, Sound;
    ghost var z := Admit(a, req, n, reached, from);
    CandidateFacts(ctx, o, p, x, a);
    AdmittedTable(o, p, a, req, n, reached, from, ctx.computed.m);
    DequeueAdmitted(ctx.waitQ, req, skipped);
    batch.requests := batch.requests + [req];
    ctx.computed.m := ctx.computed.m[req.id := reached];
    MarkRunning(req, n, ctx.stepCount);
    forall r | r in o.batch
      ensures r.numNewTokens == Tokens(p.granted, r)
      ensures DynamicOf(r) == if r in p.evicted then Preempted(o.before[r]) else o.before[r]
    {
      assert r != req;
    }
    forall r | r in o.queue
      ensures r in z.admitted ==> r.numNewTokens == Tokens(z.granted, r)
      ensures DynamicOf(r) == if r in z.admitted then o.before[r].(state := Running, scheduled := ctx.stepCount) else o.before[r]
    {
      assert r != req ==> (r in z.admitted <==> r in a.admitted);
    }
  }

  lemma SameOutside(m: map<string, nat>, n: map<string, nat>, ids: set<string>, id: string)
    requires m - ids == n - ids && id !in ids
    ensures (id in m <==> id in n) && At(m, id) == At(n, id)
  {
    assert id in m <==> id in m - ids;
    assert id in n <==> id in n - ids;
    assert id in m ==> (m - ids)[id] == m[id];
  }

  lemma SameFurtherOut(m: map<string, nat>, now: map<string, nat>, n: map<string, nat>, ids: set<string>, id: string)
    requires m - ids == n - ids && now - {id} == m - {id}
    ensures now - (ids + {id}) == n - (ids + {id})
  {
    assert now - (ids + {id}) == (now - {id}) - ids;
    assert (m - {id}) - ids == (m - ids) - {id};
    assert (n - ids) - {id} == n - (ids + {id});
  }

  lemma BlocksAdmitted(o: Origin, p: Pass, a: Admission, r: Request, n: nat, startIndex: nat, endIndex: nat,
                       stored: map<string, nat>, now: map<string, nat>)
    requires AdmissionBlocks(o, p, a, stored) && a.skipped < |a.queue| && startIndex <= endIndex
    requires r.id !in Ids(o.batch) && r.id !in Ids(a.admitted) && r !in a.admitted && r in o.progress
    requires Elements(p.batch) <= Elements(o.batch) && forall s :: s in p.evicted ==> s in o.batch
    requires var written := Written(r, o.progress[r], endIndex - startIndex);
             now == if r.id in stored || written > 0
                    then stored[r.id := (if r.id in stored then stored[r.id] else if r.isDecodeSub then 0 else startIndex) + written]
                    else stored
    ensures AdmissionBlocks(o, p, Admit(a, r, n, endIndex, startIndex), now)
  {
    hide Written, RemoveAt, Charged, Deposit, At, Ids, Elements;
    var z := Admit(a, r, n, endIndex, startIndex);
    IdsSnoc(a.admitted, r);
    var old0 := Ids(o.batch) + Ids(a.admitted);
    assert Ids(o.batch) + Ids(z.admitted) == old0 + {r.id};
    DepositMade(o, r, startIndex, endIndex, old0, stored, now);
    assert now - {r.id} == stored - {r.id};
    SameFurtherOut(stored, now, o.stored, old0, r.id);
    OthersKeep(stored, now, r.id);
    NotAmong(o.batch, r.id);
    NotAmong(a.admitted, r.id);
    ElementsAre(p.batch);
    ElementsAre(o.batch);
  }

  lemma NotAmong(s: seq<Request>, id: string)
    requires id !in Ids(s)
    ensures forall r :: r in s ==> r.id != id
  {
  }

  lemma OthersKeep(m: map<string, nat>, now: map<string, nat>, id: string)
    requires now - {id} == m - {id}
    ensures forall other :: other != id ==> (other in now <==> other in m) && At(now, other) == At(m, other)
  {
    forall other | other != id ensures (other in now <==> other in m) && At(now, other) == At(m, other) {
      SameOutside(now, m, {id}, other);
    }
  }

  lemma DepositMade(o: Origin, r: Request, startIndex: nat, endIndex: nat, ids: set<string>, stored: map<string, nat>, now: map<string, nat>)
    requires startIndex <= endIndex && r in o.progress && stored - ids == o.stored - ids && r.id !in ids
    requires var written := Written(r, o.progress[r], endIndex - startIndex);
             now == if r.id in stored || written > 0
                    then stored[r.id := (if r.id in stored then stored[r.id] else if r.isDecodeSub then 0 else startIndex) + written]
                    else stored
    ensures r.isDecodeSub || r.id !in o.stored ==>
              At(now, r.id) == At(o.stored, r.id) + Deposit(r, o.progress[r], startIndex, endIndex)
  {
    hide Written;
    SameOutside(stored, o.stored, ids, r.id);
  }

  /** The skipped stay deferred, whatever the store does to the candidate's own deferral. */
  lemma SkippedStayDeferred(a: Admission, r: Request, was: set<string>, now: set<string>)
    requires a.skipped < |a.queue| && a.queue[a.skipped] == r
    requires forall s :: s in a.queue[..a.skipped] ==> s.id in was && s.id != r.id
    requires now - {r.id} == was - {r.id}
    ensures forall s :: s in a.queue[..a.skipped] ==> s.id in now
    ensures r.id in now ==> forall s :: s in a.queue[..a.skipped + 1] ==> s.id in now
    ensures RemoveAt(a.queue, a.skipped)[..a.skipped] == a.queue[..a.skipped]
  {
    forall s | s in a.queue[..a.skipped] ensures s.id in now {
      assert s.id in was - {r.id} && s.id in now - {r.id};
    }
    assert a.queue[..a.skipped + 1] == a.queue[..a.skipped] + [r];
  }

  /** A plain candidate that fits the store by itself. */
  ghost predicate LoneAdmission(ctx: BatchContext, o: Origin, r: Request) {
    && !ctx.kv.deferrable && o.stored.Keys <= Ids(o.batch) && !r.isDecodeSub
    && r in o.progress && o.progress[r] == 0 && Max(r.InputLen(), 1) <= ctx.kv.Capacity()
  }

  /** Nobody holds blocks when it is considered. */
  lemma LoneCandidate(ctx: BatchContext, o: Origin, p: Pass, x: StepInputs, a: Admission, stored: map<string, nat>)
    requires Scanning(ctx, o, p, x, a) && AdmissionBlocks(o, p, a, stored)
    ensures a.batch == [] && o.stored.Keys <= Ids(o.batch) ==> stored == map[]
  {
    if a.batch == [] && o.stored.Keys <= Ids(o.batch) {
      WithoutAbsent(o.batch, Elements(p.evicted));
      assert o.batch == [] && a.admitted == [];
      assert Ids(o.batch) + Ids(a.admitted) == {};
      assert stored - {} == stored && o.stored - {} == o.stored;
    }
  }

  lemma SkipIgnored(o: Origin, p: Pass, a: Admission, z: Admission, stored: map<string, nat>)
    requires z == a.(skipped := z.skipped)
    ensures AdmissionBlocks(o, p, z, stored) == AdmissionBlocks(o, p, a, stored)
  {
    hide Charged, At, Ids;
  }

  /** Phase 2's allocation for the candidate, and what the answer leaves of the store's side. */
  method AllocateFor(ctx: BatchContext, req: Request, startIndex: nat, endIndex: nat, cachedBlocks: set<nat>,
                     ghost o: Origin, ghost p: Pass, ghost x: StepInputs, ghost a: Admission, ghost n: nat)
    returns (ok: bool)
    requires Scanning(ctx, o, p, x, a) && a.skipped < |a.queue| && a.queue[a.skipped] == req
    requires AdmissionStore(o, p, a, ctx.kv) && startIndex <= endIndex && cachedBlocks <= ctx.kv.AllBlocks()
    requires if req.isDecodeSub then cachedBlocks == {} else |cachedBlocks| * ctx.kv.blockSize == startIndex
    requires x.polled <= ctx.kv.deferred && req.id !in x.polled && req in o.progress && req.progressIndex == o.progress[req]
    modifies ctx.kv
    ensures x.polled <= ctx.kv.deferred
    ensures ctx.kv.answers == old(ctx.kv.answers) + [Allocation(req.id, startIndex, endIndex, ok)]
    ensures ok ==> AdmissionStore(o, p, Admit(a, req, n, endIndex, startIndex), ctx.kv)
    ensures !ok ==> AdmissionStore(o, p, a, ctx.kv)
    ensures !ok && req.id in ctx.kv.deferred ==> AdmissionStore(o, p, a.(skipped := a.skipped + 1), ctx.kv)
    ensures a.batch == [] && LoneAdmission(ctx, o, req) && endIndex <= req.InputLen() ==> ok
  {
    hide Scanning, WellFormed, AdmissionBlocks, Deposit, Shut, KVStore.HasRoom, KVStore.Used, BlocksFor;
    ghost var was := ctx.kv.deferred;
    assert x.polled <= was - {req.id};
    CandidateFacts(ctx, o, p, x, a);
    CandidateIds(ctx, o, p, x, a);
    LoneCandidate(ctx, o, p, x, a, ctx.kv.stored);
    ghost var stored := ctx.kv.stored;
    ok := ctx.kv.AllocateKVBlocks(req, startIndex, endIndex, cachedBlocks);
    SkippedStayDeferred(a, req, was, ctx.kv.deferred);
    SkipIgnored(o, p, a, a.(skipped := a.skipped + 1), ctx.kv.stored);
    if ok {
      BlocksAdmitted(o, p, a, req, n, startIndex, endIndex, stored, ctx.kv.stored);
    }
  }

  lemma ObjectsIgnore(o: Origin, p: Pass, a: Admission, z: Admission, ctx: BatchContext, batch: Batch)
    requires AdmissionObjects(o, p, a, ctx, batch)
    requires z.batch == a.batch && z.queue == a.queue && z.admitted == a.admitted && z.granted == a.granted && z.reached == a.reached
    ensures AdmissionObjects(o, p, z, ctx, batch)
  {
  }

  lemma StoreIgnores(o: Origin, p: Pass, a: Admission, z: Admission, kv: KVStore)
    requires AdmissionStore(o, p, a, kv)
    requires z.queue == a.queue && z.skipped == a.skipped && z.admitted == a.admitted
    requires z.granted == a.granted && z.reached == a.reached && z.from == a.from
    ensures AdmissionStore(o, p, z, kv)
  {
  }

  /** The candidate's progress has not moved since the pass began. */
  lemma CandidateProgress(ctx: BatchContext, batch: Batch, o: Origin, p: Pass, x: StepInputs, a: Admission)
    requires Scanning(ctx, o, p, x, a) && AdmissionObjects(o, p, a, ctx, batch) && a.skipped < |a.queue|
    ensures var r := a.queue[a.skipped];
            && r in AfterEviction(o.progress, p.evicted) && r.progressIndex == AfterEviction(o.progress, p.evicted)[r]
            && r in o.progress && r.progressIndex == o.progress[r]
  {
    CandidateFacts(ctx, o, p, x, a);
    assert DynamicOf(a.queue[a.skipped]) == o.before[a.queue[a.skipped]];
  }

  /** The state in which a candidate is about to be decided on. */
  ghost predicate Deciding(ctx: BatchContext, batch: Batch, o: Origin, p: Pass, x: StepInputs, a: Admission, next: Request)
    reads batch, ctx.waitQ, ctx.kv, ctx.computed, Elements(o.batch), Elements(o.queue)
  {
    && x == ctx.inputs.(polled := x.polled) && x.polled <= ctx.kv.deferred
    && Scanning(ctx, o, p, x, a) && AdmissionObjects(o, p, a, ctx, batch) && AdmissionStore(o, p, a, ctx.kv)
    && !Shut(ctx.config, a) && a.queue[a.skipped] == next
  }

  /** Whoever stops the scan is not one that could be set aside. */
  ghost predicate StoppedByPressure(x: StepInputs, a: Admission, kv: KVStore)
    reads kv
  {
    a.closed && a.skipped < |a.queue| && !a.queue[a.skipped].isDecodeSub && !Gated(x, a.queue[a.skipped]) ==>
      a.queue[a.skipped].id !in kv.deferred
  }

  /** What one decision must have done to the objects. */
  ghost predicate Decided(ctx: BatchContext, batch: Batch, o: Origin, p: Pass, x: StepInputs, z: Admission)
    reads batch, ctx.waitQ, ctx.kv, ctx.computed, Elements(o.batch), Elements(o.queue)
  {
    && x.polled <= ctx.kv.deferred
    && Scanning(ctx, o, p, x, z) && AdmissionObjects(o, p, z, ctx, batch) && AdmissionStore(o, p, z, ctx.kv)
  }

  /** A transferred decode request: its blocks are here already, it is granted decode tokens at once. */
  method AdmitTransferred(ctx: BatchContext, batch: Batch, next: Request, skipped: nat, tokenBudget: int,
                          ghost o: Origin, ghost p: Pass, ghost x: StepInputs, ghost a: Admission)
    returns (admitted: bool, budget: int, ghost v: Verdict)
    requires Deciding(ctx, batch, o, p, x, a, next) && skipped == a.skipped && tokenBudget == a.budget
    requires next.id !in x.polled && !Gated(x, next) && next.isDecodeSub
    modifies batch, ctx.waitQ, ctx.kv, ctx.computed, Elements(o.queue)
    ensures ctx.kv.answers == old(ctx.kv.answers) + ConsiderLog(ctx.config, ctx.kv, x, AfterEviction(o.progress, p.evicted), a, v)
    ensures var z := Consider(ctx.config, x, AfterEviction(o.progress, p.evicted), a, v);
            && Decided(ctx, batch, o, p, x, z) && budget == z.budget
            && z.skipped == a.skipped && z.admitted == a.admitted + (if admitted then [next] else [])
            && (admitted <==> !z.closed) && |z.queue| == |a.queue| - (if admitted then 1 else 0)
    ensures StoppedByPressure(x, Consider(ctx.config, x, AfterEviction(o.progress, p.evicted), a, v), ctx.kv)
    ensures FairVerdict(ctx.config, ctx.kv, v)
  {
    hide Scanning, AdmissionObjects, WellFormed, AdmissionStore, AfterEviction, Gated, FairVerdict, Unshared;
    var c := ctx.config;
    admitted, budget, v := false, tokenBudget, Refused(0, 0);
    StoreIsValid(o, p, a, ctx.kv);
    NothingUnshared(c, ctx.kv);
    FairFromUnshared(c, ctx.kv, 0, 0);
    CandidateFacts(ctx, o, p, x, a);
    CandidateProgress(ctx, batch, o, p, x, a);
    KeepsScanning(ctx, o, p, x, a, Refused(0, 0));
    TransferGrantFloor(c, x, next, next.progressIndex, a.budget);
    var d := 1;
    if ctx.inputs.proposals.Some? {
      d := ctx.inputs.proposals.value(next);
      var outRoom := DecodeTokensToCompletion(next, next.progressIndex);
      if outRoom >= 1 { d := Min(d, outRoom); } else { d := 1; }
      if c.maxModelLen > 0 {
        var room := Max(c.maxModelLen - 1 - next.progressIndex, 0);
        if room >= 1 { d := Min(d, room); } else { d := 1; }
      }
      d := Min(d, budget);
    }
    // The source breaks off here when d < 1; TransferGrantFloor shows that it never is.
    assert d == TransferGrant(c, x, next, next.progressIndex, a.budget) >= 1;
    hide TransferGrant;
    var reached := next.progressIndex + d;
    var ok := AllocateFor(ctx, next, next.progressIndex, reached, {}, o, p, x, a, d);
    if !ok {
      ObjectsIgnore(o, p, a, a.(closed := true), ctx, batch);
      StoreIgnores(o, p, a, a.(closed := true), ctx.kv);
      assert Consider(c, x, AfterEviction(o.progress, p.evicted), a, v) == a.(closed := true);
      return;
    }
    v := Allocated(0, 0);
    KeepsScanning(ctx, o, p, x, a, v);
    AdmitRequest(ctx, batch, next, skipped, d, reached, next.progressIndex, o, p, x, a);
    return true, budget - d, v;
  }

  /** The prefix a new request need not compute: cached blocks, then what a reload would add. */
  method ComputedPrefix(ctx: BatchContext, next: Request) returns (cachedBlocks: set<nat>, startIndex: nat, computedStart: nat)
    requires ctx.kv.Valid()
    modifies ctx.kv`answers
    ensures cachedBlocks <= ctx.kv.AllBlocks() && |cachedBlocks| * ctx.kv.blockSize == startIndex
    ensures startIndex <= computedStart <= next.InputLen()
    ensures ctx.kv.answers == old(ctx.kv.answers) + PrefixLog(ctx.config, ctx.kv, next, startIndex, computedStart)
    ensures Unshared(ctx.config, ctx.kv, startIndex, computedStart)
  {
    cachedBlocks := {};
    if ctx.config.prefixCaching {
      cachedBlocks := ctx.kv.GetCachedBlocks(next.inputTokens);
    }
    startIndex := |cachedBlocks| * ctx.kv.blockSize;
    computedStart := startIndex;
    DivExact(|cachedBlocks|, ctx.kv.blockSize);
    if ctx.kv.reloads {
      var end := ctx.kv.ReloadablePrefixEnd(next, startIndex);
      if end.Some? && end.value > computedStart { computedStart := end.value; }
    }
  }

  /** The same on behalf of the candidate: asking changes nothing in the store. */
  method Consult(ctx: BatchContext, next: Request, ghost o: Origin, ghost p: Pass, ghost a: Admission)
    returns (cachedBlocks: set<nat>, startIndex: nat, computedStart: nat)
    requires AdmissionStore(o, p, a, ctx.kv)
    modifies ctx.kv`answers
    ensures AdmissionStore(o, p, a, ctx.kv)
    ensures cachedBlocks <= ctx.kv.AllBlocks() && |cachedBlocks| * ctx.kv.blockSize == startIndex
    ensures startIndex <= computedStart <= next.InputLen()
    ensures ctx.kv.answers == old(ctx.kv.answers) + PrefixLog(ctx.config, ctx.kv, next, startIndex, computedStart)
    ensures Unshared(ctx.config, ctx.kv, startIndex, computedStart)
  {
    hide AdmissionBlocks, PrefixLog, Unshared;
    cachedBlocks, startIndex, computedStart := ComputedPrefix(ctx, next);
  }

  method PrefillChunk(c: Config, r: Request, computedStart: nat, budget: nat) returns (n: nat)
    requires computedStart <= r.InputLen()
    ensures n == PrefillGrant(c, r, computedStart, budget) && computedStart + n <= r.InputLen()
  {
    n := r.InputLen() - computedStart;
    if 0 < c.prefillThreshold < n { n := c.prefillThreshold; }
    n := Min(n, budget);
    if c.maxModelLen > 0 {
      n := Min(n, Max(c.maxModelLen - 1 - computedStart, 0));
    }
  }

  lemma OpenHasNext(c: Config, a: Admission)
    requires !Shut(c, a)
    ensures a.skipped < |a.queue| && a.budget > 0 && !a.closed
  {
  }

  /** What the scan makes of the store's answer to a plain candidate that may be asked for. */
  lemma ConsiderPlain(c: Config, kv: KVStore, x: StepInputs, progress: map<Request, nat>, a: Admission, r: Request, cached: nat, start: nat)
    requires !Shut(c, a) && a.queue[a.skipped] == r && r.id !in x.polled && !Gated(x, r) && !r.isDecodeSub && r in progress
    requires cached <= start <= r.InputLen()
    ensures var n := PrefillGrant(c, r, start, a.budget);
            Consider(c, x, progress, a, Allocated(cached, start))
            == Admit(a, r, n, start + n, cached)
    ensures forall v: Verdict :: v.cached == cached && v.start == start ==>
              ConsiderLog(c, kv, x, progress, a, v)
              == PrefixLog(c, kv, r, cached, start)
                 + [Allocation(r.id, cached, start + PrefillGrant(c, r, start, a.budget), v.Allocated?)]
    ensures Consider(c, x, progress, a, Refused(cached, start)) == a.(closed := true)
    ensures Consider(c, x, progress, a, SetAside(cached, start)) == a.(skipped := a.skipped + 1, setAside := a.setAside + {r})
  {
    hide PrefillGrant;
  }

  /** The candidate joins the batch. */
  method TakeIn(ctx: BatchContext, batch: Batch, next: Request, skipped: nat, n: nat, endIndex: nat,
                ghost o: Origin, ghost p: Pass, ghost x: StepInputs, ghost a: Admission, ghost v: Verdict)
    requires x.polled <= ctx.kv.deferred && Scanning(ctx, o, p, x, a) && AdmissionObjects(o, p, a, ctx, batch)
    requires a.skipped == skipped < |a.queue| && a.queue[skipped] == next
    requires var z := Consider(ctx.config, x, AfterEviction(o.progress, p.evicted), a, v);
             z == Admit(a, next, n, endIndex, v.cached) && AdmissionStore(o, p, z, ctx.kv)
    modifies batch, ctx.waitQ, ctx.computed, Elements(o.queue)
    ensures Decided(ctx, batch, o, p, x, Consider(ctx.config, x, AfterEviction(o.progress, p.evicted), a, v))
  {
    hide Scanning, AdmissionObjects, AdmissionStore, Consider, AfterEviction;
    KeepsScanning(ctx, o, p, x, a, v);
    AdmitRequest(ctx, batch, next, skipped, n, endIndex, v.cached, o, p, x, a);
  }

  /** The candidate does not. */
  lemma TurnedAway(ctx: BatchContext, batch: Batch, o: Origin, p: Pass, x: StepInputs, a: Admission, v: Verdict)
    requires x.polled <= ctx.kv.deferred && Scanning(ctx, o, p, x, a) && AdmissionObjects(o, p, a, ctx, batch)
    requires var z := Consider(ctx.config, x, AfterEviction(o.progress, p.evicted), a, v);
             || (z == a.(closed := true) && AdmissionStore(o, p, a, ctx.kv))
             || (z == a.(skipped := a.skipped + 1, setAside := z.setAside) && AdmissionStore(o, p, a.(skipped := a.skipped + 1), ctx.kv))
    ensures Decided(ctx, batch, o, p, x, Consider(ctx.config, x, AfterEviction(o.progress, p.evicted), a, v))
  {
    hide Scanning, AdmissionObjects, AdmissionStore, Consider, AfterEviction;
    KeepsScanning(ctx, o, p, x, a, v);
    var z := Consider(ctx.config, x, AfterEviction(o.progress, p.evicted), a, v);
    ObjectsIgnore(o, p, a, z, ctx, batch);
    StoreIgnores(o, p, if z.skipped == a.skipped then a else a.(skipped := a.skipped + 1), z, ctx.kv);
  }

  /** A new prefill request: the cached prefix, a reload, the chunk and the caps, then the allocation. */
  method AdmitPrefill(ctx: BatchContext, batch: Batch, next: Request, skipped: nat, tokenBudget: int,
                      ghost o: Origin, ghost p: Pass, ghost x: StepInputs, ghost a: Admission)
    returns (admitted: bool, setAside: bool, budget: int, ghost v: Verdict)
    requires Deciding(ctx, batch, o, p, x, a, next) && skipped == a.skipped && tokenBudget == a.budget
    requires next.id !in x.polled && !Gated(x, next) && !next.isDecodeSub
    modifies batch, ctx.waitQ, ctx.kv, ctx.computed, Elements(o.queue)
    ensures ctx.kv.answers == old(ctx.kv.answers) + ConsiderLog(ctx.config, ctx.kv, x, AfterEviction(o.progress, p.evicted), a, v)
    ensures var z := Consider(ctx.config, x, AfterEviction(o.progress, p.evicted), a, v);
            && Decided(ctx, batch, o, p, x, z) && budget == z.budget
            && z.skipped == a.skipped + (if setAside then 1 else 0)
            && z.admitted == a.admitted + (if admitted then [next] else [])
            && (admitted || setAside <==> !z.closed) && !(admitted && setAside)
            && |z.queue| == |a.queue| - (if admitted then 1 else 0)
    ensures (!ctx.kv.deferrable ==> !setAside) && FairVerdict(ctx.config, ctx.kv, v)
    ensures StoppedByPressure(x, Consider(ctx.config, x, AfterEviction(o.progress, p.evicted), a, v), ctx.kv)
    ensures a.batch == [] && LoneAdmission(ctx, o, next) ==> Serves(v, next)
  {
    hide Scanning, AdmissionObjects, WellFormed, AdmissionStore, PrefillGrant, Consider, ConsiderLog, PrefixLog, AfterEviction,
         LoneAdmission, Gated, Shut, Distinct, FairVerdict, Unshared, Decided;
    var c := ctx.config;
    admitted, setAside, budget, v := false, false, tokenBudget, Refused(0, 0);
    OpenHasNext(c, a);
    CandidateFacts(ctx, o, p, x, a);
    CandidateProgress(ctx, batch, o, p, x, a);
    StoreIsValid(o, p, a, ctx.kv);
    var cachedBlocks, startIndex, computedStart := Consult(ctx, next, o, p, a);
    v := Refused(startIndex, computedStart);
    FairFromUnshared(c, ctx.kv, startIndex, computedStart);
    ConsiderPlain(c, ctx.kv, x, AfterEviction(o.progress, p.evicted), a, next, startIndex, computedStart);
    var n := PrefillChunk(c, next, computedStart, budget);
    var endIndex := computedStart + n;
    var ok := AllocateFor(ctx, next, startIndex, endIndex, cachedBlocks, o, p, x, a, n);
    if ok {
      v := Allocated(startIndex, computedStart);
      TakeIn(ctx, batch, next, skipped, n, endIndex, o, p, x, a, v);
      return true, false, budget - n, v;
    }
    if ctx.kv.deferrable && ctx.kv.IsDeferred(next.id) {
      v := SetAside(startIndex, computedStart);
      TurnedAway(ctx, batch, o, p, x, a, v);
      return false, true, budget, v;
    }
    StoreIsValid(o, p, a, ctx.kv);
    TurnedAway(ctx, batch, o, p, x, a, v);
  }

  lemma StoreIsValid(o: Origin, p: Pass, a: Admission, kv: KVStore)
    requires AdmissionStore(o, p, a, kv)
    ensures kv.Valid()
  {
  }

  lemma QueueOf(o: Origin, p: Pass, a: Admission, ctx: BatchContext, batch: Batch)
    requires AdmissionObjects(o, p, a, ctx, batch)
    ensures batch.requests == a.batch && ctx.waitQ.queue == a.queue
  {
  }

  lemma KeepsScanning(ctx: BatchContext, o: Origin, p: Pass, x: StepInputs, a: Admission, v: Verdict)
    requires Scanning(ctx, o, p, x, a)
    ensures Scanning(ctx, o, p, x, Consider(ctx.config, x, AfterEviction(o.progress, p.evicted), a, v))
  {
    OriginDistinct(o);
    ConsiderSound(ctx.config, x, AfterEviction(o.progress, p.evicted), p.batch, p.budget, o.queue, a, v);
  }

  /** A deferred candidate may be left behind. */
  lemma StoreSkips(o: Origin, p: Pass, a: Admission, kv: KVStore)
    requires AdmissionStore(o, p, a, kv) && a.skipped < |a.queue| && a.queue[a.skipped].id in kv.deferred
    ensures AdmissionStore(o, p, a.(skipped := a.skipped + 1), kv)
  {
    hide AdmissionBlocks;
    var z := a.(skipped := a.skipped + 1);
    SkipIgnored(o, p, a, z, kv.stored);
    assert z.queue[..z.skipped] == a.queue[..a.skipped] + [a.queue[a.skipped]];
    forall r | r in z.queue[..z.skipped] ensures r.id in kv.deferred {
      assert r in a.queue[..a.skipped] || r == a.queue[a.skipped];
    }
  }

  /** One turn of the phase 2 loop; `go` is false when the scan must break off. */
  method ConsiderOne(ctx: BatchContext, batch: Batch, next: Request, skipped: nat, tokenBudget: int, polled: set<string>,
                     ghost o: Origin, ghost p: Pass, ghost x: StepInputs, ghost a: Admission)
    returns (go: bool, nextSkipped: nat, budget: int, admitted: seq<Request>, ghost v: Verdict)
    requires Deciding(ctx, batch, o, p, x, a, next) && skipped == a.skipped && tokenBudget == a.budget && polled == x.polled
    modifies batch, ctx.waitQ, ctx.kv, ctx.computed, Elements(o.queue)
    ensures ctx.kv.answers == old(ctx.kv.answers) + ConsiderLog(ctx.config, ctx.kv, x, AfterEviction(o.progress, p.evicted), a, v)
    ensures var z := Consider(ctx.config, x, AfterEviction(o.progress, p.evicted), a, v);
            && Decided(ctx, batch, o, p, x, z) && budget == z.budget && nextSkipped == z.skipped
            && z.admitted == a.admitted + admitted && (go <==> !z.closed)
            && (go ==> |z.queue| - z.skipped < |a.queue| - a.skipped)
    ensures StoppedByPressure(x, Consider(ctx.config, x, AfterEviction(o.progress, p.evicted), a, v), ctx.kv)
    ensures FairVerdict(ctx.config, ctx.kv, v)
    ensures a.batch == [] && polled == {} && LoneAdmission(ctx, o, next) && ctx.inputs.resident.None?
            ==> Serves(v, next)
  {
    hide Scanning, AdmissionObjects, AdmissionStore, AfterEviction, PrefillGrant, TransferGrant, Admit,
         FairVerdict, Unshared;
    go, nextSkipped, budget, admitted, v := false, skipped, tokenBudget, [], Refused(0, 0);
    StoreIsValid(o, p, a, ctx.kv);
    NothingUnshared(ctx.config, ctx.kv);
    FairFromUnshared(ctx.config, ctx.kv, 0, 0);
    KeepsScanning(ctx, o, p, x, a, Refused(0, 0));
    if next.id in polled {
      ghost var z := a.(skipped := skipped + 1);
      ObjectsIgnore(o, p, a, z, ctx, batch);
      StoreSkips(o, p, a, ctx.kv);
      return true, skipped + 1, budget, [], v;
    }
    if ctx.inputs.resident.Some? && !next.isDecodeSub && next.adapter != "" && !ctx.inputs.resident.value(next.adapter) {
      ObjectsIgnore(o, p, a, a.(closed := true), ctx, batch);
      StoreIgnores(o, p, a, a.(closed := true), ctx.kv);
      return;
    }
    hide Decided, Deciding, Consider;
    var taken: bool;
    if next.isDecodeSub {
      taken, budget, v := AdmitTransferred(ctx, batch, next, skipped, budget, o, p, x, a);
      go := taken;
    } else {
      var aside: bool;
      taken, aside, budget, v := AdmitPrefill(ctx, batch, next, skipped, budget, o, p, x, a);
      go := taken || aside;
      if aside { nextSkipped := nextSkipped + 1; }
    }
    if taken { admitted := [next]; }
  }

  lemma AdmissionsSnoc(c: Config, x: StepInputs, progress: map<Request, nat>, a: Admission, vs: seq<Verdict>, v: Verdict)
    ensures Admissions(c, x, progress, a, vs + [v]) == Consider(c, x, progress, Admissions(c, x, progress, a, vs), v)
  {
    assert (vs + [v])[..|vs + [v]| - 1] == vs;
  }

  lemma AdmissionsLogSnoc(c: Config, kv: KVStore, x: StepInputs, progress: map<Request, nat>, a: Admission, vs: seq<Verdict>, v: Verdict)
    ensures AdmissionsLog(c, kv, x, progress, a, vs + [v])
            == AdmissionsLog(c, kv, x, progress, a, vs) + ConsiderLog(c, kv, x, progress, Admissions(c, x, progress, a, vs), v)
  {
    assert (vs + [v])[..|vs + [v]| - 1] == vs;
  }

  lemma Appended<T>(all: seq<T>, a: seq<T>, b: seq<T>, c: seq<T>)
    ensures all == a + b + c <==> all == a + (b + c)
  {
    assert a + b + c == a + (b + c);
  }

  /** A deferrable store is polled, once. */
  function PollLog(kv: KVStore, polled: set<string>): seq<Answer> {
    if kv.deferrable then [Polled(polled)] else []
  }

  /** The store's deferred requests advance once per step. */
  method PollOnce(ctx: BatchContext, batch: Batch, ghost o: Origin, ghost p: Pass) returns (polled: set<string>)
    requires AdmissionObjects(o, p, Open(p, o.queue), ctx, batch) && AdmissionStore(o, p, Open(p, o.queue), ctx.kv)
    modifies ctx.kv
    ensures AdmissionObjects(o, p, Open(p, o.queue), ctx, batch) && AdmissionStore(o, p, Open(p, o.queue), ctx.kv)
    ensures polled <= ctx.kv.deferred && (!ctx.kv.deferrable ==> polled == {})
    ensures ctx.kv.answers == old(ctx.kv.answers) + PollLog(ctx.kv, polled)
  {
    polled := {};
    if ctx.kv.deferrable {
      polled := ctx.kv.PollDeferred();
    }
  }

  lemma SoundBudget(c: Config, o: Origin, p: Pass)
    requires Sound(c, o.batch, p)
    ensures p.budget >= 0
  {
  }

  predicate AdmittedFrom(queue: seq<Request>, a: Admission) {
    forall r :: r in a.admitted ==> r in queue && r in a.granted && r in a.reached && r in a.from
  }

  lemma ScanAdmits(ctx: BatchContext, o: Origin, p: Pass, x: StepInputs, a: Admission)
    requires Scanning(ctx, o, p, x, a)
    ensures AdmittedFrom(o.queue, a)
  {
    OriginDistinct(o);
    QueueIsRest(o.queue, a.queue, a.admitted, a.skipped);
    forall r | r in a.admitted ensures r in o.queue && r in a.granted && r in a.reached && r in a.from {
      assert r in Elements(a.admitted);
    }
  }

  /** Plain requests are taken from where the store said their prefix ends. */
  predicate FromStart(a: Admission) {
    forall r :: r in a.admitted && r in a.reached && r in a.granted && !r.isDecodeSub ==> a.reached[r] == a.granted[r]
  }

  lemma {:induction false} UncreditedFromStart(c: Config, x: StepInputs, progress: map<Request, nat>, a: Admission, vs: seq<Verdict>)
    requires a.admitted == [] && forall v :: v in vs ==> v.start == 0
    ensures FromStart(Admissions(c, x, progress, a, vs))
  {
    hide PrefillGrant, TransferGrant, RemoveAt;
    if vs != [] {
      UncreditedFromStart(c, x, progress, a, vs[..|vs| - 1]);
    }
  }

  /** Where nothing is shared or reloaded, whoever is admitted is billed for every token it is taken to. */
  lemma Billing(ctx: BatchContext, batch: Batch, o: Origin, p: Pass, x: StepInputs, progress: map<Request, nat>, vs: seq<Verdict>)
    requires var a := Admissions(ctx.config, x, progress, Open(p, o.queue), vs);
             AdmissionObjects(o, p, a, ctx, batch) && AdmittedFrom(o.queue, a)
    requires forall v :: v in vs ==> FairVerdict(ctx.config, ctx.kv, v)
    ensures var a := Admissions(ctx.config, x, progress, Open(p, o.queue), vs);
            !ctx.config.prefixCaching && !ctx.kv.reloads ==>
              forall r :: r in a.admitted && !r.isDecodeSub ==> r.id in ctx.computed.m && ctx.computed.m[r.id] == r.numNewTokens
  {
    if !ctx.config.prefixCaching && !ctx.kv.reloads {
      UncreditedFromStart(ctx.config, x, progress, Open(p, o.queue), vs);
      hide Admissions;
    }
  }

  /** Phase 2. Whatever the KV store answers, the objects end as the scan driven by its verdicts ends. */
  method AdmitWaiting(ctx: BatchContext, batch: Batch, preempted: seq<Request>, tokenBudget: int,
                      ghost o: Origin, ghost p: Pass)
    returns (newlyScheduled: seq<Request>, ghost polled: set<string>, ghost vs: seq<Verdict>)
    requires WellFormed(o) && Sound(ctx.config, o.batch, p) && preempted == p.evicted && tokenBudget == p.budget
    requires AdmissionObjects(o, p, Open(p, o.queue), ctx, batch) && AdmissionStore(o, p, Open(p, o.queue), ctx.kv)
    modifies batch, ctx.waitQ, ctx.kv, ctx.computed, Elements(o.queue)
    ensures var a := Admissions(ctx.config, ctx.inputs.(polled := polled), AfterEviction(o.progress, p.evicted), Open(p, o.queue), vs);
            && AdmissionObjects(o, p, a, ctx, batch) && AdmissionStore(o, p, a, ctx.kv) && Shut(ctx.config, a)
            && newlyScheduled == a.admitted && AdmittedFrom(o.queue, a)
            && ctx.kv.answers == old(ctx.kv.answers) + PollLog(ctx.kv, polled)
               + AdmissionsLog(ctx.config, ctx.kv, ctx.inputs.(polled := polled), AfterEviction(o.progress, p.evicted), Open(p, o.queue), vs)
    ensures preempted == [] ==>
              StoppedByPressure(ctx.inputs.(polled := polled),
                                Admissions(ctx.config, ctx.inputs.(polled := polled), AfterEviction(o.progress, p.evicted), Open(p, o.queue), vs),
                                ctx.kv)
    ensures (!ctx.kv.deferrable ==> polled == {}) && forall v :: v in vs ==> FairVerdict(ctx.config, ctx.kv, v)
    ensures p.batch == [] && p.evicted == [] && p.budget > 0 && ctx.config.maxSeqs > 0 && o.queue != []
            && LoneAdmission(ctx, o, o.queue[0]) && ctx.inputs.resident.None?
            ==> vs != [] && Serves(vs[0], o.queue[0])
  {
    hide Sound, WellFormed, AdmissionObjects, AdmissionStore, Scanning, Consider, Admissions, Reverse, ConsiderLog, AdmissionsLog,
         PollLog, AfterEviction, FairVerdict;
    StoreIsValid(o, p, Open(p, o.queue), ctx.kv);
    var deferredSet := PollOnce(ctx, batch, o, p);
    polled, vs, newlyScheduled := deferredSet, [], [];
    ghost var x := ctx.inputs.(polled := polled);
    ghost var start := Open(p, o.queue);
    ghost var a := start;
    ghost var lone := preempted == [] && p.batch == [] && polled == {} && ctx.inputs.resident.None?
                      && o.queue != [] && LoneAdmission(ctx, o, o.queue[0]);
    OpenQueue(p, o.queue);
    var skipped, budget, go := 0, tokenBudget, true;
    NoVerdicts(ctx.config, ctx.kv, x, AfterEviction(o.progress, p.evicted), start);
    SoundBudget(ctx.config, o, p);
    if preempted == [] { OpenSound(x, p, o.queue); OpenScans(ctx, o, p, x); }
    QueueOf(o, p, a, ctx, batch);
    while go && |batch.requests| < ctx.config.maxSeqs && ctx.waitQ.Len() > skipped && budget > 0 && preempted == []
      invariant a == Admissions(ctx.config, x, AfterEviction(o.progress, p.evicted), start, vs)
      invariant ctx.kv.answers == old(ctx.kv.answers) + PollLog(ctx.kv, polled)
                + AdmissionsLog(ctx.config, ctx.kv, x, AfterEviction(o.progress, p.evicted), start, vs)
      invariant AdmissionObjects(o, p, a, ctx, batch) && AdmissionStore(o, p, a, ctx.kv) && polled <= ctx.kv.deferred
      invariant batch.requests == a.batch && ctx.waitQ.queue == a.queue
      invariant skipped == a.skipped && budget == a.budget && newlyScheduled == a.admitted
      invariant preempted == [] ==> Scanning(ctx, o, p, x, a) && (go <==> !a.closed)
      invariant preempted != [] ==> a == start
      invariant preempted == [] ==> StoppedByPressure(x, a, ctx.kv)
      invariant forall v :: v in vs ==> FairVerdict(ctx.config, ctx.kv, v)
      invariant vs == [] ==> a == start
      invariant lone && vs != [] ==> Serves(vs[0], o.queue[0])
      decreases |a.queue| - a.skipped + (if go then 1 else 0)
    {
      var next := ctx.waitQ.PeekAt(skipped).value;
      var admitted: seq<Request>;
      ghost var v: Verdict;
      ghost var was := a;
      go, skipped, budget, admitted, v := ConsiderOne(ctx, batch, next, skipped, budget, deferredSet, o, p, x, a);
      newlyScheduled := newlyScheduled + admitted;
      AdmissionsSnoc(ctx.config, x, AfterEviction(o.progress, p.evicted), start, vs, v);
      Appended(ctx.kv.answers, old(ctx.kv.answers) + PollLog(ctx.kv, polled),
               AdmissionsLog(ctx.config, ctx.kv, x, AfterEviction(o.progress, p.evicted), start, vs),
               ConsiderLog(ctx.config, ctx.kv, x, AfterEviction(o.progress, p.evicted), a, v));
      AdmissionsLogSnoc(ctx.config, ctx.kv, x, AfterEviction(o.progress, p.evicted), start, vs, v);
      a := Consider(ctx.config, x, AfterEviction(o.progress, p.evicted), a, v);
      vs := vs + [v];
      QueueOf(o, p, a, ctx, batch);
      ConsiderShrinks(ctx.config, x, AfterEviction(o.progress, p.evicted), was, v);
    }
    if preempted == [] { ScanAdmits(ctx, o, p, x, a); }
  }

  lemma OpenQueue(p: Pass, queue: seq<Request>)
    ensures p.evicted == [] ==> Open(p, queue).queue == queue
  {
    assert Reverse<Request>([]) + queue == queue;
  }

  lemma NoVerdicts(c: Config, kv: KVStore, x: StepInputs, progress: map<Request, nat>, a: Admission)
    ensures Admissions(c, x, progress, a, []) == a && AdmissionsLog(c, kv, x, progress, a, []) == []
  {
  }

  lemma OpenScans(ctx: BatchContext, o: Origin, p: Pass, x: StepInputs)
    requires WellFormed(o) && Sound(ctx.config, o.batch, p) && p.evicted == []
    requires AdmissionSound(x, p.batch, p.budget, Open(p, o.queue).queue, Open(p, o.queue))
    ensures Scanning(ctx, o, p, x, Open(p, o.queue))
  {
    assert Reverse<Request>([]) + o.queue == o.queue;
  }

  /** The requests not yet scanned never grow. */
  lemma ConsiderShrinks(c: Config, x: StepInputs, progress: map<Request, nat>, a: Admission, v: Verdict)
    ensures var z := Consider(c, x, progress, a, v);
            |z.queue| - z.skipped <= |a.queue| - a.skipped
  {
    hide TransferGrant, PrefillGrant;
  }

  /** FormBatch: both phases on the objects of the instance. A nil running batch is a fresh empty one. */
  method FormBatch(ctx: BatchContext, running: Option<Batch>, ghost o: Origin)
    returns (batch: Batch, newlyScheduled: seq<Request>, preempted: seq<Request>,
             ghost polled: set<string>, ghost fails: seq<nat>, ghost vs: seq<Verdict>)
    requires WellFormed(o)
    requires match running case None => o.batch == [] case Some(b) => b.requests == o.batch
    requires ctx.waitQ.queue == o.queue && ctx.computed.m == o.computed
    requires ctx.kv.Valid() && ctx.kv.stored == o.stored
    requires forall r :: r in o.batch || r in o.queue ==> DynamicOf(r) == o.before[r]
    modifies (match running case None => {} case Some(b) => {b}), ctx.waitQ, ctx.kv, ctx.computed,
             Elements(o.batch), Elements(o.queue)
    ensures match running case None => fresh(batch) case Some(b) => batch == b
    ensures var p := Run(ctx.config, ctx.inputs, o.progress, o.batch, fails);
            var a := Admissions(ctx.config, ctx.inputs.(polled := polled), AfterEviction(o.progress, p.evicted), Open(p, o.queue), vs);
            && Over(p)
            && (a.closed || |batch.requests| >= ctx.config.maxSeqs || |ctx.waitQ.queue| <= a.skipped || a.budget <= 0)
            && AdmissionObjects(o, p, a, ctx, batch) && AdmissionStore(o, p, a, ctx.kv)
            && preempted == p.evicted && newlyScheduled == a.admitted && AdmittedFrom(o.queue, a)
    ensures ctx.kv.answers == old(ctx.kv.answers) + RunLog(ctx.config, ctx.inputs, o.progress, o.batch, fails) + PollLog(ctx.kv, polled)
              + (var p := Run(ctx.config, ctx.inputs, o.progress, o.batch, fails);
                 AdmissionsLog(ctx.config, ctx.kv, ctx.inputs.(polled := polled), AfterEviction(o.progress, p.evicted), Open(p, o.queue), vs))
    ensures !ctx.config.prefixCaching && !ctx.kv.reloads ==>
              forall r :: r in newlyScheduled && !r.isDecodeSub ==>
                r.id in ctx.computed.m && ctx.computed.m[r.id] == r.numNewTokens
    ensures var p := Run(ctx.config, ctx.inputs, o.progress, o.batch, fails);
            preempted == [] ==>
              StoppedByPressure(ctx.inputs.(polled := polled),
                                Admissions(ctx.config, ctx.inputs.(polled := polled), AfterEviction(o.progress, p.evicted), Open(p, o.queue), vs),
                                ctx.kv)
    ensures (!ctx.kv.deferrable ==> polled == {}) && forall v :: v in vs ==> FairVerdict(ctx.config, ctx.kv, v)
    ensures AllFit(ctx, o) && o.batch != [] ==>
              && Run(ctx.config, ctx.inputs, o.progress, o.batch, fails).batch != []
              && (ctx.config.policy == Fcfs && ctx.config.maxBatchedTokens > 0 ==> fails != [] && fails[0] < |o.batch|)
    ensures o.batch == [] && o.queue != [] && ctx.config.maxBatchedTokens > 0 && ctx.config.maxSeqs > 0
            && LoneAdmission(ctx, o, o.queue[0]) && ctx.inputs.resident.None?
            ==> vs != [] && Serves(vs[0], o.queue[0])
  {
    hide AdmissionObjects, AdmissionStore, Run, RunLog, Admissions, AdmissionsLog, PollLog, AfterEviction, LoneAdmission, AllFit,
         StoppedByPressure, FairVerdict, Sound;
    OriginDistinct(o);
    match running {
      case None => batch := new Batch();
      case Some(b) => batch := b;
    }
    assert Pristine(o, ctx, batch);
    var tokenBudget: int;
    preempted, tokenBudget, fails := ServeRunning(ctx, batch, o);
    ghost var p := Run(ctx.config, ctx.inputs, o.progress, o.batch, fails);
    OpenMirrors(ctx, batch, o, p);
    if o.batch == [] {
      NothingToServe(ctx.config, ctx.inputs, o.progress, fails);
    }
    newlyScheduled, polled, vs := AdmitWaiting(ctx, batch, preempted, tokenBudget, o, p);
    ghost var x := ctx.inputs.(polled := polled);
    QueueOf(o, p, Admissions(ctx.config, x, AfterEviction(o.progress, p.evicted), Open(p, o.queue), vs), ctx, batch);
    Billing(ctx, batch, o, p, x, AfterEviction(o.progress, p.evicted), vs);
  }

  /** Phase 2 finds the objects as phase 1 left them, and the queued requests untouched. */
  lemma OpenMirrors(ctx: BatchContext, batch: Batch, o: Origin, p: Pass)
    requires WellFormed(o) && Mirrors(o, p, ctx, batch)
    requires forall r :: r in o.queue ==> DynamicOf(r) == o.before[r]
    ensures AdmissionObjects(o, p, Open(p, o.queue), ctx, batch)
    ensures AdmissionStore(o, p, Open(p, o.queue), ctx.kv)
  {
    hide StoreMatches, ObjectsMirror, AdmissionBlocks, AdmissionObjects, WellFormed;
    OpenObjects(ctx, batch, o, p);
    OpenBlocks(o, p, ctx.kv.stored);
  }

  lemma OpenObjects(ctx: BatchContext, batch: Batch, o: Origin, p: Pass)
    requires WellFormed(o) && ObjectsMirror(o, p, ctx, batch)
    requires forall r :: r in o.queue ==> DynamicOf(r) == o.before[r]
    ensures AdmissionObjects(o, p, Open(p, o.queue), ctx, batch)
  {
    hide Reverse, Distinct, DistinctIds;
    assert Ids([]) == {};
  }

  lemma OpenBlocks(o: Origin, p: Pass, stored: map<string, nat>)
    requires StoreMatches(o, p, stored)
    ensures AdmissionBlocks(o, p, Open(p, o.queue), stored)
  {
    assert Ids([]) == {};
    hide Ids, Charged;
    assert Ids(o.batch) + {} == Ids(o.batch);
  }
}
