/** What one pass of batch formation asks the KV store, call by call, as a function of the answers
    (sim/batch_formation.go:143-438, 446-531). */
module StoreLog {
  import opened Requests
  import opened Limits
  import opened RunningPass
  import opened AdmissionPass
  import opened KvStores

  /** `k` refusals of one allocation. */
  function Refusals(r: Request, start: nat, end: nat, k: nat): seq<Answer> {
    if k == 0 then [] else Refusals(r, start, end, k - 1) + [Allocation(r.id, start, end, false)]
  }

  /** One turn of phase 1: an allocation is tried once per eviction, and once more if the request survives. */
  function VisitLog(c: Config, x: StepInputs, progress: map<Request, nat>, p: Pass, fails: nat): seq<Answer> {
    if Over(p) || p.batch[p.idx] !in progress then []
    else
      var r := p.batch[p.idx];
      var end := progress[r] + Grant(c, x, r, progress[r], p.budget);
      if !NeedsBlocks(c, x, r, progress[r], p.budget) then []
      else Refusals(r, progress[r], end, fails)
           + (if r in EvictFor(c.policy, p, r, fails).batch then [Allocation(r.id, progress[r], end, true)] else [])
  }

  function RunLog(c: Config, x: StepInputs, progress: map<Request, nat>, batch: seq<Request>, fails: seq<nat>): seq<Answer> {
    if fails == [] then []
    else
      var front, k := fails[..|fails| - 1], fails[|fails| - 1];
      RunLog(c, x, progress, batch, front) + VisitLog(c, x, progress, Run(c, x, progress, batch, front), k)
  }

  /** Without prefix caching nothing is shared, and without a reloading store besides, nothing is credited;
      shared blocks are full. */
  predicate Unshared(c: Config, kv: KVStore, cached: nat, start: nat) {
    && (!c.prefixCaching ==> cached == 0)
    && (!kv.reloads ==> start == cached)
    && cached == cached / kv.blockSize * kv.blockSize
  }

  predicate FairVerdict(c: Config, kv: KVStore, v: Verdict) {
    Unshared(c, kv, v.cached, v.start) && (v.SetAside? ==> kv.deferrable)
  }

  lemma FairFromUnshared(c: Config, kv: KVStore, cached: nat, start: nat)
    requires Unshared(c, kv, cached, start)
    ensures FairVerdict(c, kv, Refused(cached, start)) && FairVerdict(c, kv, Allocated(cached, start))
    ensures kv.deferrable ==> FairVerdict(c, kv, SetAside(cached, start))
  {
  }

  lemma NothingUnshared(c: Config, kv: KVStore)
    ensures Unshared(c, kv, 0, 0)
  {
  }

  /** What is asked about the computed prefix of a new request. */
  function PrefixLog(c: Config, kv: KVStore, r: Request, cached: nat, start: nat): seq<Answer>
  {
    (if c.prefixCaching then [CachedPrefix(r.inputTokens, cached / kv.blockSize)] else [])
    + (if kv.reloads then [Reloadable(r.id, cached, if start > cached then Some(start) else None)] else [])
  }

  /** One turn of phase 2. The deferred and the gated are not asked about. */
  function ConsiderLog(c: Config, kv: KVStore, x: StepInputs, progress: map<Request, nat>, a: Admission, v: Verdict): seq<Answer>
  {
    if Shut(c, a) then []
    else
      var r := a.queue[a.skipped];
      if r.id in x.polled || Gated(x, r) || r !in progress then []
      else if r.isDecodeSub then
        [Allocation(r.id, progress[r], progress[r] + TransferGrant(c, x, r, progress[r], a.budget), v.Allocated?)]
      else if v.start > r.InputLen() then []
      else
        PrefixLog(c, kv, r, v.cached, v.start)
        + [Allocation(r.id, v.cached, v.start + PrefillGrant(c, r, v.start, a.budget), v.Allocated?)]
  }

  function AdmissionsLog(c: Config, kv: KVStore, x: StepInputs, progress: map<Request, nat>, a: Admission, vs: seq<Verdict>): seq<Answer>
  {
    if vs == [] then []
    else
      var front, v := vs[..|vs| - 1], vs[|vs| - 1];
      AdmissionsLog(c, kv, x, progress, a, front)
      + ConsiderLog(c, kv, x, progress, Admissions(c, x, progress, a, front), v)
  }
}
