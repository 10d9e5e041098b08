/** One instance: its queue, batch, KV store and pending step, driven by events
    (sim/simulator.go, sim/event.go). Its abstract state is a World of module Runs. */
module Simulators {
  import opened Arithmetic
  import opened Requests
  import opened Sequences
  import opened Limits
  import opened RunningPass
  import opened RunningPassOrder
  import opened AdmissionPass
  import opened Scheduler
  import opened WaitQueues
  import opened KvStores
  import opened Runs
  import opened RunPlaces
  import opened RunBlocks
  import opened RunBounds
  import opened RunOrder
  import opened NoStarvation
  import opened StoreLog
  import opened BatchFormation

  /** What the forward pass makes of an admitted request's progress agrees with what was computed. */
  predicate ReachedFits(progress: map<Request, nat>, a: Admission) {
    forall r :: r in a.reached && r in progress && r in a.granted && progress[r] >= r.InputLen() ==>
      a.reached[r] == progress[r] + a.granted[r]
  }

  lemma ConsiderReaches(c: Config, x: StepInputs, progress: map<Request, nat>, a: Admission, v: Verdict)
    requires AdmissionBounded(c, progress, a) && ReachedFits(progress, a)
    ensures ReachedFits(progress, Consider(c, x, progress, a, v))
  {
    hide TransferGrant;
    if !Shut(c, a) {
      assert Startable(c, progress, a.queue[a.skipped]);
    }
  }

  lemma {:induction false} AdmissionsReach(c: Config, x: StepInputs, progress: map<Request, nat>, a: Admission, vs: seq<Verdict>)
    requires AdmissionBounded(c, progress, a) && ReachedFits(progress, a)
    ensures ReachedFits(progress, Admissions(c, x, progress, a, vs))
  {
    hide Consider, AdmissionBounded, ReachedFits;
    if vs != [] {
      AdmissionsReach(c, x, progress, a, vs[..|vs| - 1]);
      AdmissionsBounded(c, x, progress, a, vs[..|vs| - 1]);
      ConsiderReaches(c, x, progress, Admissions(c, x, progress, a, vs[..|vs| - 1]), vs[|vs| - 1]);
    }
  }

  twostate predicate Untouched(r: Request)
    reads r
  {
    && r.progressIndex == old(r.progressIndex) && r.state == old(r.state) && r.numNewTokens == old(r.numNewTokens)
    && LogOf(r) == old(LogOf(r))
  }

  /** What the forward pass does to one batch member. */
  twostate predicate Moved(r: Request, target: nat, stepAdvance: nat, tokenTime: nat)
    reads r
  {
    && r.progressIndex == target && r.state == old(r.state) && r.numNewTokens == old(r.numNewTokens)
    && LogOf(r) == ForwardLog(old(LogOf(r)), old(r.progressIndex) >= r.InputLen(), r.numNewTokens, target == r.InputLen(), stepAdvance, tokenTime)
  }

  /** What a request keeps of its past. */
  datatype Log = Log(scheduled: int, ttftSet: bool, itl: seq<int>, carry: real)

  function LogOf(r: Request): Log
    reads r`scheduledStepIdx, r`ttftSet, r`itl, r`specDecodeCarry
  {
    Log(r.scheduledStepIdx, r.ttftSet, r.itl, r.specDecodeCarry)
  }

  /** The forward pass adds the latency of a decode step, and notes the end of prefill. */
  function ForwardLog(l: Log, decoding: bool, n: nat, prefilled: bool, stepAdvance: nat, tokenTime: nat): Log {
    l.(itl := l.itl + Logged(decoding, n, stepAdvance, tokenTime), ttftSet := l.ttftSet || prefilled)
  }

  /** Tokens a step grants `r`. */
  function StepTokens(p: Pass, a: Admission, r: Request): nat {
    if r in a.granted then a.granted[r] else Tokens(p.granted, r)
  }

  /** Batch formation wipes the past of a victim and notes the step of an admission. */
  function FormedLog(p: Pass, a: Admission, r: Request, l: Log, step: int): Log {
    if r in p.evicted then Log(l.scheduled, false, [], 0.0)
    else if r in a.admitted then l.(scheduled := step)
    else l
  }

  /** A whole step. */
  function SteppedLog(c: Config, order: QueueOrder, w: World, e: Event, r: Request, l: Log, step: int, stepAdvance: nat, tokenTime: nat): Log
    requires e.Step? && r in w.progress
  {
    var p, a := PassOf(c, w, e), AdmissionOf(c, order, w, e);
    var formed := FormedLog(p, a, r, l, step);
    if r in a.batch
    then ForwardLog(formed, w.progress[r] >= r.InputLen(), StepTokens(p, a, r), Advanced(w.progress, p, a)[r] == r.InputLen(), stepAdvance, tokenTime)
    else formed
  }

  method AdvanceOne(r: Request, computed: TokenTable, stepAdvance: nat, tokenTime: nat, ghost target: nat)
    requires target == (if r.progressIndex < r.InputLen() then computed.Get(r.id) else r.progressIndex + r.numNewTokens)
    modifies r`progressIndex, r`itl, r`ttftSet
    ensures Moved(r, target, stepAdvance, tokenTime)
  {
    if r.progressIndex < r.InputLen() {
      r.progressIndex := computed.Get(r.id);
    } else if r.numNewTokens > 0 {
      r.progressIndex := r.progressIndex + r.numNewTokens;
      r.itl := r.itl + [stepAdvance + r.numNewTokens * tokenTime];
    }
    if r.progressIndex == r.InputLen() && !r.ttftSet {
      r.ttftSet := true;
    }
  }

  /** executeBatchStep: a prefilling request takes over what was computed for it, a decoding one moves
      by what it was granted and logs the latency of that. `target` is where it must leave each of them. */
  method ExecuteBatch(batch: Batch, computed: TokenTable, stepAdvance: nat, tokenTime: nat, ghost target: map<Request, nat>)
    requires Distinct(batch.requests)
    requires forall r :: r in batch.requests ==> r in target
    requires forall r :: r in batch.requests ==>
               target[r] == (if r.progressIndex < r.InputLen() then computed.Get(r.id) else r.progressIndex + r.numNewTokens)
    modifies Elements(batch.requests)
    ensures forall r :: r in batch.requests ==>
              Moved(r, target[r], stepAdvance, tokenTime)
  {
    hide Distinct, Logged;
    ghost var all := batch.requests;
    var i := 0;
    while i < |batch.requests|
      invariant i <= |all| && batch.requests == all
      invariant forall k :: i <= k < |all| ==> Untouched(all[k])
      invariant forall k :: 0 <= k < i ==> Moved(all[k], target[all[k]], stepAdvance, tokenTime)
    {
      var r := batch.requests[i];
      assert r in batch.requests;
      IndexDistinct(all, i);
      assert Untouched(r);
      AdvanceOne(r, computed, stepAdvance, tokenTime, target[r]);
      i := i + 1;
    }
  }

  /** A decoding request that was granted tokens logs the step and the time of its tokens. */
  function Logged(decoding: bool, n: nat, stepAdvance: nat, tokenTime: nat): seq<int> {
    if decoding && n > 0 then [stepAdvance + n * tokenTime] else []
  }

  /** A request that is done is given room for its last output token first, unless it has that already or the
      model-length cap has stopped it before. */
  predicate FinalToken(r: Request, before: seq<Answer>, after: seq<Answer>)
    reads r
  {
    if r.outputTokens != [] && r.CompletionProgressIndex() <= r.progressIndex < r.InputLen() + |r.outputTokens|
    then before < after && |after| == |before| + 1
         && after[|before|] in {Allocation(r.id, r.progressIndex, r.progressIndex + 1, true),
                                Allocation(r.id, r.progressIndex, r.progressIndex + 1, false)}
    else after == before
  }

  /** One request of processCompletions: both exits give the blocks back. */
  method CompleteOne(c: Config, kv: KVStore, r: Request) returns (done: bool)
    requires kv.Valid()
    modifies kv, r`state
    ensures kv.Valid() && (done <==> Finished(c, r, r.progressIndex))
    ensures r.state == if done then Completed else old(r.state)
    ensures kv.stored == if done then old(kv.stored) - {r.id} else old(kv.stored)
    ensures FinalToken(r, old(kv.answers), kv.answers)
  {
    if r.progressIndex >= r.CompletionProgressIndex() {
      r.state := Completed;
      if r.outputTokens != [] && r.progressIndex < r.InputLen() + |r.outputTokens| {
        var _ := kv.AllocateKVBlocks(r, r.progressIndex, r.progressIndex + 1, {});
      }
      kv.ReleaseKVBlocks(r);
      return true;
    }
    if c.maxModelLen > 0 && r.progressIndex >= c.maxModelLen - 1 {
      r.state := Completed;
      kv.ReleaseKVBlocks(r);
      return true;
    }
    return false;
  }

  /** A request is finished once it stands at its last output token, or at the last the model leaves room for. */
  lemma FinishedAtLast(c: Config, batch: seq<Request>, progress: map<Request, nat>)
    requires forall r :: r in batch ==> r in progress
    ensures forall r :: r in batch ==> (r in FinishedIn(c, batch, progress) <==> progress[r] >= LastIndex(c, r))
  {
  }

  lemma CompletionStarts(fin: set<Request>)
    ensures Without([], fin) == [] && Ids(Only([], fin)) == {}
  {
  }

  lemma CompletionSplits(c: Config, all: seq<Request>, progress: map<Request, nat>, i: nat)
    requires i < |all| && all[i] in progress
    ensures var fin := FinishedIn(c, all, progress);
            var r := all[i];
            && (r in fin <==> Finished(c, r, progress[r]))
            && Without(all[..i + 1], fin) == Without(all[..i], fin) + (if r in fin then [] else [r])
            && Ids(Only(all[..i + 1], fin)) == Ids(Only(all[..i], fin)) + (if r in fin then {r.id} else {})
  {
    var r := all[i];
    var fin := FinishedIn(c, all, progress);
    assert r in all;
    assert r in fin <==> Finished(c, r, progress[r]);
    assert all[..i + 1] == all[..i] + [r];
    WithoutOne(r, fin);
    OnlyOne(r, fin);
    hide Without, Only, Finished, Ids, FinishedIn;
    WithoutConcat(all[..i], [r], fin);
    OnlyConcat(all[..i], [r], fin);
    IdsSnoc(Only(all[..i], fin), r);
    assert Only(all[..i], fin) + [] == Only(all[..i], fin);
    assert Without(all[..i], fin) + [] == Without(all[..i], fin);
  }

  lemma IndexDistinct(all: seq<Request>, i: nat)
    requires Distinct(all) && i < |all|
    ensures forall k :: 0 <= k < |all| && k != i ==> all[k] != all[i]
  {
  }

  lemma MinusBoth(m: map<string, nat>, a: set<string>, b: set<string>)
    ensures m - a - b == m - (a + b) && m - (a + {}) == m - a && m - {} == m
  {
    assert a + {} == a;
  }

  /** processCompletions: whoever reached completion or the model-length cap is completed and gives its
      blocks back; the rest remain, in order. */
  method ProcessCompletions(c: Config, batch: Batch, kv: KVStore, ghost progress: map<Request, nat>)
    returns (remaining: seq<Request>)
    requires kv.Valid() && Distinct(batch.requests)
    requires forall r :: r in batch.requests ==> r in progress && r.progressIndex == progress[r]
    modifies kv, Elements(batch.requests)
    ensures kv.Valid()
    ensures forall r :: r in batch.requests ==> r.progressIndex == progress[r]
    ensures var fin := FinishedIn(c, batch.requests, progress);
            && remaining == Without(batch.requests, fin)
            && kv.stored == old(kv.stored) - Ids(Only(batch.requests, fin))
            && forall r :: r in batch.requests ==> r.state == if r in fin then Completed else old(r.state)
    ensures old(kv.answers) <= kv.answers
    ensures forall r :: r in batch.requests ==> LogOf(r) == old(LogOf(r))
    ensures forall r :: r in batch.requests ==>
              (r in FinishedIn(c, batch.requests, progress) <==> progress[r] >= LastIndex(c, r))
  {
    hide LogOf, KVStore.Valid, FinalToken, LastIndex, FinishedIn, Finished, Without, Only, Ids, Distinct;
    remaining := [];
    var i := 0;
    ghost var all := batch.requests;
    ghost var fin := FinishedIn(c, all, progress);
    FinishedAtLast(c, all, progress);
    CompletionStarts(fin);
    while i < |batch.requests|
      invariant i <= |all| && batch.requests == all && kv.Valid() && old(kv.answers) <= kv.answers
      invariant remaining == Without(all[..i], fin)
      invariant kv.stored == old(kv.stored) - Ids(Only(all[..i], fin))
      invariant forall r :: r in all ==> r.progressIndex == progress[r]
      invariant forall k :: 0 <= k < i ==> all[k].state == if all[k] in fin then Completed else old(all[k].state)
      invariant forall k :: i <= k < |all| ==> all[k].state == old(all[k].state)
      invariant forall r :: r in all ==> LogOf(r) == old(LogOf(r))
    {
      var r := batch.requests[i];
      assert all[..i + 1] == all[..i] + [r] && r in all;
      CompletionSplits(c, all, progress, i);
      IndexDistinct(all, i);
      ghost var before := Ids(Only(all[..i], fin));
      var done := CompleteOne(c, kv, r);
      MinusBoth(old(kv.stored), before, {r.id});
      if !done {
        remaining := remaining + [r];
      }
      i := i + 1;
    }
    assert all[..i] == all;
  }

  // ----- The abstract state -----

  function IdsOf(s: set<Request>): set<string> {
    set r | r in s :: r.id
  }

  /** The lifecycle state a request is in. */
  function StateIn(w: World, r: Request): RequestState {
    if r in w.completed then Completed
    else if r in w.timedOut then TimedOut
    else if r in w.running then Running
    else Queued
  }

  /** Every request shows the progress and the lifecycle state the world says: Running exactly when it
      is in the batch, Queued exactly when it is only in the queue. */
  ghost predicate RequestsMatch(w: World)
    reads Elements(w.arrived)
  {
    forall r :: r in w.arrived ==> r in w.progress && r.progressIndex == w.progress[r] && r.state == StateIn(w, r)
  }

  /** The token table holds the running requests at their progress and, left behind by completion, the
      completed ones; preempted and timed-out requests have no entry. */
  predicate TableIn(w: World, m: map<string, nat>) {
    && m.Keys == Ids(w.running) + IdsOf(w.completed)
    && forall r :: r in w.running && r in w.progress ==> r.id in m && m[r.id] == w.progress[r]
  }

  predicate NoTransfers(w: World) {
    forall r :: r in w.arrived ==> !r.isDecodeSub
  }

  /** The blocks hold the tokens the run says, and nobody else has any. */
  predicate StoreIn(w: World, had: map<Request, nat>, stored: map<string, nat>) {
    && (forall r :: r in w.arrived ==> r in had && At(stored, r.id) == had[r])
    && stored.Keys <= Ids(w.arrived)
  }

  /** The origin of the pass of one step. */
  ghost function OriginOf(w: World, order: QueueOrder, computed: map<string, nat>, stored: map<string, nat>): Origin
    reads Elements(w.arrived)
  {
    Origin(w.running, Ordered(order, w.waiting), map r | r in Elements(w.arrived) :: DynamicOf(r),
           w.progress, computed, stored)
  }

  lemma OriginPast(w: World, order: QueueOrder, computed: map<string, nat>, stored: map<string, nat>)
    ensures var o := OriginOf(w, order, computed, stored);
            forall r :: r in w.arrived ==> r in o.before && LogIn(o.before[r]) == LogOf(r)
  {
    hide Ordered;
  }

  lemma OriginWellFormed(w: World, order: QueueOrder, computed: map<string, nat>, stored: map<string, nat>)
    requires Conserved(w) && RequestsMatch(w) && TableIn(w, computed)
    ensures WellFormed(OriginOf(w, order, computed, stored))
    ensures Elements(w.running) <= Elements(w.arrived) && Elements(Ordered(order, w.waiting)) <= Elements(w.arrived)
    ensures Elements(Ordered(order, w.waiting)) == Elements(w.waiting)
  {
    LiveIsDistinct(w);
    WaitingIdsDistinct(w);
    OrderedKeepsRequests(order, w.waiting);
    Rearranged(w.waiting, Ordered(order, w.waiting));
    ElementsConcat(w.running, w.waiting);
    SameIdsDistinct(Live(w), w.running + Ordered(order, w.waiting));
    hide Ordered;
    var o := OriginOf(w, order, computed, stored);
    forall r | r in o.batch ensures r in o.before && r.id in o.computed {
      assert r in Elements(w.running);
    }
    forall r | r in o.queue ensures r in o.before {
      assert r in Elements(o.queue);
    }
  }

  // ----- What a step leaves, from the objects' side -----

  /** A continuing batch member's fields lead the forward pass to the right progress. */
  lemma ContinuingTarget(ctx: BatchContext, batch: Batch, o: Origin, p: Pass, a: Admission, r: Request)
    requires AdmissionObjects(o, p, a, ctx, batch) && WellFormed(o)
    requires r in o.batch && r in p.batch && r !in p.evicted && r !in a.reached
    requires r in o.progress && r.id in o.computed && o.computed[r.id] == o.progress[r]
    ensures var target := Advanced(o.progress, p, a);
            && r in target
            && target[r] == (if r.progressIndex < r.InputLen() then ctx.computed.Get(r.id) else r.progressIndex + r.numNewTokens)
            && r.id in ctx.computed.m && ctx.computed.m[r.id] == target[r]
            && r.state == o.before[r].state
  {
    assert DynamicOf(r) == o.before[r];
    hide WellFormed;
  }

  /** So do a newly admitted one's. */
  lemma AdmittedTarget(ctx: BatchContext, batch: Batch, o: Origin, p: Pass, a: Admission, r: Request)
    requires AdmissionObjects(o, p, a, ctx, batch) && WellFormed(o)
    requires r in o.queue && r in a.admitted && r !in p.evicted && r in a.reached && r in a.granted
    requires r in o.progress && ReachedFits(AfterEviction(o.progress, p.evicted), a)
    ensures var target := Advanced(o.progress, p, a);
            && r in target
            && target[r] == (if r.progressIndex < r.InputLen() then ctx.computed.Get(r.id) else r.progressIndex + r.numNewTokens)
            && r.id in ctx.computed.m && ctx.computed.m[r.id] == target[r]
            && r.state == Running
  {
    assert DynamicOf(r) == o.before[r].(state := Running, scheduled := ctx.stepCount);
    hide WellFormed;
  }

  /** What that makes of its progress and its state. */
  lemma StepStates(c: Config, order: QueueOrder, w: World, e: Event, r: Request)
    requires Conserved(w) && e.Step? && r in w.arrived
    ensures var p := PassOf(c, w, e);
            var a := AdmissionOf(c, order, w, e);
            var z := Next(c, order, w, e);
            && r in z.progress
            && z.progress[r] == Advanced(w.progress, p, a)[r]
            && StateIn(z, r) == (if r in a.batch then (if Finished(c, r, z.progress[r]) then Completed else Running)
                                 else if r in p.evicted then Queued else StateIn(w, r))
  {
    hide PassOf, AdmissionOf, Finished;
    StepPlaces(c, order, w, e, r);
    var a := AdmissionOf(c, order, w, e);
    var z := Next(c, order, w, e);
    assert r in Elements(w.arrived);
    ElementsWithout(a.batch, FinishedIn(c, a.batch, z.progress));
    hide Conserved, Elements, Without;
    assert r in z.running <==> r in a.batch && !Finished(c, r, z.progress[r]) by {
      MemberByElements(z.running, r);
      MemberByElements(a.batch, r);
    }
  }

  // ----- The tables keyed by id -----

  lemma IdsByElements(s: seq<Request>)
    ensures Ids(s) == IdsOf(Elements(s))
  {
  }

  /** Among requests with distinct ids, ids subtract as requests do. */
  lemma IdsMinus(all: seq<Request>, a: set<Request>, b: set<Request>)
    requires DistinctIds(all) && a <= Elements(all) && b <= Elements(all)
    ensures IdsOf(a - b) == IdsOf(a) - IdsOf(b)
  {
    forall id | id in IdsOf(a - b) ensures id !in IdsOf(b) {
      var r :| r in a - b && r.id == id;
      assert r in Elements(all);
      assert forall s :: s in b ==> s in Elements(all);
    }
  }

  lemma IdsPlus(a: set<Request>, b: set<Request>)
    ensures IdsOf(a + b) == IdsOf(a) + IdsOf(b)
  {
  }

  /** The token table's keys after a step: victims out, admitted in, the finished left behind. */
  lemma TableKeys(c: Config, order: QueueOrder, w: World, e: Event)
    requires Conserved(w) && e.Step?
    ensures var p := PassOf(c, w, e);
            var a := AdmissionOf(c, order, w, e);
            var z := Next(c, order, w, e);
            && Ids(w.running) + IdsOf(w.completed) - Ids(p.evicted) + Ids(a.admitted) == Ids(z.running) + IdsOf(z.completed)
            && Ids(z.running) == Ids(a.batch) - Ids(Only(a.batch, z.completed - w.completed))
  {
    hide PassOf, AdmissionOf, Conserved, FinishedIn, Without, Only, Gone;
    var p := PassOf(c, w, e);
    var a := AdmissionOf(c, order, w, e);
    var z := Next(c, order, w, e);
    var fin := z.completed - w.completed;
    FormingPlaces(c, order, w, e);
    StepConserves(c, order, w, e);
    FinishedFromBatch(c, order, w, e);
    ElementsWithout(a.batch, fin);
    ElementsOnly(a.batch, fin);
    IdsByElements(w.running);
    IdsByElements(z.running);
    IdsByElements(p.evicted);
    IdsByElements(a.admitted);
    IdsByElements(a.batch);
    IdsByElements(Only(a.batch, fin));
    var run, ev, adm := Elements(w.running), Elements(p.evicted), Elements(a.admitted);
    IdsMinus(w.arrived, run + w.completed, ev);
    IdsMinus(w.arrived, Elements(a.batch), fin);
    IdsPlus(run, w.completed);
    IdsPlus(run + w.completed - ev, adm);
    IdsPlus(Elements(z.running), z.completed);
    assert (run + w.completed - ev) + adm == Elements(z.running) + z.completed;
  }

  lemma FinishedFromBatch(c: Config, order: QueueOrder, w: World, e: Event)
    requires Conserved(w) && e.Step?
    ensures var a := AdmissionOf(c, order, w, e);
            var z := Next(c, order, w, e);
            && z.completed - w.completed == FinishedIn(c, a.batch, z.progress) <= Elements(a.batch)
            && z.completed == w.completed + FinishedIn(c, a.batch, z.progress)
            && z.running == Without(a.batch, z.completed - w.completed)
            && DistinctIds(w.arrived) && w.completed <= Elements(w.arrived)
            && w.completed !! (Elements(w.arrived) - Gone(w))
  {
    hide PassOf, AdmissionOf, Finished, Advanced;
    StepConserves(c, order, w, e);
  }

  // ----- The instance -----

  /** The objects of an instance show the world `w`, and blocks with the tokens `stored` show `had`. */
  ghost predicate Shows(c: Config, w: World, had: map<Request, nat>, running: Option<Batch>, waitQ: WaitQueue,
                        computed: TokenTable, stored: map<string, nat>)
    reads (match running case None => {} case Some(b) => {b}), waitQ, computed, Elements(w.arrived)
  {
    && (match running case None => w.running == [] case Some(b) => b.requests == w.running)
    && waitQ.queue == w.waiting
    && Conserved(w) && Bounded(c, w)
    && RequestsMatch(w)
    && TableIn(w, computed.m)
    && StoreIn(w, had, stored)
  }

  datatype Enqueued = AlreadyTimedOut | Dropped | PastDue | Waiting

  class Simulator {
    const config: Config
    const order: QueueOrder
    const waitQ: WaitQueue
    const kv: KVStore
    const computed: TokenTable
    var runningBatch: Option<Batch>   // None is the nil pointer
    var stepEvent: Option<int>        // the pending StepEvent, by its time
    var stepCount: int
    var loading: bool                 // an adapter load is in flight
    ghost var history: seq<Event>     // the events this instance has executed
    ghost var world: World            // the state they led to
    ghost var backing: map<Request, nat>   // the tokens they left in everybody's blocks

    ghost function Objects(): set<object>
      reads this
    {
      {this, waitQ, kv, computed} + (match runningBatch case None => {} case Some(b) => {b}) + Elements(world.arrived)
    }

    /** The objects show the world; nothing is said about the pending step. */
    ghost predicate Settled()
      reads this, Objects()
    {
      && Shows(config, world, backing, runningBatch, waitQ, computed, kv.stored) && kv.Valid()
      && Recorded(config, order, kv, history, world, backing)
    }

    /** Settled and work-conserving: while anybody runs a step is pending, and while anybody waits a
        step is pending or an adapter is loading. */
    ghost predicate Valid()
      reads this, Objects()
    {
      Settled() && StepPending()
    }

    ghost predicate StepPending()
      reads this
    {
      (world.running != [] ==> stepEvent.Some?) && (Live(world) != [] ==> stepEvent.Some? || loading)
    }

    constructor (config: Config, order: QueueOrder, kv: KVStore)
      requires kv.Valid() && kv.stored == map[]
      ensures Valid() && history == []
      ensures this.config == config && this.order == order && this.kv == kv
      ensures stepEvent == None && !loading && world == Empty
    {
      this.config, this.order, this.kv := config, order, kv;
      waitQ := new WaitQueue();
      computed := new TokenTable();
      var batch := new Batch();
      runningBatch := Some(batch);
      stepEvent, stepCount, loading := None, 0, false;
      history, world, backing := [], Empty, map[];
    }

    /** Notes an event, and the world after it. */
    ghost method Happens(e: Event)
      requires Recorded(config, order, kv, history, world, backing)
      requires Legal(config, world, e) && Answered(config, order, kv, world, e)
      modifies this`history, this`world, this`backing
      ensures Recorded(config, order, kv, history, world, backing)
      ensures history == old(history) + [e] && world == Next(config, order, old(world), e)
      ensures backing == NextBacking(config, order, old(world), old(backing), e)
    {
      RecordedGrows(config, order, kv, history, world, backing, e);
      hide Recorded, Next, NextBacking;
      history, world, backing := history + [e], Next(config, order, world, e), NextBacking(config, order, world, backing, e);
    }

    /** QueuedEvent: the guards of EnqueueRequest, then a step if none is pending. */
    method Enqueue(r: Request, maxOutputLen: int, deadline: int, clock: int) returns (outcome: Enqueued)
      requires Valid() && !r.isDecodeSub && r.id !in Ids(world.arrived) && r.progressIndex == 0
      requires r.state == Queued || r.state == TimedOut
      modifies this`stepEvent, this`history, this`world, this`backing, waitQ, r`state
      ensures Valid()
      ensures stepEvent == if old(stepEvent).None? && waitQ.queue != [] then Some(clock) else old(stepEvent)
      ensures history == if outcome == Waiting then old(history) + [Arrive(r, 0)] else old(history)
      ensures world == if outcome == Waiting then Next(config, order, old(world), Arrive(r, 0)) else old(world)
      ensures outcome == Screened(config, kv, r, old(r.state), maxOutputLen, deadline, clock)
      ensures outcome == PastDue ==> r.state == TimedOut
    {
      hide Conserved, Bounded, TableIn, StoreIn, Screened, Legal, Recorded, Next;
      outcome := EnqueueRequest(r, maxOutputLen, deadline, clock);
      ScheduleStepIfIdle(clock);
    }

    method EnqueueRequest(r: Request, maxOutputLen: int, deadline: int, clock: int) returns (outcome: Enqueued)
      requires Settled() && !r.isDecodeSub && r.id !in Ids(world.arrived) && r.progressIndex == 0
      requires r.state == Queued || r.state == TimedOut
      modifies this`world, this`history, this`backing, waitQ, r`state
      ensures Settled() && world.running == old(world).running
      ensures history == if outcome == Waiting then old(history) + [Arrive(r, 0)] else old(history)
      ensures world == if outcome == Waiting then Next(config, order, old(world), Arrive(r, 0)) else old(world)
      ensures outcome == Screened(config, kv, r, old(r.state), maxOutputLen, deadline, clock)
      ensures outcome == PastDue ==> r.state == TimedOut
    {
      hide Conserved, Bounded, Next, NextBacking, TableIn, StoreIn, StateIn, Recorded;
      NotInWorld(world, r);
      if r.state == TimedOut { return AlreadyTimedOut; }
      var drop := CannotServe(r, maxOutputLen);
      if drop { return Dropped; }
      if 0 < deadline <= clock {
        r.state := TimedOut;
        return PastDue;
      }
      ArrivalSettles(config, order, world, backing, Arrive(r, 0), computed.m, kv.stored);
      NobodysBlocks(world, backing, kv.stored, r);
      waitQ.Enqueue(r);
      Happens(Arrive(r, 0));
      return Waiting;
    }

    /** The blocks of a request whose prefill ran elsewhere have been reserved, and nothing else has
        happened since. */
    ghost predicate Reserved(r: Request)
      reads this, Objects(), r
    {
      && Shows(config, world, backing, runningBatch, waitQ, computed, kv.stored - {r.id}) && kv.Valid()
      && At(kv.stored, r.id) == r.progressIndex
      && Recorded(config, order, kv, history, world, backing) && StepPending()
    }

    lemma Unknown(r: Request)
      requires Settled() && r.id !in Ids(world.arrived)
      ensures r !in Elements(world.arrived) && r.id !in kv.stored && kv.stored - {r.id} == kv.stored
    {
      hide Conserved, Bounded, TableIn, StateIn, Recorded;
      NobodysBlocks(world, backing, kv.stored, r);
    }

    /** ReserveTransferredKV: the prompt of a request prefilled elsewhere gets its blocks here, before the
        request is queued. */
    method ReserveTransferredKV(r: Request) returns (ok: bool)
      requires Valid() && r.isDecodeSub && r.id !in Ids(world.arrived) && r.progressIndex == 0
      modifies kv, r`progressIndex
      ensures if ok then Reserved(r) && r.progressIndex == r.InputLen() else Valid() && r.progressIndex == 0
      ensures !kv.deferrable && !kv.reloads ==> (ok <==> r.InputLen() == 0 || old(kv.HasRoom(r.id, r.InputLen(), {})))
    {
      hide Shows, Recorded, StepPending, BlocksFor, KVStore.HasRoom, InStep, KVStore.Base, KVStore.Used, KVStore.AllBlocks, FirstBlocks;
      Unknown(r);
      if r.InputLen() == 0 { return true; }
      ok := kv.AllocateKVBlocks(r, 0, r.InputLen(), {});
      assert kv.stored - {r.id} == old(kv.stored) - {r.id};
      if ok { r.progressIndex := r.InputLen(); }
    }

    /** EnqueueDecodeSubRequest: a request whose prefill ran elsewhere; no guard applies. */
    method EnqueueTransferred(r: Request, clock: int)
      requires Reserved(r) && r.isDecodeSub && r.id !in Ids(world.arrived) && r.progressIndex <= r.InputLen() && r.state == Queued
      modifies this`stepEvent, this`history, this`world, this`backing, waitQ
      ensures Valid()
      ensures history == old(history) + [Arrive(r, r.progressIndex)]
      ensures world == Next(config, order, old(world), Arrive(r, r.progressIndex))
      ensures stepEvent == if old(stepEvent).None? && world.running == [] then Some(clock) else old(stepEvent)
    {
      hide Conserved, Bounded, Next, NextBacking, TableIn, StoreIn, StateIn, Recorded;
      NotInWorld(world, r);
      ArrivalSettles(config, order, world, backing, Arrive(r, r.progressIndex), computed.m, kv.stored);
      waitQ.Enqueue(r);
      Happens(Arrive(r, r.progressIndex));
      if (match runningBatch case None => true case Some(b) => b.requests == []) && stepEvent.None? {
        stepEvent := Some(clock);
      }
    }

    method ScheduleStepIfIdle(time: int)
      modifies this`stepEvent
      ensures stepEvent == if old(stepEvent).None? && waitQ.queue != [] then Some(time) else old(stepEvent)
    {
      if stepEvent.None? && waitQ.Len() > 0 {
        stepEvent := Some(time);
      }
    }

    /** completeAdapterLoad: no load is in flight any more, and a step forms for whoever it held back. */
    method CompleteLoad(now: int)
      requires Valid()
      modifies this`stepEvent, this`loading
      ensures Valid() && !loading
      ensures stepEvent == if old(stepEvent).None? && waitQ.queue != [] then Some(now) else old(stepEvent)
    {
      hide Recorded, Conserved, Bounded, TableIn, StoreIn, StateIn;
      loading := false;
      ScheduleStepIfIdle(now);
      assert waitQ.queue == [] && world.running == [] ==> Live(world) == [];
    }

    lemma WorldShown()
      requires Settled()
      ensures Conserved(world) && Bounded(config, world) && waitQ.queue == world.waiting
      ensures match runningBatch case None => world.running == [] case Some(b) => b.requests == world.running
    {
      hide Conserved, Bounded, RequestsMatch, TableIn, StoreIn, Recorded;
    }

    lemma Booked()
      requires Settled()
      ensures WithinProgress(world, backing) && forall id :: id in kv.stored ==> kv.stored[id] > 0
    {
      RunBacking(config, order, history);
      hide After, Backing, LegalRun, WithinProgress;
    }

    /** TimeoutEvent: a request that is not finished leaves the batch or the queue, gives its blocks
        back and loses its table entry; everybody else keeps place, progress and state. A request that
        has not been queued yet only changes state. The batch read here is never nil or empty. */
    method Timeout(r: Request, time: int)
      requires Valid()
      requires r in world.arrived || (r.id !in Ids(world.arrived) && r.state != Running)
      modifies this`runningBatch, this`stepEvent, this`history, this`world, this`backing, waitQ, kv, computed,
               (match runningBatch case None => {} case Some(b) => {b}), r`state
      ensures Valid()
      ensures stepEvent == if old(r.state) != Completed && old(r.state) != TimedOut && old(stepEvent).None?
                              && world.running == [] && world.waiting != [] then Some(time) else old(stepEvent)
      ensures history == old(history) + [TimeOut(r)] && world == Next(config, order, old(world), TimeOut(r))
      ensures r.state == (if old(r.state) == Completed then Completed else TimedOut)
      ensures kv.deferred == old(kv.deferred) - (if old(r.state) in {Running, Completed, TimedOut} then {} else {r.id})
    {
      hide Recorded, Next, NextBacking, Live, Conserved, Bounded, Without, StateIn, TableIn, StoreIn;
      WorldShown();
      TimeOutWorld(config, order, world, r);
      if r.state == Completed || r.state == TimedOut {
        NothingTimesOut(r);
        return;
      }
      Cancel(r);
      WorldShown();
      var idle := match runningBatch case None => true case Some(b) => b.requests == [];
      if idle && stepEvent.None? && waitQ.Len() > 0 {
        stepEvent := Some(time);
      }
    }

    /** A request that is finished already is left alone. */
    ghost method NothingTimesOut(r: Request)
      requires Settled() && (r.state == Completed || r.state == TimedOut)
      requires r in world.arrived || r.id !in Ids(world.arrived)
      modifies this`history, this`world, this`backing
      ensures Settled() && world == old(world) && history == old(history) + [TimeOut(r)]
    {
      hide Recorded, Bounded;
      StateTellsPlace(world, r);
      GoneKeepsBacking(config, order, world, backing, r);
      hide Conserved;
      Happens(TimeOut(r));
    }

    method Cancel(r: Request)
      requires Settled() && r.state != Completed && r.state != TimedOut
      requires r in world.arrived || (r.id !in Ids(world.arrived) && r.state != Running)
      modifies this`runningBatch, this`history, this`world, this`backing, waitQ, kv, computed,
               (match runningBatch case None => {} case Some(b) => {b}), r`state
      ensures Settled()
      ensures history == old(history) + [TimeOut(r)] && world == Next(config, order, old(world), TimeOut(r))
      ensures r.state == TimedOut
      ensures kv.deferred == old(kv.deferred) - (if old(r.state) == Running then {} else {r.id})
      ensures match runningBatch case None => true case Some(b) => old(runningBatch) == Some(b)
    {
      hide Conserved, Bounded, TableIn, StoreIn, StateIn, Next, NextBacking, Recorded, Without, Distinct;
      ghost var z, now := Next(config, order, world, TimeOut(r)), NextBacking(config, order, world, backing, TimeOut(r));
      Cancelled(config, order, world, backing, r, r.state, computed.m, kv.stored);
      var wasRunning := r.state == Running;
      Discharge(r, wasRunning);
      assert Shows(config, z, now, runningBatch, waitQ, computed, kv.stored);
      hide Shows;
      Happens(TimeOut(r));
    }

    method Discharge(r: Request, wasRunning: bool)
      requires kv.Valid() && Distinct(waitQ.queue)
      requires wasRunning ==> runningBatch.Some? && runningBatch.value.requests != []
      modifies this`runningBatch, waitQ, kv, computed, (match runningBatch case None => {} case Some(b) => {b}), r`state
      ensures r.state == TimedOut
      ensures kv.Valid() && kv.stored == old(kv.stored) - {r.id} && computed.m == old(computed.m) - {r.id}
      ensures waitQ.queue == if wasRunning then old(waitQ.queue) else Without(old(waitQ.queue), {r})
      ensures kv.deferred == old(kv.deferred) - (if wasRunning then {} else {r.id})
      ensures wasRunning ==>
                match runningBatch
                case None => Without(old(runningBatch.value.requests), {r}) == []
                case Some(b) => b == old(runningBatch.value) && b.requests == Without(old(runningBatch.value.requests), {r})
      ensures !wasRunning ==> runningBatch == old(runningBatch)
      ensures !wasRunning && runningBatch.Some? ==> runningBatch.value.requests == old(runningBatch.value.requests)
    {
      r.state := TimedOut;
      kv.ReleaseKVBlocks(r);
      computed.m := computed.m - {r.id};
      if wasRunning {
        LeaveBatch(r);
      } else {
        TakeFromQueue(r);
        kv.ClearDeferred(r.id);
      }
    }

    /** The batch rebuilt without `r`; an empty one becomes the nil pointer. */
    method LeaveBatch(r: Request)
      requires runningBatch.Some? && runningBatch.value.requests != []
      modifies this`runningBatch, runningBatch.value
      ensures match runningBatch
              case None => Without(old(runningBatch.value.requests), {r}) == []
              case Some(b) => b == old(runningBatch.value) && b.requests == Without(old(b.requests), {r})
    {
      var batch := runningBatch.value;
      var remaining := RemoveRunning(batch, r);
      batch.requests := remaining;
      if remaining == [] { runningBatch := None; }
    }

    method RemoveRunning(batch: Batch, r: Request) returns (remaining: seq<Request>)
      ensures remaining == Without(batch.requests, {r})
    {
      remaining := [];
      var i := 0;
      while i < |batch.requests|
        invariant i <= |batch.requests| && remaining == Without(batch.requests[..i], {r})
      {
        assert batch.requests[..i + 1] == batch.requests[..i] + [batch.requests[i]];
        WithoutConcat(batch.requests[..i], [batch.requests[i]], {r});
        if batch.requests[i] != r {
          remaining := remaining + [batch.requests[i]];
        }
        i := i + 1;
      }
      assert batch.requests[..i] == batch.requests;
    }

    method TakeFromQueue(r: Request)
      requires Distinct(waitQ.queue)
      modifies waitQ
      ensures waitQ.queue == Without(old(waitQ.queue), {r})
    {
      ghost var was := waitQ.queue;
      var found := waitQ.Remove(r);
      if found {
        ghost var i :| 0 <= i < |was| && was[i] == r && waitQ.queue == RemoveAt(was, i);
        RemoveAtIsWithout(was, i);
      } else {
        WithoutAbsent(was, {r});
      }
    }

    /** FormBatch on this instance's objects; the event records what the KV store answered. */
    method Form(proposals: Option<Request -> Proposal>, resident: Option<string -> bool>, ghost o: Origin)
      returns (batch: Batch, ghost e: Event, ghost ctx: BatchContext)
      requires WellFormed(o)
      requires match runningBatch case None => o.batch == [] case Some(b) => b.requests == o.batch
      requires waitQ.queue == o.queue && computed.m == o.computed && kv.Valid()
      requires kv.stored == o.stored
      requires forall r :: r in o.batch || r in o.queue ==> DynamicOf(r) == o.before[r]
      modifies this`runningBatch, waitQ, kv, computed,
               (match runningBatch case None => {} case Some(b) => {b}), Elements(o.batch), Elements(o.queue)
      ensures runningBatch == Some(batch)
      ensures match old(runningBatch) case None => fresh(batch) case Some(b) => batch == b
      ensures e.Step? && e.x.proposals == proposals && e.x.resident == resident
      ensures ctx.waitQ == waitQ && ctx.kv == kv && ctx.computed == computed && ctx.config == config && ctx.stepCount == stepCount
      ensures Formed(ctx, o, batch, e)
      ensures kv.answers == old(kv.answers) + FormLog(config, kv, e, o.progress, o.batch, o.queue)
      ensures (!kv.deferrable ==> NoDeferral(e)) && (!config.prefixCaching ==> NothingShared(e))
      ensures ServesAlone(config, kv, o) && resident.None? ==> NotRefusedAlone(o, e)
      ensures var p := Run(config, e.x, o.progress, o.batch, e.fails);
              Over(p) && (RunnersFit(config, kv, o) && o.batch != [] ==> p.batch != [])
    {
      hide WellFormed, AdmissionObjects, AdmissionStore, Admissions, Run, AllFit, LoneAdmission, ServesAlone, RunnersFit,
           AfterEviction, Over, RunLog, AdmissionsLog, PollLog, FormLog;
      var context := BatchContext(waitQ, kv, computed, config, StepInputs(proposals, resident, {}), stepCount);
      ctx := context;
      ghost var polled, fails, vs;
      var newlyScheduled, preempted;
      if ServesAlone(config, kv, o) { AloneFits(ctx, o); }
      RunnersAllFit(ctx, o);
      batch, newlyScheduled, preempted, polled, fails, vs := FormBatch(context, runningBatch, o);
      runningBatch := Some(batch);
      e := Event.Step(ctx.inputs.(polled := polled), fails, vs);
      RunIgnoresPolled(config, ctx.inputs, e.x, o.progress, o.batch, fails);
      RunLogIgnoresPolled(config, ctx.inputs, e.x, o.progress, o.batch, fails);
      FormLogParts(config, kv, e, o.progress, o.batch, o.queue, old(kv.answers));
      FairVerdicts(config, kv, e);
    }

    /** scheduleBatch: the queue in the scheduler's order, then FormBatch. */
    method ScheduleBatch(proposals: Option<Request -> Proposal>, resident: Option<string -> bool>, ghost before: map<Request, Dynamic>)
      returns (batch: Batch, ghost e: Event)
      requires Settled()
      requires before == OriginOf(world, order, computed.m, kv.stored).before
      modifies this`runningBatch, this`stepCount, waitQ, kv, computed,
               (match runningBatch case None => {} case Some(b) => {b}), Elements(world.arrived)
      ensures runningBatch == Some(batch)
      ensures match old(runningBatch) case None => fresh(batch) case Some(b) => batch == b
      ensures e.Step? && e.x.proposals == proposals && e.x.resident == resident
      ensures FormedObjects(config, order, world, backing, e, old(computed.m), batch, waitQ, computed, kv)
      ensures kv.answers == old(kv.answers) + StepLog(config, order, kv, world, e)
      ensures stepCount == old(stepCount) + 1
      ensures forall r :: r in world.arrived && r in before ==> Begun(config, order, world, e, r, LogIn(before[r]), stepCount)
      ensures (!kv.deferrable ==> NoDeferral(e)) && (!config.prefixCaching ==> NothingShared(e))
      ensures Serviceable(config, order, kv, world) && resident.None? ==> NeverRefusesAlone(world, e)
      ensures PassEnds(config, kv, world, e)
    {
      hide Conserved, Bounded, StateIn, WellFormed, StoreIn, TableIn, NoDeferral, FormedObjects, Formed,
           Serviceable, NeverRefusesAlone, ServesAlone, NotRefusedAlone, Ordered, StandsFor, Recorded, RunnersFit, WindowFits, Over,
           OriginOf, WithinProgress, FormLog, Begun, LogIn, LogOf, DynamicOf;
      stepCount := stepCount + 1;
      ghost var m0 := computed.m;
      ghost var o := OriginOf(world, order, computed.m, kv.stored);
      Booked();
      OriginStands(config, world, backing, order, computed.m, kv.stored);
      StandingFacts(config, order, kv, world, backing, o, m0);
      waitQ.Reorder(order);
      forall r | r in o.batch || r in o.queue ensures r in o.before && DynamicOf(r) == o.before[r] {
        QueueMembers(order, world, r);
        StateTellsPlace(world, r);
      }
      ghost var ctx;
      batch, e, ctx := Form(proposals, resident, o);
      AloneIsNeverRefused(config, order, kv, world, o, e);
      forall r | r in world.arrived && r !in o.batch && r !in o.queue ensures DynamicOf(r) == o.before[r] {
        assert r !in Elements(o.batch) && r !in Elements(o.queue);
      }
      FormedBatch(ctx, batch, world, backing, order, e, o, m0);
      LogsFormed(ctx, batch, world, backing, order, e, o, m0);
    }

    /** executeBatchStep, on what batch formation left. */
    method Execute(batch: Batch, stepAdvance: nat, tokenTime: nat, ghost e: Event, ghost m0: map<string, nat>)
      requires e.Step? && Conserved(world) && FormedObjects(config, order, world, backing, e, m0, batch, waitQ, computed, kv)
      modifies Elements(batch.requests)
      ensures ExecutedObjects(config, order, world, backing, e, m0, batch, waitQ, computed, kv)
      ensures forall r :: r in world.arrived && r in world.progress && old(r.progressIndex) == world.progress[r] ==>
                LogOf(r) == if r !in batch.requests then old(LogOf(r))
                            else ForwardLog(old(LogOf(r)), world.progress[r] >= r.InputLen(), old(r.numNewTokens),
                                            Advanced(world.progress, PassOf(config, world, e), AdmissionOf(config, order, world, e))[r] == r.InputLen(),
                                            stepAdvance, tokenTime)
      ensures forall r :: r in world.arrived && r !in batch.requests ==> LogOf(r) == old(LogOf(r))
    {
      hide PassOf, AdmissionOf, Conserved, Next, Advanced, StateIn;
      ghost var p, a := PassOf(config, world, e), AdmissionOf(config, order, world, e);
      ghost var target := Advanced(world.progress, p, a);
      BatchMembers(config, order, world, e);
      assert forall r :: r in batch.requests ==> FormedRequest(world, p, a, computed, r);
      ExecuteBatch(batch, computed, stepAdvance, tokenTime, target);
      forall r | r in world.arrived ensures ExecutedRequest(world, p, a, computed, r) {
        ExecutedOne(config, order, world, e, r);
        assert r in batch.requests || r !in Elements(batch.requests);
      }
    }

    /** processCompletions, on what the forward pass left. */
    method Complete(batch: Batch, ghost e: Event, ghost m0: map<string, nat>) returns (remaining: seq<Request>)
      requires e.Step? && Conserved(world) && ExecutedObjects(config, order, world, backing, e, m0, batch, waitQ, computed, kv)
      modifies kv, Elements(batch.requests)
      ensures CompletedObjects(config, order, world, backing, e, m0, remaining, waitQ, computed, kv)
      ensures old(kv.answers) <= kv.answers
      ensures forall r :: r in world.arrived ==> LogOf(r) == old(LogOf(r))
    {
      hide PassOf, AdmissionOf, Conserved, Advanced, StateIn, FinishedIn, Finished, Next, Without, Only, Ids, Distinct;
      ghost var p, a := PassOf(config, world, e), AdmissionOf(config, order, world, e);
      ghost var z := Next(config, order, world, e);
      BatchMembers(config, order, world, e);
      LeftAfter(config, order, world, e);
      ghost var stored := kv.stored;
      assert forall r :: r in batch.requests ==> ExecutedRequest(world, p, a, computed, r);
      remaining := ProcessCompletions(config, batch, kv, z.progress);
      CompletedStore(config, order, world, backing, e, stored, kv.stored);
      forall r | r in world.arrived ensures r in z.progress && r.progressIndex == z.progress[r] && r.state == StateIn(z, r) {
        CompletedOne(config, order, world, e, r);
        assert r in batch.requests || r !in Elements(batch.requests);
      }
    }

    /** Step: batch formation, the forward pass, completions and the next step event. `stepAdvance` is
        the latency of the step and `tokenTime` that of an output token; `starting` says whether this step
        starts an adapter load. */
    method Step(now: int, stepAdvance: nat, tokenTime: nat, proposals: Option<Request -> Proposal>,
                resident: Option<string -> bool>, starting: bool)
      returns (ghost e: Event)
      requires Valid() && stepAdvance >= 1
      modifies this, waitQ, kv, computed, (match runningBatch case None => {} case Some(b) => {b}), Elements(world.arrived)
      ensures Valid()
      ensures e.Step? && e.x.proposals == proposals && e.x.resident == resident
      ensures history == old(history) + [e] && world == Next(config, order, old(world), e)
      ensures PassEnds(config, kv, old(world), e)
      ensures if old(runningBatch).None? && old(waitQ.queue) == [] then kv.answers == old(kv.answers)
              else old(kv.answers) + StepLog(config, order, kv, old(world), e) <= kv.answers
      ensures stepCount == old(stepCount) + (if old(runningBatch).None? && old(waitQ.queue) == [] then 0 else 1)
      ensures forall r :: r in old(world).arrived ==>
                if old(runningBatch).None? && old(waitQ.queue) == [] then LogOf(r) == old(LogOf(r))
                else Stepped(config, order, old(world), e, r, old(LogOf(r)), LogOf(r), stepCount, stepAdvance, tokenTime)
      ensures stepEvent == if world.running != [] || (world.waiting != [] && !loading) then Some(now + stepAdvance) else None
      ensures loading == (old(loading) || (starting && (old(runningBatch).Some? || old(waitQ.queue) != [])))
    {
      hide Recorded, Conserved, Bounded, Next, NextBacking, Legal, Answered, StateIn, RequestsMatch, TableIn, StoreIn, PassEnds, StepLog, Stepped, LogOf;
      WorldShown();
      if runningBatch.None? && waitQ.Len() == 0 {
        e := Event.Step(StepInputs(proposals, resident, {}), [], []);
        Idle(e);
        return;
      }
      loading := loading || starting;
      var remaining;
      remaining, e := RunStep(stepAdvance, tokenTime, proposals, resident);
      ScheduleNextStep(now, stepAdvance, remaining);
    }

    /** The orphan guard: nothing runs and nobody waits. */
    method Idle(ghost e: Event)
      requires Settled() && Live(world) == [] && e.Step? && e.fails == [] && e.verdicts == [] && e.x.polled == {}
      modifies this`stepEvent, this`history, this`world, this`backing
      ensures Settled() && stepEvent == None && world == old(world) && history == old(history) + [e]
      ensures world == Next(config, order, old(world), e) && PassEnds(config, kv, old(world), e)
    {
      hide Recorded, Conserved, Bounded, Next, NextBacking, StateIn, TableIn, StoreIn, WithinProgress;
      Booked();
      IdleStep(config, order, world, backing, e.x);
      Happens(e);
      stepEvent := None;
    }

    /** executeBatchStep and processCompletions; `before` is what every request kept of its past when the step
        began. */
    method Advance(batch: Batch, stepAdvance: nat, tokenTime: nat, ghost e: Event, ghost m0: map<string, nat>, ghost before: map<Request, Dynamic>)
      returns (remaining: seq<Request>)
      requires e.Step? && Conserved(world) && FormedObjects(config, order, world, backing, e, m0, batch, waitQ, computed, kv)
      requires Elements(batch.requests) <= Elements(world.arrived)
      requires forall r :: r in world.arrived ==> r in before && Begun(config, order, world, e, r, LogIn(before[r]), stepCount)
      modifies kv, Elements(batch.requests)
      ensures CompletedObjects(config, order, world, backing, e, m0, remaining, waitQ, computed, kv)
      ensures old(kv.answers) <= kv.answers
      ensures forall r :: r in world.arrived ==>
                r in before && Stepped(config, order, world, e, r, LogIn(before[r]), LogOf(r), stepCount, stepAdvance, tokenTime)
    {
      hide PassOf, AdmissionOf, Conserved, Next, Advanced, StateIn, ExecutedObjects, CompletedObjects;
      Execute(batch, stepAdvance, tokenTime, e, m0);
      ExecutedMembers(config, order, world, backing, e, m0, batch, waitQ, computed, kv);
      remaining := Complete(batch, e, m0);
    }

    /** scheduleBatch, executeBatchStep and processCompletions; the batch still holds the completed. */
    method RunStep(stepAdvance: nat, tokenTime: nat, proposals: Option<Request -> Proposal>, resident: Option<string -> bool>)
      returns (remaining: seq<Request>, ghost e: Event)
      requires Settled()
      modifies this`runningBatch, this`stepCount, this`history, this`world, this`backing, waitQ, kv, computed,
               (match runningBatch case None => {} case Some(b) => {b}), Elements(world.arrived)
      ensures e.Step? && e.x.proposals == proposals && e.x.resident == resident
      ensures PassEnds(config, kv, old(world), e)
      ensures old(kv.answers) + StepLog(config, order, kv, old(world), e) <= kv.answers
      ensures stepCount == old(stepCount) + 1
      ensures forall r :: r in old(world).arrived ==>
                Stepped(config, order, old(world), e, r, old(LogOf(r)), LogOf(r), stepCount, stepAdvance, tokenTime)
      ensures history == old(history) + [e] && world == Next(config, order, old(world), e) && world.arrived == old(world).arrived
      ensures match old(runningBatch) case None => runningBatch.Some? && fresh(runningBatch.value) case Some(b) => runningBatch == Some(b)
      ensures remaining == world.running && waitQ.queue == world.waiting
      ensures Conserved(world) && Bounded(config, world) && RequestsMatch(world) && TableIn(world, computed.m)
      ensures kv.Valid() && StoreIn(world, backing, kv.stored) && Recorded(config, order, kv, history, world, backing)
    {
      hide Conserved, Bounded, StateIn, TableIn, StoreIn, Next, Recorded, FormedObjects, ExecutedObjects,
           CompletedObjects, NeverRefusesAlone, NoDeferral, Serviceable, PassEnds, StepLog, Begun, Stepped,
           OriginOf, LogOf, LogIn, RequestsMatch, NextBacking;
      var batch;
      ghost var m0 := computed.m;
      ghost var before := OriginOf(world, order, computed.m, kv.stored).before;
      OriginPast(world, order, computed.m, kv.stored);
      batch, e := ScheduleBatch(proposals, resident, before);
      FormedMembers(config, order, world, backing, e, m0, batch, waitQ, computed, kv);
      remaining := Advance(batch, stepAdvance, tokenTime, e, m0, before);
      StepSettles(config, order, world, backing, e, m0, remaining, waitQ, computed, kv);
      Happens(e);
    }

    /** scheduleNextStep: while anybody remains, or waits and is not held back by a load, a step follows. */
    method ScheduleNextStep(now: int, stepAdvance: nat, remaining: seq<Request>)
      requires runningBatch.Some?
      modifies this`runningBatch, this`stepEvent, runningBatch.value
      ensures match runningBatch case None => remaining == [] case Some(b) => old(runningBatch) == Some(b) && b.requests == remaining
      ensures stepEvent == if remaining != [] || (waitQ.queue != [] && !loading) then Some(now + stepAdvance) else None
    {
      if |remaining| > 0 {
        runningBatch.value.requests := remaining;
        stepEvent := Some(now + stepAdvance);
      } else {
        runningBatch, stepEvent := None, None;
        if waitQ.Len() > 0 && !loading {
          stepEvent := Some(now + stepAdvance);
        }
      }
    }

    /** Guards 0, 1 and 2, after the auto-filled budget. */
    method CannotServe(r: Request, maxOutputLen: int) returns (drop: bool)
      ensures drop <==> Unservable(config, kv, r, maxOutputLen)
    {
      var budget := maxOutputLen;
      if budget == 0 && config.maxModelLen > 0 && r.InputLen() < config.maxModelLen {
        budget := config.maxModelLen - r.InputLen();
      }
      if budget < 0 { return true; }
      if config.maxModelLen > 0 {
        if r.InputLen() >= config.maxModelLen { return true; }
        if budget > 0 && r.InputLen() + budget > config.maxModelLen { return true; }
      }
      CapacityGuard(r.InputLen(), kv.blockSize, kv.totalBlocks);
      return (r.InputLen() + kv.blockSize - 1) / kv.blockSize > kv.totalBlocks;
    }
  }

  // ----- The run so far -----

  /** The history is a legal run that led to `w`; in the setting of the no-starvation theorem it is one
      that the theorem speaks of. */
  predicate Recorded(c: Config, order: QueueOrder, kv: KVStore, history: seq<Event>, w: World, had: map<Request, nat>) {
    && LegalRun(c, order, history) && w == After(c, order, history) && had == Backing(c, order, history)
    && (!c.prefixCaching ==> forall i :: 0 <= i < |history| ==> NothingShared(history[i]))
    && (PlainSetting(c, order, kv, history) ==> PlainRun(c, history))
  }

  predicate PlainSetting(c: Config, order: QueueOrder, kv: KVStore, history: seq<Event>) {
    && Capacity(c) && order == FcfsOrder && !kv.deferrable && 0 < c.maxModelLen <= kv.Capacity()
    && forall i :: 0 <= i < |history| ==> PlainInput(history[i])
  }

  /** Plain requests, and no adapter gate. */
  predicate PlainInput(e: Event) {
    match e
    case Arrive(r, _) => !r.isDecodeSub && r.InputLen() >= 1
    case TimeOut(_) => true
    case Step(x, _, _) => x.resident.None?
  }

  /** No verdict of the step speaks of shared blocks. */
  predicate NothingShared(e: Event) {
    e.Step? ==> forall v :: v in e.verdicts && v.Allocated? ==> v.cached == 0
  }

  /** What FormBatch promises about the answers a step got. */
  predicate Answered(c: Config, order: QueueOrder, kv: KVStore, w: World, e: Event) {
    e.Step? ==>
      && (!kv.deferrable ==> NoDeferral(e))
      && (!c.prefixCaching ==> NothingShared(e))
      && (Serviceable(c, order, kv, w) && e.x.resident.None? ==> NeverRefusesAlone(w, e))
  }

  lemma RecordedGrows(c: Config, order: QueueOrder, kv: KVStore, history: seq<Event>, w: World, had: map<Request, nat>, e: Event)
    requires Recorded(c, order, kv, history, w, had) && Legal(c, w, e) && Answered(c, order, kv, w, e)
    ensures Recorded(c, order, kv, history + [e], Next(c, order, w, e), NextBacking(c, order, w, had, e))
  {
    hide Next, NextBacking, Legal, Capacity, After, LegalRun, Backing;
    var longer := history + [e];
    RunGrows(c, order, history, e);
    if PlainSetting(c, order, kv, longer) {
      assert forall i :: 0 <= i < |history| ==> history[i] == longer[i];
      assert PlainInput(longer[|history|]);
      PlainArrivals(c, history);
      PlainRunGrows(c, history, e);
    }
  }

  lemma RunGrows(c: Config, order: QueueOrder, history: seq<Event>, e: Event)
    requires LegalRun(c, order, history) && Legal(c, After(c, order, history), e)
    ensures LegalRun(c, order, history + [e])
    ensures After(c, order, history + [e]) == Next(c, order, After(c, order, history), e)
    ensures Backing(c, order, history + [e]) == NextBacking(c, order, After(c, order, history), Backing(c, order, history), e)
  {
    hide Next, NextBacking, Legal;
    assert (history + [e])[..|history + [e]| - 1] == history;
  }

  lemma PlainRunGrows(c: Config, history: seq<Event>, e: Event)
    requires PlainRun(c, history) && Legal(c, After(c, FcfsOrder, history), e)
    requires Plain(e) && NeverRefusesAlone(After(c, FcfsOrder, history), e)
    ensures PlainRun(c, history + [e])
  {
    hide After, Legal, NeverRefusesAlone, Plain;
    var longer := history + [e];
    assert longer[..|longer| - 1] == history;
    assert LegalRun(c, FcfsOrder, longer);
    forall i | 0 <= i < |longer|
      ensures Plain(longer[i]) && NeverRefusesAlone(After(c, FcfsOrder, longer[..i]), longer[i])
    {
      if i < |history| {
        assert longer[..i] == history[..i] && longer[i] == history[i];
      } else {
        assert longer[..i] == history;
      }
    }
  }

  /** A request that can never be served: a negative budget, a prompt that leaves the model no room, a
      budget beyond the model's window, or a prompt larger than the whole KV cache. */
  predicate Unservable(c: Config, kv: KVStore, r: Request, maxOutputLen: int) {
    || maxOutputLen < 0
    || (c.maxModelLen > 0 && r.InputLen() >= c.maxModelLen)
    || (c.maxModelLen > 0 && r.InputLen() + maxOutputLen > c.maxModelLen)
    || r.InputLen() > kv.Capacity()
  }

  function Screened(c: Config, kv: KVStore, r: Request, state: RequestState, maxOutputLen: int, deadline: int, clock: int): Enqueued {
    if state == TimedOut then AlreadyTimedOut
    else if Unservable(c, kv, r, maxOutputLen) then Dropped
    else if 0 < deadline <= clock then PastDue
    else Waiting
  }

  lemma NotInWorld(w: World, r: Request)
    requires r.id !in Ids(w.arrived)
    ensures r !in w.arrived
  {
  }

  lemma CapacityGuard(n: nat, size: nat, total: nat)
    requires size > 0
    ensures (n + size - 1) / size <= total <==> n <= total * size
  {
    if n <= total * size {
      BlocksFit(n, size, total);
    } else {
      assert (n + size - 1) / size * size >= n;
      MulMonotone((n + size - 1) / size, total, size);
    }
  }

  lemma NewcomerIsNotGone(c: Config, w: World, e: Event)
    requires Conserved(w) && e.Arrive? && Legal(c, w, e)
    ensures e.r !in Gone(w)
  {
    NewcomerIsNew(c, w, e);
    assert e.r !in Elements(w.arrived);
  }

  /** The tables, and the states, after an arrival. */
  lemma ArrivalSettles(c: Config, order: QueueOrder, w: World, had: map<Request, nat>, e: Event, m: map<string, nat>, stored: map<string, nat>)
    requires e.Arrive? && Conserved(w) && Bounded(c, w) && Legal(c, w, e) && TableIn(w, m)
    ensures var z := Next(c, order, w, e);
            && Conserved(z) && Bounded(c, z) && TableIn(z, m)
            && z.running == w.running && z.waiting == w.waiting + [e.r] && z.arrived == w.arrived + [e.r] && e.r !in w.arrived
            && z.progress == w.progress[e.r := e.progress]
            && forall r :: r in z.arrived ==> StateIn(z, r) == if r == e.r then Queued else StateIn(w, r)
    ensures StoreIn(w, had, stored - {e.r.id}) && At(stored, e.r.id) == e.progress ==>
              StoreIn(Next(c, order, w, e), NextBacking(c, order, w, had, e), stored)
  {
    hide Conserved, Bounded;
    ArrivalConserves(c, order, w, e);
    ArrivalBounded(c, order, w, e);
    NewcomerIsNew(c, w, e);
    NewcomerIsNotGone(c, w, e);
    if StoreIn(w, had, stored - {e.r.id}) && At(stored, e.r.id) == e.progress {
      ArrivalStored(c, order, w, had, e, stored);
    }
  }

  lemma ArrivalStored(c: Config, order: QueueOrder, w: World, had: map<Request, nat>, e: Event, stored: map<string, nat>)
    requires e.Arrive? && e.r.id !in Ids(w.arrived)
    requires StoreIn(w, had, stored - {e.r.id}) && At(stored, e.r.id) == e.progress
    ensures StoreIn(Next(c, order, w, e), NextBacking(c, order, w, had, e), stored)
  {
    IdsSnoc(w.arrived, e.r);
    forall r | r in w.arrived ensures r.id != e.r.id && At(stored, r.id) == At(stored - {e.r.id}, r.id) {
      assert r.id in Ids(w.arrived);
    }
    hide Ids;
    forall id | id in stored ensures id in Ids(w.arrived + [e.r]) {
      assert id != e.r.id ==> id in stored - {e.r.id};
    }
  }

  /** A request that has not arrived has no blocks. */
  lemma NobodysBlocks(w: World, had: map<Request, nat>, stored: map<string, nat>, r: Request)
    requires StoreIn(w, had, stored) && r.id !in Ids(w.arrived)
    ensures At(stored, r.id) == 0 && r.id !in stored && stored - {r.id} == stored
  {
  }

  /** Where the world says a request is, against its state. */
  lemma StateTellsPlace(w: World, r: Request)
    requires Conserved(w)
    ensures r in w.running ==> r in w.arrived && StateIn(w, r) == Running
    ensures r in w.waiting ==> r in w.arrived && StateIn(w, r) == Queued
    ensures r in w.arrived && StateIn(w, r) == Running ==> r in w.running
    ensures r in w.arrived && StateIn(w, r) == Queued ==> r in w.waiting
    ensures r in Gone(w) ==> r !in w.running && r !in w.waiting && StateIn(w, r) in {Completed, TimedOut}
  {
    LiveIsDistinct(w);
    DistinctParts(w.running, w.waiting);
    ElementsConcat(w.running, w.waiting);
    MemberByElements(w.running, r);
    MemberByElements(w.waiting, r);
    MemberByElements(w.arrived, r);
    hide Conserved, Elements, Distinct;
  }

  lemma TimeOutTable(w: World, r: Request)
    requires Conserved(w) && (r in Live(w) || r.id !in Ids(w.arrived))
    ensures Ids(Without(w.running, {r})) == Ids(w.running) - {r.id}
    ensures Ids(Without(w.running, {r})) + IdsOf(w.completed) == Ids(w.running) + IdsOf(w.completed) - {r.id}
    ensures forall s :: s in Without(w.running, {r}) ==> s in w.running && s.id != r.id
  {
    var run := Elements(w.running);
    LiveIsDistinct(w);
    ElementsConcat(w.running, w.waiting);
    ElementsWithout(w.running, {r});
    IdsByElements(w.running);
    IdsByElements(Without(w.running, {r}));
    IdsByElements(w.arrived);
    if r in Live(w) {
      MemberByElements(Live(w), r);
      IdsMinus(w.arrived, run, {r});
      IdsMinus(w.arrived, run + w.completed, {r});
      IdsPlus(run, w.completed);
      IdsPlus(run - {r}, w.completed);
      assert run + w.completed - {r} == (run - {r}) + w.completed;
    } else {
      assert r !in run by {
        assert forall s :: s in Elements(w.arrived) ==> s.id in IdsOf(Elements(w.arrived));
      }
      assert run - {r} == run;
      SubsetIds(run + w.completed, Elements(w.arrived));
      IdsPlus(run, w.completed);
    }
    forall s | s in Without(w.running, {r}) ensures s in w.running && s.id != r.id {
      MemberByElements(Without(w.running, {r}), s);
      assert s in run && s.id in IdsOf(run - {r});
    }
  }

  lemma SubsetIds(a: set<Request>, b: set<Request>)
    requires a <= b
    ensures IdsOf(a) <= IdsOf(b)
  {
  }

  /** What a timeout does to the world. */
  lemma TimeOutWorld(c: Config, order: QueueOrder, w: World, r: Request)
    requires Conserved(w) && Bounded(c, w)
    ensures var z := Next(c, order, w, TimeOut(r));
            && Conserved(z) && Bounded(c, z) && z.arrived == w.arrived && z.progress == w.progress
            && Distinct(w.waiting)
            && z.running == Without(w.running, {r}) && z.waiting == Without(w.waiting, {r})
            && (r in w.running ==> z.waiting == w.waiting)
            && (r !in w.running ==> z.running == w.running)
            && (r !in Live(w) ==> z == w) && (Live(w) == [] ==> Live(z) == [])
            && (r in w.running <==> r in w.arrived && StateIn(w, r) == Running)
            && (r in Live(w) ==> r in w.arrived)
            && (r in w.arrived ==> (r in Live(w) <==> StateIn(w, r) != Completed && StateIn(w, r) != TimedOut))
  {
    hide Bounded, Conserved;
    TimeOutConserves(c, order, w, TimeOut(r));
    TimeOutBounded(c, order, w, TimeOut(r));
    StateTellsPlace(w, r);
    LiveIsDistinct(w);
    DistinctParts(w.running, w.waiting);
    hide Distinct, Elements;
    if r !in w.running { WithoutAbsent(w.running, {r}); }
    if r !in w.waiting { WithoutAbsent(w.waiting, {r}); }
  }

  /** The tables follow. */
  lemma TimeOutTables(c: Config, order: QueueOrder, w: World, had: map<Request, nat>, r: Request, m: map<string, nat>, stored: map<string, nat>)
    requires Conserved(w) && TableIn(w, m) && StoreIn(w, had, stored)
    requires r in Live(w) || r.id !in Ids(w.arrived)
    ensures var z := Next(c, order, w, TimeOut(r));
            TableIn(z, m - {r.id}) && StoreIn(z, NextBacking(c, order, w, had, TimeOut(r)), stored - {r.id})
  {
    hide Conserved, Without;
    NotInWorldIfFresh(w, r);
    TimeOutTable(w, r);
    WithoutAbsentUnlessLive(w, r);
    TimeOutStored(c, order, w, had, r, stored);
  }

  lemma TimeOutStored(c: Config, order: QueueOrder, w: World, had: map<Request, nat>, r: Request, stored: map<string, nat>)
    requires Conserved(w) && StoreIn(w, had, stored) && (r in Live(w) || r.id !in Ids(w.arrived))
    ensures StoreIn(Next(c, order, w, TimeOut(r)), NextBacking(c, order, w, had, TimeOut(r)), stored - {r.id})
  {
    LiveIsDistinct(w);
    MemberByElements(Live(w), r);
    MemberByElements(w.arrived, r);
    forall s | s in w.arrived && s != r ensures s.id != r.id {
      assert r !in w.arrived ==> s.id in Ids(w.arrived);
    }
  }

  /** A request that is gone has no blocks to give back. */
  lemma GoneKeepsBacking(c: Config, order: QueueOrder, w: World, had: map<Request, nat>, r: Request)
    ensures r !in Live(w) ==> NextBacking(c, order, w, had, TimeOut(r)) == had
  {
  }

  lemma NotInWorldIfFresh(w: World, r: Request)
    requires Conserved(w)
    ensures r.id !in Ids(w.arrived) ==> r !in Live(w)
  {
    LiveIsDistinct(w);
    MemberByElements(Live(w), r);
    MemberByElements(w.arrived, r);
  }

  lemma WithoutAbsentUnlessLive(w: World, r: Request)
    ensures r !in Live(w) ==> Without(w.running, {r}) == w.running
  {
    if r !in Live(w) { WithoutAbsent(w.running, {r}); }
  }

  /** Nobody else's state changes. */
  lemma TimeOutStates(c: Config, order: QueueOrder, w: World, r: Request, s: Request)
    requires Conserved(w) && s in w.arrived
    ensures var z := Next(c, order, w, TimeOut(r));
            StateIn(z, s) == if s == r && r in Live(w) then TimedOut else StateIn(w, s)
  {
    StateTellsPlace(w, s);
    ElementsWithout(w.running, {r});
    MemberByElements(w.running, s);
    MemberByElements(Without(w.running, {r}), s);
    hide Conserved, Without, Elements;
  }

  lemma TimeOutAllStates(c: Config, order: QueueOrder, w: World, r: Request)
    requires Conserved(w)
    ensures forall s :: s in w.arrived ==>
              StateIn(Next(c, order, w, TimeOut(r)), s) == if s == r && r in Live(w) then TimedOut else StateIn(w, s)
  {
    forall s | s in w.arrived
      ensures StateIn(Next(c, order, w, TimeOut(r)), s) == if s == r && r in Live(w) then TimedOut else StateIn(w, s)
    {
      TimeOutStates(c, order, w, r, s);
    }
  }

  /** All of it, for a live or not yet queued request in state `state`. */
  lemma Cancelled(c: Config, order: QueueOrder, w: World, had: map<Request, nat>, r: Request, state: RequestState, m: map<string, nat>,
                  stored: map<string, nat>)
    requires Conserved(w) && Bounded(c, w) && TableIn(w, m) && StoreIn(w, had, stored)
    requires state != Completed && state != TimedOut
    requires if r in w.arrived then state == StateIn(w, r) else r.id !in Ids(w.arrived) && state != Running
    ensures var z := Next(c, order, w, TimeOut(r));
            && Conserved(z) && Bounded(c, z) && TableIn(z, m - {r.id})
            && StoreIn(z, NextBacking(c, order, w, had, TimeOut(r)), stored - {r.id})
            && z.arrived == w.arrived && z.progress == w.progress && Distinct(w.waiting)
            && z.running == (if state == Running then Without(w.running, {r}) else w.running)
            && z.waiting == (if state == Running then w.waiting else Without(w.waiting, {r}))
            && (state == Running ==> w.running != [])
            && forall s :: s in w.arrived ==> StateIn(z, s) == if s == r then TimedOut else StateIn(w, s)
  {
    hide Conserved, Bounded, TableIn, StoreIn, StateIn, Next, NextBacking, Distinct, Without, Live;
    TimeOutAllStates(c, order, w, r);
    TimeOutWorld(c, order, w, r);
    TimeOutTables(c, order, w, had, r, m, stored);
  }

  // ----- One step -----

  lemma {:induction false} RunIgnoresPolled(c: Config, x: StepInputs, y: StepInputs, progress: map<Request, nat>, batch: seq<Request>, fails: seq<nat>)
    requires y == x.(polled := y.polled)
    ensures Run(c, x, progress, batch, fails) == Run(c, y, progress, batch, fails)
  {
    hide EvictFor;
    if fails != [] {
      RunIgnoresPolled(c, x, y, progress, batch, fails[..|fails| - 1]);
    }
  }

  lemma {:induction false} RunLogIgnoresPolled(c: Config, x: StepInputs, y: StepInputs, progress: map<Request, nat>, batch: seq<Request>, fails: seq<nat>)
    requires y == x.(polled := y.polled)
    ensures RunLog(c, x, progress, batch, fails) == RunLog(c, y, progress, batch, fails)
  {
    hide EvictFor, Refusals;
    if fails != [] {
      RunIgnoresPolled(c, x, y, progress, batch, fails[..|fails| - 1]);
      RunLogIgnoresPolled(c, x, y, progress, batch, fails[..|fails| - 1]);
    }
  }

  /** What batch formation asks the store in a step, and hears. */
  function FormLog(c: Config, kv: KVStore, e: Event, progress: map<Request, nat>, batch: seq<Request>, queue: seq<Request>): seq<Answer>
    requires e.Step?
  {
    var p := Run(c, e.x, progress, batch, e.fails);
    RunLog(c, e.x, progress, batch, e.fails) + PollLog(kv, e.x.polled)
    + AdmissionsLog(c, kv, e.x, AfterEviction(progress, p.evicted), Open(p, queue), e.verdicts)
  }

  lemma FormLogParts(c: Config, kv: KVStore, e: Event, progress: map<Request, nat>, batch: seq<Request>, queue: seq<Request>, before: seq<Answer>)
    requires e.Step?
    ensures var p := Run(c, e.x, progress, batch, e.fails);
            before + FormLog(c, kv, e, progress, batch, queue)
            == before + RunLog(c, e.x, progress, batch, e.fails) + PollLog(kv, e.x.polled)
               + AdmissionsLog(c, kv, e.x, AfterEviction(progress, p.evicted), Open(p, queue), e.verdicts)
  {
    hide Run, RunLog, AdmissionsLog, PollLog;
  }

  /** The same for a step taken in the world `w`. */
  function StepLog(c: Config, order: QueueOrder, kv: KVStore, w: World, e: Event): seq<Answer>
    requires e.Step?
  {
    FormLog(c, kv, e, w.progress, w.running, Ordered(order, w.waiting))
  }

  /** One request after batch formation: a batch member is Running and about to reach its target, a
      victim is reset, everybody else is as before. */
  ghost predicate FormedRequest(w: World, p: Pass, a: Admission, computed: TokenTable, r: Request)
    reads r, computed
  {
    var target := Advanced(w.progress, p, a);
    && r in w.progress && r in target
    && (r in a.batch ==>
          && target[r] == (if r.progressIndex < r.InputLen() then computed.Get(r.id) else r.progressIndex + r.numNewTokens)
          && r.id in computed.m && computed.m[r.id] == target[r] && r.state == Running)
    && (r in p.evicted ==> r.progressIndex == 0 && r.state == Queued)
    && (r !in a.batch && r !in p.evicted ==> r.progressIndex == w.progress[r] && r.state == StateIn(w, r))
  }

  /** The blocks after batch formation. */
  predicate FormedStore(w: World, p: Pass, a: Admission, had: map<Request, nat>, stored: map<string, nat>) {
    && (forall r :: r in w.arrived ==> r in had && At(stored, r.id) == Charge(w, p, a, had[r], r))
    && stored.Keys <= Ids(w.arrived)
  }

  ghost predicate FormedObjects(c: Config, order: QueueOrder, w: World, had: map<Request, nat>, e: Event, m0: map<string, nat>,
                                batch: Batch, waitQ: WaitQueue, computed: TokenTable, kv: KVStore)
    requires e.Step?
    reads batch, waitQ, computed, kv, Elements(w.arrived)
  {
    var p := PassOf(c, w, e);
    var a := AdmissionOf(c, order, w, e);
    && batch.requests == a.batch && waitQ.queue == a.queue
    && (forall r :: r in w.arrived ==> FormedRequest(w, p, a, computed, r))
    && computed.m.Keys == m0.Keys - Ids(p.evicted) + Ids(a.admitted)
    && kv.Valid() && FormedStore(w, p, a, had, kv.stored)
  }

  /** The objects of a context after FormBatch began at `o`, the store answering as `e` says. */
  ghost predicate Formed(ctx: BatchContext, o: Origin, batch: Batch, e: Event)
    requires e.Step?
    reads batch, ctx.waitQ, ctx.kv, ctx.computed, Elements(o.batch), Elements(o.queue)
  {
    var p := Run(ctx.config, e.x, o.progress, o.batch, e.fails);
    var a := Admissions(ctx.config, e.x, AfterEviction(o.progress, p.evicted), Open(p, o.queue), e.verdicts);
    AdmissionObjects(o, p, a, ctx, batch) && AdmissionStore(o, p, a, ctx.kv)
  }

  lemma BatchMembers(c: Config, order: QueueOrder, w: World, e: Event)
    requires Conserved(w) && e.Step?
    ensures var a := AdmissionOf(c, order, w, e);
            Distinct(a.batch) && forall r :: r in a.batch ==> r in w.arrived
  {
    hide PassOf, AdmissionOf, Conserved;
    FormingPlaces(c, order, w, e);
    var a := AdmissionOf(c, order, w, e);
    forall r | r in a.batch ensures r in w.arrived {
      assert r in Elements(a.batch);
    }
  }

  /** One request after the forward pass: it stands where the step takes it. */
  ghost predicate ExecutedRequest(w: World, p: Pass, a: Admission, computed: TokenTable, r: Request)
    reads r, computed
  {
    var target := Advanced(w.progress, p, a);
    && r in target && r.progressIndex == target[r]
    && (r in a.batch ==> r.state == Running && r.id in computed.m && computed.m[r.id] == target[r])
    && (r !in a.batch ==> r.state == if r in p.evicted then Queued else StateIn(w, r))
  }

  ghost predicate ExecutedObjects(c: Config, order: QueueOrder, w: World, had: map<Request, nat>, e: Event, m0: map<string, nat>,
                                  batch: Batch, waitQ: WaitQueue, computed: TokenTable, kv: KVStore)
    requires e.Step?
    reads batch, waitQ, computed, kv, Elements(w.arrived)
  {
    var p := PassOf(c, w, e);
    var a := AdmissionOf(c, order, w, e);
    && batch.requests == a.batch && waitQ.queue == a.queue
    && (forall r :: r in w.arrived ==> ExecutedRequest(w, p, a, computed, r))
    && computed.m.Keys == m0.Keys - Ids(p.evicted) + Ids(a.admitted)
    && kv.Valid() && FormedStore(w, p, a, had, kv.stored)
  }

  /** Whoever is outside the batch already stands where the step leaves it. */
  lemma ExecutedOne(c: Config, order: QueueOrder, w: World, e: Event, r: Request)
    requires Conserved(w) && e.Step? && r in w.arrived
    ensures var p := PassOf(c, w, e);
            var a := AdmissionOf(c, order, w, e);
            var target := Advanced(w.progress, p, a);
            && r in target
            && (r in p.evicted ==> r !in a.batch && target[r] == 0)
            && (r !in a.batch && r !in p.evicted ==> r in w.progress && target[r] == w.progress[r])
  {
    hide PassOf, AdmissionOf;
    StepPlaces(c, order, w, e, r);
    FormingPlaces(c, order, w, e);
    var p, a := PassOf(c, w, e), AdmissionOf(c, order, w, e);
    assert r in Elements(w.arrived);
    assert r in p.batch <==> r in Elements(p.batch);
    assert r in a.admitted <==> r in Elements(a.admitted);
  }

  ghost predicate CompletedObjects(c: Config, order: QueueOrder, w: World, had: map<Request, nat>, e: Event, m0: map<string, nat>,
                                   remaining: seq<Request>, waitQ: WaitQueue, computed: TokenTable, kv: KVStore)
    requires e.Step?
    reads waitQ, computed, kv, Elements(w.arrived)
  {
    var p := PassOf(c, w, e);
    var a := AdmissionOf(c, order, w, e);
    var z := Next(c, order, w, e);
    && remaining == z.running && waitQ.queue == z.waiting
    && (forall r :: r in w.arrived ==> r in z.progress && r.progressIndex == z.progress[r] && r.state == StateIn(z, r))
    && computed.m.Keys == m0.Keys - Ids(p.evicted) + Ids(a.admitted)
    && (forall r :: r in z.running ==> r in z.progress && r.id in computed.m && computed.m[r.id] == z.progress[r])
    && kv.Valid() && StoreIn(z, NextBacking(c, order, w, had, e), kv.stored)
  }

  lemma FormedMembers(c: Config, order: QueueOrder, w: World, had: map<Request, nat>, e: Event, m0: map<string, nat>,
                      batch: Batch, waitQ: WaitQueue, computed: TokenTable, kv: KVStore)
    requires Conserved(w) && e.Step? && FormedObjects(c, order, w, had, e, m0, batch, waitQ, computed, kv)
    ensures Elements(batch.requests) <= Elements(w.arrived)
  {
    hide PassOf, AdmissionOf, Conserved;
    BatchMembers(c, order, w, e);
  }

  lemma ExecutedMembers(c: Config, order: QueueOrder, w: World, had: map<Request, nat>, e: Event, m0: map<string, nat>,
                        batch: Batch, waitQ: WaitQueue, computed: TokenTable, kv: KVStore)
    requires Conserved(w) && e.Step? && ExecutedObjects(c, order, w, had, e, m0, batch, waitQ, computed, kv)
    ensures Elements(batch.requests) <= Elements(w.arrived)
  {
    hide PassOf, AdmissionOf, Conserved;
    BatchMembers(c, order, w, e);
  }

  /** What processCompletions must leave. */
  lemma LeftAfter(c: Config, order: QueueOrder, w: World, e: Event)
    requires Conserved(w) && e.Step?
    ensures var a := AdmissionOf(c, order, w, e);
            var z := Next(c, order, w, e);
            var fin := FinishedIn(c, a.batch, z.progress);
            && z.running == Without(a.batch, fin) && z.waiting == a.queue && z.arrived == w.arrived
            && z.progress == Advanced(w.progress, PassOf(c, w, e), a)
            && Ids(z.running) == Ids(a.batch) - Ids(Only(a.batch, fin))
            && (forall r :: r in z.running ==> r in a.batch && r in w.arrived)
  {
    hide PassOf, AdmissionOf, Advanced, Finished, Ids, Distinct;
    var a := AdmissionOf(c, order, w, e);
    var z := Next(c, order, w, e);
    FinishedFromBatch(c, order, w, e);
    TableKeys(c, order, w, e);
    BatchMembers(c, order, w, e);
    ElementsWithout(a.batch, FinishedIn(c, a.batch, z.progress));
    hide Conserved, FinishedIn, Without;
    forall r | r in z.running ensures r in a.batch && r in w.arrived {
      MemberByElements(z.running, r);
      MemberByElements(a.batch, r);
    }
  }

  /** The blocks after processCompletions. */
  lemma CompletedStore(c: Config, order: QueueOrder, w: World, had: map<Request, nat>, e: Event, was: map<string, nat>, now: map<string, nat>)
    requires Conserved(w) && e.Step? && FormedStore(w, PassOf(c, w, e), AdmissionOf(c, order, w, e), had, was)
    requires var a := AdmissionOf(c, order, w, e);
             now == was - Ids(Only(a.batch, FinishedIn(c, a.batch, Next(c, order, w, e).progress)))
    ensures StoreIn(Next(c, order, w, e), NextBacking(c, order, w, had, e), now)
  {
    hide PassOf, AdmissionOf, Conserved, Finished, Charge;
    var a, z := AdmissionOf(c, order, w, e), Next(c, order, w, e);
    var fin := z.completed - w.completed;
    FinishedFromBatch(c, order, w, e);
    BatchMembers(c, order, w, e);
    ElementsOnly(a.batch, fin);
    hide Only, FinishedIn;
    forall r | r in w.arrived ensures r.id in Ids(Only(a.batch, fin)) <==> r in fin {
      MemberByElements(a.batch, r);
      MemberByElements(Only(a.batch, fin), r);
      if r.id in Ids(Only(a.batch, fin)) {
        var s :| s in Only(a.batch, fin) && s.id == r.id;
        MemberByElements(Only(a.batch, fin), s);
        MemberByElements(a.batch, s);
        if s != r { TellApart(w.arrived, r, s); }
      }
    }
    hide Ids;
  }

  lemma CompletedOne(c: Config, order: QueueOrder, w: World, e: Event, r: Request)
    requires Conserved(w) && e.Step? && r in w.arrived
    ensures var p := PassOf(c, w, e);
            var a := AdmissionOf(c, order, w, e);
            var z := Next(c, order, w, e);
            && (r in a.batch ==> StateIn(z, r) == if r in FinishedIn(c, a.batch, z.progress) then Completed else Running)
            && (r !in a.batch ==> StateIn(z, r) == if r in p.evicted then Queued else StateIn(w, r))
  {
    hide PassOf, AdmissionOf, Finished, Conserved, StateIn, Next;
    StepStates(c, order, w, e, r);
  }

  /** The world and its tables after a whole step. */
  lemma StepSettles(c: Config, order: QueueOrder, w: World, had: map<Request, nat>, e: Event, m0: map<string, nat>, remaining: seq<Request>,
                    waitQ: WaitQueue, computed: TokenTable, kv: KVStore)
    requires Conserved(w) && Bounded(c, w) && e.Step? && TableIn(w, m0)
    requires CompletedObjects(c, order, w, had, e, m0, remaining, waitQ, computed, kv)
    ensures var z := Next(c, order, w, e);
            && remaining == z.running && waitQ.queue == z.waiting && z.arrived == w.arrived
            && Conserved(z) && Bounded(c, z) && RequestsMatch(z) && TableIn(z, computed.m)
            && kv.Valid() && StoreIn(z, NextBacking(c, order, w, had, e), kv.stored)
  {
    hide PassOf, AdmissionOf, Conserved, Bounded, StateIn, Advanced, FinishedIn;
    StepConserves(c, order, w, e);
    StepBounded(c, order, w, e);
    TableKeys(c, order, w, e);
  }

  /** A step that finds nothing to do changes nothing. */
  lemma IdleStep(c: Config, order: QueueOrder, w: World, had: map<Request, nat>, x: StepInputs)
    requires Live(w) == [] && WithinProgress(w, had)
    ensures Next(c, order, w, Event.Step(x, [], [])) == w && NextBacking(c, order, w, had, Event.Step(x, [], [])) == had
  {
    var e := Event.Step(x, [], []);
    assert w.running == [] && w.waiting == [];
    assert Ordered(order, []) == [];
    var p := PassOf(c, w, e);
    var a := AdmissionOf(c, order, w, e);
    assert p == Start(c, []) && a == Open(p, []);
    assert Advanced(w.progress, p, a) == w.progress;
    assert FinishedIn(c, a.batch, w.progress) == {};
  }

  /** Every running request fits in the store when it is alone there. */
  ghost predicate RunnersFit(c: Config, kv: KVStore, o: Origin) {
    && !kv.deferrable && o.stored.Keys <= Ids(o.batch)
    && forall r :: r in o.batch ==>
         && r in o.progress && o.progress[r] < Boundary(c, r)
         && At(o.stored, r.id) + (Boundary(c, r) - o.progress[r]) <= kv.Capacity()
  }

  lemma RunnersAllFit(ctx: BatchContext, o: Origin)
    ensures RunnersFit(ctx.config, ctx.kv, o) ==> AllFit(ctx, o)
  {
  }

  /** Nothing but sharing the store can make a request of this pass fail. */
  ghost predicate ServesAlone(c: Config, kv: KVStore, o: Origin) {
    && Capacity(c) && RunnersFit(c, kv, o)
    && (o.queue != [] ==>
          && !o.queue[0].isDecodeSub && Max(o.queue[0].InputLen(), 1) <= kv.Capacity()
          && o.queue[0] in o.progress && o.progress[o.queue[0]] == 0)
  }

  predicate NotRefusedAlone(o: Origin, e: Event)
    requires e.Step?
  {
    && (o.batch != [] ==> e.fails != [] && e.fails[0] < |o.batch|)
    && (o.batch == [] && o.queue != [] ==>
          e.verdicts != [] && Serves(e.verdicts[0], o.queue[0]))
  }

  lemma AloneFits(ctx: BatchContext, o: Origin)
    requires ServesAlone(ctx.config, ctx.kv, o)
    ensures AllFit(ctx, o) && ctx.config.policy == Fcfs && ctx.config.maxBatchedTokens > 0 && ctx.config.maxSeqs > 0
    ensures o.queue != [] ==> LoneAdmission(ctx, o, o.queue[0])
  {
  }

  /** The setting of the no-starvation theorem: fcfs, plain requests, and a model window that fits the
      KV cache. */
  predicate Serviceable(c: Config, order: QueueOrder, kv: KVStore, w: World) {
    Capacity(c) && order == FcfsOrder && WindowFits(c, kv, w)
  }

  /** Plain requests, and a model window that fits the KV cache. */
  predicate WindowFits(c: Config, kv: KVStore, w: World) {
    !kv.deferrable && NoTransfers(w) && 0 < c.maxModelLen <= kv.Capacity()
  }

  /** Phase 1 of a step is over, and when every request fits alone, it does not evict everybody. */
  predicate PassEnds(c: Config, kv: KVStore, w: World, e: Event) {
    e.Step? ==>
      var p := PassOf(c, w, e);
      Over(p) && (WindowFits(c, kv, w) && w.running != [] ==> p.batch != [])
  }

  /** The origin, as a value, of a step taken in the world `w`. */
  ghost predicate StandsFor(c: Config, order: QueueOrder, w: World, had: map<Request, nat>, m0: map<string, nat>, o: Origin) {
    && Conserved(w) && Bounded(c, w) && TableIn(w, m0) && StoreIn(w, had, o.stored) && WithinProgress(w, had) && WellFormed(o)
    && (forall id :: id in o.stored ==> o.stored[id] > 0)
    && o.batch == w.running && o.queue == Ordered(order, w.waiting) && o.progress == w.progress && o.computed == m0
    && (forall r :: r in w.arrived ==>
          r in o.before && r in w.progress && o.before[r].state == StateIn(w, r) && o.before[r].progress == w.progress[r])
  }

  lemma OriginStands(c: Config, w: World, had: map<Request, nat>, order: QueueOrder, computed: map<string, nat>,
                     stored: map<string, nat>)
    requires Conserved(w) && Bounded(c, w) && RequestsMatch(w) && TableIn(w, computed) && StoreIn(w, had, stored)
    requires WithinProgress(w, had) && forall id :: id in stored ==> stored[id] > 0
    ensures StandsFor(c, order, w, had, computed, OriginOf(w, order, computed, stored))
    ensures var o := OriginOf(w, order, computed, stored);
            && o.batch == w.running && o.queue == Ordered(order, w.waiting) && o.progress == w.progress
            && o.computed == computed && o.stored == stored
            && forall r :: r in w.arrived ==> r in o.before && DynamicOf(r) == o.before[r]
    ensures Elements(w.running) <= Elements(w.arrived) && Elements(Ordered(order, w.waiting)) <= Elements(w.arrived)
  {
    OriginWellFormed(w, order, computed, stored);
    hide WithinProgress, Conserved, Bounded, TableIn, StoreIn, WellFormed, Ordered, StateIn;
    assert forall r :: r in w.arrived ==> r in Elements(w.arrived);
  }

  lemma StandingFacts(c: Config, order: QueueOrder, kv: KVStore, w: World, had: map<Request, nat>, o: Origin, m0: map<string, nat>)
    requires StandsFor(c, order, w, had, m0, o)
    requires Elements(w.running) <= Elements(w.arrived) && Elements(Ordered(order, w.waiting)) <= Elements(w.arrived)
    ensures WellFormed(o) && o.computed == m0
    ensures forall r :: r in o.batch || r in o.queue ==> r in w.arrived
    ensures Serviceable(c, order, kv, w) ==> ServesAlone(c, kv, o)
    ensures WindowFits(c, kv, w) ==> RunnersFit(c, kv, o)
  {
    AloneInWorld(c, order, kv, w, had, o);
    hide Conserved, Bounded, TableIn, StoreIn, WellFormed, Ordered, StateIn, Serviceable, ServesAlone, WindowFits, RunnersFit;
    forall r | r in o.batch || r in o.queue ensures r in w.arrived {
      assert r in Elements(o.batch) || r in Elements(o.queue);
    }
  }

  lemma AloneInWorld(c: Config, order: QueueOrder, kv: KVStore, w: World, had: map<Request, nat>, o: Origin)
    requires Conserved(w) && Bounded(c, w) && StoreIn(w, had, o.stored) && WithinProgress(w, had)
    requires forall id :: id in o.stored ==> o.stored[id] > 0
    requires o.batch == w.running && o.queue == Ordered(order, w.waiting) && o.progress == w.progress
    ensures Serviceable(c, order, kv, w) ==> ServesAlone(c, kv, o)
    ensures WindowFits(c, kv, w) ==> RunnersFit(c, kv, o)
  {
    if WindowFits(c, kv, w) { OnlyRunningHold(w, had, o.stored); }
    forall r | r in o.batch ensures r in w.arrived {
      StateTellsPlace(w, r);
    }
    if Serviceable(c, order, kv, w) && o.queue != [] {
      StateTellsPlace(w, o.queue[0]);
    }
  }

  /** Without transfers, only running requests have blocks. */
  lemma OnlyRunningHold(w: World, had: map<Request, nat>, stored: map<string, nat>)
    requires StoreIn(w, had, stored) && WithinProgress(w, had) && NoTransfers(w)
    requires forall id :: id in stored ==> stored[id] > 0
    ensures stored.Keys <= Ids(w.running)
  {
    forall id | id in stored ensures id in Ids(w.running) {
      var r :| r in w.arrived && r.id == id;
      assert At(stored, id) > 0;
    }
  }

  lemma FairVerdicts(c: Config, kv: KVStore, e: Event)
    requires e.Step? && (!kv.deferrable ==> e.x.polled == {}) && forall v :: v in e.verdicts ==> FairVerdict(c, kv, v)
    ensures (!kv.deferrable ==> NoDeferral(e)) && (!c.prefixCaching ==> NothingShared(e))
  {
  }

  lemma AloneIsNeverRefused(c: Config, order: QueueOrder, kv: KVStore, w: World, o: Origin, e: Event)
    requires e.Step? && o.batch == w.running && o.queue == Ordered(order, w.waiting)
    ensures Serviceable(c, order, kv, w) && NotRefusedAlone(o, e) ==> NeverRefusesAlone(w, e)
  {
  }

  lemma FormedBatch(ctx: BatchContext, batch: Batch, w: World, had: map<Request, nat>, order: QueueOrder, e: Event, o: Origin, m0: map<string, nat>)
    requires e.Step? && StandsFor(ctx.config, order, w, had, m0, o) && Formed(ctx, o, batch, e)
    requires forall r :: r in w.arrived ==> r in o.before
    requires forall r :: r in w.arrived && r !in o.batch && r !in o.queue ==> DynamicOf(r) == o.before[r]
    ensures FormedObjects(ctx.config, order, w, had, e, m0, batch, ctx.waitQ, ctx.computed, ctx.kv)
  {
    var c := ctx.config;
    var p := PassOf(c, w, e);
    var a := AdmissionOf(c, order, w, e);
    AdmissionTableKeys(o, p, a, ctx, batch);
    FormedBlocks(c, w, had, order, e, o, ctx.kv.stored);
    forall r | r in w.arrived ensures FormedRequest(w, p, a, ctx.computed, r) {
      FormedOne(ctx, batch, w, order, e, o, m0, r);
    }
  }

  /** The store after batch formation, request by request. */
  lemma FormedBlocks(c: Config, w: World, had: map<Request, nat>, order: QueueOrder, e: Event, o: Origin, stored: map<string, nat>)
    requires e.Step? && Conserved(w) && Bounded(c, w) && StoreIn(w, had, o.stored) && WithinProgress(w, had)
    requires forall id :: id in o.stored ==> o.stored[id] > 0
    requires o.batch == w.running && o.progress == w.progress
    requires AdmissionBlocks(o, PassOf(c, w, e), AdmissionOf(c, order, w, e), stored)
    ensures FormedStore(w, PassOf(c, w, e), AdmissionOf(c, order, w, e), had, stored)
  {
    hide PassOf, AdmissionOf;
    var p, a := PassOf(c, w, e), AdmissionOf(c, order, w, e);
    forall r | r in w.arrived ensures r in had && At(stored, r.id) == Charge(w, p, a, had[r], r) {
      FormedBlocksOf(c, w, had, order, e, o, stored, r);
    }
    FormedHolders(c, w, had, order, e, o, stored);
  }

  lemma FormedBlocksOf(c: Config, w: World, had: map<Request, nat>, order: QueueOrder, e: Event, o: Origin, stored: map<string, nat>, r: Request)
    requires e.Step? && Conserved(w) && Bounded(c, w) && StoreIn(w, had, o.stored) && WithinProgress(w, had)
    requires forall id :: id in o.stored ==> o.stored[id] > 0
    requires o.batch == w.running && o.progress == w.progress && r in w.arrived
    requires AdmissionBlocks(o, PassOf(c, w, e), AdmissionOf(c, order, w, e), stored)
    ensures r in had && At(stored, r.id) == Charge(w, PassOf(c, w, e), AdmissionOf(c, order, w, e), had[r], r)
  {
    hide PassOf, AdmissionOf, Conserved, Bounded, Deposit, Written;
    var p, a := PassOf(c, w, e), AdmissionOf(c, order, w, e);
    StepGrants(c, order, w, e, r);
    MemberByElements(w.arrived, r);
    LiveByElements(w, r);
    if r !in w.running && r !in a.admitted {
      StrangerId(c, w, order, e, r);
      SameOutside(stored, o.stored, Ids(o.batch) + Ids(a.admitted), r.id);
    }
  }

  lemma TellApart(all: seq<Request>, r: Request, s: Request)
    requires DistinctIds(all) && r in all && s in all && r != s
    ensures r.id != s.id
  {
    var i :| 0 <= i < |all| && all[i] == r;
    var j :| 0 <= j < |all| && all[j] == s;
    assert i < j || j < i;
  }

  /** Ids tell arrived requests apart. */
  lemma StrangerId(c: Config, w: World, order: QueueOrder, e: Event, r: Request)
    requires e.Step? && Conserved(w) && r in w.arrived && r !in w.running && r !in AdmissionOf(c, order, w, e).admitted
    ensures r.id !in Ids(w.running) + Ids(AdmissionOf(c, order, w, e).admitted)
  {
    hide AdmissionOf;
    var a := AdmissionOf(c, order, w, e);
    LiveIsDistinct(w);
    ElementsConcat(w.running, w.waiting);
    AdmittedFromQueue(c, order, w, e);
    forall s | s in w.running || s in a.admitted ensures s.id != r.id {
      MemberByElements(w.running, s);
      MemberByElements(a.admitted, s);
      MemberByElements(w.arrived, s);
      TellApart(w.arrived, r, s);
    }
    hide DistinctIds, Distinct, Elements;
    assert r.id !in Ids(w.running) && r.id !in Ids(a.admitted);
  }

  lemma FormedHolders(c: Config, w: World, had: map<Request, nat>, order: QueueOrder, e: Event, o: Origin, stored: map<string, nat>)
    requires e.Step? && Conserved(w) && StoreIn(w, had, o.stored) && o.batch == w.running
    requires AdmissionBlocks(o, PassOf(c, w, e), AdmissionOf(c, order, w, e), stored)
    ensures stored.Keys <= Ids(w.arrived)
  {
    hide PassOf, AdmissionOf;
    var p, a := PassOf(c, w, e), AdmissionOf(c, order, w, e);
    LiveIsDistinct(w);
    ElementsConcat(w.running, w.waiting);
    AdmittedFromQueue(c, order, w, e);
    var mine := Ids(o.batch) + Ids(a.admitted);
    assert mine <= Ids(w.arrived) by {
      IdsByElements(w.running);
      IdsByElements(a.admitted);
      IdsByElements(w.arrived);
    }
    hide Ids;
    forall id | id in stored ensures id in Ids(w.arrived) {
      if id !in mine {
        assert id in stored - mine;
        assert id in o.stored - mine;
      }
    }
  }

  lemma AdmissionTableKeys(o: Origin, p: Pass, a: Admission, ctx: BatchContext, batch: Batch)
    requires AdmissionObjects(o, p, a, ctx, batch)
    ensures batch.requests == a.batch && ctx.waitQ.queue == a.queue
    ensures ctx.computed.m.Keys == o.computed.Keys - Ids(p.evicted) + Ids(a.admitted)
  {
  }

  lemma StepReaches(c: Config, order: QueueOrder, w: World, e: Event)
    requires Conserved(w) && Bounded(c, w) && e.Step?
    ensures ReachedFits(AfterEviction(w.progress, PassOf(c, w, e).evicted), AdmissionOf(c, order, w, e))
  {
    var p := PassOf(c, w, e);
    FormingConserves(c, order, w, e);
    QueueStartable(c, order, w, p);
    hide Run, Admissions, Conserved, Bounded, AdmissionBounded, Ordered;
    AdmissionsReach(c, e.x, AfterEviction(w.progress, p.evicted), Open(p, Ordered(order, w.waiting)), e.verdicts);
  }

  lemma FormedOne(ctx: BatchContext, batch: Batch, w: World, order: QueueOrder, e: Event, o: Origin, m0: map<string, nat>, r: Request)
    requires Conserved(w) && Bounded(ctx.config, w) && TableIn(w, m0) && WellFormed(o) && e.Step?
    requires o.batch == w.running && o.queue == Ordered(order, w.waiting) && o.progress == w.progress && o.computed == m0
    requires AdmissionObjects(o, PassOf(ctx.config, w, e), AdmissionOf(ctx.config, order, w, e), ctx, batch)
    requires r in w.arrived && r in o.before && o.before[r].state == StateIn(w, r)
    requires r !in o.batch && r !in o.queue ==> r.progressIndex == w.progress[r] && r.state == StateIn(w, r)
    ensures FormedRequest(w, PassOf(ctx.config, w, e), AdmissionOf(ctx.config, order, w, e), ctx.computed, r)
  {
    var c := ctx.config;
    var p := PassOf(c, w, e);
    var a := AdmissionOf(c, order, w, e);
    StepPlaces(c, order, w, e, r);
    StateTellsPlace(w, r);
    ProgressKnown(c, w, r);
    StepReaches(c, order, w, e);
    QueueMembers(order, w, r);
    hide PassOf, AdmissionOf, Conserved, Bounded, Ordered, AdmissionObjects, WellFormed, ReachedFits, StateIn, Gone;
    if r in a.admitted {
      AdmittedTarget(ctx, batch, o, p, a, r);
    } else if r in p.batch {
      RunningEntry(w, m0, r);
      ContinuingTarget(ctx, batch, o, p, a, r);
    } else {
      UntouchedOne(ctx, batch, o, p, a, r);
    }
  }

  /** The fields a request's past is kept in, after batch formation. */
  lemma LogFormed(ctx: BatchContext, batch: Batch, w: World, order: QueueOrder, e: Event, o: Origin, m0: map<string, nat>, r: Request, l: Log)
    requires Conserved(w) && Bounded(ctx.config, w) && WellFormed(o) && e.Step?
    requires o.batch == w.running && o.queue == Ordered(order, w.waiting) && o.progress == w.progress
    requires AdmissionObjects(o, PassOf(ctx.config, w, e), AdmissionOf(ctx.config, order, w, e), ctx, batch)
    requires r in w.arrived && r in o.before && LogIn(o.before[r]) == l
    requires r !in o.batch && r !in o.queue ==> LogOf(r) == l
    ensures Begun(ctx.config, order, w, e, r, l, ctx.stepCount)
  {
    var c := ctx.config;
    StepPlaces(c, order, w, e, r);
    StateTellsPlace(w, r);
    QueueMembers(order, w, r);
    hide PassOf, AdmissionOf, Conserved, Bounded, Ordered, AdmissionTable;
    DynamicTellsLog(r);
    AdmittedGranted(c, order, w, e, r);
  }

  lemma LogsFormed(ctx: BatchContext, batch: Batch, w: World, had: map<Request, nat>, order: QueueOrder, e: Event, o: Origin, m0: map<string, nat>)
    requires e.Step? && StandsFor(ctx.config, order, w, had, m0, o) && Formed(ctx, o, batch, e)
    requires forall r :: r in w.arrived ==> r in o.before
    requires forall r :: r in w.arrived && r !in o.batch && r !in o.queue ==> DynamicOf(r) == o.before[r]
    ensures forall r :: r in w.arrived ==> Begun(ctx.config, order, w, e, r, LogIn(o.before[r]), ctx.stepCount)
  {
    forall r | r in w.arrived ensures Begun(ctx.config, order, w, e, r, LogIn(o.before[r]), ctx.stepCount) {
      DynamicTellsLog(r);
      LogFormed(ctx, batch, w, order, e, o, m0, r, LogIn(o.before[r]));
    }
  }

  /** A whole step takes the past `l` of a request to `m`. */
  predicate Stepped(c: Config, order: QueueOrder, w: World, e: Event, r: Request, l: Log, m: Log, step: int, stepAdvance: nat, tokenTime: nat)
    requires e.Step?
  {
    r in w.progress && m == SteppedLog(c, order, w, e, r, l, step, stepAdvance, tokenTime)
  }

  /** What batch formation has noted of a request: its past, and for a batch member the tokens granted. */
  ghost predicate Begun(c: Config, order: QueueOrder, w: World, e: Event, r: Request, l: Log, step: int)
    requires e.Step?
    reads r
  {
    var p, a := PassOf(c, w, e), AdmissionOf(c, order, w, e);
    && r in w.progress && LogOf(r) == FormedLog(p, a, r, l, step)
    && (r in a.batch ==> r.numNewTokens == StepTokens(p, a, r) && r.progressIndex == w.progress[r])
  }

  function LogIn(d: Dynamic): Log {
    Log(d.scheduled, d.ttftSet, d.itl, d.carry)
  }

  lemma DynamicTellsLog(r: Request)
    ensures LogOf(r) == LogIn(DynamicOf(r))
  {
  }

  lemma AdmittedGranted(c: Config, order: QueueOrder, w: World, e: Event, r: Request)
    requires Conserved(w) && e.Step?
    ensures var a := AdmissionOf(c, order, w, e); r in a.granted <==> r in a.admitted
  {
    AdmittedFromQueue(c, order, w, e);
    MemberByElements(AdmissionOf(c, order, w, e).admitted, r);
  }

  lemma ProgressKnown(c: Config, w: World, r: Request)
    requires Bounded(c, w) && r in w.arrived
    ensures r in w.progress
  {
  }

  lemma RunningEntry(w: World, m: map<string, nat>, r: Request)
    requires TableIn(w, m) && r in w.running && r in w.progress
    ensures r.id in m && m[r.id] == w.progress[r]
  {
  }

  lemma QueueMembers(order: QueueOrder, w: World, r: Request)
    requires Conserved(w)
    ensures r in Ordered(order, w.waiting) <==> r in w.waiting
  {
    LiveIsDistinct(w);
    WaitingIdsDistinct(w);
    OrderedKeepsRequests(order, w.waiting);
    Rearranged(w.waiting, Ordered(order, w.waiting));
    MemberByElements(w.waiting, r);
    MemberByElements(Ordered(order, w.waiting), r);
  }

  /** Victims are reset; the rest of the queue is as before. */
  lemma UntouchedOne(ctx: BatchContext, batch: Batch, o: Origin, p: Pass, a: Admission, r: Request)
    requires AdmissionObjects(o, p, a, ctx, batch) && WellFormed(o) && r in o.before && r !in a.admitted
    ensures r in o.batch && r in p.evicted ==> r.progressIndex == 0 && r.state == Queued
    ensures r in o.queue && r !in o.batch ==> r.progressIndex == o.progress[r] && r.state == o.before[r].state
  {
    if r in o.batch && r in p.evicted {
      assert DynamicOf(r) == Preempted(o.before[r]);
    }
    if r in o.queue && r !in o.batch {
      assert DynamicOf(r) == o.before[r];
    }
  }

  // ----- What holds of every instance that was built and driven this way -----

  /** A request is Running exactly when it is in the batch, Queued exactly when it is only in the queue;
      the finished are in neither; and the token table's entries of running requests are their progress. */
  lemma Lifecycle(s: Simulator, r: Request)
    requires s.Valid() && r in s.world.arrived
    ensures r.state == Running <==> s.runningBatch.Some? && r in s.runningBatch.value.requests
    ensures r.state == Queued <==> r in s.waitQ.queue
    ensures r.state == Running ==> r !in s.waitQ.queue && r.id in s.computed.m && s.computed.m[r.id] == r.progressIndex
    ensures r.state == Queued && !r.isDecodeSub ==> r.progressIndex == 0 && r.id !in s.computed.m
  {
    StateTellsPlace(s.world, r);
    hide Conserved, Recorded, LegalRun, After;
    if r.state == Queued {
      QueuedHasNoEntry(s.world, r);
    }
  }

  lemma QueuedHasNoEntry(w: World, r: Request)
    requires Conserved(w) && r in w.waiting
    ensures r.id !in Ids(w.running) + IdsOf(w.completed)
  {
    LiveIsDistinct(w);
    DistinctParts(w.running, w.waiting);
    ElementsConcat(w.running, w.waiting);
    MemberByElements(w.waiting, r);
    MemberByElements(w.arrived, r);
    IdsByElements(w.running);
    var others := Elements(w.running) + w.completed;
    MemberByElements(w.running, r);
    assert r !in others;
    IdsPlus(Elements(w.running), w.completed);
    IdsMinus(w.arrived, others, {r});
    assert others - {r} == others && IdsOf({r}) == {r.id};
  }

  /** At every reachable state the blocks of a running request hold at most its progress, and exactly that if
      and only if every step since its admission was exact; then its blocks are as many as its tokens need.
      Without speculation and prefix caching every step is. */
  lemma BlocksCoverProgress(s: Simulator, r: Request)
    requires s.Valid() && r in s.world.running
    ensures At(s.kv.stored, r.id) <= r.progressIndex + Slack(r)
    ensures At(s.kv.stored, r.id) == r.progressIndex + Slack(r) <==> Exact(s.config, s.order, s.history, r)
    ensures Exact(s.config, s.order, s.history, r) && r.progressIndex > 0 ==>
              r.id in s.kv.held
              && r.progressIndex <= |s.kv.held[r.id]| * s.kv.blockSize < r.progressIndex + Slack(r) + s.kv.blockSize
    ensures !s.config.prefixCaching && (forall i :: 0 <= i < |s.history| && s.history[i].Step? ==> s.history[i].x.proposals.None?) ==>
              Exact(s.config, s.order, s.history, r)
  {
    StateTellsPlace(s.world, r);
    BlocksHoldProgress(s.config, s.order, s.history, r);
    BlocksForHolds(At(s.kv.stored, r.id), s.kv.blockSize);
    if !s.config.prefixCaching && forall i :: 0 <= i < |s.history| && s.history[i].Step? ==> s.history[i].x.proposals.None? {
      assert forall i :: 0 <= i < |s.history| ==> NothingShared(s.history[i]);
      OrdinaryIsExact(s.config, s.order, s.history, r);
    }
  }

  /** The running batch of an instance never outgrows its limit. */
  lemma BatchWithinSeqs(s: Simulator)
    requires s.Valid() && s.runningBatch.Some?
    ensures |s.runningBatch.value.requests| <= s.config.maxSeqs
  {
    RunningWithinSeqs(s.config, s.order, s.history);
    hide After, LegalRun, Backing, Conserved, Bounded, TableIn, StoreIn, RequestsMatch;
  }

  /** Terminal states are never left, whatever event comes next. */
  lemma TerminalForGood(c: Config, order: QueueOrder, w: World, e: Event, r: Request)
    requires Conserved(w) && Legal(c, w, e) && r in w.arrived && StateIn(w, r) in {Completed, TimedOut}
    ensures StateIn(Next(c, order, w, e), r) == StateIn(w, r)
  {
    hide Conserved, PassOf, AdmissionOf, Finished;
    match e
    case Step(_, _, _) =>
      StateTellsPlace(w, r);
      StepPlaces(c, order, w, e, r);
      StepStates(c, order, w, e, r);
    case TimeOut(_) =>
      StateTellsPlace(w, r);
      TimeOutStates(c, order, w, e.r, r);
    case Arrive(_, _) =>
  }

  /** No starvation, of the objects: in the plain setting, whoever was among the first `n` arrivals at
      moment `m` is completed or timed out once as many further steps have run as their boundaries add
      up to. */
  lemma NobodyStarves(s: Simulator, m: nat, n: nat)
    requires s.Valid() && PlainSetting(s.config, s.order, s.kv, s.history) && m <= |s.history|
    requires n <= |After(s.config, FcfsOrder, s.history[..m]).arrived|
    requires Steps(s.history) - Steps(s.history[..m])
             >= Backlog(s.config, Pending(After(s.config, FcfsOrder, s.history[..m]), n))
    ensures n <= |s.world.arrived|
    ensures forall r :: r in s.world.arrived[..n] ==> r.state == Completed || r.state == TimedOut
  {
    EveryoneLeaves(s.config, s.history, m, n);
    hide After, Conserved, Bounded, TableIn;
    forall r | r in s.world.arrived[..n] ensures r.state == Completed || r.state == TimedOut {
      assert r in s.world.arrived && r in Gone(s.world);
      StateTellsPlace(s.world, r);
    }
  }
}
