/** Whole runs of one instance: arrivals, timeouts and steps over the running batch and the queue
    (sim/simulator.go:541-689, 839-923, 1104-1311; sim/event.go:165-227). */
module Runs {
  import opened Requests
  import opened Sequences
  import opened Limits
  import opened RunningPass
  import opened AdmissionPass
  import opened Scheduler

  datatype World = World(
    running: seq<Request>,
    waiting: seq<Request>,
    progress: map<Request, nat>,
    arrived: seq<Request>,        // every request that ever entered the queue, in that order
    completed: set<Request>,
    timedOut: set<Request>)

  /** One step carries what phase 1 and phase 2 heard from the KV store. */
  datatype Event =
    | Arrive(r: Request, progress: nat)
    | TimeOut(r: Request)
    | Step(x: StepInputs, fails: seq<nat>, verdicts: seq<Verdict>)

  const Empty := World([], [], map[], [], {}, {})

  function Live(w: World): seq<Request> {
    w.running + w.waiting
  }

  function Gone(w: World): set<Request> {
    w.completed + w.timedOut
  }

  function PassOf(c: Config, w: World, e: Event): Pass
    requires e.Step?
  {
    Run(c, e.x, w.progress, w.running, e.fails)
  }

  /** Preempted requests start over. */
  function AfterEviction(progress: map<Request, nat>, evicted: seq<Request>): map<Request, nat> {
    map r | r in progress :: if r in evicted then 0 else progress[r]
  }

  function AdmissionOf(c: Config, order: QueueOrder, w: World, e: Event): Admission
    requires e.Step?
  {
    var p := PassOf(c, w, e);
    Admissions(c, e.x, AfterEviction(w.progress, p.evicted), Open(p, Ordered(order, w.waiting)), e.verdicts)
  }

  /** The forward pass moves every batch member by what it was granted. */
  function Advanced(progress: map<Request, nat>, p: Pass, a: Admission): map<Request, nat> {
    map r | r in progress ::
      if r in a.reached then a.reached[r]
      else if r in p.evicted then 0
      else progress[r] + Tokens(p.granted, r)
  }

  /** Both exits of processCompletions: completion, and the model-length cap. */
  predicate Finished(c: Config, r: Request, progress: nat) {
    progress >= r.CompletionProgressIndex() || (c.maxModelLen > 0 && progress >= c.maxModelLen - 1)
  }

  function FinishedIn(c: Config, batch: seq<Request>, progress: map<Request, nat>): set<Request> {
    set r | r in batch && r in progress && Finished(c, r, progress[r])
  }

  function Next(c: Config, order: QueueOrder, w: World, e: Event): World {
    match e
    case Arrive(r, progress) =>
      w.(waiting := w.waiting + [r], progress := w.progress[r := progress], arrived := w.arrived + [r])
    case TimeOut(r) =>
      if r !in Live(w) then w
      else w.(running := Without(w.running, {r}), waiting := Without(w.waiting, {r}), timedOut := w.timedOut + {r})
    case Step(_, _, _) =>
      var a := AdmissionOf(c, order, w, e);
      var progress := Advanced(w.progress, PassOf(c, w, e), a);
      var finished := FinishedIn(c, a.batch, progress);
      w.(running := Without(a.batch, finished), waiting := a.queue, progress := progress,
         completed := w.completed + finished)
  }

  /** Arrivals have new ids, start at zero unless their prefill ran elsewhere, and passed the
      model-length guard of EnqueueRequest. */
  predicate Legal(c: Config, w: World, e: Event) {
    e.Arrive? ==>
      && e.r.id !in Ids(w.arrived)
      && (if e.r.isDecodeSub then e.progress <= e.r.InputLen()
          else e.progress == 0 && (c.maxModelLen > 0 ==> e.r.InputLen() < c.maxModelLen))
  }

  function After(c: Config, order: QueueOrder, events: seq<Event>): World {
    if events == [] then Empty
    else Next(c, order, After(c, order, events[..|events| - 1]), events[|events| - 1])
  }

  predicate LegalRun(c: Config, order: QueueOrder, events: seq<Event>) {
    events == [] ||
    (&& LegalRun(c, order, events[..|events| - 1])
     && Legal(c, After(c, order, events[..|events| - 1]), events[|events| - 1]))
  }

  // ----- Conservation -----

  /** Every request that arrived is running, waiting, completed or timed out: exactly one of these,
      and once. */
  predicate Conserved(w: World) {
    && DistinctIds(w.arrived)
    && w.progress.Keys == Elements(w.arrived)
    && Gone(w) <= Elements(w.arrived)
    && w.completed !! w.timedOut
    && multiset(Live(w)) == multiset(Without(w.arrived, Gone(w)))
  }

  lemma LiveIsDistinct(w: World)
    requires Conserved(w)
    ensures Distinct(w.arrived) && Distinct(Live(w)) && DistinctIds(Live(w))
    ensures Elements(Live(w)) == Elements(w.arrived) - Gone(w)
  {
    assert Distinct(w.arrived);
    DistinctWithout(w.arrived, Gone(w));
    Rearranged(Without(w.arrived, Gone(w)), Live(w));
    ElementsWithout(w.arrived, Gone(w));
    forall i, j | 0 <= i < j < |Live(w)| ensures Live(w)[i].id != Live(w)[j].id {
      assert Live(w)[i] in Elements(Live(w)) && Live(w)[j] in Elements(Live(w));
    }
  }

  /** Batch formation rearranges the live requests and loses none. */
  lemma FormingConserves(c: Config, order: QueueOrder, w: World, e: Event)
    requires Conserved(w) && e.Step?
    ensures var p := PassOf(c, w, e);
            var a := AdmissionOf(c, order, w, e);
            && Sound(c, w.running, p)
            && Distinct(Open(p, Ordered(order, w.waiting)).queue)
            && AdmissionSound(e.x, p.batch, p.budget, Open(p, Ordered(order, w.waiting)).queue, a)
            && multiset(a.batch + a.queue) == multiset(Live(w))
  {
    hide Run, Admissions, Ordered;
    LiveIsDistinct(w);
    DistinctParts(w.running, w.waiting);
    var p := PassOf(c, w, e);
    RunSound(c, e.x, w.progress, w.running, e.fails);
    SplitByMembers(w.running, p.evicted);
    WaitingIdsDistinct(w);
    OrderedKeepsRequests(order, w.waiting);
    var a0 := Open(p, Ordered(order, w.waiting));
    ReverseMultiset(p.evicted);
    assert multiset(p.batch + a0.queue) == multiset(Live(w));
    Rearranged(Live(w), p.batch + a0.queue);
    DistinctParts(p.batch, a0.queue);
    AdmissionsSound(c, e.x, AfterEviction(w.progress, p.evicted), p, Ordered(order, w.waiting), e.verdicts);
    AdmissionConserves(e.x, p.batch, p.budget, a0.queue, AdmissionOf(c, order, w, e));
  }

  lemma SoundPlaces(c: Config, batch0: seq<Request>, p: Pass)
    requires Sound(c, batch0, p)
    ensures Elements(p.batch) == Elements(batch0) - Elements(p.evicted)
    ensures Elements(p.evicted) <= Elements(batch0) && p.granted.Keys <= Elements(p.batch)
  {
    hide CursorAligned, Without;
    ElementsWithout(batch0, Elements(p.evicted));
    forall r | r in p.granted ensures r in Elements(p.batch) {
      assert r in p.batch[..p.idx];
    }
  }

  lemma AdmittedJoin(x: StepInputs, batch1: seq<Request>, budget1: int, queue0: seq<Request>, a: Admission)
    requires AdmissionSound(x, batch1, budget1, queue0, a)
    ensures a.batch == batch1 + a.admitted && a.reached.Keys == a.from.Keys == Elements(a.admitted)
    ensures Elements(a.batch) == Elements(batch1) + Elements(a.admitted)
  {
    hide ScanOrder, SkippedAreDeferred, Spent;
    ElementsConcat(batch1, a.admitted);
  }

  lemma DisjointParts(a: seq<Request>, b: seq<Request>)
    requires Distinct(a + b)
    ensures Distinct(a) && Distinct(b) && Elements(a) !! Elements(b)
  {
    DistinctParts(a, b);
  }

  /** Where batch formation leaves the live requests, as sets. */
  lemma FormingPlaces(c: Config, order: QueueOrder, w: World, e: Event)
    requires Conserved(w) && e.Step?
    ensures var p := PassOf(c, w, e);
            var a := AdmissionOf(c, order, w, e);
            && Distinct(a.batch) && Distinct(a.queue)
            && a.batch == p.batch + a.admitted
            && Elements(a.batch) !! Elements(a.queue)
            && Elements(a.batch) + Elements(a.queue) == Elements(w.arrived) - Gone(w)
            && Elements(a.batch) == Elements(p.batch) + Elements(a.admitted)
            && Elements(p.batch) == Elements(w.running) - Elements(p.evicted)
            && Elements(p.evicted) <= Elements(w.running) <= Elements(w.arrived) - Gone(w)
            && p.granted.Keys <= Elements(p.batch)
            && a.reached.Keys == a.from.Keys == Elements(a.admitted)
  {
    hide PassOf, AdmissionOf, Sound, AdmissionSound, Conserved, Elements;
    var p := PassOf(c, w, e);
    var a := AdmissionOf(c, order, w, e);
    FormingConserves(c, order, w, e);
    SoundPlaces(c, w.running, p);
    AdmittedJoin(e.x, p.batch, p.budget, Open(p, Ordered(order, w.waiting)).queue, a);
    LiveIsDistinct(w);
    Rearranged(Live(w), a.batch + a.queue);
    ElementsConcat(a.batch, a.queue);
    ElementsConcat(w.running, w.waiting);
    DisjointParts(a.batch, a.queue);
  }

  lemma WaitingIdsDistinct(w: World)
    requires DistinctIds(Live(w))
    ensures DistinctIds(w.waiting)
  {
    forall i, j | 0 <= i < j < |w.waiting| ensures w.waiting[i].id != w.waiting[j].id {
      assert Live(w)[|w.running| + i] == w.waiting[i] && Live(w)[|w.running| + j] == w.waiting[j];
    }
  }

  lemma Halves(s: seq<Request>, k: nat)
    requires k <= |s|
    ensures s == s[..k] + s[k..]
  {
  }

  lemma AdmissionConserves(x: StepInputs, batch1: seq<Request>, budget1: int, queue0: seq<Request>, a: Admission)
    requires AdmissionSound(x, batch1, budget1, queue0, a)
    ensures multiset(a.batch + a.queue) == multiset(batch1 + queue0)
  {
    hide Only, Without, SkippedAreDeferred, Spent, Elements;
    var k := |a.admitted| + a.skipped;
    var seen, rest, left := queue0[..k], queue0[k..], a.queue[..a.skipped];
    Halves(queue0, k);
    Halves(a.queue, a.skipped);
    FilterSplits(seen, Elements(a.admitted));
    SplitMoved(batch1, a.admitted, left, seen, rest);
  }

  /** Taking `x` out of the live requests and marking it gone are the same thing. */
  lemma RemovalConserves(w: World, live: seq<Request>, x: set<Request>)
    requires Conserved(w) && multiset(live) == multiset(Live(w))
    ensures multiset(Without(live, x)) == multiset(Without(w.arrived, Gone(w) + x))
  {
    WithoutMultiset(live, Without(w.arrived, Gone(w)), x);
    WithoutTwice(w.arrived, Gone(w), x);
  }

  lemma FinishedLeaveTheBatch(batch: seq<Request>, queue: seq<Request>, fin: set<Request>)
    requires Distinct(batch + queue) && (forall r :: r in fin ==> r in batch)
    ensures Without(batch, fin) + queue == Without(batch + queue, fin)
  {
    DistinctParts(batch, queue);
    WithoutConcat(batch, queue, fin);
    WithoutAbsent(queue, fin);
  }

  /** Marking live requests gone, one way or the other, conserves. */
  lemma LeavingConserves(w: World, z: World, live: seq<Request>, x: set<Request>)
    requires Conserved(w) && multiset(live) == multiset(Live(w)) && x <= Elements(live)
    requires Live(z) == Without(live, x) && z.arrived == w.arrived && z.progress.Keys == w.progress.Keys
    requires (z.completed == w.completed + x && z.timedOut == w.timedOut)
             || (z.completed == w.completed && z.timedOut == w.timedOut + x)
    ensures Conserved(z) && x !! Gone(w)
  {
    hide Without, Live, DistinctIds, Distinct, Elements;
    LiveIsDistinct(w);
    Rearranged(Live(w), live);
    RemovalConserves(w, live, x);
    assert Gone(z) == Gone(w) + x;
  }

  lemma StepConserves(c: Config, order: QueueOrder, w: World, e: Event)
    requires Conserved(w) && e.Step?
    ensures Conserved(Next(c, order, w, e))
    ensures var a := AdmissionOf(c, order, w, e);
            var z := Next(c, order, w, e);
            && Live(z) == Without(a.batch + a.queue, z.completed - w.completed)
            && z.completed - w.completed == FinishedIn(c, a.batch, z.progress)
  {
    hide PassOf, AdmissionOf, Finished, Sound, AdmissionSound;
    var a := AdmissionOf(c, order, w, e);
    var z := Next(c, order, w, e);
    var fin := FinishedIn(c, a.batch, z.progress);
    FormingConserves(c, order, w, e);
    LiveIsDistinct(w);
    Rearranged(Live(w), a.batch + a.queue);
    FinishedLeaveTheBatch(a.batch, a.queue, fin);
    assert fin <= Elements(a.batch + a.queue);
    LeavingConserves(w, z, a.batch + a.queue, fin);
  }

  lemma ArrivalConserves(c: Config, order: QueueOrder, w: World, e: Event)
    requires Conserved(w) && Legal(c, w, e) && e.Arrive?
    ensures Conserved(Next(c, order, w, e))
  {
    hide Elements, DistinctIds, Without, PassOf, AdmissionOf, Advanced, FinishedIn;
    var z := Next(c, order, w, e);
    DistinctIdsGrow(w.arrived, e.r);
    ArrivalGrows(w.arrived, e.r, Gone(w));
    assert Live(z) == Live(w) + [e.r];
    hide Next, Live;
    NewcomerConserves(w, z, e.r);
  }

  lemma NewcomerConserves(w: World, z: World, r: Request)
    requires Conserved(w) && DistinctIds(z.arrived) && Live(z) == Live(w) + [r]
    requires z.arrived == w.arrived + [r] && Elements(z.arrived) == Elements(w.arrived) + {r}
    requires z.progress.Keys == w.progress.Keys + {r} && z.completed == w.completed && z.timedOut == w.timedOut
    requires Without(z.arrived, Gone(w)) == Without(w.arrived, Gone(w)) + [r]
    ensures Conserved(z)
  {
    hide Elements, DistinctIds, Without, Live;
    assert multiset(Live(z)) == multiset(Live(w)) + multiset{r};
  }

  lemma ArrivalGrows(arrived: seq<Request>, r: Request, gone: set<Request>)
    requires r !in arrived && gone <= Elements(arrived)
    ensures Elements(arrived + [r]) == Elements(arrived) + {r}
    ensures Without(arrived + [r], gone) == Without(arrived, gone) + [r]
  {
    ElementsConcat(arrived, [r]);
    ElementsOfOne(r);
    WithoutConcat(arrived, [r], gone);
  }

  lemma TimeOutConserves(c: Config, order: QueueOrder, w: World, e: Event)
    requires Conserved(w) && e.TimeOut?
    ensures Conserved(Next(c, order, w, e))
    ensures Live(Next(c, order, w, e)) == Without(Live(w), {e.r})
  {
    WithoutConcat(w.running, w.waiting, {e.r});
    if e.r in Live(w) {
      LeavingConserves(w, Next(c, order, w, e), Live(w), {e.r});
    } else {
      WithoutAbsent(Live(w), {e.r});
    }
  }

  lemma NextConserves(c: Config, order: QueueOrder, w: World, e: Event)
    requires Conserved(w) && Legal(c, w, e)
    ensures Conserved(Next(c, order, w, e))
  {
    hide Conserved, Legal;
    match e
    case Step(_, _, _) => StepConserves(c, order, w, e);
    case Arrive(_, _) => ArrivalConserves(c, order, w, e);
    case TimeOut(_) => TimeOutConserves(c, order, w, e);
  }

  /** Request conservation over whole runs, for every policy, queue order and KV behaviour. */
  lemma {:induction false} RunConserves(c: Config, order: QueueOrder, events: seq<Event>)
    requires LegalRun(c, order, events)
    ensures Conserved(After(c, order, events))
  {
    if events != [] {
      RunConserves(c, order, events[..|events| - 1]);
      NextConserves(c, order, After(c, order, events[..|events| - 1]), events[|events| - 1]);
    }
  }
}
