/** No overshoot, over whole runs: where every request's progress can stand. */
module RunBounds {
  import opened Requests
  import opened Sequences
  import opened Limits
  import opened RunningPass
  import opened RunningPassOrder
  import opened AdmissionPass
  import opened Scheduler
  import opened Runs

  /** The most progress a request may ever show: its boundary; one token more for a transferred decode
      request, which is floored at one token on admission. */
  function Ceiling(c: Config, r: Request): nat {
    if r.isDecodeSub then Max(Boundary(c, r), r.InputLen() + 1) else Boundary(c, r)
  }

  predicate FitsModel(c: Config, r: Request) {
    !r.isDecodeSub && c.maxModelLen > 0 ==> r.InputLen() < c.maxModelLen
  }

  /** A waiting request has done nothing yet, except for a prefill transferred to it. */
  predicate Startable(c: Config, progress: map<Request, nat>, r: Request) {
    FitsModel(c, r) && r in progress && progress[r] <= (if r.isDecodeSub then r.InputLen() else 0)
  }

  predicate Bounded(c: Config, w: World) {
    && (forall r :: r in w.running ==> r in w.progress && BelowBoundary(c, w.progress, r))
    && (forall r :: r in w.waiting ==> Startable(c, w.progress, r))
    && (forall r :: r in w.arrived ==> r in w.progress && FitsModel(c, r) && w.progress[r] <= Ceiling(c, r))
    && (forall r :: r in w.completed ==> r in w.progress && Boundary(c, r) <= w.progress[r])
  }

  predicate BelowBoundary(c: Config, progress: map<Request, nat>, r: Request)
    requires r in progress
  {
    progress[r] < Boundary(c, r)
  }

  predicate AdmissionBounded(c: Config, progress: map<Request, nat>, a: Admission) {
    && (forall r :: r in a.queue ==> Startable(c, progress, r))
    && (forall r :: r in a.reached ==> a.reached[r] <= Ceiling(c, r))
  }

  lemma ConsiderBounded(c: Config, x: StepInputs, progress: map<Request, nat>, a: Admission, v: Verdict)
    requires AdmissionBounded(c, progress, a)
    ensures AdmissionBounded(c, progress, Consider(c, x, progress, a, v))
  {
    if !Shut(c, a) {
      var r := a.queue[a.skipped];
      assert Startable(c, progress, r);
      TransferGrantFloor(c, x, r, progress[r], a.budget);
      hide TransferGrant;
    }
  }

  lemma {:induction false} AdmissionsBounded(c: Config, x: StepInputs, progress: map<Request, nat>, a: Admission, vs: seq<Verdict>)
    requires AdmissionBounded(c, progress, a)
    ensures AdmissionBounded(c, progress, Admissions(c, x, progress, a, vs))
  {
    hide Consider, AdmissionBounded;
    if vs != [] {
      AdmissionsBounded(c, x, progress, a, vs[..|vs| - 1]);
      ConsiderBounded(c, x, progress, Admissions(c, x, progress, a, vs[..|vs| - 1]), vs[|vs| - 1]);
    }
  }

  /** Where a step leaves each request's progress. */
  lemma StepProgress(c: Config, order: QueueOrder, w: World, e: Event, r: Request)
    requires Conserved(w) && Bounded(c, w) && e.Step? && r in w.arrived
    ensures var a := AdmissionOf(c, order, w, e);
            var progress := Advanced(w.progress, PassOf(c, w, e), a);
            && r in progress
            && progress[r] <= Ceiling(c, r)
            && (r in a.queue ==> Startable(c, progress, r) && r !in a.batch)
            && (r in Gone(w) ==> progress[r] == w.progress[r] && r !in a.batch)
  {
    hide Conserved, Sound, AdmissionSound, Run, Admissions, Ordered, Ceiling, Startable;
    var p := PassOf(c, w, e);
    var a := AdmissionOf(c, order, w, e);
    var progress := AfterEviction(w.progress, p.evicted);
    FormingConserves(c, order, w, e);
    FormingPlaces(c, order, w, e);
    LiveIsDistinct(w);
    QueueStartable(c, order, w, p);
    AdmissionsBounded(c, e.x, progress, Open(p, Ordered(order, w.waiting)), e.verdicts);
    assert Bounded(c, w);
    DistinctParts(w.running, w.waiting);
    SurvivorsStayWithin(c, e.x, w.progress, w.running, e.fails);
    hide Distinct;
    var moved := Advanced(w.progress, p, a);
    InCeiling(c, r);
    assert r in a.batch <==> r in Elements(a.batch);
    assert r in a.queue <==> r in Elements(a.queue);
    assert r in p.batch <==> r in Elements(p.batch);
    assert r in p.evicted <==> r in Elements(p.evicted);
    if r in a.queue {
      assert r !in p.batch && r !in a.reached;
      assert moved[r] == progress[r];
      SameProgressStartable(c, progress, moved, r);
    }
  }

  lemma InCeiling(c: Config, r: Request)
    ensures Boundary(c, r) <= Ceiling(c, r)
  {
  }

  lemma SameProgressStartable(c: Config, p: map<Request, nat>, q: map<Request, nat>, r: Request)
    requires Startable(c, p, r) && r in q && p[r] == q[r]
    ensures Startable(c, q, r)
  {
  }

  lemma QueueStartable(c: Config, order: QueueOrder, w: World, p: Pass)
    requires Conserved(w) && Bounded(c, w) && Sound(c, w.running, p)
    ensures AdmissionBounded(c, AfterEviction(w.progress, p.evicted), Open(p, Ordered(order, w.waiting)))
  {
    LiveIsDistinct(w);
    WaitingIdsDistinct(w);
    OrderedKeepsRequests(order, w.waiting);
    Rearranged(Ordered(order, w.waiting), w.waiting);
    ReverseMultiset(p.evicted);
    Rearranged(Reverse(p.evicted), p.evicted);
    var progress := AfterEviction(w.progress, p.evicted);
    forall r | r in Reverse(p.evicted) + Ordered(order, w.waiting) ensures Startable(c, progress, r) {
      if r in Reverse(p.evicted) {
        assert r in Elements(p.evicted);
        assert r in w.running && r in Elements(Live(w));
      } else {
        assert r in Elements(w.waiting);
      }
    }
  }

  lemma StepBounded(c: Config, order: QueueOrder, w: World, e: Event)
    requires Conserved(w) && Bounded(c, w) && e.Step?
    ensures Bounded(c, Next(c, order, w, e))
  {
    hide Next, Conserved, Bounded, InBounds;
    var z := Next(c, order, w, e);
    StepMembers(c, order, w, e);
    forall r | r in w.arrived ensures InBounds(c, z, r) {
      StepInBounds(c, order, w, e, r);
    }
    AllInBounds(c, z);
  }

  lemma AllInBounds(c: Config, z: World)
    requires forall r :: r in z.arrived ==> InBounds(c, z, r)
    requires forall r :: r in z.running || r in z.waiting || r in z.completed ==> r in z.arrived
    ensures Bounded(c, z)
  {
    hide Startable, Ceiling, Boundary, FitsModel;
  }

  predicate InBounds(c: Config, z: World, r: Request) {
    && r in z.progress && FitsModel(c, r) && z.progress[r] <= Ceiling(c, r)
    && (r in z.running ==> BelowBoundary(c, z.progress, r))
    && (r in z.waiting ==> Startable(c, z.progress, r))
    && (r in z.completed ==> Boundary(c, r) <= z.progress[r])
  }

  /** A step leaves nobody who had not arrived. */
  lemma StepMembers(c: Config, order: QueueOrder, w: World, e: Event)
    requires Conserved(w) && e.Step?
    ensures var z := Next(c, order, w, e);
            z.arrived == w.arrived && forall r :: r in z.running || r in z.waiting || r in z.completed ==> r in w.arrived
  {
    var z := Next(c, order, w, e);
    StepConserves(c, order, w, e);
    LiveIsDistinct(z);
    ElementsConcat(z.running, z.waiting);
    hide Next, Conserved;
    forall r | r in z.running || r in z.waiting || r in z.completed ensures r in w.arrived {
      assert r in Elements(z.running) || r in Elements(z.waiting) || r in Gone(z);
      assert r in Elements(z.arrived);
    }
  }

  lemma StepInBounds(c: Config, order: QueueOrder, w: World, e: Event, r: Request)
    requires Conserved(w) && Bounded(c, w) && e.Step? && r in w.arrived
    ensures InBounds(c, Next(c, order, w, e), r)
  {
    StepProgress(c, order, w, e, r);
    var a := AdmissionOf(c, order, w, e);
    var z := Next(c, order, w, e);
    assert FitsModel(c, r) && (r in w.completed ==> r in w.progress && Boundary(c, r) <= w.progress[r]);
    hide PassOf, AdmissionOf, Advanced, Conserved, Bounded, Ceiling, Startable, FitsModel, Boundary;
    LeftInBounds(c, w, z, a.batch, r);
  }

  lemma LeftInBounds(c: Config, w: World, z: World, batch: seq<Request>, r: Request)
    requires r in z.progress && FitsModel(c, r) && z.progress[r] <= Ceiling(c, r)
    requires r in z.waiting ==> Startable(c, z.progress, r)
    requires r in w.completed ==> r in w.progress && z.progress[r] == w.progress[r] && Boundary(c, r) <= w.progress[r]
    requires z.running == Without(batch, FinishedIn(c, batch, z.progress))
    requires z.completed == w.completed + FinishedIn(c, batch, z.progress)
    ensures InBounds(c, z, r)
  {
    hide Ceiling, Startable, FitsModel, Without;
    ElementsWithout(batch, FinishedIn(c, batch, z.progress));
    assert r in z.running <==> r in Elements(z.running);
    assert r in batch <==> r in Elements(batch);
  }

  lemma NewcomerIsNew(c: Config, w: World, e: Event)
    requires Conserved(w) && e.Arrive? && Legal(c, w, e)
    ensures e.r !in w.arrived && e.r !in w.running && e.r !in w.waiting && e.r !in w.completed
  {
    LiveIsDistinct(w);
    ElementsConcat(w.running, w.waiting);
    var r := e.r;
    DistinctIdsGrow(w.arrived, r);
    assert r !in Elements(w.arrived);
    assert r !in Elements(w.running) && r !in Elements(w.waiting);
  }

  lemma ArrivalBounded(c: Config, order: QueueOrder, w: World, e: Event)
    requires Conserved(w) && Bounded(c, w) && e.Arrive? && Legal(c, w, e)
    ensures Bounded(c, Next(c, order, w, e))
  {
    hide Conserved, Ceiling, Boundary;
    var z := Next(c, order, w, e);
    NewcomerIsNew(c, w, e);
    forall r | r in z.waiting ensures Startable(c, z.progress, r) {
      assert r in w.waiting ==> Startable(c, w.progress, r);
    }
    StartBelowCeiling(c, e.r, e.progress);
    forall r | r in z.running ensures r in z.progress && BelowBoundary(c, z.progress, r) {
      assert r in w.running;
    }
  }

  lemma StartBelowCeiling(c: Config, r: Request, n: nat)
    requires if r.isDecodeSub then n <= r.InputLen() else n == 0
    ensures n <= Ceiling(c, r)
  {
  }

  lemma TimeOutBounded(c: Config, order: QueueOrder, w: World, e: Event)
    requires Bounded(c, w) && e.TimeOut?
    ensures Bounded(c, Next(c, order, w, e))
  {
    ElementsWithout(w.running, {e.r});
    ElementsWithout(w.waiting, {e.r});
    var z := Next(c, order, w, e);
    hide Without, Boundary;
    forall r | r in z.running ensures r in w.running {
      assert r in Elements(z.running);
    }
    forall r | r in z.waiting ensures r in w.waiting {
      assert r in Elements(z.waiting);
    }
  }

  lemma NextBounded(c: Config, order: QueueOrder, w: World, e: Event)
    requires Conserved(w) && Bounded(c, w) && Legal(c, w, e)
    ensures Bounded(c, Next(c, order, w, e))
  {
    hide Next, Conserved, Bounded, Legal;
    match e
    case Arrive(_, _) => ArrivalBounded(c, order, w, e);
    case TimeOut(_) => TimeOutBounded(c, order, w, e);
    case Step(_, _, _) => StepBounded(c, order, w, e);
  }

  lemma {:induction false} RunBounded(c: Config, order: QueueOrder, events: seq<Event>)
    requires LegalRun(c, order, events)
    ensures Bounded(c, After(c, order, events))
  {
    hide Next, Bounded, Legal;
    if events != [] {
      RunBounded(c, order, events[..|events| - 1]);
      RunConserves(c, order, events[..|events| - 1]);
      NextBounded(c, order, After(c, order, events[..|events| - 1]), events[|events| - 1]);
    } else {
      EmptyBounded(c);
    }
  }

  lemma EmptyBounded(c: Config)
    ensures Bounded(c, Empty)
  {
  }

  /** No more requests ever run than the batch has room for. */
  lemma {:induction false} RunningWithinSeqs(c: Config, order: QueueOrder, events: seq<Event>)
    requires LegalRun(c, order, events)
    ensures |After(c, order, events).running| <= c.maxSeqs
  {
    if events != [] {
      var front, e := events[..|events| - 1], events[|events| - 1];
      RunningWithinSeqs(c, order, front);
      RunConserves(c, order, front);
      hide Conserved, Legal;
      NextWithinSeqs(c, order, After(c, order, front), e);
    }
  }

  lemma NextWithinSeqs(c: Config, order: QueueOrder, w: World, e: Event)
    requires Conserved(w) && |w.running| <= c.maxSeqs
    ensures |Next(c, order, w, e).running| <= c.maxSeqs
  {
    hide Run, Admissions, Ordered, Conserved, Finished;
    match e
    case Arrive(_, _) =>
    case TimeOut(r) => WithoutShrinks(w.running, {r});
    case Step(_, _, _) =>
      var p, a := PassOf(c, w, e), AdmissionOf(c, order, w, e);
      FormingConserves(c, order, w, e);
      WithoutShrinks(w.running, Elements(p.evicted));
      AdmissionsWithinSeqs(c, e.x, AfterEviction(w.progress, p.evicted), Open(p, Ordered(order, w.waiting)), e.verdicts);
      WithoutShrinks(a.batch, FinishedIn(c, a.batch, Advanced(w.progress, p, a)));
  }

  /** Where the tokens of a request end: output token 1 comes with the last input token, and zero output is
      finished there, too. The model-length cap comes first if it is lower. */
  function LastIndex(c: Config, r: Request): int {
    var last := if |r.outputTokens| == 0 then |r.inputTokens| else |r.inputTokens| + |r.outputTokens| - 1;
    if c.maxModelLen > 0 && c.maxModelLen - 1 < last then c.maxModelLen - 1 else last
  }

  /** No overshoot at any reachable state. A request that is not a transferred decode never passes its last
      output token nor maxModelLen - 1, and completes standing exactly on the lower of the two; a
      transferred one passes it by at most the one token it is floored at. */
  lemma NoOvershoot(c: Config, order: QueueOrder, events: seq<Event>, r: Request)
    requires LegalRun(c, order, events) && r in After(c, order, events).arrived
    ensures var w := After(c, order, events);
            && r in w.progress
            && (!r.isDecodeSub ==>
                  && w.progress[r] <= LastIndex(c, r)
                  && (r in w.completed ==> w.progress[r] == LastIndex(c, r)))
            && (r.isDecodeSub ==> w.progress[r] <= Max(LastIndex(c, r), |r.inputTokens| + 1))
            && (r in w.completed ==> w.progress[r] >= LastIndex(c, r))
            && (r in w.running ==> w.progress[r] < LastIndex(c, r))
  {
    hide After, LegalRun;
    RunBounded(c, order, events);
  }
}
