/** Where one step leaves each request (sim/batch_formation.go:125-425). */
module RunPlaces {
  import opened Requests
  import opened Sequences
  import opened Limits
  import opened RunningPass
  import opened AdmissionPass
  import opened Scheduler
  import opened Runs

  lemma MemberByElements(s: seq<Request>, r: Request)
    ensures r in s <==> r in Elements(s)
  {
  }

  /** A step that preempts anybody admits nobody. */
  lemma PreemptionShutsAdmission(c: Config, order: QueueOrder, w: World, e: Event)
    requires e.Step?
    ensures PassOf(c, w, e).evicted != [] ==> AdmissionOf(c, order, w, e).admitted == []
  {
    hide Run;
    var p := PassOf(c, w, e);
    if p.evicted != [] {
      ClosedStaysClosed(c, e.x, AfterEviction(w.progress, p.evicted), Open(p, Ordered(order, w.waiting)), e.verdicts);
    }
  }

  lemma AdmittedFromQueue(c: Config, order: QueueOrder, w: World, e: Event)
    requires Conserved(w) && e.Step?
    ensures var a := AdmissionOf(c, order, w, e);
            Elements(a.admitted) <= Elements(w.waiting) && a.granted.Keys == Elements(a.admitted)
  {
    var p := PassOf(c, w, e);
    var a := AdmissionOf(c, order, w, e);
    FormingConserves(c, order, w, e);
    PreemptionShutsAdmission(c, order, w, e);
    LiveIsDistinct(w);
    WaitingIdsDistinct(w);
    OrderedKeepsRequests(order, w.waiting);
    Rearranged(w.waiting, Ordered(order, w.waiting));
    assert Reverse<Request>([]) + Ordered(order, w.waiting) == Ordered(order, w.waiting);
    hide PassOf, AdmissionOf, Conserved, Ordered, Reverse;
    if a.admitted != [] {
      QueueIsRest(Open(p, Ordered(order, w.waiting)).queue, a.queue, a.admitted, a.skipped);
    }
  }

  /** Where one request stands after batch formation. */
  predicate Placed(w: World, p: Pass, a: Admission, r: Request) {
    && (r in a.batch <==> r in p.batch || r in a.admitted)
    && (r in p.batch ==> r in w.running && r !in p.evicted && r !in a.reached)
    && (r in a.admitted ==> r in w.waiting && r !in w.running && r !in p.evicted && r in a.reached && r in a.granted)
    && (r in p.evicted ==> r in w.running && r !in a.batch && r !in a.reached)
    && (r in w.running ==> r in p.batch || r in p.evicted)
    && (r in a.from <==> r in a.admitted) && (r in a.reached <==> r in a.admitted)
    && (r in Gone(w) ==> r !in w.running && r !in w.waiting && r !in a.batch)
    && (r in w.running || r in w.waiting || r in Gone(w))
  }

  lemma StepPlaces(c: Config, order: QueueOrder, w: World, e: Event, r: Request)
    requires Conserved(w) && e.Step? && r in w.arrived
    ensures Placed(w, PassOf(c, w, e), AdmissionOf(c, order, w, e), r)
  {
    hide PassOf, AdmissionOf, Conserved, Ordered, Gone, DistinctIds;
    var p := PassOf(c, w, e);
    var a := AdmissionOf(c, order, w, e);
    FormingPlaces(c, order, w, e);
    AdmittedFromQueue(c, order, w, e);
    LiveIsDistinct(w);
    DistinctParts(w.running, w.waiting);
    ElementsConcat(w.running, w.waiting);
    DistinctParts(p.batch, a.admitted);
    hide Distinct;
    assert r in a.batch <==> r in Elements(a.batch);
    assert r in p.batch <==> r in Elements(p.batch);
    assert r in a.admitted <==> r in Elements(a.admitted);
    assert r in p.evicted <==> r in Elements(p.evicted);
    assert r in w.running <==> r in Elements(w.running);
    assert r in w.waiting <==> r in Elements(w.waiting);
    assert r in Elements(w.arrived);
    hide Elements;
  }
}
