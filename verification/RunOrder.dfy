/** First come, first served, exactly and over whole runs. */
module RunOrder {
  import opened Requests
  import opened Sequences
  import opened Limits
  import opened RunningPass
  import opened RunningPassOrder
  import opened AdmissionPass
  import opened Scheduler
  import opened Runs

  /** The KV store sets nobody aside (no offload deferral). */
  predicate NoDeferral(e: Event) {
    e.Step? ==> e.x.polled == {} && NobodyAside(e.verdicts)
  }

  lemma AdmitHeadKeepsLine(batch: seq<Request>, queue: seq<Request>)
    requires queue != []
    ensures (batch + [queue[0]]) + RemoveAt(queue, 0) == batch + queue
  {
  }

  lemma ConsiderKeepsLine(c: Config, x: StepInputs, progress: map<Request, nat>, a: Admission, v: Verdict)
    requires x.polled == {} && !v.SetAside? && a.skipped == 0
    ensures var z := Consider(c, x, progress, a, v);
            z.skipped == 0 && z.batch + z.queue == a.batch + a.queue
  {
    hide TransferGrant, PrefillGrant, RemoveAt;
    if a.queue != [] {
      AdmitHeadKeepsLine(a.batch, a.queue);
    }
  }

  lemma {:induction false} AdmissionKeepsLine(c: Config, x: StepInputs, progress: map<Request, nat>, a: Admission, vs: seq<Verdict>)
    requires x.polled == {} && NobodyAside(vs) && a.skipped == 0
    ensures var z := Admissions(c, x, progress, a, vs);
            z.skipped == 0 && z.batch + z.queue == a.batch + a.queue
  {
    hide Consider;
    if vs != [] {
      AdmissionKeepsLine(c, x, progress, a, vs[..|vs| - 1]);
      ConsiderKeepsLine(c, x, progress, Admissions(c, x, progress, a, vs[..|vs| - 1]), vs[|vs| - 1]);
    }
  }

  /** Batch formation under fcfs leaves the line of live requests exactly as it was: eviction moves
      the batch tail to the queue head, admission moves the queue head to the batch tail. */
  lemma FormingKeepsLine(c: Config, w: World, e: Event)
    requires c.policy == Fcfs && Distinct(w.running) && e.Step? && NoDeferral(e)
    ensures var a := AdmissionOf(c, FcfsOrder, w, e); a.batch + a.queue == Live(w)
  {
    var p := PassOf(c, w, e);
    FcfsRun(c, e.x, w.progress, w.running, e.fails);
    AdmissionKeepsLine(c, e.x, AfterEviction(w.progress, p.evicted), Open(p, w.waiting), e.verdicts);
    hide Run, Admissions, ExactGrants;
    assert p.batch + (Reverse(p.evicted) + w.waiting) == (p.batch + Reverse(p.evicted)) + w.waiting;
  }

  predicate FcfsSetting(c: Config, events: seq<Event>) {
    c.policy == Fcfs && forall i :: 0 <= i < |events| ==> NoDeferral(events[i])
  }

  /** At every reachable state the live requests, batch first, stand in the order they arrived: nobody
      is overtaken, and nobody loses its place by being preempted. */
  lemma {:induction false} FcfsIsArrivalOrder(c: Config, events: seq<Event>)
    requires FcfsSetting(c, events) && LegalRun(c, FcfsOrder, events)
    ensures var w := After(c, FcfsOrder, events); Live(w) == Without(w.arrived, Gone(w))
  {
    if events != [] {
      var before, e := events[..|events| - 1], events[|events| - 1];
      FcfsIsArrivalOrder(c, before);
      RunConserves(c, FcfsOrder, before);
      KeepsArrivalOrder(c, After(c, FcfsOrder, before), e);
    }
  }

  /** Removing requests from the line and marking them gone keeps arrival order. */
  lemma LeavingKeepsOrder(w: World, z: World, x: set<Request>)
    requires Live(w) == Without(w.arrived, Gone(w)) && z.arrived == w.arrived
    requires Live(z) == Without(Live(w), x) && Gone(z) == Gone(w) + x
    ensures Live(z) == Without(z.arrived, Gone(z))
  {
    WithoutTwice(w.arrived, Gone(w), x);
  }

  lemma StepKeepsArrivalOrder(c: Config, w: World, e: Event)
    requires c.policy == Fcfs && NoDeferral(e) && Conserved(w) && e.Step?
    requires Live(w) == Without(w.arrived, Gone(w))
    ensures var z := Next(c, FcfsOrder, w, e); Live(z) == Without(z.arrived, Gone(z))
  {
    hide AdmissionOf, PassOf, Advanced, Without;
    LiveIsDistinct(w);
    DistinctParts(w.running, w.waiting);
    FormingKeepsLine(c, w, e);
    StepConserves(c, FcfsOrder, w, e);
    var z := Next(c, FcfsOrder, w, e);
    LeavingKeepsOrder(w, z, z.completed - w.completed);
  }

  lemma KeepsArrivalOrder(c: Config, w: World, e: Event)
    requires c.policy == Fcfs && NoDeferral(e) && Conserved(w) && Legal(c, w, e)
    requires Live(w) == Without(w.arrived, Gone(w))
    ensures var z := Next(c, FcfsOrder, w, e); Live(z) == Without(z.arrived, Gone(z))
  {
    var z := Next(c, FcfsOrder, w, e);
    hide Without;
    if e.Arrive? {
      assert e.r !in w.arrived;
      ArrivalGrows(w.arrived, e.r, Gone(w));
      assert Live(z) == Live(w) + [e.r];
    } else if e.TimeOut? {
      TimeOutConserves(c, FcfsOrder, w, e);
      if e.r in Live(w) {
        LeavingKeepsOrder(w, z, {e.r});
      }
    } else {
      StepKeepsArrivalOrder(c, w, e);
    }
  }
}
