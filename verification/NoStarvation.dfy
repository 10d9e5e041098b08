/** No starvation under fcfs: the oldest live request advances in every step, so every request leaves
    within a number of steps that is fixed when it arrives. */
module NoStarvation {
  import opened Requests
  import opened Sequences
  import opened Limits
  import opened RunningPass
  import opened RunningPassOrder
  import opened AdmissionPass
  import opened Scheduler
  import opened Runs
  import opened RunOrder
  import opened RunBounds

  /** The store never refuses a request that is alone: it is not refused until nobody is left to evict,
      and the queue head is not refused on an empty instance. */
  predicate NeverRefusesAlone(w: World, e: Event) {
    e.Step? ==>
      && (w.running != [] ==> e.fails != [] && e.fails[0] < |w.running|)
      && (w.running == [] && w.waiting != [] ==>
            e.verdicts != [] && Serves(e.verdicts[0], w.waiting[0]))
  }

  /** Plain prefill-and-decode requests, no cold-load gate, no deferral. */
  predicate Plain(e: Event) {
    match e
    case Arrive(r, _) => !r.isDecodeSub && r.InputLen() >= 1
    case TimeOut(_) => true
    case Step(x, _, _) => x.resident.None? && NoDeferral(e)
  }

  predicate Capacity(c: Config) {
    c.policy == Fcfs && c.maxBatchedTokens > 0 && c.maxSeqs > 0
  }

  // ----- The head of the line advances -----

  lemma FcfsCursorGrows(c: Config, x: StepInputs, progress: map<Request, nat>, batch0: seq<Request>, p: Pass, fails: nat)
    requires c.policy == Fcfs && Distinct(batch0) && Sound(c, batch0, p)
    ensures Visit(c, x, progress, p, fails).idx >= p.idx
  {
    hide EvictFor, Grant, KeepsOrder, CursorAligned, BudgetKept;
    if !Over(p) && p.batch[p.idx] in progress {
      FcfsNeverRefunds(c, batch0, p, p.batch[p.idx], fails);
    }
  }

  lemma FirstVisit(c: Config, x: StepInputs, progress: map<Request, nat>, batch0: seq<Request>, fails: nat)
    requires Capacity(c) && Distinct(batch0) && batch0 != [] && fails < |batch0|
    requires batch0[0] in progress && progress[batch0[0]] < Boundary(c, batch0[0])
    ensures Visit(c, x, progress, Start(c, batch0), fails).idx == 1
  {
    hide EvictFor, Grant;
    StartSound(c, batch0);
    GrantStopsAtBoundary(c, x, batch0[0], progress[batch0[0]], c.maxBatchedTokens);
    FcfsNeverRefunds(c, batch0, Start(c, batch0), batch0[0], fails);
  }

  lemma {:induction false} CursorPassesHead(c: Config, x: StepInputs, progress: map<Request, nat>, batch0: seq<Request>, fails: seq<nat>)
    requires Capacity(c) && Distinct(batch0) && batch0 != [] && fails != [] && fails[0] < |batch0|
    requires batch0[0] in progress && progress[batch0[0]] < Boundary(c, batch0[0])
    ensures Run(c, x, progress, batch0, fails).idx >= 1
  {
    hide Visit;
    var before := fails[..|fails| - 1];
    if before == [] {
      assert fails[0] == fails[|fails| - 1];
      FirstVisit(c, x, progress, batch0, fails[0]);
    } else {
      CursorPassesHead(c, x, progress, batch0, before);
      RunSound(c, x, progress, batch0, before);
      FcfsCursorGrows(c, x, progress, batch0, Run(c, x, progress, batch0, before), fails[|fails| - 1]);
    }
  }

  /** The first running request is never evicted and is granted at least one token. */
  lemma HeadIsServed(c: Config, x: StepInputs, progress: map<Request, nat>, batch0: seq<Request>, fails: seq<nat>)
    requires Capacity(c) && Distinct(batch0) && batch0 != [] && fails != [] && fails[0] < |batch0|
    requires batch0[0] in progress && progress[batch0[0]] < Boundary(c, batch0[0])
    ensures var p := Run(c, x, progress, batch0, fails);
            p.batch != [] && p.batch[0] == batch0[0] && Tokens(p.granted, batch0[0]) > 0
  {
    var p := Run(c, x, progress, batch0, fails);
    RunSound(c, x, progress, batch0, fails);
    CursorPassesHead(c, x, progress, batch0, fails);
    FcfsRun(c, x, progress, batch0, fails);
    ServedRun(c, x, progress, batch0, fails);
    hide Run, ExactGrants, Boundary, KeepsOrder, BudgetKept;
    assert (p.batch + Reverse(p.evicted))[0] == batch0[0];
    assert p.batch[..p.idx][0] == p.batch[0];
    ElementsWithout(p.visited, Elements(p.evicted));
    assert p.batch[0] in Elements(p.batch[..p.idx]);
    assert Fed(c, progress, p.granted, p.batch[0]);
  }

  /** An instance with nothing running admits the queue head, which gets past its first token. */
  lemma {:induction false} HeadIsAdmitted(c: Config, x: StepInputs, progress: map<Request, nat>, a: Admission, vs: seq<Verdict>)
    requires Capacity(c) && x.resident.None? && x.polled == {} && NobodyAside(vs)
    requires a.batch == [] && a.queue != [] && a.skipped == 0 && a.budget == c.maxBatchedTokens && !a.closed
    requires a.reached == map[] && Distinct(a.queue)
    requires a.queue[0] in progress && !a.queue[0].isDecodeSub && FitsModel(c, a.queue[0]) && a.queue[0].InputLen() >= 1
    requires vs != [] && Serves(vs[0], a.queue[0])
    ensures var z := Admissions(c, x, progress, a, vs);
            z.batch != [] && z.batch[0] == a.queue[0] && a.queue[0] in z.reached && z.reached[a.queue[0]] >= 1
  {
    var h := a.queue[0];
    var before := vs[..|vs| - 1];
    if before == [] {
      assert vs[0] == vs[|vs| - 1];
      assert Admissions(c, x, progress, a, vs) == Consider(c, x, progress, a, vs[0]);
    } else {
      HeadIsAdmitted(c, x, progress, a, before);
      AdmissionKeepsLine(c, x, progress, a, before);
      ConsiderKeepsHead(c, x, progress, Admissions(c, x, progress, a, before), vs[|vs| - 1], h);
    }
  }

  lemma ConsiderKeepsHead(c: Config, x: StepInputs, progress: map<Request, nat>, a: Admission, v: Verdict, h: Request)
    requires a.batch != [] && a.batch[0] == h && h in a.reached && Distinct(a.batch + a.queue)
    ensures var z := Consider(c, x, progress, a, v);
            z.batch != [] && z.batch[0] == h && h in z.reached && z.reached[h] == a.reached[h]
  {
    hide TransferGrant, PrefillGrant;
    DistinctParts(a.batch, a.queue);
    assert h in a.batch;
  }

  predicate PlainWorld(w: World) {
    forall r :: r in w.arrived ==> !r.isDecodeSub && r.InputLen() >= 1
  }

  lemma LiveShortOfBoundary(c: Config, w: World, r: Request)
    requires Conserved(w) && Bounded(c, w) && PlainWorld(w) && r in Live(w)
    ensures r in w.progress && r in w.arrived && w.progress[r] < Boundary(c, r) && FitsModel(c, r)
    ensures r in w.waiting ==> w.progress[r] == 0
  {
    LiveIsDistinct(w);
    assert r in Elements(Live(w));
    assert r in Elements(w.arrived);
  }

  predicate HeadMoved(w: World, h: Request, a: Admission, progress: map<Request, nat>) {
    a.batch != [] && a.batch[0] == h && h in w.progress && h in progress && progress[h] > w.progress[h]
  }

  lemma RunningHeadMoves(c: Config, w: World, e: Event)
    requires Capacity(c) && Conserved(w) && Bounded(c, w) && PlainWorld(w)
    requires e.Step? && NeverRefusesAlone(w, e) && w.running != []
    ensures var a := AdmissionOf(c, FcfsOrder, w, e);
            HeadMoved(w, w.running[0], a, Advanced(w.progress, PassOf(c, w, e), a))
  {
    var h := w.running[0];
    LiveIsDistinct(w);
    DistinctParts(w.running, w.waiting);
    LiveShortOfBoundary(c, w, h);
    HeadIsServed(c, e.x, w.progress, w.running, e.fails);
    FormingPlaces(c, FcfsOrder, w, e);
    hide Run, Admissions, Boundary, Conserved, Bounded, PlainWorld;
    var p := PassOf(c, w, e);
    var a := AdmissionOf(c, FcfsOrder, w, e);
    DistinctParts(p.batch, a.admitted);
    assert h in p.batch && h in Elements(p.batch);
    assert h !in a.reached && h !in p.evicted;
  }

  lemma WaitingHeadMoves(c: Config, w: World, e: Event)
    requires Capacity(c) && Conserved(w) && Bounded(c, w) && PlainWorld(w)
    requires e.Step? && Plain(e) && NeverRefusesAlone(w, e) && w.running == [] && w.waiting != []
    ensures var a := AdmissionOf(c, FcfsOrder, w, e);
            HeadMoved(w, w.waiting[0], a, Advanced(w.progress, PassOf(c, w, e), a))
  {
    var h := w.waiting[0];
    LiveIsDistinct(w);
    DistinctParts(w.running, w.waiting);
    LiveShortOfBoundary(c, w, h);
    NothingToServe(c, e.x, w.progress, e.fails);
    IdleOpens(c, w.progress, w.waiting);
    hide Run, Admissions, Boundary, Conserved, Bounded, PlainWorld, Distinct, AfterEviction, Open;
    assert Ordered(FcfsOrder, w.waiting) == w.waiting;
    HeadIsAdmitted(c, e.x, w.progress, Open(Start(c, []), w.waiting), e.verdicts);
  }

  lemma IdleOpens(c: Config, progress: map<Request, nat>, queue: seq<Request>)
    ensures var p := Start(c, []);
            var a := Open(p, queue);
            && AfterEviction(progress, p.evicted) == progress
            && a == Admission([], queue, 0, c.maxBatchedTokens, [], map[], map[], map[], {}, false)
  {
  }

  /** In every step the head of the line stays at the head, with more progress. */
  lemma HeadMoves(c: Config, w: World, e: Event)
    requires Capacity(c) && Conserved(w) && Bounded(c, w) && PlainWorld(w)
    requires e.Step? && Plain(e) && NeverRefusesAlone(w, e) && Live(w) != []
    ensures var a := AdmissionOf(c, FcfsOrder, w, e);
            HeadMoved(w, Live(w)[0], a, Advanced(w.progress, PassOf(c, w, e), a))
  {
    hide HeadMoved;
    if w.running != [] {
      RunningHeadMoves(c, w, e);
    } else {
      WaitingHeadMoves(c, w, e);
    }
  }

  // ----- The bound -----

  function Backlog(c: Config, s: seq<Request>): nat {
    if s == [] then 0 else Boundary(c, s[0]) + Backlog(c, s[1..])
  }

  /** The first `n` arrivals that are still live. */
  function Pending(w: World, n: nat): seq<Request>
    requires n <= |w.arrived|
  {
    Without(w.arrived[..n], Gone(w))
  }

  /** Steps the first `n` arrivals may still take: their boundaries, less what the oldest has done. */
  function Work(c: Config, w: World, n: nat): int
    requires n <= |w.arrived|
  {
    var s := Pending(w, n);
    Backlog(c, s) - (if s != [] && s[0] in w.progress then w.progress[s[0]] else 0)
  }

  lemma {:induction false} BacklogWithout(c: Config, s: seq<Request>, gone: set<Request>)
    ensures Backlog(c, Without(s, gone)) <= Backlog(c, s)
    ensures s != [] && s[0] in gone ==> Backlog(c, Without(s, gone)) <= Backlog(c, s) - Boundary(c, s[0])
    ensures s != [] && s[0] !in gone ==> Without(s, gone) != [] && Without(s, gone)[0] == s[0]
  {
    if s != [] {
      BacklogWithout(c, s[1..], gone);
      assert ([s[0]] + Without(s[1..], gone))[1..] == Without(s[1..], gone);
      assert [] + Without(s[1..], gone) == Without(s[1..], gone);
    }
  }

  predicate Ready(c: Config, w: World, n: nat) {
    && Capacity(c) && Conserved(w) && Bounded(c, w) && PlainWorld(w)
    && Live(w) == Without(w.arrived, Gone(w)) && n <= |w.arrived|
  }

  lemma PendingIsFront(w: World, n: nat)
    requires n <= |w.arrived| && Live(w) == Without(w.arrived, Gone(w))
    ensures Pending(w, n) != [] ==> Live(w) != [] && Live(w)[0] == Pending(w, n)[0]
  {
    WithoutConcat(w.arrived[..n], w.arrived[n..], Gone(w));
    assert w.arrived == w.arrived[..n] + w.arrived[n..];
  }

  lemma PendingShrinks(w: World, z: World, n: nat, x: set<Request>)
    requires n <= |w.arrived| && z.arrived == w.arrived && Gone(z) == Gone(w) + x
    ensures Pending(z, n) == Without(Pending(w, n), x)
  {
    WithoutTwice(w.arrived[..n], Gone(w), x);
  }

  /** What leaving requests do to the remaining work, given what the head did. */
  lemma WorkShrinks(c: Config, w: World, z: World, n: nat, x: set<Request>, step: nat)
    requires n <= |w.arrived| && z.arrived == w.arrived && Gone(z) == Gone(w) + x && Pending(w, n) != []
    requires var h := Pending(w, n)[0];
             && h in w.progress && h in z.progress && w.progress[h] < Boundary(c, h)
             && (h !in x ==> z.progress[h] >= w.progress[h] + step) && step <= 1
    ensures Work(c, z, n) <= Work(c, w, n) - step
  {
    hide Boundary;
    PendingShrinks(w, z, n, x);
    BacklogWithout(c, Pending(w, n), x);
  }

  lemma StepDoesWork(c: Config, w: World, e: Event, n: nat)
    requires Ready(c, w, n) && e.Step? && Plain(e) && NeverRefusesAlone(w, e) && Pending(w, n) != []
    ensures var z := Next(c, FcfsOrder, w, e); n <= |z.arrived| && Work(c, z, n) <= Work(c, w, n) - 1
  {
    var z := Next(c, FcfsOrder, w, e);
    PendingIsFront(w, n);
    var h := Live(w)[0];
    LiveShortOfBoundary(c, w, h);
    HeadMoves(c, w, e);
    StepConserves(c, FcfsOrder, w, e);
    hide AdmissionOf, PassOf, Advanced, Work, Pending, Live, Conserved, Bounded, PlainWorld, FinishedIn;
    assert Gone(z) == Gone(w) + (z.completed - w.completed);
    WorkShrinks(c, w, z, n, z.completed - w.completed, 1);
  }

  lemma OtherEventsDoNoHarm(c: Config, w: World, e: Event, n: nat)
    requires Ready(c, w, n) && !e.Step? && Legal(c, w, e)
    ensures var z := Next(c, FcfsOrder, w, e);
            && n <= |z.arrived|
            && Work(c, z, n) <= Work(c, w, n)
            && (Pending(w, n) == [] ==> Pending(z, n) == [])
  {
    var z := Next(c, FcfsOrder, w, e);
    if e.Arrive? {
      assert z.arrived[..n] == w.arrived[..n];
      if Pending(w, n) != [] {
        PendingIsFront(w, n);
        LiveShortOfBoundary(c, w, Live(w)[0]);
        DistinctIdsGrow(w.arrived, e.r);
      }
    } else if e.r in Live(w) {
      PendingShrinks(w, z, n, {e.r});
      if Pending(w, n) != [] {
        PendingIsFront(w, n);
        LiveShortOfBoundary(c, w, Live(w)[0]);
        WorkShrinks(c, w, z, n, {e.r}, 0);
      }
    }
  }

  lemma NothingLeft(x: set<Request>)
    ensures Without([], x) == []
  {
  }

  lemma EmptyStaysEmpty(c: Config, w: World, e: Event, n: nat)
    requires Ready(c, w, n) && e.Step? && Pending(w, n) == []
    ensures var z := Next(c, FcfsOrder, w, e); n <= |z.arrived| && Pending(z, n) == []
  {
    hide AdmissionOf, PassOf, Advanced, FinishedIn, Conserved, Bounded, PlainWorld, Capacity, Without;
    var z := Next(c, FcfsOrder, w, e);
    StepConserves(c, FcfsOrder, w, e);
    NothingLeft(z.completed - w.completed);
    assert Gone(z) == Gone(w) + (z.completed - w.completed);
    PendingShrinks(w, z, n, z.completed - w.completed);
  }

  function Steps(events: seq<Event>): nat {
    if events == [] then 0 else (if events[|events| - 1].Step? then 1 else 0) + Steps(events[..|events| - 1])
  }

  /** A run of plain requests whose store never refuses a lone request. */
  predicate PlainRun(c: Config, events: seq<Event>) {
    && LegalRun(c, FcfsOrder, events)
    && (forall i :: 0 <= i < |events| ==> Plain(events[i]))
    && (forall i :: 0 <= i < |events| ==> NeverRefusesAlone(After(c, FcfsOrder, events[..i]), events[i]))
  }

  lemma PlainPrefix(c: Config, events: seq<Event>)
    requires PlainRun(c, events) && events != []
    ensures PlainRun(c, events[..|events| - 1])
  {
    var before := events[..|events| - 1];
    assert forall i :: 0 <= i < |before| ==> before[i] == events[i] && before[..i] == events[..i];
  }

  lemma {:induction false} PlainRunReady(c: Config, events: seq<Event>)
    requires Capacity(c) && PlainRun(c, events)
    ensures Ready(c, After(c, FcfsOrder, events), 0)
  {
    RunConserves(c, FcfsOrder, events);
    RunBounded(c, FcfsOrder, events);
    FcfsIsArrivalOrder(c, events);
    PlainArrivals(c, events);
  }

  lemma {:induction false} PlainArrivals(c: Config, events: seq<Event>)
    requires PlainRun(c, events)
    ensures PlainWorld(After(c, FcfsOrder, events))
  {
    if events != [] {
      PlainPrefix(c, events);
      PlainArrivals(c, events[..|events| - 1]);
      hide PassOf, AdmissionOf, NeverRefusesAlone;
      var e := events[|events| - 1];
      assert Plain(e);
    }
  }

  /** The first `n` arrivals of `events[..m]` lose at least one unit of work in every later step. */
  lemma {:induction false} WorkIsDone(c: Config, events: seq<Event>, m: nat, n: nat)
    requires Capacity(c) && PlainRun(c, events) && m <= |events|
    requires n <= |After(c, FcfsOrder, events[..m]).arrived|
    ensures var w := After(c, FcfsOrder, events);
            && n <= |w.arrived|
            && (Pending(w, n) == [] ||
                Work(c, w, n) + Steps(events) <= Work(c, After(c, FcfsOrder, events[..m]), n) + Steps(events[..m]))
    decreases |events|
  {
    if m == |events| {
      assert events[..m] == events;
    } else {
      var before, e := events[..|events| - 1], events[|events| - 1];
      PlainPrefix(c, events);
      assert before[..m] == events[..m];
      WorkIsDone(c, before, m, n);
      var w := After(c, FcfsOrder, before);
      PlainRunReady(c, before);
      assert NeverRefusesAlone(After(c, FcfsOrder, events[..|events| - 1]), e) && Plain(e);
      WorkStep(c, w, e, n);
    }
  }

  lemma WorkStep(c: Config, w: World, e: Event, n: nat)
    requires Ready(c, w, n) && Plain(e) && NeverRefusesAlone(w, e) && Legal(c, w, e)
    ensures var z := Next(c, FcfsOrder, w, e);
            && n <= |z.arrived|
            && (Pending(w, n) == [] ==> Pending(z, n) == [])
            && (Pending(w, n) != [] ==> Work(c, z, n) <= Work(c, w, n) - (if e.Step? then 1 else 0))
  {
    hide Next, Work, Pending, Plain, NeverRefusesAlone, Legal;
    if !e.Step? {
      OtherEventsDoNoHarm(c, w, e, n);
    } else if Pending(w, n) == [] {
      EmptyStaysEmpty(c, w, e, n);
    } else {
      StepDoesWork(c, w, e, n);
    }
  }

  /** No starvation. Take any moment `m` of any such run and the first `n` requests that arrived before
      it: once as many further steps have run as the boundaries of those still live add up to, all `n`
      have left the instance. Later arrivals, timeouts, preemptions and the KV store's answers to
      anybody who is not alone cannot delay them. */
  lemma EveryoneLeaves(c: Config, events: seq<Event>, m: nat, n: nat)
    requires Capacity(c) && PlainRun(c, events) && m <= |events|
    requires n <= |After(c, FcfsOrder, events[..m]).arrived|
    requires Steps(events) - Steps(events[..m]) >= Backlog(c, Pending(After(c, FcfsOrder, events[..m]), n))
    ensures var w := After(c, FcfsOrder, events);
            n <= |w.arrived| && forall r :: r in w.arrived[..n] ==> r in Gone(w)
  {
    WorkIsDone(c, events, m, n);
    PlainRunReady(c, events);
    hide After, PlainRun, Conserved, Bounded, PlainWorld, Boundary;
    var w, w0 := After(c, FcfsOrder, events), After(c, FcfsOrder, events[..m]);
    assert Work(c, w0, n) <= Backlog(c, Pending(w0, n));
    if Pending(w, n) != [] {
      PendingIsFront(w, n);
      LiveShortOfBoundary(c, w, Live(w)[0]);
      WorkIsPositive(c, w, n);
    }
    NobodyPending(w, n);
  }

  lemma NobodyPending(w: World, n: nat)
    requires n <= |w.arrived| && Pending(w, n) == []
    ensures forall r :: r in w.arrived[..n] ==> r in Gone(w)
  {
    ElementsWithout(w.arrived[..n], Gone(w));
    assert Elements(Pending(w, n)) == {};
    forall r | r in w.arrived[..n] ensures r in Gone(w) {
      assert r in Elements(w.arrived[..n]) - Gone(w) || r in Gone(w);
    }
  }

  lemma WorkIsPositive(c: Config, w: World, n: nat)
    requires n <= |w.arrived| && Pending(w, n) != []
    requires var h := Pending(w, n)[0]; h in w.progress && w.progress[h] < Boundary(c, h)
    ensures Work(c, w, n) > 0
  {
  }
}
