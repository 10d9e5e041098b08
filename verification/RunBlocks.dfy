/** KV blocks over whole runs: how many tokens the blocks of every request hold, against its progress. */
module RunBlocks {
  import opened Requests
  import opened Sequences
  import opened Limits
  import opened RunningPass
  import opened RunningPassOrder
  import opened AdmissionPass
  import opened Scheduler
  import opened Runs
  import opened RunPlaces
  import opened RunBounds

  /** Tokens in blocks after a step: victims and the finished give theirs back, the others have what was
      written for them on top. */
  function Charge(w: World, p: Pass, a: Admission, had: nat, r: Request): nat {
    if r in p.evicted || r !in w.progress then 0
    else if r in a.from && r in a.reached && a.from[r] <= a.reached[r] then had + Deposit(r, w.progress[r], a.from[r], a.reached[r])
    else if r in p.granted then had + Written(r, w.progress[r], p.granted[r])
    else had
  }

  /** Tokens in blocks after an event. A transferred request brings the blocks of its prompt. */
  function NextBacking(c: Config, order: QueueOrder, w: World, had: map<Request, nat>, e: Event): map<Request, nat> {
    match e
    case Arrive(r, progress) => had[r := progress]
    case TimeOut(r) => if r in Live(w) then had[r := 0] else had
    case Step(_, _, _) =>
      var p, a := PassOf(c, w, e), AdmissionOf(c, order, w, e);
      var done := Next(c, order, w, e).completed - w.completed;
      map r | r in had :: if r in done then 0 else Charge(w, p, a, had[r], r)
  }

  function Backing(c: Config, order: QueueOrder, events: seq<Event>): map<Request, nat> {
    if events == [] then map[]
    else
      var front, e := events[..|events| - 1], events[|events| - 1];
      NextBacking(c, order, After(c, order, front), Backing(c, order, front), e)
  }

  /** An empty prompt is given a token of blocks on admission (sim/kv/cache.go:227-229). */
  function Slack(r: Request): nat {
    if r.InputLen() == 0 && !r.isDecodeSub then 1 else 0
  }

  /** Who holds blocks, and at most how many tokens they hold. */
  predicate WithinProgress(w: World, had: map<Request, nat>) {
    && had.Keys == Elements(w.arrived)
    && (forall r :: r in had && r !in w.running && !(r.isDecodeSub && r in w.waiting) ==> had[r] == 0)
    && (forall r :: r in had ==> r in w.progress && had[r] <= w.progress[r] + Slack(r))
  }

  // ----- What one step grants -----

  /** The allocations of an admission: a transferred request goes on from its progress, a new one is taken
      within its prompt. */
  predicate Spans(progress: map<Request, nat>, a: Admission) {
    forall r :: r in a.reached ==> Spanned(progress, a, r)
  }

  predicate Spanned(progress: map<Request, nat>, a: Admission, r: Request) {
    && r in a.reached && r in a.from && r in a.granted && r in progress && a.from[r] <= a.reached[r]
    && (if r.isDecodeSub then a.from[r] == progress[r] && a.reached[r] == progress[r] + a.granted[r] && a.granted[r] >= 1
        else a.reached[r] <= r.InputLen())
  }

  lemma ConsiderSpans(c: Config, x: StepInputs, progress: map<Request, nat>, a: Admission, v: Verdict)
    requires Spans(progress, a)
    ensures Spans(progress, Consider(c, x, progress, a, v))
  {
    hide TransferGrant, PrefillGrant, RemoveAt;
    var z := Consider(c, x, progress, a, v);
    if z.reached != a.reached {
      var r := a.queue[a.skipped];
      if !r.isDecodeSub {
        PrefillWithinPrompt(c, r, v.start, a.budget);
      }
      assert Spanned(progress, z, r);
      forall s | s in z.reached && s != r ensures Spanned(progress, z, s) {
        assert Spanned(progress, a, s);
      }
    }
  }

  lemma PrefillWithinPrompt(c: Config, r: Request, progress: nat, budget: nat)
    requires progress <= r.InputLen()
    ensures progress + PrefillGrant(c, r, progress, budget) <= r.InputLen()
  {
  }

  lemma {:induction false} AdmissionsSpan(c: Config, x: StepInputs, progress: map<Request, nat>, a: Admission, vs: seq<Verdict>)
    requires Spans(progress, a)
    ensures Spans(progress, Admissions(c, x, progress, a, vs))
  {
    hide Consider, Spans;
    if vs != [] {
      AdmissionsSpan(c, x, progress, a, vs[..|vs| - 1]);
      ConsiderSpans(c, x, progress, Admissions(c, x, progress, a, vs[..|vs| - 1]), vs[|vs| - 1]);
    }
  }

  /** What a step grants a request of the running batch is positive. */
  lemma GrantsArePositive(c: Config, w: World, e: Event, r: Request)
    requires Conserved(w) && Bounded(c, w) && e.Step?
    ensures var p := PassOf(c, w, e); r in p.granted ==> r in p.batch && p.granted[r] > 0
  {
    hide Run, Boundary;
    var p := PassOf(c, w, e);
    LiveIsDistinct(w);
    DistinctParts(w.running, w.waiting);
    RunSound(c, e.x, w.progress, w.running, e.fails);
    ServedRun(c, e.x, w.progress, w.running, e.fails);
    ElementsWithout(p.visited, Elements(p.evicted));
    assert Sound(c, w.running, p);
    hide Conserved;
    if r in p.granted {
      assert r in p.batch[..p.idx];
      assert r in Elements(p.batch[..p.idx]);
      assert Fed(c, w.progress, p.granted, r);
      ElementsWithout(w.running, Elements(p.evicted));
      assert r in Elements(p.batch);
      assert r in w.running;
    }
  }

  /** The tokens a step grants `r`, and those written for it. */
  lemma StepGrants(c: Config, order: QueueOrder, w: World, e: Event, r: Request)
    requires Conserved(w) && Bounded(c, w) && e.Step? && r in w.arrived
    ensures var p := PassOf(c, w, e);
            var a := AdmissionOf(c, order, w, e);
            && r in w.progress && Placed(w, p, a, r)
            && (r in p.granted ==> r in p.batch && p.granted[r] > 0)
            && (r in a.admitted ==>
                  && a.from[r] <= a.reached[r]
                  && (if r.isDecodeSub then a.from[r] == w.progress[r] && a.reached[r] == w.progress[r] + a.granted[r] && a.granted[r] >= 1
                      else w.progress[r] == 0 && a.reached[r] <= r.InputLen()))
  {
    var p := PassOf(c, w, e);
    StepPlaces(c, order, w, e, r);
    GrantsArePositive(c, w, e, r);
    hide Run, Conserved;
    AdmissionsSpan(c, e.x, AfterEviction(w.progress, p.evicted), Open(p, Ordered(order, w.waiting)), e.verdicts);
    hide Admissions, Ordered;
  }

  // ----- When blocks keep up with progress -----

  /** One step writes every token that `r` progresses by: a prefill chunk always is, a decode grant if it is a
      single token, and an admission if it writes anything, or if nothing was credited to begin with. */
  predicate ExactStep(w: World, p: Pass, a: Admission, r: Request) {
    if r in a.from && r in a.reached && r in a.granted then
      if r.isDecodeSub then r in w.progress && (w.progress[r] < r.InputLen() || a.granted[r] == 1)
      else r.InputLen() == 0 || a.from[r] < a.reached[r] || a.from[r] == 0
    else r in p.granted ==> r in w.progress && (w.progress[r] < r.InputLen() || p.granted[r] == 1)
  }

  /** Every step since `r` last began with no blocks, or with the blocks of its transferred prompt, was exact. */
  predicate Exact(c: Config, order: QueueOrder, events: seq<Event>, r: Request) {
    events == [] ||
    var front, e := events[..|events| - 1], events[|events| - 1];
    match e
    case Arrive(q, _) => q == r || Exact(c, order, front, r)
    case TimeOut(_) => Exact(c, order, front, r)
    case Step(_, _, _) =>
      var w := After(c, order, front);
      var p, a := PassOf(c, w, e), AdmissionOf(c, order, w, e);
      r in p.evicted
      || ((Exact(c, order, front, r) || (r in a.admitted && !r.isDecodeSub)) && ExactStep(w, p, a, r))
  }

  /** The blocks of `r` hold at most its progress, and exactly that if `exact`. */
  predicate Kept(w: World, had: map<Request, nat>, exact: bool, r: Request) {
    && r in had && r in w.progress && had[r] <= w.progress[r] + Slack(r)
    && (had[r] == w.progress[r] + Slack(r) <==> exact)
  }

  /** A request that may hold blocks. */
  predicate Holder(w: World, r: Request) {
    r in w.running || (r.isDecodeSub && r in w.waiting)
  }

  /** What one step does to the blocks of one request. */
  lemma StepKeeps(c: Config, order: QueueOrder, w: World, had: map<Request, nat>, e: Event, r: Request, exact: bool)
    requires Conserved(w) && Bounded(c, w) && e.Step? && r in w.arrived && WithinProgress(w, had)
    requires Holder(w, r) ==> Kept(w, had, exact, r)
    ensures var p, a := PassOf(c, w, e), AdmissionOf(c, order, w, e);
            var z := Next(c, order, w, e);
            var now := NextBacking(c, order, w, had, e);
            && r in now && r in z.progress && now[r] <= z.progress[r] + Slack(r)
            && (!Holder(z, r) ==> now[r] == 0)
            && (Holder(z, r) ==> Kept(z, now, r in p.evicted || ((exact || (r in a.admitted && !r.isDecodeSub)) && ExactStep(w, p, a, r)), r))
  {
    hide PassOf, AdmissionOf, Finished, Conserved, Bounded;
    StepGrants(c, order, w, e, r);
    StepHolders(c, order, w, e, r);
  }

  /** Who may hold blocks after a step. */
  lemma StepHolders(c: Config, order: QueueOrder, w: World, e: Event, r: Request)
    requires Conserved(w) && e.Step? && r in w.arrived
    ensures var p, a := PassOf(c, w, e), AdmissionOf(c, order, w, e);
            var z := Next(c, order, w, e);
            var done := z.completed - w.completed;
            && r in z.progress
            && (r in done ==> r in a.batch && !Holder(z, r))
            && (r in z.running <==> r in a.batch && r !in done)
            && (r in z.waiting ==> r !in a.batch && (r in w.waiting || r in p.evicted))
            && (r in p.evicted ==> r in z.waiting && z.progress[r] == 0)
            && (Holder(w, r) && !Holder(z, r) ==> r in done || (r in p.evicted && !r.isDecodeSub))
  {
    hide PassOf, AdmissionOf, Finished, Conserved;
    var p, a := PassOf(c, w, e), AdmissionOf(c, order, w, e);
    var z := Next(c, order, w, e);
    StepPlaces(c, order, w, e, r);
    StepConserves(c, order, w, e);
    FormingPlaces(c, order, w, e);
    ElementsWithout(a.batch, z.completed - w.completed);
    MemberByElements(z.running, r);
    MemberByElements(a.batch, r);
    MemberByElements(a.queue, r);
    MemberByElements(p.evicted, r);
    MemberByElements(w.arrived, r);
    LiveByElements(w, r);
    LiveByElements(z, r);
  }

  lemma LiveByElements(w: World, r: Request)
    requires Conserved(w) && r in w.arrived
    ensures r in w.running || r in w.waiting <==> r !in Gone(w)
    ensures !(r in w.running && r in w.waiting) && r in w.progress
  {
    LiveIsDistinct(w);
    DistinctParts(w.running, w.waiting);
    ElementsConcat(w.running, w.waiting);
    MemberByElements(w.arrived, r);
    MemberByElements(w.running, r);
    MemberByElements(w.waiting, r);
    MemberByElements(Live(w), r);
  }

  /** Over any event, for one request. */
  lemma NextKeeps(c: Config, order: QueueOrder, w: World, had: map<Request, nat>, e: Event, r: Request, exact: bool)
    requires Conserved(w) && Bounded(c, w) && Legal(c, w, e) && WithinProgress(w, had) && !e.Step?
    requires r in w.arrived && (Holder(w, r) ==> Kept(w, had, exact, r))
    ensures var z := Next(c, order, w, e);
            var now := NextBacking(c, order, w, had, e);
            && r in now && r in z.progress && now[r] <= z.progress[r] + Slack(r)
            && (!Holder(z, r) ==> now[r] == 0)
            && (Holder(z, r) ==> Kept(z, now, exact, r))
  {
    MemberByElements(w.arrived, r);
    hide Bounded;
    LiveByElements(w, r);
    if e.TimeOut? {
      ElementsWithout(w.running, {e.r});
      ElementsWithout(w.waiting, {e.r});
      MemberByElements(w.running, r);
      MemberByElements(w.waiting, r);
      MemberByElements(Without(w.running, {e.r}), r);
      MemberByElements(Without(w.waiting, {e.r}), r);
      hide Without, Elements, Conserved;
    } else {
      NewcomerIsNew(c, w, e);
    }
  }

  /** The newcomer itself. */
  lemma ArrivalKept(c: Config, order: QueueOrder, w: World, had: map<Request, nat>, e: Event)
    requires Conserved(w) && Legal(c, w, e) && e.Arrive? && WithinProgress(w, had)
    ensures var z := Next(c, order, w, e);
            var now := NextBacking(c, order, w, had, e);
            && e.r in now && e.r in z.progress && now[e.r] == z.progress[e.r]
            && (!Holder(z, e.r) ==> now[e.r] == 0) && e.r !in z.running
  {
    NewcomerIsNew(c, w, e);
  }

  /** At every reachable state the blocks of a request hold at most its progress; and whoever is neither
      running nor a transferred request has none. */
  lemma {:induction false} RunBacking(c: Config, order: QueueOrder, events: seq<Event>)
    requires LegalRun(c, order, events)
    ensures WithinProgress(After(c, order, events), Backing(c, order, events))
    ensures forall r :: r in After(c, order, events).arrived && Holder(After(c, order, events), r) ==>
              Kept(After(c, order, events), Backing(c, order, events), Exact(c, order, events, r), r)
  {
    if events != [] {
      var front, e := events[..|events| - 1], events[|events| - 1];
      var w, had := After(c, order, front), Backing(c, order, front);
      RunBacking(c, order, front);
      RunConserves(c, order, front);
      RunBounded(c, order, front);
      BackingMoves(c, order, front, e);
    }
  }

  lemma BackingMoves(c: Config, order: QueueOrder, front: seq<Event>, e: Event)
    requires var w, had := After(c, order, front), Backing(c, order, front);
             && Conserved(w) && Bounded(c, w) && Legal(c, w, e) && WithinProgress(w, had)
             && forall r :: r in w.arrived && Holder(w, r) ==> Kept(w, had, Exact(c, order, front, r), r)
    ensures var events := front + [e];
            && WithinProgress(After(c, order, events), Backing(c, order, events))
            && forall r :: r in After(c, order, events).arrived && Holder(After(c, order, events), r) ==>
                 Kept(After(c, order, events), Backing(c, order, events), Exact(c, order, events, r), r)
  {
    hide Conserved, Bounded, Legal, After, Backing, Next, NextBacking, WithinProgress, Exact, Kept, Holder;
    var events := front + [e];
    var w, had := After(c, order, front), Backing(c, order, front);
    var z, now := Next(c, order, w, e), NextBacking(c, order, w, had, e);
    Unrolled(c, order, front, e);
    BackingKeys(c, order, w, had, e);
    forall r | r in z.arrived
      ensures r in now && r in z.progress && now[r] <= z.progress[r] + Slack(r) && (!Holder(z, r) ==> now[r] == 0)
      ensures Holder(z, r) ==> Kept(z, now, Exact(c, order, events, r), r)
    {
      BackingMovesOf(c, order, front, e, r);
    }
    AllWithin(z, now);
  }

  /** One event more. */
  lemma Unrolled(c: Config, order: QueueOrder, front: seq<Event>, e: Event)
    ensures After(c, order, front + [e]) == Next(c, order, After(c, order, front), e)
    ensures Backing(c, order, front + [e]) == NextBacking(c, order, After(c, order, front), Backing(c, order, front), e)
  {
    hide Next, NextBacking;
    assert (front + [e])[..|front + [e]| - 1] == front;
  }

  lemma BackingMovesOf(c: Config, order: QueueOrder, front: seq<Event>, e: Event, r: Request)
    requires var w, had := After(c, order, front), Backing(c, order, front);
             && Conserved(w) && Bounded(c, w) && Legal(c, w, e) && WithinProgress(w, had)
             && (r in w.arrived && Holder(w, r) ==> Kept(w, had, Exact(c, order, front, r), r))
    requires r in Next(c, order, After(c, order, front), e).arrived
    ensures var w, had := After(c, order, front), Backing(c, order, front);
            var z, now := Next(c, order, w, e), NextBacking(c, order, w, had, e);
            && r in now && r in z.progress && now[r] <= z.progress[r] + Slack(r)
            && (!Holder(z, r) ==> now[r] == 0)
            && (Holder(z, r) ==> Kept(z, now, Exact(c, order, front + [e], r), r))
  {
    hide Conserved, Bounded, Legal, After, Backing, Next, NextBacking, WithinProgress;
    assert (front + [e])[..|front + [e]| - 1] == front;
    var w, had := After(c, order, front), Backing(c, order, front);
    BackingKeys(c, order, w, had, e);
    if e.Arrive? { NewcomerIsNew(c, w, e); }
    if e.Step? {
      StepKeeps(c, order, w, had, e, r, Exact(c, order, front, r));
    } else if r in w.arrived {
      NextKeeps(c, order, w, had, e, r, Exact(c, order, front, r));
    } else {
      ArrivalKept(c, order, w, had, e);
    }
  }

  lemma AllWithin(z: World, now: map<Request, nat>)
    requires now.Keys == Elements(z.arrived)
    requires forall r :: r in z.arrived ==>
               r in now && r in z.progress && now[r] <= z.progress[r] + Slack(r) && (!Holder(z, r) ==> now[r] == 0)
    ensures WithinProgress(z, now)
  {
    assert forall r :: r in now ==> r in z.arrived;
  }

  lemma BackingKeys(c: Config, order: QueueOrder, w: World, had: map<Request, nat>, e: Event)
    requires WithinProgress(w, had) && Conserved(w)
    ensures NextBacking(c, order, w, had, e).Keys == Elements(Next(c, order, w, e).arrived)
    ensures forall r :: r in Next(c, order, w, e).arrived ==> r in w.arrived || (e.Arrive? && r == e.r)
    ensures e.Step? || e.TimeOut? ==> Next(c, order, w, e).arrived == w.arrived
  {
    hide PassOf, AdmissionOf, FinishedIn, Advanced, Charge, Without;
    match e
    case Arrive(r, _) =>
      ElementsConcat(w.arrived, [r]);
      ElementsOfOne(r);
    case TimeOut(r) =>
      LiveIsDistinct(w);
      MemberByElements(Live(w), r);
      hide Elements, Live;
    case Step(_, _, _) => hide Elements, Conserved;
  }

  /** At every reachable state the blocks of a running request hold at most its progress, and exactly its
      progress if and only if every step since its admission was exact. */
  lemma BlocksHoldProgress(c: Config, order: QueueOrder, events: seq<Event>, r: Request)
    requires LegalRun(c, order, events) && r in After(c, order, events).running
    ensures var w, had := After(c, order, events), Backing(c, order, events);
            && r in had && r in w.progress && had[r] <= w.progress[r] + Slack(r)
            && (had[r] == w.progress[r] + Slack(r) <==> Exact(c, order, events, r))
  {
    RunBacking(c, order, events);
    RunConserves(c, order, events);
    var w := After(c, order, events);
    LiveIsDistinct(w);
    ElementsConcat(w.running, w.waiting);
    MemberByElements(w.arrived, r);
    MemberByElements(w.running, r);
    assert Kept(w, Backing(c, order, events), Exact(c, order, events, r), r);
  }

  // ----- Without speculation and shared prefixes -----

  /** No speculative proposals, and no prefix in shared blocks. */
  predicate Ordinary(e: Event) {
    e.Step? ==> e.x.proposals.None? && forall v :: v in e.verdicts && v.Allocated? ==> v.cached == 0
  }

  predicate SingleDecodes(progress: map<Request, nat>, granted: map<Request, nat>) {
    forall r :: r in granted && r in progress && progress[r] >= r.InputLen() ==> granted[r] <= 1
  }

  lemma {:induction false} RunSingle(c: Config, x: StepInputs, progress: map<Request, nat>, batch: seq<Request>, fails: seq<nat>)
    requires x.proposals.None?
    ensures SingleDecodes(progress, Run(c, x, progress, batch, fails).granted)
  {
    hide EvictFor;
    if fails != [] {
      var p := Run(c, x, progress, batch, fails[..|fails| - 1]);
      RunSingle(c, x, progress, batch, fails[..|fails| - 1]);
      if !Over(p) && p.batch[p.idx] in progress {
        EvictForFrame(c.policy, p, p.batch[p.idx], fails[|fails| - 1]);
      }
    }
  }

  /** Plain requests are admitted from the start of their prompt, transferred ones by a single token. */
  predicate FromScratch(a: Admission) {
    && (forall r :: r in a.from && !r.isDecodeSub ==> a.from[r] == 0)
    && (forall r :: r in a.granted && r.isDecodeSub ==> a.granted[r] <= 1)
  }

  lemma ConsiderFromScratch(c: Config, x: StepInputs, progress: map<Request, nat>, a: Admission, v: Verdict)
    requires FromScratch(a) && x.proposals.None? && (v.Allocated? ==> v.cached == 0)
    ensures FromScratch(Consider(c, x, progress, a, v))
  {
    hide PrefillGrant;
  }

  lemma {:induction false} AdmissionsFromScratch(c: Config, x: StepInputs, progress: map<Request, nat>, a: Admission, vs: seq<Verdict>)
    requires FromScratch(a) && x.proposals.None? && forall v :: v in vs && v.Allocated? ==> v.cached == 0
    ensures FromScratch(Admissions(c, x, progress, a, vs))
  {
    hide Consider, FromScratch;
    if vs != [] {
      AdmissionsFromScratch(c, x, progress, a, vs[..|vs| - 1]);
      ConsiderFromScratch(c, x, progress, Admissions(c, x, progress, a, vs[..|vs| - 1]), vs[|vs| - 1]);
    }
  }

  /** Then every run is exact: blocks always hold exactly the progress. */
  lemma {:induction false} OrdinaryIsExact(c: Config, order: QueueOrder, events: seq<Event>, r: Request)
    requires LegalRun(c, order, events) && forall i :: 0 <= i < |events| ==> Ordinary(events[i])
    requires r in After(c, order, events).arrived
    ensures Exact(c, order, events, r)
  {
    hide Next;
    if events != [] {
      var front, e := events[..|events| - 1], events[|events| - 1];
      var w := After(c, order, front);
      assert forall i :: 0 <= i < |front| ==> front[i] == events[i];
      RunConserves(c, order, front);
      RunBounded(c, order, front);
      ArrivedBefore(c, order, w, e);
      if r in w.arrived {
        OrdinaryIsExact(c, order, front, r);
        assert Ordinary(e);
        if e.Step? { OrdinaryStepIsExact(c, order, w, e, r); }
      }
    }
  }

  lemma ArrivedBefore(c: Config, order: QueueOrder, w: World, e: Event)
    ensures forall r :: r in Next(c, order, w, e).arrived ==> r in w.arrived || (e.Arrive? && e.r == r)
  {
  }

  lemma OrdinaryStepIsExact(c: Config, order: QueueOrder, w: World, e: Event, r: Request)
    requires Conserved(w) && Bounded(c, w) && e.Step? && Ordinary(e) && r in w.arrived
    ensures ExactStep(w, PassOf(c, w, e), AdmissionOf(c, order, w, e), r)
  {
    var p := PassOf(c, w, e);
    StepGrants(c, order, w, e, r);
    RunSingle(c, e.x, w.progress, w.running, e.fails);
    hide Run, Conserved, Bounded;
    AdmissionsFromScratch(c, e.x, AfterEviction(w.progress, p.evicted), Open(p, Ordered(order, w.waiting)), e.verdicts);
    hide Admissions, Ordered;
  }

  // ----- How they fall behind -----

  /** One request, just queued. */
  function JustQueued(r: Request): World {
    World([], [r], map[r := 0], [r], {}, {})
  }

  /** It runs, `progress` tokens in. */
  function AloneAt(r: Request, progress: nat): World {
    World([r], [], map[r := progress], [r], {}, {})
  }

  lemma AloneArrives(c: Config, r: Request)
    requires c.maxModelLen == 0 && !r.isDecodeSub
    ensures LegalRun(c, FcfsOrder, [Arrive(r, 0)])
    ensures After(c, FcfsOrder, [Arrive(r, 0)]) == JustQueued(r) && Backing(c, FcfsOrder, [Arrive(r, 0)]) == map[r := 0]
  {
    var events := [Arrive(r, 0)];
    assert events[..|events| - 1] == [];
    assert After(c, FcfsOrder, []) == Empty && Backing(c, FcfsOrder, []) == map[];
    assert Ids([]) == {};
  }

  /** Its admission, `cached` tokens of its 16 in shared blocks. */
  lemma AloneScanned(c: Config, r: Request, x: StepInputs, cached: nat)
    requires c.maxBatchedTokens >= 16 && c.maxSeqs >= 1 && c.prefillThreshold == 0 && c.maxModelLen == 0
    requires |r.inputTokens| == 16 && !r.isDecodeSub && x == StepInputs(None, None, {}) && cached <= 16
    ensures var e := Event.Step(x, [], [Allocated(cached, cached)]);
            var p, a := PassOf(c, JustQueued(r), e), AdmissionOf(c, FcfsOrder, JustQueued(r), e);
            && p == RunningPass.Start(c, [])
            && a.batch == [r] && a.queue == [] && a.reached == map[r := 16] && a.from == map[r := cached]
  {
    var e := Event.Step(x, [], [Allocated(cached, cached)]);
    var w := JustQueued(r);
    var p := PassOf(c, w, e);
    assert p == RunningPass.Start(c, []);
    var progress := AfterEviction(w.progress, p.evicted);
    assert progress == map[r := 0];
    var a0 := Open(p, Ordered(FcfsOrder, w.waiting));
    assert a0.queue == [r];
    var vs := e.verdicts;
    assert vs[..|vs| - 1] == [];
    assert Admissions(c, x, progress, a0, vs) == Consider(c, x, progress, a0, vs[0]);
    assert AdmissionOf(c, FcfsOrder, w, e) == Admit(a0, r, 16 - cached, 16, cached);
    assert RemoveAt([r], 0) == [];
  }

  lemma AloneAdmitted(c: Config, r: Request, x: StepInputs, cached: nat)
    requires c.maxBatchedTokens >= 16 && c.maxSeqs >= 1 && c.prefillThreshold == 0 && c.maxModelLen == 0
    requires |r.inputTokens| == 16 && |r.outputTokens| == 100 && !r.isDecodeSub && x == StepInputs(None, None, {}) && cached <= 16
    ensures var e := Event.Step(x, [], [Allocated(cached, cached)]);
            && Next(c, FcfsOrder, JustQueued(r), e) == AloneAt(r, 16)
            && NextBacking(c, FcfsOrder, JustQueued(r), map[r := 0], e) == map[r := if cached < 16 then 16 else 0]
  {
    AloneScanned(c, r, x, cached);
    hide PassOf, AdmissionOf;
    var e := Event.Step(x, [], [Allocated(cached, cached)]);
    var w := JustQueued(r);
    var p, a := PassOf(c, w, e), AdmissionOf(c, FcfsOrder, w, e);
    assert Advanced(w.progress, p, a) == map[r := 16];
    var z := Next(c, FcfsOrder, w, e);
    assert FinishedIn(c, a.batch, z.progress) == {};
    WithoutAbsent([r], {});
  }

  /** A decode step that is granted 20 tokens. */
  lemma AloneDecodes(c: Config, r: Request, y: StepInputs)
    requires c.policy == Fcfs && c.maxBatchedTokens >= 20 && c.maxSeqs >= 1 && c.maxModelLen == 0
    requires |r.inputTokens| == 16 && |r.outputTokens| == 100 && y == StepInputs(Some(q => 20), None, {})
    ensures var e := Event.Step(y, [0], []);
            && Next(c, FcfsOrder, AloneAt(r, 16), e) == AloneAt(r, 36)
            && NextBacking(c, FcfsOrder, AloneAt(r, 16), map[r := 16], e) == map[r := 17]
  {
    var e := Event.Step(y, [0], []);
    var w := AloneAt(r, 16);
    var fails: seq<nat> := [0];
    assert fails[..|fails| - 1] == [];
    assert Run(c, y, w.progress, [r], []) == RunningPass.Start(c, [r]);
    assert Run(c, y, w.progress, [r], fails) == Visit(c, y, w.progress, RunningPass.Start(c, [r]), 0);
    var p := PassOf(c, w, e);
    assert EvictFor(Fcfs, RunningPass.Start(c, [r]), r, 0) == RunningPass.Start(c, [r]);
    assert p.batch == [r] && p.evicted == [] && p.granted == map[r := 20];
    var a := AdmissionOf(c, FcfsOrder, w, e);
    assert a == Open(p, []);
    assert Reverse<Request>([]) + [] == [];
    assert Advanced(w.progress, p, a) == map[r := 36];
    var z := Next(c, FcfsOrder, w, e);
    assert FinishedIn(c, a.batch, z.progress) == {};
    WithoutAbsent([r], {});
  }

  /** A multi-token decode grant: 36 tokens computed, 17 in blocks, so two blocks of 16 stand for 36 tokens. */
  lemma SpeculationOutrunsBlocks(c: Config, r: Request, x: StepInputs, y: StepInputs)
    requires c.policy == Fcfs && c.maxBatchedTokens >= 20 && c.maxSeqs >= 1 && c.prefillThreshold == 0 && c.maxModelLen == 0
    requires |r.inputTokens| == 16 && |r.outputTokens| == 100 && !r.isDecodeSub
    requires x == StepInputs(None, None, {}) && y == StepInputs(Some(q => 20), None, {})
    ensures var events := [Arrive(r, 0), Event.Step(x, [], [Allocated(0, 0)]), Event.Step(y, [0], [])];
            && LegalRun(c, FcfsOrder, events)
            && After(c, FcfsOrder, events) == AloneAt(r, 36) && Backing(c, FcfsOrder, events) == map[r := 17]
  {
    AloneArrives(c, r);
    AloneAdmitted(c, r, x, 0);
    AloneDecodes(c, r, y);
    hide Next, NextBacking;
    Extends(c, [Arrive(r, 0)], Event.Step(x, [], [Allocated(0, 0)]));
    var two := [Arrive(r, 0)] + [Event.Step(x, [], [Allocated(0, 0)])];
    Extends(c, two, Event.Step(y, [0], []));
    assert two == [Arrive(r, 0), Event.Step(x, [], [Allocated(0, 0)])];
    assert two + [Event.Step(y, [0], [])] == [Arrive(r, 0), Event.Step(x, [], [Allocated(0, 0)]), Event.Step(y, [0], [])];
  }

  lemma Extends(c: Config, front: seq<Event>, e: Event)
    requires LegalRun(c, FcfsOrder, front) && e.Step?
    ensures LegalRun(c, FcfsOrder, front + [e])
    ensures After(c, FcfsOrder, front + [e]) == Next(c, FcfsOrder, After(c, FcfsOrder, front), e)
    ensures Backing(c, FcfsOrder, front + [e])
            == NextBacking(c, FcfsOrder, After(c, FcfsOrder, front), Backing(c, FcfsOrder, front), e)
  {
    hide Next, NextBacking;
    assert (front + [e])[..|front + [e]| - 1] == front;
  }

  /** A prompt found whole in shared blocks: the request runs, and holds no block at all. */
  lemma WholePromptHoldsNothing(c: Config, r: Request, x: StepInputs)
    requires c.maxBatchedTokens >= 16 && c.maxSeqs >= 1 && c.prefillThreshold == 0 && c.maxModelLen == 0
    requires |r.inputTokens| == 16 && |r.outputTokens| == 100 && !r.isDecodeSub && x == StepInputs(None, None, {})
    ensures var events := [Arrive(r, 0), Event.Step(x, [], [Allocated(16, 16)])];
            && LegalRun(c, FcfsOrder, events)
            && After(c, FcfsOrder, events) == AloneAt(r, 16) && Backing(c, FcfsOrder, events) == map[r := 0]
  {
    AloneArrives(c, r);
    AloneAdmitted(c, r, x, 16);
    hide Next, NextBacking;
    Extends(c, [Arrive(r, 0)], Event.Step(x, [], [Allocated(16, 16)]));
    assert [Arrive(r, 0)] + [Event.Step(x, [], [Allocated(16, 16)])] == [Arrive(r, 0), Event.Step(x, [], [Allocated(16, 16)])];
  }
}
