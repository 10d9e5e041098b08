/** Progress in priority mode: the most urgent running request is served again within as many steps as
    requests stand ahead of it in the batch, and one more. */
module MostUrgent {
  import opened Requests
  import opened Sequences
  import opened Limits
  import opened RunningPass
  import opened RunningPassOrder
  import opened AdmissionPass
  import opened Scheduler
  import opened Runs
  import opened RunBounds
  import opened NoStarvation

  /** Everybody else in the batch is strictly less urgent. */
  predicate MostUrgentOf(b: seq<Request>, h: Request) {
    forall r :: r in b && r != h ==> LessUrgent(r, h)
  }

  /** The phase 1 of a step that finished, left some budget, and was not refused down to nobody: the KV
      store serves a request that is alone in the batch. */
  predicate Settles(c: Config, w: World, e: Event) {
    e.Step? ==>
      var p := PassOf(c, w, e);
      Over(p) && p.budget > 0 && (w.running != [] ==> p.batch != [])
  }

  // ----- A pass that was stopped -----

  /** `r` stood in `b` ahead of everybody in `tail`. */
  ghost predicate StoodAhead(b: seq<Request>, r: Request, tail: seq<Request>) {
    exists e :: 0 <= e < |b| && b[e] == r && forall l :: 0 <= l < |b| && b[l] in tail ==> e < l
  }

  lemma {:induction false} EvictForTail(policy: PreemptionPolicy, p: Pass, r: Request, fails: nat)
    requires p.idx <= |p.batch|
    ensures var q := EvictFor(policy, p, r, fails);
            q.idx <= |q.batch| && forall s :: s in q.batch[q.idx..] ==> s in p.batch[p.idx..]
    decreases fails
  {
    if fails > 0 && r in p.batch {
      EvictOneTail(policy, p);
      hide EvictOne;
      EvictForTail(policy, EvictOne(policy, p), r, fails - 1);
    }
  }

  lemma EvictOneTail(policy: PreemptionPolicy, p: Pass)
    requires p.batch != [] && p.idx <= |p.batch|
    ensures var q := EvictOne(policy, p);
            q.idx <= |q.batch| && forall s :: s in q.batch[q.idx..] ==> s in p.batch[p.idx..]
  {
    hide Victim, Tokens;
    var v := Victim(policy, p.batch);
    var q := EvictOne(policy, p);
    if v < p.idx {
      assert q.batch[q.idx..] == p.batch[p.idx..];
    } else {
      assert q.batch[q.idx..] == p.batch[p.idx..v] + p.batch[v + 1..];
    }
  }

  /** Behind the cursor of a stopped pass stand only requests that were behind the one that went. */
  lemma StopLeavesTail(c: Config, b: seq<Request>, p: Pass, fails: nat)
    requires Distinct(b) && Sound(c, b, p) && p.idx < |p.batch|
    requires p.batch[p.idx] !in EvictFor(c.policy, p, p.batch[p.idx], fails).batch
    ensures var q := EvictFor(c.policy, p, p.batch[p.idx], fails);
            q.idx <= |q.batch| && StoodAhead(b, p.batch[p.idx], q.batch[q.idx..])
  {
    var r := p.batch[p.idx];
    var q := EvictFor(c.policy, p, r, fails);
    EvictForTail(c.policy, p, r, fails);
    var e := PlaceInBatch(b, p, p.idx);
    hide EvictFor, Sound, Without;
    forall l | 0 <= l < |b| && b[l] in q.batch[q.idx..] ensures e < l {
      assert b[l] in p.batch[p.idx..];
      assert b[l] in q.batch;
      var j :| p.idx <= j < |p.batch| && p.batch[j] == b[l];
      assert j > p.idx;
      BatchOrder(c, b, p, p.idx, j, e, l);
    }
  }

  lemma PlaceInBatch(b: seq<Request>, p: Pass, i: nat) returns (e: nat)
    requires KeepsOrder(b, p) && i < |p.batch|
    ensures e < |b| && b[e] == p.batch[i]
  {
    ElementsWithout(b, Elements(p.evicted));
    hide Without;
    assert p.batch[i] in Elements(p.batch);
    e :| 0 <= e < |b| && b[e] == p.batch[i];
  }

  lemma BatchOrder(c: Config, b: seq<Request>, p: Pass, i: nat, j: nat, k: nat, l: nat)
    requires Distinct(b) && Sound(c, b, p) && i < j < |p.batch| && k < |b| && l < |b|
    requires p.batch[i] == b[k] && p.batch[j] == b[l]
    ensures k < l
  {
    hide CursorAligned, BudgetKept;
    WithoutKeepsOrder(b, Elements(p.evicted), i, j);
  }

  /** So a stopped pass has evicted somebody who stood ahead of all that it left behind the cursor. */
  ghost predicate StopExplained(b: seq<Request>, p: Pass) {
    p.stopped ==> p.idx <= |p.batch| && exists r :: r in p.evicted && StoodAhead(b, r, p.batch[p.idx..])
  }

  lemma VisitExplainsStop(c: Config, x: StepInputs, progress: map<Request, nat>, b: seq<Request>, p: Pass, fails: nat)
    requires Distinct(b) && Sound(c, b, p) && StopExplained(b, p)
    ensures StopExplained(b, Visit(c, x, progress, p, fails))
  {
    hide EvictFor, Grant, NeedsBlocks, Sound, StoodAhead;
    if !Over(p) && p.batch[p.idx] in progress {
      var r := p.batch[p.idx];
      if NeedsBlocks(c, x, r, progress[r], p.budget) {
        var q := EvictFor(c.policy, p, r, fails);
        EvictForFrame(c.policy, p, r, fails);
        if r !in q.batch {
          StopLeavesTail(c, b, p, fails);
          GoneIsEvicted(c, b, p, r, fails);
        }
      }
    }
  }

  lemma GoneIsEvicted(c: Config, b: seq<Request>, p: Pass, r: Request, fails: nat)
    requires Distinct(b) && Sound(c, b, p) && p.idx < |p.batch| && p.batch[p.idx] == r
    requires r !in EvictFor(c.policy, p, r, fails).batch
    ensures r in EvictFor(c.policy, p, r, fails).evicted
  {
    var q := EvictFor(c.policy, p, r, fails);
    EvictForSound(c, b, p, r, fails);
    WithoutMembers(b, Elements(p.evicted));
    WithoutMembers(b, Elements(q.evicted));
    hide EvictFor, Without, CursorAligned, BudgetKept;
    assert r in p.batch;
  }

  lemma {:induction false} RunExplainsStop(c: Config, x: StepInputs, progress: map<Request, nat>, b: seq<Request>, fails: seq<nat>)
    requires Distinct(b)
    ensures StopExplained(b, Run(c, x, progress, b, fails))
  {
    hide Visit, Sound;
    if fails != [] {
      var before := fails[..|fails| - 1];
      RunExplainsStop(c, x, progress, b, before);
      RunSound(c, x, progress, b, before);
      VisitExplainsStop(c, x, progress, b, Run(c, x, progress, b, before), fails[|fails| - 1]);
    }
  }

  // ----- Positions -----

  lemma {:induction false} WithoutShorter(s: seq<Request>, gone: set<Request>)
    ensures |Without(s, gone)| <= |s|
    ensures (exists i :: 0 <= i < |s| && s[i] in gone) ==> |Without(s, gone)| < |s|
  {
    if s != [] {
      WithoutShorter(s[1..], gone);
      assert forall i :: 1 <= i < |s| ==> s[i] == s[1..][i - 1];
    }
  }

  /** Who stays moves up past everybody ahead of it who leaves. */
  lemma MovesUp(b: seq<Request>, gone: set<Request>, j: nat) returns (k: nat)
    requires j < |b| && b[j] !in gone
    ensures k < |Without(b, gone)| && Without(b, gone)[k] == b[j] && k <= j
    ensures (exists i :: 0 <= i < j && b[i] in gone) ==> k < j
  {
    var a, z := b[..j], b[j + 1..];
    hide Without;
    assert b == a + ([b[j]] + z);
    WithoutConcat(a, [b[j]] + z, gone);
    WithoutConcat([b[j]], z, gone);
    WithoutOne(b[j], gone);
    WithoutShorter(a, gone);
    assert forall i :: 0 <= i < j ==> a[i] == b[i];
    k := |Without(a, gone)|;
  }

  // ----- One event -----

  predicate Stands(w: World, h: Request, k: nat) {
    k < |w.running| && w.running[k] == h && MostUrgentOf(w.running, h)
  }

  predicate ServedIn(c: Config, w: World, e: Event, h: Request) {
    e.Step? && Tokens(PassOf(c, w, e).granted, h) > 0
  }

  /** A step either serves the most urgent request of the batch, or admits nobody and takes somebody ahead
      of it out. */
  lemma PassServesOrShortens(c: Config, x: StepInputs, progress: map<Request, nat>, b: seq<Request>, fails: seq<nat>, k: nat)
    requires c.policy == Priority && Distinct(b) && k < |b| && MostUrgentOf(b, b[k])
    requires forall r :: r in b ==> r in progress && progress[r] < Boundary(c, r)
    requires var p := Run(c, x, progress, b, fails); Over(p) && p.budget > 0 && p.batch != []
    ensures var p := Run(c, x, progress, b, fails);
            && b[k] !in p.evicted && b[k] in p.batch
            && (Tokens(p.granted, b[k]) > 0 || exists i :: 0 <= i < k && b[i] in p.evicted)
  {
    hide Run, Boundary;
    var p, h := Run(c, x, progress, b, fails), b[k];
    RunSound(c, x, progress, b, fails);
    PriorityRun(c, x, progress, b, fails);
    SurvivesMostUrgent(c, b, p, k);
    LeftBehind(c, x, progress, b, fails);
    ServedRun(c, x, progress, b, fails);
    RunExplainsStop(c, x, progress, b, fails);
    if Tokens(p.granted, h) == 0 {
      BehindCursor(c, progress, b, p, h);
      hide Sound, Served, LeastUrgentFirst;
      var r :| r in p.evicted && StoodAhead(b, r, p.batch[p.idx..]);
      var e :| 0 <= e < |b| && b[e] == r && forall l :: 0 <= l < |b| && b[l] in p.batch[p.idx..] ==> e < l;
      assert b[e] in p.evicted && e < k;
    }
  }

  lemma SurvivesMostUrgent(c: Config, b: seq<Request>, p: Pass, k: nat)
    requires Sound(c, b, p) && LeastUrgentFirst(p) && k < |b| && MostUrgentOf(b, b[k]) && p.batch != []
    ensures b[k] !in p.evicted && b[k] in p.batch
  {
    WithoutMembers(b, Elements(p.evicted));
    hide Without, CursorAligned, BudgetKept;
    var r := p.batch[0];
    assert r in p.batch && r in b && r !in p.evicted;
  }

  lemma BehindCursor(c: Config, progress: map<Request, nat>, b: seq<Request>, p: Pass, h: Request)
    requires Sound(c, b, p) && Served(c, progress, p) && h in p.batch && h in progress && progress[h] < Boundary(c, h)
    requires Tokens(p.granted, h) == 0
    ensures h in p.batch[p.idx..]
  {
    WithoutMembers(p.visited, Elements(p.evicted));
    hide Without, KeepsOrder, Boundary;
    assert h in p.batch[..p.idx] ==> h in p.visited && h !in p.evicted;
    assert p.batch == p.batch[..p.idx] + p.batch[p.idx..];
  }

  lemma StepMovesUp(c: Config, order: QueueOrder, w: World, e: Event, h: Request, k: nat) returns (j: nat)
    requires c.policy == Priority && Conserved(w) && Bounded(c, w) && e.Step? && Settles(c, w, e)
    requires Stands(w, h, k) && !ServedIn(c, w, e, h)
    ensures j < k && Stands(Next(c, order, w, e), h, j)
  {
    var p, a, z := PassOf(c, w, e), AdmissionOf(c, order, w, e), Next(c, order, w, e);
    var fin := FinishedIn(c, a.batch, z.progress);
    LiveIsDistinct(w);
    DistinctParts(w.running, w.waiting);
    PassServesOrShortens(c, e.x, w.progress, w.running, e.fails, k);
    FormingConserves(c, order, w, e);
    NobodyAdmitted(c, order, w, e);
    NotFinished(c, order, w, e, h);
    hide PassOf, AdmissionOf, Conserved, Bounded, FinishedIn, Distinct;
    BatchAfter(c, w, p);
    var i := MovesUp(w.running, Elements(p.evicted), k);
    j := MovesUp(p.batch, fin, i);
    StaysMostUrgent(w.running, Elements(p.evicted), h);
    StaysMostUrgent(p.batch, fin, h);
  }

  lemma BatchAfter(c: Config, w: World, p: Pass)
    requires Sound(c, w.running, p)
    ensures p.batch == Without(w.running, Elements(p.evicted))
  {
  }

  lemma StaysMostUrgent(b: seq<Request>, gone: set<Request>, h: Request)
    requires MostUrgentOf(b, h)
    ensures MostUrgentOf(Without(b, gone), h)
  {
    ElementsWithout(b, gone);
    hide Without;
    forall r | r in Without(b, gone) && r != h ensures LessUrgent(r, h) {
      assert r in Elements(Without(b, gone));
      assert r in Elements(b);
    }
  }

  /** Whoever preempts admits nobody. */
  lemma NobodyAdmitted(c: Config, order: QueueOrder, w: World, e: Event)
    requires e.Step? && PassOf(c, w, e).evicted != []
    ensures AdmissionOf(c, order, w, e) == Open(PassOf(c, w, e), Ordered(order, w.waiting))
  {
    hide Run;
    var p := PassOf(c, w, e);
    ClosedStaysClosed(c, e.x, AfterEviction(w.progress, p.evicted), Open(p, Ordered(order, w.waiting)), e.verdicts);
  }

  lemma NotFinished(c: Config, order: QueueOrder, w: World, e: Event, h: Request)
    requires Bounded(c, w) && e.Step? && h in w.running
    requires var p := PassOf(c, w, e);
             h !in p.evicted && Tokens(p.granted, h) == 0 && AdmissionOf(c, order, w, e) == Open(p, Ordered(order, w.waiting))
    ensures h !in FinishedIn(c, AdmissionOf(c, order, w, e).batch, Next(c, order, w, e).progress)
  {
    hide PassOf, AdmissionOf;
    assert BelowBoundary(c, w.progress, h);
  }

  /** Nothing but its own timeout takes it out before it is served. */
  lemma EventMovesUp(c: Config, order: QueueOrder, w: World, e: Event, h: Request, k: nat) returns (j: nat)
    requires c.policy == Priority && Conserved(w) && Bounded(c, w) && Settles(c, w, e)
    requires Stands(w, h, k) && !ServedIn(c, w, e, h) && e != TimeOut(h)
    ensures j + (if e.Step? then 1 else 0) <= k && Stands(Next(c, order, w, e), h, j)
  {
    hide Conserved, Bounded, Settles, ServedIn, PassOf, AdmissionOf, MostUrgentOf, Without;
    match e
    case Arrive(_, _) => j := k;
    case Step(_, _, _) => j := StepMovesUp(c, order, w, e, h, k);
    case TimeOut(r) =>
      if r in Live(w) {
        j := MovesUp(w.running, {r}, k);
        StaysMostUrgent(w.running, {r}, h);
      } else {
        j := k;
      }
  }

  // ----- Whole runs -----

  /** From moment `m` on: steps settle, and `h` does not time out. */
  predicate Undisturbed(c: Config, order: QueueOrder, events: seq<Event>, m: nat, h: Request) {
    forall i :: m <= i < |events| ==> Settles(c, After(c, order, events[..i]), events[i]) && events[i] != TimeOut(h)
  }

  ghost predicate ServedSince(c: Config, order: QueueOrder, events: seq<Event>, m: nat, h: Request) {
    exists i :: m <= i < |events| && ServedIn(c, After(c, order, events[..i]), events[i], h)
  }

  lemma {:induction false} ServedOrMovedUp(c: Config, order: QueueOrder, events: seq<Event>, m: nat, h: Request, k: nat)
    requires c.policy == Priority && LegalRun(c, order, events) && m <= |events|
    requires Stands(After(c, order, events[..m]), h, k) && Undisturbed(c, order, events, m, h)
    ensures ServedSince(c, order, events, m, h) ||
            exists j: nat :: Stands(After(c, order, events), h, j) && j + Steps(events) <= k + Steps(events[..m])
    decreases |events|
  {
    if m == |events| {
      assert events[..m] == events;
    } else {
      hide Stands, Settles, ServedIn, Next, Legal, After;
      var before := events[..|events| - 1];
      UndisturbedBefore(c, order, events, m, h);
      RunSplits(c, order, events);
      assert before[..m] == events[..m];
      ServedOrMovedUp(c, order, before, m, h, k);
      if ServedSince(c, order, before, m, h) {
        ServedEarlier(c, order, events, m, h);
      } else {
        var j: nat :| Stands(After(c, order, before), h, j) && j + Steps(before) <= k + Steps(before[..m]);
        LastEvent(c, order, events, m, h, j);
      }
    }
  }

  lemma UndisturbedBefore(c: Config, order: QueueOrder, events: seq<Event>, m: nat, h: Request)
    requires Undisturbed(c, order, events, m, h) && m < |events|
    ensures Undisturbed(c, order, events[..|events| - 1], m, h)
    ensures Settles(c, After(c, order, events[..|events| - 1]), events[|events| - 1]) && events[|events| - 1] != TimeOut(h)
  {
    hide Settles, After;
    var before := events[..|events| - 1];
    assert forall i :: m <= i < |before| ==> before[..i] == events[..i] && before[i] == events[i];
  }

  lemma RunSplits(c: Config, order: QueueOrder, events: seq<Event>)
    requires LegalRun(c, order, events) && events != []
    ensures var before := events[..|events| - 1];
            && LegalRun(c, order, before)
            && After(c, order, events) == Next(c, order, After(c, order, before), events[|events| - 1])
            && Steps(events) == Steps(before) + (if events[|events| - 1].Step? then 1 else 0)
  {
    hide Next, Legal;
  }

  lemma ServedEarlier(c: Config, order: QueueOrder, events: seq<Event>, m: nat, h: Request)
    requires events != [] && ServedSince(c, order, events[..|events| - 1], m, h)
    ensures ServedSince(c, order, events, m, h)
  {
    hide ServedIn, After;
    var before := events[..|events| - 1];
    var i :| m <= i < |before| && ServedIn(c, After(c, order, before[..i]), before[i], h);
    assert before[..i] == events[..i] && before[i] == events[i];
    assert ServedIn(c, After(c, order, events[..i]), events[i], h);
  }

  lemma LastEvent(c: Config, order: QueueOrder, events: seq<Event>, m: nat, h: Request, j: nat)
    requires c.policy == Priority && LegalRun(c, order, events) && m < |events| && Undisturbed(c, order, events, m, h)
    requires Stands(After(c, order, events[..|events| - 1]), h, j)
    ensures ServedSince(c, order, events, m, h) ||
            exists i: nat :: Stands(After(c, order, events), h, i) && i + Steps(events) <= j + Steps(events[..|events| - 1])
  {
    hide Stands, Settles, ServedIn, Next, Legal, After, LegalRun, Conserved, Bounded;
    var n := |events| - 1;
    var w, e := After(c, order, events[..n]), events[n];
    UndisturbedBefore(c, order, events, m, h);
    RunSplits(c, order, events);
    if ServedIn(c, w, e, h) {
      assert ServedIn(c, After(c, order, events[..n]), events[n], h);
    } else {
      RunConserves(c, order, events[..n]);
      RunBounded(c, order, events[..n]);
      var i := EventMovesUp(c, order, w, e, h, j);
      assert Stands(After(c, order, events), h, i);
    }
  }

  /** The most urgent request of a batch, at position `k`, is granted tokens within the next `k + 1` steps,
      for every queue order, arrivals, timeouts of others and whatever the KV store answers, as long as
      the steps leave some budget and the store serves whoever is alone. */
  lemma MostUrgentIsServedAgain(c: Config, order: QueueOrder, events: seq<Event>, m: nat, h: Request, k: nat)
    requires c.policy == Priority && LegalRun(c, order, events) && m <= |events|
    requires Stands(After(c, order, events[..m]), h, k) && Undisturbed(c, order, events, m, h)
    requires Steps(events) - Steps(events[..m]) > k
    ensures ServedSince(c, order, events, m, h)
  {
    hide Stands, Undisturbed, ServedSince, After, LegalRun;
    ServedOrMovedUp(c, order, events, m, h, k);
  }
}
