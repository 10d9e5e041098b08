/** Phase 1 completeness ("no running request is silently skipped") and exactly when it holds. */
module RunningPassCompleteness {
  import opened Requests
  import opened Sequences
  import opened Limits
  import opened RunningPass
  import opened RunningPassOrder

  predicate MostUrgentFirst(s: seq<Request>) {
    forall i, j :: 0 <= i < j < |s| ==> !LessUrgent(s[i], s[j])
  }

  /** What the requests together ask of one step. */
  function Demand(c: Config, x: StepInputs, progress: map<Request, nat>, s: seq<Request>): nat {
    if s == [] then 0
    else (if s[0] in progress then Due(c, x, s[0], progress[s[0]]) else 0) + Demand(c, x, progress, s[1..])
  }

  /** In priority mode, whoever the budget of the step reaches is no less urgent than anybody behind it.
      `b[i]` is within reach when the requests ahead of it leave some of the budget. */
  predicate OrderedInReach(c: Config, x: StepInputs, progress: map<Request, nat>, b: seq<Request>) {
    c.policy == Priority ==>
      forall i, j :: 0 <= i < j < |b| && Demand(c, x, progress, b[..i]) < c.maxBatchedTokens ==> !LessUrgent(b[i], b[j])
  }

  /** The budget of the step reaches the last request. */
  predicate ReachesAll(c: Config, x: StepInputs, progress: map<Request, nat>, b: seq<Request>) {
    b == [] || Demand(c, x, progress, b[..|b| - 1]) < c.maxBatchedTokens
  }

  /** A running batch: every request once, and short of its boundary. */
  predicate Unfinished(c: Config, progress: map<Request, nat>, b: seq<Request>) {
    Distinct(b) && forall r :: r in b ==> r in progress && progress[r] < Boundary(c, r)
  }

  predicate EveryoneServed(p: Pass) {
    forall r :: r in p.batch ==> Tokens(p.granted, r) > 0
  }

  // ----- Demand -----

  lemma {:induction false} DemandSplit(c: Config, x: StepInputs, progress: map<Request, nat>, a: seq<Request>, b: seq<Request>)
    ensures Demand(c, x, progress, a + b) == Demand(c, x, progress, a) + Demand(c, x, progress, b)
  {
    if a == [] {
      assert a + b == b;
    } else {
      hide Due;
      assert (a + b)[1..] == a[1..] + b;
      DemandSplit(c, x, progress, a[1..], b);
    }
  }

  lemma DemandGrows(c: Config, x: StepInputs, progress: map<Request, nat>, b: seq<Request>, i: nat, j: nat)
    requires i <= j <= |b|
    ensures Demand(c, x, progress, b[..i]) <= Demand(c, x, progress, b[..j])
  {
    assert b[..j] == b[..i] + b[i..j];
    DemandSplit(c, x, progress, b[..i], b[i..j]);
  }

  lemma DemandNext(c: Config, x: StepInputs, progress: map<Request, nat>, b: seq<Request>, i: nat)
    requires i < |b| && b[i] in progress
    ensures Demand(c, x, progress, b[..i + 1]) == Demand(c, x, progress, b[..i]) + Due(c, x, b[i], progress[b[i]])
    ensures Demand(c, x, progress, []) == 0
  {
    hide Due;
    assert b[..i + 1] == b[..i] + [b[i]];
    DemandSplit(c, x, progress, b[..i], [b[i]]);
    assert [b[i]][1..] == [];
  }

  // ----- Where eviction leaves the front of the batch -----

  /** An evicted request that stood ahead of a survivor was less urgent, and the policy is priority. */
  predicate EvictedAhead(c: Config, b: seq<Request>, p: Pass) {
    forall k, l :: 0 <= k < l < |b| && b[k] in p.evicted && b[l] in p.batch ==> c.policy == Priority && LessUrgent(b[k], b[l])
  }

  lemma PositionsFollow(b: seq<Request>, gone: set<Request>, k: nat, l: nat, i: nat, j: nat)
    requires Distinct(b) && k < l < |b| && i < |Without(b, gone)| && j < |Without(b, gone)|
    requires Without(b, gone)[i] == b[k] && Without(b, gone)[j] == b[l]
    ensures i < j
  {
    if j < i {
      WithoutKeepsOrder(b, gone, j, i);
    }
  }

  lemma EvictOneAhead(c: Config, b: seq<Request>, p: Pass)
    requires Distinct(b) && KeepsOrder(b, p) && EvictedAhead(c, b, p) && p.batch != []
    ensures EvictedAhead(c, b, EvictOne(c.policy, p))
  {
    hide Without, KeepsOrder, Tokens;
    var v := Victim(c.policy, p.batch);
    var q := EvictOne(c.policy, p);
    BatchIsRest(b, p);
    RemoveAtIsWithout(p.batch, v);
    if c.policy == Priority { PriorityVictimIsLeastUrgent(p.batch); }
    forall k, l | 0 <= k < l < |b| && b[k] in q.evicted && b[l] in q.batch
      ensures c.policy == Priority && LessUrgent(b[k], b[l])
    {
      assert b[l] in p.batch;
      if b[k] !in p.evicted {
        assert b[k] == p.batch[v];
        var j :| 0 <= j < |p.batch| && p.batch[j] == b[l];
        PositionsFollow(b, Elements(p.evicted), k, l, v, j);
      }
    }
  }

  lemma BatchIsRest(b: seq<Request>, p: Pass)
    requires Distinct(b) && KeepsOrder(b, p)
    ensures p.batch == Without(b, Elements(p.evicted)) && Distinct(p.batch)
  {
    DistinctWithout(b, Elements(p.evicted));
  }

  /** While the front of the batch is untouched up to and including the cursor, its next victim is
      behind the cursor, or it is the request at the cursor and nobody is left behind it. */
  lemma VictimIsBehind(c: Config, x: StepInputs, progress: map<Request, nat>, b: seq<Request>, p: Pass)
    requires OrderedInReach(c, x, progress, b) && Distinct(b) && KeepsOrder(b, p)
    requires p.idx < |p.batch| && p.idx < |b| && p.batch[..p.idx + 1] == b[..p.idx + 1]
    requires Demand(c, x, progress, b[..p.idx]) < c.maxBatchedTokens
    ensures var v := Victim(c.policy, p.batch); v > p.idx || v == p.idx == |p.batch| - 1
  {
    hide OrderedInReach, KeepsOrder, PriorityVictim, Demand;
    var v := Victim(c.policy, p.batch);
    if c.policy == Priority && v <= p.idx && v < |p.batch| - 1 {
      PriorityVictimIsLeastUrgent(p.batch);
      DemandGrows(c, x, progress, b, v, p.idx);
      BatchIsRest(b, p);
      var l := LastComesLater(b, Elements(p.evicted), v, p.idx);
      InReach(c, x, progress, b, v, l);
    }
  }

  lemma InReach(c: Config, x: StepInputs, progress: map<Request, nat>, b: seq<Request>, i: nat, j: nat)
    requires OrderedInReach(c, x, progress, b) && c.policy == Priority
    requires i < j < |b| && Demand(c, x, progress, b[..i]) < c.maxBatchedTokens
    ensures !LessUrgent(b[i], b[j])
  {
  }

  /** Behind an untouched front, the last survivor comes from further behind. */
  lemma LastComesLater(b: seq<Request>, gone: set<Request>, v: nat, idx: nat) returns (l: nat)
    requires Distinct(b) && idx < |b| && idx < |Without(b, gone)| && Without(b, gone)[..idx + 1] == b[..idx + 1]
    requires v <= idx && v < |Without(b, gone)| - 1
    ensures v < l < |b| && b[l] == Without(b, gone)[|Without(b, gone)| - 1] && Without(b, gone)[v] == b[v]
  {
    l := IndexInWhole(b, gone, |Without(b, gone)| - 1);
    DistinctWithout(b, gone);
    hide Without;
    assert forall q :: 0 <= q <= idx ==> Without(b, gone)[q] == Without(b, gone)[..idx + 1][q] == b[q];
  }

  lemma IndexInWhole(b: seq<Request>, gone: set<Request>, i: nat) returns (l: nat)
    requires i < |Without(b, gone)|
    ensures l < |b| && b[l] == Without(b, gone)[i]
  {
    ElementsWithout(b, gone);
    hide Without;
    assert Without(b, gone)[i] in Elements(Without(b, gone));
    l :| 0 <= l < |b| && b[l] == Without(b, gone)[i];
  }

  /** Serving `r` cuts the batch behind the cursor only; if `r` itself goes, nobody is left behind it. */
  lemma {:induction false} EvictForBehind(c: Config, x: StepInputs, progress: map<Request, nat>, b: seq<Request>, p: Pass, r: Request, fails: nat)
    requires OrderedInReach(c, x, progress, b) && Distinct(b) && Sound(c, b, p) && EvictedAhead(c, b, p)
    requires p.idx < |p.batch| && p.idx < |b| && p.batch[..p.idx + 1] == b[..p.idx + 1] && p.batch[p.idx] == r
    requires Demand(c, x, progress, b[..p.idx]) < c.maxBatchedTokens
    ensures var q := EvictFor(c.policy, p, r, fails);
            && Sound(c, b, q) && EvictedAhead(c, b, q)
            && q.idx == p.idx && q.granted == p.granted && q.budget == p.budget
            && (if r in q.batch then q.idx < |q.batch| && q.batch[..q.idx + 1] == b[..q.idx + 1]
                else q.idx == |q.batch| && q.batch == b[..q.idx])
    decreases fails
  {
    hide EvictOne, Sound, EvictedAhead, OrderedInReach, Distinct, Demand;
    if fails > 0 {
      var q := EvictOne(c.policy, p);
      SoundParts(c, b, p);
      VictimIsBehind(c, x, progress, b, p);
      EvictOneSound(c, b, p);
      EvictOneAhead(c, b, p);
      EvictOneBehind(c, b, p);
      if Victim(c.policy, p.batch) > p.idx {
        EvictForBehind(c, x, progress, b, q, r, fails - 1);
      }
    }
  }

  lemma SoundParts(c: Config, b: seq<Request>, p: Pass)
    requires Distinct(b) && Sound(c, b, p)
    ensures KeepsOrder(b, p) && Distinct(p.batch)
  {
    DistinctWithout(b, Elements(p.evicted));
  }

  lemma EvictOneBehind(c: Config, b: seq<Request>, p: Pass)
    requires Distinct(b) && Sound(c, b, p) && p.idx < |p.batch| && p.idx < |b| && p.batch[..p.idx + 1] == b[..p.idx + 1]
    requires var v := Victim(c.policy, p.batch); v > p.idx || v == p.idx == |p.batch| - 1
    ensures var v := Victim(c.policy, p.batch);
            var q := EvictOne(c.policy, p);
            && q.idx == p.idx && q.granted == p.granted && q.budget == p.budget
            && (if v > p.idx then q.idx < |q.batch| && q.batch[..q.idx + 1] == b[..q.idx + 1] && q.batch[q.idx] == p.batch[p.idx]
                else q.idx == |q.batch| && q.batch == b[..q.idx] && p.batch[p.idx] !in q.batch)
  {
    hide Victim, KeepsOrder, Spent, Without;
    var v := Victim(c.policy, p.batch);
    SoundParts(c, b, p);
    DistinctPrefix(p.batch, p.idx);
    assert p.batch[v] !in p.granted;
    assert p.granted - {p.batch[v]} == p.granted;
    if v == p.idx {
      assert p.batch[..p.idx] == p.batch[..p.idx + 1][..p.idx] == b[..p.idx];
    }
  }

  // ----- The pass in reach -----

  /** The pass so far: the requests visited are the front of the old batch, in full, and what is left of
      the budget is what they left. */
  predicate FrontServed(c: Config, x: StepInputs, progress: map<Request, nat>, b: seq<Request>, p: Pass) {
    && EvictedAhead(c, b, p)
    && p.idx <= |p.batch| && p.idx <= |b| && p.batch[..p.idx] == b[..p.idx]
    && p.budget == Max(c.maxBatchedTokens - Demand(c, x, progress, b[..p.idx]), 0)
    && (p.stopped ==> p.idx == |p.batch|)
  }

  /** While budget is left, the request under the cursor is the next of the old batch. */
  lemma NextIsNext(c: Config, x: StepInputs, progress: map<Request, nat>, b: seq<Request>, p: Pass)
    requires OrderedInReach(c, x, progress, b) && Distinct(b) && KeepsOrder(b, p) && FrontServed(c, x, progress, b, p)
    requires p.idx < |p.batch| && p.budget > 0
    ensures p.idx < |b| && p.batch[p.idx] == b[p.idx] && p.batch[..p.idx + 1] == b[..p.idx + 1]
  {
    hide Demand, OrderedInReach, EvictedAhead, Without, KeepsOrder, Max;
    var i, gone := p.idx, Elements(p.evicted);
    BatchIsRest(b, p);
    FrontStays(b, gone, i);
    WithoutFirst(b[i..], gone);
    var l := LaterSurvivor(b, gone, i);
    assert Demand(c, x, progress, b[..i]) < c.maxBatchedTokens by { LeftOver(c.maxBatchedTokens, Demand(c, x, progress, b[..i])); }
    if l > i {
      NobodyEvictedAhead(c, x, progress, b, p, i, l);
    }
  }

  lemma LeftOver(budget: int, spent: int)
    requires Max(budget - spent, 0) > 0
    ensures spent < budget
  {
  }

  /** The survivor at position `i` comes from there or from further behind; and if the request there was
      taken out, from further behind. */
  lemma LaterSurvivor(b: seq<Request>, gone: set<Request>, i: nat) returns (l: nat)
    requires Distinct(b) && i < |b| && i < |Without(b, gone)| && Without(b, gone)[..i] == b[..i]
    ensures i <= l < |b| && b[l] == Without(b, gone)[i] && b[l] !in gone
  {
    l := IndexInWhole(b, gone, i);
    DistinctWithout(b, gone);
    WithoutMembers(b, gone);
    hide Without;
    assert forall q :: 0 <= q < i ==> Without(b, gone)[q] == Without(b, gone)[..i][q] == b[q];
    assert Without(b, gone)[i] in Without(b, gone);
  }

  lemma NobodyEvictedAhead(c: Config, x: StepInputs, progress: map<Request, nat>, b: seq<Request>, p: Pass, i: nat, l: nat)
    requires OrderedInReach(c, x, progress, b) && EvictedAhead(c, b, p)
    requires i < l < |b| && b[l] in p.batch && Demand(c, x, progress, b[..i]) < c.maxBatchedTokens
    ensures b[i] !in p.evicted
  {
  }

  lemma FrontStays(b: seq<Request>, gone: set<Request>, i: nat)
    requires Distinct(b) && i <= |b| && i <= |Without(b, gone)| && Without(b, gone)[..i] == b[..i]
    ensures Without(b, gone) == b[..i] + Without(b[i..], gone)
    ensures i < |Without(b, gone)| ==> i < |b|
  {
    var front, rest := b[..i], b[i..];
    ElementsWithout(b, gone);
    hide Without;
    forall r | r in front ensures r !in gone {
      assert r in Without(b, gone)[..i];
      assert r in Elements(Without(b, gone));
    }
    WithoutConcat(front, rest, gone);
    WithoutAbsent(front, gone);
    assert b == front + rest;
    NothingWithout(gone);
  }

  lemma NothingWithout(gone: set<Request>)
    ensures Without([], gone) == []
  {
  }

  lemma VisitInReach(c: Config, x: StepInputs, progress: map<Request, nat>, b: seq<Request>, p: Pass, fails: nat)
    requires OrderedInReach(c, x, progress, b) && Unfinished(c, progress, b)
    requires Sound(c, b, p) && FrontServed(c, x, progress, b, p)
    ensures FrontServed(c, x, progress, b, Visit(c, x, progress, p, fails))
  {
    hide OrderedInReach, Demand, Grant, Due, EvictFor, EvictedAhead, KeepsOrder, CursorAligned, BudgetKept, Boundary, Distinct;
    if !Over(p) && p.batch[p.idx] in progress {
      var r := p.batch[p.idx];
      NextIsNext(c, x, progress, b, p);
      assert r in b;
      GrantStopsAtBoundary(c, x, r, progress[r], p.budget);
      GrantIsDue(c, x, r, progress[r], p.budget);
      DemandNext(c, x, progress, b, p.idx);
      EvictForBehind(c, x, progress, b, p, r, fails);
      EvictForFrame(c.policy, p, r, fails);
      AheadIgnores(c, b, EvictFor(c.policy, p, r, fails), Visit(c, x, progress, p, fails));
    }
  }

  lemma AheadIgnores(c: Config, b: seq<Request>, p: Pass, q: Pass)
    requires EvictedAhead(c, b, p) && q.evicted == p.evicted && q.batch == p.batch
    ensures EvictedAhead(c, b, q)
  {
  }

  lemma {:induction false} RunInReach(c: Config, x: StepInputs, progress: map<Request, nat>, b: seq<Request>, fails: seq<nat>)
    requires OrderedInReach(c, x, progress, b) && Unfinished(c, progress, b)
    ensures FrontServed(c, x, progress, b, Run(c, x, progress, b, fails))
  {
    hide OrderedInReach, FrontServed, Visit, Demand;
    if fails == [] {
      StartInReach(c, x, progress, b);
    } else {
      var before := fails[..|fails| - 1];
      RunInReach(c, x, progress, b, before);
      RunSound(c, x, progress, b, before);
      VisitInReach(c, x, progress, b, Run(c, x, progress, b, before), fails[|fails| - 1]);
    }
  }

  lemma StartInReach(c: Config, x: StepInputs, progress: map<Request, nat>, b: seq<Request>)
    ensures FrontServed(c, x, progress, b, Start(c, b))
  {
    assert b[..0] == [];
  }

  // ----- Passes that leave somebody out -----

  /** A store that refuses nothing to the first `k` requests. */
  lemma {:induction false} SmoothRun(c: Config, x: StepInputs, progress: map<Request, nat>, b: seq<Request>, k: nat)
    requires Unfinished(c, progress, b) && k <= |b|
    requires k > 0 ==> Demand(c, x, progress, b[..k - 1]) < c.maxBatchedTokens
    ensures var p := Run(c, x, progress, b, Zeros(k));
            && p.batch == b && p.idx == k && p.evicted == [] && !p.stopped
            && p.budget == Max(c.maxBatchedTokens - Demand(c, x, progress, b[..k]), 0)
  {
    hide Run, Visit, Demand, Due, Unfinished;
    if k == 0 {
      NoRefusal(c, x, progress, b);
    } else {
      if k > 1 { DemandGrows(c, x, progress, b, k - 2, k - 1); }
      SmoothRun(c, x, progress, b, k - 1);
      SmoothVisit(c, x, progress, b, Run(c, x, progress, b, Zeros(k - 1)));
      DemandNext(c, x, progress, b, k - 1);
      ZerosLast(k);
      RunLast(c, x, progress, b, Zeros(k));
    }
  }

  lemma NoRefusal(c: Config, x: StepInputs, progress: map<Request, nat>, b: seq<Request>)
    ensures Run(c, x, progress, b, Zeros(0)) == Start(c, b)
    ensures Demand(c, x, progress, b[..0]) == 0
  {
    assert b[..0] == [];
  }

  function Zeros(k: nat): (s: seq<nat>)
    ensures |s| == k
  {
    if k == 0 then [] else Zeros(k - 1) + [0]
  }

  lemma ZerosLast(k: nat)
    requires k > 0
    ensures Zeros(k)[..k - 1] == Zeros(k - 1) && Zeros(k)[k - 1] == 0
  {
  }

  lemma SmoothVisit(c: Config, x: StepInputs, progress: map<Request, nat>, b: seq<Request>, p: Pass)
    requires Unfinished(c, progress, b) && p.batch == b && p.idx < |b| && p.budget > 0 && !p.stopped
    ensures b[p.idx] in progress
    ensures var z := Visit(c, x, progress, p, 0);
            && z.batch == b && z.idx == p.idx + 1 && z.evicted == p.evicted && !z.stopped
            && z.budget == Max(p.budget - Due(c, x, b[p.idx], progress[b[p.idx]]), 0)
  {
    hide Grant, Due, Boundary;
    var r := b[p.idx];
    assert r in b;
    GrantStopsAtBoundary(c, x, r, progress[r], p.budget);
    GrantIsDue(c, x, r, progress[r], p.budget);
  }

  lemma RunLast(c: Config, x: StepInputs, progress: map<Request, nat>, b: seq<Request>, fails: seq<nat>)
    requires fails != []
    ensures Run(c, x, progress, b, fails) == Visit(c, x, progress, Run(c, x, progress, b, fails[..|fails| - 1]), fails[|fails| - 1])
  {
    hide Visit;
  }

  /** Somebody more urgent than `r` outlives it. */
  lemma {:induction false} MoreUrgentOutlives(p: Pass, r: Request, d: Request, fails: nat)
    requires Distinct(p.batch) && r in p.batch && d in p.batch && LessUrgent(r, d) && fails >= |p.batch|
    ensures var q := EvictFor(Priority, p, r, fails); r !in q.batch && d in q.batch
    decreases fails
  {
    hide PriorityVictim, Without, Tokens, Distinct, RemoveAt;
    PriorityVictimIsLeastUrgent(p.batch);
    var v := PriorityVictim(p.batch);
    var q := EvictOne(Priority, p);
    RemoveAtIsWithout(p.batch, v);
    assert |q.batch| == |p.batch| - 1 by { RemoveAtLength(p.batch, v); }
    assert p.batch[v] != d;
    assert EvictFor(Priority, p, r, fails) == EvictFor(Priority, q, r, fails - 1);
    if p.batch[v] == r {
      assert EvictFor(Priority, q, r, fails - 1) == q;
    } else {
      MoreUrgentOutlives(q, r, d, fails - 1);
    }
  }

  /** Grants go to the requests before the cursor only. */
  lemma RunGrants(c: Config, x: StepInputs, progress: map<Request, nat>, b: seq<Request>, fails: seq<nat>)
    requires Distinct(b)
    ensures var p := Run(c, x, progress, b, fails);
            p.idx <= |p.batch| && p.budget >= 0 && forall r :: r in p.granted ==> r in p.batch[..p.idx]
  {
    hide Run, KeepsOrder, CursorAligned, Spent;
    RunSound(c, x, progress, b, fails);
  }

  lemma OutOfOrderSkipsSomebody(c: Config, x: StepInputs, progress: map<Request, nat>, b: seq<Request>,
                                i: nat, j: nat) returns (fails: seq<nat>)
    requires c.policy == Priority && Unfinished(c, progress, b)
    requires i < j < |b| && LessUrgent(b[i], b[j]) && Demand(c, x, progress, b[..i]) < c.maxBatchedTokens
    ensures var p := Run(c, x, progress, b, fails);
            Over(p) && p.budget > 0 && !EveryoneServed(p)
  {
    hide EvictFor, Grant, Run, Demand, Boundary, Sound, Without;
    var zeros := Zeros(i);
    fails := zeros + [|b|];
    assert fails[..|fails| - 1] == zeros;
    if i > 0 { DemandGrows(c, x, progress, b, i - 1, i); }
    SmoothRun(c, x, progress, b, i);
    RunLast(c, x, progress, b, fails);
    RunGrants(c, x, progress, b, zeros);
    var p := Run(c, x, progress, b, zeros);
    var r, d := b[i], b[j];
    assert r in b && d in b;
    GrantStopsAtBoundary(c, x, r, progress[r], p.budget);
    MoreUrgentOutlives(p, r, d, |b|);
    EvictForFrame(Priority, p, r, |b|);
    DistinctPrefix(b, i);
  }

  /** When the requests ahead of the last one take all the budget, somebody can be left out. */
  lemma {:induction false} ExhaustedBudgetSkipsSomebody(c: Config, x: StepInputs, progress: map<Request, nat>, b: seq<Request>, k: nat)
    returns (fails: seq<nat>)
    requires Unfinished(c, progress, b) && k < |b| && Demand(c, x, progress, b[..k]) >= c.maxBatchedTokens
    ensures var p := Run(c, x, progress, b, fails); Over(p) && !EveryoneServed(p)
  {
    if k > 0 && Demand(c, x, progress, b[..k - 1]) >= c.maxBatchedTokens {
      fails := ExhaustedBudgetSkipsSomebody(c, x, progress, b, k - 1);
    } else {
      hide Run, Demand, Boundary, Sound;
      fails := Zeros(k);
      SmoothRun(c, x, progress, b, k);
      RunGrants(c, x, progress, b, fails);
      DistinctPrefix(b, k);
      assert b[k] in b;
    }
  }

  // ----- Completeness, exactly -----

  /** INV-12, exactly, for both policies, every batch and every budget. Whatever the KV store answers, a
      pass that does not exhaust its budget grants every surviving request a token, if and only if the
      part of the batch within reach of the budget stands in urgency order against what is behind it.
      Under fcfs that always holds. */
  lemma CompletenessWithinBudget(c: Config, x: StepInputs, progress: map<Request, nat>, b: seq<Request>)
    requires Unfinished(c, progress, b)
    ensures OrderedInReach(c, x, progress, b) <==>
            forall fails: seq<nat> :: Over(Run(c, x, progress, b, fails)) && Run(c, x, progress, b, fails).budget > 0
                                      ==> EveryoneServed(Run(c, x, progress, b, fails))
  {
    hide Run, Demand, Boundary;
    if OrderedInReach(c, x, progress, b) {
      forall fails: seq<nat> | Over(Run(c, x, progress, b, fails)) && Run(c, x, progress, b, fails).budget > 0
        ensures EveryoneServed(Run(c, x, progress, b, fails))
      {
        RunInReach(c, x, progress, b, fails);
        LeftBehind(c, x, progress, b, fails);
      }
    } else {
      var i, j :| 0 <= i < j < |b| && Demand(c, x, progress, b[..i]) < c.maxBatchedTokens && LessUrgent(b[i], b[j]);
      var fails := OutOfOrderSkipsSomebody(c, x, progress, b, i, j);
    }
  }

  /** And with no proviso on the budget: every pass grants every surviving request a token, if and only if
      the budget reaches the last request and, in priority mode, the batch stands in urgency order. */
  lemma CompletenessExactly(c: Config, x: StepInputs, progress: map<Request, nat>, b: seq<Request>)
    requires Unfinished(c, progress, b)
    ensures ReachesAll(c, x, progress, b) && (c.policy == Priority ==> MostUrgentFirst(b)) <==>
            forall fails: seq<nat> :: Over(Run(c, x, progress, b, fails)) ==> EveryoneServed(Run(c, x, progress, b, fails))
  {
    hide Run, Demand, Boundary;
    if !ReachesAll(c, x, progress, b) {
      var fails := ExhaustedBudgetSkipsSomebody(c, x, progress, b, |b| - 1);
    } else {
      if c.policy == Priority && !MostUrgentFirst(b) {
        var i, j :| 0 <= i < j < |b| && LessUrgent(b[i], b[j]);
        DemandGrows(c, x, progress, b, i, |b| - 1);
        var fails := OutOfOrderSkipsSomebody(c, x, progress, b, i, j);
      } else {
        ReachIsOrder(c, x, progress, b);
        forall fails: seq<nat> | Over(Run(c, x, progress, b, fails))
          ensures EveryoneServed(Run(c, x, progress, b, fails))
        {
          RunInReach(c, x, progress, b, fails);
          BudgetReachesAll(c, x, progress, b, fails);
          LeftBehind(c, x, progress, b, fails);
        }
      }
    }
  }

  /** fcfs serves every survivor in every pass that does not exhaust its budget, and in every pass whose
      budget reaches the last request. */
  lemma FcfsServesEveryone(c: Config, x: StepInputs, progress: map<Request, nat>, b: seq<Request>, fails: seq<nat>)
    requires c.policy == Fcfs && Unfinished(c, progress, b) && Over(Run(c, x, progress, b, fails))
    requires Run(c, x, progress, b, fails).budget > 0 || ReachesAll(c, x, progress, b)
    ensures EveryoneServed(Run(c, x, progress, b, fails))
  {
    hide Run, Demand, Boundary, ReachesAll;
    CompletenessWithinBudget(c, x, progress, b);
    CompletenessExactly(c, x, progress, b);
  }

  lemma ReachIsOrder(c: Config, x: StepInputs, progress: map<Request, nat>, b: seq<Request>)
    requires c.policy == Priority ==> MostUrgentFirst(b)
    ensures OrderedInReach(c, x, progress, b)
  {
  }

  lemma BudgetReachesAll(c: Config, x: StepInputs, progress: map<Request, nat>, b: seq<Request>, fails: seq<nat>)
    requires Unfinished(c, progress, b) && ReachesAll(c, x, progress, b)
    requires FrontServed(c, x, progress, b, Run(c, x, progress, b, fails))
    ensures var p := Run(c, x, progress, b, fails); p.idx < |p.batch| ==> p.budget > 0
  {
    hide Run, Demand, EvictedAhead;
    var p := Run(c, x, progress, b, fails);
    RunSound(c, x, progress, b, fails);
    BatchNoLonger(b, p);
    if p.idx < |p.batch| {
      DemandGrows(c, x, progress, b, p.idx, |b| - 1);
    }
  }

  lemma BatchNoLonger(b: seq<Request>, p: Pass)
    requires KeepsOrder(b, p)
    ensures |p.batch| <= |b|
  {
    WithoutNoLonger(b, Elements(p.evicted));
  }

  lemma {:induction false} WithoutNoLonger(s: seq<Request>, gone: set<Request>)
    ensures |Without(s, gone)| <= |s|
  {
    if s != [] {
      WithoutNoLonger(s[1..], gone);
    }
  }
}
