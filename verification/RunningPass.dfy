/** Phase 1 of batch formation as a state machine: each step visits the request under the cursor,
    and is driven by how many times the KV store refused before it allocated
    (sim/batch_formation.go:143-224, 446-531). */
module RunningPass {
  import opened Requests
  import opened Sequences
  import opened Limits

  datatype Pass = Pass(
    batch: seq<Request>,          // RunningBatch.Requests
    idx: nat,                     // reqIndex, after the adjustment
    budget: int,                  // tokenBudget
    granted: map<Request, nat>,   // NumNewTokens of the requests granted in this pass
    visited: seq<Request>,        // requests whose turn is over, in turn order
    evicted: seq<Request>,        // result.Preempted
    stopped: bool)                // the served request was itself evicted

  function Start(c: Config, batch: seq<Request>): Pass {
    Pass(batch, 0, c.maxBatchedTokens, map[], [], [], false)
  }

  predicate Over(p: Pass) {
    p.stopped || p.idx >= |p.batch| || p.budget <= 0
  }

  function Tokens(g: map<Request, nat>, r: Request): nat {
    if r in g then g[r] else 0
  }

  function Spent(s: seq<Request>, g: map<Request, nat>): nat {
    if s == [] then 0 else Tokens(g, s[0]) + Spent(s[1..], g)
  }

  /** `a` is evicted before `b`: larger priority value, then later arrival. */
  predicate LessUrgent(a: Request, b: Request) {
    a.priority > b.priority || (a.priority == b.priority && a.arrivalTime > b.arrivalTime)
  }

  /** Position `v` is a least urgent request, and the last one among equals. */
  predicate IsPriorityVictim(s: seq<Request>, v: nat) {
    && v < |s|
    && (forall i :: 0 <= i < |s| ==> !LessUrgent(s[i], s[v]))
    && (forall i :: v < i < |s| ==> LessUrgent(s[v], s[i]))
  }

  function PriorityVictim(s: seq<Request>): (v: nat)
    requires s != []
    ensures v < |s|
  {
    if |s| == 1 then 0
    else
      var v := PriorityVictim(s[1..]) + 1;
      if LessUrgent(s[0], s[v]) then 0 else v
  }

  lemma {:induction false} PriorityVictimIsLeastUrgent(s: seq<Request>)
    requires s != []
    ensures IsPriorityVictim(s, PriorityVictim(s))
  {
    if |s| > 1 {
      PriorityVictimIsLeastUrgent(s[1..]);
      assert forall i :: 1 <= i < |s| ==> s[i] == s[1..][i - 1];
    }
  }

  lemma VictimUnique(s: seq<Request>, v: nat, w: nat)
    requires IsPriorityVictim(s, v) && IsPriorityVictim(s, w)
    ensures v == w
  {
    assert !LessUrgent(s[v], s[w]) && !LessUrgent(s[w], s[v]);
  }

  function Victim(policy: PreemptionPolicy, s: seq<Request>): (v: nat)
    requires s != []
    ensures v < |s|
  {
    match policy
    case Fcfs => |s| - 1
    case Priority => PriorityVictim(s)
  }

  function EvictOne(policy: PreemptionPolicy, p: Pass): Pass
    requires p.batch != []
  {
    var v := Victim(policy, p.batch);
    var r := p.batch[v];
    p.(batch := RemoveAt(p.batch, v),
       idx := if v < p.idx then p.idx - 1 else p.idx,
       budget := p.budget + Tokens(p.granted, r),
       granted := p.granted - {r},
       evicted := p.evicted + [r])
  }

  /** `fails` refusals in a row while serving `r`; nothing more once `r` itself is out. */
  function EvictFor(policy: PreemptionPolicy, p: Pass, r: Request, fails: nat): Pass
    decreases fails
  {
    if fails == 0 || r !in p.batch then p
    else EvictFor(policy, EvictOne(policy, p), r, fails - 1)
  }

  function Visit(c: Config, x: StepInputs, progress: map<Request, nat>, p: Pass, fails: nat): Pass {
    if Over(p) || p.batch[p.idx] !in progress then p
    else
      var r := p.batch[p.idx];
      var n := Grant(c, x, r, progress[r], p.budget);
      if !NeedsBlocks(c, x, r, progress[r], p.budget) then p.(idx := p.idx + 1, visited := p.visited + [r])
      else
        var q := EvictFor(c.policy, p, r, fails);
        if r !in q.batch then q.(stopped := true)
        else q.(idx := q.idx + 1, budget := q.budget - n, granted := q.granted[r := n], visited := q.visited + [r])
  }

  /** The pass after serving one request per entry of `fails`. */
  function Run(c: Config, x: StepInputs, progress: map<Request, nat>, batch: seq<Request>, fails: seq<nat>): Pass {
    if fails == [] then Start(c, batch)
    else Visit(c, x, progress, Run(c, x, progress, batch, fails[..|fails| - 1]), fails[|fails| - 1])
  }

  // ----- Token sums -----

  lemma {:induction false} SpentSplit(a: seq<Request>, b: seq<Request>, g: map<Request, nat>)
    ensures Spent(a + b, g) == Spent(a, g) + Spent(b, g)
  {
    if a == [] {
      assert a + b == b;
    } else {
      assert (a + b)[1..] == a[1..] + b;
      SpentSplit(a[1..], b, g);
    }
  }

  lemma {:induction false} SpentSame(s: seq<Request>, g: map<Request, nat>, h: map<Request, nat>)
    requires forall r :: r in s ==> Tokens(g, r) == Tokens(h, r)
    ensures Spent(s, g) == Spent(s, h)
  {
    if s != [] {
      SpentSame(s[1..], g, h);
    }
  }

  lemma SpentRemoved(s: seq<Request>, i: nat, g: map<Request, nat>)
    requires Distinct(s) && i < |s|
    ensures Spent(s, g) == Spent(RemoveAt(s, i), g - {s[i]}) + Tokens(g, s[i])
  {
    assert s == s[..i] + ([s[i]] + s[i + 1..]);
    SpentSplit(s[..i], [s[i]] + s[i + 1..], g);
    SpentSplit([s[i]], s[i + 1..], g);
    SpentSplit(s[..i], s[i + 1..], g);
    RemoveAtIsWithout(s, i);
    SpentSame(RemoveAt(s, i), g, g - {s[i]});
  }

  lemma SpentGranted(s: seq<Request>, i: nat, g: map<Request, nat>, n: nat)
    requires Distinct(s) && i < |s| && s[i] !in g
    ensures Spent(s, g[s[i] := n]) == Spent(s, g) + n
  {
    var h := g[s[i] := n];
    SpentRemoved(s, i, g);
    SpentRemoved(s, i, h);
    RemoveAtIsWithout(s, i);
    SpentSame(RemoveAt(s, i), g - {s[i]}, h - {s[i]});
  }

  // ----- What every step of the pass keeps -----

  /** The batch is the old batch without the evicted, order kept. */
  predicate KeepsOrder(batch0: seq<Request>, p: Pass) {
    && p.batch == Without(batch0, Elements(p.evicted))
    && Distinct(p.evicted)
    && (forall r :: r in p.evicted ==> r in batch0)
  }

  /** The part before the cursor is exactly the surviving visited requests, each visited once. */
  predicate CursorAligned(p: Pass) {
    && Distinct(p.visited)
    && p.idx <= |p.batch|
    && p.batch[..p.idx] == Without(p.visited, Elements(p.evicted))
  }

  /** Tokens granted plus the budget left are the budget of the step. */
  predicate BudgetKept(c: Config, p: Pass) {
    && p.idx <= |p.batch|
    && (forall r :: r in p.granted ==> r in p.batch[..p.idx])
    && p.budget >= 0
    && Spent(p.batch, p.granted) + p.budget == c.maxBatchedTokens
  }

  predicate Sound(c: Config, batch0: seq<Request>, p: Pass) {
    KeepsOrder(batch0, p) && CursorAligned(p) && BudgetKept(c, p)
  }

  lemma EvictedBatch(batch0: seq<Request>, gone: seq<Request>, s: seq<Request>, v: nat)
    requires Distinct(batch0) && Distinct(gone) && s == Without(batch0, Elements(gone)) && v < |s|
    ensures RemoveAt(s, v) == Without(batch0, Elements(gone + [s[v]]))
    ensures Distinct(s) && Distinct(RemoveAt(s, v)) && Distinct(gone + [s[v]])
    ensures s[v] in batch0
    ensures forall r :: r in RemoveAt(s, v) <==> r in s && r != s[v]
  {
    DistinctWithout(batch0, Elements(gone));
    RemoveAtIsWithout(s, v);
    WithoutTwice(batch0, Elements(gone), {s[v]});
    assert Elements(gone + [s[v]]) == Elements(gone) + {s[v]};
    WithoutMembers(batch0, Elements(gone));
    assert s[v] in s;
    DistinctConcat(gone, [s[v]]);
  }

  lemma EvictedFront(s: seq<Request>, idx: nat, visited: seq<Request>, gone: seq<Request>, v: nat)
    requires Distinct(s) && idx <= |s| && v < |s|
    requires s[..idx] == Without(visited, Elements(gone))
    ensures RemoveAt(s, v)[..if v < idx then idx - 1 else idx] == Without(visited, Elements(gone + [s[v]]))
  {
    var front := s[..idx];
    WithoutTwice(visited, Elements(gone), {s[v]});
    assert Elements(gone + [s[v]]) == Elements(gone) + {s[v]};
    PrefixOfRemoveAt(s, v, idx);
    DistinctPrefix(s, idx);
    if v < idx {
      RemoveAtIsWithout(front, v);
    } else {
      WithoutAbsent(front, {s[v]});
    }
  }

  lemma EvictedGrants(s: seq<Request>, idx: nat, g: map<Request, nat>, v: nat)
    requires Distinct(s) && idx <= |s| && v < |s|
    requires forall r :: r in g ==> r in s[..idx]
    ensures forall r :: r in g - {s[v]} ==> r in RemoveAt(s, v)[..if v < idx then idx - 1 else idx]
  {
    PrefixOfRemoveAt(s, v, idx);
    DistinctPrefix(s, idx);
    if v < idx {
      RemoveAtIsWithout(s[..idx], v);
    }
  }

  lemma EvictOneSound(c: Config, batch0: seq<Request>, p: Pass)
    requires Distinct(batch0) && Sound(c, batch0, p) && p.batch != []
    ensures Sound(c, batch0, EvictOne(c.policy, p))
    ensures Distinct(p.batch)
    ensures var v := Victim(c.policy, p.batch);
            forall r :: r in EvictOne(c.policy, p).batch <==> r in p.batch && r != p.batch[v]
  {
    var v := Victim(c.policy, p.batch);
    var q := EvictOne(c.policy, p);
    EvictedBatch(batch0, p.evicted, p.batch, v);
    assert KeepsOrder(batch0, q);
    EvictedFront(p.batch, p.idx, p.visited, p.evicted, v);
    assert CursorAligned(q);
    SpentRemoved(p.batch, v, p.granted);
    EvictedGrants(p.batch, p.idx, p.granted, v);
    assert BudgetKept(c, q);
  }

  /** The index correction of one eviction: unless the served request is the victim, the cursor
      still points at it (`Requests[reqIndex - adjustment] == req`). */
  lemma EvictOneCursor(policy: PreemptionPolicy, p: Pass)
    requires p.idx < |p.batch| && Distinct(p.batch)
    ensures var v := Victim(policy, p.batch);
            var q := EvictOne(policy, p);
            if v == p.idx then p.batch[p.idx] !in q.batch
            else q.idx < |q.batch| && q.batch[q.idx] == p.batch[p.idx]
  {
    RemoveAtIsWithout(p.batch, Victim(policy, p.batch));
  }

  lemma {:induction false} EvictForFrame(policy: PreemptionPolicy, p: Pass, r: Request, fails: nat)
    ensures var q := EvictFor(policy, p, r, fails);
            && q.visited == p.visited && q.stopped == p.stopped && q.budget >= p.budget && p.evicted <= q.evicted
            && (forall s :: s in q.granted ==> s in p.granted && q.granted[s] == p.granted[s])
    decreases fails
  {
    if fails > 0 && r in p.batch {
      EvictForFrame(policy, EvictOne(policy, p), r, fails - 1);
    }
  }

  /** However many requests are evicted and wherever they sat, the cursor keeps pointing at the
      request being served until that request is itself evicted. */
  lemma {:induction false} EvictForSound(c: Config, batch0: seq<Request>, p: Pass, r: Request, fails: nat)
    requires Distinct(batch0) && Sound(c, batch0, p) && p.idx < |p.batch| && p.batch[p.idx] == r
    ensures Sound(c, batch0, EvictFor(c.policy, p, r, fails))
    ensures var q := EvictFor(c.policy, p, r, fails);
            r in q.batch ==> q.idx < |q.batch| && q.batch[q.idx] == r
    decreases fails
  {
    hide EvictOne, Sound, Distinct;
    if fails > 0 {
      var q := EvictOne(c.policy, p);
      EvictOneSound(c, batch0, p);
      EvictOneCursor(c.policy, p);
      if Victim(c.policy, p.batch) != p.idx {
        EvictForSound(c, batch0, q, r, fails - 1);
      }
    }
  }

  /** The request under the cursor has had no turn yet. */
  lemma CursorIsFresh(batch0: seq<Request>, p: Pass)
    requires Distinct(batch0) && KeepsOrder(batch0, p) && CursorAligned(p) && p.idx < |p.batch|
    ensures p.batch[p.idx] !in p.visited && p.batch[p.idx] !in p.evicted && Distinct(p.batch)
    ensures p.batch[..p.idx + 1] == p.batch[..p.idx] + [p.batch[p.idx]]
    ensures CursorAligned(p.(idx := p.idx + 1, visited := p.visited + [p.batch[p.idx]]))
  {
    var r := p.batch[p.idx];
    DistinctWithout(batch0, Elements(p.evicted));
    WithoutMembers(batch0, Elements(p.evicted));
    assert r in p.batch;
    DistinctPrefix(p.batch, p.idx);
    WithoutMembers(p.visited, Elements(p.evicted));
    DistinctConcat(p.visited, [r]);
    WithoutConcat(p.visited, [r], Elements(p.evicted));
  }

  lemma GrantedSound(c: Config, batch0: seq<Request>, q: Pass, r: Request, n: nat)
    requires Distinct(batch0) && Sound(c, batch0, q) && q.idx < |q.batch| && q.batch[q.idx] == r
    requires n <= q.budget
    ensures Sound(c, batch0, q.(idx := q.idx + 1, budget := q.budget - n, granted := q.granted[r := n],
                                visited := q.visited + [r]))
  {
    CursorIsFresh(batch0, q);
    DistinctPrefix(q.batch, q.idx);
    SpentGranted(q.batch, q.idx, q.granted, n);
  }

  lemma PassedSound(c: Config, batch0: seq<Request>, q: Pass, r: Request)
    requires Distinct(batch0) && Sound(c, batch0, q) && q.idx < |q.batch| && q.batch[q.idx] == r
    ensures Sound(c, batch0, q.(idx := q.idx + 1, visited := q.visited + [r]))
  {
    CursorIsFresh(batch0, q);
  }

  lemma VisitSound(c: Config, x: StepInputs, progress: map<Request, nat>, batch0: seq<Request>, p: Pass, fails: nat)
    requires Distinct(batch0) && Sound(c, batch0, p)
    ensures Sound(c, batch0, Visit(c, x, progress, p, fails))
  {
    hide EvictFor, Grant;
    if !Over(p) && p.batch[p.idx] in progress {
      var r := p.batch[p.idx];
      GrantWithinBudget(c, x, r, progress[r], p.budget);
      if !NeedsBlocks(c, x, r, progress[r], p.budget) {
        PassedSound(c, batch0, p, r);
      } else {
        EvictForSound(c, batch0, p, r, fails);
        EvictForFrame(c.policy, p, r, fails);
        var q := EvictFor(c.policy, p, r, fails);
        if r in q.batch {
          GrantedSound(c, batch0, q, r, Grant(c, x, r, progress[r], p.budget));
        } else {
          assert KeepsOrder(batch0, q.(stopped := true));
        }
      }
    }
  }

  lemma StartSound(c: Config, batch0: seq<Request>)
    ensures Sound(c, batch0, Start(c, batch0))
  {
    var none: seq<Request> := [];
    assert Elements(none) == {};
    WithoutAbsent(batch0, {});
    SpentNothing(batch0);
  }

  lemma {:induction false} SpentNothing(s: seq<Request>)
    ensures Spent(s, map[]) == 0
  {
    if s != [] {
      SpentNothing(s[1..]);
    }
  }

  lemma {:induction false} RunSound(c: Config, x: StepInputs, progress: map<Request, nat>, batch0: seq<Request>, fails: seq<nat>)
    requires Distinct(batch0)
    ensures Sound(c, batch0, Run(c, x, progress, batch0, fails))
  {
    if fails == [] {
      StartSound(c, batch0);
    } else {
      RunSound(c, x, progress, batch0, fails[..|fails| - 1]);
      VisitSound(c, x, progress, batch0, Run(c, x, progress, batch0, fails[..|fails| - 1]), fails[|fails| - 1]);
    }
  }

  lemma {:induction false} NothingToServe(c: Config, x: StepInputs, progress: map<Request, nat>, fails: seq<nat>)
    ensures Run(c, x, progress, [], fails) == Start(c, [])
  {
    if fails != [] {
      NothingToServe(c, x, progress, fails[..|fails| - 1]);
    }
  }
}
