/** What phase 1 promises under each preemption policy. */
module RunningPassOrder {
  import opened Requests
  import opened Sequences
  import opened Limits
  import opened RunningPass

  // ----- fcfs: the tail is evicted -----

  /** Every request of `front`, served in order from `budget`, was granted what is due with the
      budget the ones before it left. */
  predicate ExactGrants(c: Config, x: StepInputs, progress: map<Request, nat>, front: seq<Request>,
                        g: map<Request, nat>, budget: int)
  {
    front == [] ||
    (&& budget >= 0
     && front[0] in progress
     && Tokens(g, front[0]) == Grant(c, x, front[0], progress[front[0]], budget)
     && ExactGrants(c, x, progress, front[1..], g, budget - Tokens(g, front[0])))
  }

  /** The surviving batch followed by the evicted, last evicted first, is the old batch, and every
      grant is exact. */
  predicate FcfsShape(c: Config, x: StepInputs, progress: map<Request, nat>, batch0: seq<Request>, p: Pass) {
    && p.batch + Reverse(p.evicted) == batch0
    && p.idx <= |p.batch|
    && (p.stopped ==> p.idx == |p.batch|)
    && p.budget == c.maxBatchedTokens - Spent(p.batch[..p.idx], p.granted)
    && ExactGrants(c, x, progress, p.batch[..p.idx], p.granted, c.maxBatchedTokens)
  }

  lemma FcfsEvictsTail(c: Config, batch0: seq<Request>, p: Pass)
    requires c.policy == Fcfs && Distinct(batch0) && Sound(c, batch0, p) && p.idx < |p.batch|
    ensures var q := EvictOne(c.policy, p);
            && q.budget == p.budget && q.idx == p.idx && q.granted == p.granted
            && q.batch == p.batch[..|p.batch| - 1]
            && q.batch + Reverse(q.evicted) == p.batch + Reverse(p.evicted)
  {
    hide Without, Spent, KeepsOrder, CursorAligned, Reverse;
    var q := EvictOne(c.policy, p);
    var last := p.batch[|p.batch| - 1];
    CursorIsFresh(batch0, p);
    DistinctPrefix(p.batch, p.idx);
    ReverseSnoc(p.evicted, last);
    assert p.batch == q.batch + [last];
    assert last !in p.granted;
  }

  /** Evicting tails while serving `r` leaves the cursor, the budget and every grant alone: the
      refund and the index adjustment are dead under fcfs. */
  lemma {:induction false} FcfsNeverRefunds(c: Config, batch0: seq<Request>, p: Pass, r: Request, fails: nat)
    requires c.policy == Fcfs && Distinct(batch0) && Sound(c, batch0, p)
    requires p.idx < |p.batch| && p.batch[p.idx] == r
    ensures var q := EvictFor(c.policy, p, r, fails);
            && q.budget == p.budget && q.idx == p.idx && q.granted == p.granted
            && q.batch == p.batch[..Max(|p.batch| - fails, p.idx)]
            && q.batch + Reverse(q.evicted) == p.batch + Reverse(p.evicted)
            && (r in q.batch <==> fails < |p.batch| - p.idx)
    decreases fails
  {
    hide EvictOne, KeepsOrder, BudgetKept;
    CursorIsFresh(batch0, p);
    if fails > 0 {
      var q := EvictOne(c.policy, p);
      EvictOneSound(c, batch0, p);
      FcfsEvictsTail(c, batch0, p);
      if |p.batch| - 1 == p.idx {
        DistinctPrefix(p.batch, p.idx);
        assert EvictFor(c.policy, q, r, fails - 1) == q;
      } else {
        assert q.batch[q.idx] == r;
        FcfsNeverRefunds(c, batch0, q, r, fails - 1);
      }
    }
  }

  lemma {:induction false} SpentUntouched(s: seq<Request>, g: map<Request, nat>)
    requires forall r :: r in s ==> r !in g
    ensures Spent(s, g) == 0
  {
    if s != [] {
      SpentUntouched(s[1..], g);
    }
  }

  lemma {:induction false} ExactGrantsGrow(
      c: Config, x: StepInputs, progress: map<Request, nat>, front: seq<Request>, r: Request,
      g: map<Request, nat>, h: map<Request, nat>, budget: int)
    requires ExactGrants(c, x, progress, front, g, budget) && r in progress
    requires forall s :: s in front ==> Tokens(g, s) == Tokens(h, s)
    requires 0 <= budget - Spent(front, g)
    requires Tokens(h, r) == Grant(c, x, r, progress[r], budget - Spent(front, g))
    ensures ExactGrants(c, x, progress, front + [r], h, budget)
    ensures Spent(front + [r], h) == Spent(front, g) + Tokens(h, r)
  {
    hide Grant;
    if front != [] {
      ExactGrantsGrow(c, x, progress, front[1..], r, g, h, budget - Tokens(g, front[0]));
      assert (front + [r])[1..] == front[1..] + [r];
    }
  }

  lemma FcfsVisit(c: Config, x: StepInputs, progress: map<Request, nat>, batch0: seq<Request>, p: Pass, fails: nat)
    requires c.policy == Fcfs && Distinct(batch0) && Sound(c, batch0, p)
    requires FcfsShape(c, x, progress, batch0, p)
    ensures FcfsShape(c, x, progress, batch0, Visit(c, x, progress, p, fails))
  {
    hide EvictFor, Grant, KeepsOrder, CursorAligned, ExactGrants, Spent, Reverse, Distinct;
    if !Over(p) && p.batch[p.idx] in progress {
      var r := p.batch[p.idx];
      var n := Grant(c, x, r, progress[r], p.budget);
      var z := Visit(c, x, progress, p, fails);
      CursorIsFresh(batch0, p);
      DistinctPrefix(p.batch, p.idx);
      var front := p.batch[..p.idx];
      if NeedsBlocks(c, x, r, progress[r], p.budget) {
        FcfsNeverRefunds(c, batch0, p, r, fails);
        var q := EvictFor(c.policy, p, r, fails);
        EvictForFrame(c.policy, p, r, fails);
        assert q.batch[..q.idx] == front;
        if r in q.batch {
          ExactGrantsGrow(c, x, progress, front, r, p.granted, p.granted[r := n], c.maxBatchedTokens);
          assert z.batch[..z.idx] == front + [r];
        }
      } else {
        ExactGrantsGrow(c, x, progress, front, r, p.granted, p.granted, c.maxBatchedTokens);
      }
    }
  }

  /** fcfs over any pass: the order of the batch is kept exactly, the evicted are its tail, and the
      grants are exact. */
  lemma {:induction false} FcfsRun(c: Config, x: StepInputs, progress: map<Request, nat>, batch0: seq<Request>, fails: seq<nat>)
    requires c.policy == Fcfs && Distinct(batch0)
    ensures FcfsShape(c, x, progress, batch0, Run(c, x, progress, batch0, fails))
  {
    if fails != [] {
      var before := fails[..|fails| - 1];
      FcfsRun(c, x, progress, batch0, before);
      RunSound(c, x, progress, batch0, before);
      FcfsVisit(c, x, progress, batch0, Run(c, x, progress, batch0, before), fails[|fails| - 1]);
    }
  }

  // ----- priority: the least urgent is evicted -----

  /** Nobody still running is less urgent than anybody evicted, and the evicted were taken least
      urgent first: put back one by one at the queue head they stand most urgent first. */
  predicate LeastUrgentFirst(p: Pass) {
    && (forall e, r :: e in p.evicted && r in p.batch ==> !LessUrgent(r, e))
    && (forall i, j :: 0 <= i < j < |p.evicted| ==> !LessUrgent(p.evicted[j], p.evicted[i]))
  }

  lemma PriorityEvictOne(p: Pass)
    requires p.batch != [] && LeastUrgentFirst(p)
    ensures LeastUrgentFirst(EvictOne(Priority, p))
  {
    PriorityVictimIsLeastUrgent(p.batch);
    var v := PriorityVictim(p.batch);
    var q := EvictOne(Priority, p);
    assert p.batch[v] in p.batch;
    forall e, r | e in q.evicted && r in q.batch ensures !LessUrgent(r, e) {
      assert r in p.batch;
    }
  }

  lemma {:induction false} PriorityEvictFor(p: Pass, r: Request, fails: nat)
    requires LeastUrgentFirst(p)
    ensures LeastUrgentFirst(EvictFor(Priority, p, r, fails))
    decreases fails
  {
    hide LeastUrgentFirst, EvictOne;
    if fails > 0 && r in p.batch {
      PriorityEvictOne(p);
      PriorityEvictFor(EvictOne(Priority, p), r, fails - 1);
    }
  }

  /** Globally least urgent first, over every pass in priority mode. */
  lemma {:induction false} PriorityRun(c: Config, x: StepInputs, progress: map<Request, nat>, batch0: seq<Request>, fails: seq<nat>)
    requires c.policy == Priority
    ensures LeastUrgentFirst(Run(c, x, progress, batch0, fails))
  {
    hide Grant, EvictFor;
    if fails != [] {
      var p := Run(c, x, progress, batch0, fails[..|fails| - 1]);
      PriorityRun(c, x, progress, batch0, fails[..|fails| - 1]);
      if !Over(p) && p.batch[p.idx] in progress {
        PriorityEvictFor(p, p.batch[p.idx], fails[|fails| - 1]);
      }
    }
  }

  // ----- who is served -----

  /** A request short of its boundary got at least one token and is not carried past the boundary. */
  predicate Fed(c: Config, progress: map<Request, nat>, granted: map<Request, nat>, r: Request) {
    r in progress && progress[r] < Boundary(c, r) ==>
      0 < Tokens(granted, r) && progress[r] + Tokens(granted, r) <= Boundary(c, r)
  }

  predicate Served(c: Config, progress: map<Request, nat>, p: Pass) {
    forall r :: r in p.visited && r !in p.evicted ==> Fed(c, progress, p.granted, r)
  }

  lemma ServedEvictOne(c: Config, progress: map<Request, nat>, p: Pass)
    requires Served(c, progress, p) && p.batch != []
    ensures Served(c, progress, EvictOne(c.policy, p))
  {
    hide Boundary;
    var v := Victim(c.policy, p.batch);
    assert p.batch[v] in EvictOne(c.policy, p).evicted;
  }

  lemma {:induction false} ServedEvictFor(c: Config, progress: map<Request, nat>, p: Pass, r: Request, fails: nat)
    requires Served(c, progress, p)
    ensures Served(c, progress, EvictFor(c.policy, p, r, fails))
    decreases fails
  {
    hide Served, EvictOne;
    if fails > 0 && r in p.batch {
      ServedEvictOne(c, progress, p);
      ServedEvictFor(c, progress, EvictOne(c.policy, p), r, fails - 1);
    }
  }

  lemma ServedVisit(c: Config, x: StepInputs, progress: map<Request, nat>, batch0: seq<Request>, p: Pass, fails: nat)
    requires Distinct(batch0) && Sound(c, batch0, p) && Served(c, progress, p)
    ensures Served(c, progress, Visit(c, x, progress, p, fails))
  {
    hide EvictFor, Grant, Boundary, KeepsOrder, CursorAligned, BudgetKept;
    if !Over(p) && p.batch[p.idx] in progress {
      var r := p.batch[p.idx];
      if progress[r] < Boundary(c, r) {
        GrantStopsAtBoundary(c, x, r, progress[r], p.budget);
      }
      ServedEvictFor(c, progress, p, r, fails);
    }
  }

  lemma {:induction false} ServedRun(c: Config, x: StepInputs, progress: map<Request, nat>, batch0: seq<Request>, fails: seq<nat>)
    requires Distinct(batch0)
    ensures Served(c, progress, Run(c, x, progress, batch0, fails))
  {
    if fails != [] {
      var before := fails[..|fails| - 1];
      ServedRun(c, x, progress, batch0, before);
      RunSound(c, x, progress, batch0, before);
      ServedVisit(c, x, progress, batch0, Run(c, x, progress, batch0, before), fails[|fails| - 1]);
    }
  }

  /** No survivor is carried past its boundary. */
  lemma SurvivorsStayWithin(c: Config, x: StepInputs, progress: map<Request, nat>, batch0: seq<Request>, fails: seq<nat>)
    requires Distinct(batch0)
    requires forall r :: r in batch0 ==> r in progress && progress[r] < Boundary(c, r)
    ensures var p := Run(c, x, progress, batch0, fails);
            forall r :: r in p.batch ==> r in batch0 && r !in p.evicted && progress[r] + Tokens(p.granted, r) <= Boundary(c, r)
  {
    hide Run, Boundary;
    var p := Run(c, x, progress, batch0, fails);
    RunSound(c, x, progress, batch0, fails);
    ServedRun(c, x, progress, batch0, fails);
    WithoutMembers(batch0, Elements(p.evicted));
    WithoutMembers(p.visited, Elements(p.evicted));
    assert KeepsOrder(batch0, p);
    forall r | r in p.batch
      ensures r in batch0 && r !in p.evicted && progress[r] + Tokens(p.granted, r) <= Boundary(c, r)
    {
      if r in p.granted {
        assert r in p.batch[..p.idx];
        assert Fed(c, progress, p.granted, r);
      }
    }
  }

  /** What a finished pass leaves out: every running request is granted a token iff nobody is left behind
      the cursor, and requests are left behind only by an exhausted budget or by a served request that was
      its own victim; under fcfs the latter leaves nobody behind. */
  lemma LeftBehind(c: Config, x: StepInputs, progress: map<Request, nat>, batch0: seq<Request>, fails: seq<nat>)
    requires Distinct(batch0)
    requires forall r :: r in batch0 ==> r in progress && progress[r] < Boundary(c, r)
    requires Over(Run(c, x, progress, batch0, fails))
    ensures var p := Run(c, x, progress, batch0, fails);
            && ((forall r :: r in p.batch ==> Tokens(p.granted, r) > 0) <==> p.idx == |p.batch|)
            && (p.idx < |p.batch| ==> p.budget == 0 || (p.stopped && c.policy == Priority))
            && (p.idx == |p.batch| ==> Without(p.visited, Elements(p.evicted)) == p.batch)
  {
    hide Boundary, Run;
    var p := Run(c, x, progress, batch0, fails);
    RunSound(c, x, progress, batch0, fails);
    ServedRun(c, x, progress, batch0, fails);
    WithoutMembers(batch0, Elements(p.evicted));
    if c.policy == Fcfs {
      FcfsRun(c, x, progress, batch0, fails);
    }
    WithoutMembers(p.visited, Elements(p.evicted));
    DistinctWithout(batch0, Elements(p.evicted));
    DistinctPrefix(p.batch, p.idx);
    if p.idx < |p.batch| {
      assert p.batch[p.idx] in p.batch && p.batch[p.idx] !in p.granted;
    } else {
      assert p.batch[..p.idx] == p.batch;
      forall r | r in p.batch ensures Tokens(p.granted, r) > 0 {
        assert Fed(c, progress, p.granted, r);
      }
    }
  }

  /** Priority mode can leave a running decode request without a token although budget remains: the
      middle request of three is the least urgent, its own allocation fails, it is its own victim,
      and the third request is never visited. */
  lemma SelfEvictionSkipsTheRest(c: Config, x: StepInputs, a: Request, b: Request, d: Request)
    requires c.policy == Priority && c.maxBatchedTokens >= 10 && c.maxModelLen == 0 && x.proposals.None?
    requires a != b && b != d && a != d
    requires a.priority == 0 && b.priority == 5 && d.priority == 1
    requires |a.inputTokens| == |b.inputTokens| == |d.inputTokens| == 4
    requires |a.outputTokens| == |b.outputTokens| == |d.outputTokens| == 9
    ensures var p := Run(c, x, map[a := 4, b := 4, d := 4], [a, b, d], [0, 1]);
            && Over(p) && p.budget > 0 && p.batch == [a, d] && p.evicted == [b]
            && Tokens(p.granted, a) == 1 && Tokens(p.granted, d) == 0
  {
    var progress := map[a := 4, b := 4, d := 4];
    var s0 := Start(c, [a, b, d]);
    var s1 := s0.(idx := 1, budget := c.maxBatchedTokens - 1, granted := map[a := 1], visited := [a]);
    assert Run(c, x, progress, [a, b, d], []) == s0;
    assert Visit(c, x, progress, s0, 0) == s1;
    assert [0][..0] == [] && [0, 1][..1] == [0];
    hide Visit;
    assert Run(c, x, progress, [a, b, d], [0]) == s1;
    SelfEviction(c, x, a, b, d, s1);
  }

  lemma SelfEviction(c: Config, x: StepInputs, a: Request, b: Request, d: Request, s: Pass)
    requires c.policy == Priority && c.maxModelLen == 0 && x.proposals.None?
    requires a != b && b != d && a != d
    requires a.priority == 0 && b.priority == 5 && d.priority == 1
    requires |b.inputTokens| == 4 && |b.outputTokens| == 9
    requires s.batch == [a, b, d] && s.idx == 1 && s.budget > 0 && s.granted == map[a := 1] && s.evicted == [] && !s.stopped
    ensures var p := Visit(c, x, map[a := 4, b := 4, d := 4], s, 1);
            && p.stopped && p.budget == s.budget && p.batch == [a, d] && p.evicted == [b] && p.granted == s.granted
  {
    PriorityVictimIsLeastUrgent(s.batch);
    VictimUnique(s.batch, PriorityVictim(s.batch), 1);
    hide PriorityVictim;
    var q := EvictOne(Priority, s);
    assert q.batch == [a, d] && q.granted == s.granted;
    assert EvictFor(Priority, s, b, 1) == EvictFor(Priority, q, b, 0) == q;
  }
}
