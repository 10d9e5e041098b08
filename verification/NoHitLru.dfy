/** The no-hit-lru scorer: cold requests go round the instances, least recently used first
    (sim/routing_nohit_lru_scorer.go). */
module NoHitLru {
  import opened Requests
  import opened Sequences

  // ----- What the pair computes -----

  /** Some instance answers that it holds blocks of the request; `hits` is what each one answers. */
  predicate IsWarm(hits: map<string, int>, snapshots: seq<string>) {
    exists i :: 0 <= i < |snapshots| && snapshots[i] in hits && hits[snapshots[i]] > 0
  }

  /** Instances that left are forgotten; a lone instance is scored before that happens. */
  function Pruned(order: seq<string>, snapshots: seq<string>): seq<string> {
    if |snapshots| <= 1 then order else Only(order, Elements(snapshots))
  }

  /** Best first: the never used in snapshot order, then the used from the oldest to the newest. */
  function Ranked(order: seq<string>, snapshots: seq<string>): seq<string> {
    Without(snapshots, Elements(order)) + Reverse(order)
  }

  function RankScore(rank: nat, total: nat): real
    requires total > 1
  {
    1.0 - rank as real / (total - 1) as real
  }

  /** Scores given in turn to `ids`, a later one overwriting an earlier one. */
  function ByRank(ids: seq<string>, total: nat): (scores: map<string, real>)
    requires total > 1
    ensures scores.Keys == Elements(ids)
  {
    if ids == [] then map[]
    else
      assert ids == ids[..|ids| - 1] + [ids[|ids| - 1]];
      ByRank(ids[..|ids| - 1], total)[ids[|ids| - 1] := RankScore(|ids| - 1, total)]
  }

  function Neutral(ids: seq<string>): map<string, real> {
    map id | id in Elements(ids) :: 0.5
  }

  function ColdScores(order: seq<string>, snapshots: seq<string>): map<string, real> {
    if |snapshots| == 0 then map[]
    else if |snapshots| == 1 then map[snapshots[0] := 1.0]
    else ByRank(Ranked(Pruned(order, snapshots), snapshots), |snapshots|)
  }

  /** A cold request routed to `target` makes it the most recently used. */
  function Used(order: seq<string>, target: string): seq<string> {
    [target] + Without(order, {target})
  }

  // ----- The pair -----

  class NoHitLruScorer {
    var lruOrder: seq<string>   // most recently used first
    var lruSet: set<string>
    var lastWarm: bool
    var lastReqID: string

    constructor ()
      ensures Valid() && lruOrder == [] && !lastWarm && lastReqID == ""
    {
      lruOrder, lruSet, lastWarm, lastReqID := [], {}, false, "";
    }

    /** The order has no duplicates, and the set is its element set. */
    ghost predicate Valid()
      reads this
    {
      Distinct(lruOrder) && lruSet == Elements(lruOrder)
    }

    /** `hits` is None when no cache query is configured. */
    method Score(req: Option<Request>, hits: Option<map<string, int>>, snapshots: seq<string>)
      returns (scores: map<string, real>)
      requires Valid()
      modifies this
      ensures Valid()
      ensures var warm := req.None? || hits.None? || IsWarm(hits.value, snapshots);
              && lastWarm == warm
              && lastReqID == (if req.None? || hits.None? then "" else req.value.id)
              && scores == (if warm then Neutral(snapshots) else ColdScores(old(lruOrder), snapshots))
              && lruOrder == (if warm then old(lruOrder) else Pruned(old(lruOrder), snapshots))
    {
      if req.None? || hits.None? {
        scores := AllNeutral(snapshots);
        lastWarm, lastReqID := true, "";
        return;
      }
      lastReqID := req.value.id;
      lastWarm := AnyHit(hits.value, snapshots);
      if lastWarm {
        scores := AllNeutral(snapshots);
        return;
      }
      var total := |snapshots|;
      if total <= 1 {
        scores := map[];
        if total == 1 { scores := scores[snapshots[0] := 1.0]; }
        return;
      }
      Prune(snapshots);
      scores := Rank(snapshots);
    }

    method AllNeutral(snapshots: seq<string>) returns (scores: map<string, real>)
      ensures scores == Neutral(snapshots)
    {
      scores := map[];
      var i := 0;
      while i < |snapshots|
        invariant i <= |snapshots| && scores == Neutral(snapshots[..i])
      {
        assert snapshots[..i + 1] == snapshots[..i] + [snapshots[i]];
        scores := scores[snapshots[i] := 0.5];
        i := i + 1;
      }
      assert snapshots[..i] == snapshots;
    }

    method AnyHit(hits: map<string, int>, snapshots: seq<string>) returns (warm: bool)
      ensures warm <==> IsWarm(hits, snapshots)
    {
      var i := 0;
      while i < |snapshots|
        invariant i <= |snapshots|
        invariant forall k :: 0 <= k < i ==> !(snapshots[k] in hits && hits[snapshots[k]] > 0)
      {
        if snapshots[i] in hits && hits[snapshots[i]] > 0 { return true; }
        i := i + 1;
      }
      return false;
    }

    /** Drops the instances that are no longer there, from the order and from the set. */
    method Prune(snapshots: seq<string>)
      requires Valid()
      modifies this`lruOrder, this`lruSet
      ensures Valid() && lruOrder == Only(old(lruOrder), Elements(snapshots))
    {
      var current := {};
      var i := 0;
      while i < |snapshots|
        invariant i <= |snapshots| && current == Elements(snapshots[..i])
      {
        assert snapshots[..i + 1] == snapshots[..i] + [snapshots[i]];
        current := current + {snapshots[i]};
        i := i + 1;
      }
      assert snapshots[..i] == snapshots;
      var pruned := [];
      i := 0;
      while i < |lruOrder|
        invariant i <= |lruOrder| && lruOrder == old(lruOrder)
        invariant pruned == Only(lruOrder[..i], current)
        invariant lruSet == Elements(lruOrder) - (Elements(lruOrder[..i]) - current)
      {
        var id := lruOrder[i];
        assert lruOrder[..i + 1] == lruOrder[..i] + [id];
        OnlyConcat(lruOrder[..i], [id], current);
        OnlyOne(id, current);
        ElementsConcat(lruOrder[..i], [id]);
        if id in current {
          pruned := pruned + [id];
        } else {
          lruSet := lruSet - {id};
        }
        i := i + 1;
      }
      assert lruOrder[..i] == lruOrder;
      ElementsOnly(lruOrder, current);
      DistinctOnly(lruOrder, current);
      lruOrder := pruned;
    }

    method Rank(snapshots: seq<string>) returns (scores: map<string, real>)
      requires Valid() && |snapshots| > 1
      ensures scores == ByRank(Ranked(lruOrder, snapshots), |snapshots|)
    {
      hide ByRank, Without, Reverse, RankScore, Distinct, Elements;
      var total := |snapshots|;
      var neverUsed := [];
      NothingRanked(snapshots, lruSet);
      var i := 0;
      while i < |snapshots|
        invariant i <= |snapshots| && neverUsed == Without(snapshots[..i], lruSet)
      {
        assert snapshots[..i + 1] == snapshots[..i] + [snapshots[i]];
        WithoutConcat(snapshots[..i], [snapshots[i]], lruSet);
        WithoutOne(snapshots[i], lruSet);
        if snapshots[i] !in lruSet {
          neverUsed := neverUsed + [snapshots[i]];
        }
        i := i + 1;
      }
      assert snapshots[..i] == snapshots;
      ghost var ranked := Ranked(lruOrder, snapshots);
      var rank := 0;
      scores := map[];
      while rank < |neverUsed|
        invariant rank <= |neverUsed| && scores == ByRank(ranked[..rank], total)
      {
        ByRankNext(ranked, rank, total);
        assert ranked[rank] == neverUsed[rank];
        scores := scores[neverUsed[rank] := RankScore(rank, total)];
        rank := rank + 1;
      }
      i := |lruOrder| - 1;
      while i >= 0
        invariant -1 <= i < |lruOrder| && rank == |neverUsed| + |lruOrder| - 1 - i
        invariant scores == ByRank(ranked[..rank], total)
      {
        ByRankNext(ranked, rank, total);
        assert ranked[rank] == lruOrder[i];
        scores := scores[lruOrder[i] := RankScore(rank, total)];
        rank := rank + 1;
        i := i - 1;
      }
      assert ranked[..rank] == ranked;
    }

    /** Only a cold request, the one just scored, moves its target to the front. */
    method Observe(req: Option<Request>, target: string)
      requires Valid()
      modifies this`lruOrder, this`lruSet
      ensures Valid()
      ensures lruOrder == if req.None? || lastWarm || req.value.id != lastReqID then old(lruOrder) else Used(old(lruOrder), target)
    {
      if req.None? { return; }
      if lastWarm || req.value.id != lastReqID { return; }
      ghost var was := lruOrder;
      if target in lruSet {
        TakeOut(target);
      } else {
        WithoutAbsent(was, {target});
      }
      DistinctWithout(was, {target});
      ElementsWithout(was, {target});
      hide Without;
      DistinctConcat([target], lruOrder);
      ElementsConcat([target], lruOrder);
      lruOrder := [target] + lruOrder;
      lruSet := lruSet + {target};
    }

    method TakeOut(target: string)
      requires Distinct(lruOrder) && target in lruOrder
      modifies this`lruOrder
      ensures lruOrder == Without(old(lruOrder), {target})
    {
      var i := 0;
      while i < |lruOrder|
        invariant i <= |lruOrder| && lruOrder == old(lruOrder)
        invariant target !in lruOrder[..i]
      {
        if lruOrder[i] == target {
          WithoutAt(lruOrder, i);
          lruOrder := lruOrder[..i] + lruOrder[i + 1..];
          return;
        }
        i := i + 1;
      }
    }
  }

  lemma NothingRanked(snapshots: seq<string>, gone: set<string>)
    requires |snapshots| > 1
    ensures Without(snapshots[..0], gone) == [] && ByRank([], |snapshots|) == map[]
  {
  }

  lemma ByRankNext(ranked: seq<string>, rank: nat, total: nat)
    requires rank < |ranked| && total > 1
    ensures ByRank(ranked[..rank + 1], total) == ByRank(ranked[..rank], total)[ranked[rank] := RankScore(rank, total)]
  {
    assert ranked[..rank + 1][..rank] == ranked[..rank];
  }

  // ----- The scores of a cold request -----

  /** Over distinct instances the ranking is a rearrangement of them, and scored by rank. */
  lemma RankingIsPermutation(order: seq<string>, snapshots: seq<string>)
    requires Distinct(order) && Distinct(snapshots) && |snapshots| > 1
    ensures var ranked := Ranked(Pruned(order, snapshots), snapshots);
            && Distinct(ranked) && multiset(ranked) == multiset(snapshots) && |ranked| == |snapshots|
            && forall r :: 0 <= r < |ranked| ==>
                 ranked[r] in ColdScores(order, snapshots) && ColdScores(order, snapshots)[ranked[r]] == RankScore(r, |snapshots|)
  {
    var kept := Pruned(order, snapshots);
    var unused := Without(snapshots, Elements(kept));
    DistinctOnly(order, Elements(snapshots));
    ElementsOnly(order, Elements(snapshots));
    DistinctWithout(snapshots, Elements(kept));
    ElementsWithout(snapshots, Elements(kept));
    DistinctReverse(kept);
    var ranked := Ranked(kept, snapshots);
    assert Elements(unused) !! Elements(Reverse(kept));
    forall x | x in unused ensures x !in Reverse(kept) {
      assert x in Elements(unused);
    }
    DistinctConcat(unused, Reverse(kept));
    ElementsConcat(unused, Reverse(kept));
    SameElements(ranked, snapshots);
    assert |multiset(ranked)| == |multiset(snapshots)|;
    forall r | 0 <= r < |ranked|
      ensures ranked[r] in ByRank(ranked, |snapshots|) && ByRank(ranked, |snapshots|)[ranked[r]] == RankScore(r, |snapshots|)
    {
      ByRankAt(ranked, |snapshots|, r);
    }
  }

  /** From 1 for the first of n instances down to 0 for the last, in equal steps. */
  lemma ScoresFallEvenly(order: seq<string>, snapshots: seq<string>, r: nat)
    requires Distinct(order) && Distinct(snapshots) && |snapshots| > 1 && r < |snapshots|
    ensures var ranked, scores := Ranked(Pruned(order, snapshots), snapshots), ColdScores(order, snapshots);
            && |ranked| == |snapshots| && ranked[r] in scores
            && scores[ranked[r]] == (|snapshots| - 1 - r) as real / (|snapshots| - 1) as real
  {
    RankingIsPermutation(order, snapshots);
    hide Ranked, Pruned, ColdScores, Distinct;
    EvenStep(r, |snapshots|);
  }

  lemma EvenStep(r: nat, n: nat)
    requires r < n && n > 1
    ensures RankScore(r, n) == (n - 1 - r) as real / (n - 1) as real
  {
    var d := (n - 1) as real;
    assert (n - 1 - r) as real == d - r as real;
    assert (d - r as real) / d == d / d - r as real / d;
  }

  lemma {:induction false} ByRankAt(ids: seq<string>, total: nat, r: nat)
    requires total > 1 && Distinct(ids) && r < |ids|
    ensures ids[r] in ByRank(ids, total) && ByRank(ids, total)[ids[r]] == RankScore(r, total)
  {
    if r < |ids| - 1 {
      ByRankAt(ids[..|ids| - 1], total, r);
    }
  }

  /** The first in the ranking scores strictly more than every other instance. */
  lemma FirstScoresMost(order: seq<string>, snapshots: seq<string>, id: string)
    requires Distinct(order) && Distinct(snapshots) && |snapshots| > 1 && id in snapshots
    ensures var ranked := Ranked(Pruned(order, snapshots), snapshots);
            var scores := ColdScores(order, snapshots);
            && ranked != [] && ranked[0] in scores && scores[ranked[0]] == 1.0 && id in scores
            && 0.0 <= scores[id] <= 1.0 && (id != ranked[0] ==> scores[id] < 1.0)
  {
    RankingIsPermutation(order, snapshots);
    var ranked := Ranked(Pruned(order, snapshots), snapshots);
    hide Ranked, Pruned, ColdScores, RankScore, Distinct;
    assert id in multiset(ranked);
    var r :| 0 <= r < |ranked| && ranked[r] == id;
    RankScoreBounds(0, |snapshots|);
    RankScoreBounds(r, |snapshots|);
  }

  lemma RankScoreBounds(r: nat, total: nat)
    requires total > 1 && r < total
    ensures 0.0 <= RankScore(r, total) <= 1.0
    ensures if r == 0 then RankScore(r, total) == 1.0 else RankScore(r, total) < 1.0
  {
    var q, d := r as real, (total - 1) as real;
    assert 0.0 <= q <= d && d > 0.0;
    assert 0.0 <= q / d <= 1.0;
    assert q > 0.0 ==> q / d > 0.0;
  }

  // ----- Cold requests in a row -----

  /** Where a cold request goes. */
  function Next(order: seq<string>, snapshots: seq<string>): string
    requires |snapshots| > 1 && Ranked(Pruned(order, snapshots), snapshots) != []
  {
    Ranked(Pruned(order, snapshots), snapshots)[0]
  }

  /** It is a never-used instance if there is one, otherwise the one used longest ago. */
  lemma NextIsUnusedOrOldest(order: seq<string>, snapshots: seq<string>)
    requires Distinct(order) && Distinct(snapshots) && |snapshots| > 1
    ensures Ranked(Pruned(order, snapshots), snapshots) != []
    ensures var next := Next(order, snapshots);
            if exists id :: id in snapshots && id !in order
            then next !in order && exists k :: 0 <= k < |snapshots| && next == snapshots[k] && forall i :: 0 <= i < k ==> snapshots[i] in order
            else |Pruned(order, snapshots)| == |snapshots| && next == Pruned(order, snapshots)[|snapshots| - 1]
  {
    var kept := Pruned(order, snapshots);
    var unused := Without(snapshots, Elements(kept));
    RankingIsPermutation(order, snapshots);
    ElementsOnly(order, Elements(snapshots));
    ElementsWithout(snapshots, Elements(kept));
    if unused == [] {
      assert Elements(snapshots) - Elements(kept) == {};
      forall id | id in snapshots ensures id in order {
        assert id in Elements(snapshots);
        assert id in Elements(snapshots) - Elements(kept) || id in Elements(kept);
        assert id in Elements(order);
      }
      assert Ranked(kept, snapshots) == Reverse(kept);
    } else {
      var k := FirstOfWithout(snapshots, Elements(kept));
      assert unused[0] in Elements(unused);
      assert snapshots[k] == unused[0];
      assert forall id :: id in snapshots ==> (id in kept <==> id in order) by {
        forall id | id in snapshots ensures id in kept <==> id in order {
          assert id in Elements(kept) <==> id in Elements(order);
        }
      }
    }
  }

  lemma {:induction false} FirstOfWithout(s: seq<string>, gone: set<string>) returns (k: nat)
    requires Without(s, gone) != []
    ensures k < |s| && s[k] == Without(s, gone)[0] && s[k] !in gone
    ensures forall i :: 0 <= i < k ==> s[i] in gone
  {
    WithoutFirst(s, gone);
    if s[0] in gone {
      hide Without;
      var j := FirstOfWithout(s[1..], gone);
      k := j + 1;
      assert s[k] == s[1..][j];
      forall i | 0 <= i < k ensures s[i] in gone {
        assert i > 0 ==> s[i] == s[1..][i - 1];
      }
    } else {
      k := 0;
    }
  }

  /** The order after a stretch of requests over a fixed set of instances; a warm one changes nothing. */
  function After(order: seq<string>, snapshots: seq<string>, cold: seq<bool>): (z: seq<string>)
    requires Distinct(order) && Distinct(snapshots) && |snapshots| > 1
    ensures Distinct(z)
  {
    if cold == [] then order
    else
      var before := After(order, snapshots, cold[..|cold| - 1]);
      if !cold[|cold| - 1] then before
      else
        NextIsUnusedOrOldest(before, snapshots);
        UsedDistinct(Pruned(before, snapshots), before, snapshots, Next(before, snapshots));
        Used(Pruned(before, snapshots), Next(before, snapshots))
  }

  lemma UsedDistinct(kept: seq<string>, order: seq<string>, snapshots: seq<string>, target: string)
    requires Distinct(order) && kept == Pruned(order, snapshots)
    ensures Distinct(Used(kept, target))
  {
    DistinctOnly(order, Elements(snapshots));
    DistinctWithout(kept, {target});
    WithoutMembers(kept, {target});
    DistinctConcat([target], Without(kept, {target}));
  }

  /** Where its cold requests went, in turn. */
  function Targets(order: seq<string>, snapshots: seq<string>, cold: seq<bool>): seq<string>
    requires Distinct(order) && Distinct(snapshots) && |snapshots| > 1
  {
    if cold == [] then []
    else
      var before := After(order, snapshots, cold[..|cold| - 1]);
      var targets := Targets(order, snapshots, cold[..|cold| - 1]);
      if !cold[|cold| - 1] then targets
      else
        NextIsUnusedOrOldest(before, snapshots);
        targets + [Next(before, snapshots)]
  }

  /** While no more requests than instances were cold, their targets stand at the front of the order,
      the last one first, and are all different: n cold requests in a row visit n instances. */
  lemma {:induction false} ColdRequestsSpread(order: seq<string>, snapshots: seq<string>, cold: seq<bool>)
    requires Distinct(order) && Distinct(snapshots) && |snapshots| > 1
    requires |Targets(order, snapshots, cold)| <= |snapshots|
    ensures var targets := Targets(order, snapshots, cold);
            var z := After(order, snapshots, cold);
            && Distinct(targets) && (forall t :: t in targets ==> t in snapshots)
            && |targets| <= |z| && z[..|targets|] == Reverse(targets)
  {
    if cold != [] {
      var front := cold[..|cold| - 1];
      ColdRequestsSpread(order, snapshots, front);
      if cold[|cold| - 1] {
        SpreadsOn(After(order, snapshots, front), snapshots, Targets(order, snapshots, front));
      }
    }
  }

  lemma SpreadsOn(order: seq<string>, snapshots: seq<string>, targets: seq<string>)
    requires Distinct(order) && Distinct(snapshots) && |snapshots| > 1 && |targets| < |snapshots|
    requires Distinct(targets) && (forall t :: t in targets ==> t in snapshots)
    requires |targets| <= |order| && order[..|targets|] == Reverse(targets)
    ensures Ranked(Pruned(order, snapshots), snapshots) != []
    ensures var next := Next(order, snapshots);
            var z := Used(Pruned(order, snapshots), next);
            && next !in targets && next in snapshots
            && |targets| + 1 <= |z| && z[..|targets| + 1] == Reverse(targets + [next])
            && Distinct(targets + [next])
  {
    var kept := Pruned(order, snapshots);
    var n := |targets|;
    NextIsUnusedOrOldest(order, snapshots);
    var next := Next(order, snapshots);
    FrontIsKept(order, Elements(snapshots), targets);
    DistinctOnly(order, Elements(snapshots));
    NextIsNew(order, snapshots, targets);
    UsedPushes(kept, next, targets);
    DistinctConcat(targets, [next]);
  }

  lemma FrontIsKept(order: seq<string>, current: set<string>, targets: seq<string>)
    requires |targets| <= |order| && order[..|targets|] == Reverse(targets)
    requires forall t :: t in targets ==> t in current
    ensures |targets| <= |Only(order, current)| && Only(order, current)[..|targets|] == Reverse(targets)
  {
    hide Reverse, Only;
    var front, rest := order[..|targets|], order[|targets|..];
    ReverseMembers(targets);
    OnlyAll(front, current);
    OnlyConcat(front, rest, current);
    assert order == front + rest;
    Front([], front, Only(rest, current));
  }

  lemma NextIsNew(order: seq<string>, snapshots: seq<string>, targets: seq<string>)
    requires Distinct(order) && Distinct(snapshots) && |snapshots| > 1 && |targets| < |snapshots|
    requires |targets| <= |order| && order[..|targets|] == Reverse(targets)
    requires var kept := Pruned(order, snapshots); |targets| <= |kept| && kept[..|targets|] == Reverse(targets)
    ensures Ranked(Pruned(order, snapshots), snapshots) != []
    ensures Next(order, snapshots) !in targets && Next(order, snapshots) in snapshots
  {
    NextIsUnusedOrOldest(order, snapshots);
    RankingIsPermutation(order, snapshots);
    var kept, next := Pruned(order, snapshots), Next(order, snapshots);
    assert next in multiset(snapshots) by { assert next in multiset(Ranked(kept, snapshots)); }
    DistinctOnly(order, Elements(snapshots));
    hide Ranked, Pruned, Distinct, Elements;
    forall j | 0 <= j < |targets| ensures targets[j] != next {
      assert Reverse(targets)[|targets| - 1 - j] == targets[j];
      assert kept[..|targets|][|targets| - 1 - j] == kept[|targets| - 1 - j] == targets[j];
      assert order[..|targets|][|targets| - 1 - j] == order[|targets| - 1 - j] == targets[j];
    }
  }

  lemma UsedPushes(kept: seq<string>, next: string, targets: seq<string>)
    requires Distinct(kept) && next !in targets && |targets| <= |kept| && kept[..|targets|] == Reverse(targets)
    ensures var z := Used(kept, next);
            |targets| + 1 <= |z| && z[..|targets| + 1] == Reverse(targets + [next])
  {
    hide Reverse, Without, Distinct;
    ReverseSnoc(targets, next);
    var front, rest := kept[..|targets|], kept[|targets|..];
    ReverseMembers(targets);
    assert next !in front;
    WithoutAbsent(front, {next});
    WithoutConcat(front, rest, {next});
    assert kept == front + rest;
    Front([next], front, Without(rest, {next}));
  }

  lemma Front(a: seq<string>, b: seq<string>, c: seq<string>)
    ensures |a + (b + c)| >= |a + b| && (a + (b + c))[..|a| + |b|] == a + b
    ensures (b + c)[..|b|] == b
  {
  }
}
