/** Weighted scoring: scores from every scorer, clamped and weighted, argmax, then the observers
    (sim/routing.go). */
module Routing {
  import opened Requests
  import opened Sequences
  import opened RecencyOrder
  import opened PrefixCache
  import opened PrefixIndex
  import opened PrefixAffinity
  import opened NoHitLru

  /** The stateful scorers, at most one of each, and all the others. */
  datatype ScorerKind = PrefixKind | NoHitKind | StatelessKind

  type Scores = map<string, real>

  function ScoreOf(scores: Scores, id: string): real {
    if id in scores then scores[id] else 0.0
  }

  function Clamp(s: real): real {
    if s < 0.0 then 0.0 else if s > 1.0 then 1.0 else s
  }

  /** A clamped and weighted score. */
  function Contribution(dim: Scores, id: string, weight: real): real {
    Clamp(ScoreOf(dim, id)) * weight
  }

  /** One scorer's contribution, added for each snapshot in turn. */
  function AddDim(scores: Scores, dim: Scores, weight: real, ids: seq<string>): Scores {
    if ids == [] then scores
    else
      var before := AddDim(scores, dim, weight, ids[..|ids| - 1]);
      var id := ids[|ids| - 1];
      before[id := ScoreOf(before, id) + Contribution(dim, id, weight)]
  }

  function Composite(dims: seq<Scores>, weights: seq<real>, ids: seq<string>): Scores
    requires |dims| <= |weights|
  {
    if dims == [] then map[]
    else AddDim(Composite(dims[..|dims| - 1], weights, ids), dims[|dims| - 1], weights[|dims| - 1], ids)
  }

  function WeightedSum(dims: seq<Scores>, weights: seq<real>, id: string): real
    requires |dims| <= |weights|
  {
    if dims == [] then 0.0
    else WeightedSum(dims[..|dims| - 1], weights, id) + Contribution(dims[|dims| - 1], id, weights[|dims| - 1])
  }

  predicate NonNegative(weights: seq<real>) {
    forall i :: 0 <= i < |weights| ==> weights[i] >= 0.0
  }

  lemma {:induction false} AddDimAt(scores: Scores, dim: Scores, weight: real, ids: seq<string>, id: string)
    requires Distinct(ids)
    ensures ScoreOf(AddDim(scores, dim, weight, ids), id)
            == ScoreOf(scores, id) + (if id in ids then Contribution(dim, id, weight) else 0.0)
  {
    if ids != [] {
      var front := ids[..|ids| - 1];
      hide Contribution;
      AddDimAt(scores, dim, weight, front, id);
      assert ids == front + [ids[|ids| - 1]];
    }
  }

  /** Over distinct instances the composite score is the weighted sum of the clamped scores. */
  lemma {:induction false} CompositeIsWeightedSum(dims: seq<Scores>, weights: seq<real>, ids: seq<string>, id: string)
    requires |dims| <= |weights| && Distinct(ids) && id in ids
    ensures ScoreOf(Composite(dims, weights, ids), id) == WeightedSum(dims, weights, id)
  {
    if dims != [] {
      hide Contribution, AddDim, Distinct;
      var front := dims[..|dims| - 1];
      CompositeIsWeightedSum(front, weights, ids, id);
      AddDimAt(Composite(front, weights, ids), dims[|dims| - 1], weights[|dims| - 1], ids, id);
    }
  }

  lemma {:induction false} AddDimNonNegative(scores: Scores, dim: Scores, weight: real, ids: seq<string>)
    requires weight >= 0.0 && forall id :: id in scores ==> scores[id] >= 0.0
    ensures forall id :: id in AddDim(scores, dim, weight, ids) ==> AddDim(scores, dim, weight, ids)[id] >= 0.0
  {
    if ids != [] {
      AddDimNonNegative(scores, dim, weight, ids[..|ids| - 1]);
      assert Contribution(dim, ids[|ids| - 1], weight) >= 0.0;
    }
  }

  lemma {:induction false} CompositeNonNegative(dims: seq<Scores>, weights: seq<real>, ids: seq<string>)
    requires |dims| <= |weights| && NonNegative(weights)
    ensures forall id :: id in Composite(dims, weights, ids) ==> Composite(dims, weights, ids)[id] >= 0.0
  {
    if dims != [] {
      CompositeNonNegative(dims[..|dims| - 1], weights, ids);
      AddDimNonNegative(Composite(dims[..|dims| - 1], weights, ids), dims[|dims| - 1], weights[|dims| - 1], ids);
    }
  }

  /** What the scorers see of the router's state: the no-hit order, and what each instance holds. */
  datatype View = View(order: seq<string>, size: nat, held: map<string, set<Hash>>)

  /** What a call is told from outside: the cache queries' answers and the stateless scorers' scores. */
  datatype Signals = Signals(hits: Option<map<string, int>>, stateless: seq<Scores>)

  predicate Warm(req: Option<Request>, hits: Option<map<string, int>>, snapshots: seq<string>) {
    req.None? || hits.None? || IsWarm(hits.value, snapshots)
  }

  function DimOf(kind: ScorerKind, v: View, req: Option<Request>, hits: Option<map<string, int>>, snapshots: seq<string>, own: Scores): Scores
    requires v.size > 0
  {
    match kind
    case PrefixKind =>
      if req.None? then map[] else map id | id in v.held :: Affinity(BlockHashes(v.size, req.value.inputTokens), v.held[id])
    case NoHitKind => if Warm(req, hits, snapshots) then Neutral(snapshots) else ColdScores(v.order, snapshots)
    case StatelessKind => own
  }

  function Dims(kinds: seq<ScorerKind>, v: View, req: Option<Request>, s: Signals, snapshots: seq<string>): (dims: seq<Scores>)
    requires v.size > 0 && |kinds| <= |s.stateless|
    ensures |dims| == |kinds|
  {
    seq(|kinds|, i requires 0 <= i < |kinds| => DimOf(kinds[i], v, req, s.hits, snapshots, s.stateless[i]))
  }

  /** Position `k` holds a highest score. */
  predicate IsArgmax(scores: Scores, snapshots: seq<string>, k: nat) {
    k < |snapshots| && forall j :: 0 <= j < |snapshots| ==> ScoreOf(scores, snapshots[j]) <= ScoreOf(scores, snapshots[k])
  }

  lemma NothingAdded(scores: Scores, dim: Scores, weight: real)
    ensures AddDim(scores, dim, weight, []) == scores
  {
  }

  lemma AddDimLast(scores: Scores, dim: Scores, weight: real, ids: seq<string>)
    requires ids != []
    ensures var before := AddDim(scores, dim, weight, ids[..|ids| - 1]);
            var id := ids[|ids| - 1];
            AddDim(scores, dim, weight, ids) == before[id := ScoreOf(before, id) + Contribution(dim, id, weight)]
  {
  }

  lemma AddDimNext(scores: Scores, dim: Scores, weight: real, ids: seq<string>, i: nat)
    requires i < |ids|
    ensures var before := AddDim(scores, dim, weight, ids[..i]);
            AddDim(scores, dim, weight, ids[..i + 1]) == before[ids[i] := ScoreOf(before, ids[i]) + Contribution(dim, ids[i], weight)]
  {
    hide Contribution, ScoreOf, AddDim;
    var upTo := ids[..i + 1];
    assert |upTo| - 1 == i;
    assert upTo[..|upTo| - 1] == ids[..i] && upTo[|upTo| - 1] == ids[i];
    AddDimLast(scores, dim, weight, upTo);
  }

  method AddScores(scores: Scores, dim: Scores, weight: real, ids: seq<string>) returns (sum: Scores)
    ensures sum == AddDim(scores, dim, weight, ids)
  {
    hide AddDim;
    sum := scores;
    assert AddDim(scores, dim, weight, ids[..0]) == scores by { NothingAdded(scores, dim, weight); }
    var i := 0;
    while i < |ids|
      invariant i <= |ids| && sum == AddDim(scores, dim, weight, ids[..i])
    {
      AddDimNext(scores, dim, weight, ids, i);
      var s := ScoreOf(dim, ids[i]);
      if s < 0.0 { s := 0.0; }
      if s > 1.0 { s := 1.0; }
      assert s * weight == Contribution(dim, ids[i], weight);
      sum := sum[ids[i] := ScoreOf(sum, ids[i]) + s * weight];
      i := i + 1;
    }
    assert ids[..i] == ids;
  }

  /** The highest score, then everybody who has it, then the draw: the first when there is no
      generator, otherwise the one it draws. */
  method SelectBest(scores: Scores, snapshots: seq<string>, rng: Option<nat>) returns (best: nat)
    requires snapshots != [] && forall id :: id in scores ==> scores[id] >= 0.0
    ensures IsArgmax(scores, snapshots, best)
    ensures rng.None? ==> forall j :: 0 <= j < best ==> ScoreOf(scores, snapshots[j]) < ScoreOf(scores, snapshots[best])
  {
    var bestScore := -1.0;
    var i := 0;
    while i < |snapshots|
      invariant i <= |snapshots| && (i == 0 ==> bestScore == -1.0)
      invariant forall j :: 0 <= j < i ==> ScoreOf(scores, snapshots[j]) <= bestScore
      invariant i > 0 ==> exists j :: 0 <= j < i && ScoreOf(scores, snapshots[j]) == bestScore
    {
      if ScoreOf(scores, snapshots[i]) > bestScore {
        bestScore := ScoreOf(scores, snapshots[i]);
      }
      i := i + 1;
    }
    var tied: seq<nat> := [];
    i := 0;
    while i < |snapshots|
      invariant i <= |snapshots|
      invariant forall t :: 0 <= t < |tied| ==> tied[t] < i && ScoreOf(scores, snapshots[tied[t]]) == bestScore
      invariant forall j :: 0 <= j < i && ScoreOf(scores, snapshots[j]) == bestScore ==> tied != [] && tied[0] <= j
    {
      if ScoreOf(scores, snapshots[i]) == bestScore {
        tied := tied + [i];
      }
      i := i + 1;
    }
    best := tied[0];
    if |tied| > 1 && rng.Some? {
      best := tied[rng.value % |tied|];
    }
  }

  class WeightedScoring {
    const kinds: seq<ScorerKind>
    const weights: seq<real>
    const prefix: PrefixScorer
    const noHit: NoHitLruScorer

    constructor (kinds: seq<ScorerKind>, weights: seq<real>, blockSize: nat)
      requires |kinds| == |weights| && NonNegative(weights) && OneOfEach(kinds) && blockSize > 0
      ensures Valid() && this.kinds == kinds && this.weights == weights
      ensures noHit.lruOrder == [] && forall id :: prefix.idx.Contents(id) == []
    {
      hide BlockHashes, UpTo, TouchAll, PrefixCacheIndex.Valid, PrefixCacheIndex.Contents;
      this.kinds, this.weights := kinds, weights;
      prefix := new PrefixScorer(blockSize);
      noHit := new NoHitLruScorer();
    }

    static predicate OneOfEach(kinds: seq<ScorerKind>) {
      forall i, j :: 0 <= i < j < |kinds| && kinds[i] == kinds[j] ==> kinds[i] == StatelessKind
    }

    ghost predicate Valid()
      reads this, prefix, prefix.idx, prefix.idx.Repr, noHit
    {
      && |kinds| == |weights| && NonNegative(weights) && OneOfEach(kinds)
      && prefix.Valid() && noHit.Valid() && noHit !in prefix.idx.Repr
    }

    ghost function Seen(snapshots: seq<string>): (v: View)
      requires Valid()
      reads this, prefix, prefix.idx, prefix.idx.Repr, noHit
      ensures v.size > 0
    {
      View(noHit.lruOrder, prefix.idx.blockSize, map id | id in Elements(snapshots) :: Elements(prefix.idx.Contents(id)))
    }

    /** The scorers in turn: each sees the state before the call. */
    method ScoreAll(req: Option<Request>, snapshots: seq<string>, s: Signals)
      returns (scores: Scores)
      requires Valid() && |s.stateless| == |kinds|
      modifies prefix, noHit
      ensures Valid() && Seen(snapshots).held == old(Seen(snapshots)).held
      ensures scores == Composite(Dims(kinds, old(Seen(snapshots)), req, s, snapshots), weights, snapshots)
      ensures Memorised(|kinds|, req, s.hits, snapshots, old(noHit.lruOrder))
      ensures forall id :: prefix.idx.Contents(id) == old(prefix.idx.Contents(id))
    {
      hide Composite, AddDim, Affinity, DimOf, Dims;
      ghost var v := Seen(snapshots);
      ghost var dims := Dims(kinds, v, req, s, snapshots);
      scores := map[];
      NoDims(weights, snapshots);
      var i := 0;
      while i < |kinds|
        invariant i <= |kinds| == |dims| && Valid()
        invariant scores == Composite(dims[..i], weights, snapshots)
        invariant Memorised(i, req, s.hits, snapshots, v.order)
        invariant forall id :: prefix.idx.Contents(id) == old(prefix.idx.Contents(id))
      {
        var dim := ScoreOne(i, req, snapshots, s, v);
        DimAt(kinds, v, req, s, snapshots, i);
        CompositeNext(dims, weights, snapshots, i);
        scores := AddScores(scores, dim, weights[i], snapshots);
        i := i + 1;
      }
      assert dims[..i] == dims;
    }

    /** What the first `i` scorers keep for their observers. */
    ghost predicate Memorised(i: nat, req: Option<Request>, hits: Option<map<string, int>>, snapshots: seq<string>, order: seq<string>)
      requires i <= |kinds|
      reads this, prefix, noHit
    {
      && (if NoHitKind in kinds[..i] then
            && noHit.lastWarm == Warm(req, hits, snapshots)
            && noHit.lastReqID == (if req.None? || hits.None? then "" else req.value.id)
            && noHit.lruOrder == (if Warm(req, hits, snapshots) then order else Pruned(order, snapshots))
          else noHit.lruOrder == order)
      && (PrefixKind in kinds[..i] && req.Some? ==>
            prefix.cachedReqID == req.value.id && prefix.cachedTokens == req.value.inputTokens)
    }

    method ScoreOne(i: nat, req: Option<Request>, snapshots: seq<string>, s: Signals, ghost v: View) returns (dim: Scores)
      requires Valid() && i < |kinds| && |s.stateless| == |kinds| && v.size == prefix.idx.blockSize
      requires v.held == Seen(snapshots).held && Memorised(i, req, s.hits, snapshots, v.order)
      modifies prefix, noHit
      ensures Valid() && Memorised(i + 1, req, s.hits, snapshots, v.order)
      ensures dim == DimOf(kinds[i], v, req, s.hits, snapshots, s.stateless[i])
      ensures forall id :: prefix.idx.Contents(id) == old(prefix.idx.Contents(id))
    {
      hide Affinity, BlockHashes, UpTo, IsWarm, ColdScores, Pruned, PrefixCacheIndex.Valid, PrefixCacheIndex.Contents;
      assert kinds[..i + 1] == kinds[..i] + [kinds[i]];
      assert kinds[i] != StatelessKind ==> kinds[i] !in kinds[..i];
      match kinds[i] {
        case PrefixKind =>
          dim := prefix.Score(req, snapshots);
        case NoHitKind =>
          dim := noHit.Score(req, s.hits, snapshots);
        case StatelessKind =>
          dim := s.stateless[i];
      }
    }

    /** The observers in turn, told the target. */
    method NotifyAll(req: Option<Request>, target: string)
      requires Valid()
      requires PrefixKind in kinds && req.Some? ==> prefix.cachedReqID == req.value.id && prefix.cachedTokens == req.value.inputTokens
      modifies noHit, prefix.idx, prefix.idx.Repr
      ensures Valid() && fresh(prefix.idx.Repr - old(prefix.idx.Repr))
      ensures forall id :: id != target ==> prefix.idx.Contents(id) == old(prefix.idx.Contents(id))
      ensures prefix.idx.Contents(target) ==
              if PrefixKind in kinds && req.Some?
              then TouchAll(old(prefix.idx.Contents(target)), prefix.idx.lruCapacity, BlockHashes(prefix.idx.blockSize, req.value.inputTokens))
              else old(prefix.idx.Contents(target))
      ensures noHit.lruOrder ==
              if NoHitKind in kinds && req.Some? && !old(noHit.lastWarm) && req.value.id == old(noHit.lastReqID)
              then Used(old(noHit.lruOrder), target) else old(noHit.lruOrder)
    {
      hide BlockHashes, UpTo, TouchAll, PrefixCacheIndex.Valid, PrefixCacheIndex.Contents, Used, NonNegative;
      ghost var warm, last, order := noHit.lastWarm, noHit.lastReqID, noHit.lruOrder;
      var i := 0;
      while i < |kinds|
        invariant i <= |kinds| && Valid() && fresh(prefix.idx.Repr - old(prefix.idx.Repr))
        invariant noHit.lastWarm == warm && noHit.lastReqID == last
        invariant prefix.cachedReqID == old(prefix.cachedReqID) && prefix.cachedTokens == old(prefix.cachedTokens)
        invariant forall id :: id != target ==> prefix.idx.Contents(id) == old(prefix.idx.Contents(id))
        invariant prefix.idx.Contents(target) ==
                  if PrefixKind in kinds[..i] && req.Some?
                  then TouchAll(old(prefix.idx.Contents(target)), prefix.idx.lruCapacity, BlockHashes(prefix.idx.blockSize, req.value.inputTokens))
                  else old(prefix.idx.Contents(target))
        invariant noHit.lruOrder ==
                  if NoHitKind in kinds[..i] && req.Some? && !warm && req.value.id == last
                  then Used(order, target) else order
      {
        assert kinds[..i + 1] == kinds[..i] + [kinds[i]];
        assert kinds[i] != StatelessKind ==> kinds[i] !in kinds[..i];
        match kinds[i] {
          case PrefixKind => prefix.Observe(req, target);
          case NoHitKind => noHit.Observe(req, target);
          case StatelessKind =>
        }
        i := i + 1;
      }
      assert kinds[..i] == kinds;
    }

    /** Route; None for the panic on an empty snapshot list. The target has a highest composite score;
        the prefix cache of the target, and only that, is touched by the prompt's block hashes; a cold
        request makes its target the most recently used. */
    method Route(req: Option<Request>, snapshots: seq<string>, s: Signals, rng: Option<nat>)
      returns (target: Option<string>, scores: Scores)
      requires Valid() && |s.stateless| == |kinds|
      modifies prefix, noHit, prefix.idx, prefix.idx.Repr
      ensures Valid() && fresh(prefix.idx.Repr - old(prefix.idx.Repr))
      ensures target.None? <==> snapshots == []
      ensures snapshots == [] ==> forall id :: prefix.idx.Contents(id) == old(prefix.idx.Contents(id))
      ensures target.Some? ==> scores == Composite(Dims(kinds, old(Seen(snapshots)), req, s, snapshots), weights, snapshots)
      ensures target.Some? ==> exists k: nat :: IsArgmax(scores, snapshots, k) && target.value == snapshots[k]
                                           && (rng.None? ==> forall j :: 0 <= j < k ==> ScoreOf(scores, snapshots[j]) < ScoreOf(scores, snapshots[k]))
      ensures target.Some? ==> forall id :: id != target.value ==> prefix.idx.Contents(id) == old(prefix.idx.Contents(id))
      ensures target.Some? && PrefixKind in kinds && req.Some? ==>
                prefix.idx.Contents(target.value)
                == TouchAll(old(prefix.idx.Contents(target.value)), prefix.idx.lruCapacity, BlockHashes(prefix.idx.blockSize, req.value.inputTokens))
      ensures target.Some? && PrefixKind in kinds && req.Some? ==>
                Sticks(BlockHashes(prefix.idx.blockSize, req.value.inputTokens), prefix.idx.lruCapacity, prefix.idx.Contents(target.value))
      ensures target.Some? && NoHitKind in kinds ==>
                noHit.lruOrder == if Warm(req, s.hits, snapshots) then old(noHit.lruOrder)
                                  else Used(Pruned(old(noHit.lruOrder), snapshots), target.value)
    {
      hide BlockHashes, UpTo, TouchAll, Composite, Dims, Used, Pruned, IsWarm, Seen, Sticks,
           PrefixCacheIndex.Valid, PrefixCacheIndex.Contents;
      scores := map[];
      if |snapshots| == 0 { return None, scores; }
      scores := ScoreAll(req, snapshots, s);
      assert kinds[..|kinds|] == kinds;
      CompositeNonNegative(Dims(kinds, old(Seen(snapshots)), req, s, snapshots), weights, snapshots);
      var best := SelectBest(scores, snapshots, rng);
      prefix.idx.ContentsBounded(snapshots[best]);
      if req.Some? {
        SticksAfterTouch(prefix.idx.Contents(snapshots[best]), prefix.idx.lruCapacity, prefix.idx.blockSize, req.value.inputTokens);
      }
      NotifyAll(req, snapshots[best]);
      target := Some(snapshots[best]);
    }

    /** Route with the no-hit scorer alone: a cold request goes where the rotation says, whatever the
        generator draws, and a warm one leaves the rotation alone. */
    method RouteAlone(req: Request, snapshots: seq<string>, hits: Option<map<string, int>>, rng: Option<nat>) returns (target: string)
      requires Valid() && kinds == [NoHitKind] && weights == [1.0] && Distinct(snapshots) && |snapshots| > 1
      modifies prefix, noHit, prefix.idx, prefix.idx.Repr
      ensures Valid() && fresh(prefix.idx.Repr - old(prefix.idx.Repr))
      ensures Ranked(Pruned(old(noHit.lruOrder), snapshots), snapshots) != []
      ensures if Warm(Some(req), hits, snapshots) then noHit.lruOrder == old(noHit.lruOrder)
              else target == NoHitLru.Next(old(noHit.lruOrder), snapshots)
                   && noHit.lruOrder == Used(Pruned(old(noHit.lruOrder), snapshots), target)
    {
      hide BlockHashes, UpTo, TouchAll, Composite, Dims, Used, Pruned, Ranked, IsWarm, Sticks, IsArgmax, Distinct,
           PrefixCacheIndex.Valid, PrefixCacheIndex.Contents;
      ghost var v := Seen(snapshots);
      var s := Signals(hits, [map[]]);
      OrderDistinct();
      NextIsUnusedOrOldest(v.order, snapshots);
      var routed, scores := Route(Some(req), snapshots, s, rng);
      target := routed.value;
      if !Warm(Some(req), hits, snapshots) {
        ghost var k := TargetAt(scores, snapshots, target);
        NoHitAloneFollowsRotation(v, Some(req), s, snapshots, k);
      }
    }

    lemma OrderDistinct()
      requires Valid()
      ensures Distinct(noHit.lruOrder)
    {
    }

    /** A stretch of requests over fixed instances, with the no-hit scorer alone. The cold ones go round
        the instances: as long as they are no more than the instances, to a different one each. */
    method RouteStretch(reqs: seq<Request>, snapshots: seq<string>, hits: seq<Option<map<string, int>>>, rngs: seq<Option<nat>>)
      returns (coldTargets: seq<string>)
      requires Valid() && kinds == [NoHitKind] && weights == [1.0] && Distinct(snapshots) && |snapshots| > 1
      requires |reqs| == |hits| == |rngs|
      modifies prefix, noHit, prefix.idx, prefix.idx.Repr
      ensures Valid()
      ensures var cold := ColdOnes(reqs, hits, snapshots);
              && |coldTargets| == Trues(cold)
              && noHit.lruOrder == NoHitLru.After(old(noHit.lruOrder), snapshots, cold)
              && coldTargets == Targets(old(noHit.lruOrder), snapshots, cold)
      ensures |coldTargets| <= |snapshots| ==> Distinct(coldTargets)
      ensures |coldTargets| == |snapshots| ==> multiset(coldTargets) == multiset(snapshots)
    {
      hide NoHitLru.After, Targets, Used, Pruned, Ranked, Warm, ColdOnes, Distinct, BlockHashes, UpTo, TouchAll,
           PrefixCacheIndex.Valid, PrefixCacheIndex.Contents, Trues;
      coldTargets := [];
      ghost var order := noHit.lruOrder;
      ghost var cold := ColdOnes(reqs, hits, snapshots);
      OrderDistinct();
      NothingRouted(order, snapshots);
      var i := 0;
      while i < |reqs|
        invariant i <= |reqs| == |cold| && Valid() && fresh(prefix.idx.Repr - old(prefix.idx.Repr))
        invariant noHit.lruOrder == NoHitLru.After(order, snapshots, cold[..i])
        invariant coldTargets == Targets(order, snapshots, cold[..i]) && |coldTargets| == Trues(cold[..i])
      {
        RoutedMore(order, snapshots, cold, i);
        ColdAt(reqs, hits, snapshots, i);
        var target := RouteAlone(reqs[i], snapshots, hits[i], rngs[i]);
        if !Warm(Some(reqs[i]), hits[i], snapshots) {
          coldTargets := coldTargets + [target];
        }
        i := i + 1;
      }
      assert cold[..i] == cold;
      if |coldTargets| <= |snapshots| {
        ColdRequestsSpread(order, snapshots, cold);
        if |coldTargets| == |snapshots| { AllVisited(coldTargets, snapshots); }
      }
    }
  }

  /** What an instance that was just sent a prompt scores for it: 1, unless the prompt fills no block
      or more blocks than the cache tracks, and then 0. */
  predicate Sticks(hashes: seq<Hash>, capacity: nat, contents: seq<Hash>) {
    Affinity(hashes, Elements(contents)) == if 1 <= |hashes| <= capacity then 1.0 else 0.0
  }

  lemma SticksAfterTouch(before: seq<Hash>, capacity: nat, size: nat, prompt: seq<int>)
    requires capacity > 0 && size > 0 && Distinct(before) && |before| <= capacity
    ensures var hs := BlockHashes(size, prompt); Sticks(hs, capacity, TouchAll(before, capacity, hs))
  {
    hide TouchAll, BlockHashes, UpTo, RecencyOrder.MatchLength, Distinct, Elements;
    var hs := BlockHashes(size, prompt);
    if 1 <= |hs| <= capacity {
      RoutedPromptSticks(before, capacity, size, prompt);
    } else if |hs| > capacity {
      OversizedPromptScoresZero(before, capacity, size, prompt);
    }
  }

  /** With the no-hit scorer alone, a cold request goes to the instance the rotation says is next,
      however ties would be broken. */
  lemma NoHitAloneFollowsRotation(v: View, req: Option<Request>, s: Signals, snapshots: seq<string>, k: nat)
    requires v.size > 0 && |s.stateless| >= 1 && Distinct(v.order) && Distinct(snapshots) && |snapshots| > 1
    requires !Warm(req, s.hits, snapshots)
    requires IsArgmax(Composite(Dims([NoHitKind], v, req, s, snapshots), [1.0], snapshots), snapshots, k)
    ensures Ranked(Pruned(v.order, snapshots), snapshots) != []
    ensures snapshots[k] == NoHitLru.Next(v.order, snapshots)
  {
    hide Ranked, Pruned, Distinct, Composite, Elements;
    var dims, scores := Dims([NoHitKind], v, req, s, snapshots), ColdScores(v.order, snapshots);
    var total := Composite(dims, [1.0], snapshots);
    hide ColdScores;
    assert dims == [scores];
    NextIsUnusedOrOldest(v.order, snapshots);
    var next := NoHitLru.Next(v.order, snapshots);
    RankingIsPermutation(v.order, snapshots);
    assert next in multiset(Ranked(Pruned(v.order, snapshots), snapshots));
    assert next in multiset(snapshots);
    var j :| 0 <= j < |snapshots| && snapshots[j] == next;
    assert snapshots[k] in snapshots;
    FirstScoresMost(v.order, snapshots, next);
    FirstScoresMost(v.order, snapshots, snapshots[k]);
    LoneDim(scores, snapshots, next);
    LoneDim(scores, snapshots, snapshots[k]);
  }

  lemma LoneDim(scores: Scores, ids: seq<string>, id: string)
    requires Distinct(ids) && id in ids && id in scores && 0.0 <= scores[id] <= 1.0
    ensures ScoreOf(Composite([scores], [1.0], ids), id) == scores[id]
  {
    CompositeIsWeightedSum([scores], [1.0], ids, id);
    assert [scores][..0] == [];
    hide Composite;
    assert WeightedSum([], [1.0], id) == 0.0;
  }

  lemma TargetAt(scores: Scores, snapshots: seq<string>, target: string) returns (k: nat)
    requires exists i: nat :: IsArgmax(scores, snapshots, i) && target == snapshots[i]
    ensures IsArgmax(scores, snapshots, k) && k < |snapshots| && target == snapshots[k]
  {
    k :| IsArgmax(scores, snapshots, k) && target == snapshots[k];
  }

  /** Which requests of a stretch are cold. */
  function ColdOnes(reqs: seq<Request>, hits: seq<Option<map<string, int>>>, snapshots: seq<string>): (cold: seq<bool>)
    requires |reqs| == |hits|
    ensures |cold| == |reqs|
  {
    seq(|reqs|, i requires 0 <= i < |reqs| => !Warm(Some(reqs[i]), hits[i], snapshots))
  }

  function Trues(s: seq<bool>): nat {
    if s == [] then 0 else Trues(s[..|s| - 1]) + (if s[|s| - 1] then 1 else 0)
  }

  lemma ColdAt(reqs: seq<Request>, hits: seq<Option<map<string, int>>>, snapshots: seq<string>, i: nat)
    requires |reqs| == |hits| && i < |reqs|
    ensures ColdOnes(reqs, hits, snapshots)[i] == !Warm(Some(reqs[i]), hits[i], snapshots)
  {
  }

  lemma NothingRouted(order: seq<string>, snapshots: seq<string>)
    requires Distinct(order) && Distinct(snapshots) && |snapshots| > 1
    ensures NoHitLru.After(order, snapshots, []) == order && Targets(order, snapshots, []) == [] && Trues([]) == 0
  {
  }

  lemma RoutedMore(order: seq<string>, snapshots: seq<string>, cold: seq<bool>, i: nat)
    requires Distinct(order) && Distinct(snapshots) && |snapshots| > 1 && i < |cold|
    ensures var before := NoHitLru.After(order, snapshots, cold[..i]);
            && Distinct(before) && Ranked(Pruned(before, snapshots), snapshots) != []
            && NoHitLru.After(order, snapshots, cold[..i + 1])
               == (if cold[i] then Used(Pruned(before, snapshots), NoHitLru.Next(before, snapshots)) else before)
            && Targets(order, snapshots, cold[..i + 1])
               == Targets(order, snapshots, cold[..i]) + (if cold[i] then [NoHitLru.Next(before, snapshots)] else [])
            && Trues(cold[..i + 1]) == Trues(cold[..i]) + (if cold[i] then 1 else 0)
  {
    hide Used, Pruned, Ranked, Distinct;
    var upTo := cold[..i + 1];
    assert upTo[..|upTo| - 1] == cold[..i] && upTo[|upTo| - 1] == cold[i];
    NextIsUnusedOrOldest(NoHitLru.After(order, snapshots, cold[..i]), snapshots);
  }

  /** As many different instances as there are: each once. */
  lemma AllVisited(targets: seq<string>, snapshots: seq<string>)
    requires Distinct(targets) && Distinct(snapshots) && |targets| == |snapshots| && forall t :: t in targets ==> t in snapshots
    ensures multiset(targets) == multiset(snapshots)
  {
    DistinctSize(targets);
    DistinctSize(snapshots);
    forall t | t in Elements(targets) ensures t in Elements(snapshots) {
      assert t in targets;
    }
    SameSizeSubset(Elements(targets), Elements(snapshots));
    SameElements(targets, snapshots);
  }

  lemma {:induction false} DistinctSize(s: seq<string>)
    requires Distinct(s)
    ensures |Elements(s)| == |s|
  {
    if s != [] {
      DistinctPrefix(s, |s| - 1);
      DistinctSize(s[..|s| - 1]);
      assert s == s[..|s| - 1] + [s[|s| - 1]];
      ElementsConcat(s[..|s| - 1], [s[|s| - 1]]);
      ElementsOfOne(s[|s| - 1]);
    }
  }

  lemma SameSizeSubset(a: set<string>, b: set<string>)
    requires a <= b && |a| == |b|
    ensures a == b
  {
    assert b == a + (b - a);
  }

  lemma NoDims(weights: seq<real>, ids: seq<string>)
    ensures Composite([], weights, ids) == map[]
  {
  }

  lemma DimAt(kinds: seq<ScorerKind>, v: View, req: Option<Request>, s: Signals, snapshots: seq<string>, i: nat)
    requires v.size > 0 && |kinds| <= |s.stateless| && i < |kinds|
    ensures Dims(kinds, v, req, s, snapshots)[i] == DimOf(kinds[i], v, req, s.hits, snapshots, s.stateless[i])
  {
    hide DimOf;
  }

  lemma CompositeNext(dims: seq<Scores>, weights: seq<real>, ids: seq<string>, i: nat)
    requires i < |dims| <= |weights|
    ensures Composite(dims[..i + 1], weights, ids) == AddDim(Composite(dims[..i], weights, ids), dims[i], weights[i], ids)
  {
    hide AddDim;
    assert dims[..i + 1][..i] == dims[..i];
  }
}
