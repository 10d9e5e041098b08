/** What a least-recently-used cache should hold: a sequence, most recent first, and what touching
    does to it (sim/prefix_cache_index.go:110-141). */
module RecencyOrder {
  import opened Sequences

  /** Touching `h`: it moves to the front; a newcomer at capacity pushes the last one out. */
  function Touch<T(==)>(order: seq<T>, capacity: nat, h: T): seq<T>
    requires capacity > 0
  {
    if h in order then [h] + Without(order, {h})
    else [h] + (if |order| >= capacity then order[..|order| - 1] else order)
  }

  function TouchAll<T(==)>(order: seq<T>, capacity: nat, hs: seq<T>): seq<T>
    requires capacity > 0
  {
    if hs == [] then order
    else Touch(TouchAll(order, capacity, hs[..|hs| - 1]), capacity, hs[|hs| - 1])
  }

  /** The distinct entries of a history, last touched first. */
  function Recent<T(==)>(hs: seq<T>): seq<T> {
    if hs == [] then []
    else [hs[|hs| - 1]] + Without(Recent(hs[..|hs| - 1]), {hs[|hs| - 1]})
  }

  function Take<T>(s: seq<T>, n: nat): seq<T> {
    if |s| <= n then s else s[..n]
  }

  /** The position of the last touch of `x`. */
  function LastTouch<T(==)>(hs: seq<T>, x: T): nat
    requires x in hs
  {
    if hs[|hs| - 1] == x then |hs| - 1 else LastTouch(hs[..|hs| - 1], x)
  }

  lemma {:induction false} LastTouchIsLast<T>(hs: seq<T>, x: T)
    requires x in hs
    ensures LastTouch(hs, x) < |hs| && hs[LastTouch(hs, x)] == x
    ensures forall i :: LastTouch(hs, x) < i < |hs| ==> hs[i] != x
  {
    if hs[|hs| - 1] != x {
      LastTouchIsLast(hs[..|hs| - 1], x);
    }
  }

  /** `r` is the distinct entries of `hs`, in decreasing order of their last touch. */
  predicate ByLastTouch<T(==)>(hs: seq<T>, r: seq<T>) {
    Distinct(r) && Elements(r) == Elements(hs) && Descending(hs, r)
  }

  predicate Descending<T(==)>(hs: seq<T>, r: seq<T>) {
    && (forall i :: 0 <= i < |r| ==> r[i] in hs)
    && (forall i, j :: 0 <= i < j < |r| ==> LastTouch(hs, r[i]) > LastTouch(hs, r[j]))
  }

  lemma {:induction false} RecentIsByLastTouch<T>(hs: seq<T>)
    ensures ByLastTouch(hs, Recent(hs))
  {
    if hs != [] {
      RecentIsByLastTouch(hs[..|hs| - 1]);
      assert hs == hs[..|hs| - 1] + [hs[|hs| - 1]];
      ByLastTouchGrows(hs[..|hs| - 1], hs[|hs| - 1], Recent(hs[..|hs| - 1]));
    }
  }

  lemma ByLastTouchGrows<T>(front: seq<T>, h: T, r: seq<T>)
    requires ByLastTouch(front, r)
    ensures ByLastTouch(front + [h], [h] + Without(r, {h}))
  {
    var rest := Without(r, {h});
    DistinctWithout(r, {h});
    ElementsWithout(r, {h});
    ElementsConcat(front, [h]);
    ElementsConcat([h], rest);
    ElementsOfOne(h);
    hide Without, Descending, LastTouch;
    assert h !in Elements(rest);
    DistinctConcat([h], rest);
    RestDescends(front, h, r);
  }

  lemma RestDescends<T>(front: seq<T>, h: T, r: seq<T>)
    requires Descending(front, r)
    ensures Descending(front + [h], [h] + Without(r, {h}))
  {
    var hs, rest := front + [h], Without(r, {h});
    var z := [h] + rest;
    hide Without, Recent;
    forall i | 0 <= i < |z| ensures z[i] in hs {
      if i > 0 { Survivor(front, h, r, i - 1); }
    }
    forall i, j | 0 <= i < j < |z| ensures LastTouch(hs, z[i]) > LastTouch(hs, z[j]) {
      Survivor(front, h, r, j - 1);
      if i == 0 {
        LastTouchIsLast(front, z[j]);
      } else {
        Survivor(front, h, r, i - 1);
        WithoutKeepsOrder(r, {h}, i - 1, j - 1);
      }
    }
  }

  lemma Survivor<T>(front: seq<T>, h: T, r: seq<T>, i: nat)
    requires Descending(front, r) && i < |Without(r, {h})|
    ensures var x := Without(r, {h})[i]; x in front && x in front + [h] && LastTouch(front + [h], x) == LastTouch(front, x)
  {
    var x := Without(r, {h})[i];
    ElementsWithout(r, {h});
    hide Without;
    assert x in Elements(Without(r, {h}));
    assert x in Elements(r);
    assert (front + [h])[..|front|] == front;
  }

  lemma TouchRecent<T>(r: seq<T>, capacity: nat, h: T)
    requires capacity > 0 && Distinct(r)
    ensures Touch(Take(r, capacity), capacity, h) == Take([h] + Without(r, {h}), capacity)
  {
    var t := Take(r, capacity);
    DistinctPrefix(r, |t|);
    assert t == r[..|t|];
    hide Without, Distinct;
    if h in r {
      var i :| 0 <= i < |r| && r[i] == h;
      WithoutAt(r, i);
      PrefixOfRemoveAt(r, i, |t|);
      RemoveAtLength(r, i);
      if i < |t| {
        assert t[i] == h;
        WithoutAt(t, i);
        RemoveAtLength(t, i);
      } else {
        assert h !in t;
        PrefixOfRemoveAt(r, i, |t| - 1);
      }
      hide RemoveAt;
    } else {
      WithoutAbsent(r, {h});
      assert h !in t;
    }
  }

  /** LRU, for every history: the cache holds the `capacity` most recently touched distinct entries, in
      recency order. */
  lemma {:induction false} KeepsMostRecent<T>(capacity: nat, hs: seq<T>)
    requires capacity > 0
    ensures TouchAll([], capacity, hs) == Take(Recent(hs), capacity)
  {
    if hs != [] {
      hide Touch, Take, Descending;
      KeepsMostRecent(capacity, hs[..|hs| - 1]);
      RecentIsByLastTouch(hs[..|hs| - 1]);
      TouchRecent(Recent(hs[..|hs| - 1]), capacity, hs[|hs| - 1]);
    }
  }

  /** A larger cache holds what a smaller one holds, and in the same order. */
  lemma MonotoneInCapacity<T>(small: nat, large: nat, hs: seq<T>)
    requires 0 < small <= large
    ensures TouchAll([], small, hs) <= TouchAll([], large, hs)
  {
    KeepsMostRecent(small, hs);
    KeepsMostRecent(large, hs);
  }

  lemma {:induction false} TouchAllConcat<T>(order: seq<T>, capacity: nat, hs: seq<T>, more: seq<T>)
    requires capacity > 0
    ensures TouchAll(order, capacity, hs + more) == TouchAll(TouchAll(order, capacity, hs), capacity, more)
  {
    hide Touch;
    if more == [] {
      assert hs + more == hs;
    } else {
      assert (hs + more)[..|hs + more| - 1] == hs + more[..|more| - 1];
      TouchAllConcat(order, capacity, hs, more[..|more| - 1]);
    }
  }

  /** A duplicate-free order within capacity stays one. */
  lemma TouchKeeps<T>(order: seq<T>, capacity: nat, h: T)
    requires capacity > 0 && Distinct(order) && |order| <= capacity
    ensures Distinct(Touch(order, capacity, h)) && 0 < |Touch(order, capacity, h)| <= capacity
    ensures Touch(order, capacity, h)[0] == h
  {
    if h in order {
      var i :| 0 <= i < |order| && order[i] == h;
      RemoveAtIsWithout(order, i);
      RemoveAtLength(order, i);
      hide Without, RemoveAt;
      DistinctConcat([h], Without(order, {h}));
    } else {
      var rest := if |order| >= capacity then order[..|order| - 1] else order;
      DistinctConcat([h], rest);
    }
  }

  lemma {:induction false} TouchAllKeeps<T>(order: seq<T>, capacity: nat, hs: seq<T>)
    requires capacity > 0 && Distinct(order) && |order| <= capacity
    ensures Distinct(TouchAll(order, capacity, hs)) && |TouchAll(order, capacity, hs)| <= capacity
  {
    if hs != [] {
      TouchAllKeeps(order, capacity, hs[..|hs| - 1]);
      TouchKeeps(TouchAll(order, capacity, hs[..|hs| - 1]), capacity, hs[|hs| - 1]);
    }
  }

  /** Touching leaves whatever stood in the first `k - 1` places, without `h`, right behind `h`. */
  lemma TouchPushes<T>(order: seq<T>, capacity: nat, h: T, k: nat)
    requires 0 < k <= capacity && Distinct(order) && k - 1 <= |order| <= capacity && h !in order[..k - 1]
    ensures var z := Touch(order, capacity, h); |z| >= k && z[..k] == [h] + order[..k - 1]
  {
    if h in order {
      var i :| 0 <= i < |order| && order[i] == h;
      assert forall q :: 0 <= q < k - 1 ==> order[q] == order[..k - 1][q];
      assert i >= k - 1;
      WithoutAt(order, i);
      PrefixOfRemoveAt(order, i, k - 1);
      RemoveAtLength(order, i);
      hide Without, RemoveAt;
    }
  }

  lemma FrontGrows<T>(y: seq<T>, capacity: nat, h: T, r: seq<T>, k: nat)
    requires 0 < k <= capacity && Distinct(y) && k - 1 <= |y| <= capacity && k - 1 <= |r| && h !in r
    requires y[..k - 1] == r[..k - 1]
    ensures var z := Touch(y, capacity, h); |z| >= k && z[..k] == ([h] + r)[..k]
  {
    hide Touch, Distinct;
    TouchPushes(y, capacity, h, k);
  }

  lemma PrefixOfPrefix<T>(s: seq<T>, t: seq<T>, m: nat, n: nat)
    requires n <= m <= |s| && m <= |t| && s[..m] == t[..m]
    ensures s[..n] == t[..n]
  {
    assert s[..n] == s[..m][..n] && t[..n] == t[..m][..n];
  }

  lemma LastIsNew<T>(hs: seq<T>)
    requires Distinct(hs) && hs != []
    ensures Distinct(hs[..|hs| - 1]) && hs[|hs| - 1] !in Reverse(hs[..|hs| - 1])
  {
    var front := hs[..|hs| - 1];
    ReverseMembers(front);
    assert hs[|hs| - 1] !in front;
  }

  /** After touching distinct entries, the last ones touched stand first, as many as fit. */
  lemma {:induction false} TouchedStandFirst<T>(order: seq<T>, capacity: nat, hs: seq<T>)
    requires capacity > 0 && Distinct(order) && |order| <= capacity && Distinct(hs)
    ensures var z := TouchAll(order, capacity, hs);
            var k := if |hs| <= capacity then |hs| else capacity;
            |z| >= k && z[..k] == Reverse(hs)[..k]
  {
    if hs != [] {
      hide Touch, Reverse, Distinct;
      var front, h := hs[..|hs| - 1], hs[|hs| - 1];
      var k := if |hs| <= capacity then |hs| else capacity;
      assert hs == front + [h];
      LastIsNew(hs);
      TouchedStandFirst(order, capacity, front);
      TouchAllKeeps(order, capacity, front);
      ReverseSnoc(front, h);
      PrefixOfPrefix(TouchAll(order, capacity, front), Reverse(front), if |front| <= capacity then |front| else capacity, k - 1);
      FrontGrows(TouchAll(order, capacity, front), capacity, h, Reverse(front), k);
    }
  }

  /** Distinct entries that fit are all cached after being touched. */
  lemma TouchedAreCached<T>(order: seq<T>, capacity: nat, hs: seq<T>, k: nat)
    requires capacity > 0 && Distinct(order) && |order| <= capacity && Distinct(hs)
    requires |hs| <= capacity && k < |hs|
    ensures hs[k] in TouchAll(order, capacity, hs)
  {
    var z := TouchAll(order, capacity, hs);
    TouchedStandFirst(order, capacity, hs);
    hide Distinct;
    assert z[|hs| - 1 - k] == z[..|hs|][|hs| - 1 - k] == Reverse(hs)[|hs| - 1 - k];
  }

  /** Of more distinct entries than fit, the first one touched is gone again. */
  lemma FirstIsPushedOut<T>(order: seq<T>, capacity: nat, hs: seq<T>)
    requires capacity > 0 && Distinct(order) && |order| <= capacity && Distinct(hs) && |hs| > capacity
    ensures hs[0] !in TouchAll(order, capacity, hs)
  {
    var z := TouchAll(order, capacity, hs);
    TouchedStandFirst(order, capacity, hs);
    TouchAllKeeps(order, capacity, hs);
    assert z == Reverse(hs)[..capacity];
    forall i | 0 <= i < |z| ensures z[i] != hs[0] {
      assert z[i] == Reverse(hs)[i] == hs[|hs| - 1 - i];
    }
  }

  /** The number of leading entries of `hs` that are in `cached`. */
  function MatchLength<T(==)>(hs: seq<T>, cached: set<T>): (n: nat)
    ensures n <= |hs|
  {
    if hs == [] || hs[0] !in cached then 0 else 1 + MatchLength(hs[1..], cached)
  }

  /** It is the longest cached prefix. */
  lemma {:induction false} MatchIsLongest<T>(hs: seq<T>, cached: set<T>)
    ensures forall i :: 0 <= i < MatchLength(hs, cached) ==> hs[i] in cached
    ensures MatchLength(hs, cached) < |hs| ==> hs[MatchLength(hs, cached)] !in cached
  {
    if hs != [] && hs[0] in cached {
      MatchIsLongest(hs[1..], cached);
      forall i | 0 <= i < MatchLength(hs, cached) ensures hs[i] in cached {
        assert i > 0 ==> hs[i] == hs[1..][i - 1];
      }
    }
  }

  lemma MatchIsUnique<T>(hs: seq<T>, cached: set<T>, n: nat)
    requires n <= |hs| && (forall i :: 0 <= i < n ==> hs[i] in cached) && (n < |hs| ==> hs[n] !in cached)
    ensures n == MatchLength(hs, cached)
  {
    MatchIsLongest(hs, cached);
  }

  /** Raising the capacity never shortens a match, whatever the history. */
  lemma MatchMonotone<T>(small: nat, large: nat, history: seq<T>, hs: seq<T>)
    requires 0 < small <= large
    ensures MatchLength(hs, Elements(TouchAll([], small, history))) <= MatchLength(hs, Elements(TouchAll([], large, history)))
  {
    var a, b := TouchAll([], small, history), TouchAll([], large, history);
    MonotoneInCapacity(small, large, history);
    assert Elements(a) <= Elements(b) by {
      assert a == b[..|a|];
    }
    MatchIsLongest(hs, Elements(a));
    MatchIsLongest(hs, Elements(b));
  }
}
