/** Queue orders of the instance schedulers (sim/scheduler.go). */
module Scheduler {
  import opened Requests
  import opened Sequences

  datatype QueueOrder = FcfsOrder | PriorityFcfs | ShortestFirst | ReversePriority

  /** String comparison as Go's `<` does it, one code unit after the other. */
  predicate LexLess(a: string, b: string) {
    b != [] && (a == [] || a[0] < b[0] || (a[0] == b[0] && LexLess(a[1..], b[1..])))
  }

  function Key(order: QueueOrder, r: Request): int {
    match order
    case FcfsOrder => 0
    case PriorityFcfs => r.priority
    case ShortestFirst => r.InputLen()
    case ReversePriority => -r.priority
  }

  /** The comparator handed to the stable sort. */
  predicate Before(order: QueueOrder, a: Request, b: Request) {
    if Key(order, a) != Key(order, b) then Key(order, a) < Key(order, b)
    else if a.arrivalTime != b.arrivalTime then a.arrivalTime < b.arrivalTime
    else LexLess(a.id, b.id)
  }

  function Insert(order: QueueOrder, s: seq<Request>, x: Request): seq<Request> {
    if s == [] || !Before(order, x, s[|s| - 1]) then s + [x]
    else Insert(order, s[..|s| - 1], x) + [s[|s| - 1]]
  }

  function StableSort(order: QueueOrder, s: seq<Request>): seq<Request> {
    if s == [] then [] else Insert(order, StableSort(order, s[..|s| - 1]), s[|s| - 1])
  }

  /** The queue after OrderQueue: fcfs leaves it alone. */
  function Ordered(order: QueueOrder, s: seq<Request>): seq<Request> {
    if order == FcfsOrder then s else StableSort(order, s)
  }

  /** Moves `reqs[n]` down to its place among the first `n`. */
  method SinkLast(order: QueueOrder, reqs: array<Request>, n: nat)
    requires n < reqs.Length
    modifies reqs
    ensures reqs[..n + 1] == Insert(order, old(reqs[..n]), old(reqs[n]))
    ensures reqs[n + 1..] == old(reqs[n + 1..])
  {
    hide Insert, Before;
    ghost var done := reqs[..n];
    var x := reqs[n];
    var k := n;
    assert done[..n] == done && Insert(order, done, x) + done[n..] == Insert(order, done, x);
    while k > 0 && Before(order, x, reqs[k - 1])
      invariant k <= n && reqs[k] == x
      invariant forall i :: 0 <= i < k ==> reqs[i] == done[i]
      invariant forall i :: k < i <= n ==> reqs[i] == done[i - 1]
      invariant forall i :: n < i < reqs.Length ==> reqs[i] == old(reqs[i])
      invariant Insert(order, done, x) == Insert(order, done[..k], x) + done[k..]
    {
      InsertStep(order, done, x, k);
      reqs[k] := reqs[k - 1];
      reqs[k - 1] := x;
      k := k - 1;
    }
    InsertEnds(order, done[..k], x);
    Sunk(reqs[..n + 1], done, x, k);
    assert reqs[n + 1..] == old(reqs[n + 1..]);
  }

  lemma InsertEnds(order: QueueOrder, s: seq<Request>, x: Request)
    requires s == [] || !Before(order, x, s[|s| - 1])
    ensures Insert(order, s, x) == s + [x]
  {
  }

  lemma Sunk(after: seq<Request>, done: seq<Request>, x: Request, k: nat)
    requires k <= |done| && |after| == |done| + 1 && after[k] == x
    requires forall i :: 0 <= i < k ==> after[i] == done[i]
    requires forall i :: k < i <= |done| ==> after[i] == done[i - 1]
    ensures after == (done[..k] + [x]) + done[k..]
  {
  }

  lemma InsertStep(order: QueueOrder, done: seq<Request>, x: Request, k: nat)
    requires 0 < k <= |done| && Before(order, x, done[k - 1])
    ensures Insert(order, done[..k], x) + done[k..] == Insert(order, done[..k - 1], x) + done[k - 1..]
  {
    assert done[..k][..k - 1] == done[..k - 1];
    assert [done[k - 1]] + done[k..] == done[k - 1..];
  }

  /** OrderQueue, in place on the queue's storage. The library's stable sort is written out as an
      insertion sort. */
  method OrderQueue(order: QueueOrder, reqs: array<Request>)
    modifies reqs
    ensures reqs[..] == Ordered(order, old(reqs[..]))
  {
    if order == FcfsOrder { return; }
    ghost var was := reqs[..];
    var n := 0;
    while n < reqs.Length
      invariant n <= reqs.Length
      invariant reqs[..n] == StableSort(order, was[..n])
      invariant reqs[n..] == was[n..]
    {
      assert was[..n + 1][..n] == was[..n];
      assert reqs[n] == reqs[n..][0] && reqs[n + 1..] == reqs[n..][1..];
      SinkLast(order, reqs, n);
      n := n + 1;
    }
    assert was[..n] == was && reqs[..n] == reqs[..];
  }

  // ----- The comparators are strict total orders on distinct ids -----

  lemma {:induction false} LexTotal(a: string, b: string)
    ensures a == b || LexLess(a, b) || LexLess(b, a)
    ensures !(LexLess(a, b) && LexLess(b, a))
    ensures !LexLess(a, a)
    decreases |a|
  {
    if a != [] {
      LexTotal(a[1..], a[1..]);
      if b != [] {
        LexTotal(a[1..], b[1..]);
        assert a == [a[0]] + a[1..] && b == [b[0]] + b[1..];
      }
    }
  }

  lemma {:induction false} LexTransitive(a: string, b: string, c: string)
    requires LexLess(a, b) && LexLess(b, c)
    ensures LexLess(a, c)
  {
    if a != [] && a[0] == b[0] == c[0] {
      LexTransitive(a[1..], b[1..], c[1..]);
    }
  }

  lemma BeforeTotal(order: QueueOrder, a: Request, b: Request)
    requires a.id != b.id
    ensures Before(order, a, b) <==> !Before(order, b, a)
  {
    LexTotal(a.id, b.id);
  }

  lemma BeforeTransitive(order: QueueOrder, a: Request, b: Request, c: Request)
    requires Before(order, a, b) && Before(order, b, c)
    ensures Before(order, a, c)
  {
    if LexLess(a.id, b.id) && LexLess(b.id, c.id) {
      LexTransitive(a.id, b.id, c.id);
    }
  }

  ghost predicate StrictlySorted(order: QueueOrder, s: seq<Request>) {
    forall i, j :: 0 <= i < j < |s| ==> Before(order, s[i], s[j])
  }

  lemma {:induction false} InsertMembers(order: QueueOrder, s: seq<Request>, x: Request)
    ensures multiset(Insert(order, s, x)) == multiset(s) + multiset{x}
  {
    if s != [] && Before(order, x, s[|s| - 1]) {
      InsertMembers(order, s[..|s| - 1], x);
      assert s == s[..|s| - 1] + [s[|s| - 1]];
    }
  }

  lemma {:induction false} InsertSorted(order: QueueOrder, s: seq<Request>, x: Request)
    requires StrictlySorted(order, s)
    requires forall r :: r in s ==> r.id != x.id
    ensures StrictlySorted(order, Insert(order, s, x))
  {
    if s == [] {
    } else if !Before(order, x, s[|s| - 1]) {
      forall i | 0 <= i < |s| ensures Before(order, s[i], x) {
        assert s[|s| - 1] in s;
        BeforeTotal(order, x, s[|s| - 1]);
        if i < |s| - 1 {
          BeforeTransitive(order, s[i], s[|s| - 1], x);
        }
      }
    } else {
      var front, last := s[..|s| - 1], s[|s| - 1];
      InsertSorted(order, front, x);
      InsertMembers(order, front, x);
      var t := Insert(order, front, x);
      forall i | 0 <= i < |t| ensures Before(order, t[i], last) {
        assert t[i] in multiset(t);
        assert t[i] in front || t[i] == x;
      }
    }
  }

  lemma {:induction false} SortSorted(order: QueueOrder, s: seq<Request>)
    requires DistinctIds(s)
    ensures StrictlySorted(order, StableSort(order, s))
    ensures multiset(StableSort(order, s)) == multiset(s)
  {
    if s != [] {
      var front, last := s[..|s| - 1], s[|s| - 1];
      SortSorted(order, front);
      assert s == front + [last];
      forall r | r in StableSort(order, front) ensures r.id != last.id {
        assert r in multiset(front);
      }
      InsertMembers(order, StableSort(order, front), last);
      InsertSorted(order, StableSort(order, front), last);
    }
  }

  lemma TailSorted(order: QueueOrder, s: seq<Request>)
    requires StrictlySorted(order, s) && s != []
    ensures StrictlySorted(order, s[1..])
  {
    hide Before;
  }

  lemma SameFirst(order: QueueOrder, s: seq<Request>, t: seq<Request>)
    requires StrictlySorted(order, s) && StrictlySorted(order, t) && multiset(s) == multiset(t) && s != [] && t != []
    ensures s[0] == t[0]
  {
    hide Before;
    assert s[0] in multiset(t) && t[0] in multiset(s);
    var i :| 0 <= i < |s| && s[i] == t[0];
    var j :| 0 <= j < |t| && t[j] == s[0];
    if i > 0 && j > 0 {
      assert Before(order, s[0], s[i]) && Before(order, t[0], t[j]);
      BeforeIrreflexive(order, s[0], t[0]);
    }
  }

  lemma {:induction false} SortedUnique(order: QueueOrder, s: seq<Request>, t: seq<Request>)
    requires StrictlySorted(order, s) && StrictlySorted(order, t) && multiset(s) == multiset(t)
    ensures s == t
    decreases |s|
  {
    hide Before, StrictlySorted;
    assert |s| == |multiset(s)| == |multiset(t)| == |t|;
    if s != [] {
      SameFirst(order, s, t);
      TailSorted(order, s);
      TailSorted(order, t);
      assert s == [s[0]] + s[1..] && t == [t[0]] + t[1..];
      assert multiset(s[1..]) == multiset(s) - multiset{s[0]} == multiset(t[1..]);
      SortedUnique(order, s[1..], t[1..]);
    }
  }

  lemma BeforeIrreflexive(order: QueueOrder, a: Request, b: Request)
    ensures !(Before(order, a, b) && Before(order, b, a))
  {
    LexTotal(a.id, b.id);
  }

  /** Canonical queue order: every arrangement of the same requests is ordered the same way, so where
      preemption put its victims leaves no trace after the next OrderQueue. */
  lemma QueueOrderIsCanonical(order: QueueOrder, s: seq<Request>, t: seq<Request>)
    requires order != FcfsOrder && DistinctIds(s) && multiset(s) == multiset(t)
    ensures Ordered(order, s) == Ordered(order, t)
    ensures StrictlySorted(order, Ordered(order, s)) && multiset(Ordered(order, s)) == multiset(s)
  {
    SameIdsDistinct(s, t);
    SortSorted(order, s);
    SortSorted(order, t);
    SortedUnique(order, StableSort(order, s), StableSort(order, t));
  }

  /** Which way each order runs: shortest-first by prompt length, priority by ascending value, reversed
      priority by descending value, and by arrival among equals. */
  lemma QueueDirection(order: QueueOrder, s: seq<Request>, i: nat, j: nat)
    requires order != FcfsOrder && DistinctIds(s) && i < j < |Ordered(order, s)|
    ensures var a, b := Ordered(order, s)[i], Ordered(order, s)[j];
            match order
            case FcfsOrder => true
            case PriorityFcfs => a.priority < b.priority || (a.priority == b.priority && a.arrivalTime <= b.arrivalTime)
            case ShortestFirst => |a.inputTokens| < |b.inputTokens| || (|a.inputTokens| == |b.inputTokens| && a.arrivalTime <= b.arrivalTime)
            case ReversePriority => a.priority > b.priority || (a.priority == b.priority && a.arrivalTime <= b.arrivalTime)
  {
    SortSorted(order, s);
  }

  lemma SameIdsDistinct(s: seq<Request>, t: seq<Request>)
    requires DistinctIds(s) && multiset(s) == multiset(t)
    ensures DistinctIds(t)
  {
    Rearranged(s, t);
    forall i, j | 0 <= i < j < |t| ensures t[i].id != t[j].id {
      assert t[i] in Elements(t) && t[j] in Elements(t);
    }
  }

  lemma OrderedKeepsRequests(order: QueueOrder, s: seq<Request>)
    requires DistinctIds(s)
    ensures multiset(Ordered(order, s)) == multiset(s)
  {
    SortSorted(order, s);
  }
}
