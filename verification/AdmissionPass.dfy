/** Phase 2 of batch formation as a state machine: each step considers the request under the scan
    cursor, and is driven by the KV store's verdict on it (sim/batch_formation.go:226-438). */
module AdmissionPass {
  import opened Requests
  import opened Sequences
  import opened Limits
  import opened RunningPass

  /** `cached` is the prefix in shared blocks; `start` is the prefix that need not be computed: that one, or
      as far as a reload from a slower tier takes it. */
  datatype Verdict =
    | SetAside(cached: nat, start: nat)
    | Refused(cached: nat, start: nat)
    | Allocated(cached: nat, start: nat)

  predicate NobodyAside(vs: seq<Verdict>) {
    forall v :: v in vs ==> !v.SetAside?
  }

  /** A verdict that admits the plain request `r`. */
  predicate Serves(v: Verdict, r: Request) {
    v.Allocated? && v.cached <= v.start <= r.InputLen()
  }

  datatype Admission = Admission(
    batch: seq<Request>,
    queue: seq<Request>,
    skipped: nat,
    budget: int,
    admitted: seq<Request>,       // result.NewlyScheduled
    granted: map<Request, nat>,   // NumNewTokens of the admitted
    reached: map<Request, nat>,   // ComputedTokens of the admitted
    from: map<Request, nat>,      // where the admitted's allocations began
    setAside: set<Request>,       // deferred by the store in this pass
    closed: bool)

  /** Phase 2 begins on what phase 1 left: victims at the queue head, and shut if there are any. */
  function Open(p: Pass, queue: seq<Request>): Admission {
    Admission(p.batch, Reverse(p.evicted) + queue, 0, p.budget, [], map[], map[], map[], {}, p.evicted != [])
  }

  predicate Shut(c: Config, a: Admission) {
    a.closed || |a.batch| >= c.maxSeqs || |a.queue| <= a.skipped || a.budget <= 0
  }

  /** Cold-load gate: a new prefill request waits until its adapter is resident. */
  predicate Gated(x: StepInputs, r: Request) {
    x.resident.Some? && !r.isDecodeSub && r.adapter != "" && !x.resident.value(r.adapter)
  }

  function Admit(a: Admission, r: Request, n: nat, reached: nat, from: nat): Admission
    requires a.skipped < |a.queue|
  {
    a.(batch := a.batch + [r],
       queue := RemoveAt(a.queue, a.skipped),
       budget := a.budget - n,
       admitted := a.admitted + [r],
       granted := a.granted[r := n],
       reached := a.reached[r := reached],
       from := a.from[r := from])
  }

  /** What an admission that allocates from `start` to `end` puts into blocks. A transferred request has its
      prompt there already. A new one also takes over the shared blocks before `start`, but has none at all
      if no token had to be written. */
  function Deposit(r: Request, progress: nat, start: nat, end: nat): nat
    requires start <= end
  {
    var written := Written(r, progress, end - start);
    if r.isDecodeSub then written
    else if written == 0 then 0
    else start + written
  }

  function Consider(c: Config, x: StepInputs, progress: map<Request, nat>, a: Admission, v: Verdict): Admission {
    if Shut(c, a) then a
    else
      var r := a.queue[a.skipped];
      if r.id in x.polled then a.(skipped := a.skipped + 1)
      else if Gated(x, r) || r !in progress then a.(closed := true)
      else if r.isDecodeSub then
        var n := TransferGrant(c, x, r, progress[r], a.budget);
        if n < 1 || !v.Allocated? then a.(closed := true)
        else Admit(a, r, n, progress[r] + n, progress[r])
      else match v
        case SetAside(_, _) => a.(skipped := a.skipped + 1, setAside := a.setAside + {r})
        case Refused(_, _) => a.(closed := true)
        case Allocated(cached, start) =>
          if !Serves(v, r) then a.(closed := true)
          else
            var n := PrefillGrant(c, r, start, a.budget);
            Admit(a, r, n, start + n, cached)
  }

  function Admissions(c: Config, x: StepInputs, progress: map<Request, nat>, a: Admission, vs: seq<Verdict>): Admission {
    if vs == [] then a
    else Consider(c, x, progress, Admissions(c, x, progress, a, vs[..|vs| - 1]), vs[|vs| - 1])
  }

  lemma {:induction false} ClosedStaysClosed(c: Config, x: StepInputs, progress: map<Request, nat>, a: Admission, vs: seq<Verdict>)
    requires a.closed
    ensures Admissions(c, x, progress, a, vs) == a
  {
    if vs != [] {
      ClosedStaysClosed(c, x, progress, a, vs[..|vs| - 1]);
    }
  }

  // ----- What every step of the scan keeps -----

  /** Of the `|admitted| + skipped` requests scanned, the admitted are one part, in queue order, and
      the skipped prefix the other part, in order; nothing behind the cursor has moved. */
  predicate ScanOrder(queue0: seq<Request>, queue: seq<Request>, admitted: seq<Request>, skipped: nat) {
    && skipped <= |queue|
    && |admitted| + skipped <= |queue0|
    && queue[skipped..] == queue0[|admitted| + skipped..]
    && admitted == Only(queue0[..|admitted| + skipped], Elements(admitted))
    && queue[..skipped] == Without(queue0[..|admitted| + skipped], Elements(admitted))
  }

  /** Whoever was left ahead of the cursor is deferred. */
  predicate SkippedAreDeferred(x: StepInputs, a: Admission) {
    a.skipped <= |a.queue| && forall r :: r in a.queue[..a.skipped] ==> r.id in x.polled || r in a.setAside
  }

  /** Tokens granted to the admitted plus the budget left are what phase 1 left over. */
  predicate AdmissionBudget(batch1: seq<Request>, budget1: int, a: Admission) {
    && a.batch == batch1 + a.admitted
    && a.granted.Keys == Elements(a.admitted) == a.reached.Keys == a.from.Keys
    && a.budget >= 0
    && Spent(a.admitted, a.granted) + a.budget == budget1
  }

  predicate AdmissionSound(x: StepInputs, batch1: seq<Request>, budget1: int, queue0: seq<Request>, a: Admission) {
    ScanOrder(queue0, a.queue, a.admitted, a.skipped) && SkippedAreDeferred(x, a) && AdmissionBudget(batch1, budget1, a)
  }

  lemma OpenSound(x: StepInputs, p: Pass, queue: seq<Request>)
    requires p.budget >= 0
    ensures var a := Open(p, queue); AdmissionSound(x, p.batch, p.budget, a.queue, a)
  {
  }

  lemma ScanCursor(queue0: seq<Request>, queue: seq<Request>, admitted: seq<Request>, skipped: nat)
    requires Distinct(queue0) && ScanOrder(queue0, queue, admitted, skipped) && skipped < |queue|
    ensures |admitted| + skipped < |queue0|
    ensures queue0[|admitted| + skipped] == queue[skipped]
    ensures queue[skipped] !in queue0[..|admitted| + skipped] && queue[skipped] !in admitted
    ensures queue[skipped + 1..] == queue0[|admitted| + skipped + 1..]
    ensures queue[..skipped + 1] == queue[..skipped] + [queue[skipped]]
    ensures queue0[..|admitted| + skipped + 1] == queue0[..|admitted| + skipped] + [queue[skipped]]
  {
    var k := |admitted| + skipped;
    assert queue0[k] == queue0[k..][0] == queue[skipped..][0];
    assert queue[skipped..][1..] == queue[skipped + 1..];
    assert queue0[k..][1..] == queue0[k + 1..];
    DistinctPrefix(queue0, k);
    OnlyMembers(queue0[..k], Elements(admitted));
  }

  /** Skipped or not, the queue is the old queue without the admitted, who all came from it. */
  lemma QueueIsRest(queue0: seq<Request>, queue: seq<Request>, admitted: seq<Request>, skipped: nat)
    requires Distinct(queue0) && ScanOrder(queue0, queue, admitted, skipped)
    ensures queue == Without(queue0, Elements(admitted))
    ensures Elements(admitted) <= Elements(queue0)
  {
    hide Without, Only, Distinct, Elements;
    var k := |admitted| + skipped;
    var seen, rest := queue0[..k], queue0[k..];
    assert queue0 == seen + rest;
    DistinctParts(seen, rest);
    ElementsOnly(seen, Elements(admitted));
    ElementsConcat(seen, rest);
    WithoutConcat(seen, rest, Elements(admitted));
    assert Elements(admitted) <= Elements(seen);
    forall r | r in rest ensures r !in Elements(admitted) {
      assert r !in seen;
      ElementsAre(seen);
    }
    WithoutAbsent(rest, Elements(admitted));
    assert queue == queue[..skipped] + queue[skipped..];
  }

  /** The request under the scan cursor is new, and shares no id with anybody left ahead of it. */
  lemma ScanCandidate(queue0: seq<Request>, queue: seq<Request>, admitted: seq<Request>, skipped: nat)
    requires DistinctIds(queue0) && Distinct(queue0) && ScanOrder(queue0, queue, admitted, skipped) && skipped < |queue|
    ensures Distinct(queue) && Elements(admitted) <= Elements(queue0)
    ensures queue[skipped] in queue0 && queue[skipped] !in admitted
    ensures forall i :: 0 <= i < skipped ==> queue[i].id != queue[skipped].id
  {
    QueueIsRest(queue0, queue, admitted, skipped);
    ElementsWithout(queue0, Elements(admitted));
    DistinctWithout(queue0, Elements(admitted));
    DistinctIdsWithout(queue0, Elements(admitted));
    hide Without, ScanOrder;
    assert queue[skipped] in Elements(queue);
  }

  lemma SkipKeepsScan(queue0: seq<Request>, queue: seq<Request>, admitted: seq<Request>, skipped: nat)
    requires Distinct(queue0) && ScanOrder(queue0, queue, admitted, skipped) && skipped < |queue|
    ensures ScanOrder(queue0, queue, admitted, skipped + 1)
  {
    ScanCursor(queue0, queue, admitted, skipped);
    var k := |admitted| + skipped;
    OnlyConcat(queue0[..k], [queue[skipped]], Elements(admitted));
    WithoutConcat(queue0[..k], [queue[skipped]], Elements(admitted));
  }

  lemma AdmitKeepsScan(queue0: seq<Request>, queue: seq<Request>, admitted: seq<Request>, skipped: nat)
    requires Distinct(queue0) && ScanOrder(queue0, queue, admitted, skipped) && skipped < |queue|
    ensures ScanOrder(queue0, RemoveAt(queue, skipped), admitted + [queue[skipped]], skipped)
    ensures queue[skipped] !in admitted
  {
    ScanCursor(queue0, queue, admitted, skipped);
    var r, seen := queue[skipped], queue0[..|admitted| + skipped];
    assert Elements(admitted + [r]) == Elements(admitted) + {r};
    SnocKept(seen, r, Elements(admitted));
    hide Only, Without, Elements, Distinct;
    assert RemoveAt(queue, skipped)[..skipped] == queue[..skipped];
    assert RemoveAt(queue, skipped)[skipped..] == queue[skipped + 1..];
  }

  lemma AdmitKeepsBudget(batch1: seq<Request>, budget1: int, a: Admission, n: nat, reached: nat, from: nat)
    requires AdmissionBudget(batch1, budget1, a) && a.skipped < |a.queue| && n <= a.budget
    requires a.queue[a.skipped] !in a.admitted
    ensures AdmissionBudget(batch1, budget1, Admit(a, a.queue[a.skipped], n, reached, from))
  {
    var r := a.queue[a.skipped];
    var z := Admit(a, r, n, reached, from);
    SpentSplit(a.admitted, [r], z.granted);
    SpentSame(a.admitted, a.granted, z.granted);
    assert Elements(z.admitted) == Elements(a.admitted) + {r};
  }

  lemma AdmitSound(x: StepInputs, batch1: seq<Request>, budget1: int, queue0: seq<Request>, a: Admission, n: nat, reached: nat, from: nat)
    requires Distinct(queue0) && AdmissionSound(x, batch1, budget1, queue0, a)
    requires a.skipped < |a.queue| && n <= a.budget
    ensures AdmissionSound(x, batch1, budget1, queue0, Admit(a, a.queue[a.skipped], n, reached, from))
  {
    AdmitKeepsScan(queue0, a.queue, a.admitted, a.skipped);
    AdmitKeepsBudget(batch1, budget1, a, n, reached, from);
    assert RemoveAt(a.queue, a.skipped)[..a.skipped] == a.queue[..a.skipped];
  }

  lemma SkipSound(x: StepInputs, batch1: seq<Request>, budget1: int, queue0: seq<Request>, a: Admission, aside: set<Request>)
    requires Distinct(queue0) && AdmissionSound(x, batch1, budget1, queue0, a)
    requires a.skipped < |a.queue| && a.setAside <= aside
    requires a.queue[a.skipped].id in x.polled || a.queue[a.skipped] in aside
    ensures AdmissionSound(x, batch1, budget1, queue0, a.(skipped := a.skipped + 1, setAside := aside))
  {
    SkipKeepsScan(queue0, a.queue, a.admitted, a.skipped);
    assert a.queue[..a.skipped + 1] == a.queue[..a.skipped] + [a.queue[a.skipped]];
  }

  lemma ClosingSound(x: StepInputs, batch1: seq<Request>, budget1: int, queue0: seq<Request>, a: Admission)
    requires AdmissionSound(x, batch1, budget1, queue0, a)
    ensures AdmissionSound(x, batch1, budget1, queue0, a.(closed := true))
  {
  }

  lemma ConsiderSound(c: Config, x: StepInputs, progress: map<Request, nat>, batch1: seq<Request>, budget1: int,
                      queue0: seq<Request>, a: Admission, v: Verdict)
    requires Distinct(queue0) && AdmissionSound(x, batch1, budget1, queue0, a)
    ensures AdmissionSound(x, batch1, budget1, queue0, Consider(c, x, progress, a, v))
  {
    var z := Consider(c, x, progress, a, v);
    hide AdmissionSound, TransferGrant, PrefillGrant, Written;
    if !Shut(c, a) {
      var r := a.queue[a.skipped];
      if z.closed {
        ClosingSound(x, batch1, budget1, queue0, a);
      } else if r.id in x.polled {
        SkipSound(x, batch1, budget1, queue0, a, a.setAside);
        assert z == a.(skipped := a.skipped + 1, setAside := a.setAside);
      } else if r.isDecodeSub {
        var n := TransferGrant(c, x, r, progress[r], a.budget);
        TransferGrantFloor(c, x, r, progress[r], a.budget);
        AdmitSound(x, batch1, budget1, queue0, a, n, progress[r] + n, progress[r]);
      } else if v.SetAside? {
        SkipSound(x, batch1, budget1, queue0, a, a.setAside + {r});
      } else {
        var n := PrefillGrant(c, r, v.start, a.budget);
        PrefillWithinBudget(c, r, v.start, a.budget);
        AdmitSound(x, batch1, budget1, queue0, a, n, v.start + n, v.cached);
      }
    }
  }

  /** Phase 2 never fills the batch beyond its size limit. */
  lemma {:induction false} AdmissionsWithinSeqs(c: Config, x: StepInputs, progress: map<Request, nat>, a: Admission, vs: seq<Verdict>)
    ensures |Admissions(c, x, progress, a, vs).batch| <= Max(|a.batch|, c.maxSeqs)
  {
    hide TransferGrant, PrefillGrant;
    if vs != [] {
      AdmissionsWithinSeqs(c, x, progress, a, vs[..|vs| - 1]);
    }
  }

  /** An open scan is closed only by a request whose adapter is not there, or which the store refused. */
  lemma ScanStops(c: Config, x: StepInputs, progress: map<Request, nat>, a: Admission, v: Verdict)
    requires !Shut(c, a) && Consider(c, x, progress, a, v).closed && a.queue[a.skipped] in progress
    ensures var r := a.queue[a.skipped];
            && r.id !in x.polled
            && (|| (x.resident.Some? && !r.isDecodeSub && r.adapter != "" && !x.resident.value(r.adapter))
                || (if r.isDecodeSub then !v.Allocated? else v.Refused? || (v.Allocated? && !(v.cached <= v.start <= |r.inputTokens|))))
  {
    TransferIsLargest(c, x, a.queue[a.skipped], progress[a.queue[a.skipped]], a.budget, 1);
  }

  /** Nobody is admitted before his adapter is there, or while he is deferred. */
  lemma {:induction false} AdmittedAreReady(c: Config, x: StepInputs, progress: map<Request, nat>, a: Admission, vs: seq<Verdict>)
    requires a.admitted == []
    ensures forall r :: r in Admissions(c, x, progress, a, vs).admitted ==>
              && r.id !in x.polled
              && (x.resident.Some? && !r.isDecodeSub && r.adapter != "" ==> x.resident.value(r.adapter))
  {
    hide TransferGrant, PrefillGrant, RemoveAt;
    if vs != [] {
      AdmittedAreReady(c, x, progress, a, vs[..|vs| - 1]);
    }
  }

  /** What phase 2 keeps, for every sequence of verdicts. */
  lemma {:induction false} AdmissionsSound(c: Config, x: StepInputs, progress: map<Request, nat>, p: Pass, queue: seq<Request>, vs: seq<Verdict>)
    requires p.budget >= 0 && Distinct(Open(p, queue).queue)
    ensures var a := Open(p, queue);
            AdmissionSound(x, p.batch, p.budget, a.queue, Admissions(c, x, progress, a, vs))
  {
    var a := Open(p, queue);
    if vs == [] {
      OpenSound(x, p, queue);
    } else {
      AdmissionsSound(c, x, progress, p, queue, vs[..|vs| - 1]);
      ConsiderSound(c, x, progress, p.batch, p.budget, a.queue, Admissions(c, x, progress, a, vs[..|vs| - 1]), vs[|vs| - 1]);
    }
  }
}
