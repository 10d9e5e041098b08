/** The token bucket admission policy (sim/admission.go:24-61), over exact reals. */
module TokenBucket {
  datatype Call = Call(clock: int, cost: nat)

  datatype State = State(tokens: real, lastRefill: int)

  /** Capacity, and tokens per second against a clock in microseconds. */
  datatype Rate = Rate(capacity: real, refillRate: real) {
    predicate Valid() {
      capacity > 0.0 && refillRate > 0.0
    }
  }

  function RealMin(a: real, b: real): real {
    if a <= b then a else b
  }

  /** Tokens that flow in over `ticks` microseconds. */
  function Inflow(r: Rate, ticks: int): real {
    ticks as real * r.refillRate / 1000000.0
  }

  function Refill(r: Rate, s: State, clock: int): State {
    if clock > s.lastRefill
    then State(RealMin(r.capacity, s.tokens + Inflow(r, clock - s.lastRefill)), clock)
    else s
  }

  function Pay(s: State, cost: nat): State {
    if s.tokens >= cost as real then s.(tokens := s.tokens - cost as real) else s
  }

  function After(r: Rate, s: State, calls: seq<Call>): State {
    if calls == [] then s
    else
      var c := calls[|calls| - 1];
      Pay(Refill(r, After(r, s, calls[..|calls| - 1]), c.clock), c.cost)
  }

  /** What the last of the calls finds in the bucket. */
  function Found(r: Rate, s: State, calls: seq<Call>): real
    requires calls != []
  {
    Refill(r, After(r, s, calls[..|calls| - 1]), calls[|calls| - 1].clock).tokens
  }

  predicate LastAdmitted(r: Rate, s: State, calls: seq<Call>)
    requires calls != []
  {
    Found(r, s, calls) >= calls[|calls| - 1].cost as real
  }

  /** Tokens of the admitted calls. */
  function Admitted(r: Rate, s: State, calls: seq<Call>): nat {
    if calls == [] then 0
    else Admitted(r, s, calls[..|calls| - 1]) + (if LastAdmitted(r, s, calls) then calls[|calls| - 1].cost else 0)
  }

  predicate AllAdmitted(r: Rate, s: State, calls: seq<Call>) {
    forall k :: 0 < k <= |calls| ==> LastAdmitted(r, s, calls[..k])
  }

  function Demand(calls: seq<Call>): nat {
    if calls == [] then 0 else Demand(calls[..|calls| - 1]) + calls[|calls| - 1].cost
  }

  predicate Monotone(calls: seq<Call>) {
    forall i, j :: 0 <= i < j < |calls| ==> calls[i].clock <= calls[j].clock
  }

  class TokenBucket {
    const capacity: real
    const refillRate: real
    var currentTokens: real
    var lastRefill: int

    /** The panics of the constructor are its preconditions. */
    constructor (capacity: real, refillRate: real)
      requires capacity > 0.0 && refillRate > 0.0
      ensures Valid() && this.capacity == capacity && this.refillRate == refillRate
      ensures Now() == State(capacity, 0)
    {
      this.capacity, this.refillRate, currentTokens, lastRefill := capacity, refillRate, capacity, 0;
    }

    function Limits(): Rate { Rate(capacity, refillRate) }

    function Now(): State
      reads this
    {
      State(currentTokens, lastRefill)
    }

    ghost predicate Valid()
      reads this
    {
      capacity > 0.0 && refillRate > 0.0 && 0.0 <= currentTokens <= capacity
    }

    method Admit(inputLen: nat, clock: int) returns (admitted: bool)
      requires Valid()
      modifies this
      ensures Valid()
      ensures Now() == Pay(Refill(Limits(), old(Now()), clock), inputLen)
      ensures admitted <==> Refill(Limits(), old(Now()), clock).tokens >= inputLen as real
    {
      var elapsed := clock - lastRefill;
      InflowGrows(Limits(), 0, elapsed);
      if elapsed > 0 {
        var refill := elapsed as real * refillRate / 1000000.0;
        currentTokens := RealMin(capacity, currentTokens + refill);
        lastRefill := clock;
      }
      var cost := inputLen as real;
      if currentTokens >= cost {
        currentTokens := currentTokens - cost;
        return true;
      }
      return false;
    }
  }

  lemma InflowGrows(r: Rate, a: int, b: int)
    requires r.refillRate > 0.0
    ensures a <= b ==> Inflow(r, a) <= Inflow(r, b)
    ensures Inflow(r, 0) == 0.0
  {
    if a <= b {
      assert a as real * r.refillRate <= b as real * r.refillRate;
    }
  }

  lemma InflowAdds(r: Rate, a: int, b: int)
    ensures Inflow(r, a + b) == Inflow(r, a) + Inflow(r, b)
  {
    assert (a + b) as real * r.refillRate == a as real * r.refillRate + b as real * r.refillRate;
  }

  lemma RefillBounds(r: Rate, s: State, clock: int)
    requires r.Valid() && 0.0 <= s.tokens <= r.capacity
    ensures var z := Refill(r, s, clock);
            && 0.0 <= s.tokens <= z.tokens <= r.capacity
            && z.lastRefill == (if clock > s.lastRefill then clock else s.lastRefill)
            && z.tokens <= s.tokens + Inflow(r, z.lastRefill - s.lastRefill)
  {
    InflowGrows(r, 0, clock - s.lastRefill);
  }

  lemma {:induction false} TokensInRange(r: Rate, s: State, calls: seq<Call>)
    requires r.Valid() && 0.0 <= s.tokens <= r.capacity
    ensures 0.0 <= After(r, s, calls).tokens <= r.capacity && After(r, s, calls).lastRefill >= s.lastRefill
  {
    if calls != [] {
      hide Refill;
      TokensInRange(r, s, calls[..|calls| - 1]);
      RefillBounds(r, After(r, s, calls[..|calls| - 1]), calls[|calls| - 1].clock);
    }
  }

  /** Everything admitted from `s` on was in the bucket or flowed in. */
  lemma {:induction false} AdmittedFlowedIn(r: Rate, s: State, calls: seq<Call>)
    requires r.Valid() && 0.0 <= s.tokens <= r.capacity
    ensures var z := After(r, s, calls);
            Admitted(r, s, calls) as real + z.tokens <= s.tokens + Inflow(r, z.lastRefill - s.lastRefill)
  {
    if calls == [] {
      InflowGrows(r, 0, 0);
    } else {
      var front, c := calls[..|calls| - 1], calls[|calls| - 1];
      var y := After(r, s, front);
      AdmittedFlowedIn(r, s, front);
      TokensInRange(r, s, front);
      RefillBounds(r, y, c.clock);
      var z := Refill(r, y, c.clock);
      InflowAdds(r, y.lastRefill - s.lastRefill, z.lastRefill - y.lastRefill);
      hide Refill, Inflow;
      assert After(r, s, calls) == Pay(z, c.cost);
      assert Found(r, s, calls) == z.tokens;
    }
  }

  lemma {:induction false} AfterConcat(r: Rate, s: State, a: seq<Call>, b: seq<Call>)
    ensures After(r, s, a + b) == After(r, After(r, s, a), b)
  {
    hide Refill, Pay;
    if b == [] {
      assert a + b == a;
    } else {
      assert (a + b)[..|a + b| - 1] == a + b[..|b| - 1];
      AfterConcat(r, s, a, b[..|b| - 1]);
    }
  }

  lemma {:induction false} LastClock(r: Rate, s: State, calls: seq<Call>)
    requires calls != [] && Monotone(calls)
    ensures var z := After(r, s, calls).lastRefill;
            z == if s.lastRefill >= calls[|calls| - 1].clock then s.lastRefill else calls[|calls| - 1].clock
  {
    hide RealMin, Inflow;
    if |calls| > 1 {
      LastClock(r, s, calls[..|calls| - 1]);
    }
  }

  /** The window bound. In any run with non-decreasing clocks, the calls of any window admit at most
      the capacity plus what flows in between the first and the last of them. */
  lemma WindowBound(r: Rate, s: State, before: seq<Call>, window: seq<Call>)
    requires r.Valid() && 0.0 <= s.tokens <= r.capacity
    requires window != [] && Monotone(before + window)
    ensures var t1, t2 := window[0].clock, window[|window| - 1].clock;
            Admitted(r, After(r, s, before), window) as real <= r.capacity + r.refillRate * (t2 - t1) as real / 1000000.0
  {
    hide Admitted, After, Refill, Monotone;
    WindowOfRun(r, s, before, window);
    hide Inflow;
    InflowPerMicrosecond(r, window[|window| - 1].clock - window[0].clock);
  }

  /** The refill rate is per second, the clock counts microseconds. */
  lemma InflowPerMicrosecond(r: Rate, ticks: int)
    ensures Inflow(r, ticks) == r.refillRate * ticks as real / 1000000.0
  {
  }

  lemma WindowOfRun(r: Rate, s: State, before: seq<Call>, window: seq<Call>)
    requires r.Valid() && 0.0 <= s.tokens <= r.capacity
    requires window != [] && Monotone(before + window)
    ensures var t1, t2 := window[0].clock, window[|window| - 1].clock;
            Admitted(r, After(r, s, before), window) as real <= r.capacity + Inflow(r, t2 - t1)
  {
    assert Monotone(window) by {
      assert forall i :: 0 <= i < |window| ==> (before + window)[|before| + i] == window[i];
    }
    TokensInRange(r, s, before);
    WindowFrom(r, After(r, s, before), window);
  }

  lemma WindowFrom(r: Rate, s: State, window: seq<Call>)
    requires r.Valid() && 0.0 <= s.tokens <= r.capacity && window != [] && Monotone(window)
    ensures Admitted(r, s, window) as real <= r.capacity + Inflow(r, window[|window| - 1].clock - window[0].clock)
  {
    hide Admitted, After, Inflow, Refill;
    var t1, t2 := window[0].clock, window[|window| - 1].clock;
    var y := Refill(r, s, t1);
    RefillBounds(r, s, t1);
    EarlyRefill(r, s, window);
    AdmittedFlowedIn(r, y, window);
    TokensInRange(r, y, window);
    LastClock(r, y, window);
    InflowGrows(r, After(r, y, window).lastRefill - y.lastRefill, t2 - t1);
  }

  /** Refilling at the first call's clock beforehand changes nothing. */
  lemma {:induction false} EarlyRefill(r: Rate, s: State, window: seq<Call>)
    requires window != []
    ensures var y := Refill(r, s, window[0].clock);
            Admitted(r, y, window) == Admitted(r, s, window) && After(r, y, window) == After(r, s, window)
  {
    hide Inflow, RealMin, Pay;
    if |window| > 1 {
      EarlyRefill(r, s, window[..|window| - 1]);
      hide Refill;
    }
  }

  // ----- Which streams are never turned away -----

  /** No stretch of the stream asks for more than a full bucket and the inflow over that stretch. */
  predicate Conforming(r: Rate, calls: seq<Call>) {
    forall i, j :: 0 <= i < j <= |calls| ==>
      Demand(calls[i..j]) as real <= r.capacity + Inflow(r, calls[j - 1].clock - calls[i].clock)
  }

  lemma AdmittedPrefix(r: Rate, s: State, calls: seq<Call>, n: nat)
    requires AllAdmitted(r, s, calls) && n <= |calls|
    ensures AllAdmitted(r, s, calls[..n]) && (n > 0 ==> LastAdmitted(r, s, calls[..n]))
  {
    hide LastAdmitted;
    assert forall k :: 0 < k <= n ==> calls[..n][..k] == calls[..k];
  }

  lemma {:induction false} AllAdmittedIsDemand(r: Rate, s: State, calls: seq<Call>)
    requires AllAdmitted(r, s, calls)
    ensures Admitted(r, s, calls) == Demand(calls)
  {
    if calls != [] {
      AdmittedPrefix(r, s, calls, |calls| - 1);
      AdmittedPrefix(r, s, calls, |calls|);
      assert calls[..|calls|] == calls;
      hide LastAdmitted, AllAdmitted;
      AllAdmittedIsDemand(r, s, calls[..|calls| - 1]);
    }
  }

  lemma LastAdmittedSuffix(r: Rate, s: State, a: seq<Call>, w: seq<Call>)
    requires w != []
    ensures LastAdmitted(r, s, a + w) <==> LastAdmitted(r, After(r, s, a), w)
  {
    hide After, Refill;
    assert (a + w)[..|a + w| - 1] == a + w[..|w| - 1];
    AfterConcat(r, s, a, w[..|w| - 1]);
  }

  lemma AllAdmittedSuffix(r: Rate, s: State, a: seq<Call>, b: seq<Call>)
    requires AllAdmitted(r, s, a + b)
    ensures AllAdmitted(r, After(r, s, a), b)
  {
    hide LastAdmitted, After;
    forall k | 0 < k <= |b| ensures LastAdmitted(r, After(r, s, a), b[..k]) {
      assert (a + b)[..|a| + k] == a + b[..k];
      LastAdmittedSuffix(r, s, a, b[..k]);
    }
  }

  /** A full bucket at call `i`, less what was asked since, plus what flowed in, at the last call. */
  function Stretch(r: Rate, calls: seq<Call>, i: nat): real
    requires i < |calls|
  {
    r.capacity + Inflow(r, calls[|calls| - 1].clock - calls[i].clock) - Demand(calls[i..|calls| - 1]) as real
  }

  lemma DemandSnoc(calls: seq<Call>, i: nat, j: nat)
    requires i <= j < |calls|
    ensures Demand(calls[i..j + 1]) == Demand(calls[i..j]) + calls[j].cost
    ensures Demand(calls[j..j]) == 0
  {
    var z := calls[i..j + 1];
    assert z[..|z| - 1] == calls[i..j] && z[|z| - 1] == calls[j];
  }

  lemma StretchLast(r: Rate, calls: seq<Call>)
    requires calls != [] && r.refillRate > 0.0
    ensures Stretch(r, calls, |calls| - 1) == r.capacity
  {
    InflowGrows(r, 0, 0);
    DemandSnoc(calls, |calls| - 1, |calls| - 1);
  }

  lemma StretchGrows(r: Rate, calls: seq<Call>, i: nat)
    requires |calls| > 1 && i < |calls| - 1
    ensures var front := calls[..|calls| - 1];
            var last := front[|front| - 1];
            Stretch(r, calls, i) == Stretch(r, front, i) - last.cost as real + Inflow(r, calls[|calls| - 1].clock - last.clock)
  {
    var n := |calls| - 1;
    var front := calls[..n];
    assert front[i..n - 1] == calls[i..n - 1];
    DemandSnoc(calls, i, n - 1);
    InflowAdds(r, calls[n - 1].clock - calls[i].clock, calls[n].clock - calls[n - 1].clock);
    hide Inflow, Demand;
  }

  /** While everybody was admitted, what the next call finds is a full bucket less some recent demand,
      plus the inflow since. */
  lemma {:induction false} FoundIsSomeStretch(r: Rate, s: State, calls: seq<Call>) returns (i: nat)
    requires r.Valid() && s.tokens == r.capacity && calls != [] && Monotone(calls) && s.lastRefill <= calls[0].clock
    requires AllAdmitted(r, s, calls[..|calls| - 1])
    ensures i < |calls| && Found(r, s, calls) == Stretch(r, calls, i)
  {
    var front := calls[..|calls| - 1];
    StretchLast(r, calls);
    if front == [] {
      InflowGrows(r, 0, calls[0].clock - s.lastRefill);
      i := 0;
    } else {
      AdmittedPrefix(r, s, front, |front| - 1);
      AdmittedPrefix(r, s, front, |front|);
      assert front[..|front|] == front;
      FoundNext(r, s, calls);
      TokensInRange(r, s, front);
      assert Monotone(front) && front[0] == calls[0];
      hide Monotone, Found, Stretch, LastAdmitted, AllAdmitted, After, Inflow;
      i := FoundIsSomeStretch(r, s, front);
      StretchGrows(r, calls, i);
      if Found(r, s, calls) == r.capacity {
        i := |calls| - 1;
      }
    }
  }

  lemma FoundNext(r: Rate, s: State, calls: seq<Call>)
    requires r.Valid() && |calls| > 1 && Monotone(calls) && s.lastRefill <= calls[0].clock
    requires LastAdmitted(r, s, calls[..|calls| - 1])
    ensures var front := calls[..|calls| - 1];
            var y := After(r, s, front);
            && y.tokens == Found(r, s, front) - front[|front| - 1].cost as real
            && y.lastRefill == front[|front| - 1].clock
            && (y.tokens <= r.capacity ==>
                  Found(r, s, calls) == RealMin(r.capacity, y.tokens + Inflow(r, calls[|calls| - 1].clock - y.lastRefill)))
  {
    var front := calls[..|calls| - 1];
    LastClock(r, s, front);
    InflowGrows(r, 0, 0);
  }

  /** A bucket that starts full admits a whole stream exactly when the stream conforms. */
  lemma AdmitsExactlyConforming(r: Rate, s: State, calls: seq<Call>)
    requires r.Valid() && s.tokens == r.capacity && Monotone(calls) && (calls != [] ==> s.lastRefill <= calls[0].clock)
    ensures AllAdmitted(r, s, calls) <==> Conforming(r, calls)
  {
    if AllAdmitted(r, s, calls) {
      forall i, j | 0 <= i < j <= |calls|
        ensures Demand(calls[i..j]) as real <= r.capacity + Inflow(r, calls[j - 1].clock - calls[i].clock)
      {
        AdmittedConforms(r, s, calls, i, j);
      }
    }
    if Conforming(r, calls) {
      ConformingIsAdmitted(r, s, calls);
    }
  }

  lemma CutOut(calls: seq<Call>, i: nat, j: nat)
    requires Monotone(calls) && i < j <= |calls|
    ensures calls[..i] + calls[i..j] == calls[..j] && Monotone(calls[..j])
    ensures calls[i..j][0] == calls[i] && calls[i..j][j - i - 1] == calls[j - 1]
  {
  }

  lemma AdmittedConforms(r: Rate, s: State, calls: seq<Call>, i: nat, j: nat)
    requires r.Valid() && s.tokens == r.capacity && Monotone(calls) && i < j <= |calls| && AllAdmitted(r, s, calls)
    ensures Demand(calls[i..j]) as real <= r.capacity + Inflow(r, calls[j - 1].clock - calls[i].clock)
  {
    CutOut(calls, i, j);
    AdmittedPrefix(r, s, calls, j);
    hide LastAdmitted, Demand, Inflow, AllAdmitted, Monotone;
    WindowConforms(r, s, calls[..i], calls[i..j]);
  }

  lemma WindowConforms(r: Rate, s: State, before: seq<Call>, window: seq<Call>)
    requires r.Valid() && s.tokens == r.capacity && Monotone(before + window) && window != [] && AllAdmitted(r, s, before + window)
    ensures Demand(window) as real <= r.capacity + Inflow(r, window[|window| - 1].clock - window[0].clock)
  {
    hide LastAdmitted, After, Admitted, Demand, Inflow, AllAdmitted, Monotone;
    AllAdmittedSuffix(r, s, before, window);
    AllAdmittedIsDemand(r, After(r, s, before), window);
    WindowOfRun(r, s, before, window);
  }

  lemma {:induction false} ConformingIsAdmitted(r: Rate, s: State, calls: seq<Call>)
    requires r.Valid() && s.tokens == r.capacity && Monotone(calls) && (calls != [] ==> s.lastRefill <= calls[0].clock)
    requires Conforming(r, calls)
    ensures AllAdmitted(r, s, calls)
  {
    if calls != [] {
      hide LastAdmitted, Inflow, Demand;
      var n := |calls| - 1;
      var front := calls[..n];
      assert forall i, j :: 0 <= i < j <= n ==> front[i..j] == calls[i..j];
      ConformingIsAdmitted(r, s, front);
      ConformingAdmitsLast(r, s, calls);
      forall k | 0 < k <= |calls| ensures LastAdmitted(r, s, calls[..k]) {
        if k <= n {
          assert front[..k] == calls[..k];
        } else {
          assert calls[..k] == calls;
        }
      }
    }
  }

  lemma ConformingAdmitsLast(r: Rate, s: State, calls: seq<Call>)
    requires r.Valid() && s.tokens == r.capacity && calls != [] && Monotone(calls) && s.lastRefill <= calls[0].clock
    requires Conforming(r, calls) && AllAdmitted(r, s, calls[..|calls| - 1])
    ensures LastAdmitted(r, s, calls)
  {
    hide Found, Inflow, Demand, AllAdmitted;
    var i := FoundIsSomeStretch(r, s, calls);
    DemandSnoc(calls, i, |calls| - 1);
    assert Demand(calls[i..|calls|]) as real <= r.capacity + Inflow(r, calls[|calls| - 1].clock - calls[i].clock);
  }
}
