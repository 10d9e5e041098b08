/** The observe loop never gets stuck: in every state short of its exit some step is possible, and every run
    has only so many steps (cmd/observe_cmd.go:1046-1251). */
module ObserveProgress {
  import opened Requests
  import opened Sequences
  import opened ObserveProtocol

  // ----- What is on its way to the main loop -----

  /** A completion that is on its way, in whatever form: a goroutine that has not delivered it, the serializer
      at work, or an entry of either channel. Each becomes one entry of the follow-up channel at most. */
  function Backlog(s: State): nat {
    |s.followUpCh| + |s.completionCh| + |Flying(s.flights)| + (if s.serializer.Idle? then 0 else 1)
  }

  /** Between the end of a drain and the next dispatch nothing joins the backlog. */
  predicate Drained(c: Setup, s: State) {
    s.main.Choosing? || s.main.Waiting? || s.main.Holding? ==> Backlog(s) <= 2 * c.maxConcurrency + 1
  }

  lemma FlyingLength(fs: seq<Flight>, k: nat, f: Flight)
    requires k < |fs|
    ensures |Flying(fs[k := f])| == |Flying(fs)| - |Aboard(fs[k])| + |Aboard(f)|
    ensures |Flying(RemoveAt(fs, k))| == |Flying(fs)| - |Aboard(fs[k])|
  {
    var a, b := fs[..k], fs[k + 1..];
    assert fs == (a + [fs[k]]) + b && fs[k := f] == (a + [f]) + b;
    FlyingConcat(a + [fs[k]], b);
    FlyingConcat(a, [fs[k]]);
    FlyingConcat(a + [f], b);
    FlyingConcat(a, [f]);
    FlyingConcat(a, b);
    FlyingOne(fs[k]);
    FlyingOne(f);
  }

  lemma {:induction false} FlyingBounds(fs: seq<Flight>)
    ensures |Flying(fs)| <= |fs|
    ensures (forall k :: 0 <= k < |fs| ==> fs[k].stage == Delivering) ==> |Flying(fs)| == |fs|
  {
    if fs != [] {
      FlyingBounds(fs[1..]);
      assert forall k :: 1 <= k < |fs| ==> fs[k] == fs[1..][k - 1];
    }
  }

  lemma BacklogShrinks(c: Setup, s: State, a: Action)
    requires Enabled(c, s, a) && SessionsOnly(s) && !a.Dispatch?
    ensures Backlog(Do(c, s, a)) <= Backlog(s)
  {
    match a
    case Sent(k) => FlyingLength(s.flights, k, Do(c, s, a).flights[k]);
    case Deliver(k) => FlyingLength(s.flights, k, Do(c, s, a).flights[k]);
    case Release(k) => FlyingLength(s.flights, k, s.flights[k]);
    case _ => hide Flying;
  }

  lemma DrainedStep(c: Setup, s: State, a: Action)
    requires Drained(c, s) && Enabled(c, s, a) && SessionsOnly(s) && WithinBounds(c, s)
    ensures Drained(c, Do(c, s, a))
  {
    if !a.Dispatch? {
      BacklogShrinks(c, s, a);
      FlyingBounds(s.flights);
    }
  }

  // ----- What the main loop waits for -----

  /** For every source: the counter never exceeds the live session requests. */
  predicate Covered(c: Setup, s: State) {
    if c.handler then s.active <= LiveSessions(s) else Counted(c, s)
  }

  /** While the main loop waits, a session is active or a wakeup is on its way. */
  predicate Woken(c: Setup, s: State) {
    s.main.Waiting? ==> c.handler && (s.active > 0 || s.serializer.Waking? || s.followUpCh != [])
  }

  lemma WokenStep(c: Setup, s: State, a: Action)
    requires Woken(c, s) && Enabled(c, s, a)
    ensures Woken(c, Do(c, s, a))
  {
  }

  lemma CoveredStep(c: Setup, s: State, a: Action)
    requires Covered(c, s) && Shaped(c, s) && Enabled(c, s, a) && SingleFollowUp(a)
    ensures Covered(c, Do(c, s, a))
  {
    if !c.handler {
      UncountedStep(c, s, a);
    } else if a.Choose? {
      CoveredChoice(c, s);
    } else {
      hide LiveSessions, Do, Shaped, SessionsOnly, Enabled, SingleFollowUp;
      var t := s.(active := LiveSessions(s));
      SameButActive(c, s, a, LiveSessions(s));
      ShapedSessions(c, s, t);
      ExactStep(c, t, a);
    }
  }

  lemma ShapedSessions(c: Setup, s: State, t: State)
    requires Shaped(c, s) && t == s.(active := t.active)
    ensures SessionsOnly(t)
  {
  }

  /** But for the main loop's choice, the counter only counts. */
  lemma SameButActive(c: Setup, s: State, a: Action, active: int)
    requires Enabled(c, s, a) && !a.Choose?
    ensures var t := s.(active := active);
            && Enabled(c, t, a) && LiveSessions(t) == LiveSessions(s)
            && LiveSessions(Do(c, t, a)) == LiveSessions(Do(c, s, a))
            && Do(c, t, a).active - Do(c, s, a).active == active - s.active
  {
    hide Count, Carried, Flying;
  }

  lemma ExactStep(c: Setup, s: State, a: Action)
    requires c.handler && Counted(c, s) && SessionsOnly(s) && Enabled(c, s, a) && SingleFollowUp(a) && !a.Choose?
    ensures Counted(c, Do(c, s, a))
  {
    hide Counted, SessionsOnly;
    if a.Drain? || a.Receive? {
      CountedMain(c, s, a);
    } else if a.Dispatch? || a.Sent? || a.Deliver? || a.Release? {
      CountedFlight(c, s, a);
    } else {
      CountedSerializer(c, s, a);
    }
  }

  /** A request taken from the source is live, whether or not it is the first of its session. */
  lemma CoveredChoice(c: Setup, s: State)
    requires c.handler && Covered(c, s) && Enabled(c, s, Choose)
    ensures Covered(c, Do(c, s, Choose))
  {
    hide Count, Carried, Flying;
    CountNone();
    if TakesFollowUp(s) {
      FirstCounts(s.pending);
    } else if s.nextPreGen.Some? {
      FirstCounts([s.nextPreGen.value]);
    }
  }

  lemma UncountedStep(c: Setup, s: State, a: Action)
    requires !c.handler && Counted(c, s) && Enabled(c, s, a)
    ensures Counted(c, Do(c, s, a))
  {
    hide LiveSessions;
  }

  // ----- No deadlock -----

  /** Holds at every reachable state, whatever the source. */
  predicate Flowing(c: Setup, s: State) {
    WithinBounds(c, s) && Shaped(c, s) && Covered(c, s) && Woken(c, s) && Drained(c, s)
  }

  lemma FlowingStep(c: Setup, s: State, a: Action)
    requires Flowing(c, s) && Enabled(c, s, a) && SingleFollowUp(a)
    ensures Flowing(c, Do(c, s, a))
  {
    hide Do, Enabled, SingleFollowUp, WithinBounds, SessionsOnly, MainAt, Covered, Woken, Drained;
    BoundsStep(c, s, a);
    ShapedStep(c, s, a);
    CoveredStep(c, s, a);
    WokenStep(c, s, a);
    DrainedStep(c, s, a);
  }

  lemma {:induction false} RunFlows(c: Setup, actions: seq<Action>)
    requires Run(c, actions).Some? && forall i :: 0 <= i < |actions| ==> SingleFollowUp(actions[i])
    ensures Flowing(c, Run(c, actions).value)
  {
    hide Flowing, Do, Enabled, SingleFollowUp;
    if actions == [] {
      StartFlows(c);
    } else {
      var front := actions[..|actions| - 1];
      assert forall i :: 0 <= i < |front| ==> front[i] == actions[i];
      RunFlows(c, front);
      FlowingStep(c, Run(c, front).value, actions[|actions| - 1]);
    }
  }

  lemma StartFlows(c: Setup)
    ensures Flowing(c, Start(c))
  {
  }

  /** A goroutine, if it has to wait, waits for room in the completion channel. */
  lemma FlightMoves(c: Setup, s: State) returns (a: Action)
    requires s.flights != [] && (c.handler || forall k :: 0 <= k < |s.flights| ==> s.flights[k].stage != Delivering)
    ensures !a.Complete?
    ensures Enabled(c, s, a)
            || (c.handler && |s.completionCh| >= c.maxConcurrency && |Flying(s.flights)| == |s.flights|)
  {
    FlyingBounds(s.flights);
    hide Flying;
    a := Sent(0);
    if k :| 0 <= k < |s.flights| && s.flights[k].stage != Delivering {
      a := if s.flights[k].stage == Sending then Sent(k) else Release(k);
    } else {
      assert s.flights[0].stage == Delivering;
      a := Deliver(0);
    }
  }

  /** The serializer, if it has to wait, waits for room in the follow-up channel or for a completion. */
  lemma SerializerMoves(c: Setup, s: State) returns (a: Action)
    requires c.handler && SessionsOnly(s)
    ensures a.Complete? ==> a.followUps == []
    ensures Enabled(c, s, a)
            || (if s.serializer.Idle? then s.completionCh == [] else |s.followUpCh| >= c.maxConcurrency)
  {
    match s.serializer
    case Idle => a := TakeCompletion;
    case Completing(_) => a := Complete([]);
    case Pushing(_) => a := Push;
    case Decrementing => a := Decrement;
    case Waking => a := Wake;
  }

  /** The main loop does not wait in vain. */
  lemma SomethingComes(c: Setup, s: State)
    requires Covered(c, s) && Woken(c, s) && WaitsEmpty(s) && s.main.Waiting?
    requires s.followUpCh == [] && s.completionCh == [] && s.serializer.Idle?
    ensures c.handler && s.flights != []
  {
    hide LiveSessions;
    NobodyLive(s);
  }

  lemma NobodyLive(s: State)
    requires s.pending == [] && Held(s.main) == [] && s.followUpCh == [] && s.completionCh == [] && s.serializer.Idle?
    ensures s.flights == [] ==> LiveSessions(s) == 0
  {
  }

  /** With at least one slot, some step other than a new follow-up is possible until the main loop exits. */
  lemma NoDeadlock(c: Setup, s: State) returns (a: Action)
    requires Flowing(c, s) && c.maxConcurrency >= 1 && !s.main.Exited?
    ensures Enabled(c, s, a) && (a.Complete? ==> a.followUps == [])
  {
    hide Flying, LiveSessions, SessionsOnly, WithinBounds;
    match s.main
    case Draining => a := Drain;
    case Choosing => a := Choose;
    case Holding(_) =>
      if |s.flights| < c.maxConcurrency { return Dispatch; }
      a := FlightMoves(c, s);
      if !Enabled(c, s, a) { a := SerializerMoves(c, s); }
    case Waiting =>
      if s.followUpCh != [] { return Receive; }
      a := SerializerMoves(c, s);
      if !Enabled(c, s, a) {
        SomethingComes(c, s);
        a := FlightMoves(c, s);
      }
  }

  // ----- Only so many steps -----

  /** The steps an entry of the follow-up channel can still take. */
  function EntrySteps(ch: seq<Option<Req>>): nat {
    if ch == [] then 0 else (if ch[0].Some? then 14 else 3) + EntrySteps(ch[1..])
  }

  function StageSteps(g: Stage): nat {
    match g case Sending => 10 case Delivering => 9 case Releasing => 1
  }

  function FlightSteps(fs: seq<Flight>): nat {
    if fs == [] then 0 else StageSteps(fs[0].stage) + FlightSteps(fs[1..])
  }

  /** The steps left, new follow-ups aside, if everything takes the longest way. */
  function StepsLeft(s: State): nat {
    13 * (|Lookahead(s)| + |s.source| + |s.pending|) + EntrySteps(s.followUpCh) + 7 * |s.completionCh| + FlightSteps(s.flights)
    + (match s.main case Draining => 2 case Choosing => 1 case Waiting => 0 case Holding(_) => 13 case Exited => 0)
    + (match s.serializer case Idle => 0 case Completing(_) => 6 case Pushing(f) => 15 * |f| case Decrementing => 5 case Waking => 4)
  }

  lemma {:induction false} EntryStepsConcat(a: seq<Option<Req>>, b: seq<Option<Req>>)
    ensures EntrySteps(a + b) == EntrySteps(a) + EntrySteps(b)
  {
    if a == [] {
      assert a + b == b;
    } else {
      assert (a + b)[1..] == a[1..] + b;
      EntryStepsConcat(a[1..], b);
    }
  }

  lemma {:induction false} FlightStepsConcat(a: seq<Flight>, b: seq<Flight>)
    ensures FlightSteps(a + b) == FlightSteps(a) + FlightSteps(b)
  {
    if a == [] {
      assert a + b == b;
    } else {
      assert (a + b)[1..] == a[1..] + b;
      FlightStepsConcat(a[1..], b);
    }
  }

  lemma OneFlightSteps(f: Flight)
    ensures FlightSteps([f]) == StageSteps(f.stage)
  {
  }

  lemma FlightStepsAt(fs: seq<Flight>, k: nat, f: Flight)
    requires k < |fs|
    ensures FlightSteps(fs[k := f]) == FlightSteps(fs) - StageSteps(fs[k].stage) + StageSteps(f.stage)
    ensures FlightSteps(RemoveAt(fs, k)) == FlightSteps(fs) - StageSteps(fs[k].stage)
  {
    var a, b := fs[..k], fs[k + 1..];
    assert fs == a + ([fs[k]] + b) && fs[k := f] == a + ([f] + b);
    FlightStepsConcat(a, [fs[k]] + b);
    FlightStepsConcat(a, [f] + b);
    FlightStepsConcat(a, b);
    FlightStepsConcat([fs[k]], b);
    FlightStepsConcat([f], b);
  }

  /** Every step uses one up; only OnComplete's follow-ups bring new ones. */
  lemma StepUsesUp(c: Setup, s: State, a: Action)
    requires Enabled(c, s, a)
    ensures StepsLeft(Do(c, s, a)) + 1 <= StepsLeft(s) + 15 * (|Do(c, s, a).created| - |s.created|)
  {
    hide StepsLeft;
    match a
    case Drain => MainUsesUp(c, s, a);
    case Choose => MainUsesUp(c, s, a);
    case Receive => MainUsesUp(c, s, a);
    case Dispatch => FlightUsesUp(c, s, a);
    case Sent(_) => FlightUsesUp(c, s, a);
    case Deliver(_) => FlightUsesUp(c, s, a);
    case Release(_) => FlightUsesUp(c, s, a);
    case _ => SerializerUsesUp(c, s, a);
  }

  lemma MainUsesUp(c: Setup, s: State, a: Action)
    requires Enabled(c, s, a) && (a.Drain? || a.Choose? || a.Receive?)
    ensures StepsLeft(Do(c, s, a)) + 1 <= StepsLeft(s) && Do(c, s, a).created == s.created
  {
    hide FlightSteps;
  }

  lemma FlightUsesUp(c: Setup, s: State, a: Action)
    requires Enabled(c, s, a) && (a.Dispatch? || a.Sent? || a.Deliver? || a.Release?)
    ensures StepsLeft(Do(c, s, a)) + 1 <= StepsLeft(s) && Do(c, s, a).created == s.created
  {
    hide EntrySteps, FlightSteps, TakesFollowUp;
    match a
    case Dispatch =>
      var f := Flight(s.main.item.req, |s.dispatched|, Sending);
      FlightStepsConcat(s.flights, [f]);
      OneFlightSteps(f);
    case Sent(k) => FlightStepsAt(s.flights, k, Do(c, s, a).flights[k]);
    case Deliver(k) => FlightStepsAt(s.flights, k, Do(c, s, a).flights[k]);
    case Release(k) => FlightStepsAt(s.flights, k, s.flights[k]);
  }

  lemma SerializerUsesUp(c: Setup, s: State, a: Action)
    requires Enabled(c, s, a) && (a.TakeCompletion? || a.Complete? || a.Push? || a.Decrement? || a.Wake?)
    ensures StepsLeft(Do(c, s, a)) + 1 <= StepsLeft(s) + 15 * (|Do(c, s, a).created| - |s.created|)
  {
    hide FlightSteps;
    match a
    case Push => EntryStepsConcat(s.followUpCh, [Some(s.serializer.followUps[0])]);
    case Wake => EntryStepsConcat(s.followUpCh, [None]);
    case _ =>
  }

  /** A run has only so many steps, whatever the interleaving: a constant number for each pre-generated
      request and each follow-up. */
  lemma {:induction false} StepsBounded(c: Setup, actions: seq<Action>)
    requires Run(c, actions).Some?
    ensures |actions| + StepsLeft(Run(c, actions).value) <= 2 + 13 * |c.source| + 15 * |Run(c, actions).value.created|
  {
    hide StepsLeft, Do, Enabled;
    if actions == [] {
      StartSteps(c);
    } else {
      StepsBounded(c, actions[..|actions| - 1]);
      StepUsesUp(c, Run(c, actions[..|actions| - 1]).value, actions[|actions| - 1]);
    }
  }

  lemma StartSteps(c: Setup)
    ensures StepsLeft(Start(c)) == 2 + 13 * |c.source|
  {
  }

  /** With at least one slot every run that is not over can go on, without new follow-ups, until the main loop
      exits. */
  lemma {:induction false} EveryRunCanExit(c: Setup, actions: seq<Action>) returns (more: seq<Action>)
    requires Run(c, actions).Some? && c.maxConcurrency >= 1 && forall i :: 0 <= i < |actions| ==> SingleFollowUp(actions[i])
    ensures Run(c, actions + more).Some?
    ensures var s := Run(c, actions + more).value;
            s.main.Exited? && s.created == Run(c, actions).value.created
    ensures |actions + more| <= 2 + 13 * |c.source| + 15 * |Run(c, actions).value.created|
    decreases 2 + 13 * |c.source| + 15 * |Run(c, actions).value.created| - |actions|
  {
    hide Do, Enabled, Flowing, StepsLeft;
    var s := Run(c, actions).value;
    StepsBounded(c, actions);
    if s.main.Exited? {
      assert actions + [] == actions;
      return [];
    }
    RunFlows(c, actions);
    var a := NoDeadlock(c, s);
    RunSnoc(c, actions, a);
    NothingCreated(c, s, a);
    StepsBounded(c, actions + [a]);
    var rest := EveryRunCanExit(c, actions + [a]);
    assert actions + ([a] + rest) == (actions + [a]) + rest;
    return [a] + rest;
  }

  lemma NothingCreated(c: Setup, s: State, a: Action)
    requires Enabled(c, s, a) && (a.Complete? ==> a.followUps == [])
    ensures Do(c, s, a).created == s.created
  {
  }
}
