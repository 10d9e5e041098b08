/** Output tokens over whole runs: one with the end of the prompt, the others by decode grants
    (sim/request.go:159-177, sim/simulator.go:1104-1275). */
module RunOutput {
  import opened Requests
  import opened Sequences
  import opened Limits
  import opened RunningPass
  import opened AdmissionPass
  import opened Scheduler
  import opened Runs
  import opened RunPlaces
  import opened RunBounds
  import opened RunBlocks

  /** The output tokens of a plain request after a step that found `had`: a chunk that ends the prompt yields
      the first one, a decode grant as many as it grants. Preemption throws them away. */
  function Yield(w: World, p: Pass, a: Admission, had: nat, r: Request): nat {
    if r in p.evicted then 0
    else if r in a.reached then (if a.reached[r] == |r.inputTokens| then 1 else 0)
    else if r in p.granted && r in w.progress then
      if w.progress[r] < |r.inputTokens| then (if w.progress[r] + p.granted[r] == |r.inputTokens| then 1 else 0)
      else had + p.granted[r]
    else had
  }

  function Output(c: Config, order: QueueOrder, events: seq<Event>, r: Request): nat {
    if events == [] then 0
    else
      var front, e := events[..|events| - 1], events[|events| - 1];
      var had := Output(c, order, front, r);
      if !e.Step? then had
      else
        var w := After(c, order, front);
        Yield(w, PassOf(c, w, e), AdmissionOf(c, order, w, e), had, r)
  }

  /** The output that goes with a progress. */
  function Told(r: Request, progress: nat): nat {
    if progress < |r.inputTokens| then 0 else progress - |r.inputTokens| + 1
  }

  predicate Tells(w: World, r: Request, output: nat) {
    && (r in w.running || r in w.completed ==> r in w.progress && output == Told(r, w.progress[r]))
    && (r in w.waiting || r !in w.arrived ==> output == 0)
  }

  lemma StepTells(c: Config, order: QueueOrder, w: World, e: Event, r: Request, had: nat)
    requires Conserved(w) && Bounded(c, w) && e.Step? && !r.isDecodeSub && r in w.arrived && Tells(w, r, had)
    ensures Tells(Next(c, order, w, e), r, Yield(w, PassOf(c, w, e), AdmissionOf(c, order, w, e), had, r))
  {
    hide PassOf, AdmissionOf, Finished, Conserved, Bounded;
    StepGrants(c, order, w, e, r);
    StepHolders(c, order, w, e, r);
    GrantWithinPrompt(c, w, e, r);
    LiveByElements(w, r);
  }

  /** A prefill chunk ends with the prompt at the latest. */
  lemma GrantWithinPrompt(c: Config, w: World, e: Event, r: Request)
    requires e.Step?
    ensures var p := PassOf(c, w, e);
            r in p.granted && r in w.progress && w.progress[r] < |r.inputTokens| ==>
              w.progress[r] + p.granted[r] <= |r.inputTokens|
  {
    RunWithinPrompt(c, e.x, w.progress, w.running, e.fails);
  }

  predicate WithinPrompt(progress: map<Request, nat>, granted: map<Request, nat>) {
    forall r :: r in granted && r in progress && progress[r] < |r.inputTokens| ==>
      progress[r] + granted[r] <= |r.inputTokens|
  }

  lemma {:induction false} RunWithinPrompt(c: Config, x: StepInputs, progress: map<Request, nat>, batch: seq<Request>, fails: seq<nat>)
    ensures WithinPrompt(progress, Run(c, x, progress, batch, fails).granted)
  {
    hide EvictFor;
    if fails != [] {
      var p := Run(c, x, progress, batch, fails[..|fails| - 1]);
      RunWithinPrompt(c, x, progress, batch, fails[..|fails| - 1]);
      if !Over(p) && p.batch[p.idx] in progress {
        EvictForFrame(c.policy, p, p.batch[p.idx], fails[|fails| - 1]);
      }
    }
  }

  lemma NextTells(c: Config, order: QueueOrder, w: World, e: Event, r: Request, had: nat)
    requires Conserved(w) && Bounded(c, w) && Legal(c, w, e) && !e.Step? && !r.isDecodeSub && Tells(w, r, had)
    ensures Tells(Next(c, order, w, e), r, had)
  {
    hide Bounded;
    if e.TimeOut? {
      ElementsWithout(w.running, {e.r});
      ElementsWithout(w.waiting, {e.r});
      MemberByElements(w.running, r);
      MemberByElements(w.waiting, r);
      MemberByElements(Without(w.running, {e.r}), r);
      MemberByElements(Without(w.waiting, {e.r}), r);
      hide Without, Elements, Conserved;
    } else {
      NewcomerIsNew(c, w, e);
      if r in w.arrived { LiveByElements(w, r); }
    }
  }

  lemma {:induction false} RunTells(c: Config, order: QueueOrder, events: seq<Event>, r: Request)
    requires LegalRun(c, order, events) && !r.isDecodeSub
    ensures Tells(After(c, order, events), r, Output(c, order, events, r))
  {
    if events != [] {
      var front, e := events[..|events| - 1], events[|events| - 1];
      RunTells(c, order, front, r);
      RunConserves(c, order, front);
      RunBounded(c, order, front);
      hide Next, Conserved, Bounded, Legal, Tells, Yield;
      OneMore(c, order, front, e, r);
    }
  }

  lemma OneMore(c: Config, order: QueueOrder, front: seq<Event>, e: Event, r: Request)
    requires var w := After(c, order, front);
             Conserved(w) && Bounded(c, w) && Legal(c, w, e) && !r.isDecodeSub && Tells(w, r, Output(c, order, front, r))
    ensures var w, had := After(c, order, front), Output(c, order, front, r);
            Tells(Next(c, order, w, e), r,
                  if e.Step? then Yield(w, PassOf(c, w, e), AdmissionOf(c, order, w, e), had, r) else had)
  {
    hide After, Output, Bounded, Conserved, Legal, Next, Yield, Tells;
    var w, had := After(c, order, front), Output(c, order, front, r);
    if !e.Step? {
      NextTells(c, order, w, e, r, had);
    } else if r in w.arrived {
      StepTells(c, order, w, e, r, had);
    } else {
      StrangerTells(c, order, w, e, r, had);
    }
  }

  /** A step does not touch who has not arrived. */
  lemma StrangerTells(c: Config, order: QueueOrder, w: World, e: Event, r: Request, had: nat)
    requires Conserved(w) && e.Step? && r !in w.arrived && Tells(w, r, had)
    ensures Tells(Next(c, order, w, e), r, Yield(w, PassOf(c, w, e), AdmissionOf(c, order, w, e), had, r))
  {
    hide PassOf, AdmissionOf, Finished;
    var p, a, z := PassOf(c, w, e), AdmissionOf(c, order, w, e), Next(c, order, w, e);
    StepConserves(c, order, w, e);
    FormingPlaces(c, order, w, e);
    LiveIsDistinct(w);
    LiveIsDistinct(z);
    ElementsConcat(w.running, w.waiting);
    ElementsConcat(z.running, z.waiting);
    MemberByElements(w.arrived, r);
    MemberByElements(z.running, r);
    MemberByElements(z.waiting, r);
    MemberByElements(p.evicted, r);
    MemberByElements(p.batch, r);
    MemberByElements(a.admitted, r);
    MemberByElements(a.batch, r);
  }

  /** A completed request has put out all its output tokens, or as many as the model's window leaves room for
      after its prompt if those are fewer; a request without output yields the one token that ends its
      prefill. */
  lemma CompletedInFull(c: Config, order: QueueOrder, events: seq<Event>, r: Request)
    requires LegalRun(c, order, events) && r in After(c, order, events).completed && !r.isDecodeSub
    ensures var all := if r.outputTokens == [] then 1 else |r.outputTokens|;
            Output(c, order, events, r) == if c.maxModelLen == 0 then all else Min(all, c.maxModelLen - |r.inputTokens|)
  {
    RunTells(c, order, events, r);
    RunConserves(c, order, events);
    CompletedArrived(After(c, order, events), r);
    NoOvershoot(c, order, events, r);
    RunBounded(c, order, events);
    hide After, LegalRun, Output;
  }

  lemma CompletedArrived(w: World, r: Request)
    requires Conserved(w) && r in w.completed
    ensures r in w.arrived
  {
    MemberByElements(w.arrived, r);
  }
}
