/** The observe dispatch loop as a protocol of interleaved steps: the main loop, one goroutine per
    request in flight, and the session serializer, over two bounded channels and an atomic counter
    (cmd/observe_cmd.go:1018-1251). Runs without cancellation. */
module ObserveProtocol {
  import opened Requests
  import opened Sequences

  /** A request to send; the empty session id is no session. */
  datatype Req = Req(uid: nat, session: string, arrival: int)

  /** A request that is chosen or dispatched, and whether it came from the source. */
  datatype Item = Item(req: Req, preGen: bool)

  datatype Stage = Sending | Delivering | Releasing

  datatype Flight = Flight(req: Req, idx: nat, stage: Stage)

  datatype Main = Draining | Choosing | Waiting | Holding(item: Item) | Exited

  datatype Serializer = Idle | Completing(req: Req) | Pushing(followUps: seq<Req>) | Decrementing | Waking

  datatype Setup = Setup(handler: bool, maxConcurrency: nat, source: seq<Req>)

  datatype State = State(
    source: seq<Req>,                  // not yet pulled
    nextPreGen: Option<Req>,           // the lookahead slot
    pending: seq<Req>,                 // pendingFollowUps
    followUpCh: seq<Option<Req>>,      // None is the wakeup sentinel
    completionCh: seq<Req>,
    main: Main,
    flights: seq<Flight>,              // dispatch goroutines, each holding a concurrency slot
    serializer: Serializer,
    active: int,                       // activeSessionCount
    seen: set<string>,                 // seenSessions
    dispatched: seq<Item>,             // in order; a request's index is its position
    created: seq<Req>,                 // every follow-up OnComplete ever returned, in order
    ended: set<string>)                // sessions OnComplete has answered with nothing

  /** One atomic step of somebody; `k` picks a goroutine, `followUps` is what OnComplete returns. */
  datatype Action =
    | Drain | Choose | Receive | Dispatch
    | Sent(k: nat) | Deliver(k: nat) | Release(k: nat)
    | TakeCompletion | Complete(followUps: seq<Req>) | Push | Decrement | Wake

  /** Ties go to the follow-up. */
  predicate PreferFollowUp(followUp: Req, preGen: Req) {
    followUp.arrival <= preGen.arrival
  }

  function Start(c: Setup): State {
    State(if c.source == [] then [] else c.source[1..], if c.source == [] then None else Some(c.source[0]),
          [], [], [], Draining, [], Idle, 0, {}, [], [], {})
  }

  predicate TakesFollowUp(s: State) {
    s.pending != [] && (s.nextPreGen.None? || PreferFollowUp(s.pending[0], s.nextPreGen.value))
  }

  /** takePreGen: counts a session at its first sighting and refills the lookahead slot. */
  function TakePreGen(c: Setup, s: State): State
    requires s.nextPreGen.Some?
  {
    var r := s.nextPreGen.value;
    var counts := c.handler && r.session != "" && r.session !in s.seen;
    s.(main := Holding(Item(r, true)),
       seen := if counts then s.seen + {r.session} else s.seen,
       active := if counts then s.active + 1 else s.active,
       nextPreGen := if s.source == [] then None else Some(s.source[0]),
       source := if s.source == [] then [] else s.source[1..])
  }

  predicate Enabled(c: Setup, s: State, a: Action) {
    match a
    case Drain => s.main.Draining?
    case Choose => s.main.Choosing?
    case Receive => s.main.Waiting? && s.followUpCh != []
    case Dispatch => s.main.Holding? && |s.flights| < c.maxConcurrency
    case Sent(k) => k < |s.flights| && s.flights[k].stage == Sending
    case Deliver(k) => k < |s.flights| && s.flights[k].stage == Delivering && |s.completionCh| < c.maxConcurrency
    case Release(k) => k < |s.flights| && s.flights[k].stage == Releasing
    case TakeCompletion => c.handler && s.serializer.Idle? && s.completionCh != []
    case Complete(_) => s.serializer.Completing?
    case Push => s.serializer.Pushing? && s.serializer.followUps != [] && |s.followUpCh| < c.maxConcurrency
    case Decrement => s.serializer.Decrementing?
    case Wake => s.serializer.Waking? && |s.followUpCh| < c.maxConcurrency
  }

  function Do(c: Setup, s: State, a: Action): State
    requires Enabled(c, s, a)
  {
    match a
    case Drain =>
      if s.followUpCh == [] then s.(main := Choosing)
      else s.(followUpCh := s.followUpCh[1..],
              pending := s.pending + (match s.followUpCh[0] case None => [] case Some(r) => [r]))
    case Choose =>
      if TakesFollowUp(s) then s.(main := Holding(Item(s.pending[0], false)), pending := s.pending[1..])
      else if s.nextPreGen.Some? then TakePreGen(c, s)
      else if c.handler && s.active > 0 then s.(main := Waiting)
      else s.(main := Exited)
    case Receive =>
      s.(followUpCh := s.followUpCh[1..],
         main := match s.followUpCh[0] case None => Draining case Some(r) => Holding(Item(r, false)))
    case Dispatch =>
      s.(main := Draining, dispatched := s.dispatched + [s.main.item],
         flights := s.flights + [Flight(s.main.item.req, |s.dispatched|, Sending)])
    case Sent(k) =>
      var stage := if c.handler && s.flights[k].req.session != "" then Delivering else Releasing;
      s.(flights := s.flights[k := s.flights[k].(stage := stage)])
    case Deliver(k) =>
      s.(completionCh := s.completionCh + [s.flights[k].req],
         flights := s.flights[k := s.flights[k].(stage := Releasing)])
    case Release(k) => s.(flights := RemoveAt(s.flights, k))
    case TakeCompletion =>
      s.(serializer := Completing(s.completionCh[0]), completionCh := s.completionCh[1..])
    case Complete(followUps) =>
      s.(created := s.created + followUps,
         ended := if followUps == [] then s.ended + {s.serializer.req.session} else s.ended,
         serializer := if followUps != [] then Pushing(followUps)
                       else if s.serializer.req.session != "" then Decrementing else Idle)
    case Push =>
      s.(followUpCh := s.followUpCh + [Some(s.serializer.followUps[0])],
         serializer := if |s.serializer.followUps| == 1 then Idle else Pushing(s.serializer.followUps[1..]))
    case Decrement => s.(active := s.active - 1, serializer := Waking)
    case Wake => s.(followUpCh := s.followUpCh + [None], serializer := Idle)
  }

  function Run(c: Setup, actions: seq<Action>): Option<State> {
    if actions == [] then Some(Start(c))
    else
      match Run(c, actions[..|actions| - 1])
      case None => None
      case Some(s) =>
        if Enabled(c, s, actions[|actions| - 1]) then Some(Do(c, s, actions[|actions| - 1])) else None
  }

  /** The session manager returns at most one follow-up, with a session id. */
  predicate SingleFollowUp(a: Action) {
    a.Complete? ==> |a.followUps| <= 1 && forall r :: r in a.followUps ==> r.session != ""
  }

  /** As the session manager answers: a follow-up continues the session of the completed request, and a
      session that came back empty stays empty. */
  predicate Managed(s: State, a: Action) {
    a.Complete? && s.serializer.Completing? ==>
      && (s.serializer.req.session in s.ended ==> a.followUps == [])
      && (forall r :: r in a.followUps ==> r.session == s.serializer.req.session)
  }

  /** The answers of OnComplete along a run: single follow-ups, and a session manager's if `managed`. */
  predicate Answers(c: Setup, managed: bool, actions: seq<Action>) {
    actions == [] ||
    var front, a := actions[..|actions| - 1], actions[|actions| - 1];
    && Answers(c, managed, front) && SingleFollowUp(a)
    && (managed && Run(c, front).Some? ==> Managed(Run(c, front).value, a))
  }

  ghost predicate Reachable(c: Setup, managed: bool, s: State) {
    exists actions :: Run(c, actions) == Some(s) && Answers(c, managed, actions)
  }

  /** No two pre-generated requests belong to one session. */
  predicate OwnSessions(source: seq<Req>) {
    forall i, j :: 0 <= i < j < |source| && source[i].session != "" ==> source[i].session != source[j].session
  }

  // ----- Counting the live session requests -----

  function One(r: Req): nat {
    if r.session != "" then 1 else 0
  }

  function Count(s: seq<Req>): nat {
    if s == [] then 0 else One(s[0]) + Count(s[1..])
  }

  /** The requests in a channel of follow-ups. */
  function Carried(ch: seq<Option<Req>>): seq<Req> {
    if ch == [] then [] else (match ch[0] case None => [] case Some(r) => [r]) + Carried(ch[1..])
  }

  /** The requests whose completion is still to be delivered. */
  function Flying(flights: seq<Flight>): seq<Req> {
    if flights == [] then [] else (if flights[0].stage == Releasing then [] else [flights[0].req]) + Flying(flights[1..])
  }

  function Held(m: Main): seq<Item> {
    match m case Holding(item) => [item] case _ => []
  }

  /** Follow-ups OnComplete returned that are still to be pushed. */
  function ToPush(z: Serializer): seq<Req> {
    if z.Pushing? then z.followUps else []
  }

  function InHand(z: Serializer): seq<Req> {
    if z.Completing? then [z.req] else ToPush(z)
  }

  function HeldReq(m: Main): seq<Req> {
    if Held(m) == [] then [] else [Held(m)[0].req]
  }

  /** Live session requests: chosen, pending, in either channel, in flight or in the serializer's hand;
      a session whose end has not been counted yet still counts. */
  function LiveSessions(s: State): nat {
    Count(HeldReq(s.main)) + Count(s.pending) + Count(Carried(s.followUpCh)) + Count(Flying(s.flights))
    + Count(s.completionCh) + Count(InHand(s.serializer)) + (if s.serializer.Decrementing? then 1 else 0)
  }

  // ----- Order and conservation -----

  function FromSource(items: seq<Item>): seq<Req> {
    if items == [] then [] else (if items[0].preGen then [items[0].req] else []) + FromSource(items[1..])
  }

  function FollowUps(items: seq<Item>): seq<Req> {
    if items == [] then [] else (if items[0].preGen then [] else [items[0].req]) + FollowUps(items[1..])
  }

  function Lookahead(s: State): seq<Req> {
    match s.nextPreGen case None => [] case Some(r) => [r]
  }

  /** Pre-generated requests are chosen in source order, none lost or doubled. */
  predicate SourceInOrder(c: Setup, s: State) {
    FromSource(s.dispatched) + FromSource(Held(s.main)) + Lookahead(s) + s.source == c.source
  }

  /** Follow-ups are chosen in the order they were created, none lost or doubled. */
  predicate FollowUpsInOrder(s: State) {
    FollowUps(s.dispatched) + FollowUps(Held(s.main)) + s.pending + Carried(s.followUpCh) + ToPush(s.serializer) == s.created
  }

  predicate InOrder(c: Setup, s: State) {
    SourceInOrder(c, s) && FollowUpsInOrder(s)
  }

  /** Every flight is the dispatch its index says, and no index flies twice. */
  predicate Indexed(s: State) {
    && (forall k :: 0 <= k < |s.flights| ==>
          s.flights[k].idx < |s.dispatched| && s.dispatched[s.flights[k].idx].req == s.flights[k].req)
    && (forall k, l :: 0 <= k < l < |s.flights| ==> s.flights[k].idx != s.flights[l].idx)
  }

  predicate Counted(c: Setup, s: State) {
    if c.handler then s.active == LiveSessions(s)
    else s.active == 0 && s.completionCh == [] && s.followUpCh == [] && s.pending == [] && s.serializer.Idle?
         && s.created == [] && (forall k :: 0 <= k < |s.flights| ==> s.flights[k].stage != Delivering)
  }

  /** Sessions still in the source have not been seen. */
  predicate Unseen(s: State) {
    UnseenIn(Lookahead(s) + s.source, s.seen) && (s.source != [] ==> s.nextPreGen.Some?)
  }

  predicate UnseenIn(todo: seq<Req>, seen: set<string>) {
    OwnSessions(todo) && forall i :: 0 <= i < |todo| && todo[i].session != "" ==> todo[i].session !in seen
  }

  predicate WithinBounds(c: Setup, s: State) {
    |s.flights| <= c.maxConcurrency && |s.completionCh| <= c.maxConcurrency && |s.followUpCh| <= c.maxConcurrency
  }

  /** Requests on their way to the serializer are session requests. */
  predicate SessionsOnly(s: State) {
    && (forall r :: r in s.completionCh ==> r.session != "")
    && (forall r :: r in s.created ==> r.session != "")
    && (s.serializer.Completing? ==> s.serializer.req.session != "")
    && (s.serializer.Pushing? ==> |s.serializer.followUps| == 1)
    && (forall k :: 0 <= k < |s.flights| && s.flights[k].stage == Delivering ==> s.flights[k].req.session != "")
  }

  /** The main loop waits only with nothing to choose from. */
  predicate WaitsEmpty(s: State) {
    s.main.Waiting? ==> s.pending == [] && s.nextPreGen.None?
  }

  /** The main loop waits only when it has nothing to choose from, and leaves only when, besides, no
      session is active. */
  predicate MainAt(c: Setup, s: State) {
    && WaitsEmpty(s)
    && (s.main.Exited? ==> s.nextPreGen.None? && s.pending == [] && (c.handler ==> s.active <= 0))
  }

  predicate Shaped(c: Setup, s: State) {
    SessionsOnly(s) && MainAt(c, s)
  }

  predicate Invariant(c: Setup, s: State) {
    InOrder(c, s) && Indexed(s) && Counted(c, s) && Unseen(s) && WithinBounds(c, s) && Shaped(c, s)
  }

  // ----- The counting functions, piece by piece -----

  lemma {:induction false} CountConcat(a: seq<Req>, b: seq<Req>)
    ensures Count(a + b) == Count(a) + Count(b)
  {
    if a == [] {
      assert a + b == b;
    } else {
      assert (a + b)[1..] == a[1..] + b;
      CountConcat(a[1..], b);
    }
  }

  lemma {:induction false} CarriedConcat(a: seq<Option<Req>>, b: seq<Option<Req>>)
    ensures Carried(a + b) == Carried(a) + Carried(b)
  {
    if a == [] {
      assert a + b == b;
    } else {
      assert (a + b)[1..] == a[1..] + b;
      CarriedConcat(a[1..], b);
    }
  }

  lemma {:induction false} FlyingConcat(a: seq<Flight>, b: seq<Flight>)
    ensures Flying(a + b) == Flying(a) + Flying(b)
  {
    if a == [] {
      assert a + b == b;
    } else {
      assert (a + b)[1..] == a[1..] + b;
      FlyingConcat(a[1..], b);
    }
  }

  lemma FromSourceFirst(items: seq<Item>)
    requires items != []
    ensures FromSource(items) == (if items[0].preGen then [items[0].req] else []) + FromSource(items[1..])
  {
  }

  lemma {:induction false} FromSourceConcat(a: seq<Item>, b: seq<Item>)
    ensures FromSource(a + b) == FromSource(a) + FromSource(b)
  {
    if a == [] {
      assert a + b == b;
    } else {
      FromSourceFirst(a);
      FromSourceFirst(a + b);
      hide FromSource;
      assert (a + b)[1..] == a[1..] + b;
      FromSourceConcat(a[1..], b);
    }
  }

  lemma FollowUpsFirst(items: seq<Item>)
    requires items != []
    ensures FollowUps(items) == (if items[0].preGen then [] else [items[0].req]) + FollowUps(items[1..])
  {
  }

  lemma {:induction false} FollowUpsConcat(a: seq<Item>, b: seq<Item>)
    ensures FollowUps(a + b) == FollowUps(a) + FollowUps(b)
  {
    if a == [] {
      assert a + b == b;
    } else {
      FollowUpsFirst(a);
      FollowUpsFirst(a + b);
      hide FollowUps;
      assert (a + b)[1..] == a[1..] + b;
      FollowUpsConcat(a[1..], b);
    }
  }

  function Aboard(f: Flight): seq<Req> {
    if f.stage == Releasing then [] else [f.req]
  }

  lemma FlyingOne(f: Flight)
    ensures Flying([f]) == Aboard(f)
  {
  }

  /** What one goroutine's step does to the count of those in flight. */
  lemma FlyingAt(fs: seq<Flight>, k: nat, f: Flight)
    requires k < |fs|
    ensures Count(Flying(fs[k := f])) == Count(Flying(fs)) - Count(Aboard(fs[k])) + Count(Aboard(f))
    ensures Count(Flying(RemoveAt(fs, k))) == Count(Flying(fs)) - Count(Aboard(fs[k]))
  {
    var a, b := fs[..k], fs[k + 1..];
    assert fs == (a + [fs[k]]) + b && fs[k := f] == (a + [f]) + b;
    FlyingConcat(a + [fs[k]], b);
    FlyingConcat(a, [fs[k]]);
    FlyingConcat(a + [f], b);
    FlyingConcat(a, [f]);
    FlyingConcat(a, b);
    FlyingOne(fs[k]);
    FlyingOne(f);
    CountConcat(Flying(a) + Aboard(fs[k]), Flying(b));
    CountConcat(Flying(a), Aboard(fs[k]));
    CountConcat(Flying(a) + Aboard(f), Flying(b));
    CountConcat(Flying(a), Aboard(f));
    CountConcat(Flying(a), Flying(b));
  }

  lemma FirstCarried(ch: seq<Option<Req>>)
    requires ch != []
    ensures Carried(ch) == (match ch[0] case None => [] case Some(r) => [r]) + Carried(ch[1..])
  {
  }

  lemma FirstCounts(s: seq<Req>)
    requires s != []
    ensures Count(s) == One(s[0]) + Count(s[1..])
    ensures Count([s[0]]) == One(s[0])
  {
    assert [s[0]][1..] == [];
  }

  // ----- Every step keeps the invariant -----

  lemma StartInvariant(c: Setup)
    requires OwnSessions(c.source)
    ensures Invariant(c, Start(c))
  {
    assert Lookahead(Start(c)) + Start(c).source == c.source;
  }

  lemma BoundsStep(c: Setup, s: State, a: Action)
    requires WithinBounds(c, s) && Enabled(c, s, a)
    ensures WithinBounds(c, Do(c, s, a))
  {
  }

  lemma IndexedStep(c: Setup, s: State, a: Action)
    requires Indexed(s) && Enabled(c, s, a)
    ensures Indexed(Do(c, s, a))
  {
    hide TakesFollowUp;
  }

  lemma UnseenStep(c: Setup, s: State, a: Action)
    requires Unseen(s) && Enabled(c, s, a)
    ensures Unseen(Do(c, s, a))
  {
    if a.Choose? && !TakesFollowUp(s) && s.nextPreGen.Some? {
      TakePreGenUnseen(c, s);
    } else {
      SameUnseen(s, Do(c, s, a));
    }
  }

  lemma SameUnseen(s: State, z: State)
    requires Unseen(s) && z.source == s.source && z.nextPreGen == s.nextPreGen && z.seen == s.seen
    ensures Unseen(z)
  {
  }

  lemma TakePreGenUnseen(c: Setup, s: State)
    requires Unseen(s) && s.nextPreGen.Some?
    ensures Unseen(TakePreGen(c, s))
  {
    var z := TakePreGen(c, s);
    var todo := Lookahead(s) + s.source;
    assert todo[1..] == s.source == Lookahead(z) + z.source && todo[0] == s.nextPreGen.value;
    hide UnseenIn;
    RestUnseen(todo, s.seen);
  }

  lemma RestUnseen(todo: seq<Req>, seen: set<string>)
    requires UnseenIn(todo, seen) && todo != []
    ensures UnseenIn(todo[1..], seen)
    ensures todo[0].session != "" ==> UnseenIn(todo[1..], seen + {todo[0].session})
  {
    var rest := todo[1..];
    assert forall i :: 0 <= i < |rest| ==> rest[i] == todo[i + 1];
  }

  lemma HeldOne(r: Req, preGen: bool)
    ensures FromSource(Held(Holding(Item(r, preGen)))) == if preGen then [r] else []
    ensures FollowUps(Held(Holding(Item(r, preGen)))) == if preGen then [] else [r]
  {
    assert [Item(r, preGen)][1..] == [];
  }

  lemma Shift(d: seq<Req>, r: Req, p: seq<Req>)
    ensures d + [] + ([r] + p) == d + [r] + p
    ensures d + [] + [] + ([r] + p) == d + [r] + [] + p
    ensures d + [] + [r] + p == d + [r] + [] + p
  {
    assert d + [] == d;
    assert d + [] + [] == d;
    assert d + [r] + [] == d + [r];
    assert d + ([r] + p) == d + [r] + p;
  }

  lemma Join(d: seq<Req>, x: seq<Req>, p: seq<Req>)
    ensures (d + x) + [] == d + x && [] + p == p
    ensures (d + x) + p == d + (x + p)
  {
  }

  lemma SourceStep(c: Setup, s: State, a: Action)
    requires SourceInOrder(c, s) && (s.source != [] ==> s.nextPreGen.Some?) && Enabled(c, s, a)
    ensures SourceInOrder(c, Do(c, s, a))
  {
    hide FromSource, TakesFollowUp;
    NothingHeld();
    match a
    case Choose =>
      if TakesFollowUp(s) {
        ChosenIsHeld(c, s);
      } else if s.nextPreGen.Some? {
        TakePreGenInOrder(c, s);
      }
    case Receive =>
      match s.followUpCh[0] { case None => case Some(r) => HeldOne(r, false); }
    case Dispatch =>
      FromSourceConcat(s.dispatched, [s.main.item]);
      Join(FromSource(s.dispatched), FromSource([s.main.item]), []);
    case _ =>
  }

  lemma ChosenIsHeld(c: Setup, s: State)
    requires s.main.Choosing? && TakesFollowUp(s)
    ensures FromSource(Held(Do(c, s, Choose).main)) == []
  {
    HeldOne(s.pending[0], false);
  }

  lemma TakePreGenInOrder(c: Setup, s: State)
    requires SourceInOrder(c, s) && s.main.Choosing? && s.nextPreGen.Some?
    ensures SourceInOrder(c, TakePreGen(c, s))
  {
    var r, d := s.nextPreGen.value, FromSource(s.dispatched);
    var z := TakePreGen(c, s);
    HeldOne(r, true);
    NothingHeld();
    hide FromSource;
    Shift(d, r, s.source);
    assert Lookahead(z) + z.source == s.source;
    Join(d + [r], Lookahead(z), z.source);
    Join(d + [r], [], s.source);
  }

  lemma NothingHeld()
    ensures FromSource([]) == [] && FollowUps([]) == [] && Carried([]) == []
  {
  }

  lemma FollowUpsStep(c: Setup, s: State, a: Action)
    requires FollowUpsInOrder(s) && WaitsEmpty(s) && Enabled(c, s, a)
    ensures FollowUpsInOrder(Do(c, s, a))
  {
    hide FollowUps, Carried, TakesFollowUp;
    NothingHeld();
    match a
    case Drain =>
      if s.followUpCh != [] { FirstCarried(s.followUpCh); }
    case Choose =>
      if TakesFollowUp(s) { ChooseFollowUp(c, s); }
      else if s.nextPreGen.Some? { HeldOne(s.nextPreGen.value, true); }
    case Receive =>
      ReceiveFollowUp(c, s);
    case Dispatch => FollowUpsConcat(s.dispatched, [s.main.item]);
    case Push => PushFollowUp(c, s);
    case Wake => CarriedSnoc(s.followUpCh, None);
    case _ =>
  }

  lemma CarriedSnoc(ch: seq<Option<Req>>, x: Option<Req>)
    ensures Carried(ch + [x]) == Carried(ch) + (match x case None => [] case Some(r) => [r])
  {
    CarriedConcat(ch, [x]);
    assert [x][1..] == [];
  }

  lemma ChooseFollowUp(c: Setup, s: State)
    requires FollowUpsInOrder(s) && s.main.Choosing? && TakesFollowUp(s)
    ensures FollowUpsInOrder(Do(c, s, Choose))
  {
    HeldOne(s.pending[0], false);
    hide FollowUps, Carried, Held, ToPush;
    NothingHeld();
    assert Held(Choosing) == [] by { MainHoldsNothing(); }
    assert s.pending == [s.pending[0]] + s.pending[1..];
    Shift(FollowUps(s.dispatched), s.pending[0], s.pending[1..]);
  }

  lemma MainHoldsNothing()
    ensures Held(Choosing) == [] && Held(Waiting) == [] && Held(Draining) == []
  {
  }

  lemma ReceiveFollowUp(c: Setup, s: State)
    requires FollowUpsInOrder(s) && s.pending == [] && s.main.Waiting? && s.followUpCh != []
    ensures FollowUpsInOrder(Do(c, s, Receive))
  {
    hide FollowUps, Carried, Held, ToPush;
    NothingHeld();
    MainHoldsNothing();
    FirstCarried(s.followUpCh);
    match s.followUpCh[0] {
      case None => Join([], [], Carried(s.followUpCh[1..]));
      case Some(r) =>
        HeldOne(r, false);
        Shift(FollowUps(s.dispatched), r, Carried(s.followUpCh[1..]));
    }
  }

  lemma PushFollowUp(c: Setup, s: State)
    requires FollowUpsInOrder(s) && Enabled(c, s, Push)
    ensures FollowUpsInOrder(Do(c, s, Push))
  {
    hide FollowUps, Carried;
    var f := s.serializer.followUps;
    CarriedSnoc(s.followUpCh, Some(f[0]));
    assert f == [f[0]] + f[1..];
  }

  lemma ShapedStep(c: Setup, s: State, a: Action)
    requires Shaped(c, s) && Enabled(c, s, a) && SingleFollowUp(a)
    ensures Shaped(c, Do(c, s, a))
  {
    SessionsStep(c, s, a);
    hide SessionsOnly;
  }

  lemma SessionsStep(c: Setup, s: State, a: Action)
    requires SessionsOnly(s) && Enabled(c, s, a) && SingleFollowUp(a)
    ensures SessionsOnly(Do(c, s, a))
  {
    if a.Complete? {
      assert forall r :: r in s.created + a.followUps ==> r in s.created || r in a.followUps;
    }
  }

  lemma CountedStep(c: Setup, s: State, a: Action)
    requires Counted(c, s) && Unseen(s) && Shaped(c, s) && Enabled(c, s, a) && SingleFollowUp(a)
    ensures Counted(c, Do(c, s, a))
  {
    hide Counted, Unseen, SessionsOnly, MainAt;
    match a
    case Drain => CountedMain(c, s, a);
    case Choose => CountedMain(c, s, a);
    case Receive => CountedMain(c, s, a);
    case Dispatch => CountedFlight(c, s, a);
    case Sent(_) => CountedFlight(c, s, a);
    case Deliver(_) => CountedFlight(c, s, a);
    case Release(_) => CountedFlight(c, s, a);
    case _ => CountedSerializer(c, s, a);
  }

  lemma CountedMain(c: Setup, s: State, a: Action)
    requires Counted(c, s) && (a.Choose? ==> Unseen(s)) && Enabled(c, s, a) && (a.Drain? || a.Choose? || a.Receive?)
    ensures Counted(c, Do(c, s, a))
  {
    hide Count, Carried, Flying, OwnSessions;
    CountNone();
    match a
    case Drain =>
      if s.followUpCh != [] {
        CountFirstCarried(s.followUpCh);
        CountConcat(s.pending, match s.followUpCh[0] case None => [] case Some(r) => [r]);
      }
    case Receive => CountFirstCarried(s.followUpCh);
    case Choose =>
      if TakesFollowUp(s) {
        FirstCounts(s.pending);
      } else if s.nextPreGen.Some? {
        FirstCounts([s.nextPreGen.value]);
        assert (Lookahead(s) + s.source)[0] == s.nextPreGen.value;
      }
  }

  lemma CountNone()
    ensures Count([]) == 0
  {
  }

  lemma CountFirstCarried(ch: seq<Option<Req>>)
    requires ch != []
    ensures Count(Carried(ch)) == Count(match ch[0] case None => [] case Some(r) => [r]) + Count(Carried(ch[1..]))
  {
    FirstCarried(ch);
    CountConcat(match ch[0] case None => [] case Some(r) => [r], Carried(ch[1..]));
  }

  lemma CountedFlight(c: Setup, s: State, a: Action)
    requires Counted(c, s) && Enabled(c, s, a) && (a.Dispatch? || a.Sent? || a.Deliver? || a.Release?)
    ensures Counted(c, Do(c, s, a))
  {
    hide Count, Carried, Flying;
    CountNone();
    match a
    case Dispatch =>
      var f := Flight(s.main.item.req, |s.dispatched|, Sending);
      FlyingOne(f);
      FlyingConcat(s.flights, [f]);
      CountConcat(Flying(s.flights), [f.req]);
    case Sent(k) =>
      FirstCounts([s.flights[k].req]);
      FlyingAt(s.flights, k, Do(c, s, a).flights[k]);
    case Deliver(k) =>
      FlyingAt(s.flights, k, Do(c, s, a).flights[k]);
      CountConcat(s.completionCh, [s.flights[k].req]);
    case Release(k) => FlyingAt(s.flights, k, s.flights[k]);
  }

  lemma CountedSerializer(c: Setup, s: State, a: Action)
    requires Counted(c, s) && SessionsOnly(s) && Enabled(c, s, a) && SingleFollowUp(a)
    requires a.TakeCompletion? || a.Complete? || a.Push? || a.Decrement? || a.Wake?
    ensures Counted(c, Do(c, s, a))
  {
    hide Count, Carried, Flying;
    CountNone();
    match a
    case TakeCompletion => FirstCounts(s.completionCh);
    case Complete(followUps) =>
      FirstCounts([s.serializer.req]);
      if followUps != [] {
        assert followUps == [followUps[0]];
        FirstCounts(followUps);
      }
    case Push =>
      CarriedSnoc(s.followUpCh, Some(s.serializer.followUps[0]));
      CountConcat(Carried(s.followUpCh), [s.serializer.followUps[0]]);
      assert s.serializer.followUps == [s.serializer.followUps[0]];
    case Wake =>
      CarriedSnoc(s.followUpCh, None);
      assert Carried(s.followUpCh) + [] == Carried(s.followUpCh);
    case Decrement =>
  }

  lemma LookaheadIsFull(s: State)
    requires Unseen(s)
    ensures s.source != [] ==> s.nextPreGen.Some?
  {
  }

  lemma ShapedWaits(c: Setup, s: State)
    requires Shaped(c, s)
    ensures WaitsEmpty(s)
  {
  }

  lemma StepKeepsInvariant(c: Setup, s: State, a: Action)
    requires Invariant(c, s) && Enabled(c, s, a) && SingleFollowUp(a)
    ensures Invariant(c, Do(c, s, a))
  {
    hide SourceInOrder, FollowUpsInOrder, Counted, Unseen, Indexed, WithinBounds, Shaped, WaitsEmpty, Do, Enabled, SingleFollowUp;
    LookaheadIsFull(s);
    ShapedWaits(c, s);
    SourceStep(c, s, a);
    FollowUpsStep(c, s, a);
    IndexedStep(c, s, a);
    CountedStep(c, s, a);
    UnseenStep(c, s, a);
    BoundsStep(c, s, a);
    ShapedStep(c, s, a);
  }

  /** Over every interleaving: the counter is the number of live session requests, and every request is
      where it should be, in order. */
  lemma {:induction false} RunKeepsInvariant(c: Setup, actions: seq<Action>)
    requires OwnSessions(c.source) && (forall i :: 0 <= i < |actions| ==> SingleFollowUp(actions[i]))
    requires Run(c, actions).Some?
    ensures Invariant(c, Run(c, actions).value)
  {
    hide Invariant, Do, Enabled, SingleFollowUp, OwnSessions;
    if actions == [] {
      StartInvariant(c);
    } else {
      var front, a := actions[..|actions| - 1], actions[|actions| - 1];
      assert forall i :: 0 <= i < |front| ==> front[i] == actions[i];
      RunKeepsInvariant(c, front);
      StepKeepsInvariant(c, Run(c, front).value, a);
    }
  }

  // ----- What a normal exit means -----

  /** Nothing of a session is on its way anywhere. */
  predicate NothingLeft(s: State) {
    && s.source == [] && s.nextPreGen.None? && s.pending == [] && s.completionCh == []
    && Carried(s.followUpCh) == [] && InHand(s.serializer) == [] && !s.serializer.Decrementing?
  }

  lemma CountPositive(s: seq<Req>)
    requires forall r :: r in s ==> r.session != ""
    ensures s != [] ==> Count(s) > 0
  {
    if s != [] {
      assert s[0] in s;
    }
  }

  lemma {:induction false} NobodyFlies(fs: seq<Flight>)
    requires Count(Flying(fs)) == 0
    ensures forall k :: 0 <= k < |fs| && fs[k].req.session != "" ==> fs[k].stage == Releasing
  {
    if fs != [] {
      CountConcat(if fs[0].stage == Releasing then [] else [fs[0].req], Flying(fs[1..]));
      FirstCounts([fs[0].req]);
      NobodyFlies(fs[1..]);
      assert forall k :: 1 <= k < |fs| ==> fs[k] == fs[1..][k - 1];
    }
  }

  /** Normal loop exit: the source is exhausted, every pre-generated request and every follow-up was
      dispatched exactly once, in order, and nothing of any session is left anywhere. */
  lemma ExitMeansAllDone(c: Setup, s: State)
    requires Invariant(c, s) && s.main.Exited?
    ensures NothingLeft(s)
    ensures FromSource(s.dispatched) == c.source && FollowUps(s.dispatched) == s.created
    ensures |s.dispatched| == |c.source| + |s.created|
    ensures c.handler ==>
              forall k :: 0 <= k < |s.flights| && s.flights[k].req.session != "" ==> s.flights[k].stage == Releasing
  {
    hide Indexed, WithinBounds, Unseen;
    SplitLength(s.dispatched);
    LookaheadEmpty(s);
    if c.handler {
      CreatedHasSessions(s);
      CountPositive(s.completionCh);
      CountPositive(InHand(s.serializer));
      CountPositive(Carried(s.followUpCh));
      NobodyFlies(s.flights);
    }
  }

  lemma LookaheadEmpty(s: State)
    requires Unseen(s) && s.nextPreGen.None?
    ensures s.source == [] && Lookahead(s) == []
  {
  }

  lemma CreatedHasSessions(s: State)
    requires FollowUpsInOrder(s) && SessionsOnly(s)
    ensures forall r :: r in Carried(s.followUpCh) ==> r.session != ""
    ensures forall r :: r in InHand(s.serializer) ==> r.session != ""
  {
    var before := FollowUps(s.dispatched) + FollowUps(Held(s.main)) + s.pending;
    assert s.created == before + Carried(s.followUpCh) + ToPush(s.serializer);
    hide FollowUps, Carried, Held;
    forall r | r in Carried(s.followUpCh) || r in ToPush(s.serializer) ensures r in s.created {
    }
  }

  lemma {:induction false} SplitLength(items: seq<Item>)
    ensures |items| == |FromSource(items)| + |FollowUps(items)|
  {
    if items != [] {
      SplitLength(items[1..]);
    }
  }

  /** Over every interleaving that exits normally: everything was dispatched exactly once, in order, each
      under its own index, and nothing is left on its way. */
  lemma NormalExitLosesNothing(c: Setup, actions: seq<Action>)
    requires OwnSessions(c.source) && (forall i :: 0 <= i < |actions| ==> SingleFollowUp(actions[i]))
    requires Run(c, actions).Some? && Run(c, actions).value.main.Exited?
    ensures var s := Run(c, actions).value;
            && NothingLeft(s) && Indexed(s)
            && FromSource(s.dispatched) == c.source && FollowUps(s.dispatched) == s.created
            && |s.dispatched| == |c.source| + |s.created|
  {
    hide Run, InOrder, Counted, Unseen, Shaped, NothingLeft;
    RunKeepsInvariant(c, actions);
    ExitMeansAllDone(c, Run(c, actions).value);
  }

  /** After a normal exit nothing can change that any more: no follow-up is ever created or lost. */
  lemma ExitIsFinal(c: Setup, s: State, a: Action)
    requires Invariant(c, s) && s.main.Exited? && Enabled(c, s, a)
    ensures Do(c, s, a).main.Exited? && Do(c, s, a).created == s.created && Do(c, s, a).dispatched == s.dispatched
  {
    ExitMeansAllDone(c, s);
    hide InOrder, Indexed, Counted, Unseen, Shaped, WithinBounds;
  }

  // ----- Sessions with several pre-generated requests -----

  lemma RunSnoc(c: Setup, actions: seq<Action>, a: Action)
    requires Run(c, actions).Some? && Enabled(c, Run(c, actions).value, a)
    ensures Run(c, actions + [a]) == Some(Do(c, Run(c, actions).value, a))
  {
    hide Do, Enabled;
    assert (actions + [a])[..|actions + [a]| - 1] == actions;
  }

  lemma Moves(c: Setup, managed: bool, s: State, a: Action) returns (z: State)
    requires Reachable(c, managed, s) && Enabled(c, s, a) && SingleFollowUp(a) && (managed ==> Managed(s, a))
    ensures z == Do(c, s, a) && Reachable(c, managed, z)
  {
    hide Run, Do, Enabled, SingleFollowUp, Managed;
    z := Do(c, s, a);
    var actions :| Run(c, actions) == Some(s) && Answers(c, managed, actions);
    RunSnoc(c, actions, a);
    assert (actions + [a])[..|actions + [a]| - 1] == actions;
    assert Answers(c, managed, actions + [a]);
  }

  lemma StartReachable(c: Setup, managed: bool)
    ensures Reachable(c, managed, Start(c))
  {
    assert Run(c, []) == Some(Start(c)) && Answers(c, managed, []);
  }

  function Sessions(s: seq<Req>): set<string> {
    set r | r in s && r.session != "" :: r.session
  }

  lemma SessionsSnoc(s: seq<Req>, r: Req)
    ensures Sessions(s + [r]) == Sessions(s) + (if r.session != "" then {r.session} else {})
    ensures Count(s + [r]) == Count(s) + One(r)
  {
    CountConcat(s, [r]);
    FirstCounts([r]);
    hide Count;
    forall x | x in Sessions(s + [r]) ensures x in Sessions(s) + (if r.session != "" then {r.session} else {}) {
      var q :| q in s + [r] && q.session != "" && q.session == x;
      assert q in s || q == r;
    }
    assert forall q :: q in s ==> q in s + [r];
    assert r in s + [r];
  }

  /** Fewer sessions than session requests, exactly when two share one. */
  lemma {:induction false} SessionsCount(s: seq<Req>)
    ensures |Sessions(s)| <= Count(s)
    ensures !OwnSessions(s) ==> |Sessions(s)| < Count(s)
  {
    if s == [] {
      assert Sessions(s) == {};
    } else {
      var front, r := s[..|s| - 1], s[|s| - 1];
      assert s == front + [r];
      SessionsCount(front);
      SessionsSnoc(front, r);
      if OwnSessions(front) && !OwnSessions(s) {
        LastShares(s);
      }
    }
  }

  lemma LastShares(s: seq<Req>)
    requires s != [] && OwnSessions(s[..|s| - 1]) && !OwnSessions(s)
    ensures s[|s| - 1].session != "" && s[|s| - 1].session in Sessions(s[..|s| - 1])
  {
    var front := s[..|s| - 1];
    var i, j :| 0 <= i < j < |s| && s[i].session != "" && s[i].session == s[j].session;
    assert forall q :: 0 <= q < |front| ==> front[q] == s[q];
    assert i < |front| && front[i] in front;
  }

  // Stretches of a run.

  /** With nothing in flight and nothing to drain, the next pre-generated request is sent. */
  lemma SendsPreGen(c: Setup, managed: bool, s: State) returns (z: State)
    requires Reachable(c, managed, s) && c.handler && c.maxConcurrency >= 1
    requires s.main == Draining && s.followUpCh == [] && s.flights == [] && s.nextPreGen.Some? && !TakesFollowUp(s)
    ensures var r := s.nextPreGen.value;
            z == TakePreGen(c, s).(main := Draining, dispatched := s.dispatched + [Item(r, true)],
                                   flights := [Flight(r, |s.dispatched|, if r.session != "" then Delivering else Releasing)])
    ensures Reachable(c, managed, z)
  {
    hide Reachable, TakesFollowUp;
    z := Moves(c, managed, s, Drain);
    hide TakesFollowUp;
    assert TakesFollowUp(z) == TakesFollowUp(s) by { SameChoice(s, z); }
    z := Moves(c, managed, z, Choose);
    z := Moves(c, managed, z, Dispatch);
    z := Moves(c, managed, z, Sent(0));
  }

  lemma SameChoice(s: State, z: State)
    requires z.pending == s.pending && z.nextPreGen == s.nextPreGen
    ensures TakesFollowUp(z) == TakesFollowUp(s)
  {
  }

  /** The only completion in the system reaches the serializer. */
  lemma Delivers(c: Setup, managed: bool, s: State) returns (z: State)
    requires Reachable(c, managed, s) && c.handler && c.maxConcurrency >= 1
    requires |s.flights| == 1 && s.flights[0].stage == Delivering && s.completionCh == [] && s.serializer == Idle
    ensures z == s.(flights := [], serializer := Completing(s.flights[0].req)) && Reachable(c, managed, z)
  {
    hide Reachable;
    z := Moves(c, managed, s, Deliver(0));
    z := Moves(c, managed, z, Release(0));
    z := Moves(c, managed, z, TakeCompletion);
  }

  lemma LetsGo(c: Setup, managed: bool, s: State) returns (z: State)
    requires Reachable(c, managed, s) && |s.flights| == 1 && s.flights[0].stage == Releasing
    ensures z == s.(flights := []) && Reachable(c, managed, z)
  {
    hide Reachable;
    z := Moves(c, managed, s, Release(0));
  }

  /** The session of the request in hand ends; its wakeup is drained. */
  lemma EndsSession(c: Setup, managed: bool, s: State) returns (z: State)
    requires Reachable(c, managed, s) && c.maxConcurrency >= 1
    requires s.serializer.Completing? && s.serializer.req.session != "" && s.followUpCh == [] && s.main == Draining
    ensures z == s.(serializer := Idle, active := s.active - 1, ended := s.ended + {s.serializer.req.session})
    ensures Reachable(c, managed, z)
  {
    hide Reachable;
    z := Moves(c, managed, s, Complete([]));
    z := Moves(c, managed, z, Decrement);
    z := Moves(c, managed, z, Wake);
    z := Moves(c, managed, z, Drain);
    assert s.created + [] == s.created && s.pending + [] == s.pending;
  }

  /** The session of the request in hand goes on with `f`, which is drained. */
  lemma ContinuesSession(c: Setup, managed: bool, s: State, f: Req) returns (z: State)
    requires Reachable(c, managed, s) && c.maxConcurrency >= 1 && f.session != ""
    requires s.serializer.Completing? && s.followUpCh == [] && s.main == Draining
    requires managed ==> f.session == s.serializer.req.session && f.session !in s.ended
    ensures z == s.(serializer := Idle, created := s.created + [f], pending := s.pending + [f])
    ensures Reachable(c, managed, z)
  {
    hide Reachable;
    z := Moves(c, managed, s, Complete([f]));
    z := Moves(c, managed, z, Push);
    z := Moves(c, managed, z, Drain);
  }

  // A run that serves one request of the source after the other. Every session request completes with
  // nothing, except request `l`, whose follow-up `f` arrives after the whole source.

  function Skipping(source: seq<Req>, k: nat, l: nat): seq<Req>
    requires k <= |source|
  {
    if l < k then source[..l] + source[l + 1..k] else source[..k]
  }

  function Items(source: seq<Req>, k: nat): (items: seq<Item>)
    requires k <= |source|
  {
    seq(k, i requires 0 <= i < k => Item(source[i], true))
  }

  /** After `k` requests of that run, at the top of the main loop. */
  function Calm(c: Setup, k: nat, l: nat, f: Req): State
    requires k <= |c.source|
  {
    var made := if l < k then [f] else [];
    State(if k == |c.source| then [] else c.source[k + 1..],
          if k == |c.source| then None else Some(c.source[k]),
          made, [], [], Draining, [], Idle,
          |Sessions(c.source[..k])| - Count(Skipping(c.source, k, l)),
          Sessions(c.source[..k]), Items(c.source, k), made, Sessions(Skipping(c.source, k, l)))
  }

  predicate Lossy(c: Setup, managed: bool, l: nat, f: Req) {
    && c.handler && c.maxConcurrency >= 1 && l < |c.source| && c.source[l].session == f.session != ""
    && (forall r :: r in c.source ==> r.arrival < f.arrival)
    && (managed ==> forall i :: 0 <= i < |c.source| && i != l ==> c.source[i].session != f.session)
  }

  lemma CalmStarts(c: Setup, l: nat, f: Req)
    ensures Calm(c, 0, l, f) == Start(c)
  {
    assert c.source[..0] == [] && Skipping(c.source, 0, l) == [];
    assert Sessions([]) == {};
  }

  /** What request `k` adds to the books of the run. */
  lemma Books(c: Setup, k: nat, l: nat)
    requires k < |c.source|
    ensures var r := c.source[k];
            var own := if r.session != "" then {r.session} else {};
            && Sessions(c.source[..k + 1]) == Sessions(c.source[..k]) + own
            && Items(c.source, k + 1) == Items(c.source, k) + [Item(r, true)]
            && (k != l ==> Count(Skipping(c.source, k + 1, l)) == Count(Skipping(c.source, k, l)) + One(r)
                           && Sessions(Skipping(c.source, k + 1, l)) == Sessions(Skipping(c.source, k, l)) + own)
            && (k == l ==> Skipping(c.source, k + 1, l) == Skipping(c.source, k, l))
  {
    var r := c.source[k];
    assert c.source[..k + 1] == c.source[..k] + [r];
    SessionsSnoc(c.source[..k], r);
    if k != l {
      assert Skipping(c.source, k + 1, l) == Skipping(c.source, k, l) + [r];
      SessionsSnoc(Skipping(c.source, k, l), r);
    }
  }

  /** Request `k` is chosen, dispatched and sent. */
  function Aloft(c: Setup, k: nat, l: nat, f: Req): State
    requires k < |c.source|
  {
    var r := c.source[k];
    var z := Calm(c, k, l, f);
    z.(source := if k + 1 == |c.source| then [] else c.source[k + 2..],
       nextPreGen := if k + 1 == |c.source| then None else Some(c.source[k + 1]),
       seen := Sessions(c.source[..k + 1]),
       active := |Sessions(c.source[..k + 1])| - Count(Skipping(c.source, k, l)),
       dispatched := Items(c.source, k + 1),
       flights := [Flight(r, k, if r.session != "" then Delivering else Releasing)])
  }

  lemma TakesOff(c: Setup, managed: bool, k: nat, l: nat, f: Req)
    requires Lossy(c, managed, l, f) && k < |c.source| && Reachable(c, managed, Calm(c, k, l, f))
    ensures Reachable(c, managed, Aloft(c, k, l, f))
  {
    hide Reachable, Count, Sessions, Skipping, Items, Do, Enabled;
    var s, r := Calm(c, k, l, f), c.source[k];
    Books(c, k, l);
    LessThanOne(Sessions(c.source[..k]), r.session);
    ItemsLength(c.source, k);
    SourceTail(c.source, k);
    assert r in c.source;
    SeenSession(c, k);
    s := SendsPreGen(c, managed, s);
  }

  lemma SeenSession(c: Setup, k: nat)
    requires k < |c.source|
    ensures c.source[k].session == "" ==> Sessions(c.source[..k]) + {} == Sessions(c.source[..k])
  {
  }

  lemma ItemsLength(source: seq<Req>, k: nat)
    requires k <= |source|
    ensures |Items(source, k)| == k
  {
  }

  lemma SourceTail(source: seq<Req>, k: nat)
    requires k < |source|
    ensures k + 1 == |source| ==> source[k + 1..] == []
    ensures k + 1 < |source| ==> source[k + 1..] != [] && source[k + 1..][0] == source[k + 1] && source[k + 1..][1..] == source[k + 2..]
  {
  }

  lemma LessThanOne(seen: set<string>, x: string)
    ensures x !in seen ==> |seen + {x}| == |seen| + 1
    ensures x in seen ==> seen + {x} == seen
    ensures seen + {} == seen
  {
  }

  lemma Lands(c: Setup, managed: bool, k: nat, l: nat, f: Req)
    requires Lossy(c, managed, l, f) && k < |c.source| && Reachable(c, managed, Aloft(c, k, l, f))
    ensures Reachable(c, managed, Calm(c, k + 1, l, f))
  {
    hide Reachable, Count, Sessions, Skipping, Items, Do, Enabled;
    var s, r := Aloft(c, k, l, f), c.source[k];
    Books(c, k, l);
    if r.session == "" {
      s := LetsGo(c, managed, s);
    } else {
      s := Delivers(c, managed, s);
      if k == l {
        NotEnded(c, managed, l, f);
        s := ContinuesSession(c, managed, s, f);
      } else {
        s := EndsSession(c, managed, s);
      }
    }
    assert s == Calm(c, k + 1, l, f);
  }

  lemma NotEnded(c: Setup, managed: bool, l: nat, f: Req)
    requires Lossy(c, managed, l, f)
    ensures managed ==> forall k :: 0 <= k <= |c.source| ==> f.session !in Sessions(Skipping(c.source, k, l))
  {
    if managed {
      forall k | 0 <= k <= |c.source| ensures f.session !in Sessions(Skipping(c.source, k, l)) {
        forall r | r in Skipping(c.source, k, l) ensures r.session != f.session {
          if l < k {
            assert r in c.source[..l] || r in c.source[l + 1..k];
          }
        }
      }
    }
  }

  lemma {:induction false} ServesAll(c: Setup, managed: bool, k: nat, l: nat, f: Req)
    requires Lossy(c, managed, l, f) && k <= |c.source|
    ensures Reachable(c, managed, Calm(c, k, l, f))
  {
    hide Reachable, Calm, Aloft, Lossy;
    if k == 0 {
      CalmStarts(c, l, f);
      StartReachable(c, managed);
    } else {
      ServesAll(c, managed, k - 1, l, f);
      TakesOff(c, managed, k - 1, l, f);
      Lands(c, managed, k - 1, l, f);
    }
  }

  /** The books at the end: nobody is counted any more, although `f` is live. */
  lemma BooksClosed(c: Setup, l: nat)
    requires l < |c.source| && c.source[l].session != "" && !OwnSessions(c.source)
    ensures |Sessions(c.source[..|c.source|])| - Count(Skipping(c.source, |c.source|, l)) <= 0
  {
    var n := |c.source|;
    var a, r, z := c.source[..l], c.source[l], c.source[l + 1..n];
    assert c.source[..n] == c.source == (a + [r]) + z;
    SessionsCount(c.source);
    CountConcat(a + [r], z);
    CountConcat(a, [r]);
    CountConcat(a, z);
    FirstCounts([r]);
  }

  /** With two pre-generated requests of one session, some run exits normally and then loses the
      follow-up of a session that is still going on. */
  lemma LosesFollowUp(c: Setup, managed: bool, l: nat, f: Req, g: Req) returns (s: State)
    requires Lossy(c, managed, l, f) && !OwnSessions(c.source) && g.session == f.session
    ensures Reachable(c, managed, s) && s.main.Exited? && s.created == [f, g] && FollowUps(s.dispatched) == [f]
  {
    hide Reachable, Count, Sessions, Skipping, Items, FollowUps;
    var n := |c.source|;
    ServesAll(c, managed, n, l, f);
    BooksClosed(c, l);
    NotEnded(c, managed, l, f);
    ItemsLength(c.source, n);
    s := Calm(c, n, l, f);
    s := LeavesWith(c, managed, s, f);
    s := Delivers(c, managed, s);
    s := Moves(c, managed, s, Complete([g]));
    OneFollowUp(c.source, n, f);
  }

  /** The loop sends its last follow-up and, nobody being counted any more, leaves. */
  lemma LeavesWith(c: Setup, managed: bool, s: State, f: Req) returns (z: State)
    requires Reachable(c, managed, s) && c.handler && c.maxConcurrency >= 1 && f.session != ""
    requires s.main == Draining && s.followUpCh == [] && s.flights == [] && s.nextPreGen.None? && s.pending == [f] && s.active <= 0
    ensures z == s.(main := Exited, pending := [], dispatched := s.dispatched + [Item(f, false)],
                    flights := [Flight(f, |s.dispatched|, Delivering)])
    ensures Reachable(c, managed, z)
  {
    hide Reachable;
    z := Moves(c, managed, s, Drain);
    z := Moves(c, managed, z, Choose);
    z := Moves(c, managed, z, Dispatch);
    z := Moves(c, managed, z, Sent(0));
    z := Moves(c, managed, z, Drain);
    z := Moves(c, managed, z, Choose);
  }

  lemma {:induction false} NoFollowUps(source: seq<Req>, k: nat)
    requires k <= |source|
    ensures FollowUps(Items(source, k)) == []
  {
    if k > 0 {
      NoFollowUps(source, k - 1);
      assert Items(source, k) == Items(source, k - 1) + [Item(source[k - 1], true)];
      FollowUpsConcat(Items(source, k - 1), [Item(source[k - 1], true)]);
      HeldOne(source[k - 1], true);
    }
  }

  lemma OneFollowUp(source: seq<Req>, k: nat, f: Req)
    requires k <= |source|
    ensures FollowUps(Items(source, k) + [Item(f, false)]) == [f]
  {
    NoFollowUps(source, k);
    FollowUpsConcat(Items(source, k), [Item(f, false)]);
    HeldOne(f, false);
  }

  lemma {:induction false} AfterAll(source: seq<Req>) returns (t: int)
    ensures forall r :: r in source ==> r.arrival < t
  {
    if source == [] {
      t := 0;
    } else {
      t := AfterAll(source[1..]);
      t := if source[0].arrival < t then t else source[0].arrival + 1;
    }
  }

  ghost predicate LosesNothing(c: Setup, managed: bool) {
    forall s :: Reachable(c, managed, s) && s.main.Exited? ==> FollowUps(s.dispatched) == s.created
  }

  lemma OwnSessionsLoseNothing(c: Setup, managed: bool)
    requires OwnSessions(c.source)
    ensures LosesNothing(c, managed)
  {
    hide Run, OwnSessions, FollowUps, NothingLeft;
    forall s | Reachable(c, managed, s) && s.main.Exited? ensures FollowUps(s.dispatched) == s.created {
      var actions :| Run(c, actions) == Some(s) && Answers(c, managed, actions);
      AnswersSingle(c, managed, actions);
      NormalExitLosesNothing(c, actions);
    }
  }

  lemma {:induction false} AnswersSingle(c: Setup, managed: bool, actions: seq<Action>)
    requires Answers(c, managed, actions)
    ensures forall i :: 0 <= i < |actions| ==> SingleFollowUp(actions[i])
  {
    hide Run, SingleFollowUp;
    if actions != [] {
      AnswersSingle(c, managed, actions[..|actions| - 1]);
    }
  }

  /** Exactly when nothing is lost. For every source, every number of slots and an OnComplete that returns
      at most one follow-up, with a session: all normal exits keep all follow-ups, if and only if no two
      pre-generated requests belong to one session. */
  lemma LosesNothingExactly(c: Setup)
    requires c.handler && c.maxConcurrency >= 1
    ensures OwnSessions(c.source) <==> LosesNothing(c, false)
  {
    if OwnSessions(c.source) {
      OwnSessionsLoseNothing(c, false);
    } else {
      var i, j :| 0 <= i < j < |c.source| && c.source[i].session != "" && c.source[i].session == c.source[j].session;
      var t := AfterAll(c.source);
      var f := Req(0, c.source[i].session, t);
      hide OwnSessions, Reachable;
      var s := LosesFollowUp(c, false, i, f, f);
      assert FollowUps(s.dispatched) != s.created;
    }
  }

  /** Behind a session manager too, as soon as the source holds, beside a session with several requests, a
      session of its own: closed-loop sessions beside open-loop ones. */
  lemma MixedSourceLosesFollowUp(c: Setup, l: nat)
    requires c.handler && c.maxConcurrency >= 1 && !OwnSessions(c.source)
    requires l < |c.source| && c.source[l].session != ""
    requires forall i :: 0 <= i < |c.source| && i != l ==> c.source[i].session != c.source[l].session
    ensures !LosesNothing(c, true)
  {
    var t := AfterAll(c.source);
    var f := Req(0, c.source[l].session, t);
    hide OwnSessions, Reachable;
    var s := LosesFollowUp(c, true, l, f, f);
    assert FollowUps(s.dispatched) != s.created;
  }

  /** And with nothing but two requests of one session: the first one's follow-up is pushed after the main
      loop's last drain, the second one's completion ends the session, and the loop leaves. */
  lemma SharedSessionLosesFollowUp(c: Setup, a: Req, b: Req, f: Req) returns (s: State)
    requires c.handler && c.maxConcurrency >= 1 && c.source == [a, b] && a.session == b.session == f.session != ""
    ensures Reachable(c, true, s) && s.main.Exited? && s.created == [f] && FollowUps(s.dispatched) == []
    ensures s.followUpCh == [Some(f)]
  {
    hide Reachable, FollowUps;
    s := FirstOfTwo(c, a, b, f);
    s := Moves(c, true, s, Drain);
    s := Moves(c, true, s, Push);
    s := Moves(c, true, s, TakeCompletion);
    s := Moves(c, true, s, Complete([]));
    s := Moves(c, true, s, Decrement);
    s := Moves(c, true, s, Choose);
    NoFollowUps([a, b], 2);
    assert Items([a, b], 2) == [Item(a, true), Item(b, true)];
  }

  /** The first half: `f` is in the serializer's hand, and `b` waits in the completion channel. */
  lemma FirstOfTwo(c: Setup, a: Req, b: Req, f: Req) returns (s: State)
    requires c.handler && c.maxConcurrency >= 1 && c.source == [a, b] && a.session == b.session == f.session != ""
    ensures Reachable(c, true, s)
    ensures s == State([], None, [], [], [b], Draining, [], Pushing([f]), 1, {a.session}, [Item(a, true), Item(b, true)], [f], {})
  {
    StartReachable(c, true);
    hide Reachable;
    assert [a, b][1..] == [b] && [b][1..] == [];
    s := SendsPreGen(c, true, Start(c));
    s := Delivers(c, true, s);
    s := Moves(c, true, s, Complete([f]));
    assert s == State([], Some(b), [], [], [], Draining, [], Pushing([f]), 1, {a.session}, [Item(a, true)], [f], {});
    s := SendsPreGen(c, true, s);
    s := Moves(c, true, s, Deliver(0));
    s := Moves(c, true, s, Release(0));
  }
}
