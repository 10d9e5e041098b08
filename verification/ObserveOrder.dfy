/** How the observe loop merges pre-generated requests and follow-ups: by arrival, over whole runs
    (cmd/observe_cmd.go:1018-1020, 1175-1214). */
module ObserveOrder {
  import opened Requests
  import opened Sequences
  import opened ObserveProtocol

  /** What the main loop has chosen so far, in order; the last one may not be dispatched yet. */
  function Chosen(s: State): seq<Item> {
    s.dispatched + Held(s.main)
  }

  /** With both a follow-up and a pre-generated request at hand, the earlier one is taken, and the follow-up
      if they arrive together. */
  lemma EarlierIsChosen(c: Setup, s: State)
    requires Enabled(c, s, Choose) && s.pending != [] && s.nextPreGen.Some?
    ensures var f, x := s.pending[0], s.nextPreGen.value;
            var m := Do(c, s, Choose).main;
            m.Holding? && (if x.arrival < f.arrival then m.item == Item(x, true) else m.item == Item(f, false))
  {
  }

  /** The two streams keep their order, and the main loop looks ahead by one request. */
  predicate Lined(c: Setup, s: State) {
    InOrder(c, s) && (s.source != [] ==> s.nextPreGen.Some?) && WaitsEmpty(s)
  }

  lemma LinedStep(c: Setup, s: State, a: Action)
    requires Lined(c, s) && Enabled(c, s, a)
    ensures Lined(c, Do(c, s, a))
  {
    SourceStep(c, s, a);
    FollowUpsStep(c, s, a);
    hide InOrder, TakesFollowUp;
  }

  lemma {:induction false} RunLined(c: Setup, actions: seq<Action>)
    requires Run(c, actions).Some?
    ensures Lined(c, Run(c, actions).value)
  {
    hide Lined, Do, Enabled;
    if actions == [] {
      StartLined(c);
    } else {
      RunLined(c, actions[..|actions| - 1]);
      LinedStep(c, Run(c, actions[..|actions| - 1]).value, actions[|actions| - 1]);
    }
  }

  lemma StartLined(c: Setup)
    ensures Lined(c, Start(c))
  {
    assert Lookahead(Start(c)) + Start(c).source == c.source;
  }

  // ----- One step -----

  /** How many of each stream have been chosen. */
  function PreGens(s: State): nat { |FromSource(Chosen(s))| }

  function Follows(s: State): nat { |FollowUps(Chosen(s))| }

  /** The next of each stream. */
  lemma NextOfEach(c: Setup, s: State)
    requires Lined(c, s)
    ensures s.nextPreGen.Some? <==> PreGens(s) < |c.source|
    ensures s.nextPreGen.Some? ==> s.nextPreGen.value == c.source[PreGens(s)]
    ensures PreGens(s) <= |c.source| && Follows(s) + |s.pending| <= |s.created|
    ensures forall k :: 0 <= k < |s.pending| ==> s.pending[k] == s.created[Follows(s) + k]
  {
    FromSourceConcat(s.dispatched, Held(s.main));
    FollowUpsConcat(s.dispatched, Held(s.main));
    hide FromSource, FollowUps, Carried, ToPush;
    var done := FromSource(s.dispatched) + FromSource(Held(s.main));
    assert c.source == done + (Lookahead(s) + s.source);
    var chosen := FollowUps(s.dispatched) + FollowUps(Held(s.main));
    assert s.created == chosen + s.pending + (Carried(s.followUpCh) + ToPush(s.serializer));
  }

  /** A follow-up received while the main loop waits is the next one. */
  lemma ReceivedIsNext(c: Setup, s: State)
    requires Lined(c, s) && s.main.Waiting? && s.followUpCh != [] && s.followUpCh[0].Some?
    ensures Follows(s) < |s.created| && s.created[Follows(s)] == s.followUpCh[0].value
  {
    FollowUpsConcat(s.dispatched, Held(s.main));
    FirstCarried(s.followUpCh);
    hide FollowUps, Carried, ToPush;
    var chosen := FollowUps(s.dispatched) + FollowUps(Held(s.main));
    var r := s.followUpCh[0].value;
    assert s.created == chosen + ([r] + (Carried(s.followUpCh[1..]) + ToPush(s.serializer)));
  }

  /** Choosing `item` counts it in its stream. */
  lemma ChosenGrows(s: State, item: Item)
    requires Held(s.main) == []
    ensures s.dispatched + [item] == Chosen(s) + [item]
    ensures |FromSource(Chosen(s) + [item])| == PreGens(s) + (if item.preGen then 1 else 0)
    ensures |FollowUps(Chosen(s) + [item])| == Follows(s) + (if item.preGen then 0 else 1)
  {
    FromSourceConcat(Chosen(s), [item]);
    FollowUpsConcat(Chosen(s), [item]);
    HeldOne(item.req, item.preGen);
  }

  datatype Pick = Nothing | PreGen | FollowUp

  /** What one step adds to the chosen: the next of one stream, if it is earlier than the next of the other,
      or arrives with it and is a follow-up. */
  predicate Picks(c: Setup, s: State, z: State, pick: Pick)
    requires PreGens(s) <= |c.source| && Follows(s) + |s.pending| <= |s.created|
  {
    match pick
    case Nothing => Chosen(z) == Chosen(s)
    case PreGen =>
      && PreGens(s) < |c.source| && Chosen(z) == Chosen(s) + [Item(c.source[PreGens(s)], true)]
      && PreGens(z) == PreGens(s) + 1 && Follows(z) == Follows(s)
      && (s.pending != [] ==> c.source[PreGens(s)].arrival < s.created[Follows(s)].arrival)
    case FollowUp =>
      && Follows(s) < |s.created| && Chosen(z) == Chosen(s) + [Item(s.created[Follows(s)], false)]
      && Follows(z) == Follows(s) + 1 && PreGens(z) == PreGens(s)
      && (PreGens(s) < |c.source| ==> s.created[Follows(s)].arrival <= c.source[PreGens(s)].arrival)
  }

  lemma ChoosesByArrival(c: Setup, s: State, a: Action) returns (pick: Pick)
    requires Lined(c, s) && Enabled(c, s, a)
    ensures PreGens(s) <= |c.source| && Follows(s) + |s.pending| <= |s.created|
    ensures s.created <= Do(c, s, a).created && Picks(c, s, Do(c, s, a), pick)
    ensures Follows(s) + |s.pending| <= Follows(Do(c, s, a)) + |Do(c, s, a).pending|
  {
    NextOfEach(c, s);
    var z := Do(c, s, a);
    pick := Nothing;
    match a
    case Choose =>
      if s.pending != [] && s.nextPreGen.Some? { EarlierIsChosen(c, s); }
      if z.main.Holding? {
        ChosenGrows(s, z.main.item);
        pick := if z.main.item.preGen then PreGen else FollowUp;
      }
    case Receive =>
      if s.followUpCh[0].Some? {
        ReceivedIsNext(c, s);
        ChosenGrows(s, z.main.item);
        pick := FollowUp;
      }
    case _ =>
  }

  // ----- Whole runs -----

  /** Wherever pre-generated request number `x` stands in `items`, follow-up number `f` stands before it. */
  predicate FollowUpBefore(items: seq<Item>, f: nat, x: nat) {
    forall i :: 0 <= i <= |items| && |FromSource(items[..i])| > x ==> |FollowUps(items[..i])| > f
  }

  /** And the other way round. */
  predicate PreGenBefore(items: seq<Item>, x: nat, f: nat) {
    forall i :: 0 <= i <= |items| && |FollowUps(items[..i])| > f ==> |FromSource(items[..i])| > x
  }

  lemma FollowUpStaysBefore(items: seq<Item>, item: Item, f: nat, x: nat)
    requires FollowUpBefore(items, f, x)
    requires |FromSource(items + [item])| > x ==> |FollowUps(items + [item])| > f
    ensures FollowUpBefore(items + [item], f, x)
  {
    hide FromSource, FollowUps;
    var longer := items + [item];
    forall i | 0 <= i <= |longer| && |FromSource(longer[..i])| > x ensures |FollowUps(longer[..i])| > f {
      if i <= |items| { assert longer[..i] == items[..i]; } else { assert longer[..i] == longer; }
    }
  }

  lemma PreGenStaysBefore(items: seq<Item>, item: Item, x: nat, f: nat)
    requires PreGenBefore(items, x, f)
    requires |FollowUps(items + [item])| > f ==> |FromSource(items + [item])| > x
    ensures PreGenBefore(items + [item], x, f)
  {
    hide FromSource, FollowUps;
    var longer := items + [item];
    forall i | 0 <= i <= |longer| && |FollowUps(longer[..i])| > f ensures |FromSource(longer[..i])| > x {
      if i <= |items| { assert longer[..i] == items[..i]; } else { assert longer[..i] == longer; }
    }
  }

  lemma {:induction false} CountsGrow(items: seq<Item>, i: nat)
    requires i <= |items|
    ensures |FromSource(items[..i])| <= |FromSource(items)| && |FollowUps(items[..i])| <= |FollowUps(items)|
  {
    assert items == items[..i] + items[i..];
    FromSourceConcat(items[..i], items[i..]);
    FollowUpsConcat(items[..i], items[i..]);
  }

  /** What is dispatched is chosen first. */
  lemma DispatchedIsChosen(s: State, f: nat, x: nat)
    ensures FollowUpBefore(Chosen(s), f, x) ==> FollowUpBefore(s.dispatched, f, x)
    ensures PreGenBefore(Chosen(s), x, f) ==> PreGenBefore(s.dispatched, x, f)
  {
    hide FromSource, FollowUps;
    assert forall i :: 0 <= i <= |s.dispatched| ==> Chosen(s)[..i] == s.dispatched[..i];
  }

  /** A later state of the run has the earlier one's follow-ups, and one step more. */
  lemma LastStep(c: Setup, earlier: seq<Action>, later: seq<Action>) returns (s: State, a: Action)
    requires earlier <= later && earlier != later && Run(c, later).Some?
    ensures var front := later[..|later| - 1];
            && earlier <= front && |front| < |later| && Run(c, front) == Some(s) && a == later[|later| - 1]
            && Enabled(c, s, a) && Run(c, later) == Some(Do(c, s, a)) && Lined(c, s)
  {
    hide Do, Enabled, Lined;
    s, a := Run(c, later[..|later| - 1]).value, later[|later| - 1];
    RunLined(c, later[..|later| - 1]);
  }

  lemma {:induction false} OnlyMore(c: Setup, earlier: seq<Action>, later: seq<Action>)
    requires earlier <= later && Run(c, earlier).Some? && Run(c, later).Some?
    ensures var t, s := Run(c, earlier).value, Run(c, later).value;
            && t.created <= s.created && PreGens(t) <= PreGens(s) && Follows(t) <= Follows(s)
            && Follows(t) + |t.pending| <= Follows(s) + |s.pending|
    decreases |later|
  {
    hide Do, Enabled, Lined, Chosen;
    if earlier != later {
      var s, a := LastStep(c, earlier, later);
      OnlyMore(c, earlier, later[..|later| - 1]);
      var _ := ChoosesByArrival(c, s, a);
    }
  }

  /** A follow-up that is waiting, as number `f`, is dispatched before pre-generated request number `x`, if
      neither it nor any follow-up ahead of it arrives later than that request. */
  lemma {:induction false} DueFollowUpGoesFirst(c: Setup, earlier: seq<Action>, later: seq<Action>, f: nat, x: nat)
    requires earlier <= later && Run(c, earlier).Some? && Run(c, later).Some?
    requires var t := Run(c, earlier).value;
             && Follows(t) <= f < Follows(t) + |t.pending| && PreGens(t) <= x < |c.source|
             && forall k :: 0 <= k <= f - Follows(t) ==> t.pending[k].arrival <= c.source[x].arrival
    ensures var s := Run(c, later).value;
            FollowUpBefore(Chosen(s), f, x) && FollowUpBefore(s.dispatched, f, x)
    decreases |later|
  {
    hide Do, Enabled, Lined, FromSource, FollowUps;
    var t := Run(c, earlier).value;
    if earlier == later {
      forall i | 0 <= i <= |Chosen(t)| ensures |FromSource(Chosen(t)[..i])| <= x {
        CountsGrow(Chosen(t), i);
      }
    } else {
      var s, a := LastStep(c, earlier, later);
      DueFollowUpGoesFirst(c, earlier, later[..|later| - 1], f, x);
      OnlyMore(c, earlier, later[..|later| - 1]);
      RunLined(c, earlier);
      NextOfEach(c, t);
      var pick := ChoosesByArrival(c, s, a);
      assert Chosen(s)[..|Chosen(s)|] == Chosen(s);
      if pick != Nothing {
        var item := if pick == PreGen then Item(c.source[PreGens(s)], true) else Item(s.created[Follows(s)], false);
        assert Follows(s) <= f ==> s.created[Follows(s)] == t.pending[Follows(s) - Follows(t)];
        FollowUpStaysBefore(Chosen(s), item, f, x);
      }
    }
    DispatchedIsChosen(Run(c, later).value, f, x);
  }

  /** Pre-generated request number `x` is dispatched before follow-up number `f`, whenever that one is
      created, if it and every pre-generated request ahead of it arrive earlier. */
  lemma {:induction false} EarlierPreGenGoesFirst(c: Setup, earlier: seq<Action>, later: seq<Action>, x: nat, f: nat, arrival: int)
    requires earlier <= later && Run(c, earlier).Some? && Run(c, later).Some?
    requires var t, s := Run(c, earlier).value, Run(c, later).value;
             && PreGens(t) <= x < |c.source| && Follows(t) <= f
             && (f < |s.created| ==> s.created[f].arrival == arrival)
             && forall k :: PreGens(t) <= k <= x ==> c.source[k].arrival < arrival
    ensures var s := Run(c, later).value;
            PreGenBefore(Chosen(s), x, f) && PreGenBefore(s.dispatched, x, f)
    decreases |later|
  {
    hide Do, Enabled, Lined, FromSource, FollowUps;
    var t := Run(c, earlier).value;
    if earlier == later {
      forall i | 0 <= i <= |Chosen(t)| ensures |FollowUps(Chosen(t)[..i])| <= f {
        CountsGrow(Chosen(t), i);
      }
    } else {
      var s, a := LastStep(c, earlier, later);
      var pick := ChoosesByArrival(c, s, a);
      EarlierPreGenGoesFirst(c, earlier, later[..|later| - 1], x, f, arrival);
      OnlyMore(c, earlier, later[..|later| - 1]);
      assert Chosen(s)[..|Chosen(s)|] == Chosen(s);
      if pick != Nothing {
        var item := if pick == PreGen then Item(c.source[PreGens(s)], true) else Item(s.created[Follows(s)], false);
        PreGenStaysBefore(Chosen(s), item, x, f);
      }
    }
    DispatchedIsChosen(Run(c, later).value, f, x);
  }
}
