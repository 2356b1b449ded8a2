/** The dealer's button over whole runs: it goes clockwise from hand to hand, whoever comes or goes. */
module Button {
  import opened Collections
  import opened Cards
  import opened Table
  import opened Rules
  import opened Lifecycle
  import opened Batches
  import opened Posting
  import opened Streets
  import opened Conservation
  import opened Runs
  import opened NewHands
  import opened Turns

  lemma DealerIsNext(g: Game, active: seq<PlayerId>, d: nat)
    requires ReadyBySeat(g.players, active) && (forall p | p in active :: p in g.players)
    requires IsDealer(g, active, d) && g.handNumber != 0
    ensures Elems(active) <= g.players.Keys && NextFrom(g.players, Elems(active), g.dealerSeat, active[d])
  {
  }

  // ── Events that leave the button where it is ──────────────────────────────

  /** Neither starts nor ends a hand. */
  predicate GoesOn(e: Event)
  {
    !e.HandStarted? && !e.HandEnded?
  }

  /** Same dealer seat, same number, and a hand is on as before. */
  ghost predicate SameHand(g: Game, g2: Game)
  {
    g2.dealerSeat == g.dealerSeat && g2.handNumber == g.handNumber && (g2.hand.Some? <==> g.hand.Some?)
  }

  lemma GoingOnKeeps(g: Game, e: Event)
    requires GoesOn(e)
    ensures SameHand(g, Effect(g, e, None))
  {
    hide Paid, OthersInOrder, Without, AllInHand, PostflopOrder, MapPlayers, Select;
  }

  lemma {:induction false} GoesOnThrough(g: Game, events: seq<Event>)
    requires forall e | e in events :: GoesOn(e)
    ensures SameHand(g, Play(g, events))
  {
    hide Effect, GoesOn;
    if events != [] {
      var n := |events| - 1;
      GoesOnThrough(g, events[..n]);
      assert events[n] in events;
      GoingOnKeeps(Play(g, events[..n]), events[n]);
    }
  }

  /** The hand is over, and counted. */
  lemma EndsCounted(g: Game, events: seq<Event>, n: int)
    requires forall e | e in events :: GoesOn(e)
    ensures var g2 := Play(g, events + [HandEnded(n)]);
      g2.dealerSeat == g.dealerSeat && g2.handNumber == n && g2.hand.None?
  {
    GoesOnThrough(g, events);
    PlayLast(g, events, HandEnded(n));
  }

  // ── Steps ─────────────────────────────────────────────────────────────────

  lemma {:induction false} AntesGoOn(g: Game, active: seq<PlayerId>)
    requires forall p | p in active :: p in g.players
    ensures forall e | e in AnteEvents(g, active) :: GoesOn(e)
  {
    if active != [] {
      AntesGoOn(g, active[..|active| - 1]);
    }
  }

  lemma {:induction false} HolesGoOn(active: seq<PlayerId>, cards: seq<Card>, k: nat)
    requires k <= |active| && |cards| >= 2 * k
    ensures forall e | e in HoleEvents(active, cards, k) :: GoesOn(e)
  {
    if k > 0 {
      HolesGoOn(active, cards, k - 1);
    }
  }

  lemma {:induction false} SidePotsGoOn(pots: seq<Pot>)
    ensures forall e | e in SidePotEvents(pots) :: GoesOn(e)
  {
    if |pots| > 1 {
      SidePotsGoOn(pots[..|pots| - 1]);
    }
  }

  lemma {:induction false} AwardsGoOn(evals: map<PlayerId, nat>, nonFolded: seq<PlayerId>, pots: seq<Pot>, k: nat)
    requires k <= |pots|
    ensures forall e | e in AwardEvents(evals, nonFolded, pots, k) :: GoesOn(e)
  {
    hide Winners;
    if k > 0 {
      AwardsGoOn(evals, nonFolded, pots, k - 1);
    }
  }

  lemma {:induction false} SitOutsGoOn(visit: seq<PlayerId>, busted: set<PlayerId>)
    ensures forall e | e in SitOutEvents(visit, busted) :: GoesOn(e)
  {
    if visit != [] {
      SitOutsGoOn(visit[..|visit| - 1], busted);
    }
  }

  /** A batch that deals no hand leaves the button, and counts the hand when it ends it. */
  ghost predicate Counts(g: Game, g2: Game)
  {
    SameHand(g, g2) || (g2.dealerSeat == g.dealerSeat && g2.hand.None? && g2.handNumber == g.handNumber + 1)
  }

  lemma PaysAndCounts(g: Game)
    requires g.hand.Some?
    ensures Counts(g, Play(g, UncontestedEvents(g)))
  {
    hide Play, Effect, NonFolded, Rake;
    if NonFolded(g) == [] {
      GoesOnThrough(g, []);
    } else {
      var pot, rake := g.hand.value.pot, Rake(g.hand.value.pot, g.config);
      var events := RakeEvents(rake) + [PotAwarded(pot - rake, [NonFolded(g)[0]])];
      assert UncontestedEvents(g) == events + [HandEnded(g.handNumber + 1)];
      EndsCounted(g, events, g.handNumber + 1);
    }
  }

  lemma StreetCounts(g: Game, luck: Luck)
    requires g.hand.Some? && |luck.cards| >= 3
    ensures Counts(g, Play(g, StreetEvents(g, luck)))
  {
    hide Play, Effect, NonFolded, Rake, Evals, HandPots, AwardEvents, SidePotEvents;
    if g.hand.value.phase == River && NonFolded(g) != [] {
      var pots, rake := HandPots(g, luck.stakes), Rake(g.hand.value.pot, g.config);
      var awards := AwardEvents(Evals(g), NonFolded(g), TakeRake(pots, rake), |pots|);
      var opening := [BettingRoundEnded, ShowdownReached(NonFolded(g))];
      var events := opening + SidePotEvents(pots) + RakeEvents(rake) + awards;
      SidePotsGoOn(pots);
      AwardsGoOn(Evals(g), NonFolded(g), TakeRake(pots, rake), |pots|);
      assert StreetEvents(g, luck) == events + [HandEnded(g.handNumber + 1)];
      EndsCounted(g, events, g.handNumber + 1);
    } else {
      GoesOnThrough(g, StreetEvents(g, luck));
    }
  }

  lemma BatchCounts(g: Game, now: nat, luck: Luck)
    requires Plausible(luck, g) && KindOf(g, now) != Deals
    ensures Counts(g, Play(g, Advance(g, now, luck)))
  {
    hide *;
    BatchOfKind(g, now, luck);
    if g.hand.None? {
      DueIsOn(g);
    }
    BatchFacts(g, now, luck);
    KindFacts(g, now);
    match KindOf(g, now) {
      case SitsOut => SitOutsGoOn(luck.visit, BustedIds(g.players)); ThenCounts(g, BatchOf(g, now, luck));
      case PaysLast => PaysAndCounts(g);
      case TurnsStreet => StreetCounts(g, luck);
      case Shows => StreetCounts(g, luck);
      case TimesOut => TimeoutGoesOn(g); ThenCounts(g, BatchOf(g, now, luck));
      case Asks => AskingGoesOn(g, now); ThenCounts(g, BatchOf(g, now, luck));
      case _ => ThenCounts(g, []);
    }
  }

  lemma DueIsOn(g: Game)
    requires g.hand.None?
    ensures !StreetDue(g)
  {
  }

  lemma ThenCounts(g: Game, events: seq<Event>)
    requires forall e | e in events :: GoesOn(e)
    ensures Counts(g, Play(g, events))
  {
    GoesOnThrough(g, events);
  }

  lemma TimeoutGoesOn(g: Game)
    requires g.hand.Some? && g.hand.value.acting.Some?
    ensures forall e | e in TimeoutAction(g) :: GoesOn(e)
  {
  }

  lemma AskingGoesOn(g: Game, now: nat)
    requires g.hand.Some? && g.hand.value.pending != []
    ensures forall e | e in NextAction(g, now) :: GoesOn(e)
  {
  }

  /** A new hand puts the button on its dealer. */
  lemma DealMovesButton(g: Game, now: nat, luck: Luck) returns (active: seq<PlayerId>, d: nat)
    requires Plausible(luck, g) && KindOf(g, now) == Deals
    ensures ReadyBySeat(g.players, active) && (forall p | p in active :: p in g.players) && IsDealer(g, active, d)
    ensures var events := Advance(g, now, luck);
      events != [] && events[0].HandStarted? && events[0].dealer == active[d]
    ensures var g2 := Play(g, Advance(g, now, luck));
      && g2.dealerSeat == g.players[active[d]].seat && g2.hand.Some? && g2.handNumber == g.handNumber
  {
    hide IsDealer, ReadyBySeat, Play, Plausible, KindOf, BySeat, Effect, DealerIndex, AnteEvents, HoleEvents;
    BatchOfKind(g, now, luck);
    active := ServerDealsHand(g, now, luck);
    d :| d < |active| && IsDealer(g, active, d) && DealsHand(g, active, luck.cards, Advance(g, now, luck), d);
    assert IsDealer(g, active, d) && DealsHand(g, active, luck.cards, Advance(g, now, luck), d);
    HandEventsInTwo(g, now, luck);
    var start, posts := HandStart(g, luck), Posts(g, luck);
    assert Advance(g, now, luck)[0] == start;
    PostsGoOn(g, luck);
    PlayConcat(g, [start], posts);
    PlayOne(g, start);
    StartMovesButton(g, start);
    GoesOnThrough(Effect(g, start, None), posts);
  }

  lemma PostsGoOn(g: Game, luck: Luck)
    requires Plausible(luck, g) && |ActiveSeats(g)| >= 2
    ensures forall e | e in Posts(g, luck) :: GoesOn(e)
  {
    hide AnteEvents, HoleEvents, Positions;
    ActiveFits(g.players);
    AntesGoOn(g, ActiveSeats(g));
    HolesGoOn(ActiveSeats(g), luck.cards, |ActiveSeats(g)|);
  }

  lemma StartMovesButton(g: Game, e: Event)
    requires e.HandStarted? && e.dealer in g.players
    ensures var g2 := Effect(g, e, None);
      g2.dealerSeat == g.players[e.dealer].seat && g2.hand.Some? && g2.handNumber == g.handNumber
  {
    hide PreflopOrder;
  }

  // ── Runs ──────────────────────────────────────────────────────────────────

  /** No step of the run deals a hand. */
  ghost predicate NoneDeals(g: Game, moves: seq<Move>)
    requires Happens(g, moves)
    decreases |moves|
  {
    moves == [] || ((moves[0].Serve? ==> KindOf(g, moves[0].now) != Deals) && NoneDeals(After(g, moves[0]), moves[1..]))
  }

  lemma MoveCounts(g: Game, m: Move)
    requires Possible(g, m) && (m.Serve? ==> KindOf(g, m.now) != Deals)
    ensures Counts(g, After(g, m))
  {
    hide KindOf, Plausible, Play, Effect, Advance, Validate;
    match m {
      case Order(cmd, actor) => ThenCounts(g, [CommandEvent(g, cmd, actor)]);
      case Serve(now, luck) => BatchCounts(g, now, luck);
      case Join(p, user, seat, buyIn) => GoingOnKeeps(g, PlayerJoined(p, user, seat, buyIn));
      case Leave(p) =>
        GoingOnKeeps(g, PlayerFolded(p));
        var folded := if g.hand.Some? && !g.players[p].folded then Effect(g, PlayerFolded(p), None) else g;
        GoingOnKeeps(folded, PlayerLeft(p, g.players[p].stack));
    }
  }

  /** Until the next hand the button stays, and a hand that ended was counted. */
  lemma {:induction false} ButtonStays(g: Game, moves: seq<Move>, seat: int)
    requires Happens(g, moves) && NoneDeals(g, moves)
    requires g.dealerSeat == seat && g.handNumber >= 0 && (g.hand.None? ==> g.handNumber > 0)
    ensures var e := End(g, moves);
      e.dealerSeat == seat && e.handNumber >= 0 && (e.hand.None? ==> e.handNumber > 0)
    decreases |moves|
  {
    hide After, KindOf, Possible;
    if moves != [] {
      MoveCounts(g, moves[0]);
      ButtonStays(After(g, moves[0]), moves[1..], seat);
    }
  }

  /** From one hand to the next the button goes to the next player clockwise among those ready by then,
      whatever was played and whoever joined or left in between. */
  lemma ButtonGoesClockwise(g: Game, now: nat, luck: Luck, moves: seq<Move>, now2: nat, luck2: Luck)
    returns (first: PlayerId, active: seq<PlayerId>, second: PlayerId)
    requires g.handNumber >= 0 && Plausible(luck, g) && KindOf(g, now) == Deals
    requires var g1 := Play(g, Advance(g, now, luck)); Happens(g1, moves) && NoneDeals(g1, moves)
    requires var e := End(Play(g, Advance(g, now, luck)), moves); Plausible(luck2, e) && KindOf(e, now2) == Deals
    ensures var e := End(Play(g, Advance(g, now, luck)), moves);
      && first in g.players && ReadyBySeat(e.players, active) && Elems(active) <= e.players.Keys
      && Advance(g, now, luck) != [] && Advance(g, now, luck)[0].HandStarted?
      && Advance(g, now, luck)[0].dealer == first
      && Advance(e, now2, luck2) != [] && Advance(e, now2, luck2)[0].HandStarted?
      && Advance(e, now2, luck2)[0].dealer == second
      && NextFrom(e.players, Elems(active), g.players[first].seat, second)
  {
    hide IsDealer, ReadyBySeat, Play, Plausible, Advance, NextFrom, KindOf;
    var g1, e := Play(g, Advance(g, now, luck)), End(Play(g, Advance(g, now, luck)), moves);
    var a, d := DealMovesButton(g, now, luck);
    DealerInRange(g, a, d);
    first := a[d];
    ButtonStays(g1, moves, g.players[first].seat);
    var d2;
    active, d2 := DealMovesButton(e, now2, luck2);
    DealerInRange(e, active, d2);
    second := active[d2];
    DealsBetweenHands(e, now2);
    DealerIsNext(e, active, d2);
  }

  lemma DealerInRange(g: Game, active: seq<PlayerId>, d: nat)
    requires (forall p | p in active :: p in g.players) && IsDealer(g, active, d)
    ensures d < |active|
  {
  }

  lemma DealsBetweenHands(g: Game, now: nat)
    requires KindOf(g, now) == Deals
    ensures g.hand.None?
  {
  }
}
