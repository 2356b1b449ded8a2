/** The lifecycle as the server runs it: commands in, batches of events out, until the table waits. */
module Driver {
  import opened Collections
  import opened Cards
  import opened Table
  import opened Pots
  import opened Rules
  import opened Lifecycle
  import opened Streets
  import opened Batches
  import opened Dealing
  import opened Reducer
  import opened NewHands
  import opened Seating
  import opened Settling
  import opened Rest

  // ── Between hands ─────────────────────────────────────────────────────────

  lemma {:induction false} NobodyBusted(visit: seq<PlayerId>)
    ensures SitOutEvents(visit, {}) == []
  {
    if visit != [] {
      NobodyBusted(visit[..|visit| - 1]);
    }
  }

  lemma SitOutStep(visit: seq<PlayerId>, p: PlayerId, busted: set<PlayerId>)
    ensures SitOutEvents(visit + [p], busted)
         == SitOutEvents(visit, busted) + if p in busted then [PlayerSatOut(p)] else []
    ensures Elems(visit + [p]) == Elems(visit) + {p}
    ensures Distinct(visit) && p !in Elems(visit) ==> Distinct(visit + [p])
  {
    assert (visit + [p])[..|visit|] == visit;
  }

  /** Sits out everyone who is broke, in whatever order the players are visited. */
  method SitOutBusted(g: Game) returns (events: seq<Event>, ghost visit: seq<PlayerId>)
    ensures Distinct(visit) && Elems(visit) == g.players.Keys
    ensures events == SitOutEvents(visit, BustedIds(g.players))
    ensures events == [] <==> BustedIds(g.players) == {}
  {
    hide SitOutEvents, Elems, Distinct;
    events, visit := [], [];
    NothingVisited(g);
    var rest := g.players.Keys;
    while rest != {}
      invariant rest <= g.players.Keys && Distinct(visit) && Elems(visit) == g.players.Keys - rest
      invariant events == SitOutEvents(visit, BustedIds(g.players))
      decreases |rest|
    {
      var p :| p in rest;
      SitOutStep(visit, p, BustedIds(g.players));
      rest := rest - {p};
      visit := visit + [p];
      if g.players[p].stack == 0 && !g.players[p].sittingOut {
        events := events + [PlayerSatOut(p)];
      }
    }
    BustedOrNot(g, visit);
  }

  lemma NothingVisited(g: Game)
    ensures SitOutEvents([], BustedIds(g.players)) == [] && Elems<PlayerId>([]) == {} && Distinct<PlayerId>([])
  {
  }

  lemma BustedOrNot(g: Game, visit: seq<PlayerId>)
    requires Elems(visit) == g.players.Keys
    ensures SitOutEvents(visit, BustedIds(g.players)) == [] <==> BustedIds(g.players) == {}
  {
    SitOutsOnly(visit, BustedIds(g.players));
    NobodyBusted(visit);
    if p :| p in BustedIds(g.players) {
      assert p in Elems(visit);
    }
  }

  /** Clockwise from the last dealer; the lowest seat for the first hand or after the highest. */
  method NewDealerIdx(g: Game, active: seq<PlayerId>) returns (at: nat)
    requires active != []
    ensures at == DealerIndex(g.players, active, g.dealerSeat, g.handNumber, 0) < |active|
    ensures g.handNumber != 0 && (exists p :: p in active && SeatOf(g.players)(p) > g.dealerSeat) ==>
      && SeatOf(g.players)(active[at]) > g.dealerSeat
      && forall k | 0 <= k < at :: SeatOf(g.players)(active[k]) <= g.dealerSeat
    ensures g.handNumber == 0 || (forall p | p in active :: SeatOf(g.players)(p) <= g.dealerSeat) ==> at == 0
  {
    if g.handNumber == 0 {
      return 0;
    }
    for i := 0 to |active|
      invariant forall k | 0 <= k < i :: SeatOf(g.players)(active[k]) <= g.dealerSeat
      invariant DealerIndex(g.players, active, g.dealerSeat, g.handNumber, 0)
             == DealerIndex(g.players, active, g.dealerSeat, g.handNumber, i)
    {
      if SeatOf(g.players)(active[i]) > g.dealerSeat {
        return i;
      }
    }
    at := 0;
  }

  method PostAntes(g: Game, active: seq<PlayerId>) returns (events: seq<Event>)
    requires forall p | p in active :: p in g.players
    ensures events == AnteEvents(g, active)
  {
    events := [];
    if g.config.ante > 0 {
      for i := 0 to |active|
        invariant events == AnteEvents(g, active[..i])
      {
        assert active[..i + 1][..i] == active[..i];
        assert active[i] in active;
        var amount := Min(g.config.ante, g.players[active[i]].stack);
        events := events + [AntePosted(active[i], amount)];
      }
      assert active[..|active|] == active;
    }
  }

  /** Two cards for each player in turn; None when the deck runs out. */
  method DealHoles(active: seq<PlayerId>, dlr: CryptoDealer) returns (events: Option<seq<Event>>)
    requires dlr.Valid() && dlr.Dealt() == 0
    modifies dlr.d
    ensures dlr.Valid() && dlr.d == old(dlr.d) && dlr.Order() == old(dlr.Order())
    ensures events.Some? <==> 2 * |active| <= |dlr.Order()|
    ensures events.Some? ==> dlr.Dealt() == 2 * |active| && events.value == HoleEvents(active, dlr.Order(), |active|)
  {
    var dealt := [];
    for i := 0 to |active|
      invariant dlr.Valid() && dlr.d == old(dlr.d) && dlr.Order() == old(dlr.Order())
      invariant dlr.Dealt() == 2 * i <= |dlr.Order()| && dealt == HoleEvents(active, dlr.Order(), i)
    {
      var c1 := dlr.Deal();
      if c1.None? {
        return None;
      }
      var c2 := dlr.Deal();
      if c2.None? {
        return None;
      }
      dealt := dealt + [HoleCardsDealt(active[i]), HoleCardsRevealed(active[i], HoleCards(c1.value, c2.value))];
    }
    events := Some(dealt);
  }

  lemma {:induction false} HolesByPrefix(active: seq<PlayerId>, a: seq<Card>, b: seq<Card>, k: nat)
    requires k <= |active| && |a| >= 2 * k && |b| >= 2 * k && a[..2 * k] == b[..2 * k]
    ensures HoleEvents(active, a, k) == HoleEvents(active, b, k)
  {
    if k > 0 {
      assert a[..2 * k - 2] == a[..2 * k][..2 * k - 2] && b[..2 * k - 2] == b[..2 * k][..2 * k - 2];
      assert a[2 * k - 2] == a[..2 * k][2 * k - 2] && a[2 * k - 1] == a[..2 * k][2 * k - 1];
      assert b[2 * k - 2] == b[..2 * k][2 * k - 2] && b[2 * k - 1] == b[..2 * k][2 * k - 1];
      HolesByPrefix(active, a, b, k - 1);
    }
  }

  method PostBlinds(g: Game, sb: PlayerId, bb: PlayerId) returns (events: seq<Event>)
    requires sb in g.players && bb in g.players
    ensures events == BlindEvents(g, sb, bb)
  {
    events := [];
    if g.config.bbAnte > 0 {
      events := [AntePosted(bb, Min(g.config.bbAnte, g.players[bb].stack))];
    }
    var sbAmount := Min(g.config.smallBlind, g.players[sb].stack);
    events := events + [BlindPosted(sb, sbAmount, false)];
    var bbAmount := Min(g.config.bigBlind, g.players[bb].stack);
    events := events + [BlindPosted(bb, bbAmount, true)];
  }

  /** Shuffles, seats dealer and blinds, posts, and deals. */
  method StartNewHand(g: Game, active: seq<PlayerId>, dlr: CryptoDealer, handId: nat, draws: seq<nat>)
    returns (events: Option<seq<Event>>)
    requires |active| >= 2 && (forall p | p in active :: p in g.players) && Choices(draws, SIZE)
    modifies dlr
    ensures dlr.Valid() && fresh(dlr.d) && fresh(dlr.d.cards) && |dlr.Order()| == SIZE && Distinct(dlr.Order())
    ensures events.Some? <==> 2 * |active| <= SIZE
    ensures events.Some? ==>
      dlr.Dealt() == 2 * |active| && events.value == NewHandEvents(g, active, Luck(handId, dlr.Order(), [], []))
    ensures events.Some? ==> DealtInTurn(g, active, dlr.Order(), events.value)
  {
    hide AnteEvents, BlindEvents, HoleEvents, DealerIndex, Shuffled, DealtInTurn;
    var n := |active|;
    var d := NewDealerIdx(g, active);
    var sb, bb;
    if n == 2 {
      sb, bb := d, (d + 1) % n;
    } else {
      sb, bb := (d + 1) % n, (d + 2) % n;
    }
    dlr.Shuffle(draws);
    var all := [HandStarted(handId, g.handNumber + 1, active[d], active[sb], active[bb], g.config.bigBlind)];
    var antes := PostAntes(g, active);
    all := all + antes;
    var blinds := PostBlinds(g, active[sb], active[bb]);
    all := all + blinds;
    var holes := DealHoles(active, dlr);
    if holes.None? {
      return None;
    }
    events := Some(all + holes.value);
    NewHandIs(g, active, Luck(handId, dlr.Order(), [], []));
  }

  // ── Streets ───────────────────────────────────────────────────────────────

  /** Burns one card and deals k; None when the deck runs out. */
  method BurnAndDeal(k: nat, dlr: CryptoDealer) returns (cards: Option<seq<Card>>)
    requires dlr.Valid()
    modifies dlr.d
    ensures dlr.Valid() && dlr.d == old(dlr.d) && dlr.Order() == old(dlr.Order())
    ensures cards.Some? <==> old(dlr.Dealt()) + 1 + k <= |dlr.Order()|
    ensures cards.Some? ==>
      dlr.Dealt() == old(dlr.Dealt()) + 1 + k && cards.value == dlr.Order()[old(dlr.Dealt()) + 1..dlr.Dealt()]
  {
    var ok := dlr.Burn();
    if !ok {
      return None;
    }
    ghost var from := dlr.Dealt();
    var dealt := [];
    for i := 0 to k
      invariant dlr.Valid() && dlr.d == old(dlr.d) && dlr.Order() == old(dlr.Order())
      invariant dlr.Dealt() == from + i <= |dlr.Order()| && dealt == dlr.Order()[from..from + i]
    {
      var c := dlr.Deal();
      if c.None? {
        return None;
      }
      dealt := dealt + [c.value];
    }
    cards := Some(dealt);
  }

  /** The next street, or the showdown after the last one. */
  method AdvanceStreet(g: Game, dlr: CryptoDealer) returns (events: Option<seq<Event>>, ghost luck: Luck)
    requires g.hand.Some? && dlr.Valid()
    modifies dlr.d
    ensures dlr.Valid() && dlr.d == old(dlr.d) && dlr.Order() == old(dlr.Order())
    ensures Plausible(luck, g) && |luck.cards| >= 3 && (events.Some? ==> events.value == StreetEvents(g, luck))
    ensures g.hand.value.phase == River || g.hand.value.phase == Phase.Showdown ==>
      events.Some? && dlr.Dealt() == old(dlr.Dealt())
    ensures StreetDue(g) ==>
      var k := StreetCards(g.hand.value.phase);
      && (events.Some? <==> old(dlr.Dealt()) + 1 + k <= |dlr.Order()|)
      && (events.Some? ==> dlr.Dealt() == old(dlr.Dealt()) + 1 + k)
      && (events.Some? ==> luck.cards[..k] == dlr.Order()[old(dlr.Dealt()) + 1..dlr.Dealt()])
  {
    hide ShowdownEvents, RankedStakes;
    var phase := g.hand.value.phase;
    if phase == Phase.Preflop {
      var cards := BurnAndDeal(3, dlr);
      luck := StreetLuck(g, cards, 3);
      events := if cards.None? then None else
        Some([BettingRoundEnded, FlopDealt(FlopCards(cards.value[0], cards.value[1], cards.value[2]))]);
    } else if phase == Flop {
      var cards := BurnAndDeal(1, dlr);
      luck := StreetLuck(g, cards, 1);
      events := if cards.None? then None else Some([BettingRoundEnded, TurnDealt(cards.value[0])]);
    } else if phase == Turn {
      var cards := BurnAndDeal(1, dlr);
      luck := StreetLuck(g, cards, 1);
      events := if cards.None? then None else Some([BettingRoundEnded, RiverDealt(cards.value[0])]);
    } else if phase == River {
      var settled, stakes := EndHandShowdown(g);
      luck := SomeLuck(g, [], 0);
      luck := luck.(stakes := stakes);
      events := Some([BettingRoundEnded] + settled);
    } else {
      luck := SomeLuck(g, [], 0);
      events := Some([]);
    }
  }

  lemma StreetLuck(g: Game, cards: Option<seq<Card>>, k: nat) returns (luck: Luck)
    requires cards.Some? ==> |cards.value| == k
    ensures Plausible(luck, g)
    ensures cards.Some? ==>
      |luck.cards| >= k && luck.cards[..k] == cards.value && forall i | 0 <= i < k :: luck.cards[i] == cards.value[i]
  {
    luck := SomeLuck(g, if cards.Some? then cards.value else [], 0);
    assert cards.Some? ==> forall i | 0 <= i < k :: luck.cards[i] == luck.cards[..k][i];
  }

  /** The last player left takes the pot. */
  method EndHandUncontested(g: Game) returns (events: seq<Event>)
    requires g.hand.Some?
    ensures events == UncontestedEvents(g)
  {
    hide NonFolded;
    var winner := FirstLeft(g);
    if winner.None? {
      return [];
    }
    events := [];
    var pot := g.hand.value.pot;
    var rake := ComputeRake(pot, g.config);
    if rake > 0 {
      events := [RakeTaken(rake)];
    }
    events := events + [PotAwarded(pot - rake, [winner.value]), HandEnded(g.handNumber + 1)];
  }

  // ── One batch ─────────────────────────────────────────────────────────────

  ghost function ShoeOf(dlr: CryptoDealer): Shoe
    reads dlr, dlr.d, dlr.d.cards
  {
    Shoe(dlr.Order(), dlr.Dealt())
  }

  /** batch is what advance returns with this luck, its cards taken from the dealer. */
  ghost predicate Served(g: Game, now: nat, luck: Luck, batch: seq<Event>, a: Shoe, b: Shoe)
  {
    Plausible(luck, g) && batch == BatchOf(g, now, luck) && Feeds(g, now, luck, a, b)
  }

  lemma DealIsServed(g: Game, now: nat, handId: nat, order: seq<Card>, a: Shoe, batch: seq<Event>) returns (luck: Luck)
    requires KindOf(g, now) == Deals && |order| == SIZE && Distinct(order)
    requires var active := BySeat(g.players, ActiveIds(g.players));
      && 2 <= |active| && 2 * |active| <= SIZE && (forall p | p in active :: p in g.players)
      && batch == NewHandEvents(g, active, Luck(handId, order, [], []))
    ensures Served(g, now, luck, batch, a, Shoe(order, 2 * |BySeat(g.players, ActiveIds(g.players))|))
  {
    hide BySeat, Effect, Play, AnteEvents, BlindEvents, HoleEvents, Positions, Rake, StreetEvents, UncontestedEvents;
    var active := BySeat(g.players, ActiveIds(g.players));
    ActiveFits(g.players);
    luck := SomeLuck(g, order, handId);
    assert luck.cards[..2 * |active|] == luck.cards[..|order|][..2 * |active|] == order[..2 * |active|];
    HolesByPrefix(active, luck.cards, order, |active|);
    BatchOfKind(g, now, luck);
  }

  /** advanceIdle: sit out the broke, then start a hand when enough players are left. */
  method AdvanceIdle(g: Game, dlr: CryptoDealer, now: nat, handId: nat, draws: seq<nat>)
    returns (batch: Option<seq<Event>>, ghost luck: Luck)
    requires g.hand.None? && DistinctSeats(g.players) && dlr.Valid() && Choices(draws, SIZE)
    modifies dlr
    ensures dlr.Valid() && (dlr.d == old(dlr.d) || (fresh(dlr.d) && fresh(dlr.d.cards)))
    ensures dlr.d == old(dlr.d) ==> ShoeOf(dlr) == old(ShoeOf(dlr))
    ensures batch.None? <==> OutOfCards(g, now, old(ShoeOf(dlr)))
    ensures batch.Some? ==> Served(g, now, luck, batch.value, old(ShoeOf(dlr)), ShoeOf(dlr))
  {
    hide BySeat, Effect, Play, NewHandEvents, StreetEvents, UncontestedEvents, SitOutEvents, NonFolded, TimedOut;
    luck := SomeLuck(g, [], 0);
    if g.status != Waiting && g.status != Active {
      return Some([]), luck;
    }
    var satOut, visit := SitOutBusted(g);
    if |satOut| > 0 {
      luck := luck.(visit := visit);
      return Some(satOut), luck;
    }
    var active := SeatedActive(g.players);
    ActiveFits(g.players);
    var minP := g.config.minPlayersToStart;
    if minP < 2 {
      minP := 2;
    }
    if |active| < minP {
      return Some([]), luck;
    }
    ghost var a := ShoeOf(dlr);
    batch := StartNewHand(g, active, dlr, handId, draws);
    if batch.Some? {
      luck := DealIsServed(g, now, handId, dlr.Order(), a, batch.value);
    }
  }

  /** advanceHand: time-outs first, then a lone survivor, a finished round, the next turn. */
  method AdvanceHand(g: Game, dlr: CryptoDealer, now: nat) returns (batch: Option<seq<Event>>, ghost luck: Luck)
    requires g.hand.Some? && dlr.Valid()
    modifies dlr.d
    ensures dlr.Valid() && dlr.d == old(dlr.d)
    ensures batch.None? <==> OutOfCards(g, now, old(ShoeOf(dlr)))
    ensures batch.Some? ==> Served(g, now, luck, batch.value, old(ShoeOf(dlr)), ShoeOf(dlr))
  {
    hide BySeat, Effect, Play, ShowdownEvents, UncontestedEvents, NonFolded, Plausible, RankedStakes;
    var h := g.hand.value;
    luck := SomeLuck(g, [], 0);
    NothingLeft(g);
    if h.acting.Some? && h.deadline.Some? && now != 0 && now > h.deadline.value {
      return Some(TimeoutAction(g)), luck;
    }
    var left := NonFoldedCount(g);
    if left <= 1 {
      var ended := EndHandUncontested(g);
      assert NonFolded(g) == [] || |NonFolded(g)| == 1;
      return Some(ended), luck;
    }
    if |h.pending| == 0 && h.acting.None? {
      batch, luck := AdvanceStreet(g, dlr);
      return;
    }
    if h.acting.Some? {
      return Some([]), luck;
    }
    batch := Some(NextAction(g, now));
  }

  lemma NothingLeft(g: Game)
    requires g.hand.Some?
    ensures NonFolded(g) == [] ==> UncontestedEvents(g) == []
  {
  }

  method AdvanceTable(g: Game, dlr: CryptoDealer, now: nat, handId: nat, draws: seq<nat>)
    returns (batch: Option<seq<Event>>, ghost luck: Luck)
    requires DistinctSeats(g.players) && dlr.Valid() && Choices(draws, SIZE)
    modifies dlr, dlr.d
    ensures dlr.Valid() && (dlr.d == old(dlr.d) || (fresh(dlr.d) && fresh(dlr.d.cards)))
    ensures batch.None? <==> OutOfCards(g, now, old(ShoeOf(dlr)))
    ensures batch.Some? ==> Served(g, now, luck, batch.value, old(ShoeOf(dlr)), ShoeOf(dlr))
  {
    hide Served, OutOfCards;
    if g.hand.None? {
      batch, luck := AdvanceIdle(g, dlr, now, handId, draws);
    } else {
      batch, luck := AdvanceHand(g, dlr, now);
    }
  }
}
