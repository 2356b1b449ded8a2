/** What a new hand's events are, one by one: who deals, who posts what, who gets which cards. */
module NewHands {
  import opened Collections
  import opened Cards
  import opened Table
  import opened Rules
  import opened Lifecycle
  import opened Batches

  /** The dealer is the lowest seat in the first hand; later the next seat above the last dealer's, or the
      lowest again when nobody sits above. */
  predicate IsDealer(g: Game, active: seq<PlayerId>, d: nat)
    requires forall p | p in active :: p in g.players
  {
    && d < |active|
    && (forall k | 0 <= k < d :: g.players[active[k]].seat <= g.dealerSeat)
    && (d > 0 ==> g.handNumber != 0 && g.players[active[d]].seat > g.dealerSeat)
    && (d == 0 && g.handNumber != 0 && g.players[active[0]].seat <= g.dealerSeat ==>
          forall p | p in active :: g.players[p].seat <= g.dealerSeat)
  }

  /** Antes posted by each player. */
  function AnteCount(g: Game, n: nat): nat
  {
    if g.config.ante > 0 then n else 0
  }

  function BigAnteCount(g: Game): nat
  {
    if g.config.bbAnte > 0 then 1 else 0
  }

  /** What a player can pay of an amount due. */
  function Payable(g: Game, p: PlayerId, due: int): int
    requires p in g.players
  {
    if g.players[p].stack < due then g.players[p].stack else due
  }

  /** With three or more players the one after the dealer posts the small blind; heads-up the dealer does. */
  function SmallBlind(active: seq<PlayerId>, d: nat): (p: PlayerId)
    requires |active| >= 2 && d < |active|
    ensures p in active
  {
    if |active| == 2 then active[d] else active[if d + 1 < |active| then d + 1 else 0]
  }

  /** With three or more players the second one after the dealer posts the big blind; heads-up the other one. */
  function BigBlind(active: seq<PlayerId>, d: nat): (p: PlayerId)
    requires |active| >= 2 && d < |active|
    ensures p in active
  {
    var n := |active|;
    if n == 2 then active[1 - d] else active[if d + 2 < n then d + 2 else d + 2 - n]
  }

  /** Everybody's ante, in seat order, from position 1. */
  predicate PostsAntes(g: Game, active: seq<PlayerId>, events: seq<Event>)
    requires (forall p | p in active :: p in g.players) && |events| >= 1 + |active|
  {
    g.config.ante > 0 ==> forall i | 0 <= i < |active| ::
      events[1 + i] == AntePosted(active[i], Payable(g, active[i], g.config.ante))
  }

  /** Two cards each, in seat order, from position at. */
  predicate DealsCards(active: seq<PlayerId>, cards: seq<Card>, events: seq<Event>, at: nat)
    requires |events| == at + 2 * |active| && |cards| >= 2 * |active|
  {
    forall i | 0 <= i < |active| ::
      && events[at + 2 * i] == HoleCardsDealt(active[i])
      && events[at + 2 * i + 1] == HoleCardsRevealed(active[i], HoleCards(cards[2 * i], cards[2 * i + 1]))
  }

  /** The events of a new hand among the active players in seat order, the one at d dealing: the start, the
      antes, the big blind's ante, the two blinds, and the cards. */
  predicate DealsHand(g: Game, active: seq<PlayerId>, cards: seq<Card>, events: seq<Event>, d: nat)
    requires |active| >= 2 && (forall p | p in active :: p in g.players) && d < |active| && |cards| >= 2 * |active|
  {
    var sb, bb := SmallBlind(active, d), BigBlind(active, d);
    var a := AnteCount(g, |active|);
    var b := 1 + a + BigAnteCount(g);
    && |events| == b + 2 + 2 * |active|
    && events[0].HandStarted? && events[0].newHandNumber == g.handNumber + 1 && events[0].dealer == active[d]
    && events[0].sb == sb && events[0].bb == bb && events[0].bigBlindAmount == g.config.bigBlind
    && PostsAntes(g, active, events)
    && (g.config.bbAnte > 0 ==> events[1 + a] == AntePosted(bb, Payable(g, bb, g.config.bbAnte)))
    && events[b] == BlindPosted(sb, Payable(g, sb, g.config.smallBlind), false)
    && events[b + 1] == BlindPosted(bb, Payable(g, bb, g.config.bigBlind), true)
    && DealsCards(active, cards, events, b + 2)
  }

  /** The events of a new hand, dealt by whose turn it is to deal. */
  ghost predicate DealtInTurn(g: Game, active: seq<PlayerId>, cards: seq<Card>, events: seq<Event>)
    requires |active| >= 2 && (forall p | p in active :: p in g.players) && |cards| >= 2 * |active|
  {
    exists d: nat :: d < |active| && IsDealer(g, active, d) && DealsHand(g, active, cards, events, d)
  }

  lemma {:induction false} AntesInOrder(g: Game, active: seq<PlayerId>)
    requires forall p | p in active :: p in g.players
    ensures |AnteEvents(g, active)| == AnteCount(g, |active|)
    ensures g.config.ante > 0 ==> forall i | 0 <= i < |active| ::
      active[i] in g.players && AnteEvents(g, active)[i] == AntePosted(active[i], Payable(g, active[i], g.config.ante))
  {
    if active != [] && g.config.ante > 0 {
      AntesInOrder(g, active[..|active| - 1]);
    }
  }

  lemma {:induction false} HolesInOrder(active: seq<PlayerId>, cards: seq<Card>, k: nat)
    requires k <= |active| && |cards| >= 2 * k
    ensures |HoleEvents(active, cards, k)| == 2 * k
    ensures forall i | 0 <= i < k ::
      && HoleEvents(active, cards, k)[2 * i] == HoleCardsDealt(active[i])
      && HoleEvents(active, cards, k)[2 * i + 1]
         == HoleCardsRevealed(active[i], HoleCards(cards[2 * i], cards[2 * i + 1]))
  {
    if k > 0 {
      HolesInOrder(active, cards, k - 1);
    }
  }

  lemma {:induction false} DealerComesNext(players: map<PlayerId, Player>, active: seq<PlayerId>, dealerSeat: int,
                                           handNumber: int, k: nat)
    requires k <= |active| && active != [] && forall p | p in active :: p in players
    ensures var d := DealerIndex(players, active, dealerSeat, handNumber, k);
      && (handNumber == 0 ==> d == 0)
      && (handNumber != 0 && d >= k && (d < |active| && players[active[d]].seat > dealerSeat) ==>
            forall i | k <= i < d :: players[active[i]].seat <= dealerSeat)
      && (handNumber != 0 && !(d >= k && players[active[d]].seat > dealerSeat) ==>
            d == 0 && forall i | k <= i < |active| :: players[active[i]].seat <= dealerSeat)
    decreases |active| - k
  {
    if handNumber != 0 && k < |active| && players[active[k]].seat <= dealerSeat {
      DealerComesNext(players, active, dealerSeat, handNumber, k + 1);
    }
  }

  lemma DealerIs(g: Game, active: seq<PlayerId>)
    requires active != [] && forall p | p in active :: p in g.players
    ensures IsDealer(g, active, DealerIndex(g.players, active, g.dealerSeat, g.handNumber, 0))
  {
    DealerComesNext(g.players, active, g.dealerSeat, g.handNumber, 0);
  }

  /** s is head, then antes, then blinds, then holes. */
  ghost predicate Laid(s: seq<Event>, head: Event, antes: seq<Event>, blinds: seq<Event>, holes: seq<Event>)
  {
    && |s| == 1 + |antes| + |blinds| + |holes|
    && s[0] == head
    && (forall i | 0 <= i < |antes| :: s[1 + i] == antes[i])
    && (forall i | 0 <= i < |blinds| :: s[1 + |antes| + i] == blinds[i])
    && (forall i | 0 <= i < |holes| :: s[1 + |antes| + |blinds| + i] == holes[i])
  }

  lemma Layout(head: Event, antes: seq<Event>, blinds: seq<Event>, holes: seq<Event>)
    ensures Laid([head] + antes + blinds + holes, head, antes, blinds, holes)
  {
  }

  lemma Lengths(g: Game, active: seq<PlayerId>, cards: seq<Card>)
    requires (forall p | p in active :: p in g.players) && |cards| >= 2 * |active|
    ensures |AnteEvents(g, active)| == AnteCount(g, |active|) && |HoleEvents(active, cards, |active|)| == 2 * |active|
  {
    hide AnteEvents, HoleEvents;
    AntesInOrder(g, active);
    HolesInOrder(active, cards, |active|);
  }

  /** Two by two. */
  lemma CardsLaidOut(active: seq<PlayerId>, cards: seq<Card>, head: Event, antes: seq<Event>, blinds: seq<Event>,
                     events: seq<Event>)
    requires |cards| >= 2 * |active| && |HoleEvents(active, cards, |active|)| == 2 * |active|
    requires Laid(events, head, antes, blinds, HoleEvents(active, cards, |active|))
    ensures |events| == 1 + |antes| + |blinds| + 2 * |active|
    ensures DealsCards(active, cards, events, 1 + |antes| + |blinds|)
  {
    hide HoleEvents;
    HolesInOrder(active, cards, |active|);
    var holes, at := HoleEvents(active, cards, |active|), 1 + |antes| + |blinds|;
    forall i | 0 <= i < |active|
      ensures events[at + 2 * i] == holes[2 * i] && events[at + 2 * i + 1] == holes[2 * i + 1]
    {
      assert events[at + (2 * i)] == holes[2 * i];
      assert events[at + (2 * i + 1)] == holes[2 * i + 1];
    }
  }

  lemma PositionsAre(g: Game, active: seq<PlayerId>)
    requires |active| >= 2
    ensures var b := Positions(g.players, active, g.dealerSeat, g.handNumber);
      && b.dealer == DealerIndex(g.players, active, g.dealerSeat, g.handNumber, 0)
      && active[b.sb] == SmallBlind(active, b.dealer) && active[b.bb] == BigBlind(active, b.dealer)
  {
    hide DealerIndex;
    NextSeats(DealerIndex(g.players, active, g.dealerSeat, g.handNumber, 0), |active|);
  }

  lemma AntesLaidOut(g: Game, active: seq<PlayerId>, head: Event, blinds: seq<Event>, holes: seq<Event>,
                     events: seq<Event>)
    requires (forall p | p in active :: p in g.players) && |events| >= 1 + |active|
    requires Laid(events, head, AnteEvents(g, active), blinds, holes)
    ensures PostsAntes(g, active, events)
  {
    hide AnteEvents;
    AntesInOrder(g, active);
  }

  lemma BlindsLaidOut(head: Event, antes: seq<Event>, blinds: seq<Event>, holes: seq<Event>, events: seq<Event>, b: nat)
    requires Laid(events, head, antes, blinds, holes) && b == 1 + |antes|
    ensures |events| == b + |blinds| + |holes| && events[0] == head
    ensures forall i | 0 <= i < |blinds| :: events[b + i] == blinds[i]
  {
  }

  /** Where antes, blinds and cards end up. */
  lemma HandLaidOut(g: Game, active: seq<PlayerId>, cards: seq<Card>, head: Event, blinds: seq<Event>,
                    events: seq<Event>)
    requires (forall p | p in active :: p in g.players) && |cards| >= 2 * |active|
    requires Laid(events, head, AnteEvents(g, active), blinds, HoleEvents(active, cards, |active|))
    ensures var b := 1 + AnteCount(g, |active|);
      && |events| == b + |blinds| + 2 * |active| && events[0] == head
      && PostsAntes(g, active, events)
      && (forall i | 0 <= i < |blinds| :: events[b + i] == blinds[i])
      && DealsCards(active, cards, events, b + |blinds|)
  {
    hide AnteEvents, HoleEvents, PostsAntes, DealsCards, Laid;
    Lengths(g, active, cards);
    var antes, holes := AnteEvents(g, active), HoleEvents(active, cards, |active|);
    BlindsLaidOut(head, antes, blinds, holes, events, 1 + |antes|);
    AntesLaidOut(g, active, head, blinds, holes, events);
    CardsLaidOut(active, cards, head, antes, blinds, events);
  }

  lemma HandIs(g: Game, active: seq<PlayerId>, cards: seq<Card>, d: nat, head: Event, events: seq<Event>)
    requires |active| >= 2 && (forall p | p in active :: p in g.players) && d < |active| && |cards| >= 2 * |active|
    requires head.HandStarted? && head.newHandNumber == g.handNumber + 1 && head.dealer == active[d]
    requires head.sb == SmallBlind(active, d) && head.bb == BigBlind(active, d)
    requires head.bigBlindAmount == g.config.bigBlind
    requires Laid(events, head, AnteEvents(g, active), BlindEvents(g, head.sb, head.bb),
                  HoleEvents(active, cards, |active|))
    ensures DealsHand(g, active, cards, events, d)
  {
    hide AnteEvents, HoleEvents, SmallBlind, BigBlind, DealsCards, PostsAntes, Laid;
    var blinds, b := BlindEvents(g, head.sb, head.bb), 1 + AnteCount(g, |active|);
    HandLaidOut(g, active, cards, head, blinds, events);
    assert events[b + 0] == blinds[0] && events[b + 1] == blinds[1];
    if g.config.bbAnte > 0 {
      assert events[b + 2] == blinds[2];
    }
  }

  lemma NewHandLaid(g: Game, active: seq<PlayerId>, luck: Luck, head: Event)
    requires |active| >= 2 && (forall p | p in active :: p in g.players) && |luck.cards| >= 2 * |active|
    requires var p := Positions(g.players, active, g.dealerSeat, g.handNumber);
      head
      == HandStarted(luck.handId, g.handNumber + 1, active[p.dealer], active[p.sb], active[p.bb], g.config.bigBlind)
    ensures Laid(NewHandEvents(g, active, luck), head, AnteEvents(g, active), BlindEvents(g, head.sb, head.bb),
                 HoleEvents(active, luck.cards, |active|))
  {
    hide AnteEvents, BlindEvents, HoleEvents, Positions, Laid;
    Layout(head, AnteEvents(g, active), BlindEvents(g, head.sb, head.bb), HoleEvents(active, luck.cards, |active|));
  }

  lemma NewHandIs(g: Game, active: seq<PlayerId>, luck: Luck)
    requires |active| >= 2 && (forall p | p in active :: p in g.players) && |luck.cards| >= 2 * |active|
    ensures DealtInTurn(g, active, luck.cards, NewHandEvents(g, active, luck))
  {
    hide DealerIndex, AnteEvents, BlindEvents, HoleEvents, Positions, SmallBlind, BigBlind, DealsHand, Laid, IsDealer;
    hide NewHandEvents;
    DealerIs(g, active);
    PositionsAre(g, active);
    var p := Positions(g.players, active, g.dealerSeat, g.handNumber);
    var sb, bb := active[p.sb], active[p.bb];
    var head := HandStarted(luck.handId, g.handNumber + 1, active[p.dealer], sb, bb, g.config.bigBlind);
    NewHandLaid(g, active, luck, head);
    HandIs(g, active, luck.cards, p.dealer, head, NewHandEvents(g, active, luck));
    assert IsDealer(g, active, p.dealer);
  }

  /** Everyone sitting in with chips, in ascending seats, each once. */
  ghost predicate ReadyBySeat(players: map<PlayerId, Player>, active: seq<PlayerId>)
  {
    && (forall p :: p in active <==> p in players && !players[p].sittingOut && players[p].stack > 0)
    && (forall i, j | 0 <= i < j < |active| :: active[i] != active[j])
    && (forall i, j | 0 <= i < j < |active| ::
          active[i] in players && active[j] in players && players[active[i]].seat <= players[active[j]].seat)
  }

  lemma ActiveBySeat(players: map<PlayerId, Player>)
    ensures ReadyBySeat(players, BySeat(players, ActiveIds(players)))
  {
    var active := BySeat(players, ActiveIds(players));
    assert forall p :: p in active <==> p in Elems(active);
    var keys := Keys(active, SeatOf(players));
    forall i, j | 0 <= i < j < |active|
      ensures active[i] in players && active[j] in players && players[active[i]].seat <= players[active[j]].seat
    {
      assert keys[i] <= keys[j] && active[i] in Elems(active) && active[j] in Elems(active);
    }
  }

  /** So for the hand the server starts among those ready to play. */
  lemma ServerDealsHand(g: Game, now: nat, luck: Luck) returns (active: seq<PlayerId>)
    requires KindOf(g, now) == Deals && Plausible(luck, g)
    ensures ReadyBySeat(g.players, active) && |active| >= 2 && (forall p | p in active :: p in g.players)
    ensures |luck.cards| >= 2 * |active| && DealtInTurn(g, active, luck.cards, Advance(g, now, luck))
  {
    hide BySeat, DealtInTurn, NewHandEvents, ReadyBySeat;
    BatchOfKind(g, now, luck);
    ActiveFits(g.players);
    ActiveBySeat(g.players);
    active := BySeat(g.players, ActiveIds(g.players));
    NewHandIs(g, active, luck);
  }

  /** When the server starts a hand: between hands, at an open table, with nobody broke sitting in, and with
      at least two players ready and as many as the table asks for. */
  lemma HandStartsIff(g: Game, now: nat)
    ensures KindOf(g, now) == Deals <==>
      && g.hand.None? && (g.status == Waiting || g.status == Active)
      && (forall p | p in g.players :: g.players[p].stack == 0 ==> g.players[p].sittingOut)
      && |set p | p in g.players && !g.players[p].sittingOut && g.players[p].stack > 0| >= 2
      && |set p | p in g.players && !g.players[p].sittingOut && g.players[p].stack > 0| >= g.config.minPlayersToStart
  {
    hide NonFolded, TimedOut, BustedIds, ActiveIds;
    NobodyBroke(g.players);
    ReadyPlayers(g.players);
  }

  lemma NobodyBroke(players: map<PlayerId, Player>)
    ensures BustedIds(players) == {} <==> forall p | p in players :: players[p].stack == 0 ==> players[p].sittingOut
  {
    if forall p | p in players :: players[p].stack == 0 ==> players[p].sittingOut {
      assert forall p :: p !in BustedIds(players);
    } else {
      var p :| p in players && players[p].stack == 0 && !players[p].sittingOut;
      assert p in BustedIds(players);
    }
  }

  lemma ReadyPlayers(players: map<PlayerId, Player>)
    ensures ActiveIds(players) == set p | p in players && !players[p].sittingOut && players[p].stack > 0
  {
  }

  /** Before that, the broke are sat out, and nothing else changes. */
  lemma BrokeSitOut(g: Game, now: nat, luck: Luck)
    requires Plausible(luck, g) && KindOf(g, now) == SitsOut
    ensures Play(g, Advance(g, now, luck)) == g.(players := map p | p in g.players ::
      g.players[p].(sittingOut := g.players[p].sittingOut || g.players[p].stack == 0))
  {
    hide Plausible, Effect, Play;
    BatchOfKind(g, now, luck);
    VisitsAll(g, luck);
    AllSatOut(g, luck.visit, BustedIds(g.players));
    assert BustedIds(g.players) * Elems(luck.visit) == BustedIds(g.players);
    assert SatOut(g.players, BustedIds(g.players)) == map p | p in g.players ::
      g.players[p].(sittingOut := g.players[p].sittingOut || g.players[p].stack == 0);
  }

  lemma VisitsAll(g: Game, luck: Luck)
    requires Plausible(luck, g)
    ensures Elems(luck.visit) == g.players.Keys
  {
  }

  // ── What the blinds leave to answer ───────────────────────────────────────

  /** Nothing that was bet has changed. */
  ghost predicate SameBets(g: Game, g2: Game)
  {
    && g.hand.Some? && g2.hand.Some? && g2.players.Keys == g.players.Keys
    && g2.hand.value.highest == g.hand.value.highest && g2.hand.value.lastRaise == g.hand.value.lastRaise
    && g2.hand.value.closedFor == g.hand.value.closedFor
    && g2.hand.value.raisesThisStreet == g.hand.value.raisesThisStreet
    && forall p | p in g.players :: g2.players[p].currentBet == g.players[p].currentBet
  }

  predicate NoBet(e: Event)
  {
    e.AntePosted? || e.HoleCardsDealt? || e.HoleCardsRevealed?
  }

  lemma NoBetKeeps(g: Game, e: Event)
    requires NoBet(e) && g.hand.Some?
    ensures SameBets(g, Effect(g, e, None))
  {
  }

  lemma {:induction false} NoBetsKeep(g: Game, events: seq<Event>)
    requires g.hand.Some? && forall e | e in events :: NoBet(e)
    ensures SameBets(g, Play(g, events))
  {
    hide Effect, NoBet;
    if events != [] {
      var n := |events| - 1;
      NoBetsKeep(g, events[..n]);
      assert events[n] in events;
      NoBetKeeps(Play(g, events[..n]), events[n]);
    }
  }

  lemma {:induction false} AntesAreNoBets(g: Game, active: seq<PlayerId>)
    requires forall p | p in active :: p in g.players
    ensures forall e | e in AnteEvents(g, active) :: NoBet(e)
  {
    if active != [] {
      AntesAreNoBets(g, active[..|active| - 1]);
    }
  }

  lemma {:induction false} HolesAreNoBets(active: seq<PlayerId>, cards: seq<Card>, k: nat)
    requires k <= |active| && |cards| >= 2 * k
    ensures forall e | e in HoleEvents(active, cards, k) :: NoBet(e)
  {
    if k > 0 {
      HolesAreNoBets(active, cards, k - 1);
    }
  }

  /** Nobody has raised, and nobody has lost the right to. */
  predicate FreshRound(h: Hand)
  {
    h.closedFor == [] && h.raisesThisStreet == 0
  }

  /** The blinds are bets of what they posted; the higher is to be matched, and the big one sets the
      least raise. */
  ghost predicate BlindsStand(g: Game, g2: Game, sb: PlayerId, bb: PlayerId)
    requires sb in g.players && bb in g.players
  {
    var x, y := Payable(g, sb, g.config.smallBlind), Payable(g, bb, g.config.bigBlind);
    && g2.hand.Some? && g2.players.Keys == g.players.Keys
    && g2.hand.value.highest == (if x > y then x else y) && g2.hand.value.lastRaise == y && FreshRound(g2.hand.value)
    && forall p | p in g.players ::
      g2.players[p].currentBet == if p == sb then x else if p == bb then y else 0
  }

  /** A hand on which nothing has been bet. */
  ghost predicate NothingBet(g: Game, g2: Game)
  {
    && g2.hand.Some? && g2.players.Keys == g.players.Keys && g2.hand.value.highest == 0 && FreshRound(g2.hand.value)
    && forall p | p in g.players :: g2.players[p].currentBet == 0
  }

  lemma StartBetsNothing(g: Game, e: Event)
    requires e.HandStarted?
    ensures NothingBet(g, Effect(g, e, None))
  {
    hide PreflopOrder;
  }

  /** After the small blind. */
  ghost predicate SmallBlindStands(g: Game, g2: Game, sb: PlayerId, x: int)
  {
    && g2.hand.Some? && g2.players.Keys == g.players.Keys && g2.hand.value.highest == x && FreshRound(g2.hand.value)
    && forall p | p in g.players :: g2.players[p].currentBet == if p == sb then x else 0
  }

  lemma SmallBlindBet(g: Game, g1: Game, sb: PlayerId, x: int)
    requires NothingBet(g, g1) && sb in g.players && x >= 0
    ensures SmallBlindStands(g, Effect(g1, BlindPosted(sb, x, false), None), sb, x)
  {
  }

  lemma BigBlindBet(g: Game, g1: Game, sb: PlayerId, bb: PlayerId)
    requires sb in g.players && bb in g.players && sb != bb
    requires SmallBlindStands(g, g1, sb, Payable(g, sb, g.config.smallBlind))
    ensures BlindsStand(g, Effect(g1, BlindPosted(bb, Payable(g, bb, g.config.bigBlind), true), None), sb, bb)
  {
    hide Payable;
  }

  lemma BlindsArePlayed(g: Game, g1: Game, sb: PlayerId, bb: PlayerId)
    requires NothingBet(g, g1) && sb in g.players && bb in g.players && sb != bb
    requires Payable(g, sb, g.config.smallBlind) >= 0 && Payable(g, bb, g.config.bigBlind) >= 0
    ensures BlindsStand(g, Play(g1, BlindEvents(g, sb, bb)), sb, bb)
  {
    hide Play, Effect, BlindsStand, NothingBet, SameBets, SmallBlindStands;
    var ante := if g.config.bbAnte > 0 then [AntePosted(bb, Payable(g, bb, g.config.bbAnte))] else [];
    var small := BlindPosted(sb, Payable(g, sb, g.config.smallBlind), false);
    var big := BlindPosted(bb, Payable(g, bb, g.config.bigBlind), true);
    HandIsOn(g, g1);
    NoBetsKeep(g1, ante);
    StillNothingBet(g, g1, Play(g1, ante));
    SmallBlindBet(g, Play(g1, ante), sb, small.amount);
    BigBlindBet(g, Effect(Play(g1, ante), small, None), sb, bb);
    PlayTwo(Play(g1, ante), small, big);
    PlayConcat(g1, ante, [small, big]);
    assert BlindEvents(g, sb, bb) == ante + [small, big];
  }

  lemma HandIsOn(g: Game, g1: Game)
    requires NothingBet(g, g1)
    ensures g1.hand.Some?
  {
  }

  lemma StillNothingBet(g: Game, g1: Game, g2: Game)
    requires NothingBet(g, g1) && SameBets(g1, g2)
    ensures NothingBet(g, g2)
  {
  }

  lemma BlindsStillStand(g: Game, g1: Game, g2: Game, sb: PlayerId, bb: PlayerId)
    requires sb in g.players && bb in g.players && BlindsStand(g, g1, sb, bb) && SameBets(g1, g2)
    ensures BlindsStand(g, g2, sb, bb)
  {
  }

  lemma TwoBlinds(active: seq<PlayerId>, d: nat)
    requires |active| >= 2 && d < |active| && Distinct(active)
    ensures SmallBlind(active, d) != BigBlind(active, d)
  {
  }

  /** Once the hand is dealt the two blinds are the only bets, the higher is to be matched, and the first
      raise has to be by at least what the big blind could post. */
  lemma BlindsOpenBetting(g: Game, active: seq<PlayerId>, luck: Luck) returns (d: nat)
    requires |active| >= 2 && Distinct(active) && |luck.cards| >= 2 * |active|
    requires forall p | p in active :: p in g.players
    requires g.config.smallBlind >= 0 && g.config.bigBlind >= 0 && forall p | p in active :: g.players[p].stack >= 0
    ensures IsDealer(g, active, d) && d < |active|
    ensures BlindsStand(g, Play(g, NewHandEvents(g, active, luck)), SmallBlind(active, d), BigBlind(active, d))
  {
    hide Play, Effect, IsDealer, AnteEvents, BlindEvents, HoleEvents, Positions, BlindsStand, SmallBlind, BigBlind;
    hide NothingBet, SameBets, Distinct;
    PositionsAre(g, active);
    DealerIs(g, active);
    var p := Positions(g.players, active, g.dealerSeat, g.handNumber);
    d := p.dealer;
    TwoBlinds(active, d);
    var sb, bb := active[p.sb], active[p.bb];
    var head := HandStarted(luck.handId, g.handNumber + 1, active[d], sb, bb, g.config.bigBlind);
    var antes, blinds, holes := AnteEvents(g, active), BlindEvents(g, sb, bb), HoleEvents(active, luck.cards, |active|);
    var started := Effect(g, head, None);
    PlayOne(g, head);
    StartBetsNothing(g, head);
    HandIsOn(g, started);
    AntesAreNoBets(g, active);
    NoBetsKeep(started, antes);
    StillNothingBet(g, started, Play(started, antes));
    BlindsArePlayed(g, Play(started, antes), sb, bb);
    var posted := Play(Play(started, antes), blinds);
    BetsAreOn(g, posted, sb, bb);
    HolesAreNoBets(active, luck.cards, |active|);
    NoBetsKeep(posted, holes);
    BlindsStillStand(g, posted, Play(posted, holes), sb, bb);
    PlayConcat(g, [head], antes);
    PlayConcat(g, [head] + antes, blinds);
    PlayConcat(g, [head] + antes + blinds, holes);
  }

  lemma BetsAreOn(g: Game, g1: Game, sb: PlayerId, bb: PlayerId)
    requires sb in g.players && bb in g.players && BlindsStand(g, g1, sb, bb)
    ensures g1.hand.Some?
  {
  }
}
