/** What dealing a street changes: the bets of the old one are cleared and a new order is set up. */
module Streets {
  import opened Collections
  import opened Cards
  import opened Table
  import opened Lifecycle
  import opened Posting

  function NextPhase(p: Phase): Phase
  {
    match p
    case Preflop => Flop
    case Flop => Turn
    case Turn => River
    case _ => Phase.Showdown
  }

  /** g2 is g at the start of its next street: nothing is bet, nobody acts, and everyone sitting in
      with chips — folded or not — is asked to act, from the player after the dealer round. */
  ghost predicate NewStreet(g: Game, g2: Game)
  {
    && g.hand.Some? && g2.hand.Some?
    && g2.config == g.config && g2.status == g.status && g2.handNumber == g.handNumber
    && g2.players == MapPlayers(g.players, NoBet())
    && (var h, h2 := g.hand.value, g2.hand.value;
        && h2.phase == NextPhase(h.phase) && h2.pot == h.pot && h2.rakeTaken == h.rakeTaken && h2.dealer == h.dealer
        && h2.highest == 0 && h2.acting.None? && h2.pending == h2.order
        && h2.order == PostflopOrder(g2.players, h.dealer)
        && Distinct(h2.order) && Elems(h2.order) == ActiveIds(g.players)
        && h2.sidePots == h.sidePots)
  }

  ghost predicate StreetDue(g: Game)
  {
    && g.hand.Some? && g.hand.value.phase != River && g.hand.value.phase != Phase.Showdown
  }

  lemma StreetSeats(before: map<PlayerId, Player>, players: map<PlayerId, Player>, dealer: PlayerId)
    requires players == MapPlayers(before, NoBet())
    ensures Distinct(PostflopOrder(players, dealer)) && Elems(PostflopOrder(players, dealer)) == ActiveIds(before)
  {
    assert ActiveIds(players) == ActiveIds(before);
    RotateKeeps(BySeat(players, ActiveIds(players)), dealer);
  }

  lemma DealtStreet(g: Game, street: Event)
    requires StreetDue(g)
    requires match g.hand.value.phase
             case Preflop => street.FlopDealt?
             case Flop => street.TurnDealt?
             case Turn => street.RiverDealt?
             case _ => false
    ensures NewStreet(g, Effect(EndRound(g), street, None))
  {
    hide PostflopOrder;
    var g2 := Effect(EndRound(g), street, None);
    assert g2.players == MapPlayers(g.players, NoBet());
    StreetSeats(g.players, g2.players, g.hand.value.dealer);
  }

  lemma StreetIsNew(g: Game, luck: Luck)
    requires StreetDue(g) && |luck.cards| >= 3
    ensures NewStreet(g, Play(g, StreetEvents(g, luck)))
    ensures |StreetEvents(g, luck)| == 2 && StreetEvents(g, luck)[0].BettingRoundEnded?
    ensures var e := StreetEvents(g, luck)[1]; e.FlopDealt? || e.TurnDealt? || e.RiverDealt?
  {
    hide Effect, Play, NewStreet, EndRound;
    var street := StreetEvents(g, luck)[1];
    RoundEnds(g);
    PlayTwo(g, BettingRoundEnded, street);
    DealtStreet(g, street);
  }

  lemma RoundEnds(g: Game)
    requires g.hand.Some?
    ensures Effect(g, BettingRoundEnded, None) == EndRound(g)
  {
  }
}
