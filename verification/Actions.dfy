/** What a legal action leaves for the others: who is asked again, who may still raise, and by how much. */
module Actions {
  import opened Collections
  import opened Table
  import opened Rules

  /** A player of the order who can still bet, other than the actor. */
  predicate CanAnswer(g: Game, actor: PlayerId, q: PlayerId)
    requires g.hand.Some?
  {
    q in g.hand.value.order && q != actor && q in g.players && !g.players[q].folded && !g.players[q].allIn
  }

  lemma AnswerersAre(players: map<PlayerId, Player>, order: seq<PlayerId>, actor: PlayerId)
    ensures forall q :: q in OthersInOrder(players, order, actor) <==>
      q in order && q != actor && q in players && !players[q].folded && !players[q].allIn
  {
    SelectElems(order, BettingIds(players) - {actor});
  }

  /** What a fold, check, call or small all-in leaves as it is: the bet to match, the last raise, and who may raise. */
  ghost predicate OnlyAnswers(h: Hand, h2: Hand, actor: PlayerId)
  {
    && h2.highest == h.highest && h2.lastRaise == h.lastRaise && h2.closedFor == h.closedFor
    && h2.raisesThisStreet == h.raisesThisStreet && h2.order == h.order
    && h2.acting.None? && forall q :: q in h2.pending <==> q in h.pending && q != actor
  }

  /** What a bet or raise to an amount leaves: the others must answer it, and it sets the next minimum. */
  ghost predicate Reopens(g: Game, h2: Hand, actor: PlayerId, to: int)
    requires g.hand.Some?
  {
    var h := g.hand.value;
    && h2.highest == to && h2.lastRaise == to - h.highest
    && h2.raisesThisStreet == h.raisesThisStreet + 1 && h2.order == h.order
    && h2.acting.None? && forall q :: q in h2.pending <==> CanAnswer(g, actor, q)
  }

  /** The actor puts in so many chips, and nobody else is touched. */
  ghost predicate Puts(g: Game, g2: Game, actor: PlayerId, chips: int)
  {
    && g.hand.Some? && g2.hand.Some? && actor in g.players && g2.players.Keys == g.players.Keys
    && g2.players[actor].stack == g.players[actor].stack - chips
    && g2.players[actor].currentBet == g.players[actor].currentBet + chips
    && g2.players[actor].committed == g.players[actor].committed + chips
    && g2.hand.value.pot == g.hand.value.pot + chips
    && forall q | q in g.players && q != actor :: g2.players[q] == g.players[q]
  }

  /** Folding and checking cost nothing, calling what is missing; nothing else about the betting changes, and
      the actor is not asked again. */
  lemma AnsweringKeepsBet(g: Game, cmd: Command, actor: PlayerId)
    requires (cmd.Fold? || cmd.Check? || cmd.CallBet?) && Validate(g, cmd, actor).None?
    ensures var g2 := Effect(g, BuildEvent(g, cmd, actor), None);
      && OnTurn(g, actor) && Puts(g, g2, actor, if cmd.CallBet? then ToCall(g, actor) else 0)
      && OnlyAnswers(g.hand.value, g2.hand.value, actor) && (g2.players[actor].folded <==> cmd.Fold?)
  {
    hide Without;
    WithoutElems(g.hand.value.pending, actor);
  }

  lemma BetLeaves(g: Game, actor: PlayerId, to: int)
    requires g.hand.Some? && actor in g.players
    ensures var g2 := Effect(g, PlayerBet(actor, to), None);
      && Puts(g, g2, actor, to - g.players[actor].currentBet)
      && Reopens(g, g2.hand.value, actor, to) && g2.hand.value.closedFor == []
  {
    hide OthersInOrder;
    AnswerersAre(Effect(g, PlayerBet(actor, to), None).players, g.hand.value.order, actor);
  }

  lemma RaiseLeaves(g: Game, actor: PlayerId, to: int)
    requires g.hand.Some? && actor in g.players
    ensures var g2 := Effect(g, PlayerRaised(actor, to, to - g.hand.value.highest), None);
      && Puts(g, g2, actor, to - g.players[actor].currentBet)
      && Reopens(g, g2.hand.value, actor, to) && g2.hand.value.closedFor == []
  {
    hide OthersInOrder;
    var e := PlayerRaised(actor, to, to - g.hand.value.highest);
    AnswerersAre(Effect(g, e, None).players, g.hand.value.order, actor);
  }

  /** After a bet or raise the actor has bet that much in all, everyone else who can still bet is asked, and
      everyone may raise. */
  lemma RaisingReopens(g: Game, cmd: Command, actor: PlayerId)
    requires (cmd.OpenBet? || cmd.RaiseTo?) && Validate(g, cmd, actor).None?
    ensures var g2, to := Effect(g, BuildEvent(g, cmd, actor), None), if cmd.OpenBet? then cmd.amount else cmd.to;
      && g.hand.Some? && actor in g.players && Puts(g, g2, actor, to - g.players[actor].currentBet)
      && Reopens(g, g2.hand.value, actor, to) && g2.hand.value.closedFor == []
  {
    hide Effect, Puts, Reopens;
    if cmd.OpenBet? {
      BetLeaves(g, actor, cmd.amount);
    } else {
      RaiseLeaves(g, actor, cmd.to);
    }
  }

  /** What an all-in to total makes of the hand, given the players it leaves. */
  lemma AllInAsks(players: map<PlayerId, Player>, h: Hand, actor: PlayerId, total: int)
    ensures var h2 := AllInHand(players, h, actor, total);
      && h2.order == h.order && h2.acting.None? && h2.pot == h.pot
      && (total <= h.highest ==> OnlyAnswers(h, h2, actor))
      && (total > h.highest ==>
            && h2.highest == total && h2.lastRaise == total - h.highest && h2.raisesThisStreet == h.raisesThisStreet + 1
            && forall q ::
              var answers := q in h.order && q != actor && q in players && !players[q].folded && !players[q].allIn;
              && (q in h2.pending <==> answers)
              && (q in h2.closedFor <==> total - h.highest < h.lastRaise && answers && q !in h.pending))
  {
    hide OthersInOrder, Without;
    AnswerersAre(players, h.order, actor);
    WithoutElems(h.pending, actor);
    var others := OthersInOrder(players, h.order, actor);
    SelectElems(others, Elems(others) - Elems(h.pending));
    assert forall q :: q in others <==> q in Elems(others);
    assert forall q :: q in h.pending <==> q in Elems(h.pending);
  }

  /** Going all-in for no more than the highest bet answers it. For more, it reopens the betting; and when it
      raises by less than the last raise, exactly those others lose the right to raise who had nothing
      left to answer. */
  lemma AllInReopensIff(g: Game, actor: PlayerId)
    requires Validate(g, GoAllIn, actor).None?
    ensures var g2 := Effect(g, BuildEvent(g, GoAllIn, actor), None);
      && g.hand.Some? && g2.hand.Some? && actor in g.players && g2 == g.(players := g2.players, hand := g2.hand)
      && Puts(g, g2, actor, g.players[actor].stack) && g2.players[actor].allIn
      && var h, h2, total := g.hand.value, g2.hand.value, g.players[actor].currentBet + g.players[actor].stack;
      && (total <= h.highest ==> OnlyAnswers(h, h2, actor))
      && (total > h.highest ==>
            && Reopens(g, h2, actor, total)
            && (forall q :: q in h2.closedFor <==>
                  total - h.highest < h.lastRaise && CanAnswer(g, actor, q) && q !in h.pending))
  {
    hide Effect, AllInHand, OnlyAnswers;
    AllInTouches(g, actor);
    var total := g.players[actor].currentBet + g.players[actor].stack;
    var g2 := Effect(g, PlayerAllIn(actor, total), None);
    var paid := g.hand.value.(pot := g.hand.value.pot + g.players[actor].stack);
    AllInAsks(g2.players, paid, actor, total);
    AnswersAlike(g.hand.value, paid, g2.hand.value, actor);
  }

  lemma AllInTouches(g: Game, actor: PlayerId)
    requires g.hand.Some? && actor in g.players
    ensures var total := g.players[actor].currentBet + g.players[actor].stack;
      var g2 := Effect(g, PlayerAllIn(actor, total), None);
      && g2.hand.Some? && g2 == g.(players := g2.players, hand := g2.hand)
      && Puts(g, g2, actor, g.players[actor].stack) && g2.players[actor].allIn
      && g2.hand.value
         == AllInHand(g2.players, g.hand.value.(pot := g.hand.value.pot + g.players[actor].stack), actor, total)
  {
    hide AllInHand, OnlyAnswers;
    var total := g.players[actor].currentBet + g.players[actor].stack;
    var paid := g.hand.value.(pot := g.hand.value.pot + g.players[actor].stack);
    AllInAsks(Effect(g, PlayerAllIn(actor, total), None).players, paid, actor, total);
  }

  lemma AnswersAlike(h: Hand, paid: Hand, h2: Hand, actor: PlayerId)
    requires paid == h.(pot := paid.pot)
    ensures OnlyAnswers(paid, h2, actor) <==> OnlyAnswers(h, h2, actor)
  {
  }

  /** So whoever is asked right after an all-in over the highest bet may raise it exactly when it was no short
      raise or they still had the earlier bet to answer; and by at least the big blind and what the
      all-in added, even when that was short. */
  lemma RaiseAfterAllInIff(g: Game, actor: PlayerId, q: PlayerId, deadline: Option<Time>, to: int)
    requires Validate(g, GoAllIn, actor).None? && CanAnswer(g, actor, q) && !g.players[q].sittingOut
    requires g.players[actor].currentBet + g.players[actor].stack > g.hand.value.highest >= 0
    requires !g.config.fixedLimit
    ensures var h, total := g.hand.value, g.players[actor].currentBet + g.players[actor].stack;
      var asked := Effect(Effect(g, PlayerAllIn(actor, total), None), ActionStarted(q, deadline), None);
      Validate(asked, RaiseTo(to), q).None? <==>
      && (total - h.highest >= h.lastRaise || q in h.pending)
      && total < to <= g.players[q].currentBet + g.players[q].stack
      && (to == g.players[q].currentBet + g.players[q].stack
          || (to - total >= g.config.bigBlind && to - total >= total - h.highest))
  {
    hide AllIn, AllInHand;
    AllInReopensIff(g, actor);
    var g2 := Effect(g, BuildEvent(g, GoAllIn, actor), None);
    RaiseLegalIff(Effect(g2, ActionStarted(q, deadline), None), to, q);
  }
}
