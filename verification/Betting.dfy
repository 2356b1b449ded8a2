/** The betting invariants: what every reachable state of a hand satisfies. */
module Betting {
  import opened Collections
  import opened Table
  import opened Pots
  import opened Rules
  import opened Lifecycle
  import opened Posting
  import opened Chips

  // ── The invariant ─────────────────────────────────────────────────────────

  /** The bets of a player fit the hand. */
  ghost predicate BetOk(p: Player, h: Hand)
  {
    0 <= p.currentBet <= h.highest && p.currentBet <= p.committed && 0 <= p.stack && (p.allIn ==> p.stack == 0)
  }

  /** A player of the order who has not folded, has chips and need not act has matched the bet. */
  ghost predicate Matched(players: map<PlayerId, Player>, h: Hand, p: PlayerId)
    requires p in players
  {
    !players[p].folded && players[p].stack > 0 && p !in h.pending ==> players[p].currentBet == h.highest
  }

  ghost predicate HandOk(players: map<PlayerId, Player>, h: Hand)
  {
    && h.phase != Showdown && h.rakeTaken == 0
    && Distinct(h.order) && Elems(h.order) <= players.Keys
    && h.pending == Select(h.order, Elems(h.pending))
    && (h.acting.Some? ==> h.acting.value in h.pending)
    && h.highest >= 0
    && (forall p | p in players :: BetOk(players[p], h))
    && (forall p | p in h.order :: p in players && Matched(players, h, p))
    && h.pot == CommitTotal(players)
  }

  /** The state of a table between two steps of the server. */
  ghost predicate TableOk(g: Game)
  {
    && ConfigOk(g.config)
    && (forall p | p in g.players :: g.players[p].stack >= 0)
    && (g.hand.Some? ==> HandOk(g.players, g.hand.value))
  }

  /** All bets fit the hand. */
  ghost predicate BetsFit(g: Game)
  {
    g.hand.Some? ==> forall p | p in g.players :: BetOk(g.players[p], g.hand.value)
  }

  lemma TableFits(g: Game)
    requires TableOk(g)
    ensures BetsFit(g)
  {
  }

  // ── One player acts ───────────────────────────────────────────────────────

  /** The common shape of every action: pid moves delta chips into the pot and is no longer asked
      to act; the others are asked again only if pid raised the highest bet. */
  ghost predicate Acts(g: Game, g2: Game, pid: PlayerId, delta: int)
  {
    && g.hand.Some? && g2.hand.Some? && pid in g.players && pid in g2.players
    && g2.config == g.config && g2.status == g.status && g2.handNumber == g.handNumber
    && g2.players == g.players[pid := g2.players[pid]]
    && (var a, b, h, h2 := g.players[pid], g2.players[pid], g.hand.value, g2.hand.value;
        && 0 <= delta <= a.stack
        && b.stack == a.stack - delta && b.currentBet == a.currentBet + delta && b.committed == a.committed + delta
        && (b.allIn ==> b.stack == 0) && (a.folded ==> b.folded) && (delta > 0 ==> !b.folded)
        && b.seat == a.seat && b.sittingOut == a.sittingOut && b.hole == a.hole
        && h2.phase == h.phase && h2.rakeTaken == h.rakeTaken && h2.order == h.order && h2.dealer == h.dealer
        && h2.flop == h.flop && h2.turn == h.turn && h2.river == h.river && h2.sidePots == h.sidePots
        && h2.pot == h.pot + delta && h2.acting.None?
        && (if b.currentBet > h.highest
            then h2.highest == b.currentBet && h2.pending == OthersInOrder(g2.players, h.order, pid)
            else h2.highest == h.highest && h2.pending == Without(h.pending, pid))
        && (b.folded || b.stack == 0 || b.currentBet == h2.highest))
  }

  lemma ActsKeepsBets(g: Game, g2: Game, pid: PlayerId, delta: int)
    requires g.hand.Some? && BetsFit(g) && Acts(g, g2, pid, delta)
    ensures g2.hand.Some? && forall p | p in g2.players :: BetOk(g2.players[p], g2.hand.value)
  {
    forall p | p in g2.players ensures BetOk(g2.players[p], g2.hand.value) {
      assert p in g.players && BetOk(g.players[p], g.hand.value);
    }
  }

  lemma ActsKeepsPending(g: Game, g2: Game, pid: PlayerId, delta: int)
    requires g.hand.Some? && g.hand.value.pending == Select(g.hand.value.order, Elems(g.hand.value.pending))
    requires Acts(g, g2, pid, delta)
    ensures g2.hand.Some? && g2.hand.value.pending == Select(g.hand.value.order, Elems(g2.hand.value.pending))
    ensures forall p :: p in g2.hand.value.pending <==>
      p != pid && p in g.hand.value.order &&
      if g2.players[pid].currentBet > g.hand.value.highest then p in BettingIds(g2.players)
          else p in g.hand.value.pending
  {
    var h, h2 := g.hand.value, g2.hand.value;
    var raised := g2.players[pid].currentBet > h.highest;
    var keep := if raised then BettingIds(g2.players) - {pid} else Elems(h.pending) - {pid};
    SelectElems(h.order, Elems(h.pending));
    if !raised {
      SelectTwice(h.order, Elems(h.pending), Elems(h.pending) - {pid});
      assert Elems(h.pending) * (Elems(h.pending) - {pid}) == keep;
    }
    assert h2.pending == Select(h.order, keep);
    SelectElems(h.order, keep);
    SelectSame(h.order, keep, Elems(h2.pending));
  }

  lemma ActsKeepsMatched(g: Game, g2: Game, pid: PlayerId, delta: int, p: PlayerId)
    requires g.hand.Some? && HandOk(g.players, g.hand.value) && Acts(g, g2, pid, delta)
    requires p in g.hand.value.order
    ensures g2.hand.Some? && p in g2.players && Matched(g2.players, g2.hand.value, p)
  {
    ActsKeepsPending(g, g2, pid, delta);
    assert p in g.players && Matched(g.players, g.hand.value, p);
    assert BetOk(g.players[p], g.hand.value);
  }

  /** Every action keeps the betting invariant. */
  lemma ActsKeepsHand(g: Game, g2: Game, pid: PlayerId, delta: int)
    requires g.hand.Some? && HandOk(g.players, g.hand.value) && Acts(g, g2, pid, delta)
    ensures g2.hand.Some? && HandOk(g2.players, g2.hand.value)
    ensures StackTotal(g2.players) == StackTotal(g.players) - delta
  {
    ActsKeepsBets(g, g2, pid, delta);
    ActsKeepsPending(g, g2, pid, delta);
    forall p | p in g.hand.value.order ensures p in g2.players && Matched(g2.players, g2.hand.value, p) {
      ActsKeepsMatched(g, g2, pid, delta, p);
    }
    TotalsAfterUpdate(g.players, pid, g2.players[pid]);
  }

  // ── Commands ──────────────────────────────────────────────────────────────

  predicate IsAction(cmd: Command)
  {
    !cmd.SitOut? && !cmd.SitIn?
  }

  /** The chips a legal action moves into the pot. */
  function Wager(g: Game, cmd: Command, actor: PlayerId): int
    requires g.hand.Some? && actor in g.players
  {
    var p := g.players[actor];
    match cmd
    case CallBet(_) => CallAmount(g.hand.value, p)
    case OpenBet(amount) => amount - p.currentBet
    case RaiseTo(to) => to - p.currentBet
    case GoAllIn => p.stack
    case _ => 0
  }

  /** What the guards of an action leave: the actor's bets fit, and nobody else changes. */
  ghost predicate MayAct(g: Game, actor: PlayerId)
  {
    g.hand.Some? && actor in g.players && BetOk(g.players[actor], g.hand.value)
  }

  lemma FoldActs(g: Game, actor: PlayerId)
    requires MayAct(g, actor)
    ensures Acts(g, Effect(g, PlayerFolded(actor), None), actor, 0)
  {
  }

  lemma CheckActs(g: Game, actor: PlayerId)
    requires MayAct(g, actor) && CallAmount(g.hand.value, g.players[actor]) <= 0
    ensures Acts(g, Effect(g, PlayerChecked(actor), None), actor, 0)
  {
    var g2 := Effect(g, PlayerChecked(actor), None);
    assert g2.players == g.players[actor := g.players[actor]];
  }

  lemma CallActs(g: Game, actor: PlayerId)
    requires MayAct(g, actor) && !g.players[actor].folded && CallAmount(g.hand.value, g.players[actor]) != 0
    ensures CallAmount(g.hand.value, g.players[actor]) > 0
    ensures Acts(g, Effect(g, PlayerCalled(actor, CallAmount(g.hand.value, g.players[actor])), None), actor,
        CallAmount(g.hand.value, g.players[actor]))
  {
  }

  lemma BetActs(g: Game, actor: PlayerId, amount: int)
    requires MayAct(g, actor) && g.hand.value.highest == 0 && 0 < amount <= g.players[actor].stack
    requires !g.players[actor].allIn && !g.players[actor].folded
    ensures Acts(g, Effect(g, PlayerBet(actor, amount), None), actor, amount)
  {
  }

  lemma RaiseActs(g: Game, actor: PlayerId, to: int)
    requires MayAct(g, actor) && g.hand.value.highest < to
    requires to - g.players[actor].currentBet <= g.players[actor].stack && !g.players[actor].allIn
    requires !g.players[actor].folded
    ensures Acts(g, Effect(g, PlayerRaised(actor, to, to - g.hand.value.highest), None), actor,
        to - g.players[actor].currentBet)
  {
  }

  lemma AllInActs(g: Game, actor: PlayerId)
    requires MayAct(g, actor) && g.players[actor].stack > 0 && !g.players[actor].folded
    ensures Acts(g, Effect(g, PlayerAllIn(actor, g.players[actor].currentBet + g.players[actor].stack), None), actor,
        g.players[actor].stack)
  {
  }

  lemma LegalGuards(g: Game, cmd: Command, actor: PlayerId)
    requires BetsFit(g) && IsAction(cmd) && Validate(g, cmd, actor).None?
    ensures g.hand.Some? && actor in g.players && MayAct(g, actor)
    ensures g.players[actor].currentBet <= g.hand.value.highest
    ensures g.hand.value.acting == Some(actor) && !g.players[actor].allIn && !g.players[actor].folded
    ensures cmd.Check? ==> CallAmount(g.hand.value, g.players[actor]) <= 0
    ensures cmd.CallBet? ==> CallAmount(g.hand.value, g.players[actor]) != 0
    ensures cmd.OpenBet? ==>
      g.hand.value.highest == 0 && 0 < cmd.amount <= g.players[actor].stack && g.players[actor].currentBet == 0
    ensures cmd.RaiseTo? ==>
      g.hand.value.highest < cmd.to && cmd.to - g.players[actor].currentBet <= g.players[actor].stack
    ensures cmd.GoAllIn? ==> g.players[actor].stack > 0
  {
    assert RequireTurn(g, actor).None?;
    assert BetOk(g.players[actor], g.hand.value);
  }

  /** The state a legal action leads to. */
  ghost function Acted(g: Game, cmd: Command, actor: PlayerId): Game
    requires g.hand.Some? && actor in g.players && IsAction(cmd)
  {
    var p := g.players[actor];
    match cmd
    case Fold => Effect(g, PlayerFolded(actor), None)
    case Check => Effect(g, PlayerChecked(actor), None)
    case CallBet(_) => Effect(g, PlayerCalled(actor, CallAmount(g.hand.value, p)), None)
    case OpenBet(amount) => Effect(g, PlayerBet(actor, amount), None)
    case RaiseTo(to) => Effect(g, PlayerRaised(actor, to, to - g.hand.value.highest), None)
    case GoAllIn => Effect(g, PlayerAllIn(actor, p.currentBet + p.stack), None)
  }

  /** Every legal action is one player moving chips of their own, and all but folding and checking
      do move some. */
  lemma LegalActionActs(g: Game, cmd: Command, actor: PlayerId)
    requires BetsFit(g) && IsAction(cmd) && Validate(g, cmd, actor).None?
    ensures g.hand.Some? && actor in g.players && g.hand.value.acting == Some(actor)
    ensures Acts(g, Acted(g, cmd, actor), actor, Wager(g, cmd, actor))
    ensures Wager(g, cmd, actor) > 0 <==> !cmd.Fold? && !cmd.Check?
  {
    hide Effect, Acts, Validate, BetsFit, MayAct, BetOk, CallAmount;
    LegalGuards(g, cmd, actor);
    match cmd
    case Fold => FoldActs(g, actor);
    case Check => CheckActs(g, actor);
    case CallBet(_) => CallActs(g, actor);
    case OpenBet(amount) => BetActs(g, actor, amount);
    case RaiseTo(to) => RaiseActs(g, actor, to);
    case GoAllIn => AllInActs(g, actor);
  }

  lemma ActedIsEffect(g: Game, cmd: Command, actor: PlayerId)
    requires g.hand.Some? && actor in g.players && IsAction(cmd) && Validate(g, cmd, actor).None?
    ensures Effect(g, BuildEvent(g, cmd, actor), None) == Acted(g, cmd, actor)
  {
  }

  lemma ActingIsSeated(g: Game)
    requires TableOk(g) && g.hand.Some? && g.hand.value.acting.Some?
    ensures g.hand.value.acting.value in g.hand.value.order
    ensures MayAct(g, g.hand.value.acting.value)
  {
    var h := g.hand.value;
    SelectElems(h.order, Elems(h.pending));
    assert h.acting.value in h.order;
    assert h.acting.value in Elems(h.order);
  }

  /** The default action of a time-out is an action too. */
  lemma TimeoutActs(g: Game)
    requires TableOk(g) && g.hand.Some? && g.hand.value.acting.Some?
    ensures Acts(g, Play(g, TimeoutAction(g)), g.hand.value.acting.value, 0)
  {
    hide Effect, Play, Acts, MayAct, HandOk, CallAmount, TimeoutAction;
    var t, pid := TimeoutAction(g), g.hand.value.acting.value;
    ActingIsSeated(g);
    TimeoutShape(g);
    PlayTwo(g, t[0], t[1]);
    if t[1].PlayerFolded? {
      FoldActs(g, pid);
    } else {
      CheckActs(g, pid);
    }
  }

  lemma TimeoutShape(g: Game)
    requires g.hand.Some? && g.hand.value.acting.Some? && MayAct(g, g.hand.value.acting.value)
    ensures var t, pid := TimeoutAction(g), g.hand.value.acting.value;
      && t == [PlayerTimedOut(pid), t[1]] && Effect(g, t[0], None) == g && pid in g.players
      && (t[1] == PlayerFolded(pid) || (t[1] == PlayerChecked(pid) && CallAmount(g.hand.value, g.players[pid]) <= 0))
  {
  }

  /** Sitting out or in is allowed at any time and changes no bet. */
  lemma SittingKeepsTable(g: Game, g2: Game)
    requires TableOk(g) && g2.hand == g.hand && g2.config == g.config && g2.players.Keys == g.players.Keys
    requires forall p | p in g.players :: g2.players[p].(sittingOut := g.players[p].sittingOut) == g.players[p]
    ensures TableOk(g2) && StackTotal(g2.players) == StackTotal(g.players)
  {
    SameStacksSameTotal(g.players, g2.players);
    if g.hand.Some? {
      var h := g.hand.value;
      forall p | p in g2.players ensures BetOk(g2.players[p], h) {
        assert BetOk(g.players[p], h);
      }
      forall p | p in h.order ensures p in g2.players && Matched(g2.players, h, p) {
        assert p in g.players && Matched(g.players, h, p);
      }
    }
  }

  lemma SatOutOrIn(g: Game, pid: PlayerId, out: bool)
    ensures var g2 := Effect(g, if out then PlayerSatOut(pid) else PlayerSatIn(pid), None);
      g2.hand == g.hand && g2.config == g.config && g2.players.Keys == g.players.Keys &&
      forall p | p in g.players :: g2.players[p].(sittingOut := g.players[p].sittingOut) == g.players[p]
  {
  }

  lemma StackTotalIsChips(g: Game, g2: Game, delta: int)
    requires StackTotal(g2.players) == StackTotal(g.players) - delta
    requires (g.hand.Some? <==> g2.hand.Some?)
    requires g.hand.Some? ==> g2.hand.value.pot == g.hand.value.pot + delta
    requires g.hand.None? ==> delta == 0
    ensures ChipCount(g2) == ChipCount(g)
  {
  }

  lemma ActionKeepsTable(g: Game, g2: Game, pid: PlayerId, delta: int)
    requires TableOk(g) && Acts(g, g2, pid, delta)
    ensures TableOk(g2) && ChipCount(g2) == ChipCount(g)
  {
    ActsKeepsHand(g, g2, pid, delta);
    assert forall p | p in g2.players :: BetOk(g2.players[p], g2.hand.value);
    StackTotalIsChips(g, g2, delta);
  }

  lemma CommandKeepsTable(g: Game, cmd: Command, actor: PlayerId)
    requires TableOk(g)
    ensures TableOk(Play(g, [CommandEvent(g, cmd, actor)]))
    ensures ChipCount(Play(g, [CommandEvent(g, cmd, actor)])) == ChipCount(g)
  {
    hide Effect, Play, Acts, TableOk, HandOk, StackTotal, BetsFit;
    TableFits(g);
    PlayOne(g, CommandEvent(g, cmd, actor));
    if Validate(g, cmd, actor).Some? {
      Refused(g);
    } else if IsAction(cmd) {
      LegalActionActs(g, cmd, actor);
      ActedIsEffect(g, cmd, actor);
      ActionKeepsTable(g, Acted(g, cmd, actor), actor, Wager(g, cmd, actor));
    } else {
      var g2 := Effect(g, if cmd.SitOut? then PlayerSatOut(actor) else PlayerSatIn(actor), None);
      SatOutOrIn(g, actor, cmd.SitOut?);
      SittingKeepsTable(g, g2);
      StackTotalIsChips(g, g2, 0);
    }
  }

  lemma Refused(g: Game)
    ensures Effect(g, CommandRejected, None) == g
  {
  }
}
