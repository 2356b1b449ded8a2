/** Runs of a table: players' commands, server batches, and players coming and going. */
module Runs {
  import opened Collections
  import opened Table
  import opened Pots
  import opened Rules
  import opened Lifecycle
  import opened Posting
  import opened Streets
  import opened Chips
  import opened Betting
  import opened Batches
  import opened Conservation

  /** One step: a command, legal or not; one batch of server events; a player joining; a player
      leaving. A server batch may follow any step, not only a command. */
  datatype Move =
    | Order(cmd: Command, actor: PlayerId)
    | Serve(now: nat, luck: Luck)
    | Join(player: PlayerId, user: UserId, seat: int, buyIn: int)
    | Leave(player: PlayerId)

  /** What the program may do next. */
  ghost predicate Possible(g: Game, m: Move)
  {
    match m
    case Order(_, _) => true
    case Serve(_, luck) => Plausible(luck, g)
    case Join(p, _, _, _) => p !in g.players
    case Leave(p) => p in g.players
  }

  /** Players leave between hands only; a new hand finds its antes covered. */
  ghost predicate Legal(g: Game, m: Move)
  {
    Possible(g, m) &&
    match m
    case Order(_, _) => true
    case Serve(now, _) => Covered(g, now)
    case Join(_, _, _, buyIn) => buyIn > 0
    case Leave(_) => g.hand.None?
  }

  ghost function After(g: Game, m: Move): Game
    requires Possible(g, m)
  {
    match m
    case Order(cmd, actor) => Play(g, [CommandEvent(g, cmd, actor)])
    case Serve(now, luck) => Play(g, Advance(g, now, luck))
    case Join(p, user, seat, buyIn) => Effect(g, PlayerJoined(p, user, seat, buyIn), None)
    case Leave(p) =>
      // Folds first when a hand is on.
      var folded := if g.hand.Some? && !g.players[p].folded then Effect(g, PlayerFolded(p), None) else g;
      Effect(folded, PlayerLeft(p, g.players[p].stack), None)
  }

  ghost predicate Happens(g: Game, moves: seq<Move>)
    decreases |moves|
  {
    moves == [] || (Possible(g, moves[0]) && Happens(After(g, moves[0]), moves[1..]))
  }

  ghost predicate IsRun(g: Game, moves: seq<Move>)
    ensures IsRun(g, moves) ==> Happens(g, moves)
    decreases |moves|
  {
    moves == [] || (Legal(g, moves[0]) && IsRun(After(g, moves[0]), moves[1..]))
  }

  ghost function End(g: Game, moves: seq<Move>): Game
    requires Happens(g, moves)
    decreases |moves|
  {
    if moves == [] then g else End(After(g, moves[0]), moves[1..])
  }

  // ── Every reachable state keeps the betting invariant ─────────────────────

  /** One more player, with a stack and no bets. */
  ghost predicate Joined(g: Game, g2: Game, p: PlayerId, buyIn: int)
  {
    && g2.hand == g.hand && g2.config == g.config && g2.status == g.status
    && p !in g.players && g2.players.Keys == g.players.Keys + {p}
    && (forall q | q in g.players :: g2.players[q] == g.players[q])
    && (var n := g2.players[p];
        && n.stack == buyIn && n.committed == 0 && n.currentBet == 0
        && !n.folded && !n.allIn && !n.sittingOut)
  }

  lemma JoinIsJoined(g: Game, p: PlayerId, user: UserId, seat: int, buyIn: int)
    requires p !in g.players
    ensures Joined(g, Effect(g, PlayerJoined(p, user, seat, buyIn), None), p, buyIn)
  {
  }

  lemma JoinedTotals(g: Game, g2: Game, p: PlayerId, buyIn: int)
    requires Joined(g, g2, p, buyIn)
    ensures StackTotal(g2.players) == StackTotal(g.players) + buyIn
    ensures CommitTotal(g2.players) == CommitTotal(g.players)
    ensures ChipCount(g2) == ChipCount(g) + buyIn
  {
    TotalUpdate(Stacks(g.players), p, buyIn);
    TotalUpdate(Commitments(g.players), p, 0);
    assert Stacks(g2.players) == Stacks(g.players)[p := buyIn];
    assert Commitments(g2.players) == Commitments(g.players)[p := 0];
  }

  lemma JoinedTable(g: Game, g2: Game, p: PlayerId, buyIn: int)
    requires TableOk(g) && Joined(g, g2, p, buyIn) && buyIn > 0
    ensures TableOk(g2)
  {
    hide StackTotal, CommitTotal;
    JoinedTotals(g, g2, p, buyIn);
    if g.hand.Some? {
      var h := g.hand.value;
      forall q | q in g2.players ensures BetOk(g2.players[q], h) {
        assert q != p ==> BetOk(g.players[q], h);
      }
      forall q | q in h.order ensures q in g2.players && Matched(g2.players, h, q) {
        assert q in Elems(h.order);
        assert Matched(g.players, h, q);
      }
    }
  }

  lemma JoinKeepsTable(g: Game, p: PlayerId, user: UserId, seat: int, buyIn: int)
    requires TableOk(g) && p !in g.players && buyIn > 0
    ensures var g2 := Effect(g, PlayerJoined(p, user, seat, buyIn), None);
      TableOk(g2) && Joined(g, g2, p, buyIn) && ChipCount(g2) == ChipCount(g) + buyIn
  {
    hide *;
    var g2 := Effect(g, PlayerJoined(p, user, seat, buyIn), None);
    JoinIsJoined(g, p, user, seat, buyIn);
    JoinedTable(g, g2, p, buyIn);
    JoinedTotals(g, g2, p, buyIn);
  }

  lemma LeaveKeepsTable(g: Game, p: PlayerId)
    requires TableOk(g) && p in g.players && g.hand.None?
    ensures var g2 := Effect(g, PlayerLeft(p, g.players[p].stack), None);
      TableOk(g2) && g2.hand.None? && g2.config == g.config && ChipCount(g2) == ChipCount(g) - g.players[p].stack
  {
    TotalRemove(Stacks(g.players), p);
    assert Stacks(g.players - {p}) == Stacks(g.players) - {p};
  }

  lemma MoveKeepsTable(g: Game, m: Move)
    requires TableOk(g) && Legal(g, m)
    ensures TableOk(After(g, m))
  {
    hide Effect, Play, Advance, TableOk, Plausible, Covered;
    match m
    case Order(cmd, actor) => CommandKeepsTable(g, cmd, actor);
    case Serve(now, luck) => BatchConservesIff(g, now, luck);
    case Join(p, user, seat, buyIn) => JoinKeepsTable(g, p, user, seat, buyIn);
    case Leave(p) => LeaveKeepsTable(g, p);
  }

  /** Every state a run reaches satisfies the betting invariant. */
  lemma {:induction false} RunKeepsTable(g: Game, moves: seq<Move>)
    requires TableOk(g) && IsRun(g, moves)
    ensures TableOk(End(g, moves))
    decreases |moves|
  {
    hide TableOk, After;
    if moves != [] {
      MoveKeepsTable(g, moves[0]);
      RunKeepsTable(After(g, moves[0]), moves[1..]);
    }
  }

  /** A table as it is created: nobody there, no hand. */
  function NewTable(config: Config): Game
  {
    Game(1, Waiting, config, -1, 0, map[], map[], [], None)
  }

  /** What the invariant says of a hand in progress, spelled out for every reachable state: the
      players still to act are a duplicate-free subsequence of the action order, the acting player is
      one of them, no bet exceeds the highest, and whoever need not act has matched it, is all-in or
      has folded. */
  lemma ReachableBetting(config: Config, moves: seq<Move>) returns (at: seq<nat>)
    requires ConfigOk(config) && IsRun(NewTable(config), moves)
    ensures var g := End(NewTable(config), moves);
      g.hand.Some? ==>
        var h := g.hand.value;
        && Distinct(h.order) && Distinct(h.pending) && |at| == |h.pending|
        && (forall i | 0 <= i < |at| :: at[i] < |h.order| && h.order[at[i]] == h.pending[i])
        && (forall i, j | 0 <= i < j < |at| :: at[i] < at[j])
        && (h.acting.Some? ==> h.acting.value in h.pending)
        && (forall p | p in g.players :: g.players[p].stack >= 0 && 0 <= g.players[p].currentBet <= h.highest)
        && (forall p | p in h.order && p !in h.pending ::
             p in g.players && (g.players[p].folded || g.players[p].stack == 0 || g.players[p].currentBet == h.highest))
  {
    RunKeepsTable(NewTable(config), moves);
    var g := End(NewTable(config), moves);
    at := [];
    if g.hand.Some? {
      var h := g.hand.value;
      SelectDistinct(h.order, Elems(h.pending));
      at := SelectIsSubsequence(h.order, Elems(h.pending));
      assert forall p | p in g.players :: BetOk(g.players[p], h);
      assert forall p | p in h.order :: p in g.players && Matched(g.players, h, p);
    }
  }

  /** A street closes only when every player of the order who could still call has matched. */
  lemma StreetClosesMatched(g: Game, now: nat, p: PlayerId)
    requires TableOk(g) && KindOf(g, now) in {TurnsStreet, Shows} && g.hand.Some? && p in g.hand.value.order
    ensures p in g.players
    ensures g.players[p].folded || g.players[p].stack == 0 || g.players[p].currentBet == g.hand.value.highest
  {
    assert Matched(g.players, g.hand.value, p);
  }

  // ── The ledger of a hand ──────────────────────────────────────────────────

  /** Nobody's chips have left the pair of stack and commitment. */
  ghost predicate SameLedger(g: Game, g2: Game)
  {
    && g.players.Keys <= g2.players.Keys
    && forall p | p in g.players ::
         g2.players[p].stack + g2.players[p].committed == g.players[p].stack + g.players[p].committed
  }

  /** A command is an action of the acting player, or only changes who sits out, or does nothing. */
  lemma CommandShape(g: Game, cmd: Command, actor: PlayerId)
    requires BetsFit(g)
    ensures var g2 := Play(g, [CommandEvent(g, cmd, actor)]);
      || g2 == g
      || (OnlySat(g, g2) && (cmd.SitOut? ==> NobodySatIn(g, g2)) && !IsAction(cmd))
      || (g.hand.Some? && g.hand.value.acting == Some(actor) && actor in g.players && IsAction(cmd)
          && Acts(g, g2, actor, Wager(g, cmd, actor)))
  {
    hide Effect, Play, Acts, BetsFit, OnlySat, NobodySatIn;
    PlayOne(g, CommandEvent(g, cmd, actor));
    if Validate(g, cmd, actor).Some? {
      Refused(g);
    } else if IsAction(cmd) {
      LegalActionActs(g, cmd, actor);
      ActedIsEffect(g, cmd, actor);
    } else {
      SatDown(g, actor, cmd.SitOut?);
    }
  }

  lemma SatDown(g: Game, pid: PlayerId, out: bool)
    ensures var g2 := Effect(g, if out then PlayerSatOut(pid) else PlayerSatIn(pid), None);
      OnlySat(g, g2) && (out ==> NobodySatIn(g, g2))
  {
    SatOutOrIn(g, pid, out);
  }

  lemma InHandKinds(g: Game, now: nat)
    ensures g.hand.Some? ==> KindOf(g, now) != SitsOut && KindOf(g, now) != Deals
    ensures KindOf(g, now) == TurnsStreet ==> StreetDue(g)
  {
  }

  lemma TimeoutSeat(g: Game, now: nat)
    requires g.hand.Some? && TimedOut(g, now)
    ensures g.hand.value.acting.Some?
  {
  }

  /** The blinds and antes of a new hand stay on the ledger of whoever paid them. */
  lemma DealKeepsLedger(g: Game, now: nat, luck: Luck, p: PlayerId)
    requires StartsHand(g) && Plausible(luck, g) && ConfigOk(g.config) && p in g.players
    ensures var g2 := Play(g, Advance(g, now, luck));
      && p in g2.players && g2.players[p].stack + g2.players[p].committed == g.players[p].stack
      && g2.hand.Some? && g2.hand.value.pot == CommitTotal(g2.players)
  {
    hide Effect, Play, Advance, AllBets, PaidIn, Posts, NoAntes, ActiveSeats;
    NewHandDealt(g, now, luck);
  }
}
