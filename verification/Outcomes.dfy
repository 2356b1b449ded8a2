/** How a hand goes on once a street's betting is over, and where the server's rules surprise. */
module Outcomes {
  import opened Collections
  import opened Cards
  import opened Table
  import opened Pots
  import opened Rules
  import opened Lifecycle
  import opened Posting
  import opened Streets
  import opened Chips
  import opened Betting
  import opened Showdown
  import opened Batches
  import opened Conservation

  // ── After a street ────────────────────────────────────────────────────────

  /** Players who have not folded, sit in and have chips left: the next street's order, less the
      folded players it also lists. All-in players are not among them. */
  function StillLive(players: map<PlayerId, Player>): set<PlayerId>
  {
    set p | p in players && !players[p].folded && !players[p].sittingOut && players[p].stack > 0
  }

  lemma LiveAreNonFolded(g: Game, g2: Game)
    requires NewStreet(g, g2)
    ensures Distinct(NonFolded(g2)) && Elems(NonFolded(g2)) == StillLive(g.players)
    ensures |NonFolded(g2)| == |StillLive(g.players)|
  {
    hide PostflopOrder;
    var order := g2.hand.value.order;
    SelectElems(order, UnfoldedIds(g2.players));
    SelectDistinct(order, UnfoldedIds(g2.players));
    DistinctLength(NonFolded(g2));
    forall p ensures p in NonFolded(g2) <==> p in StillLive(g.players) {
      assert p in order <==> p in Elems(order);
    }
  }

  /** When a round of betting closes before the river, the next street is dealt, and then: with two or
      more live players somebody is asked to act; with one, that player takes the whole pot although
      all-in players have not folded; with none, nothing happens any more. */
  lemma NextStreetOutcome(g: Game, now: nat, luck: Luck)
    requires StreetDue(g) && Plausible(luck, g)
    ensures var g2 := Play(g, StreetEvents(g, luck));
      && g2.hand.Some? && Elems(NonFolded(g2)) == StillLive(g.players)
      && (KindOf(g2, now) == Asks <==> |StillLive(g.players)| >= 2)
      && (KindOf(g2, now) == PaysLast <==> |StillLive(g.players)| == 1)
      && (KindOf(g2, now) == Quiet <==> StillLive(g.players) == {})
  {
    hide Effect, Play, StreetEvents, PostflopOrder, Elems, Select;
    StreetIsNew(g, luck);
    var g2 := Play(g, StreetEvents(g, luck));
    LiveAreNonFolded(g, g2);
    OrderFollows(g2);
  }

  lemma OrderFollows(g2: Game)
    requires g2.hand.Some?
    ensures NonFolded(g2) != [] ==> g2.hand.value.order != []
  {
  }

  /** A hand nobody live is left in is stuck: the server has no batch for it at any time, and every
      betting command is refused, because nobody's turn ever comes. */
  lemma NobodyLiveStalls(g: Game, now: nat, luck: Luck, later: nat, luck2: Luck, cmd: Command, actor: PlayerId)
    requires StreetDue(g) && Plausible(luck, g) && StillLive(g.players) == {}
    ensures var g2 := Play(g, StreetEvents(g, luck));
      && g2.hand.Some?
      && (Plausible(luck2, g2) ==> Advance(g2, later, luck2) == [])
      && (IsAction(cmd) ==> Validate(g2, cmd, actor).Some?)
  {
    hide Effect, Play, StreetEvents, PostflopOrder, NonFolded, Advance, RankedStakes, StillLive, KindOf, Validate;
    var g2 := Play(g, StreetEvents(g, luck));
    NextStreetOutcome(g, later, luck);
    StreetIsNewFor(g, luck);
    if Plausible(luck2, g2) {
      BatchOfKind(g2, later, luck2);
      BatchFacts(g2, later, luck2);
    }
    NobodysTurn(g2, cmd, actor);
  }

  lemma StreetIsNewFor(g: Game, luck: Luck)
    requires StreetDue(g) && Plausible(luck, g)
    ensures Play(g, StreetEvents(g, luck)).hand.Some? && Play(g, StreetEvents(g, luck)).hand.value.acting.None?
  {
    hide Effect, Play, StreetEvents;
    StreetIsNew(g, luck);
  }

  lemma NobodysTurn(g: Game, cmd: Command, actor: PlayerId)
    requires g.hand.Some? && g.hand.value.acting.None?
    ensures IsAction(cmd) ==> Validate(g, cmd, actor).Some?
  {
    assert RequireTurn(g, actor).Some?;
  }

  /** Whether the player whose turn it is can do anything: exactly unless they have folded, are all-in
      or sit out. Later streets do ask folded players, and then only the deadline moves the hand on. */
  lemma ActingPlayerCanActIff(g: Game)
    requires TableOk(g) && g.hand.Some? && g.hand.value.acting.Some? && (g.status == Active || g.status == Paused)
    ensures g.hand.value.acting.value in g.players
    ensures (exists cmd :: IsAction(cmd) && Validate(g, cmd, g.hand.value.acting.value).None?) <==>
      var p := g.players[g.hand.value.acting.value]; !p.folded && !p.allIn && !p.sittingOut
  {
    hide HandOk;
    var pid := g.hand.value.acting.value;
    ActingIsSeated(g);
    var p := g.players[pid];
    if !p.folded && !p.allIn && !p.sittingOut {
      assert IsAction(Fold) && Validate(g, Fold, pid).None?;
    }
    if cmd :| IsAction(cmd) && Validate(g, cmd, pid).None? {
      assert RequireTurn(g, pid).None?;
    }
  }

  // ── All-in before the flop ────────────────────────────────────────────────

  /** Heads-up before the flop, 5 chips each in the pot and the round closed: player 7 is all-in, player 8
      has rest chips left. */
  function AllInFor5(rest: nat): Game
  {
    var config := Config(1, 2, 0, 0, 2, 6, 0, 0, 0, 0, 0, false, 0, false);
    var players := map[
      7 := Player(1, false, 0, 5, 5, false, true, None),
      8 := Player(2, false, rest, 5, 5, false, rest == 0, None)];
    var h := Hand(0, 7, 7, 8, Preflop, 10, 0, 5, 3, 3, 5, [], 1, None, None, None, None, None, [], [7, 8], [], None);
    Game(1, Active, config, 1, 0, players, map[], [], Some(h))
  }

  lemma AllInTotals(g: Game, rest: nat)
    requires g == AllInFor5(rest)
    ensures CommitTotal(g.players) == 10
  {
    var m := Commitments(g.players);
    assert m.Keys == {7, 8} && m[7] == 5 && m[8] == 5;
    TotalPick(m, 7);
    TotalPick(m - {7}, 8);
    TotalOfZeros(m - {7} - {8});
  }

  lemma AllInOrder(g: Game, rest: nat)
    requires g == AllInFor5(rest)
    ensures NonFolded(g) == [7, 8] && Select(g.hand.value.order, {}) == []
  {
    var order := g.hand.value.order;
    SelectAll(order, UnfoldedIds(g.players));
    SelectElems(order, {});
    if Select(order, {}) != [] {
      SomeElem(Select(order, {}));
    }
  }

  lemma AllInOk(g: Game, rest: nat)
    requires g == AllInFor5(rest)
    ensures TableOk(g) && StreetDue(g)
    ensures StillLive(g.players) == if rest == 0 then {} else {8}
  {
    hide CommitTotal, Select;
    AllInTotals(g, rest);
    AllInOrder(g, rest);
    assert Elems<PlayerId>([]) == {};
  }

  lemma AllInTurnsStreet(g: Game, rest: nat, now: nat, luck: Luck)
    requires g == AllInFor5(rest) && Plausible(luck, g)
    ensures KindOf(g, now) == TurnsStreet && Advance(g, now, luck) == StreetEvents(g, luck)
  {
    hide NonFolded, Plausible, StreetEvents, Advance;
    AllInOrder(g, rest);
    BatchOfKind(g, now, luck);
    BatchFacts(g, now, luck);
  }

  /** Both players all-in before the flop: the flop is dealt, and then nothing happens any more — the
      10 chips stay in the pot, the server has no batch at any time, no betting command is legal. */
  lemma AllInStalls(now: nat, luck: Luck, later: nat, luck2: Luck, cmd: Command, actor: PlayerId)
    requires Plausible(luck, AllInFor5(0))
    ensures TableOk(AllInFor5(0))
    ensures var g2 := Play(AllInFor5(0), Advance(AllInFor5(0), now, luck));
      && g2.hand.Some? && g2.hand.value.pot == 10 && g2.hand.value.phase == Flop
      && (Plausible(luck2, g2) ==> Advance(g2, later, luck2) == [])
      && (IsAction(cmd) ==> Validate(g2, cmd, actor).Some?)
  {
    hide *;
    var g := AllInFor5(0);
    AllInOk(g, 0);
    AllInTurnsStreet(g, 0, now, luck);
    NobodyLiveStalls(g, now, luck, later, luck2, cmd, actor);
    EnoughLuck(g, luck);
    StreetIsNew(g, luck);
    StreetPot(g, Play(g, StreetEvents(g, luck)), 0);
  }

  lemma EnoughLuck(g: Game, luck: Luck)
    requires Plausible(luck, g)
    ensures |luck.cards| >= 3 && (StreetDue(g) ==> g.hand.Some?)
  {
  }

  lemma StreetPot(g: Game, g2: Game, rest: nat)
    requires g == AllInFor5(rest) && NewStreet(g, g2)
    ensures g2.hand.Some? && g2.hand.value.pot == 10 && g2.hand.value.phase == Flop && g2.config == g.config
    ensures g2.players.Keys == {7, 8} && g2.players[7].stack == 0 && !g2.players[7].folded
    ensures g2.players[8].stack == rest
  {
  }

  /** One all-in, the other with chips left: the flop is dealt, and the player with chips takes the whole
      pot at once, without a showdown and although the all-in player never folded. */
  lemma CallerTakesAllIn(rest: nat, now: nat, luck: Luck, luck2: Luck)
    requires rest > 0 && Plausible(luck, AllInFor5(rest))
    ensures TableOk(AllInFor5(rest))
    ensures var g2 := Play(AllInFor5(rest), Advance(AllInFor5(rest), now, luck));
      && g2.hand.Some? && 7 in g2.players && !g2.players[7].folded
      && (Plausible(luck2, g2) ==>
            var g3 := Play(g2, Advance(g2, now, luck2));
            g3.hand.None? && 7 in g3.players && 8 in g3.players && g3.players[7].stack == 0
                && g3.players[8].stack == rest + 10)
  {
    hide *;
    var g := AllInFor5(rest);
    AllInOk(g, rest);
    AllInTurnsStreet(g, rest, now, luck);
    NextStreetOutcome(g, now, luck);
    EnoughLuck(g, luck);
    StreetIsNew(g, luck);
    var g2 := Play(g, StreetEvents(g, luck));
    StreetPot(g, g2, rest);
    if Plausible(luck2, g2) {
      BatchOfKind(g2, now, luck2);
      BatchFacts(g2, now, luck2);
      OnlyLeft(g2, rest);
    }
  }

  lemma OnlyLeft(g2: Game, rest: nat)
    requires g2.hand.Some? && g2.hand.value.pot == 10 && Elems(NonFolded(g2)) == {8}
    requires g2.config == AllInFor5(rest).config
    requires g2.players.Keys == {7, 8} && g2.players[7].stack == 0 && g2.players[8].stack == rest
    ensures var g3 := Play(g2, UncontestedEvents(g2));
      g3.hand.None? && 7 in g3.players && 8 in g3.players && g3.players[7].stack == 0
          && g3.players[8].stack == rest + 10
  {
    hide NonFolded, Effect, Play, Paid;
    LoneWinner(NonFolded(g2), 8);
    assert UncontestedEvents(g2) == [PotAwarded(10, [8]), HandEnded(g2.handNumber + 1)];
    PlayTwo(g2, PotAwarded(10, [8]), HandEnded(g2.handNumber + 1));
    AwardToOne(g2, 10, 8);
    HandIsOver(Effect(g2, PotAwarded(10, [8]), None), g2.handNumber + 1);
  }

  lemma LoneWinner(ids: seq<PlayerId>, p: PlayerId)
    requires Elems(ids) == {p}
    ensures ids != [] && ids[0] == p
  {
    assert p in Elems(ids);
    assert ids[0] in Elems(ids);
  }

  lemma AwardToOne(g: Game, amount: nat, p: PlayerId)
    requires g.hand.Some? && p in g.players
    ensures Effect(g, PotAwarded(amount, [p]), None).players
        == g.players[p := g.players[p].(stack := g.players[p].stack + amount)]
  {
    assert Paid(g.players, [p], amount, 0) == g.players;
    assert Quotient(amount, 1) == amount && Remainder(amount, 1) == 0;
  }

  lemma HandIsOver(g: Game, n: int)
    ensures Effect(g, HandEnded(n), None).hand.None? && Effect(g, HandEnded(n), None).players == g.players
  {
  }

  // ── Showdowns that lose chips ─────────────────────────────────────────────

  /** A hand at the river, checked down: player 7 put 4 chips in and folded; 8 and 9 sat in late and
      put in nothing. */
  function LateSitters(): Game
  {
    var config := Config(1, 2, 0, 0, 2, 6, 0, 0, 0, 0, 0, false, 0, false);
    var players := map[
      7 := Player(1, false, 6, 0, 4, true, false, None),
      8 := Player(2, false, 10, 0, 0, false, false, None),
      9 := Player(3, false, 10, 0, 0, false, false, None)];
    var h := Hand(0, 7, 7, 7, River, 4, 0, 0, 0, 2, 0, [], 0, None, None, None, None, None, [], [8, 9], [], None);
    Game(1, Active, config, 1, 0, players, map[], [], Some(h))
  }

  lemma LateSittersTotals(players: map<PlayerId, Player>)
    requires players == LateSitters().players
    ensures CommitTotal(players) == 4
  {
    var m := Commitments(players);
    assert m.Keys == {7, 8, 9} && m[7] == 4 && m[8] == 0 && m[9] == 0;
    TotalPick(m, 7);
    TotalOfZeros(m - {7});
  }

  lemma LateSittersOrder(g: Game)
    requires g == LateSitters()
    ensures NonFolded(g) == [8, 9] && Select(g.hand.value.order, {}) == []
  {
    var order := g.hand.value.order;
    SelectAll(order, UnfoldedIds(g.players));
    SelectElems(order, {});
    if Select(order, {}) != [] {
      SomeElem(Select(order, {}));
    }
  }

  lemma LateSittersOk(g: Game)
    requires g == LateSitters()
    ensures TableOk(g)
  {
    hide CommitTotal, Select;
    LateSittersTotals(g.players);
    LateSittersOrder(g);
    assert Elems<PlayerId>([]) == {};
  }

  lemma LateSittersShowDown(g: Game, now: nat)
    requires g == LateSitters()
    ensures KindOf(g, now) == Shows && g.hand.Some? && g.hand.value.pot == 4
    ensures !TopContributorLive(g) && Rake(4, g.config) == 0
  {
    hide NonFolded;
    LateSittersOrder(g);
    assert g.players[7].committed == 4;
  }

  /** The betting invariant holds, yet the showdown loses the pot: nobody left put anything in, so the
      only pot has no eligible player. */
  lemma LateSittersLoseThePot(now: nat, luck: Luck)
    requires Plausible(luck, LateSitters())
    ensures var g := LateSitters();
      TableOk(g) && ChipCount(Play(g, Advance(g, now, luck))) + RakeIn(Advance(g, now, luck)) != ChipCount(g)
  {
    hide *;
    LateSittersOk(LateSitters());
    LateSittersShowDown(LateSitters(), now);
    BatchConservesIff(LateSitters(), now, luck);
    NotPaidOut(LateSitters(), now, luck);
  }

  lemma NotPaidOut(g: Game, now: nat, luck: Luck)
    requires TableOk(g) && Plausible(luck, g) && KindOf(g, now) == Shows && g.hand.Some? && !TopContributorLive(g)
    requires g.hand.value.pot > 0 && Rake(g.hand.value.pot, g.config) == 0
    ensures !PaysOut(g, now, luck)
  {
    hide HandOk, HandPots, Rake, TopContributorLive, KindOf, NonFolded;
    ShowsWhenDue(g, now, luck);
    ShowdownFacts(g, luck.stakes);
  }

  // ── A rake the main pot cannot bear ───────────────────────────────────────

  /** At the river, player 7 is all-in for 1 chip against 100 each of players 8 and 9: 5 % of the whole
      pot is 10 chips, but the main pot the rake is taken from holds 3. */
  function ShortAllIn(): Game
  {
    var config := Config(1, 2, 0, 0, 2, 6, 0, 0, 500, 0, 0, false, 0, false);
    var players := map[
      7 := Player(1, false, 0, 0, 1, false, true, None),
      8 := Player(2, false, 10, 0, 100, false, false, None),
      9 := Player(3, false, 10, 0, 100, false, false, None)];
    var h := Hand(0, 7, 8, 9, River, 201, 0, 0, 0, 2, 0, [], 0, None, None, None, None, None, [], [8, 9], [], None);
    Game(1, Active, config, 1, 0, players, map[], [], Some(h))
  }

  lemma ShortAllInTotals(g: Game)
    requires g == ShortAllIn()
    ensures CommitTotal(g.players) == 201 && Total(CappedCommitments(g.players, 1)) == 3
  {
    var m, c := Commitments(g.players), CappedCommitments(g.players, 1);
    assert m.Keys == {7, 8, 9} && m[7] == 1 && m[8] == 100 && m[9] == 100;
    assert c.Keys == {7, 8, 9} && c[7] == 1 && c[8] == 1 && c[9] == 1;
    TotalPick(m, 7);
    TotalPick(m - {7}, 8);
    TotalPick(m - {7} - {8}, 9);
    TotalOfZeros(m - {7} - {8} - {9});
    TotalPick(c, 7);
    TotalPick(c - {7}, 8);
    TotalPick(c - {7} - {8}, 9);
    TotalOfZeros(c - {7} - {8} - {9});
  }

  lemma ShortAllInOrder(g: Game)
    requires g == ShortAllIn()
    ensures NonFolded(g) == [8, 9] && Select(g.hand.value.order, {}) == []
  {
    var order := g.hand.value.order;
    SelectAll(order, UnfoldedIds(g.players));
    SelectElems(order, {});
    if Select(order, {}) != [] {
      SomeElem(Select(order, {}));
    }
  }

  lemma ShortAllInTable(g: Game)
    requires g == ShortAllIn()
    ensures TableOk(g)
  {
    hide CommitTotal, Select, NonFolded, BetOk;
    ShortAllInTotals(g);
    ShortAllInOrder(g);
    ShortAllInBets(g);
    assert Elems<PlayerId>([]) == {};
  }

  lemma ShortAllInBets(g: Game)
    requires g == ShortAllIn()
    ensures forall p | p in g.players :: BetOk(g.players[p], g.hand.value) && g.players[p].stack >= 0
  {
  }

  lemma ShortAllInShows(g: Game, now: nat)
    requires g == ShortAllIn()
    ensures KindOf(g, now) == Shows && g.hand.Some? && g.hand.value.pot == 201
  {
    hide NonFolded;
    ShortAllInOrder(g);
  }

  lemma ShortAllInTop(g: Game)
    requires g == ShortAllIn()
    ensures TopContributorLive(g) && Rake(201, g.config) == 10
  {
    hide NonFolded;
    ShortAllInOrder(g);
    assert 8 in NonFolded(g);
  }

  /** The first pot is part of all a player of any pot can win. */
  lemma {:induction false} FirstPotWithin(pots: seq<Pot>, p: PlayerId)
    requires pots != [] && (forall k | 0 <= k < |pots| :: pots[k].amount >= 0) && p in pots[0].eligible
    ensures pots[0].amount <= Within(pots, p)
  {
    if |pots| > 1 {
      FirstPotWithin(pots[..|pots| - 1], p);
    } else {
      assert pots[..0] == [];
    }
  }

  lemma {:induction false} WithinFirst(pots: seq<Pot>, p: PlayerId)
    requires pots != [] && Shrinking(pots) && p !in pots[0].eligible
    ensures Within(pots, p) == 0
  {
    if |pots| > 1 {
      WithinFirst(pots[..|pots| - 1], p);
      assert p !in Elems(pots[0].eligible);
      assert p !in Elems(pots[|pots| - 1].eligible);
    } else {
      assert pots[..0] == [];
    }
  }

  lemma MainPotIsSmall(g: Game, stakes: seq<Stake>)
    requires g == ShortAllIn() && AtShowdown(g, stakes)
    ensures HandPots(g, stakes)[0].amount <= 3
  {
    hide AtShowdown, HandPots, Within, CappedCommitments, NonFolded;
    ShortAllInTotals(g);
    ShowdownFacts(g, stakes);
    WithinIsMatched(g, stakes);
    if 7 in HandPots(g, stakes)[0].eligible {
      FirstPotWithin(HandPots(g, stakes), 7);
    } else {
      WithinFirst(HandPots(g, stakes), 7);
    }
  }

  lemma WithinIsMatched(g: Game, stakes: seq<Stake>)
    requires g == ShortAllIn() && AtShowdown(g, stakes)
    ensures Within(HandPots(g, stakes), 7) == Total(CappedCommitments(g.players, 1)) && HandPots(g, stakes) != []
  {
    hide CappedCommitments, NonFolded, Within, HandOk, PotsOf;
    assert StakeOf(g.players, 7) in stakes;
    var x :| 0 <= x < |stakes| && stakes[x] == StakeOf(g.players, 7);
    WinnableIsMatched(stakes, g.hand.value.order, x);
    CappedOverPlayers(g, stakes, 1);
    PotsHoldThePot(g, stakes);
  }

  /** Somebody contending matched everybody, yet the showdown does not balance: the main pot goes
      negative and is passed over, so more rake is taken than chips are there. */
  lemma RakeOverMainPot(now: nat, luck: Luck)
    requires Plausible(luck, ShortAllIn())
    ensures var g := ShortAllIn();
      TableOk(g) && ChipCount(Play(g, Advance(g, now, luck))) + RakeIn(Advance(g, now, luck)) != ChipCount(g)
  {
    hide *;
    var g := ShortAllIn();
    ShortAllInTable(g);
    ShortAllInShows(g, now);
    ShortAllInTop(g);
    BatchConservesIff(g, now, luck);
    ShowsWhenDue(g, now, luck);
    DueMeansShowdown(g, luck);
    MainPotIsSmall(g, luck.stakes);
    ConservedIffRakeFits(g, luck);
    BalancedIffPaysFully(g, luck);
    BatchFacts(g, now, luck);
  }

  // ── Antes the blinds cannot cover ─────────────────────────────────────────

  /** Two players with 5 chips each at a table with an ante of 5. */
  function SmallStacks(): Game
  {
    var config := Config(1, 2, 5, 0, 2, 6, 0, 0, 0, 0, 0, false, 0, false);
    var players := map[7 := Player(1, false, 5, 0, 0, false, false, None),
        8 := Player(2, false, 5, 0, 0, false, false, None)];
    Game(1, Waiting, config, -1, 0, players, map[], [], None)
  }

  lemma SmallStacksStart(g: Game)
    requires g == SmallStacks()
    ensures StartsHand(g) && |ActiveSeats(g)| >= 2 && !AntesCovered(g)
  {
    hide BySeat, Positions;
    ActiveFits(g.players);
    assert ActiveIds(g.players) == {7, 8};
    assert BustedIds(g.players) == {};
  }

  lemma SmallStacksOk(g: Game)
    requires g == SmallStacks()
    ensures TableOk(g)
  {
  }

  /** Ante and blind are each capped by the whole stack, so together they overdraw it: the new hand
      leaves somebody with a negative stack. */
  lemma AntesOverdraw(now: nat, luck: Luck)
    requires Plausible(luck, SmallStacks())
    ensures TableOk(SmallStacks()) && !TableOk(Play(SmallStacks(), Advance(SmallStacks(), now, luck)))
  {
    hide *;
    SmallStacksStart(SmallStacks());
    SmallStacksOk(SmallStacks());
    NewHandKeepsTableIff(SmallStacks(), now, luck);
  }
}
