/** What the end of a hand pays, told by the cards and the chips: whose hand counts for what, who is paid
    which pot, who gets the odd chips, and what a lone player takes. */
module Payouts {
  import opened Collections
  import opened Cards
  import opened Table
  import opened Pots
  import opened Lifecycle
  import opened Batches
  import opened Betting
  import opened Chips
  import opened Conservation
  import opened Posting
  import opened Showdown
  import opened Streets
  import BestHand
  import Dealing
  import Eval
  import NewHands

  // ── Whose hand counts for what ────────────────────────────────────────────

  /** In the action order, seated and not folded. */
  predicate StillIn(g: Game, p: PlayerId)
    requires g.hand.Some?
  {
    p in g.hand.value.order && p in g.players && !g.players[p].folded
  }

  lemma StillInAre(g: Game)
    requires g.hand.Some?
    ensures forall p :: p in NonFolded(g) <==> StillIn(g, p)
  {
    SelectElems(g.hand.value.order, UnfoldedIds(g.players));
  }

  /** Two hole cards and the five on the board. */
  function SevenCards(hole: HoleCards, flop: FlopCards, turn: Card, river: Card): seq<Card>
  {
    [hole.card1, hole.card2, flop.card1, flop.card2, flop.card3, turn, river]
  }

  /** rank is what the best five of these cards score. */
  ghost predicate BestFiveScore(cards: seq<Card>, rank: nat)
  {
    && (exists five: seq<Card> :: |five| == 5 && multiset(five) <= multiset(cards) && Eval.Score(five) == rank)
    && (forall five: seq<Card> | |five| == 5 && multiset(five) <= multiset(cards) :: Eval.Score(five) <= rank)
  }

  lemma BestOfPool(pool: seq<Card>)
    requires |pool| >= 5
    ensures BestFiveScore(pool, BestHand.PoolRank(pool))
  {
    hide Eval.Score;
    var best, f := BestHand.BestRank(pool), BestHand.Evaluator();
    var t :| BestHand.Reaches(f, pool, t, best);
    assert BestHand.Reaches(f, pool, t, best);
    BestHand.ComboIsIncreasing(t, |pool|);
    BestHand.PickedFromPool(pool, t);
    var top := BestHand.Pick(pool, t);
    assert |top| == 5 && Eval.Score(top) == best;
    forall five: seq<Card> | |five| == 5 && multiset(five) <= multiset(pool) ensures Eval.Score(five) <= best {
      var u := BestHand.PickAnywhere(pool, multiset(five));
      SameSize(five, BestHand.Pick(pool, u));
      BestHand.ComboIsIncreasing(u, |pool|);
      BestHand.SamePickSameScore(five, BestHand.Pick(pool, u));
      assert BestHand.Reaches(f, pool, u, f(BestHand.Pick(pool, u)));
      assert f(five) == Eval.Score(five);
    }
  }

  /** At the river, everyone still in who holds cards is ranked by the best five of their seven cards. */
  lemma RankedByBestFive(g: Game, p: PlayerId)
    requires g.hand.Some? && g.hand.value.flop.Some? && g.hand.value.turn.Some? && g.hand.value.river.Some?
    ensures p in Evals(g) <==> StillIn(g, p) && g.players[p].hole.Some?
    ensures p in Evals(g) ==>
      var h := g.hand.value;
      BestFiveScore(SevenCards(g.players[p].hole.value, h.flop.value, h.turn.value, h.river.value), Evals(g)[p])
  {
    hide BestFiveScore, BestHand.PoolRank, NonFolded;
    StillInAre(g);
    if StillIn(g, p) && g.players[p].hole.Some? {
      var h := g.hand.value;
      var seven := SevenCards(g.players[p].hole.value, h.flop.value, h.turn.value, h.river.value);
      assert [g.players[p].hole.value.card1, g.players[p].hole.value.card2] + Board(h) == seven;
      BestOfPool(seven);
    }
  }

  // ── Who is paid which pot ─────────────────────────────────────────────────

  /** The winners of a pot are exactly the eligible players whose evaluated hand no eligible player's
      beats; when none is evaluated, the first player left who is eligible. */
  ghost predicate Earned(evals: map<PlayerId, nat>, eligible: seq<PlayerId>, nonFolded: seq<PlayerId>,
                         winners: seq<PlayerId>)
  {
    if exists p :: p in eligible && p in evals then
      forall p :: p in winners <==>
        p in eligible && p in evals && forall q | q in eligible && q in evals :: evals[q] <= evals[p]
    else
      |winners| == 1 && ComesFirst(nonFolded, eligible, winners[0])
  }

  lemma WinnersEarn(evals: map<PlayerId, nat>, eligible: seq<PlayerId>, nonFolded: seq<PlayerId>)
    requires Distinct(eligible) && Winners(evals, eligible, nonFolded) != []
    ensures Earned(evals, eligible, nonFolded, Winners(evals, eligible, nonFolded))
  {
    hide Winners, ComesFirst;
    WinnersAreBest(evals, eligible, nonFolded);
  }

  lemma {:induction false} AwardsAreEarned(evals: map<PlayerId, nat>, nonFolded: seq<PlayerId>, pots: seq<Pot>,
                                           k: nat, e: Event)
    requires k <= |pots| && (forall i | 0 <= i < |pots| :: Distinct(pots[i].eligible))
    requires e in AwardEvents(evals, nonFolded, pots, k)
    ensures e.PotAwarded? && exists i :: 0 <= i < k && e.amount == pots[i].amount > 0
                                         && Earned(evals, pots[i].eligible, nonFolded, e.winners)
  {
    hide Earned, Winners;
    if k > 0 {
      var before := AwardEvents(evals, nonFolded, pots, k - 1);
      var winners := Winners(evals, pots[k - 1].eligible, nonFolded);
      if e in before {
        AwardsAreEarned(evals, nonFolded, pots, k - 1, e);
      } else {
        assert e == PotAwarded(pots[k - 1].amount, winners);
        WinnersEarn(evals, pots[k - 1].eligible, nonFolded);
      }
    }
  }

  /** Every award of the showdown pays one pot of the hand, the main pot less the rake, to those whose
      hands earn it. */
  lemma ShowdownPaysBestHands(g: Game, luck: Luck, e: Event)
    requires ShowdownDue(g, luck) && e.PotAwarded? && e in StreetEvents(g, luck)
    ensures var pots := HandPots(g, luck.stakes);
      exists k :: 0 <= k < |pots|
        && e.amount == pots[k].amount - (if k == 0 then Rake(g.hand.value.pot, g.config) else 0)
        && Earned(Evals(g), pots[k].eligible, NonFolded(g), e.winners)
  {
    hide HandPots, Rake, Evals, NonFolded, Earned, TableOk, AwardEvents, RankedStakes, TakeRake, Distinct;
    HandPotsOk(g, luck.stakes);
    var pots, rake := HandPots(g, luck.stakes), Rake(g.hand.value.pot, g.config);
    var raked := TakeRake(pots, rake);
    AwardAmongEvents(Evals(g), NonFolded(g), pots, rake, g.handNumber + 1, e);
    AwardsAreEarned(Evals(g), NonFolded(g), raked, |raked|, e);
    RakedAmountsAre(pots, rake);
  }

  lemma RakedAmountsAre(pots: seq<Pot>, rake: int)
    requires pots != []
    ensures |TakeRake(pots, rake)| == |pots|
    ensures forall k | 0 <= k < |pots| ::
      && TakeRake(pots, rake)[k].eligible == pots[k].eligible
      && TakeRake(pots, rake)[k].amount == pots[k].amount - if k == 0 then rake else 0
  {
  }

  lemma {:induction false} NoAwardAmongSidePots(pots: seq<Pot>, e: Event)
    ensures e in SidePotEvents(pots) ==> e.SidePotCreated?
  {
    if |pots| > 1 {
      NoAwardAmongSidePots(pots[..|pots| - 1], e);
    }
  }

  lemma AwardAmongEvents(evals: map<PlayerId, nat>, nonFolded: seq<PlayerId>, pots: seq<Pot>, rake: int, n: int,
                         e: Event)
    requires pots != [] && e.PotAwarded? && e in [BettingRoundEnded] + SettleEvents(evals, nonFolded, pots, rake, n)
    ensures e in AwardEvents(evals, nonFolded, TakeRake(pots, rake), |pots|)
  {
    hide AwardEvents, SidePotEvents, TakeRake;
    NoAwardAmongSidePots(pots, e);
  }

  // ── Odd chips ─────────────────────────────────────────────────────────────

  /** p stands before q in s. */
  ghost predicate Before(s: seq<PlayerId>, p: PlayerId, q: PlayerId)
  {
    exists a, b :: 0 <= a < b < |s| && s[a] == p && s[b] == q
  }

  lemma {:induction false} SelectKeepsOrder(s: seq<PlayerId>, keep: set<PlayerId>, i: nat, j: nat)
    requires i < j < |Select(s, keep)|
    ensures Before(s, Select(s, keep)[i], Select(s, keep)[j])
  {
    var n := |s| - 1;
    var front, t := s[..n], Select(s[..n], keep);
    if j < |t| {
      SelectKeepsOrder(front, keep, i, j);
      var a, b :| 0 <= a < b < |front| && front[a] == t[i] && front[b] == t[j];
      assert s[a] == t[i] && s[b] == t[j];
    } else {
      SelectElems(front, keep);
      assert t[i] in t;
      var a :| 0 <= a < |front| && front[a] == t[i];
      assert s[a] == t[i] && s[n] == Select(s, keep)[j];
    }
  }

  /** Those of the action order come first, in its order. */
  lemma EligibleFollowsOrder(es: seq<Stake>, order: seq<PlayerId>, i: nat, j: nat)
    requires i < j < |Eligible(es, order)| && Eligible(es, order)[j] in order
    ensures Before(order, Eligible(es, order)[i], Eligible(es, order)[j])
  {
    var first := Select(order, LiveIds(es));
    LeftoverElems(es, order);
    if j < |first| {
      SelectKeepsOrder(order, LiveIds(es), i, j);
    }
  }

  lemma PotFollowsOrder(g: Game, stakes: seq<Stake>, k: nat, i: nat, j: nat)
    requires AtShowdown(g, stakes) && k < |HandPots(g, stakes)|
    requires i < j < |HandPots(g, stakes)[k].eligible| && HandPots(g, stakes)[k].eligible[j] in g.hand.value.order
    ensures Before(g.hand.value.order, HandPots(g, stakes)[k].eligible[i], HandPots(g, stakes)[k].eligible[j])
  {
    hide RawPots, Merge, Eligible, Starts, TableOk, RankedStakes, Before;
    var order := g.hand.value.order;
    if PotsOf(stakes, order) == [] {
      SelectKeepsOrder(order, UnfoldedIds(g.players), i, j);
    } else {
      var r := MergedFromRaw(RawPots(stakes, order, |stakes|), k);
      RawShape(stakes, order, |stakes|);
      EligibleFollowsOrder(stakes[Starts(stakes, |stakes|)[r]..], order, i, j);
    }
  }

  /** The winners of a pot are listed in action order; so the first of them, who gets the odd chips, is the
      one who would act first. */
  lemma OddChipsGoFirst(g: Game, stakes: seq<Stake>, k: nat, j: nat)
    requires AtShowdown(g, stakes) && k < |HandPots(g, stakes)|
    requires 0 < j < |Winners(Evals(g), HandPots(g, stakes)[k].eligible, NonFolded(g))|
    ensures var winners := Winners(Evals(g), HandPots(g, stakes)[k].eligible, NonFolded(g));
      Before(g.hand.value.order, winners[0], winners[j])
  {
    hide HandPots, Evals, TableOk, RankedStakes, Before, TopIds;
    var eligible := HandPots(g, stakes)[k].eligible;
    var top := TopIds(Evals(g), eligible);
    var winners := Select(eligible, top);
    SelectKeepsOrder(eligible, top, 0, j);
    BeforeAt(eligible, winners[0], winners[j]);
    var a, b :| 0 <= a < b < |eligible| && eligible[a] == winners[0] && eligible[b] == winners[j];
    SelectElems(eligible, top);
    assert winners[j] in winners;
    TopAreLeft(g, eligible, winners[j]);
    PotFollowsOrder(g, stakes, k, a, b);
  }

  lemma BeforeAt(s: seq<PlayerId>, p: PlayerId, q: PlayerId)
    requires Before(s, p, q)
    ensures exists a, b :: 0 <= a < b < |s| && s[a] == p && s[b] == q
  {
  }

  lemma TopAreLeft(g: Game, eligible: seq<PlayerId>, p: PlayerId)
    requires g.hand.Some? && p in TopIds(Evals(g), eligible)
    ensures p in g.hand.value.order
  {
    hide BestHand.PoolRank, NonFolded;
    StillInAre(g);
  }

  // ── A lone player ─────────────────────────────────────────────────────────

  /** Nobody has run out of time. */
  predicate InTime(g: Game, now: nat)
    requires g.hand.Some?
  {
    g.hand.value.acting.None? || g.hand.value.deadline.None? || now == 0 || now <= g.hand.value.deadline.value
  }

  /** When everybody else has folded, the last player left is paid the pot less the rake, and the hand is over;
      nobody else's chips change. */
  lemma LastPlayerTakesPot(g: Game, now: nat, luck: Luck, p: PlayerId)
    requires TableOk(g) && Plausible(luck, g) && g.hand.Some? && InTime(g, now)
    requires StillIn(g, p) && forall q | q != p :: !StillIn(g, q)
    ensures var g2, pot := Play(g, Advance(g, now, luck)), g.hand.value.pot;
      && g2.hand.None? && g2.handNumber == g.handNumber + 1 && g2.players.Keys == g.players.Keys
      && g2.players[p].stack == g.players[p].stack + pot - Rake(pot, g.config)
      && forall q | q in g.players && q != p :: g2.players[q] == g.players[q]
  {
    hide Play, Effect, TableOk, Plausible, Rake, BatchOf, Paid, Advance, StillIn;
    OnlyOneLeft(g, p);
    BatchOfKind(g, now, luck);
    BatchFacts(g, now, luck);
    var pot, rake := g.hand.value.pot, Rake(g.hand.value.pot, g.config);
    LonePlayer(g, now, p);
    PotNotNegative(g);
    RakeBounds(pot, g.config);
    AwardLast(g, rake, p, g.handNumber + 1);
    PaidAlone(g.players, p, pot - rake);
    NumbersOn(g, rake, p);
  }

  lemma PotNotNegative(g: Game)
    requires TableOk(g) && g.hand.Some?
    ensures g.hand.value.pot >= 0 && ConfigOk(g.config)
  {
    CommitAtLeast(g.players, 0);
  }

  lemma OnlyOneLeft(g: Game, p: PlayerId)
    requires TableOk(g) && g.hand.Some? && StillIn(g, p) && forall q | q != p :: !StillIn(g, q)
    ensures NonFolded(g) == [p] && p in g.players
  {
    hide NonFolded;
    StillInAre(g);
    LeftAreDistinct(g);
    var left := NonFolded(g);
    forall i | 0 <= i < |left| ensures left[i] == p {
      assert left[i] in left;
    }
    assert p in left;
    DistinctLength(left);
    assert Elems(left) == {p};
  }

  lemma LeftAreDistinct(g: Game)
    requires TableOk(g) && g.hand.Some?
    ensures Distinct(NonFolded(g))
  {
    SelectDistinct(g.hand.value.order, UnfoldedIds(g.players));
  }

  lemma LonePlayer(g: Game, now: nat, p: PlayerId)
    requires g.hand.Some? && InTime(g, now) && NonFolded(g) == [p]
    ensures KindOf(g, now) == PaysLast
    ensures var rake := Rake(g.hand.value.pot, g.config);
      UncontestedEvents(g)
        == RakeEvents(rake) + [PotAwarded(g.hand.value.pot - rake, [p]), HandEnded(g.handNumber + 1)]
  {
  }

  lemma PaidAlone(players: map<PlayerId, Player>, p: PlayerId, amount: int)
    requires p in players && amount >= 0
    ensures var paid := Paid(players, [p], amount, 1);
      && paid.Keys == players.Keys && paid[p].stack == players[p].stack + amount
      && forall q | q in players && q != p :: paid[q] == players[q]
  {
  }

  lemma NumbersOn(g: Game, rake: int, p: PlayerId)
    requires g.hand.Some?
    ensures var events := RakeEvents(rake) + [PotAwarded(g.hand.value.pot - rake, [p]), HandEnded(g.handNumber + 1)];
      Play(g, events).handNumber == g.handNumber + 1
  {
    var events := RakeEvents(rake) + [PotAwarded(g.hand.value.pot - rake, [p]), HandEnded(g.handNumber + 1)];
    hide RakeEvents;
    assert events[|events| - 1] == HandEnded(g.handNumber + 1);
  }

  // ── Streets ───────────────────────────────────────────────────────────────

  /** The flop, then the turn, then the river: each street puts its own cards on the board, keeps those
      that lie there, and moves the hand on by one; and betting starts afresh. */
  lemma StreetsFollow(g: Game, luck: Luck)
    requires StreetDue(g) && |luck.cards| >= 3
    ensures var h, g2 := g.hand.value, Play(g, StreetEvents(g, luck));
      && g2.hand.Some?
      && var h2 := g2.hand.value;
      && (h.phase == Preflop ==>
            && h2.phase == Flop && h2.flop == Some(FlopCards(luck.cards[0], luck.cards[1], luck.cards[2]))
            && h2.turn == h.turn && h2.river == h.river)
      && (h.phase == Flop ==>
            h2.phase == Turn && h2.flop == h.flop && h2.turn == Some(luck.cards[0]) && h2.river == h.river)
      && (h.phase == Turn ==>
            h2.phase == River && h2.flop == h.flop && h2.turn == h.turn && h2.river == Some(luck.cards[0]))
      && h2.highest == 0 && h2.lastRaise == 0 && NewHands.FreshRound(h2)
      && g2.players.Keys == g.players.Keys && forall p | p in g2.players :: g2.players[p].currentBet == 0
  {
    hide Play, StreetEvents;
    Dealing.StreetOpens(g, luck);
    StreetIsFresh(g, luck);
  }

  lemma DealtIsFresh(g: Game, street: Event)
    requires g.hand.Some? && (street.FlopDealt? || street.TurnDealt? || street.RiverDealt?)
    ensures var g2 := Effect(g, street, None);
      && g2.hand.Some? && g2.hand.value.highest == 0 && g2.hand.value.lastRaise == 0
      && NewHands.FreshRound(g2.hand.value)
  {
    hide PostflopOrder;
  }

  lemma StreetIsFresh(g: Game, luck: Luck)
    requires StreetDue(g) && |luck.cards| >= 3
    ensures var g2 := Play(g, StreetEvents(g, luck));
      && g2.hand.Some? && g2.hand.value.highest == 0 && g2.hand.value.lastRaise == 0
      && NewHands.FreshRound(g2.hand.value)
  {
    hide Play, Effect, StreetEvents;
    StreetIsNew(g, luck);
    var street := StreetEvents(g, luck)[1];
    RoundEnds(g);
    PlayTwo(g, BettingRoundEnded, street);
    assert StreetEvents(g, luck) == [BettingRoundEnded, street];
    DealtIsFresh(EndRound(g), street);
  }
}
