/** Which five-card hand beats which, told by the cards. */
module Ranking {
  import opened Collections
  import opened Cards
  import opened Eval

  // ── Kinds of hands ────────────────────────────────────────────────────────

  function Counts(cards: seq<Card>): multiset<Rank>
  {
    multiset(RanksOf(cards))
  }

  ghost predicate HasRun(cards: seq<Card>)
  {
    exists hi: Rank :: IsRun(Counts(cards), hi)
  }

  ghost predicate IsStraightFlush(cards: seq<Card>)
  {
    IsFlush(cards) && HasRun(cards)
  }

  predicate HasFour(cards: seq<Card>)
  {
    Grouped(Counts(cards), 4)
  }

  predicate IsFull(cards: seq<Card>)
  {
    Grouped(Counts(cards), 3) && Grouped(Counts(cards), 2)
  }

  predicate HasThree(cards: seq<Card>)
  {
    Grouped(Counts(cards), 3)
  }

  predicate HasTwoPair(cards: seq<Card>)
  {
    GroupedTwice(Counts(cards), 2)
  }

  predicate HasPair(cards: seq<Card>)
  {
    Grouped(Counts(cards), 2)
  }

  lemma HigherFieldWins(v: Worth, w: Worth)
    requires |v.tiebreak| == 5 && |w.tiebreak| == 5 && Fields(v)[0] < Fields(w)[0]
    ensures Pack(v) < Pack(w)
  {
    hide Pack;
    assert LexAt(Fields(v), Fields(w), 0);
    FirstDifferenceDecides(v, w, 0);
  }

  lemma RunTopIff(cards: seq<Card>)
    ensures RunTop(Counts(cards)).Some? <==> HasRun(cards)
  {
  }

  /** A hand of a better kind wins, whatever its ranks: straight flush over four of a kind over full house
      over flush over straight over three of a kind over two pair over one pair over none of these. */
  lemma BetterKindWins(a: seq<Card>, b: seq<Card>)
    requires |a| == |b| == 5
    ensures IsStraightFlush(b) && !IsStraightFlush(a) ==> Score(a) < Score(b)
    ensures HasFour(b) && !HasFour(a) && !IsStraightFlush(a) ==> Score(a) < Score(b)
    ensures IsFull(b) && !IsFull(a) && !HasFour(a) && !IsStraightFlush(a) ==> Score(a) < Score(b)
    ensures IsFlush(b) && !IsFlush(a) && !IsFull(a) && !HasFour(a) ==> Score(a) < Score(b)
    ensures HasRun(b) && !HasRun(a) && !IsFlush(a) && !IsFull(a) && !HasFour(a) ==> Score(a) < Score(b)
    ensures HasThree(b) && !HasThree(a) && !HasRun(a) && !IsFlush(a) && !HasFour(a) ==> Score(a) < Score(b)
    ensures HasTwoPair(b) && !HasTwoPair(a) && !HasThree(a) && !HasRun(a) && !IsFlush(a) && !HasFour(a) ==>
      Score(a) < Score(b)
    ensures HasPair(b) && !HasPair(a) && !HasThree(a) && !HasRun(a) && !IsFlush(a) && !HasFour(a) ==>
      Score(a) < Score(b)
  {
    hide Pack, Ordered, IsFlush, Grouped, GroupedTwice, RunTop, HasRun, RanksOf;
    RunTopIff(a);
    RunTopIff(b);
    TwoPairsArePairs(a);
    var v, w := Appraise(a), Appraise(b);
    if Fields(v)[0] < Fields(w)[0] {
      HigherFieldWins(v, w);
    }
  }

  lemma TwoPairsArePairs(cards: seq<Card>)
    ensures HasTwoPair(cards) ==> HasPair(cards)
  {
  }

  // ── Straights ─────────────────────────────────────────────────────────────

  lemma OneTop(cards: seq<Card>, hi: Rank, lo: Rank)
    requires |cards| == 5 && IsRun(Counts(cards), hi) && IsRun(Counts(cards), lo)
    ensures hi == lo
  {
    hide IsRun, LooksLikeRun, Run;
    var ranks := SortedBy(RanksOf(cards), ByRank());
    SameSize(ranks, RanksOf(cards));
    RunTopAtLeast(Counts(cards), hi);
    RunTopAtLeast(Counts(cards), lo);
    SortedRun(ranks, hi);
    SortedRun(ranks, lo);
    RunsDiffer(hi, lo);
  }

  lemma RunTopAtLeast(m: multiset<Rank>, hi: Rank)
    requires IsRun(m, hi)
    ensures hi >= 3
  {
  }

  lemma RunsHaveNoGroups(cards: seq<Card>, hi: Rank)
    requires |cards| == 5 && IsRun(Counts(cards), hi)
    ensures !HasFour(cards) && !HasThree(cards) && !HasPair(cards)
  {
    hide RanksOf, Run;
    RunFillsHand(Counts(cards), hi);
    RunRanksDiffer(hi);
    forall r: Rank ensures Counts(cards)[r] <= 1 {
      CountedOnce(Run(hi), r);
    }
  }

  lemma RunRanksDiffer(hi: Rank)
    requires hi >= 3
    ensures Distinct(Run(hi))
  {
  }

  /** The straight with the higher top wins; the wheel, topped by its five, is the lowest. */
  lemma HigherStraightWins(a: seq<Card>, b: seq<Card>, hi: Rank, lo: Rank)
    requires |a| == |b| == 5 && IsRun(Counts(a), lo) && IsRun(Counts(b), hi) && (IsFlush(a) <==> IsFlush(b))
    ensures Score(a) < Score(b) <==> lo < hi
    ensures Score(a) == Score(b) <==> lo == hi
  {
    hide Pack, Ordered, IsFlush, IsRun, Counts;
    RunWorthOf(a, lo);
    RunWorthOf(b, hi);
    RunsCompare(Appraise(a), Appraise(b), lo, hi);
    RunsCompare(Appraise(b), Appraise(a), hi, lo);
  }

  lemma RunWorthOf(cards: seq<Card>, hi: Rank)
    requires |cards| == 5 && IsRun(Counts(cards), hi)
    ensures Appraise(cards) == RunWorth(if IsFlush(cards) then StraightFlush else Straight, hi)
  {
    hide Ordered, IsRun, IsFlush;
    RunsHaveNoGroups(cards, hi);
    RunTopIff(cards);
    assert IsRun(Counts(cards), hi);
    OneTop(cards, hi, RunTop(Counts(cards)).value);
  }

  lemma RunsCompare(v: Worth, w: Worth, lo: Rank, hi: Rank)
    requires v.category == w.category && v == RunWorth(v.category, lo) && w == RunWorth(w.category, hi)
    ensures lo < hi ==> Pack(v) < Pack(w)
    ensures lo == hi ==> Pack(v) == Pack(w)
  {
    hide Pack;
    if lo < hi {
      assert LexAt(Fields(v), Fields(w), 1);
      FirstDifferenceDecides(v, w, 1);
    }
  }

  // ── Ties of one kind ──────────────────────────────────────────────────────

  /** t lists the ranks of the hand, those that occur more often first, then the higher ones. */
  ghost predicate Spells(cards: seq<Card>, t: seq<Rank>)
  {
    && |t| == 5 && multiset(t) == Counts(cards)
    && forall i, j | 0 <= i < j < 5 ::
      || Counts(cards)[t[i]] > Counts(cards)[t[j]]
      || (Counts(cards)[t[i]] == Counts(cards)[t[j]] && t[i] >= t[j])
  }

  /** Neither has a straight, and they have the same groups and are both suited or neither. */
  predicate SameGroups(a: seq<Card>, b: seq<Card>)
  {
    && (IsFlush(a) <==> IsFlush(b)) && (HasFour(a) <==> HasFour(b)) && (HasThree(a) <==> HasThree(b))
    && (HasTwoPair(a) <==> HasTwoPair(b)) && (HasPair(a) <==> HasPair(b))
  }

  /** Smaller where they first differ. */
  predicate Below(s: seq<Rank>, t: seq<Rank>)
    requires |s| == |t| == 5
  {
    exists k :: 0 <= k < 5 && s[k] < t[k] && forall i | 0 <= i < k :: s[i] == t[i]
  }

  lemma SpellingIsOrdered(cards: seq<Card>, t: seq<Rank>)
    requires |cards| == 5 && Spells(cards, t)
    ensures t == Ordered(RanksOf(cards), ByGroup(Counts(cards)))
  {
    var m := Counts(cards);
    KeysAreInjective(m);
    var keys := Keys(t, ByGroup(m));
    forall i, j | 0 <= i < j < |keys| ensures keys[i] <= keys[j] {
      assert m[t[i]] > m[t[j]] || (m[t[i]] == m[t[j]] && t[i] >= t[j]);
    }
    ArrangementUnique(t, SortedBy(RanksOf(cards), ByGroup(m)), ByGroup(m));
  }

  /** Five different cards of one suit have five different ranks. */
  lemma SuitedRanksDiffer(cards: seq<Card>, r: Rank)
    requires |cards| == 5 && Distinct(cards) && IsFlush(cards)
    ensures Counts(cards)[r] <= 1
  {
    var ranks := RanksOf(cards);
    forall i, j | 0 <= i < j < 5 ensures ranks[i] != ranks[j] {
      assert cards[i] in cards && cards[j] in cards && SuitOf(cards[i]) == SuitOf(cards[j]);
      assert cards[i] == 13 * SuitOf(cards[i]) + RankOf(cards[i]);
      assert cards[j] == 13 * SuitOf(cards[j]) + RankOf(cards[j]);
    }
    CountedOnce(ranks, r);
  }

  lemma {:induction false} CountedOnce(ranks: seq<Rank>, r: Rank)
    requires Distinct(ranks)
    ensures multiset(ranks)[r] <= 1
  {
    if ranks != [] {
      var n := |ranks| - 1;
      CountedOnce(ranks[..n], r);
      assert ranks == ranks[..n] + [ranks[n]];
      assert ranks[n] !in ranks[..n];
    }
  }

  lemma SuitedSpelling(cards: seq<Card>, t: seq<Rank>)
    requires |cards| == 5 && Distinct(cards) && IsFlush(cards) && Spells(cards, t)
    ensures t == Ordered(RanksOf(cards), ByRank())
  {
    var m := Counts(cards);
    KeysAreInjective(m);
    var keys := Keys(t, ByRank());
    forall i, j | 0 <= i < j < |keys| ensures keys[i] <= keys[j] {
      assert t[i] in multiset(t) && t[j] in multiset(t);
      SuitedRanksDiffer(cards, t[i]);
      SuitedRanksDiffer(cards, t[j]);
    }
    ArrangementUnique(t, SortedBy(RanksOf(cards), ByRank()), ByRank());
  }

  lemma SpellingIsTiebreak(cards: seq<Card>, t: seq<Rank>)
    requires |cards| == 5 && Distinct(cards) && !HasRun(cards) && Spells(cards, t)
    ensures Appraise(cards).tiebreak == t
  {
    hide Ordered, IsFlush, Grouped, GroupedTwice, HasRun, Spells, RunTop;
    RunTopIff(cards);
    SpellingIsOrdered(cards, t);
    if IsFlush(cards) {
      SuitedSpelling(cards, t);
    }
  }

  lemma SameKind(a: seq<Card>, b: seq<Card>)
    requires |a| == |b| == 5 && !HasRun(a) && !HasRun(b) && SameGroups(a, b)
    ensures Appraise(a).category == Appraise(b).category
  {
    hide Ordered, IsFlush, Grouped, GroupedTwice, HasRun, RunTop;
    RunTopIff(a);
    RunTopIff(b);
  }

  lemma SameLevelTies(v: Worth, w: Worth)
    requires |v.tiebreak| == 5 && |w.tiebreak| == 5 && v.category == w.category
    ensures Pack(v) < Pack(w) <==> Below(v.tiebreak, w.tiebreak)
    ensures Pack(v) == Pack(w) <==> v.tiebreak == w.tiebreak
  {
    hide Pack;
    PackedOrderIsLexicographic(v, w);
    var s, t := v.tiebreak, w.tiebreak;
    if Below(s, t) {
      var k :| 0 <= k < 5 && s[k] < t[k] && forall i | 0 <= i < k :: s[i] == t[i];
      assert LexAt(Fields(v), Fields(w), k + 1);
    }
    if k: nat :| LexAt(Fields(v), Fields(w), k) {
      assert forall i | 0 <= i < k :: Fields(v)[i] == Fields(w)[i];
      assert forall i | 0 <= i < k - 1 :: s[i] == Fields(v)[i + 1] && t[i] == Fields(w)[i + 1];
      assert s[k - 1] < t[k - 1];
    }
  }

  /** Two hands of five different cards, of the same kind and no straights, compare by their groups: the
      largest group's rank first, the higher of two equally large ones before the lower. */
  lemma TiesCompareByGroups(a: seq<Card>, b: seq<Card>, s: seq<Rank>, t: seq<Rank>)
    requires |a| == |b| == 5 && Distinct(a) && Distinct(b) && !HasRun(a) && !HasRun(b) && SameGroups(a, b)
    requires Spells(a, s) && Spells(b, t)
    ensures Score(a) < Score(b) <==> Below(s, t)
    ensures Score(a) == Score(b) <==> s == t
  {
    hide Pack, Appraise, Spells, HasRun, SameGroups, Below;
    SpellingIsTiebreak(a, s);
    SpellingIsTiebreak(b, t);
    SameKind(a, b);
    SameLevelTies(Appraise(a), Appraise(b));
    SpelledInFive(a, s);
    SpelledInFive(b, t);
  }

  lemma SpelledInFive(cards: seq<Card>, t: seq<Rank>)
    requires Spells(cards, t)
    ensures |t| == 5
  {
  }

  /** Every hand can be spelled. */
  lemma SpellingExists(cards: seq<Card>) returns (t: seq<Rank>)
    requires |cards| == 5
    ensures Spells(cards, t)
  {
    var m := Counts(cards);
    t := SortedBy(RanksOf(cards), ByGroup(m));
    SameSize(t, RanksOf(cards));
    var keys := Keys(t, ByGroup(m));
    forall i, j | 0 <= i < j < 5 ensures m[t[i]] > m[t[j]] || (m[t[i]] == m[t[j]] && t[i] >= t[j]) {
      assert keys[i] <= keys[j];
    }
  }

  // ── Hands as they are dealt ───────────────────────────────────────────────

  lemma RanksSpelled(cards: seq<Card>, ranks: seq<Rank>)
    requires |cards| == |ranks| == 5 && forall i | 0 <= i < 5 :: RankOf(cards[i]) == ranks[i]
    ensures RanksOf(cards) == ranks
  {
  }

  lemma OneSuit(cards: seq<Card>)
    requires forall c | c in cards :: c < 13
    ensures IsFlush(cards)
  {
  }

  lemma TwoSuits(cards: seq<Card>, c: Card, d: Card)
    requires c in cards && d in cards && c < 13 <= d
    ensures !IsFlush(cards)
  {
  }

  /** Without a five or a ten there is no straight. */
  lemma NoFiveNoTen(cards: seq<Card>, ranks: seq<Rank>)
    requires |cards| == |ranks| == 5 && (forall i | 0 <= i < 5 :: RankOf(cards[i]) == ranks[i])
    requires 3 !in ranks && 8 !in ranks
    ensures !HasRun(cards)
  {
    hide IsRun;
    RanksSpelled(cards, ranks);
    forall hi: Rank ensures !IsRun(Counts(cards), hi) {
      RunsHoldFiveOrTen(ranks, hi);
    }
  }

  lemma RunsHoldFiveOrTen(ranks: seq<Rank>, hi: Rank)
    requires 3 !in ranks && 8 !in ranks
    ensures !IsRun(multiset(ranks), hi)
  {
    if hi >= 3 {
      var i := if hi == 3 then 1 else if hi < 8 then hi - 3 else hi - 8;
      assert Run(hi)[i] == 3 || Run(hi)[i] == 8;
    }
  }

  lemma Nothing(cards: seq<Card>)
    requires cards == [12, 23, 9, 5, 4]
    ensures !HasRun(cards) && !IsFlush(cards) && !HasFour(cards) && !HasThree(cards) && !HasPair(cards)
  {
    hide IsFlush, IsRun, RanksOf, HasRun;
    var ranks: seq<Rank> := [12, 10, 9, 5, 4];
    RanksSpelled(cards, ranks);
    NoFiveNoTen(cards, ranks);
    TwoSuits(cards, 12, 23);
    forall r: Rank ensures Counts(cards)[r] <= 1 {
      CountedOnce(ranks, r);
    }
  }

  lemma Aces(cards: seq<Card>)
    requires cards == [12, 25, 9, 5, 4]
    ensures !HasRun(cards) && !IsFlush(cards) && !HasFour(cards) && !HasThree(cards)
    ensures HasPair(cards) && !HasTwoPair(cards)
  {
    hide IsFlush, IsRun, RanksOf, HasRun;
    var ranks: seq<Rank> := [12, 12, 9, 5, 4];
    RanksSpelled(cards, ranks);
    NoFiveNoTen(cards, ranks);
    TwoSuits(cards, 12, 25);
    assert multiset(ranks)[12] == 2;
  }

  lemma AcesAndJacks(cards: seq<Card>)
    requires cards == [12, 25, 9, 22, 4]
    ensures !HasRun(cards) && !IsFlush(cards) && !HasFour(cards) && !HasThree(cards) && HasTwoPair(cards)
  {
    hide IsFlush, IsRun, RanksOf, HasRun;
    var ranks: seq<Rank> := [12, 12, 9, 9, 4];
    RanksSpelled(cards, ranks);
    NoFiveNoTen(cards, ranks);
    TwoSuits(cards, 12, 25);
    assert multiset(ranks)[12] == 2 && multiset(ranks)[9] == 2;
  }

  lemma ThreeAces(cards: seq<Card>)
    requires cards == [12, 25, 38, 9, 4]
    ensures !HasRun(cards) && !IsFlush(cards) && !HasFour(cards) && HasThree(cards) && !HasPair(cards)
  {
    hide IsFlush, IsRun, RanksOf, HasRun;
    var ranks: seq<Rank> := [12, 12, 12, 9, 4];
    RanksSpelled(cards, ranks);
    NoFiveNoTen(cards, ranks);
    TwoSuits(cards, 12, 25);
    assert multiset(ranks)[12] == 3;
  }

  lemma AcesFull(cards: seq<Card>)
    requires cards == [12, 25, 38, 9, 22]
    ensures !HasRun(cards) && !HasFour(cards) && IsFull(cards)
  {
    hide IsFlush, IsRun, RanksOf, HasRun;
    var ranks: seq<Rank> := [12, 12, 12, 9, 9];
    RanksSpelled(cards, ranks);
    NoFiveNoTen(cards, ranks);
    assert multiset(ranks)[12] == 3 && multiset(ranks)[9] == 2;
  }

  lemma FourAces(cards: seq<Card>)
    requires cards == [12, 25, 38, 51, 9]
    ensures !HasRun(cards) && HasFour(cards)
  {
    hide IsFlush, IsRun, RanksOf, HasRun;
    var ranks: seq<Rank> := [12, 12, 12, 12, 9];
    RanksSpelled(cards, ranks);
    NoFiveNoTen(cards, ranks);
    assert multiset(ranks)[12] == 4;
  }

  lemma EvenFlush(cards: seq<Card>)
    requires cards == [0, 2, 4, 6, 9]
    ensures IsFlush(cards) && !HasRun(cards) && !HasFour(cards) && !HasThree(cards)
  {
    hide IsRun, IsFlush, RanksOf, HasRun;
    var ranks: seq<Rank> := [0, 2, 4, 6, 9];
    RanksSpelled(cards, ranks);
    OneSuit(cards);
    NoFiveNoTen(cards, ranks);
    forall r: Rank ensures Counts(cards)[r] <= 1 {
      CountedOnce(ranks, r);
    }
  }

  lemma RunOf(cards: seq<Card>, hi: Rank)
    requires 3 <= hi && |cards| == 5
    requires forall i | 0 <= i < 5 :: RankOf(cards[i]) == Run(hi)[i]
    ensures HasRun(cards) && IsRun(Counts(cards), hi) && !HasFour(cards) && !HasThree(cards)
  {
    hide Run, RanksOf, IsRun;
    RanksSpelled(cards, Run(hi));
    RunOfItself(hi);
    RunsHaveNoGroups(cards, hi);
  }

  /** One hand of each kind, from nothing up to a straight flush, with the wheel before the straight to the
      six. Cards 0 to 12 are the two to the ace of one suit. */
  function Ladder(k: nat): (cards: seq<Card>)
    requires k < 10
    ensures |cards| == 5
  {
    match k
    case 0 => [12, 23, 9, 5, 4]
    case 1 => [12, 25, 9, 5, 4]
    case 2 => [12, 25, 9, 22, 4]
    case 3 => [12, 25, 38, 9, 4]
    case 4 => [12, 16, 2, 1, 0]
    case 5 => [4, 16, 2, 1, 0]
    case 6 => [0, 2, 4, 6, 9]
    case 7 => [12, 25, 38, 9, 22]
    case 8 => [12, 25, 38, 51, 9]
    case _ => [4, 3, 2, 1, 0]
  }

  lemma LowRungs(k: nat)
    requires k < 4
    ensures Score(Ladder(k)) < Score(Ladder(k + 1))
  {
    hide Score, Counts, HasRun, IsFlush, Grouped, GroupedTwice, IsRun;
    if k == 0 {
      Nothing(Ladder(0));
      Aces(Ladder(1));
    } else if k == 1 {
      Aces(Ladder(1));
      AcesAndJacks(Ladder(2));
    } else if k == 2 {
      AcesAndJacks(Ladder(2));
      ThreeAces(Ladder(3));
    } else {
      ThreeAces(Ladder(3));
      RunOf(Ladder(4), 3);
    }
    BetterKindWins(Ladder(k), Ladder(k + 1));
  }

  lemma WheelIsLowest()
    ensures Score(Ladder(4)) < Score(Ladder(5))
  {
    hide Score, Counts, HasRun, IsFlush, IsRun;
    RunOf(Ladder(4), 3);
    RunOf(Ladder(5), 4);
    TwoSuits(Ladder(4), 12, 16);
    TwoSuits(Ladder(5), 4, 16);
    HigherStraightWins(Ladder(4), Ladder(5), 4, 3);
  }

  lemma HighRungs(k: nat)
    requires 5 <= k < 9
    ensures Score(Ladder(k)) < Score(Ladder(k + 1))
  {
    hide Score, Counts, HasRun, IsFlush, Grouped, GroupedTwice, IsRun;
    if k == 5 {
      RunOf(Ladder(5), 4);
      TwoSuits(Ladder(5), 4, 16);
      EvenFlush(Ladder(6));
    } else if k == 6 {
      EvenFlush(Ladder(6));
      AcesFull(Ladder(7));
    } else if k == 7 {
      AcesFull(Ladder(7));
      FourAces(Ladder(8));
    } else {
      FourAces(Ladder(8));
      RunOf(Ladder(9), 4);
      OneSuit(Ladder(9));
    }
    BetterKindWins(Ladder(k), Ladder(k + 1));
  }

  /** Each of these hands beats the one before. */
  lemma HandsInOrder(k: nat)
    requires k < 9
    ensures Score(Ladder(k)) < Score(Ladder(k + 1))
  {
    hide Score, Ladder;
    if k < 4 {
      LowRungs(k);
    } else if k == 4 {
      WheelIsLowest();
    } else {
      HighRungs(k);
    }
  }
}
