/** Hand evaluation: five cards to a comparable rank, and the best five of a larger pool. */
module Eval {
  import opened Collections
  import opened Cards

  type Rank = r: nat | r < 13

  function RankOf(c: Card): Rank { c % 13 }

  function SuitOf(c: Card): nat { c / 13 }

  function RanksOf(cards: seq<Card>): (r: seq<Rank>)
    ensures |r| == |cards|
  {
    Keys(cards, RankOf)
  }

  // ── What a five-card hand is worth, declaratively ─────────────────────────

  datatype Category =
    HighCard | OnePair | TwoPair | ThreeOfAKind | Straight | Flush | FullHouse | FourOfAKind | StraightFlush

  function Level(c: Category): nat
  {
    match c
    case HighCard => 0 case OnePair => 1 case TwoPair => 2 case ThreeOfAKind => 3 case Straight => 4
    case Flush => 5 case FullHouse => 6 case FourOfAKind => 7 case StraightFlush => 8
  }

  predicate IsFlush(cards: seq<Card>)
  {
    forall c, d | c in cards && d in cards :: SuitOf(c) == SuitOf(d)
  }

  /** The straight with hi on top, or the five-high wheel with the ace at the bottom. */
  function Run(hi: Rank): (r: seq<Rank>)
    requires 3 <= hi
    ensures |r| == 5
  {
    if hi == 3 then [12, 3, 2, 1, 0] else [hi, hi - 1, hi - 2, hi - 3, hi - 4]
  }

  predicate IsRun(m: multiset<Rank>, hi: Rank)
  {
    3 <= hi && forall i | 0 <= i < 5 :: Run(hi)[i] in m
  }

  predicate Grouped(m: multiset<Rank>, n: nat)
  {
    exists r: Rank :: m[r] == n
  }

  predicate GroupedTwice(m: multiset<Rank>, n: nat)
  {
    exists r: Rank, q: Rank :: r != q && m[r] == n && m[q] == n
  }

  /** Ranks that occur more often come first, then higher ranks. */
  function ByGroup(m: multiset<Rank>): Rank -> int
  {
    r => -(13 * m[r] + r)
  }

  function ByRank(): Rank -> int
  {
    r => -r
  }

  datatype Worth = Worth(category: Category, tiebreak: seq<Rank>)

  function RunWorth(c: Category, hi: Rank): Worth
  {
    Worth(c, [hi, 0, 0, 0, 0])
  }

  /** The top of the straight, if the ranks form one. */
  ghost function RunTop(m: multiset<Rank>): (top: Option<Rank>)
    ensures top.Some? ==> IsRun(m, top.value)
    ensures top.None? ==> forall hi: Rank :: !IsRun(m, hi)
  {
    if exists hi: Rank :: IsRun(m, hi) then
      var hi: Rank :| IsRun(m, hi);
      Some(hi)
    else None
  }

  function Ordered(ranks: seq<Rank>, key: Rank -> int): (r: seq<Rank>)
    ensures |r| == |ranks|
  {
    SameSize(SortedBy(ranks, key), ranks);
    SortedBy(ranks, key)
  }

  ghost function Classify(flush: bool, m: multiset<Rank>, grouped: seq<Rank>, descending: seq<Rank>): Worth
  {
    if flush && RunTop(m).Some? then RunWorth(StraightFlush, RunTop(m).value)
    else if Grouped(m, 4) then Worth(FourOfAKind, grouped)
    else if Grouped(m, 3) && Grouped(m, 2) then Worth(FullHouse, grouped)
    else if flush then Worth(Flush, descending)
    else if RunTop(m).Some? then RunWorth(Straight, RunTop(m).value)
    else if Grouped(m, 3) then Worth(ThreeOfAKind, grouped)
    else if GroupedTwice(m, 2) then Worth(TwoPair, grouped)
    else if Grouped(m, 2) then Worth(OnePair, grouped)
    else Worth(HighCard, grouped)
  }

  ghost function Appraise(cards: seq<Card>): (w: Worth)
    requires |cards| == 5
    ensures |w.tiebreak| == 5
  {
    var ranks := RanksOf(cards);
    var m := multiset(ranks);
    Classify(IsFlush(cards), m, Ordered(ranks, ByGroup(m)), Ordered(ranks, ByRank()))
  }

  // ── The packed rank ───────────────────────────────────────────────────────

  /** A 64-bit word: the category in its top four bits, then five four-bit tiebreakers. */
  type HandRank = r: nat | r < 0x1_0000_0000_0000_0000

  /** The word as a number; RankBits has it as shifted and joined bits. */
  function Pack(w: Worth): HandRank
    requires |w.tiebreak| == 5
  {
      Level(w.category) * 0x1000_0000_0000_0000
    + (w.tiebreak[0] as int) * 0x0100_0000_0000_0000
    + (w.tiebreak[1] as int) * 0x0010_0000_0000_0000
    + (w.tiebreak[2] as int) * 0x0001_0000_0000_0000
    + (w.tiebreak[3] as int) * 0x0000_1000_0000_0000
    + (w.tiebreak[4] as int) * 0x0000_0100_0000_0000
  }

  /** a comes before b: they differ, and a is smaller where they first do. */
  predicate LexBelow(a: seq<nat>, b: seq<nat>)
  {
    exists k :: 0 <= k < |a| && LexAt(a, b, k)
  }

  predicate LexAt(a: seq<nat>, b: seq<nat>, k: nat)
  {
    k < |a| && k < |b| && a[k] < b[k] && forall i | 0 <= i < k :: a[i] == b[i]
  }

  function Fields(w: Worth): seq<nat>
  {
    [Level(w.category)] + w.tiebreak
  }

  /** One integer comparison of packed ranks decides category first, then each tiebreaker in turn. */
  lemma PackedOrderIsLexicographic(v: Worth, w: Worth)
    requires |v.tiebreak| == 5 && |w.tiebreak| == 5
    ensures Pack(v) < Pack(w) <==> LexBelow(Fields(v), Fields(w))
    ensures Pack(v) == Pack(w) <==> v == w
  {
    var a, b := Fields(v), Fields(w);
    forall k: nat | LexAt(a, b, k) ensures Pack(v) < Pack(w) {
      FirstDifferenceDecides(v, w, k);
    }
    var k: nat := if a[0] != b[0] then 0 else if a[1] != b[1] then 1 else if a[2] != b[2] then 2
      else if a[3] != b[3] then 3 else if a[4] != b[4] then 4 else if a[5] != b[5] then 5 else 6;
    if k < 6 && a[k] < b[k] {
      assert LexAt(a, b, k);
    } else if k < 6 {
      assert LexAt(b, a, k);
      FirstDifferenceDecides(w, v, k);
    } else {
      assert a == b;
      assert v.tiebreak == a[1..] && w.tiebreak == b[1..];
    }
  }

  lemma FirstDifferenceDecides(v: Worth, w: Worth, k: nat)
    requires |v.tiebreak| == 5 && |w.tiebreak| == 5
    requires LexAt(Fields(v), Fields(w), k)
    ensures Pack(v) < Pack(w)
  {
    var a, b := Fields(v), Fields(w);
    assert forall i | 0 <= i < k :: a[i] == b[i];
    assert a[0] == Level(v.category) && a[1] == v.tiebreak[0] && a[2] == v.tiebreak[1]
        && a[3] == v.tiebreak[2] && a[4] == v.tiebreak[3] && a[5] == v.tiebreak[4];
    assert b[0] == Level(w.category) && b[1] == w.tiebreak[0] && b[2] == w.tiebreak[1]
        && b[3] == w.tiebreak[2] && b[4] == w.tiebreak[3] && b[5] == w.tiebreak[4];
    if k == 0 {} else if k == 1 {} else if k == 2 {} else if k == 3 {} else if k == 4 {} else {}
  }

  ghost function Score(cards: seq<Card>): HandRank
    requires |cards| == 5
  {
    Pack(Appraise(cards))
  }

  // ── The order of the cards is irrelevant ──────────────────────────────────

  /** Two arrangements of the same ranks, by group or by rank, are the same sequence. */
  lemma OrderedUnique(a: seq<Rank>, b: seq<Rank>, key: Rank -> int)
    requires multiset(a) == multiset(b)
    requires forall x: Rank, y: Rank :: key(x) == key(y) ==> x == y
    ensures Ordered(a, key) == Ordered(b, key)
  {
    ArrangementUnique(SortedBy(a, key), SortedBy(b, key), key);
  }

  lemma KeysAreInjective(m: multiset<Rank>)
    ensures forall x: Rank, y: Rank :: ByGroup(m)(x) == ByGroup(m)(y) ==> x == y
    ensures forall x: Rank, y: Rank :: ByRank()(x) == ByRank()(y) ==> x == y
  {
    forall x: Rank, y: Rank | ByGroup(m)(x) == ByGroup(m)(y) ensures x == y {
      assert 13 * m[x] + x == 13 * m[y] + y;
    }
  }

  /** A hand is worth the same however its five cards are arranged. */
  lemma AppraiseIgnoresOrder(a: seq<Card>, b: seq<Card>)
    requires |a| == 5 && multiset(a) == multiset(b)
    ensures |b| == 5 && Appraise(a) == Appraise(b)
  {
    SameSize(a, b);
    SameElemsSameKeys(a, b, RankOf);
    var m := multiset(RanksOf(a));
    KeysAreInjective(m);
    OrderedUnique(RanksOf(a), RanksOf(b), ByGroup(m));
    OrderedUnique(RanksOf(a), RanksOf(b), ByRank());
    FlushIgnoresOrder(a, b);
  }

  lemma FlushIgnoresOrder(a: seq<Card>, b: seq<Card>)
    requires multiset(a) == multiset(b)
    ensures IsFlush(a) == IsFlush(b)
  {
    assert forall c: Card :: c in a <==> c in multiset(a);
    assert forall c: Card :: c in b <==> c in multiset(b);
  }

  // ── eval5 ─────────────────────────────────────────────────────────────────

  /** Five cards whose ranks include a run consist of that run. */
  lemma RunFillsHand(m: multiset<Rank>, hi: Rank)
    requires |m| == 5 && IsRun(m, hi)
    ensures m == multiset(Run(hi))
  {
    var run := Run(hi);
    var part := multiset{run[0], run[1], run[2], run[3], run[4]};
    assert run == [run[0], run[1], run[2], run[3], run[4]];
    assert run[0] in m && run[1] in m && run[2] in m && run[3] in m && run[4] in m;
    FiveOfFive(m, part);
  }

  lemma FiveOfFive(m: multiset<Rank>, part: multiset<Rank>)
    requires |m| == |part| == 5
    requires forall r: Rank :: part[r] <= m[r]
    ensures m == part
  {
    assert part <= m;
    assert m == part + (m - part);
    assert |m - part| == 0;
  }

  lemma DescendingUnique(a: seq<Rank>, b: seq<Rank>)
    requires multiset(a) == multiset(b)
    requires Ascending(Keys(a, ByRank())) && Ascending(Keys(b, ByRank()))
    ensures a == b
  {
    KeysAreInjective(multiset{});
    ArrangementUnique(a, b, ByRank());
  }

  lemma RunsDescend(hi: Rank)
    requires 3 <= hi
    ensures Ascending(Keys(Run(hi), ByRank()))
  {
    var k := Keys(Run(hi), ByRank());
    assert k[0] <= k[1] <= k[2] <= k[3] <= k[4];
    forall i, j | 0 <= i < j < 5 ensures k[i] <= k[j] {
      if i == 0 {} else if i == 1 {} else if i == 2 {} else {}
    }
  }

  predicate LooksLikeRun(ranks: seq<Rank>)
    requires |ranks| == 5
  {
    || (ranks[0] as int == ranks[4] as int + 4 && ranks[0] != ranks[1] && ranks[1] != ranks[2]
        && ranks[2] != ranks[3] && ranks[3] != ranks[4])
    || (ranks[0] == 12 && ranks[1] == 3 && ranks[2] == 2 && ranks[3] == 1 && ranks[4] == 0)
  }

  /** Sorted downwards, a hand with a run on hi is exactly that run. */
  lemma RunLooks(hi: Rank)
    requires hi >= 3
    ensures |Run(hi)| == 5 && LooksLikeRun(Run(hi))
  {
  }

  lemma SortedRun(ranks: seq<Rank>, hi: Rank)
    requires |ranks| == 5 && Ascending(Keys(ranks, ByRank()))
    requires IsRun(multiset(ranks), hi)
    ensures ranks == Run(hi) && LooksLikeRun(ranks)
  {
    hide LooksLikeRun, Run;
    RunLooks(hi);
    RunFillsHand(multiset(ranks), hi);
    RunsDescend(hi);
    DescendingUnique(ranks, Run(hi));
  }

  lemma RunFound(ranks: seq<Rank>, hi: Rank)
    requires 3 <= hi && ranks == Run(hi)
    ensures RunTop(multiset(ranks)) == Some(hi)
  {
    hide Run, LooksLikeRun;
    RunsDescend(hi);
    RunOfItself(hi);
    SortedRun(ranks, RunTop(multiset(ranks)).value);
    RunsDiffer(hi, RunTop(multiset(ranks)).value);
  }

  lemma RunOfItself(hi: Rank)
    requires 3 <= hi
    ensures IsRun(multiset(Run(hi)), hi)
  {
    assert forall i | 0 <= i < 5 :: Run(hi)[i] in multiset(Run(hi));
  }

  lemma RunsDiffer(a: Rank, b: Rank)
    requires 3 <= a && 3 <= b && Run(a) == Run(b)
    ensures a == b
  {
    assert Run(a)[1] == Run(b)[1];
  }

  /** Whether five descending ranks form a straight, and its top. */
  method DetectStraight(ranks: seq<Rank>) returns (found: bool, hi: Rank)
    requires |ranks| == 5 && Ascending(Keys(ranks, ByRank()))
    ensures found <==> RunTop(multiset(ranks)).Some?
    ensures found ==> RunTop(multiset(ranks)) == Some(hi)
  {
    ghost var keys := Keys(ranks, ByRank());
    assert keys[0] <= keys[1] <= keys[2] <= keys[3] <= keys[4];
    if ranks[0] - ranks[4] == 4 && ranks[0] != ranks[1] && ranks[1] != ranks[2]
      && ranks[2] != ranks[3] && ranks[3] != ranks[4] {
      RunFound(ranks, ranks[0]);
      return true, ranks[0];
    }
    if ranks[0] == 12 && ranks[1] == 3 && ranks[2] == 2 && ranks[3] == 1 && ranks[4] == 0 {
      RunFound(ranks, 3);
      return true, 3;
    }
    if RunTop(multiset(ranks)).Some? {
      SortedRun(ranks, RunTop(multiset(ranks)).value);
      assert false;
    }
    return false, 0;
  }

  datatype Group = Group(rank: Rank, count: nat)

  /** groups lists every rank of m once, with its multiplicity. */
  ghost predicate GroupsOf(groups: multiset<Group>, m: multiset<Rank>)
  {
    forall g: Group :: groups[g] == if g.count == m[g.rank] && g.count > 0 then 1 else 0
  }

  function Largest(): Group -> int
  {
    (g: Group) => -(13 * g.count + g.rank)
  }

  function Repeat(r: Rank, n: nat): (s: seq<Rank>)
    ensures |s| == n
    ensures multiset(s)[r] == n && forall q: Rank | q != r :: multiset(s)[q] == 0
  {
    if n == 0 then [] else Repeat(r, n - 1) + [r]
  }

  /** Each group's rank as often as it occurs, group after group. */
  function Expand(groups: seq<Group>): seq<Rank>
  {
    if groups == [] then [] else
      Expand(groups[..|groups| - 1]) + Repeat(groups[|groups| - 1].rank, groups[|groups| - 1].count)
  }

  lemma ExpandStep(groups: seq<Group>, r: Rank)
    requires groups != []
    ensures var last := groups[|groups| - 1];
      multiset(Expand(groups))[r]
      == multiset(Expand(groups[..|groups| - 1]))[r] + if last.rank == r then last.count else 0
  {
  }

  lemma {:induction false} ExpandCounts(groups: seq<Group>, r: Rank)
    requires forall i, j | 0 <= i < j < |groups| :: groups[i].rank != groups[j].rank
    ensures forall i | 0 <= i < |groups| && groups[i].rank == r :: multiset(Expand(groups))[r] == groups[i].count
    ensures (forall i | 0 <= i < |groups| :: groups[i].rank != r) ==> multiset(Expand(groups))[r] == 0
  {
    hide Expand;
    if groups == [] {
      NothingExpands();
    } else {
      var rest, n := groups[..|groups| - 1], |groups| - 1;
      ExpandStep(groups, r);
      ExpandCounts(rest, r);
      assert forall i | 0 <= i < n :: groups[i] == rest[i] && groups[i].rank != groups[n].rank;
    }
  }

  lemma NothingExpands()
    ensures Expand([]) == []
  {
  }

  lemma ExpandMembers(groups: seq<Group>, r: Rank)
    requires groups != [] && r in Expand(groups)
    ensures r in Expand(groups[..|groups| - 1]) || r == groups[|groups| - 1].rank
  {
    RepeatIsConstant(groups[|groups| - 1].rank, groups[|groups| - 1].count);
  }

  lemma {:induction false} ExpandsToGroups(groups: seq<Group>, r: Rank)
    requires r in Expand(groups)
    ensures exists i :: 0 <= i < |groups| && groups[i].rank == r
  {
    if groups != [] {
      hide Expand;
      var rest := groups[..|groups| - 1];
      ExpandMembers(groups, r);
      if r in Expand(rest) {
        ExpandsToGroups(rest, r);
        var i :| 0 <= i < |rest| && rest[i].rank == r;
        assert groups[i].rank == r;
      }
    }
  }

  /** Everything expanded before the last group sorts before it. */
  lemma SortsBeforeLast(groups: seq<Group>, m: multiset<Rank>, r: Rank)
    requires groups != [] && r in Expand(groups[..|groups| - 1])
    requires forall i | 0 <= i < |groups| :: groups[i].count == m[groups[i].rank]
    requires Ascending(Keys(groups, Largest()))
    ensures ByGroup(m)(r) <= ByGroup(m)(groups[|groups| - 1].rank)
  {
    var n := |groups| - 1;
    ExpandsToGroups(groups[..n], r);
    var k :| 0 <= k < n && groups[..n][k].rank == r;
    assert Keys(groups, Largest())[k] <= Keys(groups, Largest())[n];
  }

  lemma {:induction false} ExpandKeepsOrder(groups: seq<Group>, m: multiset<Rank>)
    requires forall i | 0 <= i < |groups| :: groups[i].count == m[groups[i].rank]
    requires Ascending(Keys(groups, Largest()))
    ensures Ascending(Keys(Expand(groups), ByGroup(m)))
  {
    hide ByGroup, Largest;
    if groups != [] {
      var n := |groups| - 1;
      assert Keys(groups[..n], Largest()) == Keys(groups, Largest())[..n];
      ExpandKeepsOrder(groups[..n], m);
      var front, tail := Expand(groups[..n]), Repeat(groups[n].rank, groups[n].count);
      var a, b := Keys(front, ByGroup(m)), Keys(tail, ByGroup(m));
      RepeatIsConstant(groups[n].rank, groups[n].count);
      forall i | 0 <= i < |front| ensures a[i] <= ByGroup(m)(groups[n].rank) {
        SortsBeforeLast(groups, m, front[i]);
      }
      KeysOfConcat(front, tail, ByGroup(m));
      AscendingConcat(a, b);
    }
  }

  lemma {:induction false} RepeatIsConstant(r: Rank, n: nat)
    ensures forall i | 0 <= i < n :: Repeat(r, n)[i] == r
  {
    if n > 0 {
      RepeatIsConstant(r, n - 1);
    }
  }

  lemma GroupRanksDiffer(groups: seq<Group>, m: multiset<Rank>)
    requires GroupsOf(multiset(groups), m)
    ensures forall i, j | 0 <= i < j < |groups| :: groups[i].rank != groups[j].rank
    ensures forall i | 0 <= i < |groups| :: groups[i].count == m[groups[i].rank] > 0
  {
    assert forall i | 0 <= i < |groups| :: groups[i] in multiset(groups);
    forall i, j | 0 <= i < j < |groups| ensures groups[i] != groups[j] {
      CutMultiset(groups, j);
      assert (groups[..j] + groups[j + 1..])[i] == groups[i];
      assert groups[i] in multiset(groups[..j] + groups[j + 1..]);
    }
  }

  lemma GroupPresent(groups: seq<Group>, m: multiset<Rank>, r: Rank) returns (i: nat)
    requires GroupsOf(multiset(groups), m) && m[r] > 0
    ensures i < |groups| && groups[i] == Group(r, m[r])
  {
    assert Group(r, m[r]) in multiset(groups);
    i :| 0 <= i < |groups| && groups[i] == Group(r, m[r]);
  }

  /** Expanding the sorted groups lists the ranks of the hand, larger groups first. */
  lemma GroupsSpellTiebreak(groups: seq<Group>, ranks: seq<Rank>)
    requires GroupsOf(multiset(groups), multiset(ranks)) && Ascending(Keys(groups, Largest()))
    ensures Expand(groups) == Ordered(ranks, ByGroup(multiset(ranks)))
  {
    var m := multiset(ranks);
    GroupRanksDiffer(groups, m);
    ExpandKeepsOrder(groups, m);
    forall r: Rank ensures multiset(Expand(groups))[r] == m[r] {
      ExpandCounts(groups, r);
      if m[r] > 0 {
        var i := GroupPresent(groups, m, r);
      }
    }
    assert multiset(Expand(groups)) == m;
    KeysAreInjective(m);
    ArrangementUnique(Expand(groups), SortedBy(ranks, ByGroup(m)), ByGroup(m));
  }

  lemma CountsFit(m: multiset<Rank>, a: Rank, b: Rank, c: Rank)
    requires a != b
    ensures m[a] + m[b] <= |m|
    ensures a != c && b != c ==> m[a] + m[b] + m[c] <= |m|
  {
    var without := m[a := 0][b := 0];
    CountOut(m, a);
    CountOut(m[a := 0], b);
    if a != c && b != c {
      CountOut(without, c);
    }
  }

  lemma CountOut(m: multiset<Rank>, a: Rank)
    ensures |m| == m[a] + |m[a := 0]|
  {
    assert m == multiset{}[a := m[a]] + m[a := 0];
  }

  function Second(groups: seq<Group>): Group
  {
    if |groups| > 1 then groups[1] else Group(0, 0)
  }

  /** The two largest groups decide the category. */
  lemma GroupsDecide(groups: seq<Group>, m: multiset<Rank>)
    requires |m| == 5 && GroupsOf(multiset(groups), m) && Ascending(Keys(groups, Largest()))
    ensures groups != []
    ensures Grouped(m, 4) <==> groups[0].count == 4
    ensures Grouped(m, 3) <==> groups[0].count == 3
    ensures Grouped(m, 2) <==> groups[0].count == 2 || Second(groups).count == 2
    ensures GroupedTwice(m, 2) <==> groups[0].count == 2 && Second(groups).count == 2
    ensures Second(groups).count <= groups[0].count && groups[0].count + Second(groups).count <= 5
  {
    var any :| any in m;
    var at := GroupPresent(groups, m, any);
    GroupRanksDiffer(groups, m);
    var top, second := groups[0], Second(groups);
    forall r: Rank | m[r] > 0
      ensures m[r] <= top.count
      ensures r != top.rank ==> m[r] <= second.count && m[r] + top.count <= 5
    {
      var i := GroupPresent(groups, m, r);
      assert Keys(groups, Largest())[0] <= Keys(groups, Largest())[i];
      if i > 0 {
        assert Keys(groups, Largest())[1] <= Keys(groups, Largest())[i];
        CountsFit(m, top.rank, r, r);
      }
    }
    assert m[top.rank] == top.count && (|groups| > 1 ==> m[second.rank] == second.count && second.rank != top.rank);
    forall r: Rank, q: Rank | r != q && m[r] == 2 && m[q] == 2 ensures top.count == 2 {
      if r != top.rank && q != top.rank {
        CountsFit(m, r, q, top.rank);
      }
    }
  }

  method Eval5(cards: seq<Card>) returns (rank: HandRank)
    requires |cards| == 5
    ensures rank == Score(cards)
  {
    var ranks: seq<Rank> := [];
    var suits: seq<nat> := [];
    for i := 0 to 5
      invariant ranks == RanksOf(cards)[..i]
      invariant |suits| == i && forall k | 0 <= k < i :: suits[k] == SuitOf(cards[k])
    {
      ranks := ranks + [RankOf(cards[i])];
      suits := suits + [SuitOf(cards[i])];
    }
    assert ranks == RanksOf(cards);
    ghost var m := multiset(ranks);
    ranks := SortBy(ranks, ByRank());
    SameSize(ranks, RanksOf(cards));

    var isFlush := suits[0] == suits[1] && suits[1] == suits[2] && suits[2] == suits[3] && suits[3] == suits[4];
    FlushBySuits(cards, suits);
    var isStraight, hi := DetectStraight(ranks);
    DescendingUnique(ranks, Ordered(RanksOf(cards), ByRank()));

    var groups := CountRanks(ranks);
    groups := SortBy(groups, Largest());
    GroupsSpellTiebreak(groups, RanksOf(cards));
    var tb := SpellTiebreak(groups);

    SwitchClassifies(isFlush, isStraight, hi, groups, tb, ranks, m);
    rank := Pack(Switch(isFlush, isStraight, hi, groups[0], Second(groups), tb, ranks));
  }

  /** The category switch, in the order the cases are tried. */
  function Switch(isFlush: bool, isStraight: bool, hi: Rank, top: Group, second: Group,
                  tb: seq<Rank>, ranks: seq<Rank>): (w: Worth)
    requires |tb| == |ranks| == 5
    ensures |w.tiebreak| == 5
  {
    if isFlush && isStraight then RunWorth(StraightFlush, hi)
    else if top.count == 4 then Worth(FourOfAKind, tb)
    else if top.count == 3 && second.count == 2 then Worth(FullHouse, tb)
    else if isFlush then Worth(Flush, ranks)
    else if isStraight then RunWorth(Straight, hi)
    else if top.count == 3 then Worth(ThreeOfAKind, tb)
    else if top.count == 2 && second.count == 2 then Worth(TwoPair, tb)
    else if top.count == 2 then Worth(OnePair, tb)
    else Worth(HighCard, tb)
  }

  lemma SwitchClassifies(isFlush: bool, isStraight: bool, hi: Rank, groups: seq<Group>,
                         tb: seq<Rank>, ranks: seq<Rank>, m: multiset<Rank>)
    requires |m| == |tb| == |ranks| == 5 && GroupsOf(multiset(groups), m) && Ascending(Keys(groups, Largest()))
    requires isStraight <==> RunTop(m).Some?
    requires isStraight ==> RunTop(m) == Some(hi)
    ensures groups != []
    ensures Switch(isFlush, isStraight, hi, groups[0], Second(groups), tb, ranks) == Classify(isFlush, m, tb, ranks)
  {
    GroupsDecide(groups, m);
  }

  lemma FlushBySuits(cards: seq<Card>, suits: seq<nat>)
    requires |cards| == |suits| == 5 && forall k | 0 <= k < 5 :: suits[k] == SuitOf(cards[k])
    ensures IsFlush(cards) <==>
      suits[0] == suits[1] && suits[1] == suits[2] && suits[2] == suits[3] && suits[3] == suits[4]
  {
    assert forall k | 0 <= k < 5 :: cards[k] in cards;
  }

  /** The frequency table of the hand, as a list of groups in ascending rank. */
  method CountRanks(ranks: seq<Rank>) returns (groups: seq<Group>)
    requires |ranks| == 5
    ensures GroupsOf(multiset(groups), multiset(ranks))
  {
    var freq := new nat[13](i => 0);
    for i := 0 to 5
      invariant forall r: Rank :: freq[r] == multiset(ranks[..i])[r]
    {
      freq[ranks[i]] := freq[ranks[i]] + 1;
      assert ranks[..i + 1] == ranks[..i] + [ranks[i]];
    }
    assert ranks[..5] == ranks;
    groups := [];
    for r := 0 to 13
      invariant forall g: Group ::
        multiset(groups)[g] == if g.rank < r && g.count == freq[g.rank] && g.count > 0 then 1 else 0
    {
      if freq[r] > 0 {
        groups := groups + [Group(r, freq[r])];
      }
    }
  }

  /** Each group's rank repeated count times, into five slots. */
  method SpellTiebreak(groups: seq<Group>) returns (tb: seq<Rank>)
    requires |Expand(groups)| == 5
    ensures tb == Expand(groups)
  {
    tb := [0, 0, 0, 0, 0];
    var pos: nat := 0;
    for i := 0 to |groups|
      invariant |tb| == 5 && pos <= 5
      invariant tb[..pos] == Expand(groups[..i])
    {
      ExpandGrows(groups, i + 1);
      assert groups[..i + 1][..i] == groups[..i];
      tb, pos := FillSlots(tb, pos, groups[i]);
    }
    assert groups[..|groups|] == groups;
  }

  method FillSlots(slots: seq<Rank>, start: nat, g: Group) returns (tb: seq<Rank>, pos: nat)
    requires |slots| == 5 && start + g.count <= 5
    ensures |tb| == 5 && pos == start + g.count
    ensures tb[..pos] == slots[..start] + Repeat(g.rank, g.count)
  {
    tb, pos := slots, start;
    for k := 0 to g.count
      invariant |tb| == 5 && pos == start + k
      invariant tb[..pos] == slots[..start] + Repeat(g.rank, k)
    {
      if pos < 5 {
        ghost var was := tb[..pos];
        tb := tb[pos := g.rank];
        assert tb[..pos + 1] == was + [g.rank];
        pos := pos + 1;
      }
    }
  }

  lemma {:induction false} ExpandGrows(groups: seq<Group>, i: nat)
    requires i <= |groups|
    ensures |Expand(groups[..i])| <= |Expand(groups)|
  {
    if i == |groups| {
      assert groups[..i] == groups;
    } else {
      ExpandGrows(groups[..|groups| - 1], i);
      assert groups[..|groups| - 1][..i] == groups[..i];
    }
  }
}
