/** Main pot and side pots from what each player put in. */
module Pots {
  import opened Collections
  import opened Cards
  import opened Table

  /** One contributor: a player with chips in the pot. */
  datatype Stake = Stake(id: PlayerId, committed: int, folded: bool)

  function StakeOf(players: map<PlayerId, Player>, p: PlayerId): Stake
    requires p in players
  {
    Stake(p, players[p].committed, players[p].folded)
  }

  function ByCommitment(): Stake -> int
  {
    (s: Stake) => s.committed
  }

  ghost predicate DistinctIds(es: seq<Stake>)
  {
    forall i, j | 0 <= i < j < |es| :: es[i].id != es[j].id
  }

  /** Contributors by ascending commitment. */
  ghost predicate Ranked(es: seq<Stake>)
  {
    && DistinctIds(es)
    && (forall i | 0 <= i < |es| :: es[i].committed > 0)
    && (forall i, j | 0 <= i < j < |es| :: es[i].committed <= es[j].committed)
  }

  /** es holds exactly the players who committed chips, ranked. */
  ghost predicate RankedStakes(es: seq<Stake>, players: map<PlayerId, Player>)
  {
    && Ranked(es)
    && (forall i | 0 <= i < |es| :: es[i].id in players && es[i] == StakeOf(players, es[i].id))
    && (forall p | p in players && players[p].committed > 0 :: StakeOf(players, p) in es)
  }

  // ── The pots of a ranked list ─────────────────────────────────────────────

  function LiveIds(es: seq<Stake>): set<PlayerId>
  {
    set e | e in es && !e.folded :: e.id
  }

  /** Players of es who have not folded and are missing from the action order. */
  function Leftover(es: seq<Stake>, order: seq<PlayerId>): seq<PlayerId>
  {
    if es == [] then [] else
      var e := es[|es| - 1];
      Leftover(es[..|es| - 1], order) + if !e.folded && e.id !in order then [e.id] else []
  }

  function Eligible(es: seq<Stake>, order: seq<PlayerId>): seq<PlayerId>
  {
    Select(order, LiveIds(es)) + Leftover(es, order)
  }

  /** The commitment level reached after the first i contributors. */
  function Level(es: seq<Stake>, i: nat): int
    requires i <= |es|
  {
    if i == 0 then 0 else es[i - 1].committed
  }

  /** One pot per new level among the first i contributors, before merging. */
  function RawPots(es: seq<Stake>, order: seq<PlayerId>, i: nat): seq<Pot>
    requires i <= |es|
  {
    if i == 0 then [] else
      var rise := es[i - 1].committed - Level(es, i - 1);
      RawPots(es, order, i - 1) +
      if rise <= 0 then [] else [Pot(rise * (|es| - (i - 1)), Eligible(es[i - 1..], order))]
  }

  /** Neighbouring pots with the same eligible players become one. */
  function Merge(raw: seq<Pot>): (pots: seq<Pot>)
    ensures raw != [] ==> pots != [] && pots[|pots| - 1].eligible == raw[|raw| - 1].eligible
  {
    if |raw| <= 1 then raw else
      MergeOne(Merge(raw[..|raw| - 1]), raw[|raw| - 1])
  }

  function MergeOne(pots: seq<Pot>, p: Pot): seq<Pot>
    requires pots != []
  {
    var last := |pots| - 1;
    if pots[last].eligible == p.eligible
    then pots[last := Pot(pots[last].amount + p.amount, p.eligible)]
    else pots + [p]
  }

  function PotsOf(es: seq<Stake>, order: seq<PlayerId>): seq<Pot>
  {
    Merge(RawPots(es, order, |es|))
  }

  // ── What the pots add up to ───────────────────────────────────────────────

  function Amounts(pots: seq<Pot>): int
  {
    if pots == [] then 0 else Amounts(pots[..|pots| - 1]) + pots[|pots| - 1].amount
  }

  /** All that player p can win. */
  function Within(pots: seq<Pot>, p: PlayerId): int
  {
    if pots == [] then 0 else
      Within(pots[..|pots| - 1], p) + if p in pots[|pots| - 1].eligible then pots[|pots| - 1].amount else 0
  }

  function Min(a: int, b: int): int
  {
    if a <= b then a else b
  }

  /** What the contributors put in up to a cap each: the sum of min(committed, cap). */
  function Capped(es: seq<Stake>, cap: int): int
  {
    if es == [] then 0 else Capped(es[..|es| - 1], cap) + Min(es[|es| - 1].committed, cap)
  }

  function Committed(es: seq<Stake>): int
  {
    if es == [] then 0 else Committed(es[..|es| - 1]) + es[|es| - 1].committed
  }

  lemma {:induction false} CappedRise(es: seq<Stake>, k: nat, lo: int, hi: int)
    requires k <= |es| && lo <= hi
    requires forall j | 0 <= j < k :: es[j].committed <= lo
    requires forall j | k <= j < |es| :: es[j].committed >= hi
    ensures Capped(es, hi) == Capped(es, lo) + (hi - lo) * (|es| - k)
  {
    if k < |es| {
      CappedRise(es[..|es| - 1], k, lo, hi);
      assert (hi - lo) * (|es| - k) == (hi - lo) * (|es| - 1 - k) + (hi - lo);
    } else if es != [] {
      CappedRise(es[..|es| - 1], k - 1, lo, hi);
    }
  }

  lemma {:induction false} CappedAtTop(es: seq<Stake>, cap: int)
    requires forall j | 0 <= j < |es| :: es[j].committed <= cap
    ensures Capped(es, cap) == Committed(es)
  {
    if es != [] {
      CappedAtTop(es[..|es| - 1], cap);
    }
  }

  lemma {:induction false} CappedAtZero(es: seq<Stake>)
    requires forall j | 0 <= j < |es| :: es[j].committed >= 0
    ensures Capped(es, 0) == 0
  {
    if es != [] {
      CappedAtZero(es[..|es| - 1]);
    }
  }

  lemma {:induction false} LeftoverElems(es: seq<Stake>, order: seq<PlayerId>)
    ensures forall p :: p in Leftover(es, order) <==> p in LiveIds(es) && p !in order
  {
    if es != [] {
      LeftoverElems(es[..|es| - 1], order);
      LastBack(es);
    }
  }

  lemma EligibleElems(es: seq<Stake>, order: seq<PlayerId>)
    ensures Elems(Eligible(es, order)) == LiveIds(es)
  {
    SelectElems(order, LiveIds(es));
    LeftoverElems(es, order);
  }

  lemma AppendPot(pots: seq<Pot>, p: Pot)
    ensures Amounts(pots + [p]) == Amounts(pots) + p.amount
    ensures forall q :: Within(pots + [p], q) == Within(pots, q) + (if q in p.eligible then p.amount else 0)
  {
    assert (pots + [p])[..|pots|] == pots;
  }

  /** How much the i-th contributor's level adds to what everyone put in up to it. */
  function Layer(es: seq<Stake>, i: nat): int
    requires 0 < i <= |es|
  {
    (Level(es, i) - Level(es, i - 1)) * (|es| - (i - 1))
  }

  lemma LevelsRise(es: seq<Stake>, i: nat)
    requires Ranked(es) && 0 < i <= |es|
    ensures Level(es, i - 1) <= Level(es, i)
    ensures Capped(es, Level(es, i)) == Capped(es, Level(es, i - 1)) + Layer(es, i)
  {
    var lo, hi := Level(es, i - 1), Level(es, i);
    if i > 1 {
      assert es[i - 2].committed <= es[i - 1].committed;
    }
    forall j | 0 <= j < i - 1 ensures es[j].committed <= lo {
      assert j == i - 2 || es[j].committed <= es[i - 2].committed;
    }
    forall j | i - 1 <= j < |es| ensures es[j].committed >= hi {
      assert j == i - 1 || es[i - 1].committed <= es[j].committed;
    }
    CappedRise(es, i - 1, lo, hi);
  }

  lemma RawStep(es: seq<Stake>, order: seq<PlayerId>, i: nat)
    requires Ranked(es) && 0 < i <= |es|
    ensures Amounts(RawPots(es, order, i)) == Amounts(RawPots(es, order, i - 1)) + Layer(es, i)
    ensures forall p :: Within(RawPots(es, order, i), p)
                     == Within(RawPots(es, order, i - 1), p) + (if p in LiveIds(es[i - 1..]) then Layer(es, i) else 0)
  {
    LevelsRise(es, i);
    var raw, eligible := RawPots(es, order, i - 1), Eligible(es[i - 1..], order);
    AppendPot(raw, Pot(Layer(es, i), eligible));
    EligibleElems(es[i - 1..], order);
    assert forall p :: p in eligible <==> p in Elems(eligible);
    if Level(es, i) == Level(es, i - 1) {
      assert RawPots(es, order, i) == raw && Layer(es, i) == 0;
    } else {
      assert RawPots(es, order, i) == raw + [Pot(Layer(es, i), eligible)];
    }
  }

  lemma NothingYet(es: seq<Stake>, order: seq<PlayerId>)
    requires Ranked(es)
    ensures Amounts(RawPots(es, order, 0)) == Capped(es, Level(es, 0))
  {
    hide Capped;
    CappedAtZero(es);
  }

  /** The raw pots of the first i levels hold what everyone put in up to that level. */
  lemma {:induction false} RawTotal(es: seq<Stake>, order: seq<PlayerId>, i: nat)
    requires Ranked(es) && i <= |es|
    ensures Amounts(RawPots(es, order, i)) == Capped(es, Level(es, i))
  {
    hide *;
    if i == 0 {
      NothingYet(es, order);
    } else {
      RawTotal(es, order, i - 1);
      LevelsRise(es, i);
      RawStep(es, order, i);
    }
  }

  lemma InTail(es: seq<Stake>, i: nat, x: nat)
    requires Ranked(es) && i < |es| && x < |es| && !es[x].folded
    ensures es[x].id in LiveIds(es[i..]) <==> i <= x
    ensures i <= x ==> es[i].committed <= es[x].committed
    ensures x < i ==> es[x].committed <= es[i - 1].committed
  {
    if i <= x {
      assert es[i..][x - i] == es[x];
    }
  }

  /** Contributor x is in exactly the raw pots up to their own level. */
  lemma {:induction false} RawWithin(es: seq<Stake>, order: seq<PlayerId>, i: nat, x: nat)
    requires Ranked(es) && i <= |es| && x < |es| && !es[x].folded
    ensures Within(RawPots(es, order, i), es[x].id) == Capped(es, Min(Level(es, i), es[x].committed))
  {
    if i == 0 {
      CappedAtZero(es);
    } else {
      RawWithin(es, order, i - 1, x);
      InTail(es, i - 1, x);
      LevelsRise(es, i);
      RawStep(es, order, i);
    }
  }

  lemma MergeOneSums(pots: seq<Pot>, p: Pot)
    requires pots != []
    ensures Amounts(MergeOne(pots, p)) == Amounts(pots) + p.amount
    ensures forall q :: Within(MergeOne(pots, p), q) == Within(pots, q) + (if q in p.eligible then p.amount else 0)
  {
    var front, last := pots[..|pots| - 1], pots[|pots| - 1];
    LastBack(pots);
    AppendPot(front, last);
    if last.eligible == p.eligible {
      var grown := Pot(last.amount + p.amount, p.eligible);
      assert MergeOne(pots, p) == front + [grown];
      AppendPot(front, grown);
    } else {
      AppendPot(pots, p);
    }
  }

  lemma {:induction false} MergeKeepsSums(raw: seq<Pot>)
    ensures Amounts(Merge(raw)) == Amounts(raw)
    ensures forall p :: Within(Merge(raw), p) == Within(raw, p)
  {
    if |raw| > 1 {
      var n := |raw| - 1;
      MergeKeepsSums(raw[..n]);
      LastBack(raw);
      AppendPot(raw[..n], raw[n]);
      MergeOneSums(Merge(raw[..n]), raw[n]);
    }
  }

  /** The pots hold exactly what was committed. */
  lemma PotsHoldCommitments(es: seq<Stake>, order: seq<PlayerId>)
    requires Ranked(es)
    ensures Amounts(PotsOf(es, order)) == Committed(es)
  {
    RawTotal(es, order, |es|);
    MergeKeepsSums(RawPots(es, order, |es|));
    CappedAtTop(es, Level(es, |es|));
  }

  /** The pots a player still in the hand can win hold what each contributor put in, up to that
      player's own commitment. */
  lemma WinnableIsMatched(es: seq<Stake>, order: seq<PlayerId>, x: nat)
    requires Ranked(es) && x < |es| && !es[x].folded
    ensures Within(PotsOf(es, order), es[x].id) == Capped(es, es[x].committed)
  {
    RawWithin(es, order, |es|, x);
    MergeKeepsSums(RawPots(es, order, |es|));
  }

  // ── The shape of the pots ─────────────────────────────────────────────────

  /** The position in es at which each raw pot starts. */
  function Starts(es: seq<Stake>, i: nat): (at: seq<nat>)
    requires i <= |es|
    ensures forall k | 0 <= k < |at| :: at[k] < i
    ensures forall k, l | 0 <= k < l < |at| :: at[k] < at[l]
  {
    if i == 0 then [] else
      Starts(es, i - 1) + if es[i - 1].committed <= Level(es, i - 1) then [] else [i - 1]
  }

  /** Each raw pot: who is eligible, and a positive amount. */
  lemma {:induction false} RawShape(es: seq<Stake>, order: seq<PlayerId>, i: nat)
    requires i <= |es|
    ensures |RawPots(es, order, i)| == |Starts(es, i)|
    ensures forall k | 0 <= k < |Starts(es, i)| ::
      RawPots(es, order, i)[k].amount > 0
          && RawPots(es, order, i)[k].eligible == Eligible(es[Starts(es, i)[k]..], order)
  {
    hide Eligible, Level;
    if i > 0 {
      RawShape(es, order, i - 1);
      var rise := es[i - 1].committed - Level(es, i - 1);
      if rise > 0 {
        PositiveProduct(rise, |es| - (i - 1));
      }
    }
  }

  lemma PositiveProduct(a: int, b: int)
    requires a > 0 && b > 0
    ensures a * b > 0
  {
  }

  lemma {:induction false} LeftoverConcat(a: seq<Stake>, b: seq<Stake>, order: seq<PlayerId>)
    ensures Leftover(a + b, order) == Leftover(a, order) + Leftover(b, order)
  {
    if b == [] {
      assert a + b == a;
    } else {
      assert (a + b)[..|a + b| - 1] == a + b[..|b| - 1];
      LeftoverConcat(a, b[..|b| - 1], order);
    }
  }

  lemma {:induction false} NoneLeftOver(es: seq<Stake>, order: seq<PlayerId>)
    requires LiveIds(es) == {}
    ensures Leftover(es, order) == []
  {
    if es != [] {
      assert forall e | e in es && !e.folded :: e.id in LiveIds(es);
      assert LiveIds(es[..|es| - 1]) <= LiveIds(es);
      NoneLeftOver(es[..|es| - 1], order);
    }
  }

  /** Later levels have fewer eligible players; with the same players they are listed alike. */
  lemma TailsNest(es: seq<Stake>, order: seq<PlayerId>, p: nat, q: nat)
    requires DistinctIds(es) && p <= q <= |es|
    ensures LiveIds(es[q..]) <= LiveIds(es[p..])
    ensures LiveIds(es[q..]) == LiveIds(es[p..]) ==> Eligible(es[q..], order) == Eligible(es[p..], order)
  {
    var mid, tail := es[p..q], es[q..];
    assert es[p..] == mid + tail;
    assert LiveIds(es[p..]) == LiveIds(mid) + LiveIds(tail);
    if LiveIds(tail) == LiveIds(es[p..]) {
      assert LiveIds(mid) !! LiveIds(tail);
      assert forall x :: x !in LiveIds(mid);
      LeftoverConcat(mid, tail, order);
      NoneLeftOver(mid, order);
    }
  }

  /** Eligible sets shrink strictly from pot to pot. */
  ghost predicate Shrinking(pots: seq<Pot>)
  {
    forall a, b | 0 <= a < b < |pots| :: Elems(pots[b].eligible) < Elems(pots[a].eligible)
  }

  /** Eligible sets shrink, and equal sets are listed in the same order. */
  ghost predicate Nested(pots: seq<Pot>)
  {
    forall a, b | 0 <= a < b < |pots| ::
      && Elems(pots[b].eligible) <= Elems(pots[a].eligible)
      && (Elems(pots[b].eligible) == Elems(pots[a].eligible) ==> pots[b].eligible == pots[a].eligible)
  }

  lemma RawNested(es: seq<Stake>, order: seq<PlayerId>)
    requires DistinctIds(es)
    ensures Nested(RawPots(es, order, |es|))
  {
    RawShape(es, order, |es|);
    var raw, at := RawPots(es, order, |es|), Starts(es, |es|);
    forall a, b | 0 <= a < b < |raw|
      ensures Elems(raw[b].eligible) <= Elems(raw[a].eligible)
      ensures Elems(raw[b].eligible) == Elems(raw[a].eligible) ==> raw[b].eligible == raw[a].eligible
    {
      TailsNest(es, order, at[a], at[b]);
      EligibleElems(es[at[a]..], order);
      EligibleElems(es[at[b]..], order);
    }
  }

  lemma MergeOneShrinks(pots: seq<Pot>, p: Pot)
    requires pots != [] && Shrinking(pots)
    requires Elems(p.eligible) <= Elems(pots[|pots| - 1].eligible)
    requires Elems(p.eligible) == Elems(pots[|pots| - 1].eligible) ==> p.eligible == pots[|pots| - 1].eligible
    ensures Shrinking(MergeOne(pots, p))
  {
    var last := |pots| - 1;
    forall a | 0 <= a < last ensures Elems(p.eligible) < Elems(pots[a].eligible) {
      assert Elems(pots[last].eligible) < Elems(pots[a].eligible);
    }
  }

  lemma {:induction false} MergeShrinks(raw: seq<Pot>)
    requires Nested(raw)
    ensures Shrinking(Merge(raw))
  {
    if |raw| > 1 {
      var n := |raw| - 1;
      MergeShrinks(raw[..n]);
      MergeOneShrinks(Merge(raw[..n]), raw[n]);
    }
  }

  /** Merging adds no pot: amounts stay positive and every group of players was there before. */
  lemma {:induction false} MergeKeepsGroups(raw: seq<Pot>, ok: set<PlayerId>)
    requires forall k | 0 <= k < |raw| :: raw[k].amount > 0 && Elems(raw[k].eligible) <= ok
    ensures forall k | 0 <= k < |Merge(raw)| :: Merge(raw)[k].amount > 0 && Elems(Merge(raw)[k].eligible) <= ok
  {
    if |raw| > 1 {
      MergeKeepsGroups(raw[..|raw| - 1], ok);
    }
  }

  /** At most one pot per group of players, each with fewer players than the one before; every
      pot holds chips, and only contributors who have not folded can win one. */
  lemma PotsShrink(es: seq<Stake>, order: seq<PlayerId>)
    requires DistinctIds(es)
    ensures Shrinking(PotsOf(es, order))
    ensures forall k | 0 <= k < |PotsOf(es, order)| ::
      PotsOf(es, order)[k].amount > 0 && Elems(PotsOf(es, order)[k].eligible) <= LiveIds(es)
  {
    RawNested(es, order);
    var raw := RawPots(es, order, |es|);
    MergeShrinks(raw);
    RawShape(es, order, |es|);
    forall k | 0 <= k < |raw| ensures Elems(raw[k].eligible) <= LiveIds(es) {
      EligibleElems(es[Starts(es, |es|)[k]..], order);
    }
    MergeKeepsGroups(raw, LiveIds(es));
  }

  // ── Ties and map order do not matter ──────────────────────────────────────

  /** The pots as a caller may compare them: amounts and sets of players. */
  function Seen(pots: seq<Pot>): (v: seq<(int, set<PlayerId>)>)
    ensures |v| == |pots|
  {
    seq(|pots|, i requires 0 <= i < |pots| => (pots[i].amount, Elems(pots[i].eligible)))
  }

  function MergeOneSeen(v: seq<(int, set<PlayerId>)>, p: (int, set<PlayerId>)): (r: seq<(int, set<PlayerId>)>)
    requires v != []
    ensures r != []
  {
    var last := |v| - 1;
    if v[last].1 == p.1 then v[last := (v[last].0 + p.0, p.1)] else v + [p]
  }

  /** Merging decided by sets of players instead of lists. */
  function MergeSeen(raw: seq<(int, set<PlayerId>)>): (v: seq<(int, set<PlayerId>)>)
    ensures raw != [] ==> v != []
  {
    if |raw| <= 1 then raw else MergeOneSeen(MergeSeen(raw[..|raw| - 1]), raw[|raw| - 1])
  }

  lemma MergeOneBySets(pots: seq<Pot>, p: Pot)
    requires pots != []
    requires Elems(pots[|pots| - 1].eligible) == Elems(p.eligible) <==> pots[|pots| - 1].eligible == p.eligible
    ensures Seen(MergeOne(pots, p)) == MergeOneSeen(Seen(pots), (p.amount, Elems(p.eligible)))
  {
  }

  lemma {:induction false} MergeBySets(raw: seq<Pot>)
    requires Nested(raw)
    ensures Seen(Merge(raw)) == MergeSeen(Seen(raw))
  {
    if |raw| > 1 {
      hide Seen, MergeOne, MergeOneSeen, Elems, Nested;
      var n := |raw| - 1;
      assert Merge(raw) == MergeOne(Merge(raw[..n]), raw[n]);
      SeenFront(raw);
      NestedFront(raw);
      NestedEnd(raw);
      MergeBySets(raw[..n]);
      MergeOneBySets(Merge(raw[..n]), raw[n]);
    }
  }

  lemma NestedEnd(raw: seq<Pot>)
    requires |raw| > 1 && Nested(raw)
    ensures var p, q := raw[|raw| - 2].eligible, raw[|raw| - 1].eligible; Elems(p) == Elems(q) <==> p == q
  {
  }

  lemma SeenFront(raw: seq<Pot>)
    requires |raw| > 1
    ensures Seen(raw)[..|raw| - 1] == Seen(raw[..|raw| - 1])
    ensures Seen(raw)[|raw| - 1] == (raw[|raw| - 1].amount, Elems(raw[|raw| - 1].eligible))
  {
  }

  lemma NestedFront(raw: seq<Pot>)
    requires |raw| > 1 && Nested(raw)
    ensures Nested(raw[..|raw| - 1])
    ensures Elems(raw[|raw| - 2].eligible) == Elems(raw[|raw| - 1].eligible) <==>
      raw[|raw| - 2].eligible == raw[|raw| - 1].eligible
  {
  }

  lemma SeenAppend(pots: seq<Pot>, p: Pot)
    ensures Seen(pots + [p]) == Seen(pots) + [(p.amount, Elems(p.eligible))]
  {
  }

  /** What the i-th contributor adds to the raw pots, in terms of levels and players only. */
  function LayerSeen(es: seq<Stake>, i: nat): seq<(int, set<PlayerId>)>
    requires 0 < i <= |es|
  {
    if Level(es, i) <= Level(es, i - 1) then [] else [(Layer(es, i), LiveIds(es[i - 1..]))]
  }

  lemma SeenStep(es: seq<Stake>, order: seq<PlayerId>, i: nat)
    requires 0 < i <= |es|
    ensures Seen(RawPots(es, order, i)) == Seen(RawPots(es, order, i - 1)) + LayerSeen(es, i)
  {
    var p := Pot(Layer(es, i), Eligible(es[i - 1..], order));
    EligibleElems(es[i - 1..], order);
    SeenAppend(RawPots(es, order, i - 1), p);
    assert RawPots(es, order, i) == RawPots(es, order, i - 1) + if Level(es, i) <= Level(es, i - 1) then [] else [p];
  }

  /** Two rankings of the same stakes: same levels, and the same players from each level on. */
  lemma {:induction false} SameRawSeen(a: seq<Stake>, b: seq<Stake>, order: seq<PlayerId>, i: nat)
    requires Ranked(a) && Ranked(b) && multiset(a) == multiset(b) && i <= |a|
    ensures |a| == |b| && Seen(RawPots(a, order, i)) == Seen(RawPots(b, order, i))
  {
    SameSize(a, b);
    if i > 0 {
      SameRawSeen(a, b, order, i - 1);
      SeenStep(a, order, i);
      SeenStep(b, order, i);
      SameLayer(a, b, i);
    }
  }

  lemma SameLayer(a: seq<Stake>, b: seq<Stake>, i: nat)
    requires Ranked(a) && Ranked(b) && multiset(a) == multiset(b) && 0 < i <= |a| == |b|
    ensures LayerSeen(a, i) == LayerSeen(b, i)
  {
    SameLevels(a, b);
    if Level(a, i - 1) < Level(a, i) {
      SameTails(a, b, i - 1);
    }
  }

  lemma SameLevels(a: seq<Stake>, b: seq<Stake>)
    requires Ranked(a) && Ranked(b) && multiset(a) == multiset(b)
    ensures |a| == |b| && forall i | 0 <= i < |a| :: a[i].committed == b[i].committed
  {
    SameSize(a, b);
    ArrangementUnique(a, b, ByCommitment());
    assert forall i | 0 <= i < |a| :: Keys(a, ByCommitment())[i] == a[i].committed
                                   && Keys(b, ByCommitment())[i] == b[i].committed;
  }

  lemma SameTails(a: seq<Stake>, b: seq<Stake>, i: nat)
    requires Ranked(a) && Ranked(b) && multiset(a) == multiset(b) && i < |a| == |b|
    requires a[i].committed == b[i].committed
    requires i > 0 ==> a[i - 1].committed < a[i].committed && b[i - 1].committed < b[i].committed
    ensures LiveIds(a[i..]) == LiveIds(b[i..])
  {
    TailByLevel(a, i);
    TailByLevel(b, i);
    assert forall e :: e in a <==> e in multiset(b);
  }

  lemma BelowLevel(es: seq<Stake>, i: nat, k: nat)
    requires Ranked(es) && k < i < |es| && es[i - 1].committed < es[i].committed
    ensures es[k].committed < es[i].committed
  {
  }

  /** Where a level starts, the rest of the list is everyone at that level or above. */
  lemma TailByLevel(es: seq<Stake>, i: nat)
    requires Ranked(es) && i < |es| && (i > 0 ==> es[i - 1].committed < es[i].committed)
    ensures LiveIds(es[i..]) == set e | e in es && !e.folded && e.committed >= es[i].committed :: e.id
  {
    forall e | e in es && e.committed >= es[i].committed ensures e in es[i..] {
      var k :| 0 <= k < |es| && es[k] == e;
      if k < i {
        BelowLevel(es, i, k);
      }
      assert es[i..][k - i] == e;
    }
    assert forall e | e in es[i..] :: e in es && e.committed >= es[i].committed;
  }

  /** Amounts and eligible sets depend neither on the order in which the players are visited nor
      on how the sort breaks ties. */
  lemma PotsIgnoreTies(a: seq<Stake>, b: seq<Stake>, order: seq<PlayerId>)
    requires Ranked(a) && Ranked(b) && multiset(a) == multiset(b)
    ensures Seen(PotsOf(a, order)) == Seen(PotsOf(b, order))
  {
    SameRawSeen(a, b, order, |a|);
    RawNested(a, order);
    RawNested(b, order);
    MergeBySets(RawPots(a, order, |a|));
    MergeBySets(RawPots(b, order, |b|));
  }

  // ── As computed ───────────────────────────────────────────────────────────

  /** Everyone with chips in the pot, one at a time in whatever order the map gives, then sorted. */
  method Contributors(players: map<PlayerId, Player>) returns (entries: seq<Stake>)
    ensures RankedStakes(entries, players)
  {
    entries := [];
    var rest := players.Keys;
    while rest != {}
      invariant rest <= players.Keys && DistinctIds(entries)
      invariant forall e | e in entries ::
        e.id in players && e.id !in rest && e == StakeOf(players, e.id) && e.committed > 0
      invariant forall p | p in players && p !in rest && players[p].committed > 0 :: StakeOf(players, p) in entries
      decreases |rest|
    {
      var p :| p in rest;
      if players[p].committed > 0 {
        assert forall i | 0 <= i < |entries| :: entries[i] in entries;
        entries := entries + [StakeOf(players, p)];
      }
      rest := rest - {p};
    }
    var sorted := SortBy(entries, ByCommitment());
    RankedBySorting(entries, sorted, players);
    entries := sorted;
  }

  lemma SortedIdsDistinct(entries: seq<Stake>, sorted: seq<Stake>, players: map<PlayerId, Player>)
    requires DistinctIds(entries) && multiset(sorted) == multiset(entries)
    requires forall e | e in sorted :: e.id in players && e == StakeOf(players, e.id)
    ensures DistinctIds(sorted)
  {
    assert Distinct(entries);
    SameElemsDistinct(entries, sorted);
    forall i, j | 0 <= i < j < |sorted| ensures sorted[i].id != sorted[j].id {
      assert sorted[i] in sorted && sorted[j] in sorted && sorted[i] != sorted[j];
    }
  }

  lemma SortedByCommitment(sorted: seq<Stake>)
    requires Ascending(Keys(sorted, ByCommitment()))
    ensures forall i, j | 0 <= i < j < |sorted| :: sorted[i].committed <= sorted[j].committed
  {
    assert forall i | 0 <= i < |sorted| :: Keys(sorted, ByCommitment())[i] == sorted[i].committed;
  }

  lemma RankedBySorting(entries: seq<Stake>, sorted: seq<Stake>, players: map<PlayerId, Player>)
    requires DistinctIds(entries) && multiset(sorted) == multiset(entries) && Ascending(Keys(sorted, ByCommitment()))
    requires forall e | e in entries :: e.id in players && e == StakeOf(players, e.id) && e.committed > 0
    requires forall p | p in players && players[p].committed > 0 :: StakeOf(players, p) in entries
    ensures RankedStakes(sorted, players)
  {
    hide DistinctIds, Ascending, Keys, StakeOf;
    assert forall e :: e in sorted <==> e in multiset(entries);
    SortedIdsDistinct(entries, sorted, players);
    SortedByCommitment(sorted);
  }

  /** The players of from who have not folded: first those of the action order, in its order. */
  method EligibleInOrder(from: seq<Stake>, order: seq<PlayerId>) returns (out: seq<PlayerId>)
    ensures out == Eligible(from, order)
    ensures forall p :: p in out <==> exists i :: 0 <= i < |from| && from[i].id == p && !from[i].folded
    ensures forall i, j | 0 <= i < j < |out| && out[j] in order :: out[i] in order
  {
    var live := {};
    for i := 0 to |from|
      invariant live == LiveIds(from[..i])
    {
      assert from[..i + 1] == from[..i] + [from[i]];
      if !from[i].folded {
        live := live + {from[i].id};
      }
    }
    assert from[..|from|] == from;
    out := [];
    for i := 0 to |order|
      invariant out == Select(order[..i], live)
    {
      assert order[..i + 1][..i] == order[..i];
      if order[i] in live {
        out := out + [order[i]];
      }
    }
    assert order[..|order|] == order;
    SelectElems(order, live);
    var inOrder := Elems(out);
    for i := 0 to |from|
      invariant out == Select(order, live) + Leftover(from[..i], order)
    {
      assert from[..i + 1][..i] == from[..i];
      assert from[i] in from;
      assert !from[i].folded ==> (from[i].id in inOrder <==> from[i].id in order);
      if !from[i].folded && from[i].id !in inOrder {
        out := out + [from[i].id];
      }
    }
    assert from[..|from|] == from;
    LeftoverElems(from, order);
    forall p ensures p in out <==> exists i :: 0 <= i < |from| && from[i].id == p && !from[i].folded {
      assert p in out <==> p in live;
    }
  }

  /** The pot the contributors from i on add above the level below them. */
  function LevelPot(es: seq<Stake>, order: seq<PlayerId>, i: nat): Pot
    requires i < |es|
  {
    Pot((es[i].committed - Level(es, i)) * (|es| - i), Eligible(es[i..], order))
  }

  lemma NextRaw(es: seq<Stake>, order: seq<PlayerId>, i: nat)
    requires i < |es|
    ensures RawPots(es, order, i + 1) ==
      RawPots(es, order, i) + if es[i].committed <= Level(es, i) then [] else [LevelPot(es, order, i)]
  {
    hide Eligible;
    var n := i + 1;
    assert es[n - 1..] == es[i..] && |es| - (n - 1) == |es| - i;
    assert RawPots(es, order, n) == RawPots(es, order, n - 1) +
      if es[n - 1].committed - Level(es, n - 1) <= 0 then []
      else [Pot((es[n - 1].committed - Level(es, n - 1)) * (|es| - (n - 1)), Eligible(es[n - 1..], order))];
  }

  lemma NextLevel(es: seq<Stake>, i: nat)
    requires Ranked(es) && i < |es|
    ensures Level(es, i) <= es[i].committed == Level(es, i + 1)
    ensures es[i].committed > Level(es, i) ==> (es[i].committed - Level(es, i)) * (|es| - i) > 0
  {
    if i > 0 {
      assert es[i - 1].committed <= es[i].committed;
    }
  }

  /** One pot per level of commitment; prev is the level of the last pot. */
  method RawLevels(entries: seq<Stake>, order: seq<PlayerId>) returns (raw: seq<Pot>)
    requires Ranked(entries)
    ensures raw == RawPots(entries, order, |entries|)
  {
    hide RawPots, Eligible, Level, Ranked;
    raw := [];
    var prev := 0;
    var n := |entries|;
    StartLevel(entries, order);
    for i := 0 to n
      invariant prev == Level(entries, i) && raw == RawPots(entries, order, i)
    {
      NextLevel(entries, i);
      NextRaw(entries, order, i);
      var e := entries[i];
      if e.committed <= prev {
        continue;
      }
      var level := e.committed;
      var amount := (level - prev) * (n - i);
      var eligible := EligibleInOrder(entries[i..], order);
      if amount > 0 {
        raw := raw + [Pot(amount, eligible)];
      }
      prev := level;
    }
  }

  lemma StartLevel(es: seq<Stake>, order: seq<PlayerId>)
    ensures Level(es, 0) == 0 && RawPots(es, order, 0) == []
  {
  }

  method MergePots(raw: seq<Pot>) returns (merged: seq<Pot>)
    requires raw != []
    ensures merged == Merge(raw)
  {
    merged := [raw[0]];
    for i := 1 to |raw|
      invariant merged == Merge(raw[..i])
    {
      assert raw[..i + 1][..i] == raw[..i];
      var last := |merged| - 1;
      if merged[last].eligible == raw[i].eligible {
        merged := merged[last := Pot(merged[last].amount + raw[i].amount, raw[i].eligible)];
      } else {
        merged := merged + [raw[i]];
      }
    }
    assert raw[..|raw|] == raw;
  }

  /** Main pot and side pots of a hand, and the ranking of its contributors they came from. */
  method ComputePots(players: map<PlayerId, Player>, order: seq<PlayerId>) returns (pots: seq<Pot>, entries: seq<Stake>)
    ensures RankedStakes(entries, players) && pots == PotsOf(entries, order)
  {
    entries := Contributors(players);
    pots := [];
    if |entries| == 0 {
      return;
    }
    var raw := RawLevels(entries, order);
    if |raw| == 0 {
      return;
    }
    pots := MergePots(raw);
  }
}
