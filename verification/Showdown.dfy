/** What a showdown pays: who wins which pot, how much, and when every chip finds an owner. */
module Showdown {
  import opened Collections
  import opened Table
  import opened Pots
  import opened Lifecycle
  import opened Posting
  import opened Chips
  import opened Rest
  import opened Betting

  // ── Winners of one pot ────────────────────────────────────────────────────

  /** w is the first of s that is eligible. */
  predicate ComesFirst(s: seq<PlayerId>, eligible: seq<PlayerId>, w: PlayerId)
  {
    exists k :: 0 <= k < |s| && s[k] == w && w in eligible && forall j | 0 <= j < k :: s[j] !in eligible
  }

  /** The winners are among the eligible players; if any of these has an evaluated hand,
      they are exactly the ones whose rank no other evaluated rank of an eligible player exceeds. If none has,
      the first player left in action order who is eligible wins. */
  lemma WinnersAreBest(evals: map<PlayerId, nat>, eligible: seq<PlayerId>, nonFolded: seq<PlayerId>)
    requires Distinct(eligible)
    ensures Distinct(Winners(evals, eligible, nonFolded))
    ensures Elems(Winners(evals, eligible, nonFolded)) <= Elems(eligible)
    ensures (exists p :: p in eligible && p in evals) ==>
      && Winners(evals, eligible, nonFolded) != []
      && forall p :: p in Winners(evals, eligible, nonFolded) <==>
        p in eligible && p in evals && forall q | q in eligible && q in evals :: evals[q] <= evals[p]
    ensures (forall p | p in eligible :: p !in evals) && Winners(evals, eligible, nonFolded) != [] ==>
      && |Winners(evals, eligible, nonFolded)| == 1
      && ComesFirst(nonFolded, eligible, Winners(evals, eligible, nonFolded)[0])
  {
    var top := TopIds(evals, eligible);
    SelectElems(eligible, top);
    SelectDistinct(eligible, top);
    SelectElems(nonFolded, Elems(eligible));
    if exists p :: p in eligible && p in evals {
      var p :| p in eligible && p in evals;
      var best := BestOf(evals, eligible, p);
      assert best in Select(eligible, top);
    } else if Winners(evals, eligible, nonFolded) != [] {
      NobodyOnTop(evals, eligible);
      var k := FirstKept(nonFolded, Elems(eligible));
    }
  }

  lemma NobodyOnTop(evals: map<PlayerId, nat>, ids: seq<PlayerId>)
    requires forall p | p in ids :: p !in evals
    ensures Select(ids, TopIds(evals, ids)) == []
  {
    SelectElems(ids, TopIds(evals, ids));
    if Select(ids, TopIds(evals, ids)) != [] {
      SomeElem(Select(ids, TopIds(evals, ids)));
    }
  }

  /** The first element kept is the first one that is to be kept. */
  lemma {:induction false} FirstKept<T>(s: seq<T>, keep: set<T>) returns (k: nat)
    requires Select(s, keep) != []
    ensures k < |s| && s[k] in keep && Select(s, keep)[0] == s[k] && forall j | 0 <= j < k :: s[j] !in keep
  {
    var n := |s| - 1;
    if Select(s[..n], keep) != [] {
      k := FirstKept(s[..n], keep);
    } else {
      k := n;
      SelectElems(s[..n], keep);
      forall j | 0 <= j < n ensures s[j] !in keep {
        assert s[j] in s[..n];
      }
    }
  }

  lemma {:induction false} BestOf(evals: map<PlayerId, nat>, ids: seq<PlayerId>, p: PlayerId) returns (best: PlayerId)
    requires p in ids && p in evals
    ensures best in TopIds(evals, ids)
  {
    var ranks := set q | q in ids && q in evals :: evals[q];
    assert evals[p] in ranks;
    var top := Greatest(ranks);
    best :| best in ids && best in evals && evals[best] == top;
    assert forall q | q in ids && q in evals :: evals[q] in ranks;
  }

  /** A pot is passed over exactly when nobody eligible for it is a non-folded player of the
      action order. */
  lemma NoWinnerIff(evals: map<PlayerId, nat>, eligible: seq<PlayerId>, nonFolded: seq<PlayerId>)
    requires evals.Keys <= Elems(nonFolded)
    ensures Winners(evals, eligible, nonFolded) == [] <==> forall p | p in eligible :: p !in nonFolded
  {
    SelectElems(eligible, TopIds(evals, eligible));
    var first := Select(nonFolded, Elems(eligible));
    SelectElems(nonFolded, Elems(eligible));
    if forall p | p in eligible :: p !in nonFolded {
      assert forall p | p in evals :: p in Elems(nonFolded);
      var top := Select(eligible, TopIds(evals, eligible));
      if top != [] {
        SomeElem(top);
      } else if first != [] {
        SomeElem(first);
      }
    } else {
      var p :| p in eligible && p in nonFolded;
      assert p in Elems(eligible);
      assert p in first;
    }
  }

  // ── Splitting one pot ─────────────────────────────────────────────────────

  lemma SplitParts(amount: int, n: nat)
    requires amount >= 0 && n > 0
    ensures Quotient(amount, n) >= 0 && Remainder(amount, n) >= 0
    ensures n * Quotient(amount, n) + Remainder(amount, n) == amount
    ensures Quotient(amount, n) + Remainder(amount, n) <= amount
  {
    var q := amount / n;
    assert amount == n * q + amount % n;
    MoreTimes(n, q);
  }

  lemma MoreTimes(n: nat, q: nat)
    requires n > 0
    ensures n * q >= q
  {
  }

  /** What the first k winners get in all. */
  lemma {:induction false} PaidTotals(players: map<PlayerId, Player>, winners: seq<PlayerId>, amount: int, k: nat)
    requires 0 < k <= |winners| && amount >= 0 && Elems(winners) <= players.Keys
    ensures StackTotal(Paid(players, winners, amount, k))
         == StackTotal(players) + k * Quotient(amount, |winners|) + Remainder(amount, |winners|)
  {
    var before, pid := Paid(players, winners, amount, k - 1), winners[k - 1];
    assert pid in Elems(winners);
    if k > 1 {
      PaidTotals(players, winners, amount, k - 1);
      assert k * Quotient(amount, |winners|) == (k - 1) * Quotient(amount, |winners|) + Quotient(amount, |winners|);
    }
    TotalsAfterUpdate(before, pid, Paid(players, winners, amount, k)[pid]);
  }

  /** Splitting hands out exactly the pot. */
  lemma SplitIsExact(players: map<PlayerId, Player>, winners: seq<PlayerId>, amount: int)
    requires winners != [] && amount >= 0 && Elems(winners) <= players.Keys
    ensures StackTotal(Paid(players, winners, amount, |winners|)) == StackTotal(players) + amount
  {
    PaidTotals(players, winners, amount, |winners|);
    SplitParts(amount, |winners|);
  }

  /** Each winner gets the same share, rounded down, and the first one also what is left over; nobody else
      gets anything. */
  lemma {:induction false} EachIsPaid(players: map<PlayerId, Player>, winners: seq<PlayerId>, amount: nat, k: nat,
                                      i: nat, p: PlayerId)
    requires k <= |winners| && i < |winners| && Distinct(winners) && winners[i] in players
    ensures Paid(players, winners, amount, k)[winners[i]].stack == players[winners[i]].stack
      + if i < k then amount / |winners| + (if i == 0 then amount % |winners| else 0) else 0
    ensures p in players && p !in winners ==> Paid(players, winners, amount, k)[p] == players[p]
  {
    assert amount % |winners| == amount - |winners| * (amount / |winners|);
    if k > 0 {
      EachIsPaid(players, winners, amount, k - 1, i, p);
    }
  }

  /** Only winners gain, none more than the pot, and only stacks change. */
  lemma {:induction false} PaidEach(players: map<PlayerId, Player>, winners: seq<PlayerId>, amount: int, k: nat,
                                    p: PlayerId)
    requires k <= |winners| && amount >= 0 && winners != [] && Distinct(winners) && p in players
    ensures var q := Paid(players, winners, amount, k)[p]; q == players[p].(stack := q.stack)
    ensures 0 <= Paid(players, winners, amount, k)[p].stack - players[p].stack
        <= (if p in winners[..k] then amount else 0)
  {
    SplitParts(amount, |winners|);
    if k > 0 {
      PaidEach(players, winners, amount, k - 1, p);
      assert winners[..k] == winners[..k - 1] + [winners[k - 1]];
    }
  }

  // ── All awards of a showdown ──────────────────────────────────────────────

  ghost predicate Passed(evals: map<PlayerId, nat>, nonFolded: seq<PlayerId>, pot: Pot)
  {
    pot.amount <= 0 || Winners(evals, pot.eligible, nonFolded) == []
  }

  /** The players after the first k pots have been awarded. */
  ghost function Awarded(players: map<PlayerId, Player>, evals: map<PlayerId, nat>, nonFolded: seq<PlayerId>,
                         pots: seq<Pot>, k: nat): (r: map<PlayerId, Player>)
    requires k <= |pots|
    ensures r.Keys == players.Keys
  {
    if k == 0 then players else
      var before := Awarded(players, evals, nonFolded, pots, k - 1);
      if Passed(evals, nonFolded, pots[k - 1]) then before else
        var winners := Winners(evals, pots[k - 1].eligible, nonFolded);
        Paid(before, winners, pots[k - 1].amount, |winners|)
  }

  ghost function PaidOut(evals: map<PlayerId, nat>, nonFolded: seq<PlayerId>, pots: seq<Pot>, k: nat): int
    requires k <= |pots|
  {
    if k == 0 then 0 else
      PaidOut(evals, nonFolded, pots, k - 1) + if Passed(evals, nonFolded, pots[k - 1]) then 0 else pots[k - 1].amount
  }

  function Handed(g: Game, players: map<PlayerId, Player>, paid: int): Game
    requires g.hand.Some?
  {
    g.(players := players, hand := Some(g.hand.value.(pot := g.hand.value.pot - paid)))
  }

  lemma AwardOne(g: Game, amount: int, winners: seq<PlayerId>)
    requires g.hand.Some? && winners != []
    ensures Effect(g, PotAwarded(amount, winners), None)
        == Handed(g, Paid(g.players, winners, amount, |winners|), amount)
  {
  }

  lemma {:induction false} PlayAwards(g: Game, evals: map<PlayerId, nat>, nonFolded: seq<PlayerId>, pots: seq<Pot>,
                                      k: nat)
    requires k <= |pots| && g.hand.Some?
    ensures Play(g, AwardEvents(evals, nonFolded, pots, k))
         == Handed(g, Awarded(g.players, evals, nonFolded, pots, k), PaidOut(evals, nonFolded, pots, k))
  {
    if k == 0 {
      HandedNothing(g);
    } else {
      PlayAwards(g, evals, nonFolded, pots, k - 1);
      AwardStep(g, evals, nonFolded, pots, k,
                AwardEvents(evals, nonFolded, pots, k - 1), Awarded(g.players, evals, nonFolded, pots, k - 1),
                PaidOut(evals, nonFolded, pots, k - 1));
    }
  }

  lemma AwardStep(g: Game, evals: map<PlayerId, nat>, nonFolded: seq<PlayerId>, pots: seq<Pot>, k: nat,
                  before: seq<Event>, players: map<PlayerId, Player>, paid: int)
    requires 0 < k <= |pots| && g.hand.Some?
    requires before == AwardEvents(evals, nonFolded, pots, k - 1)
    requires players == Awarded(g.players, evals, nonFolded, pots, k - 1)
    requires paid == PaidOut(evals, nonFolded, pots, k - 1)
    requires Play(g, before) == Handed(g, players, paid)
    ensures Play(g, AwardEvents(evals, nonFolded, pots, k))
         == Handed(g, Awarded(g.players, evals, nonFolded, pots, k), PaidOut(evals, nonFolded, pots, k))
  {
    hide Effect, Play, Winners, Paid;
    var winners, amount := Winners(evals, pots[k - 1].eligible, nonFolded), pots[k - 1].amount;
    if Passed(evals, nonFolded, pots[k - 1]) {
      assert AwardEvents(evals, nonFolded, pots, k) == before;
      assert Awarded(g.players, evals, nonFolded, pots, k) == players;
      assert PaidOut(evals, nonFolded, pots, k) == paid;
    } else {
      assert AwardEvents(evals, nonFolded, pots, k) == before + [PotAwarded(amount, winners)];
      assert Awarded(g.players, evals, nonFolded, pots, k) == Paid(players, winners, amount, |winners|);
      assert PaidOut(evals, nonFolded, pots, k) == paid + amount;
      PlayLast(g, before, PotAwarded(amount, winners));
      AwardOne(Handed(g, players, paid), amount, winners);
      HandedTwice(g, players, paid, Paid(players, winners, amount, |winners|), amount);
    }
  }

  lemma HandedNothing(g: Game)
    requires g.hand.Some?
    ensures Handed(g, g.players, 0) == g
  {
  }

  lemma HandedTwice(g: Game, a: map<PlayerId, Player>, x: int, b: map<PlayerId, Player>, y: int)
    requires g.hand.Some?
    ensures Handed(Handed(g, a, x), b, y) == Handed(g, b, x + y)
  {
  }

  /** Everyone eligible for a pot sits at the table, and nobody is listed twice. */
  ghost predicate PotsOk(players: map<PlayerId, Player>, pots: seq<Pot>)
  {
    forall k | 0 <= k < |pots| :: Distinct(pots[k].eligible) && Elems(pots[k].eligible) <= players.Keys
  }

  lemma {:induction false} AwardsPayOut(players: map<PlayerId, Player>, evals: map<PlayerId, nat>,
                                        nonFolded: seq<PlayerId>, pots: seq<Pot>, k: nat)
    requires k <= |pots| && PotsOk(players, pots)
    ensures StackTotal(Awarded(players, evals, nonFolded, pots, k))
        == StackTotal(players) + PaidOut(evals, nonFolded, pots, k)
  {
    if k > 0 {
      AwardsPayOut(players, evals, nonFolded, pots, k - 1);
      if !Passed(evals, nonFolded, pots[k - 1]) {
        var before := Awarded(players, evals, nonFolded, pots, k - 1);
        WinnersAreBest(evals, pots[k - 1].eligible, nonFolded);
        SplitIsExact(before, Winners(evals, pots[k - 1].eligible, nonFolded), pots[k - 1].amount);
      }
    }
  }

  /** What p can win from pots with a positive amount. */
  function Positive(pots: seq<Pot>, p: PlayerId, k: nat): int
    requires k <= |pots|
  {
    if k == 0 then 0 else
      Positive(pots, p, k - 1) + if p in pots[k - 1].eligible && pots[k - 1].amount > 0 then pots[k - 1].amount else 0
  }

  /** A player gains at most what the pots they are eligible for hold. */
  lemma {:induction false} AwardsEach(players: map<PlayerId, Player>, evals: map<PlayerId, nat>,
                                      nonFolded: seq<PlayerId>, pots: seq<Pot>, k: nat, p: PlayerId)
    requires k <= |pots| && PotsOk(players, pots) && p in players
    ensures var q := Awarded(players, evals, nonFolded, pots, k)[p]; q == players[p].(stack := q.stack)
    ensures 0 <= Awarded(players, evals, nonFolded, pots, k)[p].stack - players[p].stack <= Positive(pots, p, k)
  {
    if k > 0 {
      AwardsEach(players, evals, nonFolded, pots, k - 1, p);
      if !Passed(evals, nonFolded, pots[k - 1]) {
        var before := Awarded(players, evals, nonFolded, pots, k - 1);
        var winners := Winners(evals, pots[k - 1].eligible, nonFolded);
        WinnersAreBest(evals, pots[k - 1].eligible, nonFolded);
        PaidEach(before, winners, pots[k - 1].amount, |winners|, p);
        assert winners[..|winners|] == winners;
        assert p in winners ==> p in Elems(winners);
      }
    }
  }

  // ── The pots of a hand ────────────────────────────────────────────────────

  lemma {:induction false} LeftoverDistinct(es: seq<Stake>, order: seq<PlayerId>)
    requires DistinctIds(es)
    ensures Distinct(Leftover(es, order))
  {
    if es != [] {
      var rest := es[..|es| - 1];
      LeftoverDistinct(rest, order);
      LeftoverElems(rest, order);
      assert es[|es| - 1].id !in LiveIds(rest);
    }
  }

  lemma EligibleDistinct(es: seq<Stake>, order: seq<PlayerId>)
    requires DistinctIds(es) && Distinct(order)
    ensures Distinct(Eligible(es, order))
  {
    SelectDistinct(order, LiveIds(es));
    SelectElems(order, LiveIds(es));
    LeftoverDistinct(es, order);
    LeftoverElems(es, order);
    var a, b := Select(order, LiveIds(es)), Leftover(es, order);
    forall i, j | 0 <= i < |a| && 0 <= j < |b| ensures a[i] != b[j] {
      assert a[i] in a && b[j] in b;
    }
  }

  /** Every pot's players come from one tail of the ranked stakes. */
  lemma {:induction false} MergedFromRaw(raw: seq<Pot>, k: nat) returns (r: nat)
    requires k < |Merge(raw)|
    ensures r < |raw| && raw[r].eligible == Merge(raw)[k].eligible
  {
    if |raw| <= 1 {
      r := k;
    } else {
      var n := |raw| - 1;
      var pots := Merge(raw[..n]);
      if k == |Merge(raw)| - 1 {
        r := n;
      } else {
        r := MergedFromRaw(raw[..n], k);
      }
    }
  }

  /** The state at a showdown: the betting invariant holds and somebody is left. */
  ghost predicate AtShowdown(g: Game, stakes: seq<Stake>)
  {
    && TableOk(g) && g.hand.Some? && RankedStakes(stakes, g.players)
    && NonFolded(g) != []
  }

  lemma PotOk(g: Game, stakes: seq<Stake>, k: nat)
    requires AtShowdown(g, stakes) && k < |PotsOf(stakes, g.hand.value.order)|
    ensures Distinct(PotsOf(stakes, g.hand.value.order)[k].eligible)
    ensures Elems(PotsOf(stakes, g.hand.value.order)[k].eligible) <= g.players.Keys
  {
    hide RawPots, Merge, Eligible, Starts, TableOk, NonFolded;
    var order := g.hand.value.order;
    var r := MergedFromRaw(RawPots(stakes, order, |stakes|), k);
    RawShape(stakes, order, |stakes|);
    var tail := stakes[Starts(stakes, |stakes|)[r]..];
    OrderIsDistinct(g);
    EligibleDistinct(tail, order);
    EligibleElems(tail, order);
    assert LiveIds(tail) <= g.players.Keys;
  }

  lemma OrderIsDistinct(g: Game)
    requires TableOk(g) && g.hand.Some?
    ensures Distinct(g.hand.value.order)
  {
  }

  /** The pots as they are awarded, after rake. */
  function RakedPots(g: Game, stakes: seq<Stake>): (pots: seq<Pot>)
    requires g.hand.Some?
    ensures pots != []
  {
    TakeRake(HandPots(g, stakes), Rake(g.hand.value.pot, g.config))
  }

  lemma HandPotsOk(g: Game, stakes: seq<Stake>)
    requires AtShowdown(g, stakes)
    ensures PotsOk(g.players, HandPots(g, stakes)) && PotsOk(g.players, RakedPots(g, stakes))
  {
    var order := g.hand.value.order;
    if PotsOf(stakes, order) == [] {
      SelectDistinct(order, UnfoldedIds(g.players));
      SelectElems(order, UnfoldedIds(g.players));
    } else {
      forall k | 0 <= k < |PotsOf(stakes, order)|
        ensures Distinct(HandPots(g, stakes)[k].eligible) && Elems(HandPots(g, stakes)[k].eligible) <= g.players.Keys
      {
        PotOk(g, stakes, k);
      }
    }
  }

  /** The ranked stakes add up to everything committed. */
  lemma {:induction false} StakesTotal(es: seq<Stake>, m: map<PlayerId, int>)
    requires DistinctIds(es) && forall i | 0 <= i < |es| :: es[i].id in m && m[es[i].id] == es[i].committed
    requires forall p | p in m :: m[p] == 0 || exists i :: 0 <= i < |es| && es[i].id == p
    ensures Committed(es) == Total(m)
  {
    if es == [] {
      TotalOfZeros(m);
    } else {
      var rest, last := es[..|es| - 1], es[|es| - 1];
      TotalUpdate(m, last.id, 0);
      forall p | p in m && m[p] != 0 && p != last.id ensures exists i :: 0 <= i < |rest| && rest[i].id == p {
        var i :| 0 <= i < |es| && es[i].id == p;
        assert rest[i].id == p;
      }
      StakesTotal(rest, m[last.id := 0]);
    }
  }

  lemma PotsHoldThePot(g: Game, stakes: seq<Stake>)
    requires AtShowdown(g, stakes)
    ensures Amounts(HandPots(g, stakes)) == g.hand.value.pot
    ensures PotsOf(stakes, g.hand.value.order) == [] ==> g.hand.value.pot == 0
  {
    forall p | p in g.players && g.players[p].committed != 0
      ensures exists i :: 0 <= i < |stakes| && stakes[i].id == p
    {
      assert BetOk(g.players[p], g.hand.value);
      assert StakeOf(g.players, p) in stakes;
    }
    StakesTotal(stakes, Commitments(g.players));
    PotsHoldCommitments(stakes, g.hand.value.order);
    if PotsOf(stakes, g.hand.value.order) == [] {
      AppendPot([], HandPots(g, stakes)[0]);
      assert [] + [HandPots(g, stakes)[0]] == HandPots(g, stakes);
    }
  }

  // ── When a showdown conserves chips ───────────────────────────────────────

  /** Some player still contending has put in as much as anybody. */
  ghost predicate TopContributorLive(g: Game)
    requires g.hand.Some?
  {
    exists p :: p in NonFolded(g) && p in g.players &&
      forall q | q in g.players :: g.players[q].committed <= g.players[p].committed
  }

  ghost predicate Winnable(g: Game, pot: Pot)
    requires g.hand.Some?
  {
    exists p :: p in pot.eligible && p in NonFolded(g)
  }

  /** Whoever can win a later pot can win every earlier one. */
  lemma LastWinnableAllWinnable(g: Game, pots: seq<Pot>)
    requires g.hand.Some? && pots != [] && Shrinking(pots)
    ensures Winnable(g, pots[|pots| - 1]) ==> forall k | 0 <= k < |pots| :: Winnable(g, pots[k])
  {
    if Winnable(g, pots[|pots| - 1]) {
      var p :| p in pots[|pots| - 1].eligible && p in NonFolded(g);
      forall k | 0 <= k < |pots| ensures Winnable(g, pots[k]) {
        assert p in Elems(pots[|pots| - 1].eligible);
        assert k < |pots| - 1 ==> Elems(pots[|pots| - 1].eligible) < Elems(pots[k].eligible);
        assert p in Elems(pots[k].eligible);
      }
    }
  }

  lemma {:induction false} LastStart(es: seq<Stake>, i: nat)
    requires Ranked(es) && 0 < i <= |es|
    ensures Starts(es, i) != []
    ensures es[Starts(es, i)[|Starts(es, i)| - 1]].committed == es[i - 1].committed
    ensures forall k | 0 <= k < Starts(es, i)[|Starts(es, i)| - 1] :: es[k].committed < es[i - 1].committed
  {
    if i > 1 {
      LastStart(es, i - 1);
      assert es[i - 2].committed <= es[i - 1].committed;
      assert forall k | 0 <= k < i - 1 :: es[k].committed <= es[i - 2].committed;
    }
  }

  lemma TopIsMost(g: Game, stakes: seq<Stake>)
    requires RankedStakes(stakes, g.players) && stakes != []
    ensures forall q | q in g.players :: g.players[q].committed <= stakes[|stakes| - 1].committed
    ensures stakes[|stakes| - 1].id in g.players
    ensures g.players[stakes[|stakes| - 1].id].committed == stakes[|stakes| - 1].committed
  {
    forall q | q in g.players ensures g.players[q].committed <= stakes[|stakes| - 1].committed {
      if g.players[q].committed > 0 {
        assert StakeOf(g.players, q) in stakes;
      }
    }
  }

  /** Who the last pot goes to: everyone not folded who put in the most. */
  lemma LastPotPlayers(g: Game, stakes: seq<Stake>, p: PlayerId)
    requires AtShowdown(g, stakes) && stakes != []
    ensures PotsOf(stakes, g.hand.value.order) != []
    ensures p in HandPots(g, stakes)[|HandPots(g, stakes)| - 1].eligible <==>
      p in g.players && !g.players[p].folded && g.players[p].committed == stakes[|stakes| - 1].committed
  {
    var start := LastTail(stakes, g.hand.value.order);
    InLastTail(g, stakes, start, p);
    assert p in PotsOf(stakes, g.hand.value.order)[|PotsOf(stakes, g.hand.value.order)| - 1].eligible <==>
      p in Elems(PotsOf(stakes, g.hand.value.order)[|PotsOf(stakes, g.hand.value.order)| - 1].eligible);
  }

  /** The last pot is the one of the highest level. */
  lemma LastTail(es: seq<Stake>, order: seq<PlayerId>) returns (start: nat)
    requires Ranked(es) && es != []
    ensures start < |es| && es[start].committed == es[|es| - 1].committed
    ensures forall k | 0 <= k < start :: es[k].committed < es[|es| - 1].committed
    ensures PotsOf(es, order) != []
    ensures Elems(PotsOf(es, order)[|PotsOf(es, order)| - 1].eligible) == LiveIds(es[start..])
  {
    hide Leftover, Starts, RawPots, Merge;
    LastStart(es, |es|);
    RawShape(es, order, |es|);
    start := Starts(es, |es|)[|Starts(es, |es|)| - 1];
    assert PotsOf(es, order)[|PotsOf(es, order)| - 1].eligible == Eligible(es[start..], order);
    SelectElems(order, LiveIds(es[start..]));
    LeftoverElems(es[start..], order);
  }

  lemma LastPotWinnable(g: Game, stakes: seq<Stake>)
    requires AtShowdown(g, stakes) && stakes != []
    ensures Winnable(g, HandPots(g, stakes)[|HandPots(g, stakes)| - 1]) <==> TopContributorLive(g)
  {
    var last := HandPots(g, stakes)[|HandPots(g, stakes)| - 1];
    TopIsMost(g, stakes);
    SelectElems(g.hand.value.order, UnfoldedIds(g.players));
    if Winnable(g, last) {
      var p :| p in last.eligible && p in NonFolded(g);
      LastPotPlayers(g, stakes, p);
    }
    if TopContributorLive(g) {
      var p :| p in NonFolded(g) && p in g.players &&
        forall q | q in g.players :: g.players[q].committed <= g.players[p].committed;
      LastPotPlayers(g, stakes, p);
    }
  }

  lemma InLastTail(g: Game, stakes: seq<Stake>, start: nat, p: PlayerId)
    requires RankedStakes(stakes, g.players) && start < |stakes|
    requires stakes[start].committed == stakes[|stakes| - 1].committed
    requires forall k | 0 <= k < start :: stakes[k].committed < stakes[|stakes| - 1].committed
    ensures p in LiveIds(stakes[start..]) <==>
      p in g.players && !g.players[p].folded && g.players[p].committed == stakes[|stakes| - 1].committed
  {
    var top, tail := stakes[|stakes| - 1].committed, stakes[start..];
    if p in g.players && !g.players[p].folded && g.players[p].committed == top {
      TopAmongLast(g, stakes, start, p);
    }
    if p in LiveIds(tail) {
      LastAreTop(g, stakes, start, p);
    }
  }

  lemma LastAreTop(g: Game, stakes: seq<Stake>, start: nat, p: PlayerId)
    requires RankedStakes(stakes, g.players) && start < |stakes| && p in LiveIds(stakes[start..])
    requires stakes[start].committed == stakes[|stakes| - 1].committed
    ensures p in g.players && !g.players[p].folded && g.players[p].committed == stakes[|stakes| - 1].committed
  {
    var tail := stakes[start..];
    var e :| e in tail && !e.folded && e.id == p;
    var k :| 0 <= k < |tail| && tail[k] == e;
    LaterIsMore(stakes, start, start + k);
    LaterIsMore(stakes, start + k, |stakes| - 1);
    assert stakes[start + k] == e;
  }

  lemma TopAmongLast(g: Game, stakes: seq<Stake>, start: nat, p: PlayerId)
    requires RankedStakes(stakes, g.players) && start < |stakes|
    requires forall k | 0 <= k < start :: stakes[k].committed < stakes[|stakes| - 1].committed
    requires p in g.players && !g.players[p].folded && g.players[p].committed == stakes[|stakes| - 1].committed
    ensures p in LiveIds(stakes[start..])
  {
    assert g.players[p].committed > 0;
    var k :| 0 <= k < |stakes| && stakes[k] == StakeOf(g.players, p);
    assert stakes[start..][k - start] == stakes[k];
  }

  lemma LaterIsMore(es: seq<Stake>, i: nat, j: nat)
    requires Ranked(es) && i <= j < |es|
    ensures es[i].committed <= es[j].committed
  {
  }

  /** Chips that leave the table at a showdown without an owner, or appear from nowhere: none, as
      long as every pot with chips in it has a winner. */
  lemma {:induction false} AllPaidIffWinnable(g: Game, evals: map<PlayerId, nat>, pots: seq<Pot>, k: nat)
    requires g.hand.Some? && k <= |pots| && evals.Keys <= Elems(NonFolded(g))
    requires forall i | 0 <= i < k :: pots[i].amount >= 0
    ensures PaidOut(evals, NonFolded(g), pots, k) <= Amounts(pots[..k])
    ensures PaidOut(evals, NonFolded(g), pots, k) == Amounts(pots[..k]) <==>
      forall i | 0 <= i < k :: pots[i].amount == 0 || Winnable(g, pots[i])
  {
    if k > 0 {
      AllPaidIffWinnable(g, evals, pots, k - 1);
      assert pots[..k] == pots[..k - 1] + [pots[k - 1]];
      AppendPot(pots[..k - 1], pots[k - 1]);
      NoWinnerIff(evals, pots[k - 1].eligible, NonFolded(g));
    }
  }

  lemma RakedAmounts(g: Game, stakes: seq<Stake>)
    requires g.hand.Some?
    ensures Amounts(RakedPots(g, stakes)) == Amounts(HandPots(g, stakes)) - Rake(g.hand.value.pot, g.config)
  {
    AmountsUpdate(HandPots(g, stakes), Rake(g.hand.value.pot, g.config));
  }

  lemma {:induction false} AmountsUpdate(pots: seq<Pot>, less: int)
    requires pots != []
    ensures Amounts(TakeRake(pots, less)) == Amounts(pots) - less
  {
    var n := |pots| - 1;
    if n > 0 {
      AmountsUpdate(pots[..n], less);
      assert TakeRake(pots, less)[..n] == TakeRake(pots[..n], less);
    }
  }

  // ── The whole batch ───────────────────────────────────────────────────────

  lemma {:induction false} NoRake(events: seq<Event>)
    requires forall e | e in events :: !e.RakeTaken?
    ensures RakeIn(events) == 0
  {
    if events != [] {
      LastBack(events);
      NoRake(events[..|events| - 1]);
      assert events[|events| - 1] in events;
    }
  }

  /** Announcements change the hand's phase and side-pot list only. */
  ghost predicate OnlyAnnounced(g: Game, g2: Game)
  {
    g.hand.Some? && g2.hand.Some? && g2 == g.(hand := g2.hand) && g2.hand.value.pot == g.hand.value.pot
  }

  lemma {:induction false} PlaySidePots(g: Game, pots: seq<Pot>)
    requires g.hand.Some?
    ensures OnlyAnnounced(g, Play(g, SidePotEvents(pots)))
  {
    if |pots| > 1 {
      PlaySidePots(g, pots[..|pots| - 1]);
      PlayLast(g, SidePotEvents(pots[..|pots| - 1]), SidePotCreated(pots[|pots| - 1]));
    }
  }

  lemma PlayRake(g: Game, rake: int)
    requires g.hand.Some?
    ensures var g2 := Play(g, RakeEvents(rake)); g2.hand.Some? && g2 == g.(hand := g2.hand)
  {
    if rake > 0 {
      PlayOne(g, RakeTaken(rake));
    }
  }

  lemma RakeBounds(pot: int, config: Config)
    requires ConfigOk(config) && pot >= 0
    ensures 0 <= Rake(pot, config) <= pot
  {
    if pot > 0 && config.rakeBps > 0 {
      assert pot * config.rakeBps <= pot * 10000;
    }
  }

  ghost function AfterShowdown(g: Game, stakes: seq<Stake>): (r: map<PlayerId, Player>)
    requires g.hand.Some?
    ensures r.Keys == g.players.Keys
  {
    var pots := RakedPots(g, stakes);
    Awarded(MapPlayers(g.players, NoBet()), Evals(g), NonFolded(g), pots, |pots|)
  }

  lemma PlayChain(g: Game, a: seq<Event>, b: seq<Event>, c: seq<Event>, d: seq<Event>, e: Event)
    ensures Play(g, a + b + c + d + [e]) == Effect(Play(Play(Play(Play(g, a), b), c), d), e, None)
  {
    PlayConcat(g, a, b);
    PlayConcat(g, a + b, c);
    PlayConcat(g, a + b + c, d);
    PlayLast(g, a + b + c + d, e);
  }

  lemma PlayAnnounce(g: Game, players: seq<PlayerId>)
    requires g.hand.Some?
    ensures OnlyAnnounced(g, Play(g, [ShowdownReached(players)]))
  {
    PlayOne(g, ShowdownReached(players));
  }

  /** A settlement pays the awards of the raked pots, takes the rake and ends the hand, and changes
      nothing else at the table. */
  lemma PlaySettle(g: Game, evals: map<PlayerId, nat>, nonFolded: seq<PlayerId>, pots: seq<Pot>, rake: int, n: int)
    requires g.hand.Some? && pots != []
    ensures Play(g, SettleEvents(evals, nonFolded, pots, rake, n))
         == g.(players := Awarded(g.players, evals, nonFolded, TakeRake(pots, rake), |pots|),
               hand := None, handNumber := n, status := if g.status == Active then Waiting else g.status)
    ensures RakeIn(SettleEvents(evals, nonFolded, pots, rake, n)) == if rake > 0 then rake else 0
  {
    RakeInSettle(evals, nonFolded, pots, rake, n);
    hide RakeIn;
    hide Effect, Play, Awarded, AwardEvents, SidePotEvents, RakeEvents;
    var opening, sides, raked := [ShowdownReached(nonFolded)], SidePotEvents(pots), RakeEvents(rake);
    var awards := AwardEvents(evals, nonFolded, TakeRake(pots, rake), |pots|);
    PlayChain(g, opening, sides, raked, awards, HandEnded(n));
    PlayAnnounce(g, nonFolded);
    var g1 := Play(g, opening);
    PlaySidePots(g1, pots);
    var g2 := Play(g1, sides);
    PlayRake(g2, rake);
    var g3 := Play(g2, raked);
    PlayAwards(g3, evals, nonFolded, TakeRake(pots, rake), |pots|);
    EndsHand(Play(g3, awards), n);
  }

  lemma EndsHand(g: Game, n: int)
    ensures Effect(g, HandEnded(n), None)
         == g.(handNumber := n, hand := None, status := if g.status == Active then Waiting else g.status)
  {
  }

  lemma RakeInSettle(evals: map<PlayerId, nat>, nonFolded: seq<PlayerId>, pots: seq<Pot>, rake: int, n: int)
    requires pots != []
    ensures RakeIn(SettleEvents(evals, nonFolded, pots, rake, n)) == if rake > 0 then rake else 0
  {
    var opening, sides, raked := [ShowdownReached(nonFolded)], SidePotEvents(pots), RakeEvents(rake);
    var awards := AwardEvents(evals, nonFolded, TakeRake(pots, rake), |pots|);
    SidePotsOnly(pots);
    AwardsOnly(evals, nonFolded, TakeRake(pots, rake), |pots|);
    NoRake(opening);
    NoRake(sides);
    NoRake(awards);
    NoRake([HandEnded(n)]);
    RakeInConcat(opening, sides);
    RakeInConcat(opening + sides, raked);
    RakeInConcat(opening + sides + raked, awards);
    RakeInConcat(opening + sides + raked + awards, [HandEnded(n)]);
    RakeInRake(rake);
  }

  lemma RakeInRake(rake: int)
    ensures RakeIn(RakeEvents(rake)) == if rake > 0 then rake else 0
  {
    assert rake > 0 ==> RakeEvents(rake)[..0] == [];
  }

  lemma PlayRoundEnd(g: Game)
    requires g.hand.Some?
    ensures Play(g, [BettingRoundEnded]) == EndRound(g)
    ensures RakeIn([BettingRoundEnded]) == 0
  {
    PlayOne(g, BettingRoundEnded);
    NoRake([BettingRoundEnded]);
  }

  /** The showdown as announced, raked, paid and ended. */
  lemma PlayShowdown(g: Game, luck: Luck)
    requires g.hand.Some? && g.hand.value.phase == River && NonFolded(g) != [] && |luck.cards| >= 3
    requires ConfigOk(g.config) && g.hand.value.pot >= 0
    ensures Play(g, StreetEvents(g, luck)).hand.None?
    ensures Play(g, StreetEvents(g, luck)).players == AfterShowdown(g, luck.stakes)
    ensures RakeIn(StreetEvents(g, luck)) == Rake(g.hand.value.pot, g.config)
  {
    hide Effect, Play, RakeIn, Evals, HandPots, SettleEvents, NonFolded, Rake, Awarded;
    var settle := ShowdownEvents(g, luck.stakes);
    PlayConcat(g, [BettingRoundEnded], settle);
    PlayRoundEnd(g);
    RakeBounds(g.hand.value.pot, g.config);
    PlaySettle(EndRound(g), Evals(g), NonFolded(g), HandPots(g, luck.stakes), Rake(g.hand.value.pot, g.config),
               g.handNumber + 1);
    RakeInConcat([BettingRoundEnded], settle);
    RakeInSettle(Evals(g), NonFolded(g), HandPots(g, luck.stakes), Rake(g.hand.value.pot, g.config), g.handNumber + 1);
  }

  // ── The results ───────────────────────────────────────────────────────────

  lemma AfterShowdownTotal(g: Game, stakes: seq<Stake>)
    requires AtShowdown(g, stakes)
    ensures StackTotal(AfterShowdown(g, stakes)) == StackTotal(g.players)
      + PaidOut(Evals(g), NonFolded(g), RakedPots(g, stakes), |RakedPots(g, stakes)|)
  {
    var cleared, pots := MapPlayers(g.players, NoBet()), RakedPots(g, stakes);
    HandPotsOk(g, stakes);
    SameStacksSameTotal(g.players, cleared);
    AwardsPayOut(cleared, Evals(g), NonFolded(g), pots, |pots|);
  }

  /** The result of a showdown balances: stacks after, plus rake, equal stacks and pot before. */
  ghost predicate Balanced(g: Game, luck: Luck)
    requires g.hand.Some? && Plausible(luck, g)
  {
    ChipCount(Play(g, StreetEvents(g, luck))) + RakeIn(StreetEvents(g, luck)) == ChipCount(g)
  }

  ghost predicate ShowdownDue(g: Game, luck: Luck)
  {
    Plausible(luck, g) && AtShowdown(g, luck.stakes) && g.hand.value.phase == River
  }

  lemma BalancedIffPaid(g: Game, luck: Luck)
    requires ShowdownDue(g, luck)
    ensures Balanced(g, luck) <==>
      PaidOut(Evals(g), NonFolded(g), RakedPots(g, luck.stakes), |RakedPots(g, luck.stakes)|)
        == Amounts(RakedPots(g, luck.stakes))
  {
    CommitAtLeast(g.players, 0);
    PlayShowdown(g, luck);
    AfterShowdownTotal(g, luck.stakes);
    PotsHoldThePot(g, luck.stakes);
    RakedAmounts(g, luck.stakes);
  }

  lemma EvalsAreNonFolded(g: Game)
    requires g.hand.Some?
    ensures Evals(g).Keys <= Elems(NonFolded(g))
  {
  }

  lemma SidePotsPositive(g: Game, stakes: seq<Stake>)
    requires AtShowdown(g, stakes)
    ensures forall k | 0 < k < |HandPots(g, stakes)| :: HandPots(g, stakes)[k].amount > 0
    ensures HandPots(g, stakes)[0].amount >= 0
    ensures Shrinking(HandPots(g, stakes))
  {
    PotsShrink(stakes, g.hand.value.order);
    PotsHoldThePot(g, stakes);
    CommitAtLeast(g.players, 0);
  }

  ghost predicate EveryPotPaid(g: Game, pots: seq<Pot>)
    requires g.hand.Some?
  {
    forall k | 0 <= k < |pots| :: pots[k].amount == 0 || Winnable(g, pots[k])
  }

  /** Taking rake off a main pot that covers it leaves a pot unpaid exactly when the last pot has
      no winner — unless the rake takes everything. */
  lemma RakedPaidIff(g: Game, pots: seq<Pot>, rake: int)
    requires g.hand.Some? && pots != [] && Shrinking(pots)
    requires forall k | 0 < k < |pots| :: pots[k].amount > 0
    requires 0 <= rake <= pots[0].amount
    ensures EveryPotPaid(g, TakeRake(pots, rake)) <==>
      Winnable(g, pots[|pots| - 1]) || Amounts(pots) == rake
  {
    var raked := TakeRake(pots, rake);
    OnePotHoldsAll(pots);
    LastWinnableAllWinnable(g, pots);
    assert forall k | 0 <= k < |pots| :: Winnable(g, raked[k]) <==> Winnable(g, pots[k]);
    assert |pots| > 1 ==> raked[|pots| - 1] == pots[|pots| - 1];
  }

  lemma ShowdownFacts(g: Game, stakes: seq<Stake>)
    requires AtShowdown(g, stakes)
    ensures 0 <= Rake(g.hand.value.pot, g.config) <= g.hand.value.pot
    ensures Shrinking(HandPots(g, stakes))
    ensures forall k | 0 < k < |HandPots(g, stakes)| :: HandPots(g, stakes)[k].amount > 0
    ensures HandPots(g, stakes)[0].amount >= 0
    ensures Amounts(HandPots(g, stakes)) == g.hand.value.pot
  {
    CommitAtLeast(g.players, 0);
    RakeBounds(g.hand.value.pot, g.config);
    PotsHoldThePot(g, stakes);
    SidePotsPositive(g, stakes);
  }

  lemma DueMeansShowdown(g: Game, luck: Luck)
    requires ShowdownDue(g, luck)
    ensures AtShowdown(g, luck.stakes) && g.hand.Some?
  {
  }

  /** As long as the rake fits into the main pot, a showdown conserves chips exactly when somebody
      still contending put in as much as anybody — or the rake takes the whole pot. */
  lemma ConservedIffTopContributorLive(g: Game, luck: Luck)
    requires ShowdownDue(g, luck)
    requires Rake(g.hand.value.pot, g.config) <= HandPots(g, luck.stakes)[0].amount
    ensures Balanced(g, luck) <==> TopContributorLive(g) || g.hand.value.pot == Rake(g.hand.value.pot, g.config)
  {
    hide *;
    DueMeansShowdown(g, luck);
    ShowdownFacts(g, luck.stakes);
    RakedPaidIff(g, HandPots(g, luck.stakes), Rake(g.hand.value.pot, g.config));
    BalancedIffAllPaid(g, luck);
    LastPotOrNothing(g, luck.stakes);
    RakeOfNothing(g.config);
  }

  /** With somebody still contending who put in as much as anybody, a showdown conserves chips
      exactly when the rake fits into the main pot. */
  lemma ConservedIffRakeFits(g: Game, luck: Luck)
    requires ShowdownDue(g, luck) && TopContributorLive(g)
    ensures Balanced(g, luck) <==> Rake(g.hand.value.pot, g.config) <= HandPots(g, luck.stakes)[0].amount
  {
    hide *;
    DueMeansShowdown(g, luck);
    if Rake(g.hand.value.pot, g.config) <= HandPots(g, luck.stakes)[0].amount {
      ConservedIffTopContributorLive(g, luck);
    } else {
      ShowdownFacts(g, luck.stakes);
      LastPotOrNothing(g, luck.stakes);
      LastWinnableAllWinnable(g, HandPots(g, luck.stakes));
      NoOrphans(g, HandPots(g, luck.stakes), |HandPots(g, luck.stakes)|);
      OverRakedIff(g, luck);
    }
  }

  lemma RakeOfNothing(config: Config)
    ensures Rake(0, config) == 0
  {
  }

  lemma LastPotOrNothing(g: Game, stakes: seq<Stake>)
    requires AtShowdown(g, stakes)
    ensures (Winnable(g, HandPots(g, stakes)[|HandPots(g, stakes)| - 1]) <==> TopContributorLive(g))
        || g.hand.value.pot == 0
  {
    if stakes == [] {
      PotsHoldThePot(g, stakes);
    } else {
      LastPotWinnable(g, stakes);
    }
  }

  lemma BalancedIffAllPaid(g: Game, luck: Luck)
    requires ShowdownDue(g, luck)
    requires Rake(g.hand.value.pot, g.config) <= HandPots(g, luck.stakes)[0].amount
    ensures Balanced(g, luck) <==>
      EveryPotPaid(g, TakeRake(HandPots(g, luck.stakes), Rake(g.hand.value.pot, g.config)))
  {
    hide Effect, Play, HandOk, PotsOf, StreetEvents, Evals, NonFolded, ChipCount, Rake, Winnable, RankedStakes;
    var raked := RakedPots(g, luck.stakes);
    BalancedIffPaid(g, luck);
    EvalsAreNonFolded(g);
    SidePotsPositive(g, luck.stakes);
    AllPaidIffWinnable(g, Evals(g), raked, |raked|);
    assert raked[..|raked|] == raked;
  }

  /** What side pots nobody left can win hold. */
  ghost function Orphaned(g: Game, pots: seq<Pot>, k: nat): int
    requires g.hand.Some? && k <= |pots|
  {
    if k <= 1 then 0 else Orphaned(g, pots, k - 1) + if Winnable(g, pots[k - 1]) then 0 else pots[k - 1].amount
  }

  lemma {:induction false} NoOrphans(g: Game, pots: seq<Pot>, k: nat)
    requires g.hand.Some? && k <= |pots| && forall i | 0 <= i < k :: Winnable(g, pots[i])
    ensures Orphaned(g, pots, k) == 0
  {
    if k > 1 {
      NoOrphans(g, pots, k - 1);
    }
  }

  /** A rake larger than the main pot leaves a negative pot that is passed over. */
  lemma {:induction false} OverPaid(g: Game, evals: map<PlayerId, nat>, pots: seq<Pot>, raked: seq<Pot>, k: nat)
    requires g.hand.Some? && 0 < k <= |pots| == |raked| && evals.Keys <= Elems(NonFolded(g))
    requires raked[0].amount < 0 && forall i | 0 < i < k :: pots[i].amount > 0 && raked[i] == pots[i]
    ensures PaidOut(evals, NonFolded(g), raked, k) == Amounts(raked[..k]) - raked[0].amount - Orphaned(g, pots, k)
  {
    assert raked[..k] == raked[..k - 1] + [raked[k - 1]];
    AppendPot(raked[..k - 1], raked[k - 1]);
    if k > 1 {
      OverPaid(g, evals, pots, raked, k - 1);
      NoWinnerIff(evals, raked[k - 1].eligible, NonFolded(g));
    }
  }

  lemma OverRakedIff(g: Game, luck: Luck)
    requires ShowdownDue(g, luck)
    requires Rake(g.hand.value.pot, g.config) > HandPots(g, luck.stakes)[0].amount
    ensures Balanced(g, luck) <==>
      Rake(g.hand.value.pot, g.config) - HandPots(g, luck.stakes)[0].amount
        == Orphaned(g, HandPots(g, luck.stakes), |HandPots(g, luck.stakes)|)
  {
    hide Effect, Play, HandOk, PotsOf, StreetEvents, Evals, NonFolded, ChipCount, Rake, Winnable, RankedStakes;
    var pots, raked := HandPots(g, luck.stakes), RakedPots(g, luck.stakes);
    ShowdownFacts(g, luck.stakes);
    BalancedIffPaid(g, luck);
    EvalsAreNonFolded(g);
    OverPaid(g, Evals(g), pots, raked, |raked|);
    assert raked[..|raked|] == raked;
  }

  /** Exactly when a showdown conserves chips: a rake that fits into the main pot is harmless as
      long as somebody still contending put in as much as anybody; a larger one has to match, chip
      for chip, what the side pots nobody can win hold. */
  ghost predicate PaysFully(g: Game, stakes: seq<Stake>)
    requires g.hand.Some?
  {
    var pots, rake := HandPots(g, stakes), Rake(g.hand.value.pot, g.config);
    if rake <= pots[0].amount then TopContributorLive(g) || g.hand.value.pot == rake
    else rake - pots[0].amount == Orphaned(g, pots, |pots|)
  }

  lemma BalancedIffPaysFully(g: Game, luck: Luck)
    requires ShowdownDue(g, luck)
    ensures Balanced(g, luck) <==> PaysFully(g, luck.stakes)
  {
    hide Balanced, ShowdownDue, HandPots, Rake, TopContributorLive, Orphaned;
    DueMeansShowdown(g, luck);
    if Rake(g.hand.value.pot, g.config) <= HandPots(g, luck.stakes)[0].amount {
      ConservedIffTopContributorLive(g, luck);
    } else {
      OverRakedIff(g, luck);
    }
  }

  lemma OnePotHoldsAll(pots: seq<Pot>)
    requires pots != [] && forall k | 0 < k < |pots| :: pots[k].amount > 0
    ensures pots[0].amount <= Amounts(pots)
    ensures |pots| > 1 ==> pots[0].amount < Amounts(pots)
    ensures |pots| == 1 ==> pots[0].amount == Amounts(pots)
  {
    if |pots| == 1 {
      AppendPot([], pots[0]);
      assert [] + [pots[0]] == pots;
    } else {
      OnePotHoldsAll(pots[..|pots| - 1]);
    }
  }

  // ── Nobody wins more than they matched ────────────────────────────────────

  /** What all players put in, up to a cap each. */
  function CappedCommitments(players: map<PlayerId, Player>, cap: int): map<PlayerId, int>
  {
    map p | p in players :: Min(players[p].committed, cap)
  }

  lemma {:induction false} CappedTotal(es: seq<Stake>, m: map<PlayerId, int>, cap: int)
    requires DistinctIds(es) && forall i | 0 <= i < |es| :: es[i].id in m && m[es[i].id] == Min(es[i].committed, cap)
    requires forall p | p in m :: m[p] == 0 || exists i :: 0 <= i < |es| && es[i].id == p
    ensures Capped(es, cap) == Total(m)
  {
    if es == [] {
      TotalOfZeros(m);
    } else {
      var rest, last := es[..|es| - 1], es[|es| - 1];
      TotalUpdate(m, last.id, 0);
      forall p | p in m && m[p] != 0 && p != last.id ensures exists i :: 0 <= i < |rest| && rest[i].id == p {
        var i :| 0 <= i < |es| && es[i].id == p;
        assert rest[i].id == p;
      }
      CappedTotal(rest, m[last.id := 0], cap);
    }
  }

  lemma CappedOverPlayers(g: Game, stakes: seq<Stake>, cap: int)
    requires AtShowdown(g, stakes) && cap >= 0
    ensures Capped(stakes, cap) == Total(CappedCommitments(g.players, cap))
  {
    var m := CappedCommitments(g.players, cap);
    forall p | p in m && m[p] != 0 ensures exists i :: 0 <= i < |stakes| && stakes[i].id == p {
      assert BetOk(g.players[p], g.hand.value);
      assert StakeOf(g.players, p) in stakes;
    }
    CappedTotal(stakes, m, cap);
  }

  /** Raking the main pot only lowers what a player can win. */
  lemma {:induction false} RakedWithin(pots: seq<Pot>, rake: int, p: PlayerId, k: nat)
    requires pots != [] && rake >= 0 && k <= |pots| && forall i | 0 <= i < |pots| :: pots[i].amount >= 0
    ensures Positive(TakeRake(pots, rake), p, k) <= Within(pots[..k], p)
  {
    if k > 0 {
      RakedWithin(pots, rake, p, k - 1);
      assert pots[..k] == pots[..k - 1] + [pots[k - 1]];
      AppendPot(pots[..k - 1], pots[k - 1]);
    }
  }

  lemma WithinNothing(pots: seq<Pot>, p: PlayerId, ok: set<PlayerId>)
    requires forall k | 0 <= k < |pots| :: Elems(pots[k].eligible) <= ok
    requires p !in ok
    ensures Within(pots, p) == 0
  {
    if pots != [] {
      WithinNothing(pots[..|pots| - 1], p, ok);
      assert p !in Elems(pots[|pots| - 1].eligible);
    }
  }

  /** What the pots hold for a player is what everybody put in up to that player's commitment,
      and nothing for a player who folded. */
  lemma WithinHandPots(g: Game, stakes: seq<Stake>, p: PlayerId)
    requires AtShowdown(g, stakes) && p in g.players
    ensures Within(HandPots(g, stakes), p) == 0
      || (!g.players[p].folded
          && Within(HandPots(g, stakes), p) == Total(CappedCommitments(g.players, g.players[p].committed)))
  {
    var pots := PotsOf(stakes, g.hand.value.order);
    assert BetOk(g.players[p], g.hand.value);
    if pots == [] {
      PotsHoldThePot(g, stakes);
      AppendPot([], HandPots(g, stakes)[0]);
      assert [] + [HandPots(g, stakes)[0]] == HandPots(g, stakes);
    } else if p in LiveIds(stakes) {
      var e :| e in stakes && !e.folded && e.id == p;
      var x :| 0 <= x < |stakes| && stakes[x] == e;
      WinnableIsMatched(stakes, g.hand.value.order, x);
      CappedOverPlayers(g, stakes, g.players[p].committed);
    } else {
      PotsShrink(stakes, g.hand.value.order);
      WithinNothing(pots, p, LiveIds(stakes));
    }
  }

  /** At a showdown nobody loses chips from their stack, nobody wins more than the sum over all
      players of the smaller of the two commitments, and folded players win nothing. */
  lemma WinningsAreMatched(g: Game, stakes: seq<Stake>, p: PlayerId)
    requires AtShowdown(g, stakes) && p in g.players
    ensures 0 <= AfterShowdown(g, stakes)[p].stack - g.players[p].stack
              <= Total(CappedCommitments(g.players, g.players[p].committed))
    ensures g.players[p].folded ==> AfterShowdown(g, stakes)[p].stack == g.players[p].stack
  {
    hide Effect, Play, PotsOf, StreetEvents, Evals, NonFolded, Rake, RankedStakes, Total, Within;
    var pots, raked := HandPots(g, stakes), RakedPots(g, stakes);
    ShowdownFacts(g, stakes);
    HandPotsOk(g, stakes);
    var cleared := MapPlayers(g.players, NoBet());
    AwardsEach(cleared, Evals(g), NonFolded(g), raked, |raked|, p);
    RakedWithin(pots, Rake(g.hand.value.pot, g.config), p, |pots|);
    assert pots[..|pots|] == pots;
    WithinHandPots(g, stakes, p);
    assert BetOk(g.players[p], g.hand.value);
    NonNegativeCaps(g, g.players[p].committed);
  }

  lemma NonNegativeCaps(g: Game, cap: int)
    requires TableOk(g) && g.hand.Some? && cap >= 0
    ensures Total(CappedCommitments(g.players, cap)) >= 0
  {
    forall p | p in g.players ensures CappedCommitments(g.players, cap)[p] >= 0 {
      assert BetOk(g.players[p], g.hand.value);
    }
    TotalAtLeast(CappedCommitments(g.players, cap), 0);
  }
}
