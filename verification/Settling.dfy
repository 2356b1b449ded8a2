/** The showdown as the server computes it: who is left, whose hand is best, which pot goes where. */
module Settling {
  import opened Collections
  import opened Table
  import opened Pots
  import opened Lifecycle
  import BestHand

  method NonFoldedIds(g: Game) returns (out: seq<PlayerId>)
    requires g.hand.Some?
    ensures out == NonFolded(g)
    ensures forall p :: p in out <==> p in g.hand.value.order && p in g.players && !g.players[p].folded
  {
    out := [];
    var order := g.hand.value.order;
    for i := 0 to |order|
      invariant out == Select(order[..i], UnfoldedIds(g.players))
    {
      assert order[..i + 1][..i] == order[..i];
      if order[i] in g.players && !g.players[order[i]].folded {
        out := out + [order[i]];
      }
    }
    assert order[..|order|] == order;
    SelectElems(order, UnfoldedIds(g.players));
  }

  method NonFoldedCount(g: Game) returns (n: nat)
    requires g.hand.Some?
    ensures n == |NonFolded(g)|
  {
    n := 0;
    var order := g.hand.value.order;
    for i := 0 to |order|
      invariant n == |Select(order[..i], UnfoldedIds(g.players))|
    {
      assert order[..i + 1][..i] == order[..i];
      if order[i] in g.players && !g.players[order[i]].folded {
        n := n + 1;
      }
    }
    assert order[..|order|] == order;
  }

  /** The first player of the order left in the hand. */
  method FirstLeft(g: Game) returns (first: Option<PlayerId>)
    requires g.hand.Some?
    ensures first.None? <==> NonFolded(g) == []
    ensures first.Some? ==> NonFolded(g) != [] && first.value == NonFolded(g)[0]
  {
    var order := g.hand.value.order;
    for i := 0 to |order|
      invariant Select(order[..i], UnfoldedIds(g.players)) == []
    {
      assert order[..i + 1][..i] == order[..i];
      if order[i] in g.players && !g.players[order[i]].folded {
        FirstSelected(order, UnfoldedIds(g.players), i);
        return Some(order[i]);
      }
    }
    assert order[..|order|] == order;
    first := None;
  }

  /** The first member kept is the first of the selection. */
  lemma {:induction false} FirstSelected<T>(s: seq<T>, keep: set<T>, i: nat)
    requires i < |s| && s[i] in keep && Select(s[..i], keep) == []
    ensures Select(s, keep) != [] && Select(s, keep)[0] == s[i]
    decreases |s|
  {
    var front := s[..|s| - 1];
    if i < |front| {
      assert front[..i] == s[..i];
      FirstSelected(front, keep, i);
    } else {
      assert front == s[..i];
    }
  }

  /** The first player of the order left in the hand who is eligible. */
  method FirstEligibleInOrder(g: Game, eligible: seq<PlayerId>) returns (first: Option<PlayerId>)
    requires g.hand.Some?
    ensures first.None? <==> Select(NonFolded(g), Elems(eligible)) == []
    ensures first.Some? ==>
      Select(NonFolded(g), Elems(eligible)) != [] && first.value == Select(NonFolded(g), Elems(eligible))[0]
  {
    var order := g.hand.value.order;
    var lookup := Elems(eligible);
    ghost var both := UnfoldedIds(g.players) * lookup;
    SelectTwice(order, UnfoldedIds(g.players), lookup);
    for i := 0 to |order|
      invariant Select(order[..i], both) == []
    {
      assert order[..i + 1][..i] == order[..i];
      if order[i] in g.players && !g.players[order[i]].folded && order[i] in lookup {
        FirstSelected(order, both, i);
        return Some(order[i]);
      }
    }
    assert order[..|order|] == order;
    first := None;
  }

  /** Players whose evaluated hand has exactly this rank. */
  function AtRank(evals: map<PlayerId, nat>, rank: nat): set<PlayerId>
  {
    set p | p in evals && evals[p] == rank
  }

  lemma {:induction false} SelectNone<T>(s: seq<T>, keep: set<T>)
    requires forall x | x in s :: x !in keep
    ensures Select(s, keep) == []
  {
    if s != [] {
      SelectNone(s[..|s| - 1], keep);
    }
  }

  /** The winners of a pot, found in one pass over the eligible players. */
  method PotWinners(evals: map<PlayerId, nat>, eligible: seq<PlayerId>, g: Game) returns (winners: seq<PlayerId>)
    requires g.hand.Some?
    ensures winners == Winners(evals, eligible, NonFolded(g))
    ensures (exists p :: p in eligible && p in evals) ==>
      forall p :: p in winners <==>
        p in eligible && p in evals && forall q | q in eligible && q in evals :: evals[q] <= evals[p]
  {
    winners := [];
    var best := 0;
    for i := 0 to |eligible|
      invariant winners == [] ==> forall p | p in eligible[..i] :: p !in evals
      invariant winners != [] ==> winners == Select(eligible[..i], AtRank(evals, best))
      invariant winners != [] ==> exists p :: p in eligible[..i] && p in AtRank(evals, best)
      invariant forall p | p in eligible[..i] && p in evals && winners != [] :: evals[p] <= best
    {
      var pid := eligible[i];
      assert eligible[..i + 1] == eligible[..i] + [pid];
      assert eligible[..i + 1][..i] == eligible[..i];
      if pid !in evals {
        continue;
      }
      if |winners| == 0 || evals[pid] > best {
        best := evals[pid];
        SelectNone(eligible[..i], AtRank(evals, best));
        winners := [pid];
        assert pid in AtRank(evals, best);
      } else if evals[pid] == best {
        winners := winners + [pid];
      }
    }
    assert eligible[..|eligible|] == eligible;
    if winners != [] {
      SelectElems(eligible, AtRank(evals, best));
      SelectSame(eligible, AtRank(evals, best), TopIds(evals, eligible));
    } else {
      SelectNone(eligible, TopIds(evals, eligible));
      var first := FirstEligibleInOrder(g, eligible);
      if first.Some? {
        winners := [first.value];
      }
    }
  }

  /** Best hands of everyone left, in turn. */
  method Evaluate(g: Game, nonFolded: seq<PlayerId>) returns (evals: map<PlayerId, nat>)
    requires g.hand.Some? && nonFolded == NonFolded(g)
    ensures evals == Evals(g)
  {
    var board := Board(g.hand.value);
    evals := map[];
    for i := 0 to |nonFolded|
      invariant forall p :: p in evals <==> p in nonFolded[..i] && p in Evals(g)
      invariant forall p | p in evals :: evals[p] == Evals(g)[p]
    {
      var pid := nonFolded[i];
      assert nonFolded[..i + 1] == nonFolded[..i] + [pid];
      assert pid in nonFolded;
      if pid !in g.players || g.players[pid].hole.None? {
        continue;
      }
      var hole := g.players[pid].hole.value;
      var rank, five := BestHand.FindBest(hole.card1, hole.card2, board);
      evals := evals[pid := rank];
    }
    assert nonFolded[..|nonFolded|] == nonFolded;
    assert evals == Evals(g);
  }

  lemma ShareIsFloor(part: nat, amount: nat)
    ensures var share := part / 10000;
      share * 10000 <= part < (share + 1) * 10000 && (part <= amount * 10000 ==> share <= amount)
  {
  }

  lemma PartOf(amount: nat, bps: nat)
    ensures amount * bps >= 0 && (bps <= 10000 ==> amount * bps <= amount * 10000)
  {
    if bps <= 10000 {
      assert amount * bps + amount * (10000 - bps) == amount * 10000;
    }
  }

  /** The share of part, rounded down, or the cap when that is less. */
  predicate FloorOrCap(rake: int, part: int, cap: int)
  {
    && 0 <= rake * 10000 <= part && (cap > 0 ==> rake <= cap)
    && (cap <= 0 || rake < cap ==> part < (rake + 1) * 10000)
  }

  /** The rake never exceeds the cap, nor the pot at the rates the server admits. */
  method ComputeRake(amount: int, config: Config) returns (rake: int)
    ensures rake == Rake(amount, config)
    ensures if config.rakeBps <= 0 || amount <= 0 then rake == 0
            else FloorOrCap(rake, amount * config.rakeBps, config.rakeCap)
    ensures 0 <= rake && (config.rakeBps <= 10000 && amount >= 0 ==> rake <= amount)
  {
    if config.rakeBps <= 0 || amount <= 0 {
      return 0;
    }
    var part := amount * config.rakeBps;
    PartOf(amount, config.rakeBps);
    ShareIsFloor(part, amount);
    rake := part / 10000;
    if config.rakeCap > 0 && rake > config.rakeCap {
      rake := config.rakeCap;
    }
  }

  /** Announcement, side pots, rake, awards and the end of the hand. */
  method EndHandShowdown(g: Game) returns (events: seq<Event>, stakes: seq<Stake>)
    requires g.hand.Some?
    ensures RankedStakes(stakes, g.players) && events == ShowdownEvents(g, stakes)
  {
    hide Evals, NonFolded, PotsOf, Rake, RankedStakes, Winners;
    var pots;
    var h := g.hand.value;
    pots, stakes := ComputePots(g.players, h.order);
    var nonFolded := NonFoldedIds(g);
    if |nonFolded| == 0 {
      return [], stakes;
    }
    var evals := Evaluate(g, nonFolded);
    if |pots| == 0 {
      pots := [Pot(h.pot, nonFolded)];
    }
    assert pots == HandPots(g, stakes);
    events := [ShowdownReached(nonFolded)];
    for i := 1 to |pots|
      invariant events == [ShowdownReached(nonFolded)] + SidePotEvents(pots[..i])
    {
      assert pots[..i + 1][..i] == pots[..i];
      events := events + [SidePotCreated(pots[i])];
    }
    assert pots[..|pots|] == pots;
    var rake := ComputeRake(h.pot, g.config);
    if rake > 0 {
      events := events + [RakeTaken(rake)];
    }
    var raked := if rake > 0 then TakeRake(pots, rake) else pots;
    NoRakeNoChange(h.pot, g.config, pots);
    ghost var before := events;
    for i := 0 to |raked|
      invariant events == before + AwardEvents(evals, nonFolded, raked, i)
    {
      if raked[i].amount <= 0 {
        continue;
      }
      var winners := PotWinners(evals, raked[i].eligible, g);
      if |winners| == 0 {
        continue;
      }
      events := events + [PotAwarded(raked[i].amount, winners)];
    }
    events := events + [HandEnded(g.handNumber + 1)];
    assert before == [ShowdownReached(nonFolded)] + SidePotEvents(pots) + RakeEvents(rake);
  }

  lemma NoRakeNoChange(amount: int, config: Config, pots: seq<Pot>)
    requires pots != []
    ensures Rake(amount, config) >= 0
    ensures Rake(amount, config) == 0 ==> TakeRake(pots, Rake(amount, config)) == pots
  {
    assert pots[0].(amount := pots[0].amount - 0) == pots[0];
  }
}
