/** What the server does on its own: time-outs, streets, showdowns, new hands. */
module Lifecycle {
  import opened Collections
  import opened Cards
  import opened Table
  import opened Pots
  import BestHand

  /** Everything advance does not read from the state: the new hand's id, the cards the dealer
      hands out, and the orders in which maps are visited and ties sorted. */
  datatype Luck = Luck(handId: nat, cards: seq<Card>, visit: seq<PlayerId>, stakes: seq<Stake>)

  ghost predicate Plausible(luck: Luck, g: Game)
  {
    && |luck.cards| >= 2 * |g.players| + 3
    && Distinct(luck.visit) && Elems(luck.visit) == g.players.Keys
    && RankedStakes(luck.stakes, g.players)
  }

  // ── Luck is always possible ───────────────────────────────────────────────

  /** The stakes of the given players. */
  function StakesOf(players: map<PlayerId, Player>, ids: seq<PlayerId>): (es: seq<Stake>)
    requires forall p | p in ids :: p in players
    ensures |es| == |ids| && forall i | 0 <= i < |es| :: es[i] == StakeOf(players, ids[i])
  {
    seq(|ids|, i requires 0 <= i < |ids| => StakeOf(players, ids[i]))
  }

  function Committers(players: map<PlayerId, Player>): set<PlayerId>
  {
    set p | p in players && players[p].committed > 0
  }

  lemma StakesOfCommitters(players: map<PlayerId, Player>, ids: seq<PlayerId>)
    requires Distinct(ids) && Elems(ids) == Committers(players) && forall p | p in ids :: p in players
    ensures var es := StakesOf(players, ids);
      && DistinctIds(es)
      && (forall e | e in es :: e.id in players && e == StakeOf(players, e.id) && e.committed > 0)
      && (forall p | p in players && players[p].committed > 0 :: StakeOf(players, p) in es)
  {
    var es := StakesOf(players, ids);
    assert forall i | 0 <= i < |ids| :: ids[i] in Elems(ids);
    forall p | p in players && players[p].committed > 0 ensures StakeOf(players, p) in es {
      assert p in Elems(ids);
      var i :| 0 <= i < |ids| && ids[i] == p;
      assert es[i] == StakeOf(players, p);
    }
  }

  lemma SomeRanking(players: map<PlayerId, Player>) returns (es: seq<Stake>)
    ensures RankedStakes(es, players)
  {
    hide StakesOf, RankedStakes;
    var ids := Enumerate(Committers(players));
    forall p | p in ids ensures p in players {
      assert p in Elems(ids);
    }
    StakesOfCommitters(players, ids);
    var entries := StakesOf(players, ids);
    es := SortedBy(entries, ByCommitment());
    RankedBySorting(entries, es, players);
  }

  /** Enough cards to fill any batch's need. */
  function Filled(cards: seq<Card>, n: nat): (all: seq<Card>)
    ensures |all| >= n && |all| >= |cards| && all[..|cards|] == cards
  {
    cards + seq(n, _ => 0)
  }

  lemma SomeLuck(g: Game, cards: seq<Card>, handId: nat) returns (luck: Luck)
    ensures Plausible(luck, g) && luck.handId == handId && |luck.cards| >= |cards| && luck.cards[..|cards|] == cards
  {
    var visit := Enumerate(g.players.Keys);
    var stakes := SomeRanking(g.players);
    luck := Luck(handId, Filled(cards, 2 * |g.players| + 3), visit, stakes);
  }

  // ── Who is in the hand ────────────────────────────────────────────────────

  function UnfoldedIds(players: map<PlayerId, Player>): set<PlayerId>
  {
    set p | p in players && !players[p].folded
  }

  /** The players of the action order who have not folded, in that order. */
  function NonFolded(g: Game): seq<PlayerId>
    requires g.hand.Some?
  {
    Select(g.hand.value.order, UnfoldedIds(g.players))
  }

  function BustedIds(players: map<PlayerId, Player>): set<PlayerId>
  {
    set p | p in players && players[p].stack == 0 && !players[p].sittingOut
  }

  // ── Rake ──────────────────────────────────────────────────────────────────

  function Rake(amount: int, config: Config): int
  {
    if config.rakeBps <= 0 || amount <= 0 then 0 else
      var rake := amount * config.rakeBps / 10000;
      if config.rakeCap > 0 && rake > config.rakeCap then config.rakeCap else rake
  }

  // ── Time-outs ─────────────────────────────────────────────────────────────

  /** now == 0 stands for the zero time, at which no deadline is enforced. */
  predicate TimedOut(g: Game, now: nat)
    requires g.hand.Some?
  {
    var h := g.hand.value;
    h.acting.Some? && h.deadline.Some? && now != 0 && now > h.deadline.value
  }

  /** The default action folds to a live bet and checks otherwise. */
  function TimeoutAction(g: Game): seq<Event>
    requires g.hand.Some? && g.hand.value.acting.Some?
  {
    var pid := g.hand.value.acting.value;
    [PlayerTimedOut(pid),
     if pid in g.players && g.hand.value.highest > g.players[pid].currentBet
     then PlayerFolded(pid) else PlayerChecked(pid)]
  }

  function NextAction(g: Game, now: nat): seq<Event>
    requires g.hand.Some? && g.hand.value.pending != []
  {
    var timeout := g.config.actionTimeout;
    [ActionStarted(g.hand.value.pending[0], if timeout > 0 && now != 0 then Some(now + timeout) else None)]
  }

  // ── Showdown ──────────────────────────────────────────────────────────────

  function Board(h: Hand): seq<Card>
  {
    (if h.flop.Some? then [h.flop.value.card1, h.flop.value.card2, h.flop.value.card3] else [])
    + (if h.turn.Some? then [h.turn.value] else [])
    + (if h.river.Some? then [h.river.value] else [])
  }

  /** The best hand of every player of the action order who has not folded and holds cards. */
  ghost function Evals(g: Game): map<PlayerId, nat>
    requires g.hand.Some?
  {
    map p | p in g.players && p in NonFolded(g) && g.players[p].hole.Some? ::
      BestHand.PoolRank([g.players[p].hole.value.card1, g.players[p].hole.value.card2] + Board(g.hand.value))
  }

  /** Players of ids with an evaluated hand that no other evaluated hand of ids beats. */
  function TopIds(evals: map<PlayerId, nat>, ids: seq<PlayerId>): set<PlayerId>
  {
    set p | p in ids && p in evals && forall q | q in ids && q in evals :: evals[q] <= evals[p]
  }

  /** The winners of a pot; with no evaluated hand, the first eligible player in action order. */
  function Winners(evals: map<PlayerId, nat>, eligible: seq<PlayerId>, nonFolded: seq<PlayerId>): seq<PlayerId>
  {
    var top := Select(eligible, TopIds(evals, eligible));
    if top != [] then top else
      var first := Select(nonFolded, Elems(eligible));
      if first == [] then [] else [first[0]]
  }

  function SidePotEvents(pots: seq<Pot>): seq<Event>
  {
    if |pots| <= 1 then [] else SidePotEvents(pots[..|pots| - 1]) + [SidePotCreated(pots[|pots| - 1])]
  }

  function RakeEvents(rake: int): seq<Event>
  {
    if rake > 0 then [RakeTaken(rake)] else []
  }

  /** The awards of the first k pots: empty pots and pots nobody can win are passed over. */
  function AwardEvents(evals: map<PlayerId, nat>, nonFolded: seq<PlayerId>, pots: seq<Pot>, k: nat): seq<Event>
    requires k <= |pots|
  {
    if k == 0 then [] else
      var winners := Winners(evals, pots[k - 1].eligible, nonFolded);
      AwardEvents(evals, nonFolded, pots, k - 1) +
      if pots[k - 1].amount <= 0 || winners == [] then [] else [PotAwarded(pots[k - 1].amount, winners)]
  }

  /** The pots of the hand; one pot for everybody when nobody is recorded as a contributor. */
  function HandPots(g: Game, stakes: seq<Stake>): (pots: seq<Pot>)
    requires g.hand.Some?
    ensures pots != []
  {
    var pots := PotsOf(stakes, g.hand.value.order);
    if pots == [] then [Pot(g.hand.value.pot, NonFolded(g))] else pots
  }

  /** Rake comes out of the main pot. */
  function TakeRake(pots: seq<Pot>, rake: int): (raked: seq<Pot>)
    requires pots != []
    ensures |raked| == |pots|
  {
    pots[0 := pots[0].(amount := pots[0].amount - rake)]
  }

  /** Announcement, side pots, rake, awards and the end of the hand. */
  function SettleEvents(evals: map<PlayerId, nat>, nonFolded: seq<PlayerId>, pots: seq<Pot>, rake: int,
                        handNumber: int): seq<Event>
    requires pots != []
  {
    [ShowdownReached(nonFolded)] + SidePotEvents(pots) + RakeEvents(rake)
    + AwardEvents(evals, nonFolded, TakeRake(pots, rake), |pots|) + [HandEnded(handNumber)]
  }

  ghost function ShowdownEvents(g: Game, stakes: seq<Stake>): seq<Event>
    requires g.hand.Some?
  {
    if NonFolded(g) == [] then [] else
      SettleEvents(Evals(g), NonFolded(g), HandPots(g, stakes), Rake(g.hand.value.pot, g.config), g.handNumber + 1)
  }

  /** The last player of the action order left in takes the pot. */
  function UncontestedEvents(g: Game): seq<Event>
    requires g.hand.Some?
  {
    if NonFolded(g) == [] then [] else
      var pot := g.hand.value.pot;
      var rake := Rake(pot, g.config);
      RakeEvents(rake) + [PotAwarded(pot - rake, [NonFolded(g)[0]]), HandEnded(g.handNumber + 1)]
  }

  // ── Streets ───────────────────────────────────────────────────────────────

  ghost function StreetEvents(g: Game, luck: Luck): seq<Event>
    requires g.hand.Some? && |luck.cards| >= 3
  {
    match g.hand.value.phase
    case Preflop => [BettingRoundEnded, FlopDealt(FlopCards(luck.cards[0], luck.cards[1], luck.cards[2]))]
    case Flop => [BettingRoundEnded, TurnDealt(luck.cards[0])]
    case Turn => [BettingRoundEnded, RiverDealt(luck.cards[0])]
    case River => [BettingRoundEnded] + ShowdownEvents(g, luck.stakes)
    case Showdown => []
  }

  // ── New hands ─────────────────────────────────────────────────────────────

  /** The lowest seat for the first hand, then the next seat clockwise, wrapping around. */
  function DealerIndex(players: map<PlayerId, Player>, active: seq<PlayerId>, dealerSeat: int, handNumber: int,
                       k: nat): (i: nat)
    requires k <= |active| && active != []
    ensures i < |active|
    decreases |active| - k
  {
    if handNumber == 0 || k == |active| then 0
    else if SeatOf(players)(active[k]) > dealerSeat then k
    else DealerIndex(players, active, dealerSeat, handNumber, k + 1)
  }

  datatype Blinds = Blinds(dealer: nat, sb: nat, bb: nat)

  lemma NextSeats(d: nat, n: nat)
    requires d < n && n >= 2
    ensures (d + 1) % n == (if d + 1 < n then d + 1 else 0) && (d + 1) % n != d
    ensures n > 2 ==> (d + 2) % n == (if d + 2 < n then d + 2 else d + 2 - n) && (d + 2) % n != (d + 1) % n
  {
    if d + 1 >= n {
      assert d + 1 == n;
    }
    if n > 2 && d + 2 >= n {
      assert d + 2 == n + (d + 2 - n);
    }
  }

  /** Positions of dealer, small and big blind; heads-up the dealer is the small blind. */
  function Positions(players: map<PlayerId, Player>, active: seq<PlayerId>, dealerSeat: int,
                     handNumber: int): (b: Blinds)
    requires |active| >= 2
    ensures b.dealer < |active| && b.sb < |active| && b.bb < |active| && b.sb != b.bb
  {
    var n := |active|;
    var d := DealerIndex(players, active, dealerSeat, handNumber, 0);
    NextSeats(d, n);
    if n == 2 then Blinds(d, d, (d + 1) % n) else Blinds(d, (d + 1) % n, (d + 2) % n)
  }

  function AnteEvents(g: Game, active: seq<PlayerId>): seq<Event>
    requires forall p | p in active :: p in g.players
  {
    if active == [] || g.config.ante <= 0 then [] else
      var p := active[|active| - 1];
      AnteEvents(g, active[..|active| - 1]) + [AntePosted(p, Min(g.config.ante, g.players[p].stack))]
  }

  function BlindEvents(g: Game, sb: PlayerId, bb: PlayerId): seq<Event>
    requires sb in g.players && bb in g.players
  {
    (if g.config.bbAnte > 0 then [AntePosted(bb, Min(g.config.bbAnte, g.players[bb].stack))] else [])
    + [BlindPosted(sb, Min(g.config.smallBlind, g.players[sb].stack), false),
       BlindPosted(bb, Min(g.config.bigBlind, g.players[bb].stack), true)]
  }

  /** Two cards each for the first k active players. */
  function HoleEvents(active: seq<PlayerId>, cards: seq<Card>, k: nat): seq<Event>
    requires k <= |active| && |cards| >= 2 * k
  {
    if k == 0 then [] else
      HoleEvents(active, cards, k - 1)
      + [HoleCardsDealt(active[k - 1]), HoleCardsRevealed(active[k - 1], HoleCards(cards[2 * k - 2], cards[2 * k - 1]))]
  }

  function NewHandEvents(g: Game, active: seq<PlayerId>, luck: Luck): seq<Event>
    requires |active| >= 2 && (forall p | p in active :: p in g.players) && |luck.cards| >= 2 * |active|
  {
    var b := Positions(g.players, active, g.dealerSeat, g.handNumber);
    [HandStarted(luck.handId, g.handNumber + 1, active[b.dealer], active[b.sb], active[b.bb], g.config.bigBlind)]
    + AnteEvents(g, active)
    + BlindEvents(g, active[b.sb], active[b.bb])
    + HoleEvents(active, luck.cards, |active|)
  }

  function SitOutEvents(visit: seq<PlayerId>, busted: set<PlayerId>): seq<Event>
  {
    if visit == [] then [] else
      SitOutEvents(visit[..|visit| - 1], busted)
      + if visit[|visit| - 1] in busted then [PlayerSatOut(visit[|visit| - 1])] else []
  }

  function MinPlayers(config: Config): int
  {
    if config.minPlayersToStart < 2 then 2 else config.minPlayersToStart
  }

  lemma ActiveFits(players: map<PlayerId, Player>)
    ensures |BySeat(players, ActiveIds(players))| == |ActiveIds(players)| <= |players|
    ensures forall p | p in BySeat(players, ActiveIds(players)) :: p in ActiveIds(players)
  {
    DistinctLength(BySeat(players, ActiveIds(players)));
    SubsetSize(ActiveIds(players), players.Keys);
    assert forall p | p in BySeat(players, ActiveIds(players)) :: p in Elems(BySeat(players, ActiveIds(players)));
  }

  ghost function IdleEvents(g: Game, luck: Luck): seq<Event>
    requires Plausible(luck, g)
  {
    if g.status != Waiting && g.status != Active then []
    else if BustedIds(g.players) != {} then SitOutEvents(luck.visit, BustedIds(g.players))
    else
      var active := BySeat(g.players, ActiveIds(g.players));
      ActiveFits(g.players);
      if |active| < MinPlayers(g.config) then [] else NewHandEvents(g, active, luck)
  }

  ghost function HandEvents(g: Game, now: nat, luck: Luck): seq<Event>
    requires g.hand.Some? && Plausible(luck, g)
  {
    var h := g.hand.value;
    if TimedOut(g, now) then TimeoutAction(g)
    else if |NonFolded(g)| <= 1 then UncontestedEvents(g)
    else if h.pending == [] && h.acting.None? then StreetEvents(g, luck)
    else if h.acting.Some? then []
    else NextAction(g, now)
  }

  /** The next batch of server-driven events; none when the table waits for a player. */
  ghost function Advance(g: Game, now: nat, luck: Luck): seq<Event>
    requires Plausible(luck, g)
  {
    if g.hand.None? then IdleEvents(g, luck) else HandEvents(g, now, luck)
  }

  /** batch is something advance may return. */
  ghost predicate IsBatch(g: Game, now: nat, batch: seq<Event>)
  {
    exists luck :: Plausible(luck, g) && batch == Advance(g, now, luck)
  }

  /** batches is what a lifecycle run may produce from g: each batch is what advance returns in
      the state the batches before it lead to. */
  ghost predicate IsLifecycle(g: Game, now: nat, batches: seq<seq<Event>>)
    decreases |batches|
  {
    batches == [] ||
    (batches[0] != [] && IsBatch(g, now, batches[0]) && IsLifecycle(Play(g, batches[0]), now, batches[1..]))
  }

  // ── Playing events ────────────────────────────────────────────────────────

  lemma PlayLast(g: Game, events: seq<Event>, e: Event)
    ensures Play(g, events + [e]) == Effect(Play(g, events), e, None)
  {
    assert (events + [e])[..|events|] == events;
  }

  lemma PlayOne(g: Game, e: Event)
    ensures Play(g, [e]) == Effect(g, e, None)
  {
    assert [] + [e] == [e];
    PlayLast(g, [], e);
  }

  lemma PlayTwo(g: Game, d: Event, e: Event)
    ensures Play(g, [d, e]) == Effect(Effect(g, d, None), e, None)
  {
    assert [d] + [e] == [d, e];
    PlayLast(g, [d], e);
    PlayOne(g, d);
  }

  lemma EndedHandIsGone(g: Game, events: seq<Event>, n: int)
    ensures Play(g, events + [HandEnded(n)]).hand.None?
  {
    PlayLast(g, events, HandEnded(n));
  }

  function SatOut(players: map<PlayerId, Player>, ids: set<PlayerId>): map<PlayerId, Player>
  {
    map p | p in players :: if p in ids then players[p].(sittingOut := true) else players[p]
  }

  lemma SatOutOne(g: Game, ids: set<PlayerId>, pid: PlayerId)
    requires pid in g.players
    ensures Effect(g.(players := SatOut(g.players, ids)), PlayerSatOut(pid), None)
        == g.(players := SatOut(g.players, ids + {pid}))
  {
    var before := SatOut(g.players, ids);
    assert before[pid := before[pid].(sittingOut := true)] == SatOut(g.players, ids + {pid});
  }

  lemma NobodySatOut(g: Game)
    ensures g == g.(players := SatOut(g.players, {}))
  {
    assert g.players == SatOut(g.players, {});
  }

  /** Sitting out the busted players changes nothing else. */
  lemma {:induction false} AllSatOut(g: Game, visit: seq<PlayerId>, busted: set<PlayerId>)
    requires busted <= g.players.Keys
    ensures Play(g, SitOutEvents(visit, busted)) == g.(players := SatOut(g.players, busted * Elems(visit)))
  {
    hide Effect, SatOut;
    if visit == [] {
      NobodySatOut(g);
      assert busted * Elems(visit) == {};
    } else {
      var rest, last := visit[..|visit| - 1], visit[|visit| - 1];
      AllSatOut(g, rest, busted);
      LastBack(visit);
      if last in busted {
        PlayLast(g, SitOutEvents(rest, busted), PlayerSatOut(last));
        SatOutOne(g, busted * Elems(rest), last);
        assert busted * Elems(visit) == busted * Elems(rest) + {last};
      } else {
        assert busted * Elems(visit) == busted * Elems(rest);
        assert SitOutEvents(visit, busted) == SitOutEvents(rest, busted);
      }
    }
  }
}
