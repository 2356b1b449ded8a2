/** Without antes and without latecomers, somebody still contending has always put in as much as
    anybody: so no showdown leaves a pot without an owner, and whole runs keep every chip. */
module Contention {
  import opened Collections
  import opened Cards
  import opened Table
  import opened Pots
  import opened Rules
  import opened Lifecycle
  import opened Posting
  import opened Streets
  import opened Chips
  import opened Betting
  import opened Showdown
  import opened Batches
  import opened Conservation
  import opened Runs
  import Rest

  /** What a player put in on earlier streets. */
  function Prior(p: Player): int
  {
    p.committed - p.currentBet
  }

  ghost predicate EqualPrior(players: map<PlayerId, Player>, order: seq<PlayerId>)
  {
    forall i, j | i in order && i in players && !players[i].folded && j in players ::
        Prior(players[j]) <= Prior(players[i])
  }

  /** A player who made the highest bet, has not folded and will not be asked again. */
  ghost predicate Leads(players: map<PlayerId, Player>, h: Hand, w: PlayerId)
  {
    w in h.order && w !in h.pending && w in players && !players[w].folded && players[w].currentBet == h.highest
  }

  ghost predicate NobodyMissing(players: map<PlayerId, Player>, order: seq<PlayerId>)
  {
    forall p | p in players && !players[p].folded && !players[p].sittingOut && players[p].stack > 0 :: p in order
  }

  /** Everyone contending matched all earlier streets; after the flop, the highest bet of the street
      is held by somebody contending; and everyone who could contend is in the order. */
  ghost predicate Contends(players: map<PlayerId, Player>, h: Hand)
  {
    && EqualPrior(players, h.order)
    && (h.phase != Preflop && h.highest > 0 ==> exists w :: Leads(players, h, w))
    && NobodyMissing(players, h.order)
  }

  ghost predicate Contending(g: Game)
  {
    g.hand.Some? ==> Contends(g.players, g.hand.value)
  }

  // ── Kept by every step ────────────────────────────────────────────────────

  lemma ActsKeepsContending(g: Game, g2: Game, pid: PlayerId, delta: int)
    requires TableOk(g) && Contending(g) && Acts(g, g2, pid, delta) && pid in g.hand.value.pending
    ensures Contending(g2)
  {
    hide StackTotal, CommitTotal;
    var h, h2 := g.hand.value, g2.hand.value;
    ActsKeepsPending(g, g2, pid, delta);
    assert EqualPrior(g2.players, h2.order);
    assert NobodyMissing(g2.players, h2.order);
    if h2.phase != Preflop && h2.highest > 0 {
      LeaderAfter(g, g2, pid, delta);
    }
  }

  lemma LeaderAfter(g: Game, g2: Game, pid: PlayerId, delta: int)
    requires TableOk(g) && Contending(g) && Acts(g, g2, pid, delta) && pid in g.hand.value.pending
    requires g.hand.value.phase != Preflop && g2.hand.value.highest > 0
    ensures exists w :: Leads(g2.players, g2.hand.value, w)
  {
    hide StackTotal, CommitTotal;
    var h, h2 := g.hand.value, g2.hand.value;
    ActsKeepsPending(g, g2, pid, delta);
    SelectElems(h.order, Elems(h.pending));
    assert BetOk(g.players[pid], h);
    if h2.highest == h.highest {
      var w :| Leads(g.players, h, w);
      assert Leads(g2.players, h2, w);
    } else {
      assert Leads(g2.players, h2, pid);
    }
  }

  lemma SatKeepsContending(g: Game, g2: Game)
    requires TableOk(g) && Contending(g) && OnlySat(g, g2) && (g.hand.None? || NobodySatIn(g, g2))
    ensures Contending(g2)
  {
    hide StackTotal, CommitTotal;
    if g.hand.Some? {
      var h := g.hand.value;
      forall w | Leads(g.players, h, w) ensures Leads(g2.players, h, w) {
      }
    }
  }

  lemma AskKeepsContending(g: Game, g2: Game)
    requires Contending(g) && OnlyAsked(g, g2)
    ensures Contending(g2)
  {
    var h, h2 := g.hand.value, g2.hand.value;
    forall w | Leads(g.players, h, w) ensures Leads(g2.players, h2, w) {
    }
  }

  /** When nobody is left to act, whoever contends and has chips has put in as much as anybody. */
  lemma MatchedIsMost(g: Game, i: PlayerId, j: PlayerId)
    requires TableOk(g) && Contending(g) && g.hand.Some? && g.hand.value.pending == []
    requires i in g.hand.value.order && i in g.players && !g.players[i].folded && j in g.players
    requires g.players[i].currentBet == g.hand.value.highest || g.players[i].stack > 0
    ensures g.players[j].committed <= g.players[i].committed
  {
    assert Matched(g.players, g.hand.value, i);
    assert BetOk(g.players[j], g.hand.value);
    assert Prior(g.players[j]) <= Prior(g.players[i]);
  }

  lemma StreetKeepsContending(g: Game, g2: Game)
    requires TableOk(g) && Contending(g) && NewStreet(g, g2) && g.hand.value.pending == []
    ensures Contending(g2)
  {
    hide StackTotal, CommitTotal;
    var order := g2.hand.value.order;
    forall i, j | i in order && i in g2.players && !g2.players[i].folded && j in g2.players
      ensures Prior(g2.players[j]) <= Prior(g2.players[i])
    {
      assert i in Elems(order);
      MatchedIsMost(g, i, j);
    }
    forall p | p in g2.players && !g2.players[p].folded && !g2.players[p].sittingOut && g2.players[p].stack > 0
      ensures p in order
    {
      assert p in ActiveIds(g.players);
      assert p in Elems(order);
    }
  }

  predicate AnteFree(c: Config)
  {
    c.ante <= 0 && c.bbAnte <= 0
  }

  lemma {:induction false} HolesHaveNoAntes(active: seq<PlayerId>, cards: seq<Card>, k: nat)
    requires k <= |active| && |cards| >= 2 * k
    ensures NoAntes(HoleEvents(active, cards, k))
  {
    if k > 0 {
      HolesHaveNoAntes(active, cards, k - 1);
    }
  }

  lemma PostsWithoutAntes(g: Game, luck: Luck)
    requires Plausible(luck, g) && |ActiveSeats(g)| >= 2 && AnteFree(g.config)
    ensures NoAntes(Posts(g, luck))
  {
    ActiveFits(g.players);
    var active := ActiveSeats(g);
    HolesHaveNoAntes(active, luck.cards, |active|);
  }

  lemma DealStartsContending(g: Game, g2: Game)
    requires JustDealt(g, g2) && AllBets(g2)
    requires forall p | p in g.players :: g2.players[p].stack <= g.players[p].stack
    ensures Contending(g2)
  {
    var order := g2.hand.value.order;
    forall p | p in g2.players && !g2.players[p].sittingOut && g2.players[p].stack > 0 ensures p in order {
      assert p in Elems(order);
    }
  }

  // ── What it gives ─────────────────────────────────────────────────────────

  /** At every showdown somebody contending has put in as much as anybody. */
  lemma ContendingHasTop(g: Game, now: nat)
    requires TableOk(g) && Contending(g) && KindOf(g, now) == Shows
    ensures g.hand.Some? && TopContributorLive(g)
  {
    hide StackTotal, CommitTotal;
    var h := g.hand.value;
    SelectElems(h.order, UnfoldedIds(g.players));
    var w: PlayerId;
    if h.highest > 0 {
      w :| Leads(g.players, h, w);
    } else {
      w := NonFolded(g)[0];
      assert w in NonFolded(g);
      assert BetOk(g.players[w], h);
    }
    assert w in UnfoldedIds(g.players);
    forall q | q in g.players ensures g.players[q].committed <= g.players[w].committed {
      MatchedIsMost(g, w, q);
    }
    assert w in NonFolded(g) && w in g.players;
  }

  // ── Whole runs ────────────────────────────────────────────────────────────

  /** A step of a run without latecomers: nobody sits in or joins while a hand is played, and at a
      showdown the rake fits into the main pot. */
  ghost predicate Quiescent(g: Game, m: Move)
  {
    match m
    case Order(cmd, _) => cmd.SitIn? ==> g.hand.None?
    case Serve(now, luck) => Plausible(luck, g) && (KindOf(g, now) == Shows && g.hand.Some? ==> RakeFits(g, luck))
    case Join(p, _, _, buyIn) => p !in g.players && buyIn > 0 && g.hand.None?
    case Leave(p) => p in g.players && g.hand.None?
  }

  ghost predicate RakeFits(g: Game, luck: Luck)
    requires g.hand.Some?
  {
    Rake(g.hand.value.pot, g.config) <= HandPots(g, luck.stakes)[0].amount
  }

  /** Chips a step brings to the table. */
  ghost function Inflow(g: Game, m: Move): int
    requires Legal(g, m)
  {
    match m
    case Order(_, _) => 0
    case Serve(now, luck) => -RakeIn(Advance(g, now, luck))
    case Join(_, _, _, buyIn) => buyIn
    case Leave(p) => -g.players[p].stack
  }

  ghost predicate Ready(g: Game)
  {
    TableOk(g) && Contending(g) && AnteFree(g.config)
  }

  lemma AnteFreeIsLegal(g: Game, m: Move)
    requires AnteFree(g.config) && Quiescent(g, m)
    ensures Legal(g, m)
  {
    ActiveFits(g.players);
  }

  lemma OrderStaysReady(g: Game, cmd: Command, actor: PlayerId)
    requires Ready(g) && (cmd.SitIn? ==> g.hand.None?)
    ensures Ready(Play(g, [CommandEvent(g, cmd, actor)]))
  {
    hide Effect, Play, Acts, HandOk, OnlySat, NobodySatIn, Contending, CommandEvent;
    var g2 := Play(g, [CommandEvent(g, cmd, actor)]);
    CommandKeepsTable(g, cmd, actor);
    TableFits(g);
    CommandShape(g, cmd, actor);
    if g2 != g {
      if !IsAction(cmd) {
        SatKeepsContending(g, g2);
        SameConfig(g, g2);
      } else {
        ActingPends(g);
        ActsKeepsContending(g, g2, actor, Wager(g, cmd, actor));
        SameActConfig(g, g2, actor, Wager(g, cmd, actor));
      }
    }
  }

  lemma SameConfig(g: Game, g2: Game)
    requires OnlySat(g, g2)
    ensures g2.config == g.config
  {
  }

  lemma SameActConfig(g: Game, g2: Game, pid: PlayerId, delta: int)
    requires Acts(g, g2, pid, delta)
    ensures g2.config == g.config
  {
  }

  lemma ActingPends(g: Game)
    requires TableOk(g) && g.hand.Some? && g.hand.value.acting.Some?
    ensures g.hand.value.acting.value in g.hand.value.pending
  {
  }

  lemma DealIsReady(g: Game, now: nat, luck: Luck)
    requires StartsHand(g) && Plausible(luck, g) && Ready(g)
    ensures Contending(Play(g, Advance(g, now, luck)))
  {
    hide Effect, Play, Advance, JustDealt, AllBets, PaidIn, Posts, NoAntes, ActiveSeats, HandOk, AnteFree;
    NewHandDealt(g, now, luck);
    PostsWithoutAntes(g, luck);
    var g2 := Play(g, Advance(g, now, luck));
    NobodyGains(g, g2);
    DealStartsContending(g, g2);
  }

  lemma NobodyGains(g: Game, g2: Game)
    requires JustDealt(g, g2)
    ensures g2.players.Keys == g.players.Keys && forall p | p in g.players :: g2.players[p].stack <= g.players[p].stack
  {
  }

  lemma PendingIsEmpty(g: Game, now: nat)
    ensures KindOf(g, now) == TurnsStreet ==> g.hand.Some? && g.hand.value.pending == []
  {
  }

  lemma NoHandNoContention(g: Game)
    requires g.hand.None?
    ensures Contending(g)
  {
  }

  lemma BatchStaysContending(g: Game, now: nat, luck: Luck)
    requires Ready(g) && Plausible(luck, g)
    ensures Contending(Play(g, Advance(g, now, luck)))
  {
    hide *;
    var g2 := Play(g, Advance(g, now, luck));
    BatchOfKind(g, now, luck);
    KindFacts(g, now);
    BatchFacts(g, now, luck);
    InHandKinds(g, now);
    ReadyMeans(g);
    PendingIsEmpty(g, now);
    match KindOf(g, now)
    case Quiet => NothingHappens(g);
    case SitsOut =>
      SitOutBatch(g, luck);
      SatKeepsContending(g, g2);
    case Deals => DealIsReady(g, now, luck);
    case TimesOut =>
      TimeoutSeat(g, now);
      TimeoutActs(g);
      ActingPends(g);
      ActsKeepsContending(g, g2, g.hand.value.acting.value, 0);
    case PaysLast =>
      UncontestedConserves(g);
      NoHandNoContention(g2);
    case TurnsStreet =>
      StreetBatch(g, luck);
      StreetKeepsContending(g, g2);
    case Shows =>
      ShowsWhenDue(g, now, luck);
      ShowdownKeepsTable(g, luck);
      NoHandNoContention(g2);
    case Asks =>
      AskBatch(g, now);
      AskKeepsContending(g, g2);
  }

  lemma ReadyMeans(g: Game)
    ensures Ready(g) <==> TableOk(g) && Contending(g) && AnteFree(g.config)
  {
  }

  lemma CoveredWithoutAntes(g: Game, now: nat)
    requires AnteFree(g.config)
    ensures Covered(g, now)
  {
    ActiveFits(g.players);
  }

  lemma RakeFitsPays(g: Game, now: nat, luck: Luck)
    requires Ready(g) && Plausible(luck, g) && (KindOf(g, now) == Shows && g.hand.Some? ==> RakeFits(g, luck))
    ensures PaysOut(g, now, luck)
  {
    hide HandOk, Contending, HandPots, Rake, TopContributorLive;
    if KindOf(g, now) == Shows {
      ContendingHasTop(g, now);
    }
  }

  lemma BatchKeepsTheConfig(g: Game, now: nat, luck: Luck)
    requires TableOk(g) && Plausible(luck, g)
    ensures Play(g, Advance(g, now, luck)).config == g.config
  {
    hide *;
    BatchFacts(g, now, luck);
    TableHasConfig(g);
    if Advance(g, now, luck) == [] {
      NothingHappens(g);
    } else {
      Rest.BatchBringsRest(g, now, luck);
    }
  }

  lemma TableHasConfig(g: Game)
    requires TableOk(g)
    ensures ConfigOk(g.config)
  {
  }

  /** One step without latecomers keeps the table contending and accounts for every chip. */
  lemma MoveConserves(g: Game, m: Move)
    requires Ready(g) && Quiescent(g, m)
    ensures Legal(g, m) && Ready(After(g, m))
    ensures ChipCount(After(g, m)) == ChipCount(g) + Inflow(g, m)
  {
    hide Effect, Play, Advance, TableOk, Contending, Plausible, Covered, AnteFree, KindOf, RakeFits, Joined;
    AnteFreeIsLegal(g, m);
    match m
    case Order(cmd, actor) =>
      OrderStaysReady(g, cmd, actor);
      CommandKeepsTable(g, cmd, actor);
    case Serve(now, luck) =>
      CoveredWithoutAntes(g, now);
      RakeFitsPays(g, now, luck);
      BatchConservesIff(g, now, luck);
      BatchStaysContending(g, now, luck);
      BatchKeepsTheConfig(g, now, luck);
    case Join(p, user, seat, buyIn) =>
      JoinKeepsTable(g, p, user, seat, buyIn);
      JoinedConfig(g, After(g, m), p, buyIn);
      NoHandNoContention(After(g, m));
    case Leave(p) =>
      LeaveKeepsTable(g, p);
      NoHandNoContention(After(g, m));
  }

  lemma JoinedConfig(g: Game, g2: Game, p: PlayerId, buyIn: int)
    requires Joined(g, g2, p, buyIn)
    ensures g2.config == g.config && g2.hand == g.hand
  {
  }

  ghost predicate IsQuietRun(g: Game, moves: seq<Move>)
    decreases |moves|
  {
    moves == [] || (Quiescent(g, moves[0]) && Legal(g, moves[0]) && IsQuietRun(After(g, moves[0]), moves[1..]))
  }

  ghost function InflowOf(g: Game, moves: seq<Move>): int
    requires IsRun(g, moves)
    decreases |moves|
  {
    if moves == [] then 0 else Inflow(g, moves[0]) + InflowOf(After(g, moves[0]), moves[1..])
  }

  lemma {:induction false} QuietRunIsRun(g: Game, moves: seq<Move>)
    requires IsQuietRun(g, moves)
    ensures IsRun(g, moves)
    decreases |moves|
  {
    hide Possible, Quiescent, After;
    if moves != [] {
      QuietRunIsRun(After(g, moves[0]), moves[1..]);
    }
  }

  /** Over any run of an ante-free table without latecomers — commands legal or not, time-outs,
      streets, showdowns, new hands, players joining and leaving between hands — the chips on the
      table change by buy-ins, cash-outs and rake alone. */
  lemma {:induction false} RunConserves(g: Game, moves: seq<Move>)
    requires Ready(g) && IsQuietRun(g, moves)
    ensures IsRun(g, moves) && Ready(End(g, moves))
    ensures ChipCount(End(g, moves)) == ChipCount(g) + InflowOf(g, moves)
    decreases |moves|
  {
    hide Ready, Possible, Quiescent, After, Inflow, ChipCount;
    QuietRunIsRun(g, moves);
    if moves != [] {
      MoveConserves(g, moves[0]);
      RunConserves(After(g, moves[0]), moves[1..]);
    }
  }
}
