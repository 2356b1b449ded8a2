/** Commands and the lifecycle run behind them, on the live state. */
module Handler {
  import opened Collections
  import opened Cards
  import opened Table
  import opened Pots
  import opened Rules
  import opened Lifecycle
  import opened Posting
  import opened Batches
  import opened Conservation
  import opened Dealing
  import opened Seating
  import opened Reducer
  import opened Driver
  import opened Betting
  import opened Chips
  import opened Rest

  // ── Events before stamping ────────────────────────────────────────────────

  function Bares(events: seq<Event>): (r: seq<GameEvent>)
    ensures |r| == |events| && forall i | 0 <= i < |r| :: r[i] == Bare(events[i])
  {
    seq(|events|, i requires 0 <= i < |events| => Bare(events[i]))
  }

  /** Unstamped events count the version up by one each. */
  lemma {:induction false} BaresPlay(g: Game, events: seq<Event>)
    ensures ReduceAll(g, Bares(events)) == Play(g, events).(version := g.version + |events|)
  {
    hide Effect;
    if events != [] {
      var rest, last := events[..|events| - 1], events[|events| - 1];
      assert Bares(events)[..|events| - 1] == Bares(rest);
      BaresPlay(g, rest);
      VersionApart(Play(g, rest), g.version + |rest|, last, None);
    } else {
      assert Play(g, events) == g;
    }
  }

  /** All the events of a run of batches. */
  function Flat(batches: seq<seq<Event>>): seq<Event>
  {
    if batches == [] then [] else Flat(batches[..|batches| - 1]) + batches[|batches| - 1]
  }

  lemma {:induction false} FlatFront(b: seq<Event>, rest: seq<seq<Event>>)
    ensures Flat([b] + rest) == b + Flat(rest)
  {
    var all := [b] + rest;
    if rest == [] {
      assert all[..0] == [];
    } else {
      assert all[..|all| - 1] == [b] + rest[..|rest| - 1];
      FlatFront(b, rest[..|rest| - 1]);
    }
  }

  lemma {:induction false} LifecycleGrows(g: Game, now: nat, batches: seq<seq<Event>>, b: seq<Event>)
    requires IsLifecycle(g, now, batches) && b != [] && IsBatch(Play(g, Flat(batches)), now, b)
    ensures IsLifecycle(g, now, batches + [b])
    decreases |batches|
  {
    hide Play, IsBatch;
    if batches == [] {
      NothingHappens(g);
      assert ([] + [b])[1..] == [];
    } else {
      var first, rest := batches[0], batches[1..];
      assert [first] + rest == batches;
      FlatFront(first, rest);
      PlayConcat(g, first, Flat(rest));
      LifecycleGrows(Play(g, first), now, rest, b);
      assert (batches + [b])[1..] == rest + [b];
    }
  }

  // ── Nothing the server does depends on the version ────────────────────────

  lemma {:induction false} AntesIgnoreVersion(g: Game, v: int, active: seq<PlayerId>)
    requires forall p | p in active :: p in g.players
    ensures AnteEvents(g.(version := v), active) == AnteEvents(g, active)
  {
    if active != [] && g.config.ante > 0 {
      AntesIgnoreVersion(g, v, active[..|active| - 1]);
    }
  }

  lemma KindIgnoresVersion(g: Game, v: int, now: nat, luck: Luck)
    ensures KindOf(g.(version := v), now) == KindOf(g, now)
    ensures Plausible(luck, g.(version := v)) <==> Plausible(luck, g)
  {
  }

  lemma SettlingIgnoresVersion(g: Game, v: int, luck: Luck)
    requires g.hand.Some? && |luck.cards| >= 3
    ensures UncontestedEvents(g.(version := v)) == UncontestedEvents(g)
    ensures StreetEvents(g.(version := v), luck) == StreetEvents(g, luck)
  {
    hide SettleEvents, PotsOf, Rake;
    var g2 := g.(version := v);
    assert NonFolded(g2) == NonFolded(g);
    assert Evals(g2) == Evals(g);
  }

  lemma PostsIgnoreVersion(g: Game, v: int, luck: Luck)
    requires Plausible(luck, g) && Plausible(luck, g.(version := v)) && |ActiveSeats(g)| >= 2
    ensures ActiveSeats(g.(version := v)) == ActiveSeats(g)
    ensures HandStart(g.(version := v), luck) == HandStart(g, luck) && Posts(g.(version := v), luck) == Posts(g, luck)
  {
    hide BySeat, AnteEvents, BlindEvents, HoleEvents, Positions, Effect, Play, RankedStakes;
    ActiveFits(g.players);
    AntesIgnoreVersion(g, v, ActiveSeats(g));
    BlindsIgnoreVersion(g, v, BlindsOf(g).0, BlindsOf(g).1);
  }

  lemma BlindsIgnoreVersion(g: Game, v: int, sb: PlayerId, bb: PlayerId)
    requires sb in g.players && bb in g.players
    ensures BlindEvents(g.(version := v), sb, bb) == BlindEvents(g, sb, bb)
  {
  }

  lemma DealIgnoresVersion(g: Game, v: int, now: nat, luck: Luck)
    requires Plausible(luck, g) && Plausible(luck, g.(version := v)) && StartsHand(g) && StartsHand(g.(version := v))
    ensures Advance(g.(version := v), now, luck) == Advance(g, now, luck)
  {
    hide *;
    HandEventsInTwo(g, now, luck);
    HandEventsInTwo(g.(version := v), now, luck);
    PostsIgnoreVersion(g, v, luck);
  }

  lemma BatchIgnoresVersion(g: Game, v: int, now: nat, luck: Luck)
    requires Plausible(luck, g)
    ensures Plausible(luck, g.(version := v))
    ensures BatchOf(g.(version := v), now, luck) == BatchOf(g, now, luck)
  {
    hide Plausible, KindOf, StreetEvents, UncontestedEvents, Advance, StartsHand, BySeat;
    var g2 := g.(version := v);
    KindIgnoresVersion(g, v, now, luck);
    BatchOfKind(g, now, luck);
    BatchOfKind(g2, now, luck);
    BatchFacts(g, now, luck);
    KindFacts(g, now);
    InHand(g, now);
    if KindOf(g, now) == Deals {
      DealIgnoresVersion(g, v, now, luck);
    } else if g.hand.Some? {
      SettlingIgnoresVersion(g, v, luck);
    }
  }

  lemma InHand(g: Game, now: nat)
    ensures KindOf(g, now) in {TimesOut, PaysLast, TurnsStreet, Shows, Asks} ==> g.hand.Some?
  {
  }

  // ── The server never moves a seat ─────────────────────────────────────────

  ghost predicate EngineOnly(events: seq<Event>)
  {
    forall e | e in events :: IsEngineEvent(e)
  }

  lemma {:induction false} PostsAreEngine(posts: seq<Event>, seated: set<PlayerId>)
    requires AllPosts(posts, seated)
    ensures EngineOnly(posts)
  {
  }

  lemma SettleIsEngine(g: Game, luck: Luck)
    requires g.hand.Some? && |luck.cards| >= 3
    ensures EngineOnly(UncontestedEvents(g)) && EngineOnly(StreetEvents(g, luck))
  {
    hide Evals, NonFolded, HandPots, Rake, TakeRake;
    if g.hand.value.phase == River && NonFolded(g) != [] {
      AwardsOnly(Evals(g), NonFolded(g), TakeRake(HandPots(g, luck.stakes), Rake(g.hand.value.pot, g.config)),
                 |HandPots(g, luck.stakes)|);
      SidePotsOnly(HandPots(g, luck.stakes));
    }
  }

  lemma BatchIsEngine(g: Game, now: nat, luck: Luck)
    requires Plausible(luck, g) && ConfigOk(g.config)
    ensures EngineOnly(BatchOf(g, now, luck))
  {
    hide StreetEvents, UncontestedEvents, Advance, HandStart, Posts, Plausible, KindOf, SitOutEvents, AllPosts;
    BatchFacts(g, now, luck);
    KindFacts(g, now);
    InHand(g, now);
    BatchOfKind(g, now, luck);
    match KindOf(g, now)
    case SitsOut => SitOutsOnly(luck.visit, BustedIds(g.players));
    case Deals =>
      HandEventsInTwo(g, now, luck);
      PostsArePosts(g, luck);
      PostsAreEngine(Posts(g, luck), g.players.Keys);
      StartIsStart(g, luck);
    case PaysLast => SettleIsEngine(g, luck);
    case TurnsStreet => SettleIsEngine(g, luck);
    case Shows => SettleIsEngine(g, luck);
    case _ =>
  }

  lemma StartIsStart(g: Game, luck: Luck)
    requires |ActiveSeats(g)| >= 2
    ensures HandStart(g, luck).HandStarted?
  {
  }

  lemma CommandIsEngine(g: Game, cmd: Command, actor: PlayerId)
    ensures IsEngineEvent(CommandEvent(g, cmd, actor))
  {
    hide Validate;
  }

  // ── Running it ────────────────────────────────────────────────────────────

  /** Applies the events one after another, each to a clone of the state before. */
  method ApplyAll(state: TableState, events: seq<GameEvent>) returns (next: TableState)
    requires SeatedThroughout(state.Value(), events)
    ensures next.Value() == ReduceAll(state.Value(), events) && (next == state || fresh(next))
    ensures DistinctSeats(next.players)
  {
    hide Effect, DistinctSeats;
    next := state;
    assert events[..0] == [];
    for i := 0 to |events|
      invariant next == state || fresh(next)
      invariant next.Value() == ReduceAll(state.Value(), events[..i])
    {
      assert events[..i + 1][..i] == events[..i];
      assert next.players == ReduceAll(state.Value(), events[..i]).players;
      next := Apply(next, events[i]);
    }
    assert events[..|events|] == events;
    assert next.players == ReduceAll(state.Value(), events).players;
  }

  /** What a lifecycle run leaves: the batches it went through, after which nothing is left to do. */
  ghost predicate RanToRest(g: Game, now: nat, batches: seq<seq<Event>>)
  {
    IsLifecycle(g, now, batches) && |batches| <= 6 && Stage(Play(g, Flat(batches)), now) == 0
  }

  lemma BatchInLifecycle(g: Game, ver: int, now: nat, luck: Luck, batches: seq<seq<Event>>, batch: seq<Event>)
    requires ConfigOk(g.config) && IsLifecycle(g, now, batches)
    requires var h := Play(g, Flat(batches));
      && h.config == g.config && Plausible(luck, h.(version := ver)) && batch == BatchOf(h.(version := ver), now, luck)
    ensures batch == [] <==> Stage(Play(g, Flat(batches)), now) == 0
    ensures EngineOnly(batch)
    ensures batch != [] ==>
      && IsLifecycle(g, now, batches + [batch])
      && Stage(Play(Play(g, Flat(batches)), batch), now) < Stage(Play(g, Flat(batches)), now)
      && Play(Play(g, Flat(batches)), batch).config == g.config
  {
    hide Effect, Play, Advance, BatchOf, Plausible, Stage, IsLifecycle, ConfigOk, EngineOnly;
    var h := Play(g, Flat(batches));
    KindIgnoresVersion(h, ver, now, luck);
    BatchIgnoresVersion(h, ver, now, luck);
    BatchOfKind(h, now, luck);
    RestIsStageZero(h, now, luck);
    BatchIsEngine(h, now, luck);
    if batch != [] {
      BatchBringsRest(h, now, luck);
      LifecycleGrows(g, now, batches, batch);
    }
  }

  // ── The dealer's supply ───────────────────────────────────────────────────

  /** The batches came one after another from g on, the dealer going from a to b. */
  ghost predicate Supplied(g: Game, now: nat, batches: seq<seq<Event>>, a: Shoe, b: Shoe)
    decreases |batches|
  {
    if batches == [] then a == b else
      var rest, last := batches[..|batches| - 1], batches[|batches| - 1];
      exists luck, mid :: Supplied(g, now, rest, a, mid) && Served(Play(g, Flat(rest)), now, luck, last, mid, b)
  }

  /** After these batches the next one could not be dealt. */
  ghost predicate RanDry(g: Game, now: nat, batches: seq<seq<Event>>, a: Shoe)
  {
    exists b :: Supplied(g, now, batches, a, b) && OutOfCards(Play(g, Flat(batches)), now, b)
  }

  const MOST: nat := (SIZE - 8) / 2

  /** No more players than a deck is enough for, and the dealer has what is left of one. */
  ghost predicate Stocked(g: Game, a: Shoe)
  {
    |g.players| <= MOST && DeckHolds(g, a, MOST)
  }

  lemma MoreSupplied(g: Game, now: nat, batches: seq<seq<Event>>, a: Shoe, mid: Shoe, luck: Luck, batch: seq<Event>,
                     b: Shoe)
    requires Supplied(g, now, batches, a, mid) && Served(Play(g, Flat(batches)), now, luck, batch, mid, b)
    ensures Supplied(g, now, batches + [batch], a, b)
  {
    hide Served, Play, Flat;
    var all := batches + [batch];
    var rest, last := all[..|all| - 1], all[|all| - 1];
    assert rest == batches && last == batch;
    assert Supplied(g, now, rest, a, mid) && Served(Play(g, Flat(rest)), now, luck, last, mid, b);
  }

  lemma ServedIgnoresVersion(g: Game, v: int, now: nat, luck: Luck, batch: seq<Event>, a: Shoe, b: Shoe)
    requires Served(g.(version := v), now, luck, batch, a, b)
    ensures Served(g, now, luck, batch, a, b)
  {
    hide BatchOf, Plausible, KindOf, ActiveIds;
    KindIgnoresVersion(g, v, now, luck);
    BatchIgnoresVersion(g, v, now, luck);
    assert ActiveIds(g.(version := v).players) == ActiveIds(g.players);
  }

  lemma OutIgnoresVersion(g: Game, v: int, now: nat, a: Shoe, luck: Luck)
    requires OutOfCards(g.(version := v), now, a)
    ensures OutOfCards(g, now, a)
  {
    hide Plausible, KindOf, ActiveIds;
    KindIgnoresVersion(g, v, now, luck);
  }

  lemma {:induction false} EngineKeepsPlayers(g: Game, events: seq<Event>)
    requires EngineOnly(events)
    ensures Play(g, events).players.Keys == g.players.Keys && |Play(g, events).players| == |g.players|
    ensures SameSeats(g, Play(g, events))
  {
    hide Effect;
    if events != [] {
      LastBack(events);
      EngineKeepsPlayers(g, events[..|events| - 1]);
      EngineKeepsSeats(Play(g, events[..|events| - 1]), events[|events| - 1], None);
    }
    assert |Play(g, events).players| == |Play(g, events).players.Keys| && |g.players| == |g.players.Keys|;
  }

  lemma ServedKeepsStock(g: Game, now: nat, luck: Luck, batch: seq<Event>, a: Shoe, b: Shoe)
    requires ConfigOk(g.config) && Stocked(g, a) && Served(g, now, luck, batch, a, b)
    ensures Stocked(Play(g, batch), b) && Play(g, batch).config == g.config
  {
    hide BatchOf, DeckHolds, ConfigOk, Plausible, Feeds, EngineOnly, ActiveIds, Play, Advance;
    ActiveFits(g.players);
    BatchOfKind(g, now, luck);
    ServeKeepsDeck(g, now, luck, a, b, MOST);
    BatchIsEngine(g, now, luck);
    EngineKeepsPlayers(g, batch);
  }

  lemma {:induction false} SuppliedKeepsStock(g: Game, now: nat, batches: seq<seq<Event>>, a: Shoe, b: Shoe)
    requires ConfigOk(g.config) && Stocked(g, a) && Supplied(g, now, batches, a, b)
    ensures Stocked(Play(g, Flat(batches)), b) && Play(g, Flat(batches)).config == g.config
    decreases |batches|
  {
    hide Served, Stocked, ConfigOk, Effect;
    if batches != [] {
      var rest, last := batches[..|batches| - 1], batches[|batches| - 1];
      var luck, mid :| Supplied(g, now, rest, a, mid) && Served(Play(g, Flat(rest)), now, luck, last, mid, b);
      SuppliedKeepsStock(g, now, rest, a, mid);
      ServedKeepsStock(Play(g, Flat(rest)), now, luck, last, mid, b);
      PlayConcat(g, Flat(rest), last);
    }
  }

  /** With enough cards to start with, no lifecycle run runs dry. */
  lemma StockLasts(g: Game, now: nat, batches: seq<seq<Event>>, a: Shoe)
    requires ConfigOk(g.config) && Stocked(g, a)
    ensures !RanDry(g, now, batches, a)
  {
    hide Supplied, OutOfCards, DeckHolds, ActiveIds, Play, Flat;
    if RanDry(g, now, batches, a) {
      var b :| Supplied(g, now, batches, a, b) && OutOfCards(Play(g, Flat(batches)), now, b);
      SuppliedKeepsStock(g, now, batches, a, b);
      ActiveFits(Play(g, Flat(batches)).players);
      EnoughCards(Play(g, Flat(batches)), now, b, MOST);
    }
  }

  lemma RunsDry(g: Game, now: nat, batches: seq<seq<Event>>, a: Shoe, b: Shoe)
    requires Supplied(g, now, batches, a, b) && OutOfCards(Play(g, Flat(batches)), now, b)
    ensures RanDry(g, now, batches, a)
  {
  }

  /** A command's own event deals no card and moves no seat. */
  lemma CommandKeepsStock(g: Game, cmd: Command, actor: PlayerId, a: Shoe)
    requires Stocked(g, a)
    ensures Stocked(Play(g, [CommandEvent(g, cmd, actor)]), a)
  {
    hide CommandEvent, DeckHolds, Play, EngineOnly, SameCards;
    OrderShowsNothing(g, cmd, actor);
    StayingKeepsDeck(g, Play(g, [CommandEvent(g, cmd, actor)]), a, MOST);
    OneEngineEvent(g, cmd, actor);
    EngineKeepsPlayers(g, [CommandEvent(g, cmd, actor)]);
  }

  lemma StockIgnoresVersion(g: Game, v: int, a: Shoe)
    ensures Stocked(g.(version := v), a) <==> Stocked(g, a)
  {
  }

  /** Asks for batches and applies them until there is none; randomness for up to 64 rounds is given.
      None exactly when the dealer ran out of cards, which it does not as long as no more players sit
      at the table than the deck is enough for. */
  method RunAdvance(state: TableState, dlr: CryptoDealer, now: nat, handIds: seq<nat>, draws: seq<seq<nat>>)
    returns (all: Option<seq<Event>>, ghost batches: seq<seq<Event>>)
    requires DistinctSeats(state.players) && ConfigOk(state.config) && dlr.Valid()
    requires |handIds| == |draws| == 64 && forall i | 0 <= i < 64 :: Choices(draws[i], SIZE)
    modifies dlr, dlr.d
    ensures dlr.Valid()
    ensures all.Some? ==>
      && all.value == Flat(batches) && RanToRest(state.Value(), now, batches)
      && Supplied(state.Value(), now, batches, old(ShoeOf(dlr)), ShoeOf(dlr))
    ensures all.None? ==> RanDry(state.Value(), now, batches, old(ShoeOf(dlr)))
    ensures Stocked(state.Value(), old(ShoeOf(dlr))) ==>
      all.Some? && Stocked(Play(state.Value(), all.value), ShoeOf(dlr))
  {
    hide Supplied, RanDry, Stocked;
    hide Effect, Play, Served, OutOfCards, Stage, IsLifecycle, Choices, ConfigOk, BatchOf, Plausible, Feeds;
    ghost var g, a := state.Value(), ShoeOf(dlr);
    var curr := state;
    var events := [];
    batches := [];
    NoBatches(g, now, a);
    var done := false;
    for step := 0 to 64
      invariant dlr.Valid() && (dlr.d == old(dlr.d) || (fresh(dlr.d) && fresh(dlr.d.cards)))
      invariant DistinctSeats(curr.players) && Play(g, events).config == g.config
      invariant events == Flat(batches) && IsLifecycle(g, now, batches) && |batches| == step
      invariant curr.Value() == Play(g, events).(version := curr.version)
      invariant Stage(Play(g, events), now) + step <= Stage(g, now)
      invariant Supplied(g, now, batches, a, ShoeOf(dlr))
    {
      ghost var mid := ShoeOf(dlr);
      var batch;
      ghost var luck;
      batch, luck := AdvanceTable(curr.Value(), dlr, now, handIds[step], draws[step]);
      if batch.None? {
        OutIgnoresVersion(Play(g, events), curr.version, now, mid, luck);
        RunsDry(g, now, batches, a, mid);
        StockRuns(g, now, batches, a);
        return None, batches;
      }
      ServedMeans(curr.Value(), now, luck, batch.value);
      BatchInLifecycle(g, curr.version, now, luck, batches, batch.value);
      if |batch.value| == 0 {
        RunEnds(g, now, batches);
        ServedIgnoresVersion(Play(g, events), curr.version, now, luck, batch.value, mid, ShoeOf(dlr));
        QuietKeepsShoe(Play(g, events), now, luck, mid, ShoeOf(dlr));
        StockRuns(g, now, batches, a);
        StockKept(g, now, batches, a, ShoeOf(dlr));
        return Some(events), batches;
      }
      ghost var before := curr.Value();
      BaresPlay(before, batch.value);
      PlayConcat(g, events, batch.value);
      PlayIgnoresVersion(Play(g, events), curr.version, batch.value);
      ServedIgnoresVersion(Play(g, events), curr.version, now, luck, batch.value, mid, ShoeOf(dlr));
      MoreSupplied(g, now, batches, a, mid, luck, batch.value, ShoeOf(dlr));
      EngineKeepsSeated(before, Bares(batch.value));
      curr := ApplyAll(curr, Bares(batch.value));
      events := events + batch.value;
      batches := batches + [batch.value];
      assert batches[..step] == batches[..|batches| - 1];
    }
    assert false;
  }

  lemma NoBatches(g: Game, now: nat, a: Shoe)
    ensures Flat([]) == [] && Play(g, []) == g && IsLifecycle(g, now, []) && Supplied(g, now, [], a, a)
  {
  }

  /** A batch of nothing takes no card. */
  lemma QuietKeepsShoe(g: Game, now: nat, luck: Luck, a: Shoe, b: Shoe)
    requires Served(g, now, luck, [], a, b)
    ensures b == a
  {
    hide Plausible, KindOf, StreetEvents, UncontestedEvents, Advance, SitOutEvents, ActiveIds;
    BatchOfKind(g, now, luck);
    RestIsStageZero(g, now, luck);
    StageOfKind(g, now);
    FeedsKind(g, now, luck, a, b);
  }

  lemma StockRuns(g: Game, now: nat, batches: seq<seq<Event>>, a: Shoe)
    requires ConfigOk(g.config)
    ensures Stocked(g, a) ==> !RanDry(g, now, batches, a)
  {
    hide Stocked, RanDry;
    if Stocked(g, a) {
      StockLasts(g, now, batches, a);
    }
  }

  lemma StockKept(g: Game, now: nat, batches: seq<seq<Event>>, a: Shoe, b: Shoe)
    requires ConfigOk(g.config) && Supplied(g, now, batches, a, b)
    ensures Stocked(g, a) ==> Stocked(Play(g, Flat(batches)), b)
  {
    hide Stocked, Supplied, Play, Flat;
    if Stocked(g, a) {
      SuppliedKeepsStock(g, now, batches, a, b);
    }
  }

  lemma ServedMeans(g: Game, now: nat, luck: Luck, batch: seq<Event>)
    requires exists a, b :: Served(g, now, luck, batch, a, b)
    ensures Plausible(luck, g) && batch == BatchOf(g, now, luck)
  {
  }

  lemma RunEnds(g: Game, now: nat, batches: seq<seq<Event>>)
    requires ConfigOk(g.config) && IsLifecycle(g, now, batches) && Stage(Play(g, Flat(batches)), now) == 0
    ensures RanToRest(g, now, batches)
  {
    LifecycleIsShort(g, now, batches);
  }

  lemma {:induction false} PlayIgnoresVersion(g: Game, v: int, events: seq<Event>)
    ensures Play(g.(version := v), events) == Play(g, events).(version := v)
  {
    hide Effect;
    if events != [] {
      PlayIgnoresVersion(g, v, events[..|events| - 1]);
      VersionApart(Play(g, events[..|events| - 1]), v, events[|events| - 1], None);
    }
  }

  // ── Commands ──────────────────────────────────────────────────────────────

  /** Validates the command, applies its event, and runs the lifecycle until the table waits. */
  method HandleCommand(state: TableState, cmd: Command, actor: PlayerId, dlr: CryptoDealer, now: nat,
                       handIds: seq<nat>, draws: seq<seq<nat>>)
    returns (events: Option<seq<Event>>, ghost batches: seq<seq<Event>>)
    requires DistinctSeats(state.players) && ConfigOk(state.config) && dlr.Valid()
    requires |handIds| == |draws| == 64 && forall i | 0 <= i < 64 :: Choices(draws[i], SIZE)
    modifies dlr, dlr.d
    ensures dlr.Valid()
    ensures events.Some? ==>
      && events.value == [CommandEvent(state.Value(), cmd, actor)] + Flat(batches)
      && RanToRest(Play(state.Value(), [CommandEvent(state.Value(), cmd, actor)]).(version := state.version + 1), now,
          batches)
    ensures events.Some? ==> EngineOnly(events.value)
    ensures events.Some? ==>
      Supplied(Play(state.Value(), [CommandEvent(state.Value(), cmd, actor)]).(version := state.version + 1), now,
          batches,
               old(ShoeOf(dlr)), ShoeOf(dlr))
    ensures events.None? ==>
      RanDry(Play(state.Value(), [CommandEvent(state.Value(), cmd, actor)]).(version := state.version + 1), now,
          batches, old(ShoeOf(dlr)))
    ensures Stocked(state.Value(), old(ShoeOf(dlr))) ==>
      events.Some? && Stocked(Play(state.Value(), events.value), ShoeOf(dlr))
  {
    hide Effect, Play, CommandEvent, RanToRest, Choices, ConfigOk, EngineOnly, SeatedThroughout;
    hide DistinctSeats, SameSeats;
    hide IsEngineEvent, ReduceAll, Flat, Stocked, RanDry, Supplied;
    ghost var g, a := state.Value(), ShoeOf(dlr);
    var first := CommandEvent(state.Value(), cmd, actor);
    FirstKeepsStock(g, cmd, actor, state.version + 1, a);
    OneEngineEvent(g, cmd, actor);
    EngineKeepsSeated(g, Bares([first]));
    BaresPlay(g, [first]);
    EngineKeepsConfig(g, [first]);
    var curr := ApplyAll(state, Bares([first]));
    var rest;
    rest, batches := RunAdvance(curr, dlr, now, handIds, draws);
    if rest.None? {
      return None, batches;
    }
    RestMeans(curr.Value(), now, batches);
    LifecycleIsEngine(curr.Value(), now, batches);
    EngineConcat([first], rest.value);
    events := Some([first] + rest.value);
    RestKeepsStock(g, [first], state.version + 1, rest.value, ShoeOf(dlr));
  }

  lemma FirstKeepsStock(g: Game, cmd: Command, actor: PlayerId, v: int, a: Shoe)
    ensures Stocked(g, a) ==> Stocked(Play(g, [CommandEvent(g, cmd, actor)]).(version := v), a)
  {
    hide Stocked, CommandEvent, Play;
    if Stocked(g, a) {
      CommandKeepsStock(g, cmd, actor, a);
      StockIgnoresVersion(Play(g, [CommandEvent(g, cmd, actor)]), v, a);
    }
  }

  lemma RestKeepsStock(g: Game, first: seq<Event>, v: int, rest: seq<Event>, b: Shoe)
    ensures Stocked(Play(Play(g, first).(version := v), rest), b) ==> Stocked(Play(g, first + rest), b)
  {
    hide Stocked, Play;
    PlayIgnoresVersion(Play(g, first), v, rest);
    PlayConcat(g, first, rest);
    StockIgnoresVersion(Play(g, first + rest), v, b);
  }

  lemma OneEngineEvent(g: Game, cmd: Command, actor: PlayerId)
    ensures EngineOnly([CommandEvent(g, cmd, actor)]) && IsEngineEvent(CommandEvent(g, cmd, actor))
  {
    hide CommandEvent;
    CommandIsEngine(g, cmd, actor);
  }

  lemma RestMeans(g: Game, now: nat, batches: seq<seq<Event>>)
    requires RanToRest(g, now, batches)
    ensures IsLifecycle(g, now, batches)
  {
  }

  lemma {:induction false} EngineKeepsConfig(g: Game, events: seq<Event>)
    requires EngineOnly(events)
    ensures Play(g, events).config == g.config
  {
    ConfigKept(g, events);
  }

  lemma EngineConcat(a: seq<Event>, b: seq<Event>)
    requires EngineOnly(a) && EngineOnly(b)
    ensures EngineOnly(a + b)
  {
  }

  lemma {:induction false} LifecycleIsEngine(g: Game, now: nat, batches: seq<seq<Event>>)
    requires ConfigOk(g.config) && IsLifecycle(g, now, batches)
    ensures EngineOnly(Flat(batches))
    decreases |batches|
  {
    hide Effect, Play, BatchOf, Plausible, EngineOnly, ConfigOk;
    if batches == [] {
      NoEvents();
    } else {
      var luck :| Plausible(luck, g) && batches[0] == Advance(g, now, luck);
      assert Plausible(luck, g);
      BatchOfKind(g, now, luck);
      BatchIsEngine(g, now, luck);
      EngineKeepsConfig(g, batches[0]);
      LifecycleIsEngine(Play(g, batches[0]), now, batches[1..]);
      assert [batches[0]] + batches[1..] == batches;
      FlatFront(batches[0], batches[1..]);
      EngineConcat(batches[0], Flat(batches[1..]));
    }
  }

  lemma NoEvents()
    ensures EngineOnly([])
  {
  }

  // ── What a command leaves behind ──────────────────────────────────────────

  /** Every new hand of the run finds its antes covered and every showdown pays fully. */
  ghost predicate SoundLifecycle(g: Game, now: nat, batches: seq<seq<Event>>)
    decreases |batches|
  {
    batches == [] ||
    exists luck :: Plausible(luck, g) && batches[0] == Advance(g, now, luck) && Covered(g, now) && PaysOut(g, now, luck)
                   && SoundLifecycle(Play(g, batches[0]), now, batches[1..])
  }

  lemma {:induction false} LifecycleConserves(g: Game, now: nat, batches: seq<seq<Event>>)
    requires TableOk(g) && SoundLifecycle(g, now, batches)
    ensures TableOk(Play(g, Flat(batches)))
    ensures ChipCount(Play(g, Flat(batches))) + RakeIn(Flat(batches)) == ChipCount(g)
    decreases |batches|
  {
    hide Play, Plausible, TableOk, ChipCount, RakeIn, Covered, PaysOut, Advance;
    if batches == [] {
      NothingHappens(g);
    } else {
      var luck :| Plausible(luck, g) && batches[0] == Advance(g, now, luck) && Covered(g, now) && PaysOut(g, now, luck)
                  && SoundLifecycle(Play(g, batches[0]), now, batches[1..]);
      assert Plausible(luck, g);
      BatchConservesIff(g, now, luck);
      LifecycleConserves(Play(g, batches[0]), now, batches[1..]);
      assert [batches[0]] + batches[1..] == batches;
      FlatFront(batches[0], batches[1..]);
      PlayConcat(g, batches[0], Flat(batches[1..]));
      RakeInConcat(batches[0], Flat(batches[1..]));
    }
  }

  /** The whole event list of a command — its own event, streets, showdown, next hand — keeps the
      betting invariant and every chip but the rake. */
  lemma HandleCommandConserves(g: Game, cmd: Command, actor: PlayerId, now: nat, batches: seq<seq<Event>>)
    requires TableOk(g) && SoundLifecycle(Play(g, [CommandEvent(g, cmd, actor)]), now, batches)
    ensures var events := [CommandEvent(g, cmd, actor)] + Flat(batches);
      TableOk(Play(g, events)) && ChipCount(Play(g, events)) + RakeIn(events) == ChipCount(g)
  {
    hide Play, TableOk, ChipCount, RakeIn, SoundLifecycle, CommandEvent, Effect;
    var first := [CommandEvent(g, cmd, actor)];
    CommandKeepsTable(g, cmd, actor);
    LifecycleConserves(Play(g, first), now, batches);
    PlayConcat(g, first, Flat(batches));
    RakeInConcat(first, Flat(batches));
    CommandsTakeNoRake(g, cmd, actor);
  }

  lemma CommandsTakeNoRake(g: Game, cmd: Command, actor: PlayerId)
    ensures RakeIn([CommandEvent(g, cmd, actor)]) == 0
  {
    hide Validate;
    assert [CommandEvent(g, cmd, actor)][..0] == [];
  }
}
