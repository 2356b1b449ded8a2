/** A session that appends what it computed before the lobby committed: nothing stops it, and chips can go. */
module Races {
  import opened Collections
  import opened Table
  import opened Lifecycle
  import opened Posting
  import opened Chips
  import opened Batches
  import opened Showdown
  import opened Conservation
  import opened Journal
  import opened Seating
  import opened Handler
  import opened Lobby
  import opened Session
  import opened Accounts

  // ── The log so far ────────────────────────────────────────────────────────

  function RaceConfig(): Config
  {
    Config(1, 2, 0, 0, 2, 6, 1, 0, 0, 0, 5, false, 0, false)
  }

  /** Two players join with 10 chips each. */
  function Joins(): seq<GameEvent>
  {
    [GameEvent(2, 2, None, None, PlayerJoined(7, 7, 1, 10)), GameEvent(3, 3, None, None, PlayerJoined(8, 8, 2, 10))]
  }

  /** A hand with blinds of 1 and 2; player 7 is asked, with a deadline, and sits out. */
  function Deal(): seq<GameEvent>
  {
    [GameEvent(4, 4, None, None, HandStarted(0, 1, 7, 7, 8, 2)),
     GameEvent(5, 5, None, None, BlindPosted(7, 1, false)),
     GameEvent(6, 6, None, None, BlindPosted(8, 2, true)),
     GameEvent(7, 7, None, None, ActionStarted(7, Some(5))),
     GameEvent(8, 8, None, None, PlayerSatOut(7))]
  }

  ghost function TwoSeated(): Game
  {
    ReduceAll(Created(RaceConfig()), Joins())
  }

  /** The state in the session's memory. */
  ghost function Remembered(): Game
  {
    ReduceAll(TwoSeated(), Deal())
  }

  function RaceRows(): Rows
  {
    Insert(map[1 := CreationEvent(RaceConfig(), None, None)], Joins() + Deal())
  }

  lemma JoinsSeat()
    ensures SeatsOk(RaceConfig(), TwoSeated()) && SeatedThroughout(Created(RaceConfig()), Joins())
    ensures TwoSeated().hand.None? && TwoSeated().status == Waiting && TwoSeated().handNumber == 0
    ensures TwoSeated().players == map[7 := Player(1, false, 10, 0, 0, false, false, None),
                                     8 := Player(2, false, 10, 0, 0, false, false, None)]
    ensures TwoSeated().userIds == map[7 := 7, 8 := 8]
  {
    hide Reduce, ReduceAll, SeatedThroughout;
    var config, g, evts := RaceConfig(), Created(RaceConfig()), Joins();
    FirstJoin(g, evts[0]);
    SecondJoin(Reduce(g, evts[0]), evts[1]);
    ReduceTwo(g, evts[0], evts[1]);
    SeatedByTwo(config, g, evts[0], evts[1]);
    assert evts == [evts[0], evts[1]];
  }

  lemma FirstJoin(g: Game, e: GameEvent)
    requires g == Created(RaceConfig()) && e.event == PlayerJoined(7, 7, 1, 10)
    ensures SeatsOk(RaceConfig(), g) && SeatsOk(RaceConfig(), Reduce(g, e))
    ensures Reduce(g, e) == g.(version := Reduce(g, e).version, userIds := map[7 := 7],
                               players := map[7 := Player(1, false, 10, 0, 0, false, false, None)])
  {
  }

  lemma SecondJoin(g: Game, e: GameEvent)
    requires g == Created(RaceConfig()).(version := g.version, userIds := map[7 := 7],
                                         players := map[7 := Player(1, false, 10, 0, 0, false, false, None)])
    requires e.event == PlayerJoined(8, 8, 2, 10)
    ensures SeatsOk(RaceConfig(), Reduce(g, e))
    ensures var g2 := Reduce(g, e);
      && g2.hand.None? && g2.status == Waiting && g2.handNumber == 0
      && g2.players == map[7 := Player(1, false, 10, 0, 0, false, false, None),
          8 := Player(2, false, 10, 0, 0, false, false, None)]
      && g2.userIds == map[7 := 7, 8 := 8]
  {
  }

  // ── What the session remembers ────────────────────────────────────────────

  /** The hand with blinds posted; sat is whether player 7 sits out. */
  ghost predicate Facing(g: Game, asked: bool, sat: bool)
  {
    && g.config == RaceConfig() && g.status == Active && g.handNumber == 0
    && g.players
        == map[7 := Player(1, sat, 9, 1, 1, false, false, None), 8 := Player(2, false, 8, 2, 2, false, false, None)]
    && g.hand.Some?
    && (var h := g.hand.value;
        && h.pot == 3 && h.highest == 2 && h.phase == Preflop && h.rakeTaken == 0
        && Distinct(h.order) && Elems(h.order) == {7, 8} && h.pending == h.order
        && (if asked then h.acting == Some(7) && h.deadline == Some(5) else h.acting.None?))
  }

  lemma HandStarts(g: Game, e: GameEvent)
    requires g == TwoSeated() && e.event == HandStarted(0, 1, 7, 7, 8, 2) && e.occurredAt.None?
    ensures var g2 := Reduce(g, e);
      && g2.config == RaceConfig() && g2.status == Active && g2.handNumber == 0 && g2.players == g.players
      && g2.hand.Some?
      && (var h := g2.hand.value;
          && h.pot == 0 && h.highest == 0 && h.phase == Preflop && h.rakeTaken == 0 && h.acting.None?
          && Distinct(h.order) && Elems(h.order) == {7, 8} && h.pending == h.order)
  {
    hide Effect, TwoSeated, CommitTotal;
    JoinsSeat();
    ConfigStaysIn();
    FreshTable(g, e.event);
    NumberStays(g, e.event);
    assert MapPlayers(g.players, FreshHand()) == g.players;
    assert ActiveIds(g.players) == {7, 8};
  }

  lemma NumberStays(g: Game, e: Event)
    requires e.HandStarted?
    ensures Effect(g, e, None).handNumber == g.handNumber
  {
    hide PreflopOrder, MapPlayers;
  }

  lemma ConfigStaysIn()
    ensures TwoSeated().config == RaceConfig()
  {
    hide ReduceAll;
    JoinsSeat();
  }

  lemma BlindsPost(g: Game, d: GameEvent, e: GameEvent)
    requires g.hand.Some? && d.event == BlindPosted(7, 1, false) && e.event == BlindPosted(8, 2, true)
    requires g.config == RaceConfig() && g.status == Active && g.handNumber == 0
    requires g.players == map[7 := Player(1, false, 10, 0, 0, false, false, None),
        8 := Player(2, false, 10, 0, 0, false, false, None)]
    requires var h := g.hand.value;
      && h.pot == 0 && h.highest == 0 && h.phase == Preflop && h.rakeTaken == 0 && h.acting.None?
      && Distinct(h.order) && Elems(h.order) == {7, 8} && h.pending == h.order
    ensures Facing(Reduce(Reduce(g, d), e), false, false)
  {
  }

  lemma Asks7(g: Game, d: GameEvent, e: GameEvent)
    requires Facing(g, false, false) && d.event == ActionStarted(7, Some(5)) && e.event == PlayerSatOut(7)
    ensures Facing(Reduce(Reduce(g, d), e), true, true)
  {
  }

  lemma RememberedIs()
    ensures Facing(Remembered(), true, true)
  {
    hide Reduce, ReduceAll, Facing;
    var g, evts := TwoSeated(), Deal();
    JoinsSeat();
    ConfigStaysIn();
    HandStarts(g, evts[0]);
    var g1 := Reduce(g, evts[0]);
    BlindsPost(g1, evts[1], evts[2]);
    var g3 := Reduce(Reduce(g1, evts[1]), evts[2]);
    Asks7(g3, evts[3], evts[4]);
    ReduceFive(g, evts[0], evts[1], evts[2], evts[3], evts[4]);
    assert evts == [evts[0], evts[1], evts[2], evts[3], evts[4]];
  }

  lemma ReduceFive(g: Game, a: GameEvent, b: GameEvent, c: GameEvent, d: GameEvent, e: GameEvent)
    ensures ReduceAll(g, [a, b, c, d, e]) == Reduce(Reduce(Reduce(Reduce(Reduce(g, a), b), c), d), e)
  {
    hide Reduce;
    ReduceTwo(g, a, b);
    var g2 := Reduce(Reduce(g, a), b);
    ReduceTwo(g2, c, d);
    ReduceConcat(g, [a, b], [c, d]);
    assert [a, b] + [c, d] == [a, b, c, d];
    assert [a, b, c, d, e][..4] == [a, b, c, d];
  }

  // ── The plan ──────────────────────────────────────────────────────────────

  /** The deadline passes: player 7 folds, player 8 wins the blinds. */
  function PlanBatches(): seq<seq<Event>>
  {
    [[PlayerTimedOut(7), PlayerFolded(7)], [PotAwarded(3, [8]), HandEnded(1)]]
  }

  function Plan(): seq<Event>
  {
    [PlayerTimedOut(7), PlayerFolded(7), PotAwarded(3, [8]), HandEnded(1)]
  }

  lemma PlanIsFlat()
    ensures Flat(PlanBatches()) == Plan()
  {
    var b := PlanBatches();
    assert b[..1] == [b[0]] && [b[0]][..0] == [];
    assert Flat([b[0]]) == b[0];
  }

  /** After the fold only player 8 is left. */
  ghost predicate OneLeft(g: Game)
  {
    && g.config == RaceConfig() && g.status == Active && g.handNumber == 0
    && g.hand.Some? && g.hand.value.acting.None? && g.hand.value.pot == 3
    && Distinct(g.hand.value.order) && Elems(g.hand.value.order) == {7, 8}
    && g.players.Keys == {7, 8} && g.players[7].folded && !g.players[8].folded
  }

  lemma TimeRunsOut(g: Game)
    requires Facing(g, true, true)
    ensures KindOf(g, 6) == TimesOut && TimeoutAction(g) == PlanBatches()[0] && OneLeft(Play(g, PlanBatches()[0]))
  {
    hide Without;
    PlayTwo(g, PlayerTimedOut(7), PlayerFolded(7));
  }

  lemma LoneWinner(g: Game)
    requires OneLeft(g)
    ensures NonFolded(g) == [8]
  {
    var order, left := g.hand.value.order, NonFolded(g);
    SelectElems(order, UnfoldedIds(g.players));
    SelectDistinct(order, UnfoldedIds(g.players));
    forall p ensures p in left <==> p == 8 {
      assert p in order <==> p in Elems(order);
    }
    assert 8 in left && Elems(left) == {8};
    DistinctLength(left);
  }

  lemma WinnerIsPaid(g: Game)
    requires OneLeft(g)
    ensures KindOf(g, 6) == PaysLast && UncontestedEvents(g) == PlanBatches()[1]
  {
    hide NonFolded;
    LoneWinner(g);
  }

  lemma PlanIsSound(g: Game)
    requires Facing(g, true, true)
    ensures SoundPlan(g, Plan())
  {
    hide Facing, OneLeft, Effect, Play, Plausible, KindOf, BatchOf, Advance, Flat, PaysOut, Covered;
    hide UncontestedEvents, TimeoutAction;
    var batches := PlanBatches();
    TimeRunsOut(g);
    var g1 := Play(g, batches[0]);
    WinnerIsPaid(g1);
    var luck := SomeLuck(g, [], 0);
    var luck1 := SomeLuck(g1, [], 0);
    SoundStep(g, 6, luck);
    SoundStep(g1, 6, luck1);
    assert batches[1..] == [batches[1]] && [batches[1]][1..] == [];
    assert SoundLifecycle(Play(g1, batches[1]), 6, []);
    assert SoundLifecycle(g1, 6, [batches[1]]);
    assert SoundLifecycle(g, 6, batches);
    NothingHappens(g);
    PlanIsFlat();
    assert [] + Flat(batches) == Plan();
    assert Opens(g, []);
  }

  lemma SoundStep(g: Game, now: nat, luck: Luck)
    requires Plausible(luck, g) && KindOf(g, now) in {TimesOut, PaysLast}
    ensures Covered(g, now) && PaysOut(g, now, luck)
    ensures Advance(g, now, luck) == if KindOf(g, now) == TimesOut then TimeoutAction(g) else UncontestedEvents(g)
    ensures KindOf(g, now) == TimesOut ==> g.hand.Some? && g.hand.value.acting.Some?
  {
    hide KindOf, Plausible;
    BatchOfKind(g, now, luck);
    BatchFacts(g, now, luck);
    KindFacts(g, now);
  }

  // ── The race ──────────────────────────────────────────────────────────────

  /** The session has computed its plan; a lobby writer has loaded the table to let player 8 leave. */
  ghost function Race(): System
  {
    System(RaceConfig(), RaceRows(), map[7 := 0, 8 := 0],
        map[0 := Idle, 1 := Loaded(Leaving(8, None), Remembered(), 8)])
  }

  function RaceHistory(): seq<GameEvent>
  {
    [CreationEvent(RaceConfig(), None, None)] + Joins() + Deal()
  }

  lemma RaceLog()
    ensures Gapless(RaceRows()) && |RaceRows()| == 8 && |RaceHistory()| == 8
    ensures LogOf(RaceRows()) == RaceHistory() && Replay(RaceConfig(), RaceHistory(), 8) == Remembered()
  {
    hide ReduceAll, Insert;
    var created, evts := map[1 := CreationEvent(RaceConfig(), None, None)], Joins() + Deal();
    assert Gapless(created) && LogOf(created) == [CreationEvent(RaceConfig(), None, None)];
    assert Numbered(evts, 1);
    InsertAtEnd(created, evts);
    assert |LogOf(RaceRows())| == 8;
    ReduceConcat(Created(RaceConfig()), Joins(), Deal());
    assert LogOf(RaceRows())[1..8] == evts;
  }

  lemma RaceIsOk()
    ensures SystemOk(Race()) && CurrentState(Race()) == Remembered() && SeatsOk(RaceConfig(), Remembered())
  {
    hide ReduceAll, Insert, SeatsOk, SeatedThroughout, LogOf, Gapless, RaceRows, TwoSeated;
    RaceLog();
    JoinsSeat();
    SeatsAreDistinct(RaceConfig(), TwoSeated());
    DealIsEngine();
    EngineKeepsSeated(TwoSeated(), Deal());
    EventsKeepSeats(RaceConfig(), TwoSeated(), Deal());
    TwoSeatedIs();
    SeatedConcat(Created(RaceConfig()), Joins(), Deal());
    assert LogOf(RaceRows())[1..] == Joins() + Deal();
  }

  lemma TwoSeatedIs()
    ensures TwoSeated() == ReduceAll(Created(RaceConfig()), Joins())
  {
    hide ReduceAll;
  }

  lemma DealIsEngine()
    ensures forall i | 0 <= i < |Deal()| :: IsEngineEvent(Deal()[i].event)
  {
  }

  /** Player 8's leave commits first; then the session reads the end of the log and appends its plan. */
  function RaceSteps(at: Time): seq<Step>
  {
    [CommitLeave(1, 8, None), ReadEnd(0), Append(0, Stamped(Plan(), 10, at, None))]
  }

  /** The table without player 8, whose fold and leave are events 9 and 10. */
  ghost predicate Abandoned(g: Game)
  {
    && g.hand.Some? && g.hand.value.pot == 3 && g.players.Keys == {7} && g.players[7].stack == 9
  }

  lemma LeaveAbandons(g: Game, evts: seq<GameEvent>)
    requires Facing(g, true, true) && evts == LeaveEvents(g, 8, None, 9, 9, None)
    ensures Abandoned(ReduceAll(g, evts)) && Numbered(evts, 8) && |evts| == 2
  {
    hide Reduce, ReduceAll;
    FoldReduced(g, evts[0], 8);
    LeaveReduced(Reduce(g, evts[0]), evts[1]);
    ReduceTwo(g, evts[0], evts[1]);
  }

  lemma AbandonedChips(g: Game)
    requires Abandoned(g)
    ensures ChipCount(g) == 12
  {
    OneStack(g.players, 7);
  }

  lemma OneStack(players: map<PlayerId, Player>, p: PlayerId)
    requires players.Keys == {p}
    ensures StackTotal(players) == players[p].stack
  {
    var m := Stacks(players);
    TotalPick(m, p);
    assert m - {p} == map[];
  }

  /** The award finds nobody to pay. */
  lemma PlanLosesPot(g: Game)
    requires Abandoned(g)
    ensures ChipCount(Play(g, Plan())) == 9
  {
    hide Effect, Paid, Without;
    var p := Plan();
    assert [p[0], p[1]] + [p[2], p[3]] == p;
    PlayConcat(g, [p[0], p[1]], [p[2], p[3]]);
    PlayTwo(g, p[0], p[1]);
    TimedOutAndFolded(g);
    var g1 := Play(g, [p[0], p[1]]);
    PlayTwo(g1, p[2], p[3]);
    AwardToNobody(g1);
    OneStack(Play(g, p).players, 7);
  }

  lemma TimedOutAndFolded(g: Game)
    requires Abandoned(g)
    ensures Abandoned(Effect(Effect(g, PlayerTimedOut(7), None), PlayerFolded(7), None))
  {
    hide Without;
  }

  lemma AwardToNobody(g: Game)
    requires Abandoned(g)
    ensures var g2 := Effect(Effect(g, PotAwarded(3, [8]), None), HandEnded(1), None);
      g2.hand.None? && g2.players == g.players
  {
    assert Paid(g.players, [8], 3, 0) == g.players;
  }

  lemma StampedPlanLosesPot(g: Game, at: Time)
    requires Abandoned(g) && g.version == 10
    ensures ChipCount(ReduceAll(g, Stamped(Plan(), 10, at, None))) == 9
  {
    hide ReduceAll, Play, ChipCount, Timeless, Abandoned, Stamped;
    PlanLosesPot(g);
    BaresPlay(g, Plan());
    StampingChangesTimesOnly(g, Plan(), at, None);
    SameChips(ReduceAll(g, Bares(Plan())), ReduceAll(g, Stamped(Plan(), 10, at, None)));
    SameChipsVersion(Play(g, Plan()), g.version + |Plan()|);
  }

  lemma SameChips(g: Game, g2: Game)
    requires Timeless(g2) == Timeless(g)
    ensures ChipCount(g2) == ChipCount(g)
  {
    hide StackTotal;
    SameTable(g, g2);
  }

  lemma SameChipsVersion(g: Game, v: int)
    ensures ChipCount(g.(version := v)) == ChipCount(g)
  {
  }

  lemma PlanIsEngine(at: Time)
    ensures var evts := Stamped(Plan(), 10, at, None);
      && evts != [] && Numbered(evts, 10) && (forall i | 0 <= i < |evts| :: IsEngineEvent(evts[i].event))
      && EventsOf(evts) == Plan() && RakeIn(Plan()) == 0
  {
    assert EventsOf(Stamped(Plan(), 10, at, None)) == Plan();
    NoRake(Plan());
  }

  /** After player 8's leave. */
  ghost predicate Left8(s: System)
  {
    && SystemOk(s) && s.config == RaceConfig() && |s.rows| == 10 && Abandoned(CurrentState(s))
    && LogOf(s.rows)[..8] == RaceHistory()
    && s.writers.Keys == {0, 1}
  }

  lemma LeaveEnabled(s: System, step: Step)
    requires s == Race() && step == CommitLeave(1, 8, None)
    ensures SystemOk(s) && Enabled(s, step)
    ensures s.writers[1] == Loaded(Leaving(8, None), Remembered(), 8) && 8 in Remembered().players
    ensures |s.rows| == 8 && Remembered().version == 8
  {
    hide ReduceAll, Insert, SeatedThroughout, Replay, Remembered, RaceRows, LogOf, Gapless;
    RaceIsOk();
    RaceLog();
    RememberedIs();
    StateVersion(s);
  }

  lemma LeaveGoesIn(s: System, step: Step)
    requires s == Race() && step == CommitLeave(1, 8, None)
    ensures SystemOk(s) && Enabled(s, step) && Drift(s, step) == 0 && Cost(s, step) == 0
    ensures 8 in Remembered().players && Gapless(s.rows) && |s.rows| == 8 && s.config == RaceConfig()
    ensures LogOf(s.rows) == RaceHistory() && CurrentState(s) == Remembered()
    ensures var evts := LeaveEvents(Remembered(), 8, None, 9, 9, None);
      && Next(s, step).rows == Insert(s.rows, evts) && Next(s, step).config == s.config
      && Next(s, step).wallets == s.wallets && Next(s, step).writers.Keys == {0, 1} && Next(s, step).writers[0].Idle?
  {
    hide ReduceAll, Insert, SystemOk, Fits, Replay, Remembered, RaceRows, LeaveEvents, LogOf, Gapless;
    LeaveEnabled(s, step);
    RememberedIs();
    RaceIsOk();
    RaceLog();
    LobbyRows(s, step);
  }

  lemma LeaveFirst(s: System, step: Step)
    requires s == Race() && step == CommitLeave(1, 8, None)
    ensures SystemOk(s) && Enabled(s, step) && Drift(s, step) == 0 && Cost(s, step) == 0
    ensures SystemOk(Next(s, step)) && Left8(Next(s, step)) && Next(s, step).writers[0].Idle?
  {
    hide ReduceAll, Insert, SystemOk, Fits, Replay, Remembered, RaceRows, Abandoned, LeaveEvents;
    hide CurrentState, LogOf, Gapless;
    hide Next, Enabled, Drift, Cost, Facing, Race, RaceHistory, Numbered;
    LeaveGoesIn(s, step);
    RememberedIs();
    StepKeepsSystem(s, step);
    var evts := LeaveEvents(Remembered(), 8, None, 9, 9, None);
    LeaveAbandons(Remembered(), evts);
    AppendedState(s, Next(s, step), evts);
    LogAfter(s.rows, evts);
  }

  lemma LogAfter(rows: Rows, evts: seq<GameEvent>)
    requires Gapless(rows) && Numbered(evts, |rows|)
    ensures Gapless(Insert(rows, evts)) && |Insert(rows, evts)| == |rows| + |evts|
    ensures LogOf(Insert(rows, evts))[..|rows|] == LogOf(rows)
  {
    hide Insert;
    InsertAtEnd(rows, evts);
    assert |LogOf(Insert(rows, evts))| == |LogOf(rows)| + |evts|;
  }

  lemma ReadSecond(s: System, step: Step)
    requires Left8(s) && s.writers[0].Idle? && step == ReadEnd(0)
    ensures SystemOk(s) && Enabled(s, step) && Drift(s, step) == 0 && Cost(s, step) == 0
    ensures SystemOk(Next(s, step)) && Left8(Next(s, step)) && Next(s, step).writers[0] == Stamping(10)
  {
    hide ReduceAll, SeatsOk, SeatedThroughout, Fits, RaceRows, Abandoned;
    StepKeepsSystem(s, step);
  }

  lemma AppendThird(s: System, step: Step, at: Time)
    requires Left8(s) && s.writers[0] == Stamping(10) && step == Append(0, Stamped(Plan(), 10, at, None))
    ensures SystemOk(s) && Enabled(s, step) && Drift(s, step) == -3 && Cost(s, step) == 0
    ensures Gapless(s.rows) && |s.rows| == 10 && Computed(s, step.evts, 8)
    ensures SystemOk(Next(s, step))
  {
    hide ReduceAll, SeatsOk, SeatedThroughout, RaceRows, Abandoned, SoundPlan, Stamped, ChipCount;
    hide RakeIn, Replay, Remembered, Fits;
    StepKeepsStale(s, step, at);
    PlanIsEngine(at);
    AppendsOnlyAtEnd(s.rows, step.evts, 10);
    StateVersion(s);
    AbandonedChips(CurrentState(s));
    StampedPlanLosesPot(CurrentState(s), at);
    StepKeepsSystem(s, step);
  }

  lemma StepKeepsStale(s: System, step: Step, at: Time)
    requires Left8(s) && step == Append(0, Stamped(Plan(), 10, at, None))
    ensures Gapless(s.rows) && |s.rows| == 10 && Computed(s, step.evts, 8)
  {
    hide ReduceAll, SeatsOk, SeatedThroughout, RaceRows, Abandoned, SoundPlan, Stamped, Remembered, LogOf;
    RaceLog();
    RememberedIs();
    PlanIsSound(Remembered());
    SamePrefix(s.config, LogOf(s.rows), RaceHistory(), 8);
  }

  lemma SamePrefix(config: Config, log: seq<GameEvent>, front: seq<GameEvent>, k: nat)
    requires 1 <= k <= |log| && |front| == k && log[..k] == front
    ensures Replay(config, log, k) == Replay(config, front, k)
  {
    assert log[1..k] == log[..k][1..k] == front[1..k];
  }

  /** The session's plan was sound for the state it was computed from, the log took it without a gap, and
      yet 3 of the 20 chips are gone: the leaver's cash-out is on its way, and the pot was awarded to a
      player no longer there. */
  lemma StaleAppendLosesPot(at: Time)
    ensures SystemOk(Race()) && IsHistory(Race(), RaceSteps(at)) && Purse(Race()) == 20
    ensures Purse(Outcome(Race(), RaceSteps(at))) == 17 && CostOf(Race(), RaceSteps(at)) == 0
    ensures SoundPlan(Remembered(), Plan())
  {
    hide SystemOk, Enabled, Next, Drift, Cost, Purse, Left8, RaceRows, Remembered, SoundPlan, Race;
    hide IsHistory, Outcome, CostOf, Plan, Facing, Computed;
    var s, steps := Race(), RaceSteps(at);
    RaceIsOk();
    RacePurse();
    RememberedIs();
    PlanIsSound(Remembered());
    LeaveFirst(s, steps[0]);
    var s1 := Next(s, steps[0]);
    ReadSecond(s1, steps[1]);
    var s2 := Next(s1, steps[1]);
    AppendThird(s2, steps[2], at);
    StepKeepsSystem(s, steps[0]);
    StepKeepsSystem(s1, steps[1]);
    StepKeepsSystem(s2, steps[2]);
    ThreeSteps(s, steps);
  }

  lemma RacePurse()
    ensures SystemOk(Race()) && Purse(Race()) == 20
  {
    hide ReduceAll, Insert, SeatsOk, SeatedThroughout, Replay, Remembered, RaceRows;
    RaceIsOk();
    RememberedIs();
    var g, wallets, credits := Remembered(), Race().wallets, Credits(Race().writers);
    TotalOfZeros(wallets);
    TotalOfZeros(credits);
    var m := Stacks(g.players);
    assert m.Keys == {7, 8};
    TotalPick(m, 7);
    TotalPick(m - {7}, 8);
    TotalOfZeros(m - {7} - {8});
  }

  lemma ThreeSteps(s: System, steps: seq<Step>)
    requires |steps| == 3 && SystemOk(s) && Enabled(s, steps[0])
    requires SystemOk(Next(s, steps[0])) && Enabled(Next(s, steps[0]), steps[1])
    requires SystemOk(Next(Next(s, steps[0]), steps[1])) && Enabled(Next(Next(s, steps[0]), steps[1]), steps[2])
    ensures IsHistory(s, steps)
    ensures SystemOk(Next(Next(Next(s, steps[0]), steps[1]), steps[2]))
    ensures Outcome(s, steps) == Next(Next(Next(s, steps[0]), steps[1]), steps[2])
    ensures CostOf(s, steps)
         == Cost(s, steps[0]) + Cost(Next(s, steps[0]), steps[1]) + Cost(Next(Next(s, steps[0]), steps[1]), steps[2])
  {
    hide SystemOk, Enabled, Next, Cost;
    var s1, rest := Next(s, steps[0]), steps[1..];
    var s2, last := Next(s1, steps[1]), rest[1..];
    StepKeepsSystem(s2, steps[2]);
    assert rest[0] == steps[1] && last == [steps[2]] && last[1..] == [];
    assert IsHistory(s2, last) && IsHistory(s1, rest);
    assert CostOf(s2, last) == Cost(s2, steps[2]) && Outcome(s2, last) == Next(s2, steps[2]);
    assert CostOf(s1, rest) == Cost(s1, steps[1]) + CostOf(s2, last) && Outcome(s1, rest) == Outcome(s2, last);
  }
}
