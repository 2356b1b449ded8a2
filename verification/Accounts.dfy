/** The chips of users and tables over whole histories, the sessions' events included. */
module Accounts {
  import opened Collections
  import opened Table
  import opened Rules
  import opened Lifecycle
  import opened Posting
  import opened Betting
  import opened Chips
  import opened Runs
  import opened Batches
  import opened Showdown
  import opened Rest
  import opened Conservation
  import opened Contention
  import opened Dealing
  import opened Journal
  import opened Seating
  import opened Handler
  import opened Lobby
  import opened Session

  // ── What a session appends ────────────────────────────────────────────────

  /** An event list of a session: a command's event, or nothing when a deadline fired, and a lifecycle run
      from there whose new hands find their antes covered and whose showdowns pay fully. */
  ghost predicate SoundPlan(g: Game, plan: seq<Event>)
  {
    exists first, now, batches ::
      Opens(g, first) && plan == first + Flat(batches) && SoundLifecycle(Play(g, first), now, batches)
  }

  ghost predicate Opens(g: Game, first: seq<Event>)
  {
    first == [] || exists cmd, actor :: first == [First(g, cmd, actor)]
  }

  /** The events before stamping. */
  function EventsOf(evts: seq<GameEvent>): (r: seq<Event>)
    ensures |r| == |evts| && forall i | 0 <= i < |r| :: r[i] == evts[i].event
  {
    seq(|evts|, i requires 0 <= i < |evts| => evts[i].event)
  }

  lemma ResumeKeepsTable(g: Game)
    requires TableOk(g)
    ensures TableOk(Effect(g, TableResumed, None)) && ChipCount(Effect(g, TableResumed, None)) == ChipCount(g)
  {
    hide HandOk;
  }

  lemma OpeningKeepsTable(g: Game, first: seq<Event>)
    requires TableOk(g) && Opens(g, first)
    ensures TableOk(Play(g, first)) && ChipCount(Play(g, first)) == ChipCount(g) && RakeIn(first) == 0
  {
    hide Effect, Play, TableOk, ChipCount, RakeIn, CommandEvent;
    NothingHappens(g);
    if first != [] {
      var cmd, actor :| first == [First(g, cmd, actor)];
      match cmd
      case FromPlayer(c) =>
        CommandKeepsTable(g, c, actor);
        CommandsTakeNoRake(g, c, actor);
      case Resume =>
        PlayOne(g, First(g, cmd, actor));
        ResumeKeepsTable(g);
        Refused(g);
        NoRakeInOne(First(g, cmd, actor));
    }
  }

  lemma NoRakeInOne(e: Event)
    requires !e.RakeTaken?
    ensures RakeIn([e]) == 0
  {
    assert [e][..0] == [];
  }

  lemma PlanConserves(g: Game, plan: seq<Event>)
    requires TableOk(g) && SoundPlan(g, plan)
    ensures TableOk(Play(g, plan)) && ChipCount(Play(g, plan)) + RakeIn(plan) == ChipCount(g)
  {
    hide Opens, SoundLifecycle, Play, TableOk, ChipCount, RakeIn, Flat;
    var first, now, batches :|
      Opens(g, first) && plan == first + Flat(batches) && SoundLifecycle(Play(g, first), now, batches);
    OpeningKeepsTable(g, first);
    LifecycleConserves(Play(g, first), now, batches);
    PlayConcat(g, first, Flat(batches));
    RakeInConcat(first, Flat(batches));
  }

  lemma SameButForTimes(g: Game, g2: Game)
    requires Timeless(g2) == Timeless(g) && TableOk(g)
    ensures TableOk(g2) && ChipCount(g2) == ChipCount(g)
  {
    hide CommitTotal, StackTotal, Distinct, Elems, Select;
    SameTable(g, g2);
    assert g2.config == Timeless(g2).config == Timeless(g).config == g.config;
    if g.hand.Some? {
      assert forall p | p in g2.players :: BetOk(g.players[p], g.hand.value) ==> BetOk(g2.players[p], g2.hand.value);
      assert forall p | p in g.players :: Matched(g.players, g.hand.value, p) ==> Matched(g2.players, g2.hand.value, p);
    }
  }

  lemma VersionKeepsTable(g: Game, v: int)
    ensures TableOk(g.(version := v)) <==> TableOk(g)
    ensures ChipCount(g.(version := v)) == ChipCount(g)
  {
    hide HandOk;
  }

  /** Stamped and appended, a sound plan keeps the invariant and all chips but the rake. */
  lemma StampedPlanConserves(g: Game, plan: seq<Event>, at: Time, id: Option<nat>)
    requires TableOk(g) && g.version >= 0 && SoundPlan(g, plan)
    ensures var g2 := ReduceAll(g, Stamped(plan, g.version, at, id));
      TableOk(g2) && ChipCount(g2) == ChipCount(g) - RakeIn(EventsOf(Stamped(plan, g.version, at, id)))
  {
    hide SoundPlan, Play, TableOk, ChipCount, RakeIn, ReduceAll, Timeless;
    PlanConserves(g, plan);
    BaresPlay(g, plan);
    VersionKeepsTable(Play(g, plan), g.version + |plan|);
    StampingChangesTimesOnly(g, plan, at, id);
    SameButForTimes(ReduceAll(g, Bares(plan)), ReduceAll(g, Stamped(plan, g.version, at, id)));
    assert EventsOf(Stamped(plan, g.version, at, id)) == plan;
  }

  // ── A command at an ante-free table ───────────────────────────────────────

  /** At every showdown of the run the rake fits into the main pot. */
  ghost predicate RakesFit(g: Game, now: nat, batches: seq<seq<Event>>)
    decreases |batches|
  {
    batches == [] ||
    exists luck :: Plausible(luck, g) && Quiescent(g, Serve(now, luck)) && batches[0] == Advance(g, now, luck)
                   && RakesFit(Play(g, batches[0]), now, batches[1..])
  }

  lemma NoRakeFits(g: Game, now: nat, luck: Luck)
    requires Ready(g) && g.config.rakeBps <= 0 && Plausible(luck, g)
    ensures Quiescent(g, Serve(now, luck))
  {
    hide HandOk, Contending, HandPots, KindOf;
    if KindOf(g, now) == Shows && g.hand.Some? {
      ShowsWhenDue(g, now, luck);
      DueMeansShowdown(g, luck);
      ShowdownFacts(g, luck.stakes);
    }
  }

  lemma {:induction false} NoRakesFit(g: Game, now: nat, batches: seq<seq<Event>>)
    requires Ready(g) && g.config.rakeBps <= 0 && IsLifecycle(g, now, batches)
    ensures RakesFit(g, now, batches)
    decreases |batches|
  {
    hide Ready, Plausible, Advance, Play, Quiescent;
    if batches != [] {
      var luck :| Plausible(luck, g) && batches[0] == Advance(g, now, luck);
      assert Plausible(luck, g);
      NoRakeFits(g, now, luck);
      MoveConserves(g, Serve(now, luck));
      ServedConfig(g, now, luck);
      NoRakesFit(Play(g, batches[0]), now, batches[1..]);
    }
  }

  lemma ServedConfig(g: Game, now: nat, luck: Luck)
    requires Ready(g) && Plausible(luck, g)
    ensures Play(g, Advance(g, now, luck)).config == g.config
    ensures Possible(g, Serve(now, luck)) && After(g, Serve(now, luck)) == Play(g, Advance(g, now, luck))
  {
    hide Plausible, Advance, Play, Contending;
    BatchKeepsTheConfig(g, now, luck);
  }

  /** Without latecomers every such run is sound. */
  lemma {:induction false} ReadyIsSound(g: Game, now: nat, batches: seq<seq<Event>>)
    requires Ready(g) && RakesFit(g, now, batches)
    ensures SoundLifecycle(g, now, batches) && Ready(Play(g, Flat(batches)))
    decreases |batches|
  {
    hide Ready, Plausible, Advance, Play, Covered, PaysOut, Quiescent;
    if batches == [] {
      NothingHappens(g);
    } else {
      var luck :| Plausible(luck, g) && Quiescent(g, Serve(now, luck)) && batches[0] == Advance(g, now, luck)
                  && RakesFit(Play(g, batches[0]), now, batches[1..]);
      BatchIsSound(g, now, luck);
      MoveConserves(g, Serve(now, luck));
      ServedConfig(g, now, luck);
      ReadyIsSound(Play(g, batches[0]), now, batches[1..]);
      assert [batches[0]] + batches[1..] == batches;
      FlatFront(batches[0], batches[1..]);
      PlayConcat(g, batches[0], Flat(batches[1..]));
    }
  }

  lemma BatchIsSound(g: Game, now: nat, luck: Luck)
    requires Ready(g) && Quiescent(g, Serve(now, luck))
    ensures Plausible(luck, g) && Covered(g, now) && PaysOut(g, now, luck)
  {
    hide HandOk, Contending, KindOf, Plausible, RakeFits;
    CoveredWithoutAntes(g, now);
    RakeFitsPays(g, now, luck);
  }

  lemma ReadyIgnoresVersion(g: Game, v: int)
    ensures Ready(g.(version := v)) <==> Ready(g)
    ensures ChipCount(g.(version := v)) == ChipCount(g)
  {
    hide HandOk, Contends;
  }

  /** At an ante-free table, a command that is not a late sit-in, with the run to rest behind it, keeps every
      chip but the rake and leaves the table as it found it: with the betting invariant, and everybody who
      can still win having put in as much as anybody. No rake at all always fits. */
  lemma CommandConserves(g: Game, cmd: Command, actor: PlayerId, v: int, now: nat, batches: seq<seq<Event>>)
    requires Ready(g) && (cmd.SitIn? ==> g.hand.None?)
    requires var begun := Play(g, [CommandEvent(g, cmd, actor)]).(version := v);
      RanToRest(begun, now, batches) && (g.config.rakeBps <= 0 || RakesFit(begun, now, batches))
    ensures var events := [CommandEvent(g, cmd, actor)] + Flat(batches);
      Ready(Play(g, events)) && ChipCount(Play(g, events)) + RakeIn(events) == ChipCount(g)
  {
    hide Ready, Play, CommandEvent, ChipCount, RakeIn, RakesFit, SoundLifecycle, Flat, Stage, IsLifecycle;
    var first := [CommandEvent(g, cmd, actor)];
    var done := Play(g, first);
    var begun := done.(version := v);
    OrderStaysReady(g, cmd, actor);
    CommandKeepsConfig(g, cmd, actor);
    ReadyMeans(g);
    CommandKeepsTable(g, cmd, actor);
    CommandsTakeNoRake(g, cmd, actor);
    ReadyIgnoresVersion(done, v);
    if g.config.rakeBps <= 0 {
      NoRakesFit(begun, now, batches);
    }
    ReadyIsSound(begun, now, batches);
    ReadyMeans(begun);
    LifecycleConserves(begun, now, batches);
    PlayIgnoresVersion(done, v, Flat(batches));
    ReadyIgnoresVersion(Play(done, Flat(batches)), v);
    PlayConcat(g, first, Flat(batches));
    RakeInConcat(first, Flat(batches));
  }

  // ── One step ──────────────────────────────────────────────────────────────

  /** What a session appends: the stamped events of a plan its engine computed from the state in memory,
      here that of the first k events of the log. The end of the log is read afterwards. */
  ghost predicate Computed(s: System, evts: seq<GameEvent>, k: nat)
    requires Gapless(s.rows) && 1 <= k <= |s.rows|
  {
    exists plan, at, id ::
      evts == Stamped(plan, |s.rows|, at, id) && SoundPlan(Replay(s.config, LogOf(s.rows), k), plan)
  }

  /** Nothing was committed between the state a session's plan was computed from and its append, and players
      leave between hands. Appends and leaves that lose their race are free. */
  ghost predicate Sound(s: System, step: Step)
    requires SystemOk(s) && Enabled(s, step)
  {
    match step
    case Append(_, evts) => Fits(s.rows, evts) ==> Computed(s, evts, |s.rows|)
    case CommitLeave(w, _, _) => s.writers[w].upTo == |s.rows| ==> CurrentState(s).hand.None?
    case _ => true
  }

  /** What a step costs: the rake of the events appended, or the cash-out of a credit that fails. */
  ghost function Cost(s: System, step: Step): int
    requires SystemOk(s) && Enabled(s, step)
  {
    match step
    case Append(_, evts) => if Fits(s.rows, evts) then RakeIn(EventsOf(evts)) else 0
    case CreditFails(w) => s.writers[w].amount
    case _ => 0
  }

  lemma StateVersion(s: System)
    requires SystemOk(s)
    ensures CurrentState(s).version == |s.rows|
  {
    hide SeatsOk, SeatedThroughout;
    VersionIsSequence(s.config, LogOf(s.rows), |s.rows|);
  }

  lemma AppendedState(s: System, s2: System, evts: seq<GameEvent>)
    requires SystemOk(s) && SystemOk(s2) && s2.config == s.config && s2.rows == Insert(s.rows, evts)
    requires Numbered(evts, |s.rows|)
    ensures CurrentState(s2) == ReduceAll(CurrentState(s), evts)
  {
    hide SeatsOk, SeatedThroughout, Insert, ReduceAll;
    InsertAtEnd(s.rows, evts);
    assert |LogOf(s2.rows)| == |LogOf(s.rows)| + |evts|;
    ReplayPrefix(s.config, LogOf(s.rows), evts, |s.rows|);
  }

  lemma AppendIsSound(s: System, step: Step)
    requires SystemOk(s) && Enabled(s, step) && step.Append? && Fits(s.rows, step.evts) && Sound(s, step)
    requires TableOk(CurrentState(s))
    ensures SystemOk(Next(s, step)) && TableOk(CurrentState(Next(s, step))) && Drift(s, step) == -Cost(s, step)
  {
    hide Fits, Insert, ReduceAll, Replay, TableOk, ChipCount, RakeIn, SoundPlan, SeatsOk, SeatedThroughout, Stamped;
    var s2 := Next(s, step);
    StepKeepsSystem(s, step);
    WriterAt(s, step.w);
    AppendsOnlyAtEnd(s.rows, step.evts, s.writers[step.w].upTo);
    StateVersion(s);
    assert Computed(s, step.evts, |s.rows|);
    var plan, at, id :|
      step.evts == Stamped(plan, |s.rows|, at, id) && SoundPlan(Replay(s.config, LogOf(s.rows), |s.rows|), plan);
    assert SoundPlan(CurrentState(s), plan);
    StampedPlanConserves(CurrentState(s), plan, at, id);
    AppendedState(s, s2, step.evts);
  }

  lemma JoinIsSound(s: System, step: Step)
    requires SystemOk(s) && Enabled(s, step) && step.CommitJoin? && JoinSucceeds(s, step) && s.config.minBuyIn > 0
    requires TableOk(CurrentState(s))
    ensures SystemOk(Next(s, step)) && TableOk(CurrentState(Next(s, step))) && Drift(s, step) == -Cost(s, step)
  {
    hide Fits, Insert, ReduceAll, Reduce, Replay, TableOk, ChipCount, SeatedThroughout, Picks;
    var writer, s2, g := s.writers[step.w], Next(s, step), CurrentState(s);
    var evts := JoinRow(writer, step.seat, step.at);
    StepKeepsSystem(s, step);
    LobbyRows(s, step);
    WriterAt(s, step.w);
    AppendedState(s, s2, evts);
    ReduceOne(g, evts[0]);
    JoinReduced(g, evts[0]);
    JoinKeepsSeats(s.config, g, writer.job, step.seat, evts[0]);
    NewcomerJoined(g, Reduce(g, evts[0]), writer.job.user, step.seat, writer.job.buyIn);
    JoinedTable(g, Reduce(g, evts[0]), writer.job.user, writer.job.buyIn);
  }

  lemma NewcomerJoined(g: Game, g2: Game, p: PlayerId, seat: int, buyIn: int)
    requires p !in g.players && g2.hand == g.hand && g2.config == g.config && g2.status == g.status
    requires g2.players == g.players[p := Player(seat, false, buyIn, 0, 0, false, false, None)]
    ensures Joined(g, g2, p, buyIn)
  {
  }

  lemma LeaveIsSound(s: System, step: Step)
    requires SystemOk(s) && Enabled(s, step) && step.CommitLeave? && s.writers[step.w].upTo == |s.rows|
    requires Sound(s, step)
    requires TableOk(CurrentState(s))
    ensures SystemOk(Next(s, step)) && TableOk(CurrentState(Next(s, step))) && Drift(s, step) == -Cost(s, step)
  {
    hide Fits, Insert, ReduceAll, Reduce, Replay, SeatsOk, SeatedThroughout, HandOk;
    var writer, s2, g := s.writers[step.w], Next(s, step), CurrentState(s);
    var evts := LeaveRows(writer, step.pid, step.at);
    StepKeepsSystem(s, step);
    LobbyRows(s, step);
    WriterAt(s, step.w);
    AppendedState(s, s2, evts);
    ReduceOne(g, evts[0]);
    LeaveReduced(g, evts[0]);
  }

  lemma QuietIsSound(s: System, step: Step)
    requires SystemOk(s) && Enabled(s, step)
    requires step.CommitJoin? ==> !JoinSucceeds(s, step)
    requires step.CommitLeave? ==> s.writers[step.w].upTo != |s.rows|
    requires step.Append? ==> !Fits(s.rows, step.evts)
    requires TableOk(CurrentState(s))
    ensures SystemOk(Next(s, step)) && TableOk(CurrentState(Next(s, step))) && Drift(s, step) == -Cost(s, step)
  {
    hide Fits, Insert, ReduceAll, TableOk, ChipCount, SeatsOk, SeatedThroughout, LogOf;
    StepKeepsSystem(s, step);
    OtherStep(s, step);
    ConfigStays(s, step);
  }

  lemma ConfigStays(s: System, step: Step)
    requires SystemOk(s) && Enabled(s, step)
    ensures Next(s, step).config == s.config
  {
    hide Fits, Insert, ReduceAll, SystemOk, LeaveRows, JoinRow, PageAfter, JoinSucceeds, MayJoin;
    hide Numbered, LogOf, Gapless;
  }

  lemma StepIsSound(s: System, step: Step)
    requires SystemOk(s) && Enabled(s, step) && Sound(s, step) && TableOk(CurrentState(s)) && s.config.minBuyIn > 0
    ensures SystemOk(Next(s, step)) && TableOk(CurrentState(Next(s, step))) && Next(s, step).config == s.config
    ensures Purse(Next(s, step)) == Purse(s) - Cost(s, step)
  {
    hide SystemOk, Next, Sound, TableOk, Drift, Cost, Purse, Fits, JoinSucceeds, WriterOk, MayJoin;
    StepKeepsSystem(s, step);
    ConfigStays(s, step);
    if step.CommitJoin? && JoinSucceeds(s, step) {
      JoinIsSound(s, step);
    } else if step.CommitLeave? && s.writers[step.w].upTo == |s.rows| {
      LeaveIsSound(s, step);
    } else if step.Append? && Fits(s.rows, step.evts) {
      AppendIsSound(s, step);
    } else {
      QuietIsSound(s, step);
    }
  }

  // ── Histories ─────────────────────────────────────────────────────────────

  ghost predicate SoundHistory(s: System, steps: seq<Step>)
    requires SystemOk(s) && IsHistory(s, steps)
    decreases |steps|
  {
    steps == [] ||
    (Sound(s, steps[0]) && (StepKeepsSystem(s, steps[0]); SoundHistory(Next(s, steps[0]), steps[1..])))
  }

  ghost function CostOf(s: System, steps: seq<Step>): int
    requires SystemOk(s) && IsHistory(s, steps)
    decreases |steps|
  {
    if steps == [] then 0 else
      StepKeepsSystem(s, steps[0]);
      Cost(s, steps[0]) + CostOf(Next(s, steps[0]), steps[1..])
  }

  lemma {:induction false} HistoryAccounts(s: System, steps: seq<Step>)
    requires SystemOk(s) && IsHistory(s, steps) && SoundHistory(s, steps) && TableOk(CurrentState(s))
    requires s.config.minBuyIn > 0
    ensures TableOk(CurrentState(Outcome(s, steps))) && Purse(Outcome(s, steps)) == Purse(s) - CostOf(s, steps)
    decreases |steps|
  {
    hide SystemOk, Enabled, Next, Sound, TableOk, Cost, Purse;
    if steps != [] {
      StepKeepsSystem(s, steps[0]);
      StepIsSound(s, steps[0]);
      HistoryAccounts(Next(s, steps[0]), steps[1..]);
    }
  }

  lemma NewSystemHasNoChips(s: System, at: Option<Time>, commandId: Option<nat>)
    requires NewSystem(s, at, commandId) && ConfigOk(s.config)
    ensures TableOk(CurrentState(s)) && Purse(s) == Total(s.wallets)
  {
    hide Total;
    assert LogOf(s.rows)[1..1] == [];
    EmptyTable(s.config);
    assert forall w | w in Credits(s.writers) :: Credits(s.writers)[w] == 0;
    TotalOfZeros(Credits(s.writers));
  }

  lemma EmptyTable(config: Config)
    requires ConfigOk(config)
    ensures TableOk(Created(config)) && ChipCount(Created(config)) == 0
  {
    assert Stacks(Created(config).players) == map[];
  }

  /** From a table's creation on, whatever lobby and session writers do, as long as nothing is committed
      between the state a session computes from and its append and players leave between hands: no stack is
      ever below zero, and what is in wallets, on the table and on its way back to a wallet is what the
      wallets held at first, less the rake taken and the cash-outs whose credit failed. */
  lemma TableAccounts(s: System, at: Option<Time>, commandId: Option<nat>, steps: seq<Step>, p: PlayerId)
    requires NewSystem(s, at, commandId) && ConfigOk(s.config) && s.config.minBuyIn > 0
    requires IsHistory(s, steps) && SoundHistory(s, steps)
    ensures var s2 := Outcome(s, steps);
      && (p in CurrentState(s2).players ==> CurrentState(s2).players[p].stack >= 0)
      && Total(s2.wallets) + ChipCount(CurrentState(s2)) + Total(Credits(s2.writers))
          == Total(s.wallets) - CostOf(s, steps)
  {
    hide IsHistory, SoundHistory, NewSystem, CostOf, Outcome, SystemOk, CurrentState, HandOk, ChipCount, Credits, Total;
    NewSystemHasNoChips(s, at, commandId);
    HistoryAccounts(s, steps);
    PurseMeans(Outcome(s, steps));
  }

  lemma PurseMeans(s: System)
    requires SystemOk(s)
    ensures Purse(s) == Total(s.wallets) + ChipCount(CurrentState(s)) + Total(Credits(s.writers))
  {
  }
}
