/** Joining and leaving a table: any number of lobby and session writers share one event log and
    the users' wallets, and interleave freely between their database operations. */
module Lobby {
  import opened Collections
  import opened Table
  import opened Journal
  import opened Seating
  import opened Chips

  datatype Job =
    | Joining(user: UserId, seat: int, buyIn: int, commandId: Option<nat>)
    | Leaving(user: UserId, commandId: Option<nat>)

  // ── Seats ─────────────────────────────────────────────────────────────────

  predicate FreeSeat(g: Game, seat: int)
  {
    && 1 <= seat <= g.config.maxSeats && seat !in g.reservedSeats
    && forall p | p in g.players :: g.players[p].seat != seat
  }

  /** The requested seat when it is free; without a request (0 or less) the lowest free one. */
  predicate Picks(g: Game, requested: int, seat: int)
  {
    && FreeSeat(g, seat)
    && (if requested > 0 then seat == requested else forall s | 1 <= s < seat :: !FreeSeat(g, s))
  }

  predicate SeatedAs(g: Game, user: UserId, pid: PlayerId)
  {
    pid in g.userIds && g.userIds[pid] == user
  }

  predicate MayJoin(g: Game, job: Job, seat: int)
    requires job.Joining?
  {
    && g.status != Finished && g.status != Closed
    && g.config.minBuyIn <= job.buyIn && (g.config.maxBuyIn > 0 ==> job.buyIn <= g.config.maxBuyIn)
    && (forall pid | pid in g.userIds :: !SeatedAs(g, job.user, pid))
    && Picks(g, job.seat, seat)
  }

  /** The stamped event of a join; lobby joins use the user's id as the player's. */
  function JoinEvent(job: Job, seat: int, upTo: nat, version: int, at: Option<Time>): GameEvent
    requires job.Joining?
  {
    GameEvent(upTo, version, at, job.commandId, PlayerJoined(job.user, job.user, seat, job.buyIn))
  }

  /** Does leaving fold a hand first? */
  predicate FoldsFirst(g: Game, pid: PlayerId)
    requires pid in g.players
  {
    g.hand.Some? && !g.players[pid].folded
  }

  function LeaveEvents(g: Game, pid: PlayerId, commandId: Option<nat>, upTo: nat, version: int,
                       at: Option<Time>): seq<GameEvent>
    requires pid in g.players
  {
    if FoldsFirst(g, pid) then
      [GameEvent(upTo, version, at, commandId, PlayerFolded(pid)),
       GameEvent(upTo + 1, version + 1, at, commandId, PlayerLeft(pid, g.players[pid].stack))]
    else [GameEvent(upTo, version, at, commandId, PlayerLeft(pid, g.players[pid].stack))]
  }

  // ── What holds of the replayed state ──────────────────────────────────────

  /** Seats lie in 1..maxSeats and are not shared, and every player is a user seated once. */
  ghost predicate SeatsOk(config: Config, g: Game)
  {
    && g.config == config && g.userIds.Keys == g.players.Keys
    && (forall p | p in g.players :: g.userIds[p] == p && 1 <= g.players[p].seat <= config.maxSeats)
    && (forall p, q | p in g.players && q in g.players && p != q :: g.players[p].seat != g.players[q].seat)
  }

  lemma EventKeepsSeats(config: Config, g: Game, e: GameEvent)
    requires SeatsOk(config, g) && IsEngineEvent(e.event)
    ensures SeatsOk(config, Reduce(g, e))
  {
    hide Effect;
    EngineKeepsSeats(g, e.event, e.occurredAt);
  }

  lemma {:induction false} EventsKeepSeats(config: Config, g: Game, evts: seq<GameEvent>)
    requires SeatsOk(config, g) && forall i | 0 <= i < |evts| :: IsEngineEvent(evts[i].event)
    ensures SeatsOk(config, ReduceAll(g, evts))
  {
    hide Reduce, SeatsOk;
    if evts != [] {
      EventsKeepSeats(config, g, evts[..|evts| - 1]);
      EventKeepsSeats(config, ReduceAll(g, evts[..|evts| - 1]), evts[|evts| - 1]);
    }
  }

  lemma JoinReduced(g: Game, e: GameEvent)
    requires e.event.PlayerJoined?
    ensures var g2, p := Reduce(g, e), e.event.player;
      && g2.config == g.config && g2.hand == g.hand && g2.status == g.status
      && g2.players == g.players[p := Player(e.event.seat, false, e.event.buyIn, 0, 0, false, false, None)]
      && g2.userIds == g.userIds[p := e.event.user]
  {
  }

  lemma LeaveReduced(g: Game, e: GameEvent)
    requires e.event.PlayerLeft?
    ensures var g2, p := Reduce(g, e), e.event.player;
      g2.config == g.config && g2.hand == g.hand && g2.players == g.players - {p} && g2.userIds == g.userIds - {p}
  {
  }

  lemma JoinKeepsSeats(config: Config, g: Game, job: Job, seat: int, e: GameEvent)
    requires SeatsOk(config, g) && job.Joining? && MayJoin(g, job, seat)
    requires e.event == PlayerJoined(job.user, job.user, seat, job.buyIn)
    ensures SeatsOk(config, Reduce(g, e)) && job.user !in g.players
    ensures ChipCount(Reduce(g, e)) == ChipCount(g) + job.buyIn
  {
    hide Reduce;
    JoinReduced(g, e);
    assert job.user in g.players ==> SeatedAs(g, job.user, job.user);
    JoinChips(g, Reduce(g, e), job.user, e.event.seat, job.buyIn);
  }

  lemma JoinChips(g: Game, g2: Game, p: PlayerId, seat: int, buyIn: int)
    requires p !in g.players && g2.hand == g.hand
    requires g2.players == g.players[p := Player(seat, false, buyIn, 0, 0, false, false, None)]
    ensures ChipCount(g2) == ChipCount(g) + buyIn
  {
    TotalUpdate(Stacks(g.players), p, buyIn);
    assert Stacks(g2.players) == Stacks(g.players)[p := buyIn];
  }

  lemma LeaveChips(g: Game, g2: Game, p: PlayerId)
    requires p in g.players && g2.hand == g.hand && g2.players == g.players - {p}
    ensures ChipCount(g2) == ChipCount(g) - g.players[p].stack
  {
    TotalRemove(Stacks(g.players), p);
    assert Stacks(g2.players) == Stacks(g.players) - {p};
  }

  lemma ReduceOne(g: Game, e: GameEvent)
    ensures ReduceAll(g, [e]) == Reduce(g, e)
  {
    assert [e][..0] == [];
  }

  lemma ReduceTwo(g: Game, d: GameEvent, e: GameEvent)
    ensures ReduceAll(g, [d, e]) == Reduce(Reduce(g, d), e)
  {
    ReduceOne(g, d);
    assert [d, e][..1] == [d];
  }

  lemma LeftTable(config: Config, g: Game, e: GameEvent, pid: PlayerId)
    requires SeatsOk(config, g) && pid in g.players && e.event == PlayerLeft(pid, g.players[pid].stack)
    ensures SeatsOk(config, Reduce(g, e)) && ChipCount(Reduce(g, e)) == ChipCount(g) - g.players[pid].stack
  {
    hide Reduce, ChipCount;
    LeaveReduced(g, e);
    LeaveChips(g, Reduce(g, e), pid);
  }

  lemma FoldReduced(g: Game, e: GameEvent, pid: PlayerId)
    requires pid in g.players && e.event == PlayerFolded(pid)
    ensures var g2 := Reduce(g, e);
      && g2.players == g.players[pid := g.players[pid].(folded := true)] && g2.config == g.config
      && g2.userIds == g.userIds
      && (g2.hand.Some? <==> g.hand.Some?) && (g.hand.Some? ==> g2.hand.value.pot == g.hand.value.pot)
  {
    hide Without;
  }

  lemma FoldedAtTable(g: Game, e: GameEvent, pid: PlayerId)
    requires pid in g.players && e.event == PlayerFolded(pid)
    ensures var g2 := Reduce(g, e);
      SameSeats(g, g2) && g2.players[pid].stack == g.players[pid].stack && ChipCount(g2) == ChipCount(g)
  {
    hide Reduce, StackTotal;
    FoldReduced(g, e, pid);
    SameStacksSameTotal(g.players, Reduce(g, e).players);
  }

  lemma SeatedStep(config: Config, g: Game, evts: seq<GameEvent>)
    requires forall i | 0 <= i <= |evts| :: SeatsOk(config, ReduceAll(g, evts[..i]))
    ensures SeatedThroughout(g, evts)
  {
    hide ReduceAll;
  }

  lemma SeatedByOne(config: Config, g: Game, e: GameEvent)
    requires SeatsOk(config, g) && SeatsOk(config, Reduce(g, e))
    ensures SeatedThroughout(g, [e])
  {
    hide Reduce, SeatsOk;
    ReduceOne(g, e);
    forall i | 0 <= i <= 1 ensures SeatsOk(config, ReduceAll(g, [e][..i])) {
      assert [e][..0] == [] && [e][..1] == [e];
    }
    SeatedStep(config, g, [e]);
  }

  lemma SeatedByTwo(config: Config, g: Game, d: GameEvent, e: GameEvent)
    requires SeatsOk(config, g) && SeatsOk(config, Reduce(g, d)) && SeatsOk(config, Reduce(Reduce(g, d), e))
    ensures SeatedThroughout(g, [d, e])
  {
    hide Reduce, SeatsOk;
    ReduceOne(g, d);
    ReduceTwo(g, d, e);
    forall i | 0 <= i <= 2 ensures SeatsOk(config, ReduceAll(g, [d, e][..i])) {
      assert [d, e][..0] == [] && [d, e][..1] == [d] && [d, e][..2] == [d, e];
    }
    SeatedStep(config, g, [d, e]);
  }

  /** Leaving, in a hand or not, frees the seat and takes exactly the leaver's stack off the table:
      what they committed to the pot stays. */
  lemma LeaveKeepsSeats(config: Config, g: Game, pid: PlayerId, commandId: Option<nat>, upTo: nat, version: int,
                        at: Option<Time>)
    requires SeatsOk(config, g) && pid in g.players
    ensures var g2 := ReduceAll(g, LeaveEvents(g, pid, commandId, upTo, version, at));
      SeatsOk(config, g2) && ChipCount(g2) == ChipCount(g) - g.players[pid].stack
    ensures SeatedThroughout(g, LeaveEvents(g, pid, commandId, upTo, version, at))
  {
    hide Reduce, ReduceAll, ChipCount, SeatedThroughout;
    var evts := LeaveEvents(g, pid, commandId, upTo, version, at);
    if FoldsFirst(g, pid) {
      ReduceTwo(g, evts[0], evts[1]);
      FoldedAtTable(g, evts[0], pid);
      LeftTable(config, Reduce(g, evts[0]), evts[1], pid);
      SeatedByTwo(config, g, evts[0], evts[1]);
    } else {
      ReduceOne(g, evts[0]);
      LeftTable(config, g, evts[0], pid);
      SeatedByOne(config, g, evts[0]);
    }
  }

  /** Whoever leaves is gone and everybody else stays as they were. Leaving a hand they had not folded takes
      them off the list of those still to act and leaves their chips in the pot — and it ends whosoever
      turn it was, so that the next player still to act is asked again. */
  lemma LeavingFoldsFirst(g: Game, pid: PlayerId, commandId: Option<nat>, upTo: nat, version: int, at: Option<Time>)
    requires pid in g.players
    ensures var g2 := ReduceAll(g, LeaveEvents(g, pid, commandId, upTo, version, at));
      && g2.players == g.players - {pid} && (g2.hand.Some? <==> g.hand.Some?)
      && (g.hand.Some? && g.players[pid].folded ==> g2.hand == g.hand)
      && (g.hand.Some? && !g.players[pid].folded ==>
            && g2.hand.value == g.hand.value.(pending := g2.hand.value.pending, acting := None)
            && forall q :: q in g2.hand.value.pending <==> q in g.hand.value.pending && q != pid)
  {
    hide ReduceAll, Without;
    var evts := LeaveEvents(g, pid, commandId, upTo, version, at);
    if g.hand.Some? && !g.players[pid].folded {
      ReduceTwo(g, evts[0], evts[1]);
      WithoutElems(g.hand.value.pending, pid);
      assert g.players[pid := g.players[pid].(folded := true)] - {pid} == g.players - {pid};
    } else {
      ReduceOne(g, evts[0]);
    }
  }

  // ── Writers and their steps ───────────────────────────────────────────────

  /** Where a writer is: a lobby writer pages through the log, then commits and perhaps credits; a
      session writer reads the end of the log, then appends. */
  datatype Writer =
    | Idle
    | Loading(job: Job, state: Game, upTo: nat)
    | Loaded(job: Job, state: Game, upTo: nat)
    | Crediting(user: UserId, amount: int)
    | Stamping(upTo: nat)

  datatype System = System(config: Config, rows: Rows, wallets: map<UserId, int>, writers: map<nat, Writer>)

  datatype Step =
    | Begin(w: nat, job: Job)
    | ReadPage(w: nat, limit: nat)
    | CommitJoin(w: nat, seat: int, at: Option<Time>)
    | CommitLeave(w: nat, pid: PlayerId, at: Option<Time>)
    | Credit(w: nat)
    | CreditFails(w: nat)
    | GiveUp(w: nat)
    | ReadEnd(w: nat)
    | Append(w: nat, evts: seq<GameEvent>)

  ghost function CurrentState(s: System): Game
    requires Gapless(s.rows) && |s.rows| >= 1
  {
    Replay(s.config, LogOf(s.rows), |s.rows|)
  }

  /** What a writer knows is some earlier state of the log. */
  ghost predicate WriterOk(s: System, writer: Writer)
    requires Gapless(s.rows) && |s.rows| >= 1
  {
    match writer
    case Loading(_, state, upTo) => 1 <= upTo <= |s.rows| && state == Replay(s.config, LogOf(s.rows), upTo)
    case Loaded(_, state, upTo) => 1 <= upTo <= |s.rows| && state == Replay(s.config, LogOf(s.rows), upTo)
    case Stamping(upTo) => upTo <= |s.rows|
    case _ => true
  }

  ghost predicate SystemOk(s: System)
  {
    && Gapless(s.rows) && |s.rows| >= 1
    && SeatsOk(s.config, CurrentState(s))
    && SeatedThroughout(Created(s.config), LogOf(s.rows)[1..])
    && forall w | w in s.writers :: WriterOk(s, s.writers[w])
  }

  function With(s: System, w: nat, writer: Writer): System
  {
    s.(writers := s.writers[w := writer])
  }

  /** The next page of at most limit events after upTo. */
  ghost function PageAfter(rows: Rows, upTo: nat, limit: nat): seq<GameEvent>
    requires Gapless(rows) && upTo <= |rows|
  {
    LogOf(rows)[upTo..if upTo + limit < |rows| then upTo + limit else |rows|]
  }

  ghost predicate Enabled(s: System, step: Step)
    requires SystemOk(s)
  {
    step.w in s.writers &&
    var writer := s.writers[step.w];
    match step
    case Begin(_, _) => writer.Idle?
    case ReadPage(_, limit) => writer.Loading? && limit >= 1
    case CommitJoin(_, seat, _) => writer.Loaded? && writer.job.Joining? && MayJoin(writer.state, writer.job, seat)
    case CommitLeave(_, pid, _) =>
      && writer.Loaded? && writer.job.Leaving?
      && SeatedAs(writer.state, writer.job.user, pid) && pid in writer.state.players
    case Credit(_) => writer.Crediting? && writer.user in s.wallets
    case CreditFails(_) => writer.Crediting?
    case GiveUp(_) => !writer.Crediting?
    case ReadEnd(_) => writer.Idle?
    case Append(_, evts) => writer.Stamping? && evts != [] && Numbered(evts, writer.upTo)
                            && forall i | 0 <= i < |evts| :: IsEngineEvent(evts[i].event)
  }

  ghost function JoinRow(writer: Writer, seat: int, at: Option<Time>): seq<GameEvent>
    requires writer.Loaded? && writer.job.Joining?
  {
    [JoinEvent(writer.job, seat, writer.upTo + 1, writer.state.version + 1, at)]
  }

  ghost function LeaveRows(writer: Writer, pid: PlayerId, at: Option<Time>): seq<GameEvent>
    requires writer.Loaded? && writer.job.Leaving? && pid in writer.state.players
  {
    LeaveEvents(writer.state, pid, writer.job.commandId, writer.upTo + 1, writer.state.version + 1, at)
  }

  /** Debit and append are one transaction: both happen or neither. */
  ghost predicate JoinSucceeds(s: System, step: Step)
    requires SystemOk(s) && Enabled(s, step) && step.CommitJoin?
  {
    var writer := s.writers[step.w];
    writer.job.user in s.wallets && s.wallets[writer.job.user] >= writer.job.buyIn
        && Fits(s.rows, JoinRow(writer, step.seat, step.at))
  }

  ghost function Next(s: System, step: Step): System
    requires SystemOk(s) && Enabled(s, step)
  {
    var writer := s.writers[step.w];
    match step
    case Begin(w, job) => With(s, w, Loading(job, Created(s.config), 1))
    case ReadPage(w, limit) =>
      var page := PageAfter(s.rows, writer.upTo, limit);
      if page == [] then With(s, w, Loaded(writer.job, writer.state, writer.upTo))
      else With(s, w, Loading(writer.job, ReduceAll(writer.state, page), writer.upTo + |page|))
    case CommitJoin(w, seat, at) =>
      if JoinSucceeds(s, step) then
        With(s, w, Idle).(rows := Insert(s.rows, JoinRow(writer, seat, at)),
                          wallets := s.wallets[writer.job.user := s.wallets[writer.job.user] - writer.job.buyIn])
      else With(s, w, Idle)
    case CommitLeave(w, pid, at) =>
      // The append commits on its own; the credit is a second transaction.
      if Fits(s.rows, LeaveRows(writer, pid, at)) then
        var cashOut := writer.state.players[pid].stack;
        var owed := if cashOut > 0 then Crediting(writer.job.user, cashOut) else Idle;
        With(s, w, owed).(rows := Insert(s.rows, LeaveRows(writer, pid, at)))
      else With(s, w, Idle)
    case Credit(w) => With(s, w, Idle).(wallets := s.wallets[writer.user := s.wallets[writer.user] + writer.amount])
    case CreditFails(w) => With(s, w, Idle)
    case GiveUp(w) => With(s, w, Idle)
    case ReadEnd(w) => With(s, w, Stamping(|s.rows|))
    case Append(w, evts) =>
      if Fits(s.rows, evts) then With(s, w, Idle).(rows := Insert(s.rows, evts)) else With(s, w, Idle)
  }

  // ── What every interleaving keeps ─────────────────────────────────────────

  lemma WriterAt(s: System, w: nat)
    requires SystemOk(s) && w in s.writers
    ensures WriterOk(s, s.writers[w])
    ensures s.writers[w].Loading? || s.writers[w].Loaded? ==> s.writers[w].state.version == s.writers[w].upTo
  {
    if s.writers[w].Loading? || s.writers[w].Loaded? {
      assert forall i | 0 <= i < |LogOf(s.rows)| :: LogOf(s.rows)[i] == s.rows[i + 1];
      VersionIsSequence(s.config, LogOf(s.rows), s.writers[w].upTo);
    }
  }

  /** Nothing a writer knows is invalidated when the log grows. */
  lemma GrownWriterOk(s: System, s2: System, more: seq<GameEvent>, writer: Writer)
    requires Gapless(s.rows) && Gapless(s2.rows) && |s.rows| >= 1 && s2.config == s.config
    requires LogOf(s2.rows) == LogOf(s.rows) + more && WriterOk(s, writer)
    ensures |s2.rows| >= |s.rows| && WriterOk(s2, writer)
  {
    assert |LogOf(s2.rows)| == |LogOf(s.rows)| + |more|;
    if writer.Loading? || writer.Loaded? {
      ReplayPrefix(s.config, LogOf(s.rows), more, writer.upTo);
    }
  }

  /** The log after a batch went in. */
  lemma Grown(s: System, s2: System, w: nat, evts: seq<GameEvent>)
    requires SystemOk(s) && w in s.writers && evts != [] && Numbered(evts, |s.rows|)
    requires s2.config == s.config && s2.rows == Insert(s.rows, evts)
    requires s2.writers.Keys == s.writers.Keys && (forall v | v in s.writers && v != w :: s2.writers[v] == s.writers[v])
    requires s2.writers[w].Idle? || s2.writers[w].Crediting?
    requires SeatedThroughout(CurrentState(s), evts)
    ensures Gapless(s2.rows) && |s2.rows| >= 1 && LogOf(s2.rows) == LogOf(s.rows) + evts
    ensures CurrentState(s2) == ReduceAll(CurrentState(s), evts)
    ensures SeatsOk(s.config, CurrentState(s2)) ==> SystemOk(s2)
  {
    hide SeatsOk, Insert, ReduceAll, SeatedThroughout;
    AppendsOnlyAtEnd(s.rows, evts, |s.rows|);
    assert LogOf(s.rows)[1..|s.rows|] == LogOf(s.rows)[1..];
    SeatedConcat(Created(s.config), LogOf(s.rows)[1..], evts);
    assert LogOf(s.rows)[1..] + evts == LogOf(s2.rows)[1..];
    assert |LogOf(s2.rows)| == |LogOf(s.rows)| + |evts|;
    ReplayPrefix(s.config, LogOf(s.rows), evts, |s.rows|);
    forall v | v in s2.writers ensures WriterOk(s2, s2.writers[v]) {
      if v != w {
        GrownWriterOk(s, s2, evts, s.writers[v]);
      }
    }
  }

  /** A lobby append goes in exactly when nothing was committed since its writer loaded the state. */
  lemma LobbyAppendIff(s: System, w: nat, evts: seq<GameEvent>)
    requires SystemOk(s) && w in s.writers && s.writers[w].Loaded?
    requires evts != [] && Numbered(evts, s.writers[w].upTo)
    ensures Fits(s.rows, evts) <==> s.writers[w].upTo == |s.rows|
  {
    WriterAt(s, w);
    AppendsOnlyAtEnd(s.rows, evts, s.writers[w].upTo);
  }

  lemma LobbyRows(s: System, step: Step)
    requires SystemOk(s) && Enabled(s, step) && (step.CommitJoin? || step.CommitLeave?)
    ensures var writer := s.writers[step.w];
      var evts := if step.CommitJoin? then JoinRow(writer, step.seat, step.at)
          else LeaveRows(writer, step.pid, step.at);
      evts != [] && Numbered(evts, writer.upTo) && (Fits(s.rows, evts) <==> writer.upTo == |s.rows|)
  {
    hide SeatsOk, Fits, ReduceAll;
    var writer := s.writers[step.w];
    var evts := if step.CommitJoin? then JoinRow(writer, step.seat, step.at) else LeaveRows(writer, step.pid, step.at);
    WriterAt(s, step.w);
    LobbyAppendIff(s, step.w, evts);
  }

  /** The chips of users and table: wallets, the table as the log has it, and cash-outs whose
      credit is still under way. */
  ghost function Purse(s: System): int
    requires Gapless(s.rows) && |s.rows| >= 1
  {
    Total(s.wallets) + ChipCount(CurrentState(s)) + Total(Credits(s.writers))
  }

  function Credits(writers: map<nat, Writer>): map<nat, int>
  {
    map w | w in writers :: if writers[w].Crediting? then writers[w].amount else 0
  }

  lemma CreditsAfter(writers: map<nat, Writer>, w: nat, writer: Writer)
    requires w in writers
    ensures Total(Credits(writers[w := writer]))
         == Total(Credits(writers)) - Credits(writers)[w] + if writer.Crediting? then writer.amount else 0
  {
    TotalUpdate(Credits(writers), w, if writer.Crediting? then writer.amount else 0);
    assert Credits(writers[w := writer]) == Credits(writers)[w := if writer.Crediting? then writer.amount else 0];
  }

  /** By how much a step changes the purse: a session's events by what they do to the table; a
      credit that fails by the cash-out it loses; a leaver with a negative stack by that debt. */
  ghost function Drift(s: System, step: Step): int
    requires SystemOk(s) && Enabled(s, step)
  {
    var writer := s.writers[step.w];
    match step
    case Append(_, evts) =>
      if Fits(s.rows, evts) then ChipCount(ReduceAll(CurrentState(s), evts)) - ChipCount(CurrentState(s)) else 0
    case CreditFails(_) => -writer.amount
    case CommitLeave(_, pid, _) =>
      if writer.upTo == |s.rows| && writer.state.players[pid].stack < 0 then -writer.state.players[pid].stack else 0
    case _ => 0
  }

  lemma QuietStep(s: System, s2: System, w: nat)
    requires SystemOk(s) && w in s.writers && s2.rows == s.rows && s2.config == s.config
    requires w in s2.writers && s2.writers == s.writers[w := s2.writers[w]] && WriterOk(s, s2.writers[w])
    ensures SystemOk(s2) && CurrentState(s2) == CurrentState(s)
  {
    hide SeatsOk, Replay, SeatedThroughout;
    forall v | v in s2.writers ensures WriterOk(s2, s2.writers[v]) {
      assert v != w ==> WriterOk(s, s.writers[v]);
    }
  }

  lemma PageStep(s: System, step: Step)
    requires SystemOk(s) && Enabled(s, step) && step.ReadPage?
    ensures WriterOk(s, Next(s, step).writers[step.w])
  {
    hide SeatsOk, ReduceAll;
    var writer := s.writers[step.w];
    WriterAt(s, step.w);
    ReplayOn(s.config, LogOf(s.rows), writer.upTo, writer.upTo + |PageAfter(s.rows, writer.upTo, step.limit)|);
  }

  lemma BeginStep(s: System, step: Step)
    requires SystemOk(s) && Enabled(s, step) && step.Begin?
    ensures WriterOk(s, Next(s, step).writers[step.w])
  {
    hide SeatsOk;
    assert LogOf(s.rows)[1..1] == [];
  }

  lemma JoinStep(s: System, step: Step)
    requires SystemOk(s) && Enabled(s, step) && step.CommitJoin? && JoinSucceeds(s, step)
    ensures SystemOk(Next(s, step)) && Purse(Next(s, step)) == Purse(s)
  {
    hide SeatsOk, SeatedThroughout, Fits, ReduceAll, Insert, Replay, MayJoin, ChipCount, Total;
    var writer, s2 := s.writers[step.w], Next(s, step);
    var evts := JoinRow(writer, step.seat, step.at);
    LobbyRows(s, step);
    WriterAt(s, step.w);
    assert writer.state == CurrentState(s);
    ReduceOne(CurrentState(s), evts[0]);
    JoinKeepsSeats(s.config, CurrentState(s), writer.job, step.seat, evts[0]);
    SeatedByOne(s.config, CurrentState(s), evts[0]);
    Grown(s, s2, step.w, evts);
    TotalUpdate(s.wallets, writer.job.user, s.wallets[writer.job.user] - writer.job.buyIn);
    CreditsAfter(s.writers, step.w, Idle);
  }

  lemma LeaveStep(s: System, step: Step)
    requires SystemOk(s) && Enabled(s, step) && step.CommitLeave? && s.writers[step.w].upTo == |s.rows|
    ensures SystemOk(Next(s, step)) && Purse(Next(s, step)) == Purse(s) + Drift(s, step)
  {
    hide SeatsOk, SeatedThroughout, Fits, ReduceAll, Insert, Replay, LeaveEvents, ChipCount, Total;
    var writer, s2 := s.writers[step.w], Next(s, step);
    var evts := LeaveRows(writer, step.pid, step.at);
    LobbyRows(s, step);
    WriterAt(s, step.w);
    assert writer.state == CurrentState(s);
    LeaveKeepsSeats(s.config, CurrentState(s), step.pid, writer.job.commandId, writer.upTo + 1,
                    writer.state.version + 1, step.at);
    Grown(s, s2, step.w, evts);
    CreditsAfter(s.writers, step.w, s2.writers[step.w]);
  }

  lemma AppendStep(s: System, step: Step)
    requires SystemOk(s) && Enabled(s, step) && step.Append? && Fits(s.rows, step.evts)
    ensures SystemOk(Next(s, step)) && Purse(Next(s, step)) == Purse(s) + Drift(s, step)
  {
    hide SeatedThroughout, ReduceAll, Insert, Replay, ChipCount, Total, Fits;
    var writer, s2 := s.writers[step.w], Next(s, step);
    WriterAt(s, step.w);
    AppendsOnlyAtEnd(s.rows, step.evts, writer.upTo);
    SeatsAreDistinct(s.config, CurrentState(s));
    EngineKeepsSeated(CurrentState(s), step.evts);
    Grown(s, s2, step.w, step.evts);
    EventsKeepSeats(s.config, CurrentState(s), step.evts);
    CreditsAfter(s.writers, step.w, Idle);
  }

  lemma SeatsAreDistinct(config: Config, g: Game)
    requires SeatsOk(config, g)
    ensures DistinctSeats(g.players)
  {
  }

  lemma OtherStep(s: System, step: Step)
    requires SystemOk(s) && Enabled(s, step)
    requires step.CommitJoin? ==> !JoinSucceeds(s, step)
    requires step.CommitLeave? ==> s.writers[step.w].upTo != |s.rows|
    requires step.Append? ==> !Fits(s.rows, step.evts)
    ensures SystemOk(Next(s, step)) && Purse(Next(s, step)) == Purse(s) + Drift(s, step)
    ensures Next(s, step).rows == s.rows && (!step.Credit? ==> Next(s, step).wallets == s.wallets)
  {
    hide SeatsOk, SeatedThroughout, ReduceAll, Insert, Replay, ChipCount, Total, Fits, LogOf;
    var s2 := Next(s, step);
    if step.CommitLeave? {
      LobbyRows(s, step);
    }
    if step.ReadPage? {
      PageStep(s, step);
    }
    if step.Begin? {
      BeginStep(s, step);
    }
    QuietStep(s, s2, step.w);
    CreditsAfter(s.writers, step.w, s2.writers[step.w]);
    if step.Credit? {
      TotalUpdate(s.wallets, s.writers[step.w].user, s.wallets[s.writers[step.w].user] + s.writers[step.w].amount);
    }
  }

  /** Every step of every writer keeps the log gapless, the seats unique and every writer's
      knowledge a true prefix, and changes the purse by its drift alone: a join moves chips from
      wallet to table, and a leave that completes moves them back. */
  lemma StepKeepsSystem(s: System, step: Step)
    requires SystemOk(s) && Enabled(s, step)
    ensures SystemOk(Next(s, step)) && Purse(Next(s, step)) == Purse(s) + Drift(s, step)
  {
    hide SystemOk, Next, Purse, Fits, WriterOk, MayJoin;
    if step.CommitJoin? && JoinSucceeds(s, step) {
      JoinStep(s, step);
    } else if step.CommitLeave? && s.writers[step.w].upTo == |s.rows| {
      LeaveStep(s, step);
    } else if step.Append? && Fits(s.rows, step.evts) {
      AppendStep(s, step);
    } else {
      OtherStep(s, step);
    }
  }

  // ── Results ───────────────────────────────────────────────────────────────

  /** A validated join commits exactly when nothing was committed since its writer loaded the state
      and the wallet covers the buy-in; otherwise it leaves log and wallets alone. */
  lemma JoinCommitsIff(s: System, step: Step)
    requires SystemOk(s) && Enabled(s, step) && step.CommitJoin?
    ensures var job := s.writers[step.w].job;
      JoinSucceeds(s, step) <==>
        job.user in s.wallets && s.wallets[job.user] >= job.buyIn && s.writers[step.w].upTo == |s.rows|
    ensures !JoinSucceeds(s, step) ==> Next(s, step).rows == s.rows && Next(s, step).wallets == s.wallets
  {
    hide SeatsOk, Fits, ReduceAll, Insert, Replay, LogOf;
    LobbyRows(s, step);
  }

  /** Between the two commits of a leave the credit can fail. The cash-out is then lost: the player
      is gone, no wallet was credited, and the log answers a retry under the same command id. */
  lemma LostCredit(s: System, step: Step)
    requires SystemOk(s) && Enabled(s, step) && step.CommitLeave? && s.writers[step.w].upTo == |s.rows|
    requires s.writers[step.w].state.players[step.pid].stack > 0
    ensures SystemOk(Next(s, step)) && Enabled(Next(s, step), CreditFails(step.w))
    ensures var s3 := Next(Next(s, step), CreditFails(step.w));
      && SystemOk(s3) && s3.wallets == s.wallets
      && Purse(s3) == Purse(s) - s.writers[step.w].state.players[step.pid].stack
      && exists k :: k in s3.rows && s3.rows[k].commandId == s.writers[step.w].job.commandId
          && s3.rows[k].event.PlayerLeft?
  {
    hide SeatsOk, ReduceAll, Replay, Purse, Fits, Gapless, LogOf, Insert;
    LeaveStep(s, step);
    LobbyRows(s, step);
    var s2 := Next(s, step);
    StepKeepsSystem(s2, CreditFails(step.w));
    var evts := LeaveRows(s.writers[step.w], step.pid, step.at);
    LastIsInserted(s.rows, evts);
  }

  lemma LastIsInserted(rows: Rows, evts: seq<GameEvent>)
    requires evts != []
    ensures var last := evts[|evts| - 1];
      last.sequence in Insert(rows, evts) && Insert(rows, evts)[last.sequence] == last
  {
  }

  /** Any interleaving: each step is one its writer can take in the state the steps before led to. */
  ghost predicate IsHistory(s: System, steps: seq<Step>)
    requires SystemOk(s)
    decreases |steps|
  {
    steps == [] ||
    (Enabled(s, steps[0]) && (StepKeepsSystem(s, steps[0]); IsHistory(Next(s, steps[0]), steps[1..])))
  }

  ghost function Outcome(s: System, steps: seq<Step>): (last: System)
    requires SystemOk(s) && IsHistory(s, steps)
    ensures SystemOk(last)
    decreases |steps|
  {
    if steps == [] then s else
      StepKeepsSystem(s, steps[0]);
      Outcome(Next(s, steps[0]), steps[1..])
  }

  ghost function DriftOf(s: System, steps: seq<Step>): int
    requires SystemOk(s) && IsHistory(s, steps)
    decreases |steps|
  {
    if steps == [] then 0 else
      StepKeepsSystem(s, steps[0]);
      Drift(s, steps[0]) + DriftOf(Next(s, steps[0]), steps[1..])
  }

  /** Under any interleaving of any number of lobby and session writers: the log is exactly the
      sequences 1 to n, each event's version is its sequence, no seat is shared or out of range, no
      user sits twice, and chips move between wallets and table but change in number only by what
      sessions do to the table, by failed credits and by negative stacks. */
  lemma {:induction false} HistoryKeepsSystem(s: System, steps: seq<Step>)
    requires SystemOk(s) && IsHistory(s, steps)
    ensures Gapless(Outcome(s, steps).rows) && |Outcome(s, steps).rows| >= 1
    ensures SeatsOk(Outcome(s, steps).config, CurrentState(Outcome(s, steps)))
    ensures SeatedThroughout(Created(Outcome(s, steps).config), LogOf(Outcome(s, steps).rows)[1..])
    ensures Purse(Outcome(s, steps)) == Purse(s) + DriftOf(s, steps)
    decreases |steps|
  {
    hide SystemOk, Next, Enabled, Drift, Purse, SeatsOk, SeatedThroughout, Gapless;
    OkMeans(s);
    if steps != [] {
      StepKeepsSystem(s, steps[0]);
      HistoryKeepsSystem(Next(s, steps[0]), steps[1..]);
    }
  }

  lemma OkMeans(s: System)
    requires SystemOk(s)
    ensures Gapless(s.rows) && |s.rows| >= 1 && SeatsOk(s.config, CurrentState(s))
    ensures SeatedThroughout(Created(s.config), LogOf(s.rows)[1..])
  {
  }

  /** A table as it is created: one event in the log, nobody writing. */
  ghost predicate NewSystem(s: System, at: Option<Time>, commandId: Option<nat>)
    ensures NewSystem(s, at, commandId) ==> SystemOk(s)
  {
    && s.rows == map[1 := CreationEvent(s.config, at, commandId)]
    && (forall w | w in s.writers :: s.writers[w].Idle?)
    && (NewLog(s, at, commandId); true)
  }

  lemma NewLog(s: System, at: Option<Time>, commandId: Option<nat>)
    requires s.rows == map[1 := CreationEvent(s.config, at, commandId)]
    ensures Gapless(s.rows) && SeatsOk(s.config, CurrentState(s))
    ensures SeatedThroughout(Created(s.config), LogOf(s.rows)[1..])
  {
    assert Gapless(s.rows);
    assert LogOf(s.rows)[1..] == [];
    assert LogOf(s.rows)[1..1] == [];
  }

  /** From a table's creation on, whoever writes to its log and however their steps interleave: the
      version counts the events, seats lie in 1..maxSeats and are not shared, and every player is a user
      seated once. */
  lemma TableHistory(s: System, at: Option<Time>, commandId: Option<nat>, steps: seq<Step>, p: PlayerId, q: PlayerId)
    requires NewSystem(s, at, commandId) && IsHistory(s, steps)
    ensures var g := CurrentState(Outcome(s, steps));
      && g.version == |Outcome(s, steps).rows|
      && (p in g.players ==> 1 <= g.players[p].seat <= g.config.maxSeats && SeatedAs(g, p, p))
      && (p in g.players && q in g.players && p != q ==> g.players[p].seat != g.players[q].seat)
  {
    hide Replay, ReduceAll, NewSystem, Enabled, Next;
    var s2 := Outcome(s, steps);
    VersionIsSequence(s2.config, LogOf(s2.rows), |s2.rows|);
  }
}
