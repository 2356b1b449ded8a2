/** A game session: commands processed one at a time, events stamped and stored before the state in
    memory moves on. */
module Session {
  import opened Collections
  import opened Cards
  import opened Table
  import opened Rules
  import opened Lifecycle
  import opened Posting
  import opened Journal
  import opened Seating
  import opened Reducer
  import opened Dealing
  import opened Driver
  import opened Handler
  import opened Storage
  import opened Rest
  import opened Conservation
  import opened Replays
  import Lobby

  // ── Stamping ──────────────────────────────────────────────────────────────

  /** Events numbered from the end of the log, with time and causing command. */
  function Stamped(events: seq<Event>, from: nat, at: Time, id: Option<nat>): (r: seq<GameEvent>)
    ensures |r| == |events| && Numbered(r, from)
    ensures forall i | 0 <= i < |r| :: r[i].event == events[i]
  {
    seq(|events|, i requires 0 <= i < |events| => GameEvent(from + i + 1, from + i + 1, Some(at), id, events[i]))
  }

  /** Tags, then numbers every event in turn. */
  method StampEvents(events: seq<Event>, latestSeq: nat, at: Time, id: Option<nat>) returns (evts: seq<GameEvent>)
    ensures evts == Stamped(events, latestSeq, at, id)
  {
    evts := [];
    for i := 0 to |events|
      invariant |evts| == i && forall k | 0 <= k < i :: evts[k] == Stamped(events, latestSeq, at, id)[k]
    {
      var evt := Bare(events[i]);
      evt := evt.(commandId := id);
      var next := latestSeq + i + 1;
      evt := evt.(sequence := next);
      evt := evt.(stateVersion := next);
      evt := evt.(occurredAt := Some(at));
      evts := evts + [evt];
    }
  }

  // ── Stamped and unstamped events lead to the same state ───────────────────

  /** The state without the one time it records. */
  function Timeless(g: Game): Game
  {
    if g.hand.None? then g else g.(hand := Some(g.hand.value.(startedAt := None)))
  }

  ghost predicate Steady(g: Game, e: Event)
  {
    Timeless(Effect(Timeless(g), e, None)) == Timeless(Effect(g, e, None))
  }

  lemma PaySteady(g: Game, pid: PlayerId, amount: int, bet: bool)
    requires g.hand.Some? && pid in g.players
    ensures Pay(Timeless(g), pid, amount, bet) == Timeless(Pay(g, pid, amount, bet))
  {
  }

  lemma PostSteady(g: Game, e: Event)
    requires e.BlindPosted? && e.player in g.players && g.hand.Some?
    ensures Post(Timeless(g), e) == Timeless(Post(g, e))
  {
    hide Pay;
    PaySteady(g, e.player, e.amount, true);
    HandStays(g, e.player, e.amount);
  }

  lemma HandStays(g: Game, pid: PlayerId, amount: int)
    requires g.hand.Some? && pid in g.players
    ensures Pay(g, pid, amount, true).hand.Some? && pid in Pay(g, pid, amount, true).players
    ensures Pay(Timeless(g), pid, amount, true).hand.Some? && pid in Pay(Timeless(g), pid, amount, true).players
  {
  }

  lemma CallSteady(g: Game, pid: PlayerId, amount: int)
    requires g.hand.Some? && pid in g.players
    ensures Call(Timeless(g), pid, amount) == Timeless(Call(g, pid, amount))
  {
    hide Pay, Without;
    PaySteady(g, pid, amount, true);
    HandStays(g, pid, amount);
  }

  lemma BetSteady(g: Game, pid: PlayerId, total: int)
    requires g.hand.Some? && pid in g.players
    ensures Bet(Timeless(g), pid, total) == Timeless(Bet(g, pid, total))
  {
    hide Pay, OthersInOrder;
    PaySteady(g, pid, total - g.players[pid].currentBet, true);
    HandStays(g, pid, total - g.players[pid].currentBet);
  }

  lemma RaiseSteady(g: Game, pid: PlayerId, to: int, raiseBy: int)
    requires g.hand.Some? && pid in g.players
    ensures Raise(Timeless(g), pid, to, raiseBy) == Timeless(Raise(g, pid, to, raiseBy))
  {
    hide Pay, OthersInOrder;
    PaySteady(g, pid, to - g.players[pid].currentBet, true);
    HandStays(g, pid, to - g.players[pid].currentBet);
  }

  lemma AllInSteady(g: Game, pid: PlayerId, total: int)
    requires g.hand.Some? && pid in g.players
    ensures AllIn(Timeless(g), pid, total) == Timeless(AllIn(g, pid, total))
  {
    hide Pay, OthersInOrder, Without, Select;
    PaySteady(g, pid, total - g.players[pid].currentBet, true);
    HandStays(g, pid, total - g.players[pid].currentBet);
  }

  lemma TimelessTwice(g: Game)
    ensures Timeless(Timeless(g)) == Timeless(g) && Timeless(g).players == g.players
    ensures (Timeless(g).hand.Some? <==> g.hand.Some?)
  {
  }

  lemma PostsSteady(g: Game, e: Event)
    requires e.AntePosted? || e.BlindPosted?
    ensures Steady(g, e)
  {
    hide Effect, Timeless, Pay, Post;
    var t := Timeless(g);
    TimelessTwice(g);
    AnteEffect(g, e.player, e.amount, None);
    AnteEffect(t, e.player, e.amount, None);
    if e.BlindPosted? {
      BlindEffect(g, e.player, e.amount, e.isBigBlind, None);
      BlindEffect(t, e.player, e.amount, e.isBigBlind, None);
    }
    if g.hand.Some? && e.player in g.players {
      if e.AntePosted? {
        PaySteady(g, e.player, e.amount, false);
        TimelessTwice(Pay(g, e.player, e.amount, false));
      } else {
        PostSteady(g, e);
        TimelessTwice(Post(g, e));
      }
    }
  }

  lemma BetsSteady(g: Game, e: Event)
    requires e.PlayerCalled? || e.PlayerBet? || e.PlayerRaised? || e.PlayerAllIn?
    ensures Steady(g, e)
  {
    hide Effect, Timeless, Call, Bet, Raise, AllIn;
    var t := Timeless(g);
    TimelessTwice(g);
    match e {
      case PlayerCalled(pid, amount) =>
        CallEffect(g, pid, amount, None);
        CallEffect(t, pid, amount, None);
        if g.hand.Some? && pid in g.players {
          CallSteady(g, pid, amount);
          TimelessTwice(Call(g, pid, amount));
        }
      case PlayerBet(pid, amount) =>
        BetEffect(g, pid, amount, None);
        BetEffect(t, pid, amount, None);
        if g.hand.Some? && pid in g.players {
          BetSteady(g, pid, amount);
          TimelessTwice(Bet(g, pid, amount));
        }
      case PlayerRaised(pid, to, raiseBy) =>
        RaiseEffect(g, pid, to, raiseBy, None);
        RaiseEffect(t, pid, to, raiseBy, None);
        if g.hand.Some? && pid in g.players {
          RaiseSteady(g, pid, to, raiseBy);
          TimelessTwice(Raise(g, pid, to, raiseBy));
        }
      case PlayerAllIn(pid, total) =>
        AllInEffect(g, pid, total, None);
        AllInEffect(t, pid, total, None);
        if g.hand.Some? && pid in g.players {
          AllInSteady(g, pid, total);
          TimelessTwice(AllIn(g, pid, total));
        }
    }
  }

  lemma FieldsSteady(g: Game, e: Event)
    requires e.ActionStarted? || e.SidePotCreated? || e.ShowdownReached? || e.RakeTaken? || e.PotAwarded?
    ensures Steady(g, e)
  {
    hide Effect, Paid;
    var t := Timeless(g);
    match e
    case ActionStarted(pid, deadline) =>
      TurnEffect(g, pid, deadline, None);
      TurnEffect(t, pid, deadline, None);
    case SidePotCreated(pot) =>
      SidePotEffect(g, pot, None);
      SidePotEffect(t, pot, None);
    case ShowdownReached(ids) =>
      ShowdownEffect(g, ids, None);
      ShowdownEffect(t, ids, None);
    case RakeTaken(amount) =>
      RakeEffect(g, amount, None);
      RakeEffect(t, amount, None);
    case PotAwarded(amount, winners) =>
      AwardEffect(g, amount, winners, None);
      AwardEffect(t, amount, winners, None);
  }

  lemma StreetsSteady(g: Game, e: Event)
    requires e.HandStarted? || e.FlopDealt? || e.TurnDealt? || e.RiverDealt? || e.BettingRoundEnded?
    ensures Steady(g, e)
  {
    hide PreflopOrder, PostflopOrder;
  }

  lemma FoldsSteady(g: Game, e: Event)
    requires e.PlayerFolded? || e.PlayerChecked?
    ensures Steady(g, e)
  {
    hide Without;
  }

  lemma RestSteady(g: Game, e: Event)
    requires !e.AntePosted? && !e.BlindPosted? && !e.PlayerCalled? && !e.PlayerBet? && !e.PlayerRaised?
    requires !e.PlayerAllIn?
    requires !e.ActionStarted? && !e.SidePotCreated? && !e.ShowdownReached? && !e.RakeTaken? && !e.PotAwarded?
    requires !e.HandStarted? && !e.FlopDealt? && !e.TurnDealt? && !e.RiverDealt? && !e.BettingRoundEnded?
    requires !e.PlayerFolded? && !e.PlayerChecked?
    ensures Steady(g, e)
  {
    hide Select;
  }

  lemma AllSteady(g: Game, e: Event)
    ensures Steady(g, e)
  {
    hide Effect, Steady;
    if e.AntePosted? || e.BlindPosted? {
      PostsSteady(g, e);
    } else if e.PlayerCalled? || e.PlayerBet? || e.PlayerRaised? || e.PlayerAllIn? {
      BetsSteady(g, e);
    } else if e.ActionStarted? || e.SidePotCreated? || e.ShowdownReached? || e.RakeTaken? || e.PotAwarded? {
      FieldsSteady(g, e);
    } else if e.HandStarted? || e.FlopDealt? || e.TurnDealt? || e.RiverDealt? || e.BettingRoundEnded? {
      StreetsSteady(g, e);
    } else if e.PlayerFolded? || e.PlayerChecked? {
      FoldsSteady(g, e);
    } else {
      RestSteady(g, e);
    }
  }

  /** When an event occurred only shows in the start time of a hand. */
  lemma TimeApart(g: Game, e: Event, at: Option<Time>)
    ensures Timeless(Effect(g, e, at)) == Timeless(Effect(g, e, None))
  {
    hide BySeat, PreflopOrder, PostflopOrder, OthersInOrder, Without, Paid, Select, Pay, Post, Call;
    hide Bet, Raise, AllIn, Award;
    hide EndRound, OnPlayer, WithHand, ActedOn, StreetReset;
    assert !e.HandStarted? ==> Effect(g, e, at) == Effect(g, e, None);
  }

  /** Stamped with the numbers that follow from its version, a list of events takes a state where the
      same events unstamped take it, but for the start time of the hand. */
  lemma {:induction false} StampingChangesTimesOnly(g: Game, events: seq<Event>, at: Time, id: Option<nat>)
    requires g.version >= 0
    ensures Timeless(ReduceAll(g, Stamped(events, g.version, at, id))) == Timeless(ReduceAll(g, Bares(events)))
    ensures ReduceAll(g, Stamped(events, g.version, at, id)).version == g.version + |events|
  {
    hide Effect;
    if events != [] {
      var rest, last := events[..|events| - 1], events[|events| - 1];
      var stamped, bare := Stamped(events, g.version, at, id), Bares(events);
      assert stamped[..|events| - 1] == Stamped(rest, g.version, at, id) && bare[..|events| - 1] == Bares(rest);
      StampingChangesTimesOnly(g, rest, at, id);
      BaresPlay(g, rest);
      SameStep(ReduceAll(g, Stamped(rest, g.version, at, id)), ReduceAll(g, Bares(rest)), last, at);
      SameVersions(ReduceAll(g, Stamped(rest, g.version, at, id)), ReduceAll(g, Bares(rest)),
                   stamped[|events| - 1], bare[|events| - 1]);
    }
  }

  lemma SameStep(a: Game, b: Game, e: Event, at: Time)
    requires Timeless(a) == Timeless(b)
    ensures Timeless(Effect(a, e, Some(at))) == Timeless(Effect(b, e, None))
  {
    hide Effect;
    TimeApart(a, e, Some(at));
    AllSteady(a, e);
    AllSteady(b, e);
  }

  lemma SameVersions(a: Game, b: Game, d: GameEvent, e: GameEvent)
    requires Timeless(Effect(a, d.event, d.occurredAt)) == Timeless(Effect(b, e.event, e.occurredAt))
    requires d.stateVersion > 0 && e.stateVersion == 0 && d.stateVersion == b.version + 1
    ensures Timeless(Reduce(a, d)) == Timeless(Reduce(b, e)) && Reduce(a, d).version == d.stateVersion
  {
    hide Effect;
  }

  // ── The session ───────────────────────────────────────────────────────────

  datatype SessionCommand = FromPlayer(cmd: Command) | Resume

  /** The event a command stands for by itself. Only a paused table can be resumed. */
  function First(g: Game, cmd: SessionCommand, actor: PlayerId): Event
  {
    match cmd
    case FromPlayer(c) => CommandEvent(g, c, actor)
    case Resume => if g.status == Paused then TableResumed else CommandRejected
  }

  /** The state the server's own events start from. */
  ghost function Begun(g: Game, cmd: SessionCommand, actor: PlayerId): Game
  {
    Play(g, [First(g, cmd, actor)]).(version := g.version + 1)
  }

  /** plan is the command's event and a lifecycle run to rest behind it; a refused resume stands alone. */
  ghost predicate Planned(g: Game, cmd: SessionCommand, actor: PlayerId, now: nat, plan: seq<Event>,
                          batches: seq<seq<Event>>)
  {
    if cmd.Resume? && g.status != Paused then plan == [CommandRejected] && batches == []
    else plan == [First(g, cmd, actor)] + Flat(batches) && RanToRest(Begun(g, cmd, actor), now, batches)
  }

  lemma ResumeIsEngine()
    ensures EngineOnly([TableResumed]) && EngineOnly([CommandRejected]) && IsEngineEvent(TableResumed)
  {
  }

  lemma Planning(g: Game, now: nat)
    ensures g.status != Paused ==> Planned(g, Resume, 0, now, [CommandRejected], [])
    ensures g.status == Paused ==> Begun(g, Resume, 0) == Play(g, [TableResumed]).(version := g.version + 1)
  {
    hide Play;
  }

  lemma ResumePlanned(g: Game, now: nat, batches: seq<seq<Event>>)
    requires g.status == Paused && RanToRest(Begun(g, Resume, 0), now, batches)
    ensures Planned(g, Resume, 0, now, [TableResumed] + Flat(batches), batches)
  {
    hide RanToRest, Begun, Flat;
  }

  lemma ResumeKeepsStock(g: Game, v: int, a: Shoe)
    requires Stocked(g, a)
    ensures Stocked(Play(g, [TableResumed]).(version := v), a) && Stocked(Play(g, [CommandRejected]), a)
  {
    hide DeckHolds, SameCards;
    CardlessPlays(g, [TableResumed]);
    CardlessPlays(g, [CommandRejected]);
    StayingKeepsDeck(g, Play(g, [TableResumed]), a, MOST);
    StayingKeepsDeck(g, Play(g, [CommandRejected]), a, MOST);
    EngineKeepsPlayers(g, [TableResumed]);
    EngineKeepsPlayers(g, [CommandRejected]);
    StockIgnoresVersion(Play(g, [TableResumed]), v, a);
  }

  lemma ResumeStocks(g: Game, v: int, a: Shoe)
    ensures Stocked(g, a) ==>
      Stocked(Play(g, [TableResumed]).(version := v), a) && Stocked(Play(g, [CommandRejected]), a)
  {
    hide Stocked, Play;
    if Stocked(g, a) {
      ResumeKeepsStock(g, v, a);
    }
  }

  /** What the deck must suffice for depends on neither times nor versions. */
  lemma StockIsTimeless(g: Game, g2: Game, a: Shoe)
    requires Stocked(g, a) && Timeless(g2) == Timeless(g)
    ensures Stocked(g2, a)
  {
    SameTable(g, g2);
  }

  lemma SameTable(g: Game, g2: Game)
    requires Timeless(g2) == Timeless(g)
    ensures g2.players == g.players && (g2.hand.Some? <==> g.hand.Some?)
    ensures g.hand.Some? ==> g2.hand.value == g.hand.value.(startedAt := g2.hand.value.startedAt)
  {
    if g.hand.Some? && g2.hand.Some? {
      assert g.hand.value.(startedAt := None) == g2.hand.value.(startedAt := None);
    }
  }

  class GameSession {
    const store: EventStore
    const dealer: CryptoDealer
    var state: TableState

    ghost predicate Valid()
      reads this, state, store, dealer, dealer.d
    {
      && Gapless(store.rows) && |store.rows| >= 1 && store.rows[1].event == TableCreated(store.config)
      && dealer.Valid() && DistinctSeats(state.players) && ConfigOk(state.config)
    }

    ghost predicate Live()
      reads this, state, store
    {
      IsReplay(state.Value(), store.config, store.rows)
    }

    /** No more players than a deck is enough for, and what is left of the dealer's is enough for the hand. */
    ghost predicate Stock()
      reads this, state, dealer, dealer.d, dealer.d.cards
    {
      Stocked(state.Value(), ShoeOf(dealer))
    }

    /** A session starts from a reload, with a dealer of its own: a new deck in order, none dealt. */
    constructor (s: EventStore, limit: nat)
      requires Gapless(s.rows) && |s.rows| >= 1 && limit >= 1 && s.rows[1].event == TableCreated(s.config)
      requires SeatedThroughout(Created(s.config), LogOf(s.rows)[1..])
      requires ConfigOk(Replay(s.config, LogOf(s.rows), |s.rows|).config)
      ensures store == s && fresh(state) && fresh(dealer) && fresh(dealer.d)
      ensures Valid() && Live() && ShoeOf(dealer) == NewDealer()
      ensures SeatsWithin(state.players, MOST) && (state.hand.Some? ==> state.hand.value.phase != Phase.Showdown) ==>
        Stock()
    {
      hide Replay, Gapless, SeatsWithin;
      var loaded, latest := s.LoadState(limit);
      var d := new CryptoDealer();
      store, state, dealer := s, loaded, d;
      new;
      SeatsHoldPlayers(state.players, MOST);
    }

    /** Only a paused table can be resumed; resuming may start a hand at once. */
    method HandleResume(now: nat, handIds: seq<nat>, draws: seq<seq<nat>>)
      returns (events: Option<seq<Event>>, ghost batches: seq<seq<Event>>)
      requires Valid()
      requires |handIds| == |draws| == 64 && forall i | 0 <= i < 64 :: Choices(draws[i], SIZE)
      modifies dealer, dealer.d
      ensures Valid()
      ensures events.Some? ==> EngineOnly(events.value) && Planned(state.Value(), Resume, 0, now, events.value, batches)
      ensures events.Some? ==>
        Supplied(Begun(state.Value(), Resume, 0), now, batches, old(ShoeOf(dealer)), ShoeOf(dealer))
      ensures events.None? ==> RanDry(Begun(state.Value(), Resume, 0), now, batches, old(ShoeOf(dealer)))
      ensures old(Stock()) ==> events.Some? && Stocked(Play(state.Value(), events.value), ShoeOf(dealer))
    {
      hide Effect, Choices, Gapless, SeatedThroughout, ReduceAll, Play, Flat, RanToRest, ConfigOk;
      hide Stocked, RanDry, Supplied;
      hide EngineOnly, DistinctSeats, SameSeats, IsLifecycle, Planned;
      batches := [];
      NoBatches(Begun(state.Value(), Resume, 0), now, ShoeOf(dealer));
      ResumeIsEngine();
      Planning(state.Value(), now);
      ResumeStocks(state.Value(), state.version + 1, ShoeOf(dealer));
      if state.status != Paused {
        return Some([CommandRejected]), batches;
      }
      var first := TableResumed;
      EngineKeepsSeated(state.Value(), Bares([first]));
      BaresPlay(state.Value(), [first]);
      EngineKeepsConfig(state.Value(), [first]);
      var curr := ApplyAll(state, Bares([first]));
      var rest;
      rest, batches := RunAdvance(curr, dealer, now, handIds, draws);
      if rest.None? {
        return None, batches;
      }
      RestMeans(curr.Value(), now, batches);
      LifecycleIsEngine(curr.Value(), now, batches);
      EngineConcat([first], rest.value);
      events := Some([first] + rest.value);
      RestKeepsStock(state.Value(), [first], state.version + 1, rest.value, ShoeOf(dealer));
      ResumePlanned(state.Value(), now, batches);
    }

    /** Stamps and stores; nothing is stored when the database fails. */
    method Persist(events: seq<Event>, at: Time, id: Option<nat>, dbFails: bool) returns (evts: Option<seq<GameEvent>>)
      requires Valid()
      modifies store`rows
      ensures Valid() && (evts.None? <==> dbFails)
      ensures evts.None? ==> store.rows == old(store.rows)
      ensures evts.Some? ==>
        && evts.value == Stamped(events, |old(store.rows)|, at, id)
        && store.rows == Insert(old(store.rows), evts.value)
    {
      hide Insert, Fits;
      var latest := store.GetLatestSequence();
      var stamped := StampEvents(events, latest, at, id);
      if dbFails {
        return None;
      }
      EmptyOrFits(store.rows, stamped);
      var ok := store.AppendEvents(stamped);
      evts := Some(stamped);
    }

    /** One command: a repeated id returns what is stored; otherwise the engine's events are stamped
        and stored. plan is the event list before stamping. A fresh command fails only with the database or
        for want of cards. The state is not touched, but the dealer goes on, whether or not the write
        succeeds. */
    method Process(cmd: SessionCommand, actor: PlayerId, id: Option<nat>, now: nat, at: Time, dbFails: bool,
                   handIds: seq<nat>, draws: seq<seq<nat>>)
      returns (evts: Option<seq<GameEvent>>, ghost plan: seq<Event>, ghost batches: seq<seq<Event>>)
      requires Valid()
      requires |handIds| == |draws| == 64 && forall i | 0 <= i < 64 :: Choices(draws[i], SIZE)
      modifies store`rows, dealer, dealer.d
      ensures Valid()
      ensures evts.None? ==> store.rows == old(store.rows)
      ensures Seen(old(store.rows), id) ==>
        store.rows == old(store.rows) && evts.Some? && |evts.value| == 1 && FirstOf(store.rows, id.value, evts.value[0])
      ensures !Seen(old(store.rows), id) && evts.Some? ==>
        && EngineOnly(plan) && Planned(state.Value(), cmd, actor, now, plan, batches)
        && evts.value == Stamped(plan, |old(store.rows)|, at, id) && store.rows == Insert(old(store.rows), evts.value)
      ensures !Seen(old(store.rows), id) && dbFails ==> evts.None?
      ensures evts.None? && !dbFails ==> RanDry(Begun(state.Value(), cmd, actor), now, batches, old(ShoeOf(dealer)))
      ensures Seen(old(store.rows), id) ==> ShoeOf(dealer) == old(ShoeOf(dealer))
      ensures !Seen(old(store.rows), id) ==>
        || RanDry(Begun(state.Value(), cmd, actor), now, batches, old(ShoeOf(dealer)))
        || Supplied(Begun(state.Value(), cmd, actor), now, batches, old(ShoeOf(dealer)), ShoeOf(dealer))
      ensures old(Stock()) && !dbFails ==> evts.Some?
      ensures old(Stock()) && !Seen(old(store.rows), id) && evts.Some? ==>
        Stocked(Play(state.Value(), plan), ShoeOf(dealer))
    {
      hide Effect, Choices, Gapless, SeatedThroughout, ReduceAll, Play, Flat, RanToRest, ConfigOk;
      hide CommandEvent, Insert, EngineOnly;
      hide Stocked, RanDry, Stamped, DistinctSeats, Supplied;
      plan, batches := [], [];
      if id.Some? {
        var existing := store.FindEventByCommandID(id.value);
        if existing.Some? {
          return Some([existing.value]), plan, batches;
        }
      }
      var events;
      match cmd {
        case FromPlayer(c) => events, batches := HandleCommand(state, c, actor, dealer, now, handIds, draws);
        case Resume => events, batches := HandleResume(now, handIds, draws);
      }
      if events.None? {
        return None, plan, batches;
      }
      plan := events.value;
      evts := Persist(events.value, at, id, dbFails);
    }

    /** One turn of the session's loop: process, then apply what was stored to the state in memory.
        A command id must not be one the lobby used at this table. */
    method Submit(cmd: SessionCommand, actor: PlayerId, id: Option<nat>, now: nat, at: Time, dbFails: bool,
                  handIds: seq<nat>, draws: seq<seq<nat>>)
      returns (evts: Option<seq<GameEvent>>, ghost plan: seq<Event>, ghost batches: seq<seq<Event>>)
      requires Valid()
      requires |handIds| == |draws| == 64 && forall i | 0 <= i < 64 :: Choices(draws[i], SIZE)
      requires forall k | k in store.rows && id.Some? && store.rows[k].commandId == id ::
        IsEngineEvent(store.rows[k].event)
      modifies `state, store`rows, dealer, dealer.d
      ensures Valid()
      ensures evts.None? ==> state == old(state) && store.rows == old(store.rows)
      ensures evts.None? && !dbFails ==>
        RanDry(Begun(old(state.Value()), cmd, actor), now, batches, old(ShoeOf(dealer)))
      ensures !Seen(old(store.rows), id) ==>
        || RanDry(Begun(old(state.Value()), cmd, actor), now, batches, old(ShoeOf(dealer)))
        || Supplied(Begun(old(state.Value()), cmd, actor), now, batches, old(ShoeOf(dealer)), ShoeOf(dealer))
      ensures old(Stock()) && !dbFails ==> evts.Some?
      ensures !Seen(old(store.rows), id) && evts.Some? ==> Planned(old(state.Value()), cmd, actor, now, plan, batches)
      ensures old(Live()) && !Seen(old(store.rows), id) ==> Live()
      ensures old(Live()) && !Seen(old(store.rows), id) && evts.Some? ==>
        Timeless(state.Value()) == Timeless(ReduceAll(old(state.Value()), Bares(plan)))
      ensures old(Live() && Stock()) && !Seen(old(store.rows), id) && evts.Some? ==> Stock()
      ensures Seen(old(store.rows), id) ==>
        && store.rows == old(store.rows) && evts.Some? && |evts.value| == 1
        && FirstOf(store.rows, id.value, evts.value[0])
        && state.Value() == Reduce(old(state.Value()), evts.value[0])
      ensures old(Live()) && Seen(old(store.rows), id) ==>
        (Live() <==> evts.value[0].sequence == |store.rows| && !Recurs(old(state.Value()), evts.value[0].event))
    {
      hide Effect, Choices, Gapless, SeatedThroughout, ReduceAll, Play, Flat, RanToRest, ConfigOk;
      hide CommandEvent, Insert, EngineOnly;
      hide Reduce, IsReplay, Timeless, Stamped, Stocked, RanDry, Planned, Recurs, DistinctSeats, Supplied;
      ghost var g, rows, repeated := state.Value(), store.rows, Seen(store.rows, id);
      evts, plan, batches := Process(cmd, actor, id, now, at, dbFails, handIds, draws);
      if evts.Some? {
        SafeToApply(g, rows, id, evts.value, plan, at, repeated);
        var next := ApplyAll(state, evts.value);
        state := next;
        if !repeated {
          LiveAfter(g, store.config, rows, plan, at, id);
          StockAfter(g, plan, state.Value(), ShoeOf(dealer));
        } else {
          Lobby.ReduceOne(g, evts.value[0]);
          assert evts.value == [evts.value[0]];
          LiveAgain(g, store.config, rows, evts.value[0]);
        }
      }
    }

    /** A deadline fired: the lifecycle moves on without a command. */
    method Wake(now: nat, at: Time, dbFails: bool, handIds: seq<nat>, draws: seq<seq<nat>>)
      returns (evts: Option<seq<GameEvent>>, ghost batches: seq<seq<Event>>)
      requires Valid()
      requires |handIds| == |draws| == 64 && forall i | 0 <= i < 64 :: Choices(draws[i], SIZE)
      modifies `state, store`rows, dealer, dealer.d
      ensures Valid()
      ensures evts.None? ==> state == old(state) && store.rows == old(store.rows)
      ensures evts.None? && !dbFails ==>
        RanDry(old(state.Value()), now, batches, old(ShoeOf(dealer))) || Stage(old(state.Value()), now) == 0
      ensures
        || RanDry(old(state.Value()), now, batches, old(ShoeOf(dealer)))
        || Supplied(old(state.Value()), now, batches, old(ShoeOf(dealer)), ShoeOf(dealer))
      ensures old(Stock()) && !dbFails && Stage(old(state.Value()), now) != 0 ==> evts.Some?
      ensures old(Live()) ==> Live()
      ensures old(Live()) && evts.Some? ==>
        && RanToRest(old(state.Value()), now, batches)
        && Timeless(state.Value()) == Timeless(ReduceAll(old(state.Value()), Bares(Flat(batches))))
      ensures old(Live() && Stock()) && evts.Some? ==> Stock()
    {
      hide Effect, Choices, Gapless, SeatedThroughout, ReduceAll, Play, Flat, RanToRest, ConfigOk, Insert, EngineOnly;
      hide Reduce, IsReplay, Timeless, Stamped, Stocked, RanDry, Stage, DistinctSeats, Supplied;
      ghost var g, rows := state.Value(), store.rows;
      var events;
      events, batches := RunAdvance(state, dealer, now, handIds, draws);
      if events.None? {
        return None, batches;
      }
      RestMeans(g, now, batches);
      if |events.value| == 0 {
        NothingToRun(g, now, batches);
        return None, batches;
      }
      LifecycleIsEngine(g, now, batches);
      evts := Persist(events.value, at, None, dbFails);
      if evts.Some? {
        SafeToApply(g, rows, None, evts.value, events.value, at, false);
        var next := ApplyAll(state, evts.value);
        state := next;
        LiveAfter(g, store.config, rows, events.value, at, None);
        StockAfter(g, events.value, state.Value(), ShoeOf(dealer));
      }
    }
  }

  /** A run to rest without events started at rest. */
  lemma NothingToRun(g: Game, now: nat, batches: seq<seq<Event>>)
    requires RanToRest(g, now, batches) && Flat(batches) == []
    ensures Stage(g, now) == 0
  {
    hide Stage;
    NothingHappens(g);
  }

  lemma StockAfter(g: Game, plan: seq<Event>, g2: Game, a: Shoe)
    ensures Stocked(Play(g, plan), a) && Timeless(g2) == Timeless(ReduceAll(g, Bares(plan))) ==> Stocked(g2, a)
  {
    hide Stocked, Timeless, Play, ReduceAll;
    if Stocked(Play(g, plan), a) && Timeless(g2) == Timeless(ReduceAll(g, Bares(plan))) {
      BaresPlay(g, plan);
      StockIgnoresVersion(Play(g, plan), g.version + |plan|, a);
      StockIsTimeless(Play(g, plan).(version := g.version + |plan|), g2, a);
    }
  }

  lemma LiveAgain(g: Game, config: Config, rows: Rows, e: GameEvent)
    requires e.sequence in rows && rows[e.sequence] == e && Gapless(rows) && |rows| >= 1
    requires rows[1].event == TableCreated(config)
    ensures IsReplay(g, config, rows) ==>
      (IsReplay(Reduce(g, e), config, rows) <==> e.sequence == |rows| && !Recurs(g, e.event))
  {
    hide IsReplay, Recurs, Reduce;
    if IsReplay(g, config, rows) {
      RepeatKeepsReplayIff(g, config, rows, e);
    }
  }

  lemma EmptyOrFits(rows: Rows, evts: seq<GameEvent>)
    requires Gapless(rows) && |rows| >= 1 && Numbered(evts, |rows|)
    ensures Fits(rows, evts) && Gapless(Insert(rows, evts)) && |Insert(rows, evts)| >= |rows|
    ensures Insert(rows, evts)[1] == rows[1]
  {
    InsertAtEnd(rows, evts);
    if evts != [] {
      AppendsOnlyAtEnd(rows, evts, |rows|);
    }
    assert |LogOf(Insert(rows, evts))| == |LogOf(rows)| + |evts|;
    assert LogOf(Insert(rows, evts))[0] == LogOf(rows)[0];
  }

  lemma SafeToApply(g: Game, rows: Rows, id: Option<nat>, evts: seq<GameEvent>, plan: seq<Event>, at: Time,
                    repeated: bool)
    requires DistinctSeats(g.players)
    requires forall k | k in rows && id.Some? && rows[k].commandId == id :: IsEngineEvent(rows[k].event)
    requires repeated ==> id.Some? && |evts| == 1 && FirstOf(rows, id.value, evts[0])
    requires !repeated ==> EngineOnly(plan) && evts == Stamped(plan, |rows|, at, id)
    ensures SeatedThroughout(g, evts) && ReduceAll(g, evts).config == g.config
  {
    forall i | 0 <= i < |evts| ensures IsEngineEvent(evts[i].event) {
      if !repeated {
        assert evts[i].event == plan[i] && plan[i] in plan;
      }
    }
    EngineKeepsSeated(g, evts);
  }

  lemma LiveAfter(g: Game, config: Config, rows: Rows, plan: seq<Event>, at: Time, id: Option<nat>)
    ensures IsReplay(g, config, rows) ==>
      var evts := Stamped(plan, |rows|, at, id);
      && IsReplay(ReduceAll(g, evts), config, Insert(rows, evts))
      && Timeless(ReduceAll(g, evts)) == Timeless(ReduceAll(g, Bares(plan)))
  {
    if IsReplay(g, config, rows) {
      ReplayVersion(g, config, rows);
      StoredIsReplayed(g, config, rows, Stamped(plan, |rows|, at, id));
      StampingChangesTimesOnly(g, plan, at, id);
    }
  }
}
