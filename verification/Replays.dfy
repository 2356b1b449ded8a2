/** The state in memory against the log: what storing and applying events keeps, and what applying a
    stored event a second time — the answer to a repeated command id — does. */
module Replays {
  import opened Collections
  import opened Table
  import opened Rules
  import opened Journal
  import opened Reducer

  /** The state in memory is what a reload would find. */
  ghost predicate IsReplay(g: Game, config: Config, rows: Rows)
  {
    Gapless(rows) && |rows| >= 1 && g == Replay(config, LogOf(rows), |rows|)
  }

  lemma ReplayVersion(g: Game, config: Config, rows: Rows)
    requires IsReplay(g, config, rows)
    ensures g.version == |rows|
  {
    VersionIsSequence(config, LogOf(rows), |rows|);
  }

  /** Storing the events that follow and applying them to the live state keeps it the replay. */
  lemma StoredIsReplayed(g: Game, config: Config, rows: Rows, evts: seq<GameEvent>)
    requires IsReplay(g, config, rows) && Numbered(evts, |rows|)
    ensures IsReplay(ReduceAll(g, evts), config, Insert(rows, evts))
  {
    hide ReduceAll, Insert;
    InsertAtEnd(rows, evts);
    assert |LogOf(Insert(rows, evts))| == |rows| + |evts|;
    ReplayPrefix(config, LogOf(rows), evts, |rows|);
  }

  /** The first stored event of a command. */
  ghost predicate FirstOf(rows: Rows, id: nat, e: GameEvent)
  {
    && e.sequence in rows && rows[e.sequence] == e && e.commandId == Some(id)
    && forall k | k in rows && k < e.sequence :: rows[k].commandId != Some(id)
  }

  ghost predicate Seen(rows: Rows, id: Option<nat>)
  {
    id.Some? && exists k :: k in rows && rows[k].commandId == id
  }

  // ── Applying the last event once more ─────────────────────────────────────

  /** What the k-th of n winners is paid. */
  function ShareOf(amount: int, n: nat, k: nat): int
    requires n > 0
  {
    Quotient(amount, n) + if k == 0 then Remainder(amount, n) else 0
  }

  /** Does the event move the state again when it is applied to the state it led to? Payments do
      unless they are of nothing, bets and raises always do, and side pots pile up. */
  predicate Recurs(g: Game, e: Event)
  {
    match e
    case AntePosted(pid, amount) => g.hand.Some? && pid in g.players && amount != 0
    case BlindPosted(pid, amount, _) => g.hand.Some? && pid in g.players && amount != 0
    case PlayerCalled(pid, amount) => g.hand.Some? && pid in g.players && amount != 0
    case PlayerBet(pid, _) => g.hand.Some? && pid in g.players
    case PlayerRaised(pid, _, _) => g.hand.Some? && pid in g.players
    case SidePotCreated(_) => g.hand.Some?
    case RakeTaken(amount) => g.hand.Some? && amount != 0
    case PotAwarded(amount, winners) =>
      winners != [] &&
      ((g.hand.Some? && amount != 0)
       || exists k :: 0 <= k < |winners| && winners[k] in g.players && ShareOf(amount, |winners|, k) != 0)
    case _ => false
  }

  lemma SharesPointOneWay(amount: int, n: nat, k: nat)
    requires n > 0
    ensures amount >= 0 ==> ShareOf(amount, n, k) >= 0
    ensures amount <= 0 ==> ShareOf(amount, n, k) <= 0
  {
    var m := if amount >= 0 then amount else -amount;
    assert m == n * (m / n) + m % n;
  }

  lemma {:induction false} PaidNothing(players: map<PlayerId, Player>, winners: seq<PlayerId>, amount: int, k: nat)
    requires k <= |winners|
    requires forall i | 0 <= i < |winners| :: winners[i] in players ==> ShareOf(amount, |winners|, i) == 0
    ensures Paid(players, winners, amount, k) == players
  {
    if k > 0 {
      PaidNothing(players, winners, amount, k - 1);
      assert winners[k - 1] in players ==> ShareOf(amount, |winners|, k - 1) == 0;
    }
  }

  lemma {:induction false} PaidMoves(players: map<PlayerId, Player>, winners: seq<PlayerId>, amount: int, k: nat,
                                     i: nat)
    requires k <= |winners| && i < |winners| && winners[i] in players
    ensures var was, now := players[winners[i]].stack, Paid(players, winners, amount, k)[winners[i]].stack;
      && (amount >= 0 ==> now >= was + if i < k then ShareOf(amount, |winners|, i) else 0)
      && (amount <= 0 ==> now <= was + if i < k then ShareOf(amount, |winners|, i) else 0)
  {
    if k > 0 {
      hide ShareOf;
      SharesPointOneWay(amount, |winners|, k - 1);
      SharesPointOneWay(amount, |winners|, i);
      PaidMoves(players, winners, amount, k - 1, i);
      PaidOneMore(players, winners, amount, k);
    }
  }

  lemma PaidOneMore(players: map<PlayerId, Player>, winners: seq<PlayerId>, amount: int, k: nat)
    requires 0 < k <= |winners|
    ensures var before, pid := Paid(players, winners, amount, k - 1), winners[k - 1];
      Paid(players, winners, amount, k) ==
        if pid !in before then before else
          before[pid := before[pid].(stack := before[pid].stack + ShareOf(amount, |winners|, k - 1))]
  {
  }

  lemma AwardAgain(g: Game, e: Event, at: Option<Time>)
    requires e.PotAwarded?
    ensures Effect(g, e, at) == g <==> !Recurs(g, e)
  {
    hide Effect, Paid, ShareOf;
    AwardEffect(g, e.amount, e.winners, at);
    var n := |e.winners|;
    if n > 0 {
      if k :| 0 <= k < n && e.winners[k] in g.players && ShareOf(e.amount, n, k) != 0 {
        PaidMoves(g.players, e.winners, e.amount, n, k);
        SharesPointOneWay(e.amount, n, k);
      } else {
        PaidNothing(g.players, e.winners, e.amount, n);
      }
    }
  }

  lemma ChipsAgain(g: Game, e: Event, at: Option<Time>)
    requires e.AntePosted? || e.BlindPosted? || e.PlayerCalled? || e.SidePotCreated? || e.RakeTaken?
    ensures Recurs(g, e) ==> Effect(g, e, at) != g
  {
    hide Without;
    if Recurs(g, e) && (e.AntePosted? || e.BlindPosted? || e.PlayerCalled?) {
      assert Effect(g, e, at).players[e.player].stack == g.players[e.player].stack - e.amount;
    } else if Recurs(g, e) && e.SidePotCreated? {
      assert |Effect(g, e, at).hand.value.sidePots| == |g.hand.value.sidePots| + 1;
    }
  }

  lemma RaisesAgain(g: Game, e: Event, at: Option<Time>)
    requires e.PlayerBet? || e.PlayerRaised?
    ensures Recurs(g, e) ==> Effect(g, e, at) != g
  {
    hide OthersInOrder;
    if Recurs(g, e) {
      assert Effect(g, e, at).hand.value.raisesThisStreet == g.hand.value.raisesThisStreet + 1;
    }
  }

  /** A second time nothing changes: of payments, only those of nothing. */
  lemma PaymentStays(b: Game, e: Event, at: Option<Time>)
    requires e.AntePosted? || e.BlindPosted? || e.SidePotCreated? || e.RakeTaken?
    ensures var g := Effect(b, e, at); !Recurs(g, e) ==> Effect(g, e, at) == g
  {
    var g := Effect(b, e, at);
    if !Recurs(g, e) && (e.AntePosted? || e.BlindPosted?) && g.hand.Some? && e.player in g.players {
      assert g.players[e.player := g.players[e.player]] == g.players;
    }
  }

  lemma WithoutTwice(s: seq<PlayerId>, p: PlayerId)
    ensures Without(Without(s, p), p) == Without(s, p)
  {
    var once := Without(s, p);
    SelectElems(s, Elems(s) - {p});
    assert Elems(once) - {p} == Elems(once);
    SelectAll(once, Elems(once));
  }

  lemma CallStays(b: Game, e: Event, at: Option<Time>)
    requires e.PlayerCalled?
    ensures var g := Effect(b, e, at); !Recurs(g, e) ==> Effect(g, e, at) == g
  {
    hide Without;
    var g := Effect(b, e, at);
    if !Recurs(g, e) && g.hand.Some? && e.player in g.players {
      WithoutTwice(b.hand.value.pending, e.player);
      assert g.players[e.player := g.players[e.player]] == g.players;
    }
  }

  lemma AllInStays(b: Game, e: Event, at: Option<Time>)
    requires e.PlayerAllIn?
    ensures Effect(Effect(b, e, at), e, at) == Effect(b, e, at)
  {
    hide Without, OthersInOrder, Select, Elems;
    var g := Effect(b, e, at);
    if g.hand.Some? && e.player in g.players {
      WithoutTwice(b.hand.value.pending, e.player);
      OthersWithout(g.players, g.hand.value.order, e.player);
      assert g.players[e.player := g.players[e.player]] == g.players;
    }
  }

  lemma OthersWithout(players: map<PlayerId, Player>, order: seq<PlayerId>, p: PlayerId)
    ensures Without(OthersInOrder(players, order, p), p) == OthersInOrder(players, order, p)
  {
    var others := OthersInOrder(players, order, p);
    SelectElems(order, BettingIds(players) - {p});
    assert Elems(others) - {p} == Elems(others);
    SelectAll(others, Elems(others));
  }

  lemma FoldStays(b: Game, e: Event, at: Option<Time>)
    requires e.PlayerFolded? || e.PlayerChecked?
    ensures Effect(Effect(b, e, at), e, at) == Effect(b, e, at)
  {
    hide Without;
    var g := Effect(b, e, at);
    if b.hand.Some? {
      WithoutTwice(b.hand.value.pending, e.player);
    }
    if e.player in g.players {
      assert g.players[e.player := g.players[e.player]] == g.players;
    }
  }

  lemma JoinStays(b: Game, e: Event, at: Option<Time>)
    requires e.PlayerJoined? || e.PlayerLeft?
    ensures Effect(Effect(b, e, at), e, at) == Effect(b, e, at)
  {
    hide Select;
    if e.PlayerJoined? {
      var kept := Select(b.reservedSeats, Elems(b.reservedSeats) - {e.seat});
      SelectElems(b.reservedSeats, Elems(b.reservedSeats) - {e.seat});
      assert Elems(kept) - {e.seat} == Elems(kept);
      SelectAll(kept, Elems(kept));
      var g := Effect(b, e, at);
      assert g.players[e.player := g.players[e.player]] == g.players;
    }
  }

  lemma StartStays(b: Game, e: Event, at: Option<Time>)
    requires e.HandStarted?
    ensures Effect(Effect(b, e, at), e, at) == Effect(b, e, at)
  {
    hide PreflopOrder;
    var players := MapPlayers(b.players, FreshHand());
    assert MapPlayers(players, FreshHand()) == players;
  }

  lemma StreetStays(b: Game, e: Event, at: Option<Time>)
    requires e.FlopDealt? || e.TurnDealt? || e.RiverDealt? || e.BettingRoundEnded?
    ensures Effect(Effect(b, e, at), e, at) == Effect(b, e, at)
  {
    hide PostflopOrder;
    var players := MapPlayers(b.players, NoBet());
    assert MapPlayers(players, NoBet()) == players;
  }

  /** Everything that only sets fields. */
  predicate SetsFields(e: Event)
  {
    && !e.AntePosted? && !e.BlindPosted? && !e.PlayerCalled? && !e.PlayerBet? && !e.PlayerRaised? && !e.PlayerAllIn?
    && !e.SidePotCreated? && !e.RakeTaken? && !e.PotAwarded? && !e.PlayerFolded? && !e.PlayerChecked?
    && !e.PlayerJoined? && !e.PlayerLeft? && !e.HandStarted?
    && !e.FlopDealt? && !e.TurnDealt? && !e.RiverDealt? && !e.BettingRoundEnded?
  }

  lemma FieldsStay(b: Game, e: Event, at: Option<Time>)
    requires SetsFields(e)
    ensures Effect(Effect(b, e, at), e, at) == Effect(b, e, at)
  {
    var g := Effect(b, e, at);
    if (e.PlayerSatOut? || e.PlayerSatIn? || e.HoleCardsRevealed?) && e.player in g.players {
      assert g.players[e.player := g.players[e.player]] == g.players;
    }
  }

  /** The event changes the state it led to again exactly when it recurs. */
  lemma AgainIff(b: Game, e: Event, at: Option<Time>)
    ensures var g := Effect(b, e, at); Effect(g, e, at) == g <==> !Recurs(g, e)
  {
    hide Effect, Recurs;
    var g := Effect(b, e, at);
    OnlyTheseRecur(g, e);
    if e.PotAwarded? {
      AwardAgain(g, e, at);
    } else if e.PlayerBet? || e.PlayerRaised? {
      RaisesAgain(g, e, at);
      RaiseStays(b, e, at);
    } else if e.PlayerCalled? {
      ChipsAgain(g, e, at);
      CallStays(b, e, at);
    } else if e.AntePosted? || e.BlindPosted? || e.SidePotCreated? || e.RakeTaken? {
      ChipsAgain(g, e, at);
      PaymentStays(b, e, at);
    } else if e.PlayerAllIn? {
      AllInStays(b, e, at);
    } else if e.PlayerFolded? || e.PlayerChecked? {
      FoldStays(b, e, at);
    } else if e.PlayerJoined? || e.PlayerLeft? {
      JoinStays(b, e, at);
    } else if e.HandStarted? {
      StartStays(b, e, at);
    } else if e.FlopDealt? || e.TurnDealt? || e.RiverDealt? || e.BettingRoundEnded? {
      StreetStays(b, e, at);
    } else {
      FieldsStay(b, e, at);
    }
  }

  lemma RaiseStays(b: Game, e: Event, at: Option<Time>)
    requires e.PlayerBet? || e.PlayerRaised?
    ensures var g := Effect(b, e, at); !Recurs(g, e) ==> Effect(g, e, at) == g
  {
    hide OthersInOrder;
  }

  lemma OnlyTheseRecur(g: Game, e: Event)
    ensures Recurs(g, e) ==>
      || e.AntePosted? || e.BlindPosted? || e.PlayerCalled? || e.PlayerBet? || e.PlayerRaised?
      || e.SidePotCreated? || e.RakeTaken? || e.PotAwarded?
  {
  }

  lemma EffectKeepsVersion(g: Game, e: Event, at: Option<Time>)
    ensures Effect(g, e, at).version == g.version
  {
    hide Effect;
    VersionApart(g, g.version, e, at);
    assert g.(version := g.version) == g;
  }

  lemma RecursIgnoresVersion(g: Game, v: int, e: Event)
    ensures Recurs(g.(version := v), e) <==> Recurs(g, e)
  {
  }

  lemma ReducedAgainIff(b: Game, e: GameEvent)
    requires e.stateVersion > 0
    ensures var g := Reduce(b, e); Reduce(g, e) == g <==> !Recurs(g, e.event)
  {
    hide Effect, Recurs;
    var f, v := Effect(b, e.event, e.occurredAt), e.stateVersion;
    var g := f.(version := v);
    AgainIff(b, e.event, e.occurredAt);
    VersionApart(f, v, e.event, e.occurredAt);
    VersionApart(f, f.version, e.event, e.occurredAt);
    EffectKeepsVersion(f, e.event, e.occurredAt);
    RecursIgnoresVersion(f, v, e.event);
    assert f.(version := f.version) == f;
    assert Reduce(g, e) == Effect(f, e.event, e.occurredAt).(version := v);
    if Reduce(g, e) == g {
      assert Effect(f, e.event, e.occurredAt) == g.(version := f.version);
    }
  }

  /** Applying a stored event again — what a repeated command id leads to — leaves the live state the
      replay exactly when that event is the log's last and does not recur; applying an earlier one
      takes the version back to that event's. */
  lemma RepeatKeepsReplayIff(g: Game, config: Config, rows: Rows, e: GameEvent)
    requires IsReplay(g, config, rows) && e.sequence in rows && rows[e.sequence] == e
    requires rows[1].event == TableCreated(config)
    ensures Reduce(g, e).version == e.sequence
    ensures IsReplay(Reduce(g, e), config, rows) <==> e.sequence == |rows| && !Recurs(g, e.event)
  {
    hide Effect, Recurs;
    ReplayVersion(g, config, rows);
    VersionFollows(g, e);
    if e.sequence == |rows| {
      if |rows| == 1 {
        assert LogOf(rows)[1..1] == [];
        CreatedAgain(config, e);
      } else {
        var k := |rows| - 1;
        ReplayOn(config, LogOf(rows), k, |rows|);
        assert LogOf(rows)[k..|rows|] == [e];
        assert [e][..0] == [];
        ReducedAgainIff(Replay(config, LogOf(rows), k), e);
      }
    }
  }

  lemma CreatedAgain(config: Config, e: GameEvent)
    requires e.event == TableCreated(config) && e.stateVersion == 1
    ensures Reduce(Created(config), e) == Created(config) && !Recurs(Created(config), e.event)
  {
  }

  /** For the event of a player's command that means: a call, bet or raise recurs, a fold, check,
      all-in, sit-out, sit-in or refusal does not. */
  lemma CommandRecursIff(b: Game, cmd: Command, actor: PlayerId, at: Option<Time>)
    ensures var e := CommandEvent(b, cmd, actor);
      Recurs(Effect(b, e, at), e) <==>
        Validate(b, cmd, actor).None? && (cmd.CallBet? || cmd.OpenBet? || cmd.RaiseTo?)
  {
    hide Without, OthersInOrder;
    if Validate(b, cmd, actor).None? && (cmd.CallBet? || cmd.OpenBet? || cmd.RaiseTo?) {
      assert b.hand.Some? && actor in b.players;
    }
  }

  // ── A call made twice ─────────────────────────────────────────────────────

  /** Two players with 10 chips, blinds of 1 and 2, a call of 1 by the small blind under command id 5,
      and the big blind's turn. */
  function CallEvents(): seq<GameEvent>
  {
    [GameEvent(2, 2, None, None, PlayerJoined(7, 7, 1, 10)),
     GameEvent(3, 3, None, None, PlayerJoined(8, 8, 2, 10)),
     GameEvent(4, 4, None, None, HandStarted(0, 1, 7, 7, 8, 2)),
     GameEvent(5, 5, None, None, BlindPosted(7, 1, false)),
     GameEvent(6, 6, None, None, BlindPosted(8, 2, true)),
     GameEvent(7, 7, None, None, ActionStarted(7, None)),
     GameEvent(8, 8, None, Some(5), PlayerCalled(7, 1)),
     GameEvent(9, 9, None, Some(5), ActionStarted(8, None))]
  }

  function CallConfig(): Config
  {
    Config(1, 2, 0, 0, 2, 6, 0, 0, 0, 0, 0, false, 0, false)
  }

  ghost function CallState(k: nat): Game
    requires k <= 8
  {
    ReduceAll(Created(CallConfig()), CallEvents()[..k])
  }

  lemma CallStep(k: nat)
    requires k < 8
    ensures CallState(k + 1) == Reduce(CallState(k), CallEvents()[k])
  {
    hide Reduce;
    assert CallEvents()[..k + 1][..k] == CallEvents()[..k];
  }

  /** Player 7's stack and the pot. */
  ghost predicate Shows(g: Game, stack: int, pot: int)
  {
    g.hand.Some? && 7 in g.players && 8 in g.players && g.players[7].stack == stack && g.hand.value.pot == pot
  }

  lemma CallSoFar()
    ensures Shows(CallState(5), 9, 3)
  {
    hide CallState, Shows;
    DealtSoFar();
    CallStep(3);
    BlindShows(CallState(3), CallEvents()[3], 10, 0);
    CallStep(4);
    BlindShows(CallState(4), CallEvents()[4], 9, 1);
  }

  lemma BlindShows(g: Game, e: GameEvent, stack: int, pot: int)
    requires Shows(g, stack, pot) && (e.event == BlindPosted(7, 1, false) || e.event == BlindPosted(8, 2, true))
    ensures Shows(Reduce(g, e), if e.event.player == 7 then stack - 1 else stack, pot + e.event.amount)
  {
  }

  lemma DealtSoFar()
    ensures Shows(CallState(3), 10, 0)
  {
    hide PreflopOrder, Select, CallState;
    assert CallState(0) == Created(CallConfig()) by {
      assert CallEvents()[..0] == [];
      NothingReduced();
    }
    CallStep(0);
    CallStep(1);
    assert 7 in CallState(2).players && 8 in CallState(2).players && CallState(2).players[7].stack == 10;
    CallStep(2);
  }

  lemma NothingReduced()
    ensures CallState(0) == Created(CallConfig())
  {
  }

  /** The log of a called small blind: a second submission under command id 5 finds the stored call,
      which is applied to the live state again — the chip is paid twice, and the version goes back. */
  lemma RepeatedCallPaysTwice()
    ensures var rows, g := Insert(map[1 := CreationEvent(CallConfig(), None, None)], CallEvents()), CallState(8);
      && IsReplay(g, CallConfig(), rows) && FirstOf(rows, 5, CallEvents()[6])
      && Shows(g, 8, 4) && Shows(Reduce(g, CallEvents()[6]), 7, 5)
      && g.version == 9 && Reduce(g, CallEvents()[6]).version == 8
  {
    hide Without, CallState, Shows, Insert;
    var created := map[1 := CreationEvent(CallConfig(), None, None)];
    CallLogged();
    CallSoFar();
    CallStep(5);
    TurnShows(CallState(5), CallEvents()[5], 9, 3);
    CallStep(6);
    CallShows(CallState(6), CallEvents()[6], 9, 3);
    CallStep(7);
    TurnShows(CallState(7), CallEvents()[7], 8, 4);
    CallShows(CallState(8), CallEvents()[6], 8, 4);
    ReplayVersion(CallState(8), CallConfig(), Insert(created, CallEvents()));
  }

  lemma TurnShows(g: Game, e: GameEvent, stack: int, pot: int)
    requires Shows(g, stack, pot) && e.event.ActionStarted?
    ensures Shows(Reduce(g, e), stack, pot)
  {
  }

  lemma CallShows(g: Game, e: GameEvent, stack: int, pot: int)
    requires Shows(g, stack, pot) && e.event == PlayerCalled(7, 1) && e.stateVersion == 8
    ensures Shows(Reduce(g, e), stack - 1, pot + 1) && Reduce(g, e).version == 8
  {
    hide Without;
  }

  lemma CallLogged()
    ensures var rows := Insert(map[1 := CreationEvent(CallConfig(), None, None)], CallEvents());
      IsReplay(CallState(8), CallConfig(), rows) && FirstOf(rows, 5, CallEvents()[6])
  {
    hide ReduceAll, Insert, IsReplay, FirstOf, Gapless;
    var created := map[1 := CreationEvent(CallConfig(), None, None)];
    assert CallEvents()[..8] == CallEvents();
    assert Numbered(CallEvents(), 1);
    JustCreated(created);
    StoredIsReplayed(Created(CallConfig()), CallConfig(), created, CallEvents());
    InsertAtEnd(created, CallEvents());
    FirstCall(Insert(created, CallEvents()), created[1]);
  }

  lemma FirstCall(rows: Rows, creation: GameEvent)
    requires Gapless(rows) && LogOf(rows) == [creation] + CallEvents() && creation.commandId.None?
    ensures FirstOf(rows, 5, CallEvents()[6])
  {
    forall k | k in rows && k < 8 ensures rows[k].commandId != Some(5) {
      assert rows[k] == LogOf(rows)[k - 1];
    }
    assert |LogOf(rows)| == 9;
    assert rows[8] == LogOf(rows)[7];
  }

  lemma JustCreated(rows: Rows)
    requires rows == map[1 := CreationEvent(CallConfig(), None, None)]
    ensures IsReplay(Created(CallConfig()), CallConfig(), rows) && Gapless(rows) && |rows| == 1
    ensures LogOf(rows) == [CreationEvent(CallConfig(), None, None)]
  {
    assert Gapless(rows);
    assert LogOf(rows)[1..1] == [];
  }
}
