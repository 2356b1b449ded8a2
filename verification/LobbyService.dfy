/** Joining and leaving as the lobby runs them, against the store and the users' wallets. */
module LobbyService {
  import opened Collections
  import opened Table
  import opened Journal
  import opened Seating
  import opened Reducer
  import opened Storage
  import opened Lobby
  import opened Chips

  datatype Refusal =
    | GameClosed | BuyInOutOfRange | AlreadySeated | SeatTaken | TableFull | NotAtTable
    | InsufficientFunds | NoWallet | ConcurrentWrite

  datatype Reply =
    | Done(sequence: nat, balance: int)
    | Repeated(sequence: nat, balance: int)  // the command id was seen before
    | Refused(why: Refusal)

  /** Balances of users; a debit only goes through when the balance covers it. */
  class Wallets {
    var balances: map<UserId, int>

    method DebitUserBalance(user: UserId, amount: int) returns (left: Option<int>)
      modifies this
      ensures left.Some? <==> user in old(balances) && old(balances)[user] >= amount
      ensures balances == if left.Some? then old(balances)[user := old(balances)[user] - amount] else old(balances)
      ensures left.Some? ==> left.value == balances[user]
    {
      if user !in balances || balances[user] < amount {
        return None;
      }
      balances := balances[user := balances[user] - amount];
      left := Some(balances[user]);
    }

    method CreditUserBalance(user: UserId, amount: int) returns (left: Option<int>)
      modifies this
      ensures left.Some? <==> user in old(balances)
      ensures balances == if left.Some? then old(balances)[user := old(balances)[user] + amount] else old(balances)
      ensures left.Some? ==> left.value == balances[user]
    {
      if user !in balances {
        return None;
      }
      balances := balances[user := balances[user] + amount];
      left := Some(balances[user]);
    }
  }

  /** The player a user is seated as, if any. */
  method FindPlayerByUserID(g: Game, user: UserId) returns (pid: Option<PlayerId>)
    ensures pid.Some? ==> SeatedAs(g, user, pid.value)
    ensures pid.None? ==> forall p | p in g.userIds :: !SeatedAs(g, user, p)
  {
    var rest := g.userIds.Keys;
    while rest != {}
      invariant rest <= g.userIds.Keys
      invariant forall p | p in g.userIds && p !in rest :: !SeatedAs(g, user, p)
      decreases |rest|
    {
      var p :| p in rest;
      if g.userIds[p] == user {
        return Some(p);
      }
      rest := rest - {p};
    }
    pid := None;
  }

  /** The seat for a join: the requested one, or the lowest that is neither taken nor reserved. */
  method SelectSeat(g: Game, requested: int) returns (seat: Option<int>)
    ensures seat.Some? <==> exists s :: Picks(g, requested, s)
    ensures seat.Some? ==> Picks(g, requested, seat.value)
    ensures seat.None? && requested <= 0 ==> forall s | 1 <= s <= g.config.maxSeats :: !FreeSeat(g, s)
  {
    var occupied: set<int> := {};
    var rest := g.players.Keys;
    while rest != {}
      invariant rest <= g.players.Keys
      invariant forall s :: s in occupied <==> exists p :: p in g.players && p !in rest && g.players[p].seat == s
      decreases |rest|
    {
      var p :| p in rest;
      rest := rest - {p};
      ghost var before := occupied;
      occupied := occupied + {g.players[p].seat};
      forall s ensures s in occupied <==> exists q :: q in g.players && q !in rest && g.players[q].seat == s {
        if s in before {
          var q :| q in g.players && q !in rest + {p} && g.players[q].seat == s;
          assert q !in rest;
        }
      }
    }
    var reserved := Elems(g.reservedSeats);
    Occupied(g, occupied);
    if requested > 0 {
      if requested > g.config.maxSeats || requested in occupied || requested in reserved {
        assert forall s :: Picks(g, requested, s) ==> s == requested;
        return None;
      }
      assert Picks(g, requested, requested);
      return Some(requested);
    }
    var s := 1;
    while s <= g.config.maxSeats
      invariant 1 <= s && forall t | 1 <= t < s :: !FreeSeat(g, t)
      decreases g.config.maxSeats + 1 - s
    {
      if s !in occupied && s !in reserved {
        assert Picks(g, requested, s);
        return Some(s);
      }
      s := s + 1;
    }
    assert forall t :: Picks(g, requested, t) ==> FreeSeat(g, t) && 1 <= t <= g.config.maxSeats;
    seat := None;
  }

  lemma Occupied(g: Game, occupied: set<int>)
    requires forall s :: s in occupied <==> exists p :: p in g.players && g.players[p].seat == s
    ensures forall s :: FreeSeat(g, s) <==> 1 <= s <= g.config.maxSeats && s !in occupied && s !in g.reservedSeats
  {
  }

  // ── Joining ───────────────────────────────────────────────────────────────

  /** What the lobby relies on: a gapless log whose replay seats everybody properly. */
  ghost predicate StoreOk(config: Config, rows: Rows)
  {
    && Gapless(rows) && |rows| >= 1
    && SeatedThroughout(Created(config), LogOf(rows)[1..])
    && SeatsOk(config, Replay(config, LogOf(rows), |rows|))
  }

  /** Wallets and table together, as far as the log goes. */
  ghost function AllChips(balances: map<UserId, int>, config: Config, rows: Rows): int
    requires Gapless(rows) && |rows| >= 1
  {
    Total(balances) + ChipCount(Replay(config, LogOf(rows), |rows|))
  }

  lemma Appended(config: Config, rows: Rows, evts: seq<GameEvent>)
    requires Gapless(rows) && |rows| >= 1 && Numbered(evts, |rows|)
    ensures Gapless(Insert(rows, evts)) && |Insert(rows, evts)| == |rows| + |evts|
    ensures Replay(config, LogOf(Insert(rows, evts)), |Insert(rows, evts)|)
        == ReduceAll(Replay(config, LogOf(rows), |rows|), evts)
  {
    hide ReduceAll, Insert;
    InsertAtEnd(rows, evts);
    assert |LogOf(Insert(rows, evts))| == |rows| + |evts|;
    ReplayPrefix(config, LogOf(rows), evts, |rows|);
  }

  lemma LoadedVersion(config: Config, rows: Rows)
    requires Gapless(rows) && |rows| >= 1
    ensures Replay(config, LogOf(rows), |rows|).version == |rows|
  {
    VersionIsSequence(config, LogOf(rows), |rows|);
  }

  lemma LateAppend(rows: Rows, others: seq<GameEvent>, evts: seq<GameEvent>)
    requires Gapless(rows) && Numbered(others, |rows|) && Numbered(evts, |rows|) && evts != []
    ensures Fits(Insert(rows, others), evts) <==> others == []
    ensures Fits(rows, others)
  {
    InsertAtEnd(rows, others);
    assert |LogOf(Insert(rows, others))| == |rows| + |others|;
    AppendsOnlyAtEnd(Insert(rows, others), evts, |rows|);
    if others != [] {
      AppendsOnlyAtEnd(rows, others, |rows|);
    }
  }

  lemma JoinBalances(config: Config, rows: Rows, job: Job, seat: int, e: GameEvent, balances: map<UserId, int>)
    requires StoreOk(config, rows) && job.Joining? && MayJoin(Replay(config, LogOf(rows), |rows|), job, seat)
    requires e.event == PlayerJoined(job.user, job.user, seat, job.buyIn) && Numbered([e], |rows|)
    requires job.user in balances
    ensures Gapless(Insert(rows, [e])) && |Insert(rows, [e])| >= 1
    ensures AllChips(balances[job.user := balances[job.user] - job.buyIn], config, Insert(rows, [e]))
        == AllChips(balances, config, rows)
  {
    hide ReduceAll, Reduce, Insert, SeatsOk, SeatedThroughout, Replay, ChipCount, Total, MayJoin;
    var g := Replay(config, LogOf(rows), |rows|);
    Appended(config, rows, [e]);
    ReduceOne(g, e);
    JoinKeepsSeats(config, g, job, seat, e);
    TotalUpdate(balances, job.user, balances[job.user] - job.buyIn);
  }

  /** A seat of the table that nobody sits in or has reserved. */
  predicate Vacant(g: Game, seat: int)
  {
    && 1 <= seat && seat <= g.config.maxSeats && (forall i | 0 <= i < |g.reservedSeats| :: g.reservedSeats[i] != seat)
    && forall p | p in g.players :: g.players[p].seat != seat
  }

  lemma VacantIsFree(g: Game)
    ensures forall s :: Vacant(g, s) <==> FreeSeat(g, s)
  {
  }

  /** A request is met exactly, and without one the lowest free seat is picked. */
  lemma PicksWhat(g: Game, requested: int)
    ensures requested > 0 ==> forall s :: Picks(g, requested, s) <==> s == requested && FreeSeat(g, requested)
    ensures requested <= 0 ==>
      forall s :: Picks(g, requested, s) <==> FreeSeat(g, s) && forall t | FreeSeat(g, t) :: s <= t
  {
    forall s | requested <= 0
      ensures Picks(g, requested, s) <==> FreeSeat(g, s) && forall t | FreeSeat(g, t) :: s <= t
    {
      if Picks(g, requested, s) {
        assert forall t | FreeSeat(g, t) :: 1 <= t;
      } else if FreeSeat(g, s) {
        var t :| 1 <= t < s && FreeSeat(g, t);
      }
    }
  }

  /** Status, buy-in, not seated yet, a seat: the checks of a join, in order. */
  method ValidateJoin(g: Game, job: Job) returns (seat: Option<int>, why: Refusal)
    requires job.Joining?
    ensures seat.Some? <==> exists s :: MayJoin(g, job, s)
    ensures seat.Some? ==> MayJoin(g, job, seat.value)
    ensures seat.Some? <==>
      && g.status != Finished && g.status != Closed
      && g.config.minBuyIn <= job.buyIn && (g.config.maxBuyIn > 0 ==> job.buyIn <= g.config.maxBuyIn)
      && (forall p | p in g.userIds :: g.userIds[p] != job.user)
      && (if job.seat > 0 then Vacant(g, job.seat) else exists s :: Vacant(g, s))
    ensures seat.Some? ==>
      && Vacant(g, seat.value)
      && if job.seat > 0 then seat.value == job.seat else forall s | Vacant(g, s) :: seat.value <= s
  {
    hide Picks;
    VacantIsFree(g);
    PicksWhat(g, job.seat);
    seat := None;
    if g.status == Finished || g.status == Closed {
      return seat, GameClosed;
    }
    if job.buyIn < g.config.minBuyIn || (g.config.maxBuyIn > 0 && job.buyIn > g.config.maxBuyIn) {
      return seat, BuyInOutOfRange;
    }
    var seated := FindPlayerByUserID(g, job.user);
    if seated.Some? {
      assert g.userIds[seated.value] == job.user;
      return seat, AlreadySeated;
    }
    seat := SelectSeat(g, job.seat);
    why := if job.seat > 0 then SeatTaken else TableFull;
    assert seat.Some? ==> MayJoin(g, job, seat.value);
    assert job.seat > 0 ==> (Picks(g, job.seat, job.seat) <==> FreeSeat(g, job.seat));
    assert forall p | p in g.userIds :: !SeatedAs(g, job.user, p) && g.userIds[p] != job.user;
  }

  /** The transaction of a join: debit, then append; when the append fails the debit is undone. */
  method DebitAndAppend(store: EventStore, wallets: Wallets, job: Job, evt: GameEvent)
    returns (left: Option<int>, why: Refusal)
    requires job.Joining?
    modifies store`rows, wallets
    ensures left.Some? <==>
      job.user in old(wallets.balances) && old(wallets.balances)[job.user] >= job.buyIn && Fits(old(store.rows), [evt])
    ensures left.None? ==> store.rows == old(store.rows) && wallets.balances == old(wallets.balances)
    ensures left.Some? ==>
      && store.rows == Insert(old(store.rows), [evt])
      && wallets.balances == old(wallets.balances)[job.user := old(wallets.balances)[job.user] - job.buyIn]
      && left.value == wallets.balances[job.user]
  {
    hide Insert, Fits;
    var undo := wallets.balances;
    why := InsufficientFunds;
    left := wallets.DebitUserBalance(job.user, job.buyIn);
    if left.Some? {
      var ok := store.AppendEvents([evt]);
      if !ok {
        wallets.balances := undo;
        return None, ConcurrentWrite;
      }
    }
  }

  /** What a reload finds, and whether a row numbered from it goes in after others were committed. */
  lemma RaceFacts(config: Config, rows: Rows, others: seq<GameEvent>, evts: seq<GameEvent>)
    requires StoreOk(config, rows) && Numbered(others, |rows|) && evts != [] && Numbered(evts, |rows|)
    ensures Fits(rows, others) && Gapless(Insert(rows, others)) && |Insert(rows, others)| >= 1
    ensures Fits(Insert(rows, others), evts) <==> others == []
    ensures others == [] ==> Insert(rows, others) == rows
  {
    hide Replay, SeatsOk, SeatedThroughout;
    LateAppend(rows, others, evts);
    Appended(config, rows, others);
  }

  ghost predicate CommandSeen(rows: Rows, commandId: Option<nat>)
  {
    commandId.Some? && exists k :: k in rows && rows[k].commandId == commandId
  }

  /** A fresh join the table accepts and the wallet covers. */
  ghost predicate CanJoin(config: Config, rows: Rows, balances: map<UserId, int>, job: Job)
    requires job.Joining? && Gapless(rows) && |rows| >= 1
  {
    && !CommandSeen(rows, job.commandId)
    && (exists s :: MayJoin(LoadedState(config, rows), job, s))
    && job.user in balances && balances[job.user] >= job.buyIn
  }

  /** A fresh leave of a seated user who has a wallet. */
  ghost predicate CanLeave(g: Game, rows: Rows, balances: map<UserId, int>, user: UserId, commandId: Option<nat>)
  {
    !CommandSeen(rows, commandId) && user in balances && exists p :: SeatedAs(g, user, p)
  }

  lemma CanJoinMeans(config: Config, rows: Rows, balances: map<UserId, int>, job: Job)
    requires job.Joining? && Gapless(rows) && |rows| >= 1
    ensures LoadedState(config, rows) == Replay(config, LogOf(rows), |rows|)
    ensures CanJoin(config, rows, balances, job) ==>
      && !CommandSeen(rows, job.commandId) && job.user in balances && balances[job.user] >= job.buyIn
      && exists s :: MayJoin(Replay(config, LogOf(rows), |rows|), job, s)
  {
  }

  /** The idempotency check: a command id seen before is answered from the log. */
  method AnswerRepeated(store: EventStore, wallets: Wallets, user: UserId, commandId: Option<nat>)
    returns (reply: Option<Reply>)
    requires Gapless(store.rows)
    ensures reply.Some? <==> CommandSeen(store.rows, commandId)
    ensures reply.Some? ==> !reply.value.Done?
  {
    if commandId.None? {
      return None;
    }
    var existing := store.FindEventByCommandID(commandId.value);
    if existing.None? {
      return None;
    }
    if user !in wallets.balances {
      return Some(Refused(NoWallet));
    }
    reply := Some(Repeated(existing.value.sequence, wallets.balances[user]));
  }

  /** Joins a user. others is what other writers commit after the state was loaded and before the join
      is appended; with any such event the join is refused and the debit undone. */
  method JoinTable(store: EventStore, wallets: Wallets, job: Job, at: Option<Time>, others: seq<GameEvent>)
    returns (reply: Reply, ghost seat: int)
    requires job.Joining? && StoreOk(store.config, store.rows) && Numbered(others, |store.rows|)
    modifies store`rows, wallets
    ensures Gapless(store.rows) && |store.rows| >= 1
    ensures reply.Done? ==>
      && others == [] && MayJoin(LoadedState(store.config, old(store.rows)), job, seat)
      && reply.sequence == |old(store.rows)| + 1
      && store.rows == Insert(old(store.rows), [JoinEvent(job, seat, reply.sequence, reply.sequence, at)])
      && job.user in old(wallets.balances)
      && wallets.balances == old(wallets.balances)[job.user := old(wallets.balances)[job.user] - job.buyIn]
    ensures reply.Done? ==>
      AllChips(wallets.balances, store.config, store.rows) == old(AllChips(wallets.balances, store.config, store.rows))
    ensures others == [] && CanJoin(store.config, old(store.rows), old(wallets.balances), job) ==> reply.Done?
    ensures reply.Repeated? ==> store.rows == old(store.rows) && wallets.balances == old(wallets.balances)
    ensures reply.Refused? ==>
      (store.rows == old(store.rows) || store.rows == Insert(old(store.rows), others))
          && wallets.balances == old(wallets.balances)
  {
    hide *;
    seat := 0;
    ghost var rows, before := store.rows, wallets.balances;
    LogSeats(store.config, store.rows);
    CanJoinMeans(store.config, rows, before, job);
    var answer := AnswerRepeated(store, wallets, job.user, job.commandId);
    if answer.Some? {
      return answer.value, seat;
    }
    var state, latestSeq := store.LoadState(500);
    LoadedVersion(store.config, rows);
    JoinNumbered(job, 0, |rows|, at);
    RaceFacts(store.config, rows, others, [JoinEvent(job, 0, |rows| + 1, |rows| + 1, at)]);
    var went := store.AppendEvents(others);
    var g := state.Value();
    var picked, why := ValidateJoin(g, job);
    if picked.None? {
      return Refused(why), seat;
    }
    seat := picked.value;
    var evt := JoinEvent(job, picked.value, latestSeq + 1, g.version + 1, at);
    JoinNumbered(job, seat, |rows|, at);
    RaceFacts(store.config, rows, others, [evt]);
    var left;
    left, why := DebitAndAppend(store, wallets, job, evt);
    if left.None? {
      return Refused(why), seat;
    }
    JoinBalances(store.config, rows, job, seat, evt, before);
    reply := Done(latestSeq + 1, left.value);
  }

  lemma JoinNumbered(job: Job, seat: int, n: nat, at: Option<Time>)
    requires job.Joining?
    ensures Numbered([JoinEvent(job, seat, n + 1, n + 1, at)], n)
    ensures JoinEvent(job, seat, n + 1, n + 1, at).event == PlayerJoined(job.user, job.user, seat, job.buyIn)
  {
  }

  lemma LogSeats(config: Config, rows: Rows)
    requires StoreOk(config, rows)
    ensures Gapless(rows) && |rows| >= 1 && SeatedThroughout(Created(config), LogOf(rows)[1..])
  {
  }

  // ── Leaving ───────────────────────────────────────────────────────────────

  ghost function LoadedState(config: Config, rows: Rows): Game
    requires Gapless(rows) && |rows| >= 1
  {
    Replay(config, LogOf(rows), |rows|)
  }

  /** The balances once a cash-out is credited; a player without chips is credited nothing. */
  function CashedOut(balances: map<UserId, int>, user: UserId, cashOut: int): map<UserId, int>
    requires cashOut > 0 ==> user in balances
  {
    if cashOut > 0 then balances[user := balances[user] + cashOut] else balances
  }

  lemma LeaveBalances(config: Config, rows: Rows, user: UserId, pid: PlayerId, id: Option<nat>, at: Option<Time>,
                      balances: map<UserId, int>)
    requires StoreOk(config, rows) && pid in LoadedState(config, rows).players && user in balances
    ensures var evts := LeaveEvents(LoadedState(config, rows), pid, id, |rows| + 1, |rows| + 1, at);
      var cashOut := LoadedState(config, rows).players[pid].stack;
      && Gapless(Insert(rows, evts)) && |Insert(rows, evts)| >= 1
      && AllChips(CashedOut(balances, user, cashOut), config, Insert(rows, evts))
           == AllChips(balances, config, rows) + if cashOut >= 0 then 0 else -cashOut
  {
    hide ReduceAll, Reduce, Insert, SeatsOk, SeatedThroughout, Replay, ChipCount, Total, LeaveEvents;
    var g := LoadedState(config, rows);
    LeaveNumbers(g, pid, id, |rows|, at);
    Appended(config, rows, LeaveEvents(g, pid, id, |rows| + 1, |rows| + 1, at));
    LeaveKeepsSeats(config, g, pid, id, |rows| + 1, |rows| + 1, at);
    TotalUpdate(balances, user, balances[user] + g.players[pid].stack);
  }

  lemma LeaveNumbers(g: Game, pid: PlayerId, id: Option<nat>, n: nat, at: Option<Time>)
    requires pid in g.players
    ensures Numbered(LeaveEvents(g, pid, id, n + 1, n + 1, at), n) && LeaveEvents(g, pid, id, n + 1, n + 1, at) != []
  {
  }

  lemma SeatedPlayer(config: Config, rows: Rows, user: UserId, pid: PlayerId)
    requires StoreOk(config, rows) && SeatedAs(LoadedState(config, rows), user, pid)
    ensures pid in LoadedState(config, rows).players
  {
    hide Replay, ReduceAll;
  }

  /** Fold first when a hand is on, then leave with the stack. */
  method BuildLeave(g: Game, pid: PlayerId, commandId: Option<nat>, latestSeq: nat, at: Option<Time>)
    returns (evts: seq<GameEvent>)
    requires pid in g.players
    ensures evts == LeaveEvents(g, pid, commandId, latestSeq + 1, g.version + 1, at)
  {
    evts := [];
    var nextSeq, nextVersion := latestSeq + 1, g.version + 1;
    if g.hand.Some? && !g.players[pid].folded {
      evts := [GameEvent(nextSeq, nextVersion, at, commandId, PlayerFolded(pid))];
      nextSeq, nextVersion := nextSeq + 1, nextVersion + 1;
    }
    evts := evts + [GameEvent(nextSeq, nextVersion, at, commandId, PlayerLeft(pid, g.players[pid].stack))];
  }

  /** Lets a user leave. The events commit by themselves; the credit is a second commit, which can
      still fail — then the chips are gone from the table and in no wallet. */
  method LeaveTable(store: EventStore, wallets: Wallets, user: UserId, commandId: Option<nat>, at: Option<Time>,
                    others: seq<GameEvent>, creditFails: bool)
    returns (reply: Reply, ghost pid: PlayerId)
    requires StoreOk(store.config, store.rows) && Numbered(others, |store.rows|)
    modifies store`rows, wallets
    ensures Gapless(store.rows) && |store.rows| >= 1
    ensures var g := LoadedState(store.config, old(store.rows));
      && (reply.Done? ==>
           && others == [] && SeatedAs(g, user, pid) && pid in g.players && user in old(wallets.balances)
           && store.rows == Insert(old(store.rows),
               LeaveEvents(g, pid, commandId, |old(store.rows)| + 1, |old(store.rows)| + 1, at))
           && wallets.balances == CashedOut(old(wallets.balances), user, g.players[pid].stack))
      && (reply.Done? && g.players[pid].stack >= 0 ==>
           AllChips(wallets.balances, store.config, store.rows)
               == old(AllChips(wallets.balances, store.config, store.rows)))
      && (others == [] && !creditFails && CanLeave(g, old(store.rows), old(wallets.balances), user, commandId) ==>
          reply.Done?)
      && (!reply.Done? ==> wallets.balances == old(wallets.balances))
      && (!reply.Done? ==>
           || store.rows == old(store.rows) || store.rows == Insert(old(store.rows), others)
           || (pid in g.players && store.rows == Insert(old(store.rows),
               LeaveEvents(g, pid, commandId, |old(store.rows)| + 1, |old(store.rows)| + 1, at))))
  {
    hide ReduceAll, Reduce, Insert, SeatsOk, SeatedThroughout, Replay, AllChips, Fits, LogOf;
    hide DistinctSeats, LeaveEvents, StoreOk, Gapless;
    pid := 0;
    ghost var rows, before := store.rows, wallets.balances;
    LogSeats(store.config, store.rows);
    var answer := AnswerRepeated(store, wallets, user, commandId);
    if answer.Some? {
      return answer.value, pid;
    }
    var state, latestSeq := store.LoadState(500);
    LoadedVersion(store.config, rows);
    ghost var probe := [GameEvent(|rows| + 1, |rows| + 1, at, commandId, TableClosed)];
    RaceFacts(store.config, rows, others, probe);
    var went := store.AppendEvents(others);
    var g := state.Value();
    var seated := FindPlayerByUserID(g, user);
    if seated.None? {
      return Refused(NotAtTable), pid;
    }
    pid := seated.value;
    SeatedPlayer(store.config, rows, user, pid);
    var evts := BuildLeave(g, seated.value, commandId, latestSeq, at);
    LeaveNumbers(g, pid, commandId, |rows|, at);
    RaceFacts(store.config, rows, others, evts);
    Appended(store.config, rows, evts);
    var ok := store.AppendEvents(evts);
    if !ok {
      return Refused(ConcurrentWrite), pid;
    }
    if user in wallets.balances {
      LeaveBalances(store.config, rows, user, pid, commandId, at, before);
    }
    var cashOut := g.players[seated.value].stack;
    if cashOut > 0 {
      if creditFails {
        return Refused(NoWallet), pid;
      }
      var left := wallets.CreditUserBalance(user, cashOut);
      if left.None? {
        return Refused(NoWallet), pid;
      }
    } else if user !in wallets.balances {
      return Refused(NoWallet), pid;
    }
    reply := Done(latestSeq + |evts|, wallets.balances[user]);
  }
}
