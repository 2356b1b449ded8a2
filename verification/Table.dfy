/** The table: players, the hand in progress, the events of the log and what each event does. */
module Table {
  import opened Collections
  import opened Cards

  /** Players and users are opaque identifiers (UUIDs), here read as numbers. */
  type PlayerId = nat

  type UserId = nat

  type Time = int

  datatype Status = Waiting | Active | Paused | Finished | Closed

  datatype Phase = Preflop | Flop | Turn | River | Showdown

  datatype Config = Config(
    smallBlind: int, bigBlind: int, ante: int, bbAnte: int,
    minPlayersToStart: int, maxSeats: int, minBuyIn: int, maxBuyIn: int,
    rakeBps: int, rakeCap: int,
    actionTimeout: int,  // 0 = no deadline
    fixedLimit: bool, maxRaisesPerStreet: int, uncapHeadsUp: bool)

  datatype HoleCards = HoleCards(card1: Card, card2: Card)

  datatype Player = Player(
    seat: int, sittingOut: bool, stack: int,
    currentBet: int,  // this street
    committed: int,   // this hand
    folded: bool, allIn: bool, hole: Option<HoleCards>)

  datatype Pot = Pot(amount: int, eligible: seq<PlayerId>)

  datatype FlopCards = FlopCards(card1: Card, card2: Card, card3: Card)

  datatype Hand = Hand(
    handId: nat, dealer: PlayerId, smallBlind: PlayerId, bigBlind: PlayerId,
    phase: Phase, pot: int, rakeTaken: int,
    highest: int, lastRaise: int, minRaise: int, lastFullRaiseTo: int,
    closedFor: seq<PlayerId>, raisesThisStreet: int,
    acting: Option<PlayerId>, deadline: Option<Time>,
    flop: Option<FlopCards>, turn: Option<Card>, river: Option<Card>,
    pending: seq<PlayerId>, order: seq<PlayerId>,
    sidePots: seq<Pot>, startedAt: Option<Time>)

  datatype Game = Game(
    version: int, status: Status, config: Config,
    dealerSeat: int, handNumber: int,
    players: map<PlayerId, Player>, userIds: map<PlayerId, UserId>,
    reservedSeats: seq<int>, hand: Option<Hand>)

  datatype Event =
    | TableCreated(config: Config)
    | TableClosed
    | TablePaused
    | TableResumed
    | PlayerJoined(player: PlayerId, user: UserId, seat: int, buyIn: int)
    | PlayerLeft(player: PlayerId, cashOut: int)
    | PlayerSatOut(player: PlayerId)
    | PlayerSatIn(player: PlayerId)
    | HandStarted(handId: nat, newHandNumber: int, dealer: PlayerId, sb: PlayerId, bb: PlayerId, bigBlindAmount: int)
    | AntePosted(player: PlayerId, amount: int)
    | BlindPosted(player: PlayerId, amount: int, isBigBlind: bool)
    | HoleCardsDealt(player: PlayerId)
    | HoleCardsRevealed(player: PlayerId, cards: HoleCards)
    | FlopDealt(flop: FlopCards)
    | TurnDealt(card: Card)
    | RiverDealt(card: Card)
    | PlayerFolded(player: PlayerId)
    | PlayerChecked(player: PlayerId)
    | PlayerCalled(player: PlayerId, amount: int)
    | PlayerBet(player: PlayerId, amount: int)
    | PlayerRaised(player: PlayerId, to: int, raiseBy: int)
    | PlayerAllIn(player: PlayerId, total: int)
    | ActionStarted(player: PlayerId, deadline: Option<Time>)
    | PlayerTimedOut(player: PlayerId)
    | BettingRoundEnded
    | SidePotCreated(pot: Pot)
    | ShowdownReached(players: seq<PlayerId>)
    | RakeTaken(amount: int)
    | PotAwarded(amount: int, winners: seq<PlayerId>)
    | HandEnded(newHandNumber: int)
    | CommandRejected

  /** An event as the log holds it. Before stamping, sequence and stateVersion are 0. */
  datatype GameEvent = GameEvent(
    sequence: nat, stateVersion: int, occurredAt: Option<Time>, commandId: Option<nat>, event: Event)

  function Bare(e: Event): GameEvent
  {
    GameEvent(0, 0, None, None, e)
  }

  // ── Seating order ─────────────────────────────────────────────────────────

  /** Everyone sitting in with chips. */
  function ActiveIds(players: map<PlayerId, Player>): set<PlayerId>
  {
    set p | p in players && !players[p].sittingOut && players[p].stack > 0
  }

  function SeatOf(players: map<PlayerId, Player>): PlayerId -> int
  {
    p => if p in players then players[p].seat else 0
  }

  ghost predicate InSeatOrder(players: map<PlayerId, Player>, ids: set<PlayerId>, s: seq<PlayerId>)
  {
    Distinct(s) && Elems(s) == ids && Ascending(Keys(s, SeatOf(players)))
  }

  /** The given players by seat; which of two players on one seat comes first is left open. */
  ghost function BySeat(players: map<PlayerId, Player>, ids: set<PlayerId>): (s: seq<PlayerId>)
    ensures InSeatOrder(players, ids, s)
  {
    SeatOrderExists(players, ids);
    var s :| InSeatOrder(players, ids, s);
    s
  }

  lemma SeatOrderExists(players: map<PlayerId, Player>, ids: set<PlayerId>)
    ensures exists s :: InSeatOrder(players, ids, s)
  {
    var visit := Enumerate(ids);
    var s := SortedBy(visit, SeatOf(players));
    SameElemsDistinct(visit, s);
    assert forall p :: p in s <==> p in multiset(visit);
    assert InSeatOrder(players, ids, s);
  }

  lemma {:induction false} Enumerate<T>(ids: set<T>) returns (s: seq<T>)
    ensures Distinct(s) && Elems(s) == ids
  {
    if ids == {} {
      s := [];
      assert Elems(s) == ids;
    } else {
      var x :| x in ids;
      var rest := Enumerate(ids - {x});
      s := rest + [x];
      assert forall y | y in rest :: y in Elems(rest);
      assert Elems(s) == Elems(rest) + {x};
    }
  }

  function RotateFrom(ids: seq<PlayerId>, start: nat): seq<PlayerId>
    requires start <= |ids|
  {
    ids[start..] + ids[..start]
  }

  /** Starts with the player after target; unchanged when target is not among ids. */
  function RotateAfter(ids: seq<PlayerId>, target: PlayerId): seq<PlayerId>
  {
    if target in ids then RotateFrom(ids, (IndexOf(ids, target) + 1) % |ids|) else ids
  }

  /** From the player after the big blind round to the big blind. */
  ghost function PreflopOrder(players: map<PlayerId, Player>, dealer: PlayerId, bb: PlayerId): seq<PlayerId>
  {
    var seated := BySeat(players, ActiveIds(players));
    if bb in seated then RotateAfter(seated, bb) else RotateAfter(seated, dealer)
  }

  /** From the player after the dealer round to the dealer. */
  ghost function PostflopOrder(players: map<PlayerId, Player>, dealer: PlayerId): seq<PlayerId>
  {
    RotateAfter(BySeat(players, ActiveIds(players)), dealer)
  }

  /** Who may still bet: neither folded nor flagged all-in. */
  function BettingIds(players: map<PlayerId, Player>): set<PlayerId>
  {
    set p | p in players && !players[p].folded && !players[p].allIn
  }

  function OthersInOrder(players: map<PlayerId, Player>, order: seq<PlayerId>, except: PlayerId): seq<PlayerId>
  {
    Select(order, BettingIds(players) - {except})
  }

  function Without(s: seq<PlayerId>, p: PlayerId): seq<PlayerId>
  {
    Select(s, Elems(s) - {p})
  }

  lemma WithoutElems(s: seq<PlayerId>, p: PlayerId)
    ensures forall q :: q in Without(s, p) <==> q in s && q != p
  {
    SelectElems(s, Elems(s) - {p});
  }

  // ── The reducer ───────────────────────────────────────────────────────────

  /** Chips from a player's stack into the pot; counted as bet unless it is an ante. */
  function Pay(g: Game, pid: PlayerId, amount: int, bet: bool): Game
    requires pid in g.players && g.hand.Some?
  {
    var p := g.players[pid];
    var h := g.hand.value;
    g.(players := g.players[pid := p.(stack := p.stack - amount, committed := p.committed + amount,
                                      currentBet := if bet then p.currentBet + amount else p.currentBet)],
       hand := Some(h.(pot := h.pot + amount)))
  }

  function WithHand(g: Game, h: Hand): Game
  {
    g.(hand := Some(h))
  }

  function ForNewHand(p: Player): Player
  {
    p.(folded := false, allIn := false, currentBet := 0, committed := 0, hole := None)
  }

  function MapPlayers(players: map<PlayerId, Player>, f: Player -> Player): (r: map<PlayerId, Player>)
    ensures r.Keys == players.Keys
    ensures forall p | p in players :: r[p] == f(players[p])
  {
    map p | p in players :: f(players[p])
  }

  function NoBet(): Player -> Player
  {
    (p: Player) => p.(currentBet := 0)
  }

  function FreshHand(): Player -> Player
  {
    (p: Player) => ForNewHand(p)
  }

  /** A new street: bets cleared, and everyone sitting in with chips is asked to act. */
  ghost function StreetReset(g: Game, h: Hand): Game
  {
    var players := MapPlayers(g.players, NoBet());
    var order := PostflopOrder(players, h.dealer);
    g.(players := players,
       hand := Some(h.(highest := 0, lastRaise := 0, minRaise := g.config.bigBlind, lastFullRaiseTo := 0,
                       closedFor := [], raisesThisStreet := 0, acting := None,
                       order := order, pending := order)))
  }

  /** Go's integer division truncates toward zero. */
  function Quotient(a: int, n: nat): int
    requires n > 0
  {
    if a >= 0 then a / n else -((-a) / n)
  }

  function Remainder(a: int, n: nat): int
    requires n > 0
  {
    a - n * Quotient(a, n)
  }

  /** After paying the first k winners their share; the first one also gets the remainder. */
  function Paid(players: map<PlayerId, Player>, winners: seq<PlayerId>, amount: int, k: nat): (r: map<PlayerId, Player>)
    requires k <= |winners|
    ensures r.Keys == players.Keys
  {
    if k == 0 then players else
      var before := Paid(players, winners, amount, k - 1);
      var pid := winners[k - 1];
      if pid !in before then before else
        var award := Quotient(amount, |winners|) + if k == 1 then Remainder(amount, |winners|) else 0;
        before[pid := before[pid].(stack := before[pid].stack + award)]
  }

  function OnPlayer(g: Game, pid: PlayerId, f: Player -> Player): Game
  {
    if pid in g.players then g.(players := g.players[pid := f(g.players[pid])]) else g
  }

  function StartHand(g: Game, players: map<PlayerId, Player>, e: Event, order: seq<PlayerId>, at: Option<Time>): Game
    requires e.HandStarted?
  {
    g.(players := players,
       hand := Some(Hand(e.handId, e.dealer, e.sb, e.bb, Preflop, 0, 0, 0, 0, e.bigBlindAmount, 0, [], 0,
                         None, None, None, None, None, order, order, [], at)),
       status := Active,
       dealerSeat := if e.dealer in players then players[e.dealer].seat else g.dealerSeat)
  }

  function Post(g: Game, e: Event): Game
    requires e.BlindPosted? && e.player in g.players && g.hand.Some?
  {
    var paid := Pay(g, e.player, e.amount, true);
    var h := paid.hand.value;
    var bet := paid.players[e.player].currentBet;
    var h1 := if bet > h.highest then h.(highest := bet) else h;
    WithHand(paid, if e.isBigBlind then h1.(minRaise := e.amount, lastRaise := e.amount) else h1)
  }

  function ActedOn(h: Hand, pid: PlayerId): Hand
  {
    h.(pending := Without(h.pending, pid), acting := None)
  }

  function Call(g: Game, pid: PlayerId, amount: int): Game
    requires pid in g.players && g.hand.Some?
  {
    var paid := Pay(g, pid, amount, true);
    var p := paid.players[pid];
    paid.(players := paid.players[pid := p.(allIn := p.allIn || p.stack == 0)],
          hand := Some(ActedOn(paid.hand.value, pid)))
  }

  function Bet(g: Game, pid: PlayerId, total: int): Game
    requires pid in g.players && g.hand.Some?
  {
    var paid := Pay(g, pid, total - g.players[pid].currentBet, true);
    var h := paid.hand.value;
    var raiseBy := total - h.highest;
    WithHand(paid, h.(highest := total, lastRaise := raiseBy, minRaise := raiseBy, lastFullRaiseTo := total,
                      closedFor := [], raisesThisStreet := h.raisesThisStreet + 1,
                      pending := OthersInOrder(paid.players, h.order, pid), acting := None))
  }

  function Raise(g: Game, pid: PlayerId, to: int, raiseBy: int): Game
    requires pid in g.players && g.hand.Some?
  {
    var paid := Pay(g, pid, to - g.players[pid].currentBet, true);
    var p := paid.players[pid];
    var players := paid.players[pid := p.(allIn := p.allIn || p.stack == 0)];
    var h := paid.hand.value;
    paid.(players := players,
          hand := Some(h.(highest := to, lastRaise := raiseBy, minRaise := raiseBy, lastFullRaiseTo := to,
                          closedFor := [], raisesThisStreet := h.raisesThisStreet + 1,
                          pending := OthersInOrder(players, h.order, pid), acting := None)))
  }

  /** An all-in for more than the highest bet asks the others again; a raise smaller than the last one
      leaves those who had already acted without the right to raise. */
  function AllInHand(players: map<PlayerId, Player>, h: Hand, pid: PlayerId, total: int): Hand
  {
    if total <= h.highest then ActedOn(h, pid) else
      var raiseBy := total - h.highest;
      var others := OthersInOrder(players, h.order, pid);
      var raised := h.(highest := total, lastRaise := raiseBy, minRaise := raiseBy,
                       raisesThisStreet := h.raisesThisStreet + 1, pending := others, acting := None);
      if h.lastRaise == 0 || raiseBy >= h.lastRaise then raised.(lastFullRaiseTo := total, closedFor := [])
      else raised.(closedFor := Select(others, Elems(others) - Elems(h.pending)))
  }

  function AllIn(g: Game, pid: PlayerId, total: int): Game
    requires pid in g.players && g.hand.Some?
  {
    var paid := Pay(g, pid, total - g.players[pid].currentBet, true);
    var players := paid.players[pid := paid.players[pid].(stack := 0, allIn := true)];
    paid.(players := players, hand := Some(AllInHand(players, paid.hand.value, pid, total)))
  }

  function EndRound(g: Game): Game
    requires g.hand.Some?
  {
    g.(players := MapPlayers(g.players, NoBet()),
       hand := Some(g.hand.value.(highest := 0, lastRaise := 0, lastFullRaiseTo := 0, closedFor := [],
                                  raisesThisStreet := 0, acting := None, pending := [])))
  }

  function Award(g: Game, amount: int, winners: seq<PlayerId>): Game
  {
    if winners == [] then g else
      var paid := g.(players := Paid(g.players, winners, amount, |winners|));
      if paid.hand.None? then paid else
        paid.(hand := Some(paid.hand.value.(pot := paid.hand.value.pot - amount)))
  }

  /** What an event does to the state, apart from the version. */
  ghost function Effect(g: Game, e: Event, at: Option<Time>): Game
  {
    match e
    case TableCreated(config) => g.(config := config, status := Waiting)
    case TableClosed => g.(status := Closed)
    case TablePaused => g.(status := Paused)
    case TableResumed => g.(status := if g.hand.Some? then Active else Waiting)
    case PlayerJoined(pid, user, seat, buyIn) =>
      g.(players := g.players[pid := Player(seat, false, buyIn, 0, 0, false, false, None)],
         userIds := g.userIds[pid := user],
         reservedSeats := Select(g.reservedSeats, Elems(g.reservedSeats) - {seat}))
    case PlayerLeft(pid, _) => g.(players := g.players - {pid}, userIds := g.userIds - {pid})
    case PlayerSatOut(pid) => OnPlayer(g, pid, (p: Player) => p.(sittingOut := true))
    case PlayerSatIn(pid) => OnPlayer(g, pid, (p: Player) => p.(sittingOut := false))
    case HandStarted(_, _, dealer, _, bb, _) =>
      var players := MapPlayers(g.players, FreshHand());
      StartHand(g, players, e, PreflopOrder(players, dealer, bb), at)
    case AntePosted(pid, amount) => if g.hand.None? || pid !in g.players then g else Pay(g, pid, amount, false)
    case BlindPosted(pid, _, _) => if g.hand.None? || pid !in g.players then g else Post(g, e)
    case HoleCardsDealt(_) => g
    case HoleCardsRevealed(pid, cards) => OnPlayer(g, pid, (p: Player) => p.(hole := Some(cards)))
    case FlopDealt(flop) =>
      if g.hand.None? then g else StreetReset(g, g.hand.value.(flop := Some(flop), phase := Flop))
    case TurnDealt(card) =>
      if g.hand.None? then g else StreetReset(g, g.hand.value.(turn := Some(card), phase := Turn))
    case RiverDealt(card) =>
      if g.hand.None? then g else StreetReset(g, g.hand.value.(river := Some(card), phase := River))
    case PlayerFolded(pid) =>
      var folded := OnPlayer(g, pid, (p: Player) => p.(folded := true));
      if folded.hand.None? then folded else WithHand(folded, ActedOn(folded.hand.value, pid))
    case PlayerChecked(pid) => if g.hand.None? then g else WithHand(g, ActedOn(g.hand.value, pid))
    case PlayerCalled(pid, amount) => if g.hand.None? || pid !in g.players then g else Call(g, pid, amount)
    case PlayerBet(pid, amount) => if g.hand.None? || pid !in g.players then g else Bet(g, pid, amount)
    case PlayerRaised(pid, to, raiseBy) => if g.hand.None? || pid !in g.players then g else Raise(g, pid, to, raiseBy)
    case PlayerAllIn(pid, total) => if g.hand.None? || pid !in g.players then g else AllIn(g, pid, total)
    case ActionStarted(pid, deadline) =>
      if g.hand.None? then g else WithHand(g, g.hand.value.(acting := Some(pid), deadline := deadline))
    case PlayerTimedOut(_) => g
    case BettingRoundEnded => if g.hand.None? then g else EndRound(g)
    case SidePotCreated(pot) =>
      if g.hand.None? then g else WithHand(g, g.hand.value.(sidePots := g.hand.value.sidePots + [pot]))
    case ShowdownReached(_) => if g.hand.None? then g else WithHand(g, g.hand.value.(phase := Showdown))
    case RakeTaken(amount) =>
      if g.hand.None? then g else
        WithHand(g, g.hand.value.(rakeTaken := g.hand.value.rakeTaken + amount, pot := g.hand.value.pot - amount))
    case PotAwarded(amount, winners) => Award(g, amount, winners)
    case HandEnded(n) =>
      g.(handNumber := n, hand := None, status := if g.status == Active then Waiting else g.status)
    case CommandRejected => g
  }

  /** A stamped event carries the version it leads to; an unstamped one counts up. */
  ghost function Reduce(g: Game, e: GameEvent): Game
  {
    Effect(g, e.event, e.occurredAt).(version := if e.stateVersion > 0 then e.stateVersion else g.version + 1)
  }

  ghost function ReduceAll(g: Game, events: seq<GameEvent>): Game
  {
    if events == [] then g else Reduce(ReduceAll(g, events[..|events| - 1]), events[|events| - 1])
  }

  /** The effect of events that have not been stamped yet, apart from the version. */
  ghost function Play(g: Game, events: seq<Event>): Game
  {
    if events == [] then g else Effect(Play(g, events[..|events| - 1]), events[|events| - 1], None)
  }

  lemma {:induction false} PlayConcat(g: Game, a: seq<Event>, b: seq<Event>)
    ensures Play(g, a + b) == Play(Play(g, a), b)
  {
    if b == [] {
      assert a + b == a;
    } else {
      assert (a + b)[..|a + b| - 1] == a + b[..|b| - 1];
      PlayConcat(g, a, b[..|b| - 1]);
    }
  }
}
