/** The reducer as it runs: the state is cloned, then updated field by field. */
module Reducer {
  import opened Collections
  import opened Cards
  import opened Table
  import opened Seating

  // ── Seats decide the order ────────────────────────────────────────────────

  lemma {:induction false} OnceEach<T>(s: seq<T>, x: T)
    requires Distinct(s)
    ensures multiset(s)[x] == if x in s then 1 else 0
  {
    if s != [] {
      OnceEach(s[..|s| - 1], x);
      LastBack(s);
      assert s[|s| - 1] !in s[..|s| - 1];
    }
  }

  lemma SameElemsSameBag<T>(a: seq<T>, b: seq<T>)
    requires Distinct(a) && Distinct(b) && Elems(a) == Elems(b)
    ensures multiset(a) == multiset(b)
  {
    forall x ensures multiset(a)[x] == multiset(b)[x] {
      OnceEach(a, x);
      OnceEach(b, x);
      assert x in a <==> x in Elems(a);
      assert x in b <==> x in Elems(b);
    }
  }

  /** With distinct seats there is only one seat order. */
  lemma SeatOrderUnique(players: map<PlayerId, Player>, ids: set<PlayerId>, s: seq<PlayerId>)
    requires DistinctSeats(players) && ids <= players.Keys && InSeatOrder(players, ids, s)
    ensures s == BySeat(players, ids)
  {
    var t := BySeat(players, ids);
    SameElemsSameBag(s, t);
    forall x, y | x in s && y in t && SeatOf(players)(x) == SeatOf(players)(y) ensures x == y {
      assert x in Elems(s) && y in Elems(t);
    }
    ArrangementUnique(s, t, SeatOf(players));
  }

  // ── List helpers ──────────────────────────────────────────────────────────

  method RemoveId(s: seq<PlayerId>, v: PlayerId) returns (out: seq<PlayerId>)
    ensures out == Without(s, v)
  {
    out := [];
    for i := 0 to |s|
      invariant out == Select(s[..i], Elems(s) - {v})
    {
      assert s[..i + 1][..i] == s[..i];
      if s[i] != v {
        out := out + [s[i]];
      }
    }
    assert s[..|s|] == s;
  }

  method RemoveSeat(s: seq<int>, v: int) returns (out: seq<int>)
    ensures out == Select(s, Elems(s) - {v})
  {
    out := [];
    for i := 0 to |s|
      invariant out == Select(s[..i], Elems(s) - {v})
    {
      assert s[..i + 1][..i] == s[..i];
      if s[i] != v {
        out := out + [s[i]];
      }
    }
    assert s[..|s|] == s;
  }

  /** Fills a new list starting from position start, wrapping around. */
  method Rotate(ids: seq<PlayerId>, start: nat) returns (out: seq<PlayerId>)
    ensures out == if ids == [] then [] else RotateFrom(ids, start % |ids|)
  {
    out := [];
    for i := 0 to |ids|
      invariant |out| == i && forall k | 0 <= k < i :: out[k] == RotateFrom(ids, start % |ids|)[k]
    {
      WrapAround(|ids|, start, i);
      out := out + [ids[(start + i) % |ids|]];
    }
  }

  lemma RemainderIs(x: nat, n: nat, turns: nat, r: nat)
    requires r < n && x == turns * n + r
    ensures x % n == r
  {
    var d := x / n - turns;
    assert d * n == r - x % n;
  }

  lemma NextFits(at: nat, n: nat)
    requires at < n
    ensures (at + 1) % n < n && (at + 1) % n % n == (at + 1) % n
  {
    var r := (at + 1) % n;
    RemainderIs(r, n, 0, r);
  }

  lemma WrapAround(n: nat, start: nat, i: nat)
    requires i < n
    ensures var s := start % n; (start + i) % n == if s + i < n then s + i else s + i - n
  {
    var s, turns := start % n, start / n;
    if s + i < n {
      RemainderIs(start + i, n, turns, s + i);
    } else {
      assert (turns + 1) * n == turns * n + n;
      RemainderIs(start + i, n, turns + 1, s + i - n);
    }
  }

  /** out is ids from the one after position k round to it. */
  ghost predicate Turned(ids: seq<PlayerId>, k: nat, out: seq<PlayerId>)
  {
    |out| == |ids| && forall i | 0 <= i < |ids| :: out[i] == ids[(k + 1 + i) % |ids|]
  }

  /** out is ids from the one after target round to target. */
  ghost predicate EndsWith(ids: seq<PlayerId>, target: PlayerId, out: seq<PlayerId>)
  {
    exists k :: 0 <= k < |ids| && ids[k] == target && Turned(ids, k, out)
  }

  lemma SmallRemainder(x: nat, n: nat)
    requires x < 2 * n
    ensures x % n == if x < n then x else x - n
  {
    if x >= n {
      RemainderIs(x, n, 1, x - n);
    } else {
      RemainderIs(x, n, 0, x);
    }
  }

  lemma TurnAt(ids: seq<PlayerId>, k: nat)
    requires k < |ids|
    ensures (k + 1) % |ids| < |ids| && Turned(ids, k, RotateFrom(ids, (k + 1) % |ids|))
    ensures RotateFrom(ids, (k + 1) % |ids|)[|ids| - 1] == ids[k]
  {
    var n := |ids|;
    SmallRemainder(k + 1, n);
    var start := (k + 1) % n;
    var out := RotateFrom(ids, start);
    forall i | 0 <= i < n ensures out[i] == ids[(k + 1 + i) % n] {
      SmallRemainder(k + 1 + i, n);
    }
  }

  lemma RotatedAfter(ids: seq<PlayerId>, target: PlayerId)
    requires Distinct(ids) && target in ids
    ensures EndsWith(ids, target, RotateAfter(ids, target))
    ensures |RotateAfter(ids, target)| == |ids| > 0 && RotateAfter(ids, target)[|ids| - 1] == target
  {
    hide RotateFrom, Turned, Distinct;
    TurnAt(ids, IndexOf(ids, target));
    TurnedLength(ids, IndexOf(ids, target), RotateAfter(ids, target));
  }

  lemma TurnedLength(ids: seq<PlayerId>, k: nat, out: seq<PlayerId>)
    requires Turned(ids, k, out)
    ensures |out| == |ids|
  {
  }

  /** Where target first occurs, or -1. */
  method Find(ids: seq<PlayerId>, target: PlayerId) returns (at: int)
    requires Distinct(ids)
    ensures at == if target in ids then IndexOf(ids, target) else -1
  {
    for i := 0 to |ids|
      invariant target !in ids[..i]
    {
      if ids[i] == target {
        return i;
      }
      assert ids[..i + 1] == ids[..i] + [ids[i]];
    }
    assert ids[..|ids|] == ids;
    at := -1;
  }

  method RotatePast(ids: seq<PlayerId>, target: PlayerId) returns (out: seq<PlayerId>)
    requires Distinct(ids)
    ensures out == RotateAfter(ids, target)
    ensures if target in ids then EndsWith(ids, target, out) && out[|out| - 1] == target else out == ids
  {
    hide IndexOf, RotateFrom, Distinct, EndsWith, Turned;
    var at := Find(ids, target);
    if at < 0 {
      return ids;
    }
    RotatedAfter(ids, target);
    NextFits(at, |ids|);
    out := Rotate(ids, (at + 1) % |ids|);
  }

  /** Who belongs on a new street, by seat. */
  method SeatedActive(players: map<PlayerId, Player>) returns (out: seq<PlayerId>)
    ensures InSeatOrder(players, ActiveIds(players), out)
    ensures DistinctSeats(players) ==> out == BySeat(players, ActiveIds(players))
  {
    out := [];
    var rest := players.Keys;
    while rest != {}
      invariant rest <= players.Keys && Distinct(out) && Elems(out) == ActiveIds(players) - rest
      decreases |rest|
    {
      var p :| p in rest;
      assert p !in Elems(out);
      rest := rest - {p};
      if !players[p].sittingOut && players[p].stack > 0 {
        assert Elems(out + [p]) == Elems(out) + {p};
        out := out + [p];
      }
    }
    var sorted := SortBy(out, SeatOf(players));
    SameElemsDistinct(out, sorted);
    assert forall p :: p in sorted <==> p in multiset(out);
    assert Elems(sorted) == Elems(out);
    if DistinctSeats(players) {
      SeatOrderUnique(players, ActiveIds(players), sorted);
    }
    out := sorted;
  }

  lemma OrderIsDistinct(players: map<PlayerId, Player>, seated: seq<PlayerId>)
    requires InSeatOrder(players, ActiveIds(players), seated)
    ensures Distinct(seated)
  {
  }

  /** From some seat order of the active players; the sort is unstable when seats are shared. */
  method OrderPreflop(players: map<PlayerId, Player>, dealer: PlayerId, bb: PlayerId)
    returns (out: seq<PlayerId>, ghost seated: seq<PlayerId>)
    ensures InSeatOrder(players, ActiveIds(players), seated)
    ensures bb in seated ==> EndsWith(seated, bb, out) && out[|out| - 1] == bb
    ensures bb !in seated && dealer in seated ==> EndsWith(seated, dealer, out) && out[|out| - 1] == dealer
    ensures bb !in seated && dealer !in seated ==> out == seated
    ensures DistinctSeats(players) ==> out == PreflopOrder(players, dealer, bb)
  {
    hide BySeat, InSeatOrder, IndexOf, RotateFrom, Distinct, EndsWith, Turned;
    var active := SeatedActive(players);
    seated := active;
    OrderIsDistinct(players, seated);
    var at := Find(active, bb);
    if at < 0 {
      out := RotatePast(active, dealer);
    } else {
      NextFits(at, |active|);
      RotatedAfter(active, bb);
      out := Rotate(active, (at + 1) % |active|);
    }
  }

  // ── Each event's effect, one by one ───────────────────────────────────────

  lemma AnteEffect(g: Game, pid: PlayerId, amount: int, at: Option<Time>)
    ensures Effect(g, AntePosted(pid, amount), at)
         == if g.hand.None? || pid !in g.players then g else Pay(g, pid, amount, false)
  {
  }

  lemma BlindEffect(g: Game, pid: PlayerId, amount: int, isBigBlind: bool, at: Option<Time>)
    ensures Effect(g, BlindPosted(pid, amount, isBigBlind), at)
         == if g.hand.None? || pid !in g.players then g else Post(g, BlindPosted(pid, amount, isBigBlind))
  {
  }

  lemma CallEffect(g: Game, pid: PlayerId, amount: int, at: Option<Time>)
    ensures Effect(g, PlayerCalled(pid, amount), at)
         == if g.hand.None? || pid !in g.players then g else Call(g, pid, amount)
  {
  }

  lemma BetEffect(g: Game, pid: PlayerId, amount: int, at: Option<Time>)
    ensures Effect(g, PlayerBet(pid, amount), at)
         == if g.hand.None? || pid !in g.players then g else Bet(g, pid, amount)
  {
  }

  lemma RaiseEffect(g: Game, pid: PlayerId, to: int, raiseBy: int, at: Option<Time>)
    ensures Effect(g, PlayerRaised(pid, to, raiseBy), at)
         == if g.hand.None? || pid !in g.players then g else Raise(g, pid, to, raiseBy)
  {
  }

  lemma AllInEffect(g: Game, pid: PlayerId, total: int, at: Option<Time>)
    ensures Effect(g, PlayerAllIn(pid, total), at)
         == if g.hand.None? || pid !in g.players then g else AllIn(g, pid, total)
  {
  }

  lemma AwardEffect(g: Game, amount: int, winners: seq<PlayerId>, at: Option<Time>)
    ensures Effect(g, PotAwarded(amount, winners), at) == Award(g, amount, winners)
  {
  }

  lemma TurnEffect(g: Game, pid: PlayerId, deadline: Option<Time>, at: Option<Time>)
    ensures Effect(g, ActionStarted(pid, deadline), at)
         == if g.hand.None? then g else WithHand(g, g.hand.value.(acting := Some(pid), deadline := deadline))
  {
  }

  lemma SidePotEffect(g: Game, pot: Pot, at: Option<Time>)
    ensures Effect(g, SidePotCreated(pot), at)
         == if g.hand.None? then g else WithHand(g, g.hand.value.(sidePots := g.hand.value.sidePots + [pot]))
  {
  }

  lemma ShowdownEffect(g: Game, ids: seq<PlayerId>, at: Option<Time>)
    ensures Effect(g, ShowdownReached(ids), at)
         == if g.hand.None? then g else WithHand(g, g.hand.value.(phase := Phase.Showdown))
  {
  }

  lemma RakeEffect(g: Game, amount: int, at: Option<Time>)
    ensures Effect(g, RakeTaken(amount), at)
         == if g.hand.None? then g else
              WithHand(g, g.hand.value.(rakeTaken := g.hand.value.rakeTaken + amount, pot := g.hand.value.pot - amount))
  {
  }

  lemma OthersExclude(players: map<PlayerId, Player>, order: seq<PlayerId>, except: PlayerId)
    ensures except !in OthersInOrder(players, order, except)
  {
    SelectElems(order, BettingIds(players) - {except});
  }

  lemma LastWriteWins<K, V>(m: map<K, V>, k: K, a: V, b: V)
    ensures m[k := a][k := b] == m[k := b]
  {
  }

  // ── The state ─────────────────────────────────────────────────────────────

  class TableState {
    var version: int
    var status: Status
    var config: Config
    var dealerSeat: int
    var handNumber: int
    var players: map<PlayerId, Player>
    var userIds: map<PlayerId, UserId>
    var reservedSeats: seq<int>
    var hand: Option<Hand>

    function Value(): Game
      reads this
    {
      Game(version, status, config, dealerSeat, handNumber, players, userIds, reservedSeats, hand)
    }

    constructor (g: Game)
      ensures Value() == g
    {
      version, status, config, dealerSeat, handNumber := g.version, g.status, g.config, g.dealerSeat, g.handNumber;
      players, userIds, reservedSeats, hand := g.players, g.userIds, g.reservedSeats, g.hand;
    }

    // ── Every player in turn ──────────────────────────────────────────────

    method ClearBets()
      modifies this
      ensures Value() == old(Value()).(players := MapPlayers(old(players), NoBet()))
    {
      var rest := players.Keys;
      ghost var was := players;
      while rest != {}
        invariant rest <= was.Keys && players.Keys == was.Keys
        invariant forall p | p in was :: players[p] == if p in rest then was[p] else was[p].(currentBet := 0)
        invariant Value() == old(Value()).(players := players)
        decreases |rest|
      {
        var p :| p in rest;
        rest := rest - {p};
        players := players[p := players[p].(currentBet := 0)];
      }
      assert players == MapPlayers(was, NoBet());
    }

    method ClearHands()
      modifies this
      ensures Value() == old(Value()).(players := MapPlayers(old(players), FreshHand()))
    {
      var rest := players.Keys;
      ghost var was := players;
      while rest != {}
        invariant rest <= was.Keys && players.Keys == was.Keys
        invariant forall p | p in was :: players[p] == if p in rest then was[p] else ForNewHand(was[p])
        invariant Value() == old(Value()).(players := players)
        decreases |rest|
      {
        var p :| p in rest;
        rest := rest - {p};
        var cleared := players[p].(folded := false, allIn := false);
        cleared := cleared.(currentBet := 0, committed := 0);
        cleared := cleared.(hole := None);
        players := players[p := cleared];
      }
      assert players == MapPlayers(was, FreshHand());
    }

    /** Everyone in the order who can still bet, except one. */
    method Others(except: PlayerId) returns (out: seq<PlayerId>)
      requires hand.Some?
      ensures out == OthersInOrder(players, hand.value.order, except)
    {
      out := [];
      var order := hand.value.order;
      ghost var keep := BettingIds(players) - {except};
      for i := 0 to |order|
        invariant out == Select(order[..i], keep)
      {
        assert order[..i + 1][..i] == order[..i];
        var pid := order[i];
        if pid == except {
          continue;
        }
        if pid !in players || players[pid].folded || players[pid].allIn {
          continue;
        }
        out := out + [pid];
      }
      assert order[..|order|] == order;
    }

    // ── Hands and streets ─────────────────────────────────────────────────

    method StartHand(e: Event, at: Option<Time>)
      requires e.HandStarted? && DistinctSeats(players)
      modifies this
      ensures Value() == Effect(old(Value()), e, at)
    {
      ClearHands();
      var order, seated := OrderPreflop(players, e.dealer, e.bb);
      hand := Some(Hand(e.handId, e.dealer, e.sb, e.bb, Phase.Preflop, 0, 0, 0, 0, e.bigBlindAmount, 0, [], 0,
                        None, None, None, None, None, order, order, [], at));
      status := Active;
      if e.dealer in players {
        dealerSeat := players[e.dealer].seat;
      }
    }

    /** Common to flop, turn and river, once the cards are on the board. */
    method ResetStreet()
      requires hand.Some? && DistinctSeats(players)
      modifies this
      ensures Value() == StreetReset(old(Value()), old(hand.value))
    {
      ClearBets();
      var h := hand.value;
      h := h.(highest := 0, lastRaise := 0);
      h := h.(minRaise := config.bigBlind);
      h := h.(lastFullRaiseTo := 0, closedFor := [], raisesThisStreet := 0, acting := None);
      var order := SeatedActive(players);
      order := RotatePast(order, h.dealer);
      h := h.(order := order);
      h := h.(pending := order);
      hand := Some(h);
    }

    method DealFlop(flop: FlopCards, at: Option<Time>)
      requires DistinctSeats(players)
      modifies this
      ensures Value() == Effect(old(Value()), FlopDealt(flop), at)
    {
      if hand.Some? {
        hand := Some(hand.value.(flop := Some(flop)));
        hand := Some(hand.value.(phase := Flop));
        ResetStreet();
      }
    }

    method DealTurn(card: Card, at: Option<Time>)
      requires DistinctSeats(players)
      modifies this
      ensures Value() == Effect(old(Value()), TurnDealt(card), at)
    {
      if hand.Some? {
        hand := Some(hand.value.(turn := Some(card)));
        hand := Some(hand.value.(phase := Turn));
        ResetStreet();
      }
    }

    method DealRiver(card: Card, at: Option<Time>)
      requires DistinctSeats(players)
      modifies this
      ensures Value() == Effect(old(Value()), RiverDealt(card), at)
    {
      if hand.Some? {
        hand := Some(hand.value.(river := Some(card)));
        hand := Some(hand.value.(phase := River));
        ResetStreet();
      }
    }

    method EndBettingRound(at: Option<Time>)
      modifies this
      ensures Value() == Effect(old(Value()), BettingRoundEnded, at)
    {
      if hand.Some? {
        ClearBets();
        var h := hand.value;
        h := h.(highest := 0, lastRaise := 0, lastFullRaiseTo := 0);
        h := h.(closedFor := [], raisesThisStreet := 0);
        h := h.(acting := None, pending := []);
        hand := Some(h);
      }
    }

    // ── Chips into the pot ────────────────────────────────────────────────

    method PostAnte(pid: PlayerId, amount: int, at: Option<Time>)
      modifies this
      ensures Value() == Effect(old(Value()), AntePosted(pid, amount), at)
    {
      hide Effect;
      AnteEffect(Value(), pid, amount, at);
      if hand.None? || pid !in players {
        return;
      }
      var p := players[pid];
      p := p.(stack := p.stack - amount);
      hand := Some(hand.value.(pot := hand.value.pot + amount));
      p := p.(committed := p.committed + amount);
      players := players[pid := p];
    }

    method PostBlind(pid: PlayerId, amount: int, isBigBlind: bool, at: Option<Time>)
      modifies this
      ensures Value() == Effect(old(Value()), BlindPosted(pid, amount, isBigBlind), at)
    {
      hide Effect;
      BlindEffect(Value(), pid, amount, isBigBlind, at);
      if hand.None? || pid !in players {
        return;
      }
      var p, h := players[pid], hand.value;
      p := p.(stack := p.stack - amount);
      h := h.(pot := h.pot + amount);
      p := p.(committed := p.committed + amount);
      p := p.(currentBet := p.currentBet + amount);
      if p.currentBet > h.highest {
        h := h.(highest := p.currentBet);
      }
      if isBigBlind {
        h := h.(minRaise := amount, lastRaise := amount);
      }
      players, hand := players[pid := p], Some(h);
    }

    // ── Actions ───────────────────────────────────────────────────────────

    /** The player has acted: off the list, and nobody's turn. */
    method Settle(pid: PlayerId)
      requires hand.Some?
      modifies this
      ensures Value() == old(Value()).(hand := Some(ActedOn(old(hand.value), pid)))
    {
      var pending := RemoveId(hand.value.pending, pid);
      hand := Some(hand.value.(pending := pending));
      hand := Some(hand.value.(acting := None));
    }

    method Fold(pid: PlayerId, at: Option<Time>)
      modifies this
      ensures Value() == Effect(old(Value()), PlayerFolded(pid), at)
    {
      if pid in players {
        players := players[pid := players[pid].(folded := true)];
      }
      if hand.Some? {
        Settle(pid);
      }
    }

    method Check(pid: PlayerId, at: Option<Time>)
      modifies this
      ensures Value() == Effect(old(Value()), PlayerChecked(pid), at)
    {
      if hand.Some? {
        Settle(pid);
      }
    }

    method CallWith(pid: PlayerId, amount: int, at: Option<Time>)
      modifies this
      ensures Value() == Effect(old(Value()), PlayerCalled(pid, amount), at)
    {
      hide Effect, Without;
      CallEffect(Value(), pid, amount, at);
      if hand.None? || pid !in players {
        return;
      }
      var p := players[pid];
      p := p.(stack := p.stack - amount);
      hand := Some(hand.value.(pot := hand.value.pot + amount));
      p := p.(currentBet := p.currentBet + amount);
      p := p.(committed := p.committed + amount);
      if p.stack == 0 {
        p := p.(allIn := true);
      }
      players := players[pid := p];
      Settle(pid);
    }

    method OpenWith(pid: PlayerId, total: int, at: Option<Time>)
      modifies this
      ensures Value() == Effect(old(Value()), PlayerBet(pid, total), at)
    {
      hide Effect;
      BetEffect(Value(), pid, total, at);
      if hand.None? || pid !in players {
        return;
      }
      var p, h := players[pid], hand.value;
      var delta := total - p.currentBet;
      p := p.(stack := p.stack - delta);
      h := h.(pot := h.pot + delta);
      p := p.(currentBet := total, committed := p.committed + delta);
      var raiseBy := total - h.highest;
      h := h.(highest := total, lastRaise := raiseBy, minRaise := raiseBy, lastFullRaiseTo := total);
      h := h.(closedFor := [], raisesThisStreet := h.raisesThisStreet + 1);
      players, hand := players[pid := p], Some(h);
      var others := Others(pid);
      hand := Some(hand.value.(pending := others, acting := None));
    }

    method RaiseWith(pid: PlayerId, to: int, raiseBy: int, at: Option<Time>)
      modifies this
      ensures Value() == Effect(old(Value()), PlayerRaised(pid, to, raiseBy), at)
    {
      hide Effect, OthersInOrder;
      RaiseEffect(Value(), pid, to, raiseBy, at);
      if hand.None? || pid !in players {
        return;
      }
      var p, h := players[pid], hand.value;
      var delta := to - p.currentBet;
      p := p.(stack := p.stack - delta);
      h := h.(pot := h.pot + delta);
      p := p.(currentBet := to, committed := p.committed + delta);
      if p.stack == 0 {
        p := p.(allIn := true);
      }
      h := h.(highest := to, lastRaise := raiseBy, minRaise := raiseBy, lastFullRaiseTo := to);
      h := h.(closedFor := [], raisesThisStreet := h.raisesThisStreet + 1);
      LastWriteWins(players, pid, Pay(Value(), pid, delta, true).players[pid], p);
      players, hand := players[pid := p], Some(h);
      var others := Others(pid);
      hand := Some(hand.value.(pending := others, acting := None));
    }

    /** Those of others who already acted: not pending any more. */
    method AlreadyActed(others: seq<PlayerId>, pending: seq<PlayerId>, actor: PlayerId) returns (closed: seq<PlayerId>)
      requires actor !in others
      ensures closed == Select(others, Elems(others) - Elems(pending))
    {
      var pendingSet := {};
      for i := 0 to |pending|
        invariant pendingSet == Elems(pending[..i]) - {actor}
      {
        assert pending[..i + 1] == pending[..i] + [pending[i]];
        if pending[i] != actor {
          pendingSet := pendingSet + {pending[i]};
        }
      }
      assert pending[..|pending|] == pending;
      closed := [];
      for i := 0 to |others|
        invariant closed == Select(others[..i], Elems(others) - Elems(pending))
      {
        assert others[..i + 1][..i] == others[..i];
        assert others[i] in others;
        if others[i] !in pendingSet {
          closed := closed + [others[i]];
        }
      }
      assert others[..|others|] == others;
    }

    method ShoveTo(pid: PlayerId, total: int, at: Option<Time>)
      modifies this
      ensures Value() == Effect(old(Value()), PlayerAllIn(pid, total), at)
    {
      hide Effect, AllInHand;
      AllInEffect(Value(), pid, total, at);
      if hand.None? || pid !in players {
        return;
      }
      var p, h := players[pid], hand.value;
      var delta := total - p.currentBet;
      p := p.(stack := 0);
      h := h.(pot := h.pot + delta);
      p := p.(currentBet := total, committed := p.committed + delta);
      p := p.(allIn := true);
      LastWriteWins(players, pid, Pay(Value(), pid, delta, true).players[pid], p);
      players, hand := players[pid := p], Some(h);
      h := Shoved(pid, total);
      hand := Some(h);
    }

    /** Whom an all-in asks again, and whom it leaves without the right to raise. */
    method Shoved(pid: PlayerId, total: int) returns (h: Hand)
      requires hand.Some?
      ensures h == AllInHand(players, hand.value, pid, total)
    {
      hide OthersInOrder, Without, Select;
      h := hand.value;
      if total > h.highest {
        var prevLastRaise := h.lastRaise;
        var raiseBy := total - h.highest;
        h := h.(highest := total, lastRaise := raiseBy, minRaise := raiseBy,
                raisesThisStreet := h.raisesThisStreet + 1);
        var others := Others(pid);
        OthersExclude(players, h.order, pid);
        if prevLastRaise == 0 || raiseBy >= prevLastRaise {
          h := h.(lastFullRaiseTo := total, closedFor := []);
        } else {
          var closed := AlreadyActed(others, h.pending, pid);
          h := h.(closedFor := closed);
        }
        h := h.(pending := others);
      } else {
        var pending := RemoveId(h.pending, pid);
        h := h.(pending := pending);
      }
      h := h.(acting := None);
    }

    // ── Chips out of the pot ──────────────────────────────────────────────

    method AwardPot(amount: int, winners: seq<PlayerId>, at: Option<Time>)
      modifies this
      ensures Value() == Effect(old(Value()), PotAwarded(amount, winners), at)
    {
      hide Effect;
      AwardEffect(Value(), amount, winners, at);
      if |winners| == 0 {
        return;
      }
      var share, remainder := Quotient(amount, |winners|), Remainder(amount, |winners|);
      for i := 0 to |winners|
        invariant players == Paid(old(players), winners, amount, i)
        invariant Value() == old(Value()).(players := players)
      {
        var pid := winners[i];
        if pid in players {
          var award := share;
          if i == 0 {
            award := award + remainder;
          }
          players := players[pid := players[pid].(stack := players[pid].stack + award)];
        }
      }
      if hand.Some? {
        hand := Some(hand.value.(pot := hand.value.pot - amount));
      }
    }

    // ── Everything else ───────────────────────────────────────────────────

    method Seat(pid: PlayerId, user: UserId, seat: int, buyIn: int, at: Option<Time>)
      modifies this
      ensures Value() == Effect(old(Value()), PlayerJoined(pid, user, seat, buyIn), at)
    {
      players := players[pid := Player(seat, false, buyIn, 0, 0, false, false, None)];
      userIds := userIds[pid := user];
      reservedSeats := RemoveSeat(reservedSeats, seat);
    }

    method EndHand(n: int, at: Option<Time>)
      modifies this
      ensures Value() == Effect(old(Value()), HandEnded(n), at)
    {
      handNumber := n;
      hand := None;
      if status == Active {
        status := Waiting;
      }
    }

    method GiveTurn(pid: PlayerId, deadline: Option<Time>, at: Option<Time>)
      modifies this
      ensures Value() == Effect(old(Value()), ActionStarted(pid, deadline), at)
    {
      hide Effect;
      TurnEffect(Value(), pid, deadline, at);
      if hand.Some? {
        var h := hand.value.(acting := Some(pid));
        h := h.(deadline := deadline);
        hand := Some(h);
      }
    }

    method AddSidePot(pot: Pot, at: Option<Time>)
      modifies this
      ensures Value() == Effect(old(Value()), SidePotCreated(pot), at)
    {
      hide Effect;
      SidePotEffect(Value(), pot, at);
      if hand.Some? {
        hand := Some(hand.value.(sidePots := hand.value.sidePots + [pot]));
      }
    }

    method ShowDown(ids: seq<PlayerId>, at: Option<Time>)
      modifies this
      ensures Value() == Effect(old(Value()), ShowdownReached(ids), at)
    {
      hide Effect;
      ShowdownEffect(Value(), ids, at);
      if hand.Some? {
        hand := Some(hand.value.(phase := Phase.Showdown));
      }
    }

    method Rake(amount: int, at: Option<Time>)
      modifies this
      ensures Value() == Effect(old(Value()), RakeTaken(amount), at)
    {
      hide Effect;
      RakeEffect(Value(), amount, at);
      if hand.Some? {
        var h := hand.value;
        h := h.(rakeTaken := h.rakeTaken + amount);
        h := h.(pot := h.pot - amount);
        hand := Some(h);
      }
    }

    /** A single field of one player. */
    method UpdatePlayer(e: Event, at: Option<Time>)
      requires e.PlayerSatOut? || e.PlayerSatIn? || e.HoleCardsRevealed?
      modifies this
      ensures Value() == Effect(old(Value()), e, at)
    {
      if e.player !in players {
        return;
      }
      var p := players[e.player];
      match e {
        case PlayerSatOut(_) => p := p.(sittingOut := true);
        case PlayerSatIn(_) => p := p.(sittingOut := false);
        case HoleCardsRevealed(_, cards) => p := p.(hole := Some(cards));
      }
      players := players[e.player := p];
    }

    /** A status change, a player removed, or nothing. */
    method UpdateTable(e: Event, at: Option<Time>)
      requires e.TableCreated? || e.TableClosed? || e.TablePaused? || e.TableResumed? || e.PlayerLeft?
            || e.HoleCardsDealt? || e.PlayerTimedOut? || e.CommandRejected?
      modifies this
      ensures Value() == Effect(old(Value()), e, at)
    {
      match e {
        case TableCreated(c) =>
          config := c;
          status := Waiting;
        case TableClosed =>
          status := Closed;
        case TablePaused =>
          status := Paused;
        case TableResumed =>
          status := if hand.Some? then Active else Waiting;
        case PlayerLeft(pid, _) =>
          players := players - {pid};
          userIds := userIds - {pid};
        case HoleCardsDealt(_) =>
        case PlayerTimedOut(_) =>
        case CommandRejected =>
      }
    }

    /** Dispatch on the event. */
    method Update(e: Event, at: Option<Time>)
      requires DistinctSeats(players)
      modifies this
      ensures Value() == Effect(old(Value()), e, at)
    {
      hide Effect;
      match e {
        case HandStarted(_, _, _, _, _, _) => StartHand(e, at);
        case FlopDealt(flop) => DealFlop(flop, at);
        case TurnDealt(card) => DealTurn(card, at);
        case RiverDealt(card) => DealRiver(card, at);
        case BettingRoundEnded => EndBettingRound(at);
        case AntePosted(pid, amount) => PostAnte(pid, amount, at);
        case BlindPosted(pid, amount, isBigBlind) => PostBlind(pid, amount, isBigBlind, at);
        case PlayerFolded(pid) => Fold(pid, at);
        case PlayerChecked(pid) => Check(pid, at);
        case PlayerCalled(pid, amount) => CallWith(pid, amount, at);
        case PlayerBet(pid, amount) => OpenWith(pid, amount, at);
        case PlayerRaised(pid, to, raiseBy) => RaiseWith(pid, to, raiseBy, at);
        case PlayerAllIn(pid, total) => ShoveTo(pid, total, at);
        case PotAwarded(amount, winners) => AwardPot(amount, winners, at);
        case PlayerJoined(pid, user, seat, buyIn) => Seat(pid, user, seat, buyIn, at);
        case HandEnded(n) => EndHand(n, at);
        case ActionStarted(pid, deadline) => GiveTurn(pid, deadline, at);
        case SidePotCreated(pot) => AddSidePot(pot, at);
        case ShowdownReached(ids) => ShowDown(ids, at);
        case RakeTaken(amount) => Rake(amount, at);
        case PlayerSatOut(_) => UpdatePlayer(e, at);
        case PlayerSatIn(_) => UpdatePlayer(e, at);
        case HoleCardsRevealed(_, _) => UpdatePlayer(e, at);
        case _ => UpdateTable(e, at);
      }
    }
  }

  // ── No event reads the version ────────────────────────────────────────────

  ghost predicate Apart(g: Game, v: int, e: Event, at: Option<Time>)
  {
    Effect(g.(version := v), e, at) == Effect(g, e, at).(version := v)
  }

  lemma PostsApart(g: Game, v: int, e: Event, at: Option<Time>)
    requires e.AntePosted? || e.BlindPosted?
    ensures Apart(g, v, e, at)
  {
    hide Effect;
    var g2 := g.(version := v);
    match e
    case AntePosted(pid, amount) =>
      AnteEffect(g, pid, amount, at);
      AnteEffect(g2, pid, amount, at);
    case BlindPosted(pid, amount, isBigBlind) =>
      BlindEffect(g, pid, amount, isBigBlind, at);
      BlindEffect(g2, pid, amount, isBigBlind, at);
  }

  lemma BetsApart(g: Game, v: int, e: Event, at: Option<Time>)
    requires e.PlayerCalled? || e.PlayerBet? || e.PlayerRaised? || e.PlayerAllIn?
    ensures Apart(g, v, e, at)
  {
    hide Effect, OthersInOrder, Without, Select;
    var g2 := g.(version := v);
    match e
    case PlayerCalled(pid, amount) =>
      CallEffect(g, pid, amount, at);
      CallEffect(g2, pid, amount, at);
    case PlayerBet(pid, amount) =>
      BetEffect(g, pid, amount, at);
      BetEffect(g2, pid, amount, at);
    case PlayerRaised(pid, to, raiseBy) =>
      RaiseEffect(g, pid, to, raiseBy, at);
      RaiseEffect(g2, pid, to, raiseBy, at);
    case PlayerAllIn(pid, total) =>
      AllInEffect(g, pid, total, at);
      AllInEffect(g2, pid, total, at);
  }

  lemma FieldsApart(g: Game, v: int, e: Event, at: Option<Time>)
    requires e.ActionStarted? || e.SidePotCreated? || e.ShowdownReached? || e.RakeTaken? || e.PotAwarded?
    ensures Apart(g, v, e, at)
  {
    hide Effect, Paid;
    var g2 := g.(version := v);
    match e
    case ActionStarted(pid, deadline) =>
      TurnEffect(g, pid, deadline, at);
      TurnEffect(g2, pid, deadline, at);
    case SidePotCreated(pot) =>
      SidePotEffect(g, pot, at);
      SidePotEffect(g2, pot, at);
    case ShowdownReached(ids) =>
      ShowdownEffect(g, ids, at);
      ShowdownEffect(g2, ids, at);
    case RakeTaken(amount) =>
      RakeEffect(g, amount, at);
      RakeEffect(g2, amount, at);
    case PotAwarded(amount, winners) =>
      AwardEffect(g, amount, winners, at);
      AwardEffect(g2, amount, winners, at);
  }

  lemma StreetsApart(g: Game, v: int, e: Event, at: Option<Time>)
    requires e.HandStarted? || e.FlopDealt? || e.TurnDealt? || e.RiverDealt? || e.BettingRoundEnded?
    ensures Apart(g, v, e, at)
  {
    hide PreflopOrder, PostflopOrder;
  }

  lemma FoldsApart(g: Game, v: int, e: Event, at: Option<Time>)
    requires e.PlayerFolded? || e.PlayerChecked?
    ensures Apart(g, v, e, at)
  {
    hide Without;
  }

  lemma RestApart(g: Game, v: int, e: Event, at: Option<Time>)
    requires !e.AntePosted? && !e.BlindPosted? && !e.PlayerCalled? && !e.PlayerBet? && !e.PlayerRaised?
    requires !e.PlayerAllIn?
    requires !e.ActionStarted? && !e.SidePotCreated? && !e.ShowdownReached? && !e.RakeTaken? && !e.PotAwarded?
    requires !e.HandStarted? && !e.FlopDealt? && !e.TurnDealt? && !e.RiverDealt? && !e.BettingRoundEnded?
    requires !e.PlayerFolded? && !e.PlayerChecked?
    ensures Apart(g, v, e, at)
  {
    hide Select;
  }

  lemma VersionApart(g: Game, v: int, e: Event, at: Option<Time>)
    ensures Effect(g.(version := v), e, at) == Effect(g, e, at).(version := v)
  {
    hide Effect;
    assert Apart(g, v, e, at) by {
      hide Apart;
      if e.AntePosted? || e.BlindPosted? {
        PostsApart(g, v, e, at);
      } else if e.PlayerCalled? || e.PlayerBet? || e.PlayerRaised? || e.PlayerAllIn? {
        BetsApart(g, v, e, at);
      } else if e.ActionStarted? || e.SidePotCreated? || e.ShowdownReached? || e.RakeTaken? || e.PotAwarded? {
        FieldsApart(g, v, e, at);
      } else if e.HandStarted? || e.FlopDealt? || e.TurnDealt? || e.RiverDealt? || e.BettingRoundEnded? {
        StreetsApart(g, v, e, at);
      } else if e.PlayerFolded? || e.PlayerChecked? {
        FoldsApart(g, v, e, at);
      } else {
        RestApart(g, v, e, at);
      }
    }
  }

  /** Clones the state and applies one event to the clone. */
  method Apply(state: TableState, evt: GameEvent) returns (next: TableState)
    requires DistinctSeats(state.players)
    ensures fresh(next) && next.Value() == Reduce(state.Value(), evt)
  {
    hide Effect;
    next := new TableState(state.Value());
    ghost var g := next.Value();
    if evt.stateVersion > 0 {
      next.version := evt.stateVersion;
    } else {
      next.version := next.version + 1;
    }
    VersionApart(g, next.version, evt.event, evt.occurredAt);
    next.Update(evt.event, evt.occurredAt);
  }
}
