/** Whose turn it is: the order of play, who is asked, and until when. */
module Turns {
  import opened Collections
  import opened Table
  import opened Rules
  import opened Lifecycle
  import opened Seating
  import opened Batches
  import opened Conservation
  import opened Reducer
  import Posting

  // ── Clockwise ─────────────────────────────────────────────────────────────

  /** q is the next of ids clockwise from a seat: in the nearest seat above, or in the lowest seat of all when
      nobody sits above. */
  ghost predicate NextFrom(players: map<PlayerId, Player>, ids: set<PlayerId>, seat: int, q: PlayerId)
    requires ids <= players.Keys
  {
    && q in ids
    && (forall r | r in ids && players[r].seat > seat :: seat < players[q].seat <= players[r].seat)
    && ((forall r | r in ids :: players[r].seat <= seat) ==> forall r | r in ids :: players[q].seat <= players[r].seat)
  }

  ghost predicate NextSeat(players: map<PlayerId, Player>, ids: set<PlayerId>, p: PlayerId, q: PlayerId)
    requires ids <= players.Keys && p in players
  {
    NextFrom(players, ids, players[p].seat, q)
  }

  /** order goes once round the table. */
  ghost predicate Clockwise(players: map<PlayerId, Player>, ids: set<PlayerId>, order: seq<PlayerId>)
    requires ids <= players.Keys
  {
    && Distinct(order) && (forall p :: p in order <==> p in ids)
    && (forall i | 0 <= i < |order| - 1 :: NextSeat(players, ids, order[i], order[i + 1]))
    && (order != [] ==> NextSeat(players, ids, order[|order| - 1], order[0]))
  }

  lemma SeatsAscend(players: map<PlayerId, Player>, ids: set<PlayerId>, s: seq<PlayerId>)
    requires ids <= players.Keys && DistinctSeats(players) && InSeatOrder(players, ids, s)
    ensures forall p :: p in s <==> p in ids
    ensures forall i, j | 0 <= i < j < |s| :: players[s[i]].seat < players[s[j]].seat
  {
    assert forall p :: p in s <==> p in Elems(s);
    var keys := Keys(s, SeatOf(players));
    forall i, j | 0 <= i < j < |s| ensures players[s[i]].seat < players[s[j]].seat {
      assert keys[i] <= keys[j] && s[i] in ids && s[j] in ids && s[i] != s[j];
    }
  }

  lemma NextInSeatOrder(players: map<PlayerId, Player>, ids: set<PlayerId>, s: seq<PlayerId>, i: nat)
    requires ids <= players.Keys && (forall p :: p in s <==> p in ids) && i < |s|
    requires forall i, j | 0 <= i < j < |s| :: players[s[i]].seat < players[s[j]].seat
    ensures s[i] in players
    ensures i + 1 < |s| ==> NextSeat(players, ids, s[i], s[i + 1])
    ensures i + 1 == |s| ==> NextSeat(players, ids, s[i], s[0])
  {
    assert s[i] in ids;
    forall r | r in ids ensures exists k :: 0 <= k < |s| && s[k] == r {
      assert r in s;
    }
  }

  /** Neighbours in a turned list are neighbours in the list. */
  lemma TurnedStep(s: seq<PlayerId>, k: nat, out: seq<PlayerId>, i: nat) returns (j: nat)
    requires k < |s| && Turned(s, k, out) && i < |s| - 1
    ensures |out| == |s| && j < |s| && out[i] == s[j] && out[i + 1] == s[if j + 1 < |s| then j + 1 else 0]
  {
    var n := |s|;
    SmallRemainder(k + 1 + i, n);
    SmallRemainder(k + 1 + (i + 1), n);
    j := if k + 1 + i < n then k + 1 + i else k + 1 + i - n;
  }

  lemma TurnedEnds(s: seq<PlayerId>, k: nat, out: seq<PlayerId>)
    requires k < |s| && Turned(s, k, out)
    ensures |out| == |s| && out[|s| - 1] == s[k] && out[0] == s[if k + 1 < |s| then k + 1 else 0]
  {
    var n := |s|;
    SmallRemainder(k + n, n);
    SmallRemainder(k + 1, n);
    assert k + 1 + (n - 1) == k + n && k + 1 + 0 == k + 1;
  }

  lemma TurnedGoesRound(players: map<PlayerId, Player>, ids: set<PlayerId>, s: seq<PlayerId>, k: nat,
                        out: seq<PlayerId>)
    requires ids <= players.Keys && DistinctSeats(players) && InSeatOrder(players, ids, s) && k < |s|
    requires Turned(s, k, out) && Distinct(out) && Elems(out) == ids
    ensures Clockwise(players, ids, out)
  {
    hide InSeatOrder, NextSeat, Elems, Distinct, DistinctSeats, Turned;
    SeatsAscend(players, ids, s);
    ElemsAre(out, ids);
    TurnedEnds(s, k, out);
    forall i | 0 <= i < |s| - 1 ensures out[i] in players && NextSeat(players, ids, out[i], out[i + 1]) {
      var j := TurnedStep(s, k, out, i);
      NextInSeatOrder(players, ids, s, j);
    }
    NextInSeatOrder(players, ids, s, k);
  }

  lemma ElemsAre(s: seq<PlayerId>, ids: set<PlayerId>)
    requires Elems(s) == ids
    ensures forall p :: p in s <==> p in ids
  {
    assert forall p :: p in s <==> p in Elems(s);
  }

  lemma SeatOrderGoesRound(players: map<PlayerId, Player>, ids: set<PlayerId>, s: seq<PlayerId>)
    requires ids <= players.Keys && DistinctSeats(players) && InSeatOrder(players, ids, s)
    ensures Clockwise(players, ids, s)
    ensures s != [] ==> forall r | r in ids :: s[0] in players && players[s[0]].seat <= players[r].seat
  {
    hide NextSeat, InSeatOrder, Elems, DistinctSeats;
    SeatsAscend(players, ids, s);
    forall i | 0 <= i < |s| - 1 ensures s[i] in players && NextSeat(players, ids, s[i], s[i + 1]) {
      NextInSeatOrder(players, ids, s, i);
    }
    if s != [] {
      NextInSeatOrder(players, ids, s, |s| - 1);
      forall r | r in ids ensures s[0] in players && players[s[0]].seat <= players[r].seat {
        var k :| 0 <= k < |s| && s[k] == r;
        assert s[0] in s;
      }
    }
    OrderHasNoRepeats(players, ids, s);
  }

  lemma OrderHasNoRepeats(players: map<PlayerId, Player>, ids: set<PlayerId>, s: seq<PlayerId>)
    requires InSeatOrder(players, ids, s)
    ensures Distinct(s)
  {
  }

  /** The order that starts after target, or from the lowest seat when target is not in it. */
  lemma AfterTarget(players: map<PlayerId, Player>, ids: set<PlayerId>, s: seq<PlayerId>, target: PlayerId)
    requires ids <= players.Keys && DistinctSeats(players) && InSeatOrder(players, ids, s)
    ensures Clockwise(players, ids, RotateAfter(s, target))
    ensures target in ids ==>
      RotateAfter(s, target) != [] && RotateAfter(s, target)[|RotateAfter(s, target)| - 1] == target
    ensures target !in ids ==> RotateAfter(s, target) == s
  {
    hide NextSeat, InSeatOrder, Elems, DistinctSeats, RotateAfter, Turned, Clockwise;
    OrderHasNoRepeats(players, ids, s);
    SeatsAscend(players, ids, s);
    if target in s {
      RotatedAfter(s, target);
      var k :| 0 <= k < |s| && s[k] == target && Turned(s, k, RotateAfter(s, target));
      Posting.RotateKeeps(s, target);
      SeatElems(players, ids, s);
      TurnedGoesRound(players, ids, s, k, RotateAfter(s, target));
    } else {
      NotThere(s, target);
      SeatOrderGoesRound(players, ids, s);
    }
  }

  lemma SeatElems(players: map<PlayerId, Player>, ids: set<PlayerId>, s: seq<PlayerId>)
    requires InSeatOrder(players, ids, s)
    ensures Elems(s) == ids
  {
  }

  lemma NotThere(s: seq<PlayerId>, target: PlayerId)
    requires target !in s
    ensures RotateAfter(s, target) == s
  {
  }

  // ── The order of play ─────────────────────────────────────────────────────

  /** Everyone sitting in with chips. */
  predicate Plays(players: map<PlayerId, Player>, p: PlayerId)
  {
    p in players && !players[p].sittingOut && players[p].stack > 0
  }

  function Playing(players: map<PlayerId, Player>): (ids: set<PlayerId>)
    ensures ids <= players.Keys
  {
    set p | p in players && Plays(players, p)
  }

  lemma PlayersWhoPlay(players: map<PlayerId, Player>)
    ensures ActiveIds(players) == Playing(players)
  {
  }

  /** A new hand asks everyone sitting in with chips, clockwise, and the big blind last; so the player
      after the big blind begins. */
  lemma BigBlindActsLast(g: Game, e: Event, at: Option<Time>)
    requires DistinctSeats(g.players) && e.HandStarted?
    ensures var g2 := Effect(g, e, at);
      && g2.hand.Some? && g2.hand.value.pending == g2.hand.value.order
      && Clockwise(g2.players, Playing(g2.players), g2.hand.value.order)
      && (Plays(g.players, e.bb) ==>
            g2.hand.value.order != [] && g2.hand.value.order[|g2.hand.value.order| - 1] == e.bb)
      && (!Plays(g.players, e.bb) && Plays(g.players, e.dealer) ==>
            g2.hand.value.order != [] && g2.hand.value.order[|g2.hand.value.order| - 1] == e.dealer)
      && (forall p | p in g.players :: p in g2.players && (Plays(g2.players, p) <==> Plays(g.players, p)))
  {
    hide BySeat, RotateAfter, Clockwise, DistinctSeats, Distinct, Elems, Effect, InSeatOrder;
    StartSeats(g, e, at);
    var players := Effect(g, e, at).players;
    SeatsKept(g.players, players);
    PlayersWhoPlay(players);
    var ids := ActiveIds(players);
    AfterTarget(players, ids, BySeat(players, ids), if e.bb in ids then e.bb else e.dealer);
    ActiveInSeats(players);
  }

  lemma StartSeats(g: Game, e: Event, at: Option<Time>)
    requires e.HandStarted?
    ensures var g2 := Effect(g, e, at);
      && g2.hand.Some? && g2.players.Keys == g.players.Keys
      && g2.hand.value.order == PreflopOrder(g2.players, e.dealer, e.bb) && g2.hand.value.pending == g2.hand.value.order
      && forall p | p in g.players ::
        && g2.players[p].seat == g.players[p].seat && g2.players[p].sittingOut == g.players[p].sittingOut
        && g2.players[p].stack == g.players[p].stack
  {
    hide PreflopOrder;
  }

  lemma SeatsKept(a: map<PlayerId, Player>, b: map<PlayerId, Player>)
    requires DistinctSeats(a) && b.Keys == a.Keys && forall p | p in a :: b[p].seat == a[p].seat
    ensures DistinctSeats(b)
  {
  }

  lemma ActiveInSeats(players: map<PlayerId, Player>)
    ensures forall p :: p in BySeat(players, ActiveIds(players)) <==> p in ActiveIds(players)
  {
    ElemsAre(BySeat(players, ActiveIds(players)), ActiveIds(players));
  }

  /** After the flop everyone sitting in with chips is asked, clockwise, and the dealer last; when the
      dealer is not among them, from the lowest seat. */
  lemma DealerActsLast(g: Game, e: Event, at: Option<Time>)
    requires DistinctSeats(g.players) && g.hand.Some? && (e.FlopDealt? || e.TurnDealt? || e.RiverDealt?)
    ensures var g2, dealer := Effect(g, e, at), g.hand.value.dealer;
      && g2.hand.Some? && g2.hand.value.pending == g2.hand.value.order
      && Clockwise(g2.players, Playing(g2.players), g2.hand.value.order)
      && (Plays(g.players, dealer) ==>
            g2.hand.value.order != [] && g2.hand.value.order[|g2.hand.value.order| - 1] == dealer)
      && (!Plays(g.players, dealer) && g2.hand.value.order != [] ==>
            forall p | p in g2.players && Plays(g2.players, p) ::
              g2.hand.value.order[0] in g2.players && g2.players[g2.hand.value.order[0]].seat <= g2.players[p].seat)
      && (forall p | p in g.players :: p in g2.players && (Plays(g2.players, p) <==> Plays(g.players, p)))
  {
    hide BySeat, RotateAfter, Clockwise, DistinctSeats, Distinct, Elems, InSeatOrder, NextSeat;
    var players, dealer := MapPlayers(g.players, NoBet()), g.hand.value.dealer;
    SeatsKept(g.players, players);
    PlayersWhoPlay(players);
    var ids := ActiveIds(players);
    AfterTarget(players, ids, BySeat(players, ids), dealer);
    SeatOrderGoesRound(players, ids, BySeat(players, ids));
  }

  // ── Being asked ───────────────────────────────────────────────────────────

  /** The first player still to act is asked, with the table's time limit, and nothing else changes. */
  lemma FirstPendingIsAsked(g: Game, now: nat, luck: Luck)
    requires Plausible(luck, g) && KindOf(g, now) == Asks
    ensures g.hand.Some? && g.hand.value.pending != []
    ensures var limit := g.config.actionTimeout;
      Play(g, Advance(g, now, luck)) == g.(hand := Some(g.hand.value.(
        acting := Some(g.hand.value.pending[0]),
        deadline := if limit > 0 && now != 0 then Some(now + limit) else None)))
  {
    hide Plausible, KindOf, Play, BatchOf;
    KindFacts(g, now);
    BatchOfKind(g, now, luck);
    BatchFacts(g, now, luck);
    PlayOne(g, NextAction(g, now)[0]);
  }

  /** From then on their time is up exactly when the limit has passed. */
  lemma TimeIsUpIff(g: Game, now: nat, luck: Luck, later: nat)
    requires Plausible(luck, g) && KindOf(g, now) == Asks
    ensures KindOf(Play(g, Advance(g, now, luck)), later) == TimesOut <==>
      g.config.actionTimeout > 0 && now != 0 && later > now + g.config.actionTimeout
  {
    hide Plausible, Play, Advance, NonFolded;
    FirstPendingIsAsked(g, now, luck);
  }

  /** Whoever runs out of time folds exactly when there is a bet to match, and else checks: no chips move,
      nobody else's cards are touched, and nobody is asked any more. */
  lemma TimeoutFoldsIff(g: Game)
    requires g.hand.Some? && g.hand.value.acting.Some? && g.hand.value.acting.value in g.players
    ensures var pid, g2 := g.hand.value.acting.value, Play(g, TimeoutAction(g));
      && g2.hand.Some? && g2.hand.value.acting.None? && pid !in g2.hand.value.pending
      && g2.players == g.players[pid := g.players[pid].(
           folded := g.players[pid].folded || g.players[pid].currentBet < g.hand.value.highest)]
  {
    hide Without;
    var t, pid := TimeoutAction(g), g.hand.value.acting.value;
    PlayTwo(g, t[0], t[1]);
    WithoutElems(g.hand.value.pending, pid);
    assert g.players[pid := g.players[pid]] == g.players;
  }

  /** A player who may act folds on time-out only if they could not have checked. */
  lemma TimeoutChecksWhenItCan(g: Game)
    requires g.hand.Some? && g.hand.value.acting.Some? && RequireTurn(g, g.hand.value.acting.value).None?
    requires g.players[g.hand.value.acting.value].stack > 0
    ensures var pid := g.hand.value.acting.value;
      pid in Play(g, TimeoutAction(g)).players &&
      (Play(g, TimeoutAction(g)).players[pid].folded <==> Validate(g, Check, pid).Some?)
  {
    hide Play;
    TimeoutFoldsIff(g);
  }
}
