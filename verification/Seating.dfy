/** Who sits where, and which events leave that alone. */
module Seating {
  import opened Collections
  import opened Table

  ghost predicate DistinctSeats(players: map<PlayerId, Player>)
  {
    forall p, q | p in players && q in players && p != q :: players[p].seat != players[q].seat
  }

  ghost predicate SeatsWithin(players: map<PlayerId, Player>, n: nat)
  {
    forall p | p in players :: 1 <= players[p].seat <= n
  }

  /** No more players than seats. */
  lemma {:induction false} SeatsHoldPlayers(players: map<PlayerId, Player>, n: nat)
    ensures DistinctSeats(players) && SeatsWithin(players, n) ==> |players| <= n
  {
    if DistinctSeats(players) && SeatsWithin(players, n) && players != map[] {
      if p :| p in players && players[p].seat == n {
        var others := players - {p};
        assert others.Keys == players.Keys - {p};
        assert |players.Keys - {p}| == |players.Keys| - 1;
        SeatsHoldPlayers(others, n - 1);
      } else {
        SeatsHoldPlayers(players, n - 1);
      }
    }
  }

  /** Events a session may append: all but creation and the lobby's own. */
  predicate IsEngineEvent(e: Event)
  {
    !e.TableCreated? && !e.PlayerJoined? && !e.PlayerLeft?
  }

  ghost predicate SameSeats(g: Game, g2: Game)
  {
    && g2.config == g.config && g2.userIds == g.userIds && g2.players.Keys == g.players.Keys
    && forall p | p in g.players :: g2.players[p].seat == g.players[p].seat
  }

  lemma {:induction false} PaidKeepsSeats(players: map<PlayerId, Player>, winners: seq<PlayerId>, amount: int, k: nat)
    requires k <= |winners|
    ensures forall p | p in players :: Paid(players, winners, amount, k)[p].seat == players[p].seat
  {
    if k > 0 {
      PaidKeepsSeats(players, winners, amount, k - 1);
    }
  }

  lemma EngineKeepsSeats(g: Game, e: Event, at: Option<Time>)
    requires IsEngineEvent(e)
    ensures SameSeats(g, Effect(g, e, at))
  {
    hide Effect, SameSeats;
    if e.PlayerCalled? || e.PlayerBet? || e.PlayerRaised? || e.PlayerAllIn? || e.AntePosted? || e.BlindPosted? {
      ChipsKeepSeats(g, e, at);
    } else if e.PotAwarded? {
      PaidKeepsSeats(g.players, e.winners, e.amount, |e.winners|);
      AwardKeepsSeats(g, e, at);
    } else {
      OthersKeepSeats(g, e, at);
    }
  }

  lemma ChipsKeepSeats(g: Game, e: Event, at: Option<Time>)
    requires e.PlayerCalled? || e.PlayerBet? || e.PlayerRaised? || e.PlayerAllIn? || e.AntePosted? || e.BlindPosted?
    ensures SameSeats(g, Effect(g, e, at))
  {
    hide OthersInOrder, Without, AllInHand;
  }

  lemma AwardKeepsSeats(g: Game, e: Event, at: Option<Time>)
    requires e.PotAwarded?
    requires forall p | p in g.players :: Paid(g.players, e.winners, e.amount, |e.winners|)[p].seat == g.players[p].seat
    ensures SameSeats(g, Effect(g, e, at))
  {
    hide Paid;
  }

  lemma OthersKeepSeats(g: Game, e: Event, at: Option<Time>)
    requires IsEngineEvent(e) && !e.PotAwarded? && !e.AntePosted? && !e.BlindPosted?
    requires !e.PlayerCalled? && !e.PlayerBet? && !e.PlayerRaised? && !e.PlayerAllIn?
    ensures SameSeats(g, Effect(g, e, at))
  {
    hide PreflopOrder, PostflopOrder, Without;
  }

  lemma SeatsStayDistinct(g: Game, g2: Game)
    requires DistinctSeats(g.players) && SameSeats(g, g2)
    ensures DistinctSeats(g2.players)
  {
  }

  /** At no point of a replay do two players share a seat. */
  ghost predicate SeatedThroughout(g: Game, events: seq<GameEvent>)
  {
    forall i | 0 <= i <= |events| :: DistinctSeats(ReduceAll(g, events[..i]).players)
  }

  lemma {:induction false} EngineKeepsSeated(g: Game, events: seq<GameEvent>)
    requires DistinctSeats(g.players) && forall i | 0 <= i < |events| :: IsEngineEvent(events[i].event)
    ensures SeatedThroughout(g, events) && SameSeats(g, ReduceAll(g, events))
  {
    hide Effect, DistinctSeats;
    if events != [] {
      var rest, last := events[..|events| - 1], events[|events| - 1];
      EngineKeepsSeated(g, rest);
      EngineKeepsSeats(ReduceAll(g, rest), last.event, last.occurredAt);
      assert forall i | 0 <= i < |events| :: events[..i] == rest[..i];
      assert events[..|events|] == events;
    }
    SeatsStayDistinct(g, ReduceAll(g, events));
  }

  lemma SeatedConcat(g: Game, a: seq<GameEvent>, b: seq<GameEvent>)
    requires SeatedThroughout(g, a) && SeatedThroughout(ReduceAll(g, a), b)
    ensures SeatedThroughout(g, a + b)
  {
    hide DistinctSeats, ReduceAll;
    forall i | 0 <= i <= |a + b| ensures DistinctSeats(ReduceAll(g, (a + b)[..i]).players) {
      if i <= |a| {
        assert (a + b)[..i] == a[..i];
      } else {
        assert (a + b)[..i] == a + b[..i - |a|];
        ReduceConcat(g, a, b[..i - |a|]);
      }
    }
  }

  lemma {:induction false} ReduceConcat(g: Game, a: seq<GameEvent>, b: seq<GameEvent>)
    ensures ReduceAll(g, a + b) == ReduceAll(ReduceAll(g, a), b)
  {
    hide Reduce;
    if b == [] {
      assert a + b == a;
    } else {
      assert (a + b)[..|a + b| - 1] == a + b[..|b| - 1];
      ReduceConcat(g, a, b[..|b| - 1]);
    }
  }
}
