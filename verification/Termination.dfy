/** How long a hand can last, whatever the players choose. */
module Termination {
  import opened Collections
  import opened Cards
  import opened Table
  import opened Rules
  import opened Lifecycle
  import opened Streets
  import opened Chips
  import opened Betting
  import opened Conservation
  import opened Runs
  import opened Leavers

  function StreetsLeft(p: Phase): nat
  {
    match p
    case Preflop => 3
    case Flop => 2
    case Turn => 1
    case _ => 0
  }

  /** A lexicographic triple as one number: b counts at most n steps and c at most one. */
  function Packed(a: nat, b: nat, c: nat, n: nat): nat
  {
    (a * (n + 1) + b) * 2 + c
  }

  lemma PackedDrops(a: nat, b: nat, c: nat, a2: nat, b2: nat, c2: nat, n: nat)
    requires b2 <= n && c2 <= 1
    requires a2 < a || (a2 == a && b2 < b) || (a2 == a && b2 == b && c2 < c)
    ensures Packed(a2, b2, c2, n) < Packed(a, b, c, n)
  {
    if a2 < a {
      assert (a2 + 1) * (n + 1) <= a * (n + 1);
    }
  }

  /** Everybody at the table or in the order. */
  ghost function Ids(g: Game): set<PlayerId>
    requires g.hand.Some?
  {
    g.players.Keys + Elems(g.hand.value.order)
  }

  /** Chips still in stacks, streets to come, players still to act, and whether the next player has to be
      asked first, for at most n players. */
  ghost function Rank(g: Game, n: nat): nat
    requires TableFair(g) && g.hand.Some?
  {
    var h := g.hand.value;
    TableStacks(g);
    Packed(StackTotal(g.players) * 4 + StreetsLeft(h.phase), |h.pending|, if h.acting.None? then 1 else 0, n)
  }

  lemma TableStacks(g: Game)
    requires TableFair(g)
    ensures StackTotal(g.players) >= 0
  {
    TotalAtLeast(Stacks(g.players), 0);
  }

  lemma PendingFits(g: Game)
    requires TableFair(g) && g.hand.Some?
    ensures |g.hand.value.pending| <= |Ids(g)|
  {
    var h := g.hand.value;
    SelectDistinct(h.order, Elems(h.pending));
    SelectElems(h.order, Elems(h.pending));
    DistinctLength(h.pending);
    forall p | p in h.pending ensures p in Ids(g) {
      assert p in h.order;
    }
    SubsetSize(Elems(h.pending), Ids(g));
  }

  /** An action that moves chips lowers the sum of stacks; one that moves none — a fold, a check, a
      time-out — takes its player off the list. */
  lemma ActsLowersRank(g: Game, g2: Game, pid: PlayerId, delta: int, n: nat)
    requires TableFair(g) && Acts(g, g2, pid, delta) && pid in g.hand.value.pending
    requires TableFair(g2) && g2.hand.Some? && |g2.hand.value.pending| <= n
    ensures Rank(g2, n) < Rank(g, n)
  {
    hide HandFair, Packed, Total;
    ActsStacks(g, g2, pid, delta);
    TableStacks(g);
    TableStacks(g2);
    if delta == 0 {
      ActsShortens(g, g2, pid);
    }
    var h, h2 := g.hand.value, g2.hand.value;
    PackedDrops(StackTotal(g.players) * 4 + StreetsLeft(h.phase), |h.pending|, if h.acting.None? then 1 else 0,
                StackTotal(g2.players) * 4 + StreetsLeft(h2.phase), |h2.pending|, 1, n);
  }

  lemma ActsStacks(g: Game, g2: Game, pid: PlayerId, delta: int)
    requires Acts(g, g2, pid, delta)
    ensures g2.hand.Some? && StackTotal(g2.players) == StackTotal(g.players) - delta
    ensures g2.hand.value.phase == g.hand.value.phase && g2.hand.value.acting.None?
  {
    hide CommitTotal, StackTotal;
    TotalsAfterUpdate(g.players, pid, g2.players[pid]);
  }

  lemma ActsShortens(g: Game, g2: Game, pid: PlayerId)
    requires TableFair(g) && Acts(g, g2, pid, 0) && pid in g.hand.value.pending
    ensures |g2.hand.value.pending| < |g.hand.value.pending|
  {
    hide StackTotal, CommitTotal;
    assert BetOk(g.players[pid], g.hand.value);
    ShorterWithout(g.hand.value.pending, pid);
  }

  lemma {:induction false} ShorterWithout(s: seq<PlayerId>, p: PlayerId)
    ensures |Without(s, p)| <= |s| && (p in s ==> |Without(s, p)| < |s|)
  {
    SelectElems(s, Elems(s) - {p});
    if p in s && |Without(s, p)| == |s| {
      FullSelection(s, Elems(s) - {p});
    }
  }

  lemma {:induction false} FullSelection<T>(s: seq<T>, keep: set<T>)
    requires |Select(s, keep)| == |s|
    ensures forall x | x in s :: x in keep
  {
    if s != [] {
      SelectElems(s[..|s| - 1], keep);
      FullSelection(s[..|s| - 1], keep);
      LastBack(s);
    }
  }

  lemma PassLowersRank(g: Game, g2: Game, pid: PlayerId, n: nat)
    requires TableFair(g) && Passed(g, g2, pid) && TableFair(g2) && |g2.hand.value.pending| <= n
    ensures Rank(g2, n) < Rank(g, n)
  {
    hide HandFair, Packed, Total, Without;
    TableStacks(g);
    var h, h2 := g.hand.value, g2.hand.value;
    ShorterWithout(h.pending, pid);
    var a := StackTotal(g.players) * 4 + StreetsLeft(h.phase);
    PackedDrops(a, |h.pending|, if h.acting.None? then 1 else 0, a, |h2.pending|, 1, n);
  }

  lemma StreetStacks(g: Game, g2: Game)
    requires StreetDue(g) && NewStreet(g, g2)
    ensures StackTotal(g2.players) == StackTotal(g.players)
    ensures g2.hand.Some? && StreetsLeft(g2.hand.value.phase) == StreetsLeft(g.hand.value.phase) - 1
    ensures g2.hand.value.acting.None?
  {
    hide StackTotal;
    SameStacksSameTotal(g.players, g2.players);
  }

  lemma StreetLowersRank(g: Game, g2: Game, n: nat)
    requires TableFair(g) && StreetDue(g) && NewStreet(g, g2)
    requires TableFair(g2) && g2.hand.Some? && |g2.hand.value.pending| <= n
    ensures Rank(g2, n) < Rank(g, n)
  {
    hide TableFair, NewStreet, Packed, StreetsLeft, StackTotal, NextPhase;
    StreetStacks(g, g2);
    TableStacks(g);
    var h, h2 := g.hand.value, g2.hand.value;
    PackedDrops(StackTotal(g.players) * 4 + StreetsLeft(h.phase), |h.pending|, if h.acting.None? then 1 else 0,
                StackTotal(g2.players) * 4 + StreetsLeft(h2.phase), |h2.pending|, 1, n);
  }

  lemma AskLowersRank(g: Game, g2: Game, n: nat)
    requires TableFair(g) && OnlyAsked(g, g2) && g.hand.value.acting.None?
    requires TableFair(g2) && |g2.hand.value.pending| <= n
    ensures Rank(g2, n) < Rank(g, n)
  {
    hide HandFair, Packed, Total;
    TableStacks(g);
    var h := g.hand.value;
    var a := StackTotal(g.players) * 4 + StreetsLeft(h.phase);
    PackedDrops(a, |h.pending|, 1, a, |h.pending|, 0, n);
  }

  lemma SitKeepsRank(g: Game, g2: Game, n: nat)
    requires TableFair(g) && g.hand.Some? && OnlySat(g, g2) && TableFair(g2)
    ensures g2.hand.Some? && Rank(g2, n) == Rank(g, n)
  {
    hide HandFair, Packed, StackTotal;
    SameStacksSameTotal(g.players, g2.players);
  }

  lemma KeptIds(g: Game, g2: Game)
    requires KeepsHand(g, g2)
    ensures TableFair(g2) && g2.hand.Some? && Ids(g2) <= Ids(g) && |Ids(g2)| <= |Ids(g)|
  {
    SubsetSize(Ids(g2), Ids(g));
  }

  /** A step within a hand does not raise its rank, and one that carries it on lowers it. */
  lemma StepRank(g: Game, g2: Game, n: nat)
    requires TableFair(g) && g.hand.Some? && HandStep(g, g2) && |Ids(g)| <= n
    ensures TableFair(g2) && g2.hand.Some? && |Ids(g2)| <= n && Rank(g2, n) <= Rank(g, n)
    ensures CarriesOn(g, g2) ==> Rank(g2, n) < Rank(g, n)
  {
    hide TableFair, Acts, Passed, NewStreet, OnlyAsked, OnlySat, KeepsHand, StreetDue, Rank, Ids;
    StepKeeps(g, g2);
    KeptIds(g, g2);
    PendingFits(g2);
    if CarriesOn(g, g2) {
      if StreetDue(g) && NewStreet(g, g2) {
        StreetLowersRank(g, g2, n);
      } else if OnlyAsked(g, g2) && g.hand.value.acting.None? {
        AskLowersRank(g, g2, n);
      } else if pid :| Passed(g, g2, pid) {
        PassLowersRank(g, g2, pid, n);
      } else {
        var pid, delta :| Acts(g, g2, pid, delta) && pid in g.hand.value.pending;
        ActsLowersRank(g, g2, pid, delta, n);
      }
    } else if g2 != g {
      SitKeepsRank(g, g2, n);
    }
  }

  // ── Coming and going ──────────────────────────────────────────────────────

  /** What x more in the first place adds to a packed triple. */
  function Weight(x: nat, n: nat): nat
  {
    2 * (x * (n + 1))
  }

  lemma PackedGrows(a: nat, b: nat, c: nat, n: nat, x: nat)
    ensures Packed(a + x, b, c, n) == Packed(a, b, c, n) + Weight(x, n)
  {
    assert (a + x) * (n + 1) == a * (n + 1) + x * (n + 1);
  }

  lemma PackedIsMonotone(a: nat, b: nat, c: nat, a2: nat, b2: nat, c2: nat, n: nat)
    requires a2 <= a && b2 <= b && c2 <= c + 1
    ensures Packed(a2, b2, c2, n) <= Packed(a, b, c, n) + 1
  {
    assert (a - a2) * (n + 1) + a2 * (n + 1) == a * (n + 1);
  }

  /** By how much a step may raise the rank: a newcomer by their chips, a leave by asking somebody anew. */
  function Extra(m: Move, n: nat): nat
  {
    if m.Join? && m.buyIn > 0 then Weight(m.buyIn * 4, n) else if m.Leave? then 1 else 0
  }

  lemma JoinedIds(g: Game, g2: Game, p: PlayerId, buyIn: int)
    requires g.hand.Some? && Joined(g, g2, p, buyIn)
    ensures g2.hand == g.hand && |Ids(g2)| <= |Ids(g)| + 1
  {
    assert Ids(g2) == Ids(g) + {p};
  }

  lemma JoinRank(g: Game, g2: Game, p: PlayerId, buyIn: nat, n: nat)
    requires TableFair(g) && TableFair(g2) && g.hand.Some? && Joined(g, g2, p, buyIn)
    ensures g2.hand.Some? && |Ids(g2)| <= |Ids(g)| + 1 && Rank(g2, n) == Rank(g, n) + Weight(buyIn * 4, n)
  {
    hide TableFair, Packed, StackTotal, StreetsLeft, Weight, Joined, Ids, ChipCount;
    JoinedTotals(g, g2, p, buyIn);
    JoinedIds(g, g2, p, buyIn);
    TableStacks(g);
    var h := g.hand.value;
    PackedGrows(StackTotal(g.players) * 4 + StreetsLeft(h.phase), |h.pending|, if h.acting.None? then 1 else 0, n,
                buyIn * 4);
  }

  lemma DepartedIds(g: Game, g2: Game, p: PlayerId)
    requires g.hand.Some? && Departed(g, g2, p)
    ensures g2.hand.Some? && |Ids(g2)| <= |Ids(g)|
    ensures g2.hand.value.phase == g.hand.value.phase && |g2.hand.value.pending| <= |g.hand.value.pending|
  {
    hide Without;
    SubsetSize(Ids(g2), Ids(g));
    ShorterWithout(g.hand.value.pending, p);
  }

  lemma LeaveRank(g: Game, g2: Game, p: PlayerId, n: nat)
    requires TableFair(g) && TableFair(g2) && g.hand.Some? && Departed(g, g2, p)
    ensures g2.hand.Some? && |Ids(g2)| <= |Ids(g)| && Rank(g2, n) <= Rank(g, n) + 1
  {
    hide HandFair, Packed, StackTotal, StreetsLeft, Departed, Ids, CommitTotal;
    LeaveKeeps(g, g2, p);
    DepartedIds(g, g2, p);
    DepartedIsThere(g, g2, p);
    TableStacks(g);
    TableStacks(g2);
    var h, h2 := g.hand.value, g2.hand.value;
    PackedIsMonotone(StackTotal(g.players) * 4 + StreetsLeft(h.phase), |h.pending|, if h.acting.None? then 1 else 0,
                     StackTotal(g2.players) * 4 + StreetsLeft(h2.phase), |h2.pending|,
                     if h2.acting.None? then 1 else 0, n);
  }

  lemma DepartedIsThere(g: Game, g2: Game, p: PlayerId)
    requires Departed(g, g2, p)
    ensures p in g.players
  {
  }

  // ── Runs ──────────────────────────────────────────────────────────────────

  /** The steps that carry a hand on: every accepted action and every batch of server events. */
  ghost predicate Counts(g: Game, m: Move)
    requires Possible(g, m)
  {
    match m
    case Order(cmd, actor) => IsAction(cmd) && Validate(g, cmd, actor).None?
    case Serve(now, luck) => Advance(g, now, luck) != []
    case _ => false
  }

  function Seats(m: Move): nat
  {
    if m.Join? then 1 else 0
  }

  /** No step of a hand raises its rank by more than its extra, and every step that carries it on lowers
      it. */
  lemma MoveRank(g: Game, m: Move, n: nat)
    requires TableFair(g) && Allowed(g, m) && g.hand.Some? && After(g, m).hand.Some? && |Ids(g)| + Seats(m) <= n
    ensures TableFair(After(g, m)) && |Ids(After(g, m))| <= |Ids(g)| + Seats(m)
    ensures Rank(After(g, m), n) <= Rank(g, n) + Extra(m, n)
    ensures Counts(g, m) ==> Rank(After(g, m), n) < Rank(g, n)
  {
    hide Effect, Play, Advance, TableFair, Plausible, Covered, Rank, Validate, HandStep, CarriesOn;
    hide Ids, CommandEvent, Weight;
    match m
    case Order(cmd, actor) =>
      OrderIsStep(g, cmd, actor);
      StepRank(g, After(g, m), |Ids(g)|);
      StepRank(g, After(g, m), n);
    case Serve(now, luck) =>
      ServeIsStep(g, now, luck);
      StepRank(g, After(g, m), |Ids(g)|);
      StepRank(g, After(g, m), n);
    case Join(p, user, seat, buyIn) =>
      JoinIsJoined(g, p, user, seat, buyIn);
      JoinKeeps(g, After(g, m), p, buyIn);
      JoinRank(g, After(g, m), p, buyIn, n);
    case Leave(p) =>
      LeaveDeparts(g, p);
      LeaveKeeps(g, After(g, m), p);
      LeaveRank(g, After(g, m), p, n);
  }

  ghost function StepsOf(g: Game, moves: seq<Move>): nat
    requires Happens(g, moves)
    decreases |moves|
  {
    if moves == [] then 0 else
      (if Counts(g, moves[0]) then 1 else 0) + StepsOf(After(g, moves[0]), moves[1..])
  }

  function SeatsOf(moves: seq<Move>): nat
  {
    if moves == [] then 0 else Seats(moves[0]) + SeatsOf(moves[1..])
  }

  function ExtraOf(moves: seq<Move>, n: nat): nat
  {
    if moves == [] then 0 else Extra(moves[0], n) + ExtraOf(moves[1..], n)
  }

  /** While a hand lasts, no more actions, time-outs, streets and turns are taken in it than its rank says
      — chips, streets left, players to act, turn unset — plus a fixed amount for everybody who joins or
      leaves, however the players bet. Whether there always is a next one until the hand ends is another
      question: Progress.HandGoesOnIff. */
  lemma {:induction false} HandIsFinite(g: Game, moves: seq<Move>, n: nat)
    requires TableFair(g) && IsOpenRun(g, moves) && HandLasts(g, moves) && |Ids(g)| + SeatsOf(moves) <= n
    ensures g.hand.Some? && StepsOf(g, moves) <= Rank(g, n) + ExtraOf(moves, n)
    decreases |moves|
  {
    hide TableFair, After, Rank, Extra, Counts, Possible, Ids;
    if moves != [] {
      var g1 := After(g, moves[0]);
      assert HandLasts(g1, moves[1..]);
      MoveRank(g, moves[0], n);
      HandIsFinite(g1, moves[1..], n);
    }
  }
}
