/** A hand that goes on with another dealer: after the table is loaded again, or after a write that failed. */
module Decks {
  import opened Collections
  import opened Cards
  import opened Table
  import opened Rules
  import opened Lifecycle
  import opened Posting
  import opened Streets
  import opened Batches
  import opened Rest
  import opened Runs
  import opened Dealing
  import opened Reducer
  import opened Driver
  import opened Handler

  // ── Different cards ───────────────────────────────────────────────────────

  /** No card is on the table twice. */
  ghost predicate AllDistinct(g: Game)
  {
    forall x, y | OnTable(g, x) && OnTable(g, y) && x != y :: CardAt(g, x) != CardAt(g, y)
  }

  /** No card is on the board before its street. */
  predicate BoardFits(h: Hand)
  {
    && h.phase != Phase.Showdown
    && (h.flop.Some? ==> h.phase != Preflop)
    && (h.turn.Some? ==> h.phase == Turn || h.phase == River)
    && (h.river.Some? ==> h.phase == River)
  }

  lemma CardsOkFits(g: Game, a: Shoe, n: nat)
    requires CardsOk(g, a, n) && g.hand.Some?
    ensures AllDistinct(g) && BoardFits(g.hand.value)
  {
    forall x, y | OnTable(g, x) && OnTable(g, y) && x != y ensures CardAt(g, x) != CardAt(g, y) {
      CardsAreDistinct(g, a, n, x, y);
    }
    var who :| |who| <= n && CardsFrom(g, a, who);
    assert CardsFrom(g, a, who);
  }

  function StreetNumber(p: Phase): nat
  {
    match p
    case Preflop => 0
    case Flop => 1
    case Turn => 2
    case River => 3
    case Showdown => 4
  }

  /** The dealer has the cards for the streets after from up to to. */
  predicate Reaches(b: Shoe, from: Phase, to: Phase)
  {
    && StreetNumber(from) <= StreetNumber(to) <= 3
    && (from != to ==> b.dealt + UsedBy(to, 0) - UsedBy(from, 0) <= |b.order|)
  }

  predicate FlopAhead(from: Phase, to: Phase)
  {
    from == Preflop && to != Preflop
  }

  predicate TurnAhead(from: Phase, to: Phase)
  {
    (from == Preflop || from == Flop) && (to == Turn || to == River)
  }

  predicate RiverAhead(from: Phase, to: Phase)
  {
    from != River && to == River
  }

  /** The cards the dealer puts on the board between two streets, burns skipped. */
  function NewCards(b: Shoe, from: Phase, to: Phase): seq<Card>
    requires Reaches(b, from, to)
  {
    var d := b.dealt;
    (if FlopAhead(from, to) then [b.order[d + 1], b.order[d + 2], b.order[d + 3]] else [])
    + (if TurnAhead(from, to) then [b.order[d + 5 - UsedBy(from, 0)]] else [])
    + (if RiverAhead(from, to) then [b.order[d + 7 - UsedBy(from, 0)]] else [])
  }

  // ── A hand played on ──────────────────────────────────────────────────────

  /** g is the hand of g0 played on with the dealer that was b0 and now is b. */
  ghost predicate Continued(g0: Game, b0: Shoe, g: Game, b: Shoe)
  {
    && g0.hand.Some? && g.hand.Some? && KeepsHoles(g0, g) && KeepsHoles(g, g0)
    && (var h0, h := g0.hand.value, g.hand.value;
        var o, d, u := b0.order, b0.dealt, UsedBy(h0.phase, 0);
        && Reaches(b0, h0.phase, h.phase) && BoardFits(h0)
        && b.order == o && b.dealt == d + UsedBy(h.phase, 0) - u
        && h.flop == (if FlopAhead(h0.phase, h.phase) then Some(FlopCards(o[d + 1], o[d + 2], o[d + 3])) else h0.flop)
        && h.turn == (if TurnAhead(h0.phase, h.phase) then Some(o[d + 5 - u]) else h0.turn)
        && h.river == (if RiverAhead(h0.phase, h.phase) then Some(o[d + 7 - u]) else h0.river))
  }

  lemma NothingContinued(g: Game, b: Shoe)
    requires g.hand.Some? && BoardFits(g.hand.value)
    ensures Continued(g, b, g, b)
  {
  }

  lemma StayContinues(g0: Game, b0: Shoe, g: Game, b: Shoe, g2: Game)
    requires Continued(g0, b0, g, b) && g2.hand.Some? && CardsStay(g, g2)
    ensures Continued(g0, b0, g2, b)
  {
    BothKeep(g0, g, g2);
  }

  lemma BothKeep(g0: Game, g: Game, g2: Game)
    requires KeepsHoles(g0, g) && KeepsHoles(g, g0) && CardsStay(g, g2) && g2.hand.Some?
    ensures KeepsHoles(g0, g2) && KeepsHoles(g2, g0)
  {
  }

  lemma StreetContinues(g0: Game, b0: Shoe, g: Game, b: Shoe, g2: Game, b2: Shoe, cards: seq<Card>)
    requires Continued(g0, b0, g, b) && StreetDue(g) && StreetOpened(g, g2, cards)
    requires var k := StreetCards(g.hand.value.phase);
      && |cards| >= k && b2.order == b.order && b2.dealt == b.dealt + 1 + k <= |b.order|
      && cards[..k] == b.order[b.dealt + 1..b2.dealt]
    ensures Continued(g0, b0, g2, b2)
  {
    var k := StreetCards(g.hand.value.phase);
    assert forall i | 0 <= i < k :: cards[i] == cards[..k][i] == b.order[b.dealt + 1 + i];
    assert KeepsHoles(g0, g2) && KeepsHoles(g2, g0);
  }

  lemma MoveContinues(g0: Game, b0: Shoe, g: Game, b: Shoe, m: Move, b2: Shoe)
    requires Continued(g0, b0, g, b) && ConfigOk(g.config) && Possible(g, m) && Dealt(g, m, b, b2)
    requires !m.Join? && !m.Leave? && After(g, m).hand.Some?
    ensures Continued(g0, b0, After(g, m), b2)
  {
    hide Effect, Play, Advance, ConfigOk, Plausible, CommandEvent, Continued, CardsStay, Feeds;
    hide KindOf, StreetOpened, HandDealt;
    ContinuedIsOn(g0, b0, g, b);
    match m
    case Order(cmd, actor) =>
      OrderShowsNothing(g, cmd, actor);
      StayContinues(g0, b0, g, b, After(g, m));
    case Serve(now, luck) =>
      BatchShapes(g, now, luck);
      FeedsKind(g, now, luck, b, b2);
      InHandKinds(g, now);
      if KindOf(g, now) == TurnsStreet {
        StreetContinues(g0, b0, g, b, After(g, m), b2, luck.cards);
      } else {
        StayContinues(g0, b0, g, b, After(g, m));
      }
  }

  lemma ContinuedIsOn(g0: Game, b0: Shoe, g: Game, b: Shoe)
    requires Continued(g0, b0, g, b)
    ensures g.hand.Some?
  {
  }

  /** Commands and batches of one hand, without a reload. */
  ghost predicate OneHand(g: Game, moves: seq<Move>)
    requires Happens(g, moves)
    decreases |moves|
  {
    g.hand.Some? &&
    (moves == [] || (!moves[0].Join? && !moves[0].Leave? && OneHand(After(g, moves[0]), moves[1..])))
  }

  lemma {:induction false} RunContinues(g0: Game, b0: Shoe, g: Game, b: Shoe, moves: seq<Move>, shoes: seq<Shoe>)
    requires Continued(g0, b0, g, b) && ConfigOk(g.config) && |shoes| == |moves|
    requires IsSession(g, moves, b, shoes) && OneHand(g, moves)
    ensures Continued(g0, b0, End(g, moves), LastShoe(b, shoes))
    decreases |moves|
  {
    hide Continued, ConfigOk, After, Dealt, Possible;
    if moves != [] {
      var g1 := After(g, moves[0]);
      assert OneHand(g1, moves[1..]) && g1.hand.Some?;
      MoveKeepsConfig(g, moves[0]);
      MoveContinues(g0, b0, g, b, moves[0], shoes[0]);
      RunContinues(g0, b0, g1, shoes[0], moves[1..], shoes[1..]);
    }
  }

  // ── The exact condition ───────────────────────────────────────────────────

  predicate IsNew(place: Place, from: Phase, to: Phase)
  {
    match place
    case OnFlop(k) => k < 3 && FlopAhead(from, to)
    case OnTurn => TurnAhead(from, to)
    case OnRiver => RiverAhead(from, to)
    case _ => false
  }

  /** Where in the dealer's deck the card of a new place lies. */
  function DeckSlot(place: Place, from: Phase, dealt: nat): int
  {
    match place
    case OnFlop(k) => dealt + 1 + k
    case OnTurn => dealt + 5 - UsedBy(from, 0)
    case OnRiver => dealt + 7 - UsedBy(from, 0)
    case _ => -1
  }

  lemma OldOrNew(g0: Game, b0: Shoe, g: Game, b: Shoe, x: Place)
    requires Continued(g0, b0, g, b)
    ensures OnTable(g, x) <==> OnTable(g0, x) || IsNew(x, g0.hand.value.phase, g.hand.value.phase)
    ensures !(OnTable(g0, x) && IsNew(x, g0.hand.value.phase, g.hand.value.phase))
    ensures OnTable(g0, x) ==> CardAt(g, x) == CardAt(g0, x)
    ensures IsNew(x, g0.hand.value.phase, g.hand.value.phase) ==>
      var i := DeckSlot(x, g0.hand.value.phase, b0.dealt);
      0 <= i < |b0.order| && CardAt(g, x) == b0.order[i]
  {
  }

  lemma SlotsAreNew(b0: Shoe, from: Phase, to: Phase, x: Place)
    requires Reaches(b0, from, to) && IsNew(x, from, to)
    ensures var i := DeckSlot(x, from, b0.dealt); 0 <= i < |b0.order| && b0.order[i] in NewCards(b0, from, to)
  {
    var ahead, i := NewCards(b0, from, to), DeckSlot(x, from, b0.dealt);
    var f := if FlopAhead(from, to) then 3 else 0;
    var t := if TurnAhead(from, to) then 1 else 0;
    match x
    case OnFlop(k) => assert ahead[k] == b0.order[i];
    case OnTurn => assert ahead[f] == b0.order[i];
    case OnRiver => assert ahead[f + t] == b0.order[i];
  }

  lemma NewHasSlot(b0: Shoe, from: Phase, to: Phase, c: Card) returns (x: Place)
    requires Reaches(b0, from, to) && c in NewCards(b0, from, to)
    ensures IsNew(x, from, to) && var i := DeckSlot(x, from, b0.dealt); 0 <= i < |b0.order| && b0.order[i] == c
  {
    var d := b0.dealt;
    if FlopAhead(from, to) && c in [b0.order[d + 1], b0.order[d + 2], b0.order[d + 3]] {
      x := OnFlop(if c == b0.order[d + 1] then 0 else if c == b0.order[d + 2] then 1 else 2);
    } else if TurnAhead(from, to) && c == b0.order[d + 5 - UsedBy(from, 0)] {
      x := OnTurn;
    } else {
      x := OnRiver;
    }
  }

  lemma NewSlotsDiffer(from: Phase, to: Phase, dealt: nat, x: Place, y: Place)
    requires IsNew(x, from, to) && IsNew(y, from, to) && x != y
    ensures DeckSlot(x, from, dealt) != DeckSlot(y, from, dealt)
  {
  }

  lemma DistinctIff(g0: Game, b0: Shoe, g: Game, b: Shoe)
    requires Continued(g0, b0, g, b) && AllDistinct(g0) && Distinct(b0.order)
    ensures var from, to := g0.hand.value.phase, g.hand.value.phase;
      AllDistinct(g) <==> forall x | OnTable(g0, x) :: CardAt(g0, x) !in NewCards(b0, from, to)
  {
    hide OnTable, CardAt, IsNew, DeckSlot, NewCards;
    var from, to := g0.hand.value.phase, g.hand.value.phase;
    if AllDistinct(g) {
      forall x | OnTable(g0, x) ensures CardAt(g0, x) !in NewCards(b0, from, to) {
        OldOrNew(g0, b0, g, b, x);
        if CardAt(g0, x) in NewCards(b0, from, to) {
          var y := NewHasSlot(b0, from, to, CardAt(g0, x));
          OldOrNew(g0, b0, g, b, y);
        }
      }
    }
    if forall x | OnTable(g0, x) :: CardAt(g0, x) !in NewCards(b0, from, to) {
      forall x, y | OnTable(g, x) && OnTable(g, y) && x != y ensures CardAt(g, x) != CardAt(g, y) {
        TwoDiffer(g0, b0, g, b, x, y);
      }
    }
  }

  lemma TwoDiffer(g0: Game, b0: Shoe, g: Game, b: Shoe, x: Place, y: Place)
    requires Continued(g0, b0, g, b) && AllDistinct(g0) && Distinct(b0.order)
    requires var from, to := g0.hand.value.phase, g.hand.value.phase;
      forall z | OnTable(g0, z) :: CardAt(g0, z) !in NewCards(b0, from, to)
    requires OnTable(g, x) && OnTable(g, y) && x != y
    ensures CardAt(g, x) != CardAt(g, y)
  {
    hide OnTable, CardAt, IsNew, DeckSlot, NewCards;
    var from, to := g0.hand.value.phase, g.hand.value.phase;
    OldOrNew(g0, b0, g, b, x);
    OldOrNew(g0, b0, g, b, y);
    if IsNew(x, from, to) {
      SlotsAreNew(b0, from, to, x);
    }
    if IsNew(y, from, to) {
      SlotsAreNew(b0, from, to, y);
    }
    if IsNew(x, from, to) && IsNew(y, from, to) {
      NewSlotsDiffer(from, to, b0.dealt, x, y);
    }
  }

  /** A hand without a double card goes on with any dealer of different cards — its own, a reloaded one,
      one that a failed write left behind: however it is played, no card comes twice if and only if none
      of those the dealer puts on the board is on the table already. */
  lemma HandStaysDistinctIff(g: Game, moves: seq<Move>, b: Shoe, shoes: seq<Shoe>)
    requires ConfigOk(g.config) && g.hand.Some? && BoardFits(g.hand.value) && AllDistinct(g) && Distinct(b.order)
    requires |shoes| == |moves| && IsSession(g, moves, b, shoes) && OneHand(g, moves)
    ensures var last := End(g, moves);
      && last.hand.Some? && Reaches(b, g.hand.value.phase, last.hand.value.phase)
      && (AllDistinct(last) <==>
            forall x | OnTable(g, x) :: CardAt(g, x) !in NewCards(b, g.hand.value.phase, last.hand.value.phase))
  {
    hide AllDistinct, IsSession, OneHand, OnTable, CardAt, NewCards;
    NothingContinued(g, b);
    RunContinues(g, b, g, b, moves, shoes);
    DistinctIff(g, b, End(g, moves), LastShoe(b, shoes));
  }

  // ── Harmless dealers ──────────────────────────────────────────────────────

  /** The rest of the deck the table's cards came from holds none of them. */
  lemma RestOfDeckIsNew(g: Game, a: Shoe, n: nat, b: Shoe, to: Phase, x: Place)
    requires g.hand.Some? && CardsOk(g, a, n) && b.order == a.order && b.dealt >= a.dealt
    requires Reaches(b, g.hand.value.phase, to) && OnTable(g, x)
    ensures CardAt(g, x) !in NewCards(b, g.hand.value.phase, to)
  {
    hide CardsFrom, NewCards, OnTable, CardAt;
    var who :| |who| <= n && CardsFrom(g, a, who);
    CameFrom(g, a, who, x);
    DeckIsDistinct(g, a, who);
    SlotsAreUsed(g, a, who, x);
    var from := g.hand.value.phase;
    if CardAt(g, x) in NewCards(b, from, to) {
      var y := NewHasSlot(b, from, to, CardAt(g, x));
      SlotsAhead(y, from, to, b.dealt);
    }
  }

  lemma SlotsAreUsed(g: Game, a: Shoe, who: seq<PlayerId>, x: Place)
    requires g.hand.Some? && CardsFrom(g, a, who) && OnTable(g, x)
    requires (x.FirstHole? || x.SecondHole?) ==> x.player in who
    ensures Slot(x, who) < a.dealt
  {
  }

  lemma SlotsAhead(y: Place, from: Phase, to: Phase, dealt: nat)
    requires IsNew(y, from, to) && StreetNumber(from) <= StreetNumber(to)
    ensures DeckSlot(y, from, dealt) >= dealt
  {
  }

  /** A batch that starts no hand leaves the dealer its deck. */
  lemma ServedKeepsDeck(g: Game, now: nat, luck: Luck, batch: seq<Event>, a: Shoe, b: Shoe)
    requires Served(g, now, luck, batch, a, b) && forall e | e in batch :: !e.HandStarted?
    ensures b.order == a.order && b.dealt >= a.dealt
  {
    hide Plausible, KindOf, Advance, StreetEvents, UncontestedEvents, SitOutEvents, ActiveSeats;
    hide Feeds, HandStart, Posts;
    BatchOfKind(g, now, luck);
    FeedsKind(g, now, luck, a, b);
    if KindOf(g, now) == Deals {
      HandEventsInTwo(g, now, luck);
      StartIsStart(g, luck);
    } else if KindOf(g, now) == TurnsStreet {
      StreetHand(g);
    }
  }

  lemma {:induction false} SuppliedKeepsDeck(g: Game, now: nat, batches: seq<seq<Event>>, a: Shoe, b: Shoe)
    requires Supplied(g, now, batches, a, b) && forall e | e in Flat(batches) :: !e.HandStarted?
    ensures b.order == a.order && b.dealt >= a.dealt
    decreases |batches|
  {
    hide Served, Play;
    if batches != [] {
      var rest, last := batches[..|batches| - 1], batches[|batches| - 1];
      var luck, mid :| Supplied(g, now, rest, a, mid) && Served(Play(g, Flat(rest)), now, luck, last, mid, b);
      SuppliedKeepsDeck(g, now, rest, a, mid);
      ServedKeepsDeck(Play(g, Flat(rest)), now, luck, last, mid, b);
    }
  }

  /** A command whose events could not be stored leaves the hand as it was and the dealer where its run
      left it. When that run started no new hand, whatever it dealt is gone but no card comes twice, however
      the hand is played on. */
  lemma FailedWriteIsHarmless(g: Game, begun: Game, now: nat, batches: seq<seq<Event>>, a: Shoe, n: nat, b: Shoe,
                              moves: seq<Move>, shoes: seq<Shoe>)
    requires ConfigOk(g.config) && g.hand.Some? && CardsOk(g, a, n)
    requires Supplied(begun, now, batches, a, b) && forall e | e in Flat(batches) :: !e.HandStarted?
    requires |shoes| == |moves| && IsSession(g, moves, b, shoes) && OneHand(g, moves)
    ensures AllDistinct(End(g, moves))
  {
    hide CardsOk, IsSession, OneHand, AllDistinct, Supplied, OnTable, CardAt, NewCards, BoardFits;
    CardsOkFits(g, a, n);
    SuppliedKeepsDeck(begun, now, batches, a, b);
    DeckOf(g, a, n);
    HandStaysDistinctIff(g, moves, b, shoes);
    var to := End(g, moves).hand.value.phase;
    forall x | OnTable(g, x) ensures CardAt(g, x) !in NewCards(b, g.hand.value.phase, to) {
      RestOfDeckIsNew(g, a, n, b, to, x);
    }
  }

  lemma DeckOf(g: Game, a: Shoe, n: nat)
    requires g.hand.Some? && CardsOk(g, a, n)
    ensures Distinct(a.order)
  {
    var who :| |who| <= n && CardsFrom(g, a, who);
    assert CardsFrom(g, a, who);
  }

  // ── Reloads ───────────────────────────────────────────────────────────────

  /** What a reloaded dealer puts on the board: its deck is in order, so always the same cards. */
  function ReloadCards(from: Phase, to: Phase): seq<Card>
  {
    (if FlopAhead(from, to) then [1, 2, 3] else [])
    + (if TurnAhead(from, to) then (if from == Preflop then [5] else [1]) else [])
    + (if RiverAhead(from, to) then (if from == Preflop then [7] else if from == Flop then [3] else [1]) else [])
  }

  lemma ReloadsDeal(from: Phase, to: Phase)
    requires StreetNumber(from) <= StreetNumber(to) <= 3
    ensures Reaches(NewDealer(), from, to) && NewCards(NewDealer(), from, to) == ReloadCards(from, to)
  {
  }

  /** After a reload before the flop the flop is 1, 2, 3, the turn 5 and the river 7; after one on the flop
      the turn is 1 and the river 3; after one on the turn the river is 1. However the hand is played on,
      no card comes twice if and only if nobody holds, and the board does not show, any of those dealt. */
  lemma ReloadedHandDistinctIff(g: Game, moves: seq<Move>, shoes: seq<Shoe>)
    requires ConfigOk(g.config) && g.hand.Some? && BoardFits(g.hand.value) && AllDistinct(g)
    requires |shoes| == |moves| && IsSession(g, moves, NewDealer(), shoes) && OneHand(g, moves)
    ensures var last := End(g, moves);
      && last.hand.Some?
      && (AllDistinct(last) <==>
            forall x | OnTable(g, x) :: CardAt(g, x) !in ReloadCards(g.hand.value.phase, last.hand.value.phase))
  {
    hide AllDistinct, IsSession, OneHand, OnTable, CardAt, NewCards, BoardFits, ReloadCards;
    HandStaysDistinctIff(g, moves, NewDealer(), shoes);
    ReloadsDeal(g.hand.value.phase, End(g, moves).hand.value.phase);
  }

  lemma LeftDistinct(g: Game, g2: Game)
    requires g.hand.Some? && g2.hand.Some? && AllDistinct(g) && BoardFits(g.hand.value) && SameCards(g, g2)
    ensures AllDistinct(g2) && BoardFits(g2.hand.value)
  {
    forall x, y | OnTable(g2, x) && OnTable(g2, y) && x != y ensures CardAt(g2, x) != CardAt(g2, y) {
      StillThere(g, g2, x);
      StillThere(g, g2, y);
    }
  }

  lemma StillThere(g: Game, g2: Game, x: Place)
    requires SameCards(g, g2) && OnTable(g2, x)
    ensures OnTable(g, x) && CardAt(g2, x) == CardAt(g, x)
  {
  }

  /** Somebody joins or leaves while a hand is on, which was dealt from one deck so far: the table is loaded
      again, and from then on no card comes twice if and only if none that a deck in order puts on the board
      is on the table. */
  lemma LobbyReloadDistinctIff(g: Game, a: Shoe, n: nat, m: Move, moves: seq<Move>, shoes: seq<Shoe>)
    requires ConfigOk(g.config) && g.hand.Some? && CardsOk(g, a, n) && Possible(g, m) && (m.Join? || m.Leave?)
    requires |shoes| == |moves| && IsSession(After(g, m), moves, NewDealer(), shoes) && OneHand(After(g, m), moves)
    ensures var g1, last := After(g, m), End(After(g, m), moves);
      && g1.hand.Some? && last.hand.Some?
      && (AllDistinct(last) <==>
            forall x | OnTable(g1, x) :: CardAt(g1, x) !in ReloadCards(g1.hand.value.phase, last.hand.value.phase))
  {
    hide Effect, CardsOk, AllDistinct, BoardFits, IsSession, OnTable, CardAt, ReloadCards;
    hide SameCards, ConfigOk, NewDealer;
    CardsOkFits(g, a, n);
    MoveKeepsConfig(g, m);
    match m {
      case Join(p, user, seat, buyIn) =>
        JoinShowsNothing(g, p, user, seat, buyIn);
        JoinIsJoined(g, p, user, seat, buyIn);
      case Leave(p) => LeaveShowsNothing(g, p);
    }
    LeftDistinct(g, After(g, m));
    ReloadedHandDistinctIff(After(g, m), moves, shoes);
  }

  // ── Double cards ──────────────────────────────────────────────────────────

  /** Heads-up before the flop: players 7 and 8 hold the first four cards of a deck in order and have bet
      2 each. Either it is player 7's turn, or the round is closed. */
  function HeadsUp(asked: bool): Game
  {
    var config := Config(1, 2, 0, 0, 2, 6, 0, 0, 0, 0, 0, false, 0, false);
    var players := map[
      7 := Player(1, false, 8, 2, 2, false, false, Some(HoleCards(0, 1))),
      8 := Player(2, false, 8, 2, 2, false, false, Some(HoleCards(2, 3)))];
    var h := Hand(0, 7, 7, 8, Preflop, 4, 0, 2, 2, 2, 0, [], 0, if asked then Some(7) else None, None,
                  None, None, None, if asked then [7] else [], [7, 8], [], None);
    Game(1, Active, config, 1, 0, players, map[], [], Some(h))
  }

  /** A deck cut k cards before its end. */
  function Cut(k: nat): (order: seq<Card>)
    requires k < SIZE
    ensures |order| == SIZE && Distinct(order)
    ensures forall i | 0 <= i < SIZE :: order[i] == if i < k then SIZE - k + i else i - k
  {
    seq(SIZE, i requires 0 <= i < SIZE => if i < k then SIZE - k + i else i - k)
  }

  lemma HeadsUpCards(g: Game, asked: bool)
    requires g == HeadsUp(asked)
    ensures CardsOk(g, Shoe(Cut(0), 4), 2)
  {
    var who: seq<PlayerId> := [7, 8];
    assert who[..1] == [7];
    assert IndexOf(who, 7) == 0 && IndexOf(who, 8) == 1;
    assert CardsFrom(g, Shoe(Cut(0), 4), who);
  }

  lemma ClosedTurns(g: Game, now: nat)
    requires g.hand.Some? && g.players.Keys >= {7, 8} && !g.players[7].folded && !g.players[8].folded
    requires var h := g.hand.value; h.order == [7, 8] && h.pending == [] && h.acting.None? && h.phase == Preflop
    ensures KindOf(g, now) == TurnsStreet
  {
    SelectAll(g.hand.value.order, UnfoldedIds(g.players));
    assert NonFolded(g) == [7, 8];
  }

  /** A street dealt by a batch, as a session of one step. */
  lemma OneStreet(g: Game, now: nat, luck: Luck, b: Shoe, after: Shoe)
    requires ConfigOk(g.config) && g.hand.Some? && KindOf(g, now) == TurnsStreet
    requires Plausible(luck, g) && Feeds(g, now, luck, b, after)
    ensures StreetDue(g)
    ensures var moves, g2 := [Serve(now, luck)], Play(g, Advance(g, now, luck));
      && IsSession(g, moves, b, [after]) && OneHand(g, moves) && End(g, moves) == g2
      && g2.hand.Some? && g2.hand.value.phase == NextPhase(g.hand.value.phase)
  {
    hide Effect, Play, Advance, Plausible, Feeds, KindOf, KeepsHoles, ConfigOk;
    BatchShapes(g, now, luck);
    var moves := [Serve(now, luck)];
    assert moves[1..] == [] && [after][1..] == [];
    assert After(g, moves[0]) == Play(g, Advance(g, now, luck));
    OpenedPhase(g, After(g, moves[0]), luck.cards);
  }

  lemma OpenedPhase(g: Game, g2: Game, cards: seq<Card>)
    requires StreetOpened(g, g2, cards)
    ensures g2.hand.Some? && g2.hand.value.phase == NextPhase(g.hand.value.phase)
  {
  }

  /** A third player joins, the table is loaded again, and the flop shows player 7's second card. */
  lemma JoinRepeatsCards(now: nat, luck: Luck, after: Shoe)
    requires var g := Effect(HeadsUp(false), PlayerJoined(9, 9, 3, 10), None);
      Plausible(luck, g) && Feeds(g, now, luck, NewDealer(), after)
    ensures CardsOk(HeadsUp(false), Shoe(Cut(0), 4), 2)
    ensures var g := Effect(HeadsUp(false), PlayerJoined(9, 9, 3, 10), None);
      !AllDistinct(Play(g, Advance(g, now, luck)))
  {
    hide Effect, Play, Advance, Plausible, Feeds, KindOf, CardsOk, AllDistinct, IsSession, OneHand, Happens, End;
    var g := HeadsUp(false);
    HeadsUpCards(g, false);
    JoinIsJoined(g, 9, 9, 3, 10);
    var g1 := Effect(g, PlayerJoined(9, 9, 3, 10), None);
    JoinerSeesHand(g, g1);
    ClosedTurns(g1, now);
    OneStreet(g1, now, luck, NewDealer(), after);
    LobbyReloadDistinctIff(g, Shoe(Cut(0), 4), 2, Join(9, 9, 3, 10), [Serve(now, luck)], [after]);
    assert OnTable(g1, SecondHole(7)) && CardAt(g1, SecondHole(7)) == 1;
    assert 1 in ReloadCards(Preflop, Flop);
  }

  lemma JoinerSeesHand(g: Game, g1: Game)
    requires g == HeadsUp(false) && Joined(g, g1, 9, 10)
    ensures g1.hand == g.hand && g1.config == g.config && g1.players.Keys == {7, 8, 9}
    ensures g1.players[7] == g.players[7] && g1.players[8] == g.players[8] && ConfigOk(g.config)
  {
  }

  // ── A write that fails ────────────────────────────────────────────────────

  /** After player 7's fold. */
  ghost predicate Folded(g: Game)
  {
    && g.hand.Some? && g.players.Keys == {7, 8} && g.status == Active && g.config == HeadsUp(true).config
    && g.players[7] == HeadsUp(true).players[7].(folded := true) && g.players[8] == HeadsUp(true).players[8]
    && (var h := g.hand.value; h.order == [7, 8] && h.acting.None? && h.pot == 4)
  }

  lemma FoldLeaves(g: Game, v: int)
    requires g == HeadsUp(true)
    ensures Validate(g, Fold, 7).None? && Folded(Play(g, [CommandEvent(g, Fold, 7)]).(version := v))
  {
    hide Without;
    PlayOne(g, PlayerFolded(7));
  }

  lemma PickSecond(p: PlayerId, q: PlayerId, keep: set<PlayerId>)
    requires p !in keep && q in keep
    ensures Select([p, q], keep) == [q]
  {
    DropOnly(p, keep);
    assert [p, q][..1] == [p];
  }

  lemma DropOnly(p: PlayerId, keep: set<PlayerId>)
    requires p !in keep
    ensures Select([p], keep) == []
  {
    assert [p][..0] == [];
  }

  lemma FoldedPays(g: Game, now: nat)
    requires Folded(g)
    ensures KindOf(g, now) == PaysLast && UncontestedEvents(g) == [PotAwarded(4, [8]), HandEnded(g.handNumber + 1)]
  {
    PickSecond(7, 8, UnfoldedIds(g.players));
    assert NonFolded(g) == [8];
  }

  /** The two players with their chips, waiting for a hand. */
  ghost predicate Waits(g: Game)
  {
    && g.hand.None? && g.status == Waiting && g.config == HeadsUp(true).config && g.players.Keys == {7, 8}
    && forall p | p in g.players :: !g.players[p].sittingOut && g.players[p].stack > 0
  }

  lemma PaidWaits(g: Game)
    requires Folded(g)
    ensures Waits(Play(g, [PotAwarded(4, [8]), HandEnded(g.handNumber + 1)]))
  {
    hide Effect, Paid;
    var award, end := PotAwarded(4, [8]), HandEnded(g.handNumber + 1);
    PlayTwo(g, award, end);
    AwardEffect(g, 4, [8], None);
    OnePaid(g.players, 8, 4);
    EndsHandOf(Effect(g, award, None), g.handNumber + 1);
  }

  lemma OnePaid(players: map<PlayerId, Player>, p: PlayerId, amount: nat)
    requires p in players
    ensures Paid(players, [p], amount, 1) == players[p := players[p].(stack := players[p].stack + amount)]
  {
    assert Paid(players, [p], amount, 0) == players;
    assert Quotient(amount, 1) == amount && Remainder(amount, 1) == 0;
  }

  lemma EndsHandOf(g: Game, n: int)
    ensures Effect(g, HandEnded(n), None)
         == g.(handNumber := n, hand := None, status := if g.status == Active then Waiting else g.status)
  {
  }

  lemma WaitingDeals(g: Game, now: nat)
    requires Waits(g)
    ensures KindOf(g, now) == Deals && |BySeat(g.players, ActiveIds(g.players))| == 2 && ConfigOk(g.config)
    ensures forall p | p in BySeat(g.players, ActiveIds(g.players)) :: p in g.players
  {
    hide BySeat;
    ActiveFits(g.players);
    assert ActiveIds(g.players) == {7, 8};
    assert BustedIds(g.players) == {};
  }

  lemma DealAndAsk(g: Game, now: nat, order: seq<Card>, a: Shoe)
    returns (deal: seq<Event>, luck: Luck, ask: seq<Event>, luck2: Luck)
    requires Waits(g) && |order| == SIZE && Distinct(order)
    ensures Served(g, now, luck, deal, a, Shoe(order, 4)) && deal != []
    ensures Served(Play(g, deal), now, luck2, ask, Shoe(order, 4), Shoe(order, 4))
    ensures Stage(Play(Play(g, deal), ask), now) == 0
  {
    hide BySeat, Effect, Play, Advance, NewHandEvents, NextAction, Stage, KindOf, BatchOf;
    hide Plausible, Feeds, ConfigOk, StartsHand, Waits;
    WaitingDeals(g, now);
    var active := BySeat(g.players, ActiveIds(g.players));
    deal := NewHandEvents(g, active, Luck(0, order, [], []));
    luck := DealIsServed(g, now, 0, order, a, deal);
    BatchOfKind(g, now, luck);
    Dealable(g, now, luck);
    BatchIs(g, now, luck);
    NewHandRests(g, luck, now);
    var g2 := Play(g, deal);
    AskIsNext(g2, now);
    luck2 := SomeLuck(g2, [], 0);
    BatchIs(g2, now, luck2);
    KindFacts(g2, now);
    StageOfKind(g2, now);
    ask := NextAction(g2, now);
    AsksFeed(g2, now, luck2, Shoe(order, 4));
    NextActionRests(g2, now);
  }

  lemma AskIsNext(g: Game, now: nat)
    requires Stage(g, now) == 1
    ensures KindOf(g, now) == Asks
  {
    StageOfKind(g, now);
  }

  lemma AsksFeed(g: Game, now: nat, luck: Luck, b: Shoe)
    requires KindOf(g, now) == Asks
    ensures Feeds(g, now, luck, b, b)
  {
  }

  /** A fold that ends the hand, with the next hand dealt from a deck of any order: where the dealer is left
      when the write of these events fails. */
  lemma FoldRunsOn(begun: Game, now: nat, order: seq<Card>, a: Shoe) returns (batches: seq<seq<Event>>)
    requires Folded(begun) && |order| == SIZE && Distinct(order)
    ensures Supplied(begun, now, batches, a, Shoe(order, 4)) && Stage(Play(begun, Flat(batches)), now) == 0
  {
    hide Effect, Play, Served, Stage, Supplied, Flat, Folded, Waits;
    var pay := [PotAwarded(4, [8]), HandEnded(begun.handNumber + 1)];
    var luck0 := PayIsServed(begun, now, pay, a);
    PaidWaits(begun);
    var g := Play(begun, pay);
    var deal, luck, ask, luck2 := DealAndAsk(g, now, order, a);
    NoBatches(begun, now, a);
    batches := [pay, deal, ask];
    assert [] + [pay] == [pay] && [pay] + [deal] == [pay, deal] && [pay, deal] + [ask] == batches;
    MoreSupplied(begun, now, [], a, a, luck0, pay, a);
    OneFlat(pay);
    MoreSupplied(begun, now, [pay], a, a, luck, deal, Shoe(order, 4));
    TwoFlat(begun, pay, deal);
    MoreSupplied(begun, now, [pay, deal], a, Shoe(order, 4), luck2, ask, Shoe(order, 4));
    ThreeFlat(begun, pay, deal, ask);
  }

  lemma PayIsServed(g: Game, now: nat, pay: seq<Event>, a: Shoe) returns (luck: Luck)
    requires Folded(g) && pay == [PotAwarded(4, [8]), HandEnded(g.handNumber + 1)]
    ensures Served(g, now, luck, pay, a, a)
  {
    hide Folded, KindOf, UncontestedEvents, Plausible;
    FoldedPays(g, now);
    luck := SomeLuck(g, [], 0);
    BatchIs(g, now, luck);
  }

  lemma OneFlat(x: seq<Event>)
    ensures Flat([x]) == x
  {
    assert [x][..0] == [];
  }

  lemma TwoFlat(g: Game, x: seq<Event>, y: seq<Event>)
    ensures Play(g, Flat([x, y])) == Play(Play(g, x), y)
  {
    hide Effect, Play;
    OneFlat(x);
    assert [x, y][..1] == [x];
    PlayConcat(g, x, y);
  }

  lemma ThreeFlat(g: Game, x: seq<Event>, y: seq<Event>, z: seq<Event>)
    ensures Play(g, Flat([x, y, z])) == Play(Play(Play(g, x), y), z)
  {
    hide Effect, Play;
    TwoFlat(g, x, y);
    assert [x, y, z][..2] == [x, y];
    PlayConcat(g, Flat([x, y]), z);
  }

  lemma CheckCloses(g: Game)
    requires g == HeadsUp(true)
    ensures var g1 := Play(g, [CommandEvent(g, Check, 7)]);
      && g1 == g.(hand := g1.hand) && g1.hand.Some? && g1.hand.value.phase == Preflop && g1.hand.value.order == [7, 8]
      && g1.hand.value.pending == [] && g1.hand.value.acting.None?
  {
    PlayOne(g, PlayerChecked(7));
    DropOnly(7, Elems([7]) - {7});
  }

  /** A command whose events cannot be stored leaves the state as it was, but not the dealer. Here player 7
      folds, the hand ends and the next one is dealt from a new deck, and the write fails: it still is
      player 7's turn. Player 7 checks, and the flop comes from the new deck and shows a card player 7
      holds. */
  lemma FailedWriteRepeatsCards(now: nat, later: nat, luck: Luck, after: Shoe) returns (batches: seq<seq<Event>>)
    requires var g1 := Play(HeadsUp(true), [CommandEvent(HeadsUp(true), Check, 7)]);
      Plausible(luck, g1) && Feeds(g1, later, luck, Shoe(Cut(5), 4), after)
    ensures CardsOk(HeadsUp(true), Shoe(Cut(0), 4), 2)
    ensures Supplied(Play(HeadsUp(true), [CommandEvent(HeadsUp(true), Fold, 7)]).(version := 2), now, batches,
                     Shoe(Cut(0), 4), Shoe(Cut(5), 4))
    ensures var g1 := Play(HeadsUp(true), [CommandEvent(HeadsUp(true), Check, 7)]);
      !AllDistinct(Play(g1, Advance(g1, later, luck)))
  {
    hide Effect, Play, Advance, Plausible, Feeds, KindOf, CardsOk, AllDistinct, IsSession, OneHand;
    hide Happens, End, Supplied;
    hide CommandEvent, Folded, CardsStay, BoardFits;
    var g := HeadsUp(true);
    FoldLeaves(g, 2);
    batches := FoldRunsOn(Play(g, [CommandEvent(g, Fold, 7)]).(version := 2), now, Cut(5), Shoe(Cut(0), 4));
    HeadsUpCards(g, true);
    CardsOkFits(g, Shoe(Cut(0), 4), 2);
    CheckCloses(g);
    OrderShowsNothing(g, Check, 7);
    var g1 := Play(g, [CommandEvent(g, Check, 7)]);
    ShownStays(g, g1);
    LeftDistinct(g, g1);
    ClosedTurns(g1, later);
    OneStreet(g1, later, luck, Shoe(Cut(5), 4), after);
    HandStaysDistinctIff(g1, [Serve(later, luck)], Shoe(Cut(5), 4), [after]);
    assert OnTable(g1, FirstHole(7)) && CardAt(g1, FirstHole(7)) == 0;
    assert 0 == NewCards(Shoe(Cut(5), 4), Preflop, Flop)[0];
  }

  lemma ShownStays(g: Game, g1: Game)
    requires CardsStay(g, g1) && g1.hand.Some?
    ensures SameCards(g, g1)
  {
  }
}
