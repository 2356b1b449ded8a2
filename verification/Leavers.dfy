/** Hands that players leave: what every step still keeps when joins and leaves come at any time. */
module Leavers {
  import opened Collections
  import opened Cards
  import opened Table
  import opened Pots
  import opened Rules
  import opened Lifecycle
  import opened Posting
  import opened Streets
  import opened Chips
  import opened Betting
  import opened Showdown
  import opened Batches
  import opened Conservation
  import opened Rest
  import opened Runs

  // ── The invariant ─────────────────────────────────────────────────────────

  /** The betting invariant without what leaving breaks: the order may list players who are gone, whose
      chips are in the pot all the same, and somebody who left and came back need not have matched. */
  ghost predicate HandFair(players: map<PlayerId, Player>, h: Hand)
  {
    && h.phase != Phase.Showdown
    && Distinct(h.order) && h.pending == Select(h.order, Elems(h.pending))
    && (h.acting.Some? ==> h.acting.value in h.pending)
    && h.highest >= 0
    && (forall p | p in players :: BetOk(players[p], h))
    && h.pot >= CommitTotal(players)
  }

  ghost predicate TableFair(g: Game)
  {
    && ConfigOk(g.config)
    && (forall p | p in g.players :: g.players[p].stack >= 0)
    && (g.hand.Some? ==> HandFair(g.players, g.hand.value))
  }

  lemma FairFits(g: Game)
    requires TableFair(g)
    ensures BetsFit(g) && ConfigOk(g.config)
  {
  }

  /** What the pot holds beyond the commitments of those still there. */
  ghost function Forfeited(g: Game): int
    requires g.hand.Some?
  {
    g.hand.value.pot - CommitTotal(g.players)
  }

  // ── The shapes of a step within a hand ────────────────────────────────────

  /** A player who is gone is passed over when their time runs out. */
  ghost predicate Passed(g: Game, g2: Game, pid: PlayerId)
  {
    && g.hand.Some? && pid in g.hand.value.pending
    && g2 == g.(hand := Some(ActedOn(g.hand.value, pid)))
  }

  /** A step that carries the hand on. */
  ghost predicate CarriesOn(g: Game, g2: Game)
  {
    || (exists pid, delta :: Acts(g, g2, pid, delta) && pid in g.hand.value.pending)
    || (exists pid :: Passed(g, g2, pid))
    || (StreetDue(g) && NewStreet(g, g2))
    || (OnlyAsked(g, g2) && g.hand.value.acting.None?)
  }

  ghost predicate HandStep(g: Game, g2: Game)
  {
    g2 == g || OnlySat(g, g2) || CarriesOn(g, g2)
  }

  lemma ActsCarryOn(g: Game, g2: Game, pid: PlayerId, delta: int)
    requires Acts(g, g2, pid, delta) && pid in g.hand.value.pending
    ensures CarriesOn(g, g2)
  {
  }

  lemma PassCarriesOn(g: Game, g2: Game, pid: PlayerId)
    requires Passed(g, g2, pid)
    ensures CarriesOn(g, g2)
  {
  }

  lemma ActingPends(g: Game)
    requires TableFair(g) && g.hand.Some? && g.hand.value.acting.Some?
    ensures g.hand.value.acting.value in g.hand.value.pending
  {
  }

  lemma OrderIsStep(g: Game, cmd: Command, actor: PlayerId)
    requires TableFair(g) && g.hand.Some?
    ensures HandStep(g, Play(g, [CommandEvent(g, cmd, actor)]))
    ensures IsAction(cmd) && Validate(g, cmd, actor).None? ==> CarriesOn(g, Play(g, [CommandEvent(g, cmd, actor)]))
  {
    hide Effect, Play, Acts, TableFair, OnlySat, NobodySatIn, Validate, CarriesOn, BetsFit;
    FairFits(g);
    CommandShape(g, cmd, actor);
    var g2 := Play(g, [CommandEvent(g, cmd, actor)]);
    if IsAction(cmd) && Validate(g, cmd, actor).None? {
      PlayOne(g, CommandEvent(g, cmd, actor));
      LegalActionActs(g, cmd, actor);
      ActedIsEffect(g, cmd, actor);
      ActingPends(g);
      ActsCarryOn(g, g2, actor, Wager(g, cmd, actor));
    } else if g2 != g && IsAction(cmd) {
      ActingPends(g);
      ActsCarryOn(g, g2, actor, Wager(g, cmd, actor));
    }
  }

  lemma TimeoutCarriesOn(g: Game)
    requires TableFair(g) && g.hand.Some? && g.hand.value.acting.Some?
    ensures CarriesOn(g, Play(g, TimeoutAction(g)))
  {
    hide Effect, Play, Acts, CarriesOn, HandFair, Without;
    var t, pid := TimeoutAction(g), g.hand.value.acting.value;
    ActingPends(g);
    PlayTwo(g, t[0], t[1]);
    NothingTimesOut(g, pid);
    if pid in g.players {
      FairFits(g);
      TimeoutShape(g);
      if t[1].PlayerFolded? {
        FoldActs(g, pid);
      } else {
        CheckActs(g, pid);
      }
      ActsCarryOn(g, Play(g, t), pid, 0);
    } else {
      GoneChecks(g, pid);
      PassCarriesOn(g, Play(g, t), pid);
    }
  }

  lemma NothingTimesOut(g: Game, pid: PlayerId)
    ensures Effect(g, PlayerTimedOut(pid), None) == g
  {
  }

  lemma GoneChecks(g: Game, pid: PlayerId)
    requires g.hand.Some? && pid in g.hand.value.pending
    ensures Passed(g, Effect(g, PlayerChecked(pid), None), pid)
  {
    hide Without;
  }

  /** A batch within a hand is such a step, or ends the hand. */
  lemma ServeIsStep(g: Game, now: nat, luck: Luck)
    requires TableFair(g) && g.hand.Some? && Plausible(luck, g)
    ensures var g2 := Play(g, Advance(g, now, luck));
      g2.hand.None? || (HandStep(g, g2) && (Advance(g, now, luck) != [] ==> CarriesOn(g, g2)))
  {
    hide *;
    var g2 := Play(g, Advance(g, now, luck));
    BatchOfKind(g, now, luck);
    KindFacts(g, now);
    StageOfKind(g, now);
    BatchIs(g, now, luck);
    Dealable(g, now, luck);
    InHandKinds(g, now);
    match KindOf(g, now) {
      case Quiet => NothingHappens(g);
      case TimesOut => TimeoutCarriesOn(g);
      case PaysLast => UncontestedRests(g, now);
      case TurnsStreet =>
        StreetBatch(g, luck);
        StreetCarriesOn(g, g2);
      case Shows => ShowdownRests(g, luck, now);
      case Asks =>
        AskBatch(g, now);
        AskCarriesOn(g, g2);
      case SitsOut =>
      case Deals =>
    }
    StepIs(g, g2);
  }

  lemma StepIs(g: Game, g2: Game)
    ensures g2 == g || CarriesOn(g, g2) ==> HandStep(g, g2)
  {
  }

  lemma StreetCarriesOn(g: Game, g2: Game)
    requires StreetDue(g) && NewStreet(g, g2)
    ensures CarriesOn(g, g2)
  {
  }

  lemma AskCarriesOn(g: Game, g2: Game)
    requires OnlyAsked(g, g2) && g.hand.value.acting.None?
    ensures CarriesOn(g, g2)
  {
  }

  // ── What such a step keeps ────────────────────────────────────────────────

  /** The invariant, who is there, each player's stack and commitment together, and what was forfeited. */
  ghost predicate KeepsHand(g: Game, g2: Game)
  {
    && g.hand.Some? && g2.hand.Some? && TableFair(g2) && SameLedger(g, g2)
    && g2.players.Keys == g.players.Keys && g2.config == g.config
    && Elems(g2.hand.value.order) <= Elems(g.hand.value.order) + g.players.Keys
    && Forfeited(g2) == Forfeited(g)
  }

  lemma ActsKeep(g: Game, g2: Game, pid: PlayerId, delta: int)
    requires TableFair(g) && Acts(g, g2, pid, delta)
    ensures KeepsHand(g, g2)
  {
    hide CommitTotal, StackTotal;
    ActsKeepsBets(g, g2, pid, delta);
    ActsKeepsPending(g, g2, pid, delta);
    TotalsAfterUpdate(g.players, pid, g2.players[pid]);
    assert forall p | p in g2.players :: BetOk(g2.players[p], g2.hand.value);
  }

  lemma PassKeeps(g: Game, g2: Game, pid: PlayerId)
    requires TableFair(g) && Passed(g, g2, pid)
    ensures KeepsHand(g, g2)
  {
    hide CommitTotal;
    var h := g.hand.value;
    SelectTwice(h.order, Elems(h.pending), Elems(h.pending) - {pid});
    assert Elems(h.pending) * (Elems(h.pending) - {pid}) == Elems(h.pending) - {pid};
    assert h.pending == Select(h.order, Elems(h.pending));
    SelectElems(h.order, Elems(h.pending) - {pid});
    SelectSame(h.order, Elems(h.pending) - {pid}, Elems(Without(h.pending, pid)));
    forall p | p in g2.players ensures BetOk(g2.players[p], g2.hand.value) {
      assert BetOk(g.players[p], h);
    }
  }

  lemma StreetKeeps(g: Game, g2: Game)
    requires TableFair(g) && StreetDue(g) && NewStreet(g, g2)
    ensures KeepsHand(g, g2)
  {
    hide CommitTotal, StackTotal, PostflopOrder, TableFair, ActiveIds, Distinct, Select;
    StreetIsFair(g, g2);
    StreetOrder(g, g2);
    SameStacksSameTotal(g.players, g2.players);
  }

  lemma StreetOrder(g: Game, g2: Game)
    requires NewStreet(g, g2)
    ensures Elems(g2.hand.value.order) <= g.players.Keys
  {
    hide PostflopOrder;
  }

  lemma StreetIsFair(g: Game, g2: Game)
    requires TableFair(g) && StreetDue(g) && NewStreet(g, g2)
    ensures TableFair(g2)
  {
    hide CommitTotal, StackTotal, PostflopOrder, ActiveIds;
    var h, h2 := g.hand.value, g2.hand.value;
    SameStacksSameTotal(g.players, g2.players);
    SelectAll(h2.order, Elems(h2.pending));
    forall p | p in g2.players ensures BetOk(g2.players[p], h2) {
      assert BetOk(g.players[p], h);
    }
  }

  lemma AskKeeps(g: Game, g2: Game)
    requires TableFair(g) && OnlyAsked(g, g2)
    ensures KeepsHand(g, g2)
  {
    hide CommitTotal;
    forall p | p in g2.players ensures BetOk(g2.players[p], g2.hand.value) {
      assert BetOk(g.players[p], g.hand.value);
    }
  }

  lemma SatKeeps(g: Game, g2: Game)
    requires TableFair(g) && g.hand.Some? && OnlySat(g, g2)
    ensures KeepsHand(g, g2)
  {
    hide CommitTotal, StackTotal;
    SameStacksSameTotal(g.players, g2.players);
    forall p | p in g2.players ensures BetOk(g2.players[p], g2.hand.value) {
      assert BetOk(g.players[p], g.hand.value);
    }
  }

  lemma SameKeeps(g: Game)
    requires TableFair(g) && g.hand.Some?
    ensures KeepsHand(g, g)
  {
  }

  lemma StepKeeps(g: Game, g2: Game)
    requires TableFair(g) && g.hand.Some? && HandStep(g, g2)
    ensures KeepsHand(g, g2)
  {
    hide TableFair, Acts, Passed, NewStreet, OnlyAsked, OnlySat, KeepsHand, StreetDue;
    if g2 == g {
      SameKeeps(g);
    } else if OnlySat(g, g2) {
      SatKeeps(g, g2);
    } else if StreetDue(g) && NewStreet(g, g2) {
      StreetKeeps(g, g2);
    } else if OnlyAsked(g, g2) {
      AskKeeps(g, g2);
    } else if pid :| Passed(g, g2, pid) {
      PassKeeps(g, g2, pid);
    } else {
      var pid, delta :| Acts(g, g2, pid, delta) && pid in g.hand.value.pending;
      ActsKeep(g, g2, pid, delta);
    }
  }

  // ── Leaving and joining ───────────────────────────────────────────────────

  /** p is gone, and folded first when not folded yet. */
  ghost predicate Departed(g: Game, g2: Game, p: PlayerId)
  {
    && p in g.players && g2.config == g.config && g2.status == g.status && g2.players == g.players - {p}
    && (g2.hand.Some? <==> g.hand.Some?)
    && (g.hand.Some? ==>
          g2.hand.value == if g.players[p].folded then g.hand.value else ActedOn(g.hand.value, p))
  }

  lemma LeaveDeparts(g: Game, p: PlayerId)
    requires p in g.players
    ensures Departed(g, After(g, Leave(p)), p)
  {
    hide Without;
    var g2 := After(g, Leave(p));
    assert g2.players == g.players - {p};
  }

  lemma DepartedPending(h: Hand, p: PlayerId)
    requires h.pending == Select(h.order, Elems(h.pending))
    ensures var h2 := ActedOn(h, p); h2.pending == Select(h2.order, Elems(h2.pending)) && |h2.pending| <= |h.pending|
  {
    var keep := Elems(h.pending) - {p};
    SelectTwice(h.order, Elems(h.pending), keep);
    assert Elems(h.pending) * keep == keep;
    SelectElems(h.order, keep);
    SelectElems(h.pending, keep);
    SelectSame(h.order, keep, Elems(Without(h.pending, p)));
  }

  /** Leaving forfeits what was committed; nobody else's chips change. */
  lemma LeaveKeeps(g: Game, g2: Game, p: PlayerId)
    requires TableFair(g) && Departed(g, g2, p)
    ensures TableFair(g2)
    ensures g.hand.Some? ==> g2.hand.Some? && Forfeited(g2) == Forfeited(g) + g.players[p].committed
    ensures StackTotal(g2.players) == StackTotal(g.players) - g.players[p].stack
  {
    hide Total, Without, Select;
    TotalRemove(Commitments(g.players), p);
    TotalRemove(Stacks(g.players), p);
    assert Commitments(g2.players) == Commitments(g.players) - {p};
    assert Stacks(g2.players) == Stacks(g.players) - {p};
    if g.hand.Some? {
      DepartedPending(g.hand.value, p);
      forall q | q in g2.players ensures BetOk(g2.players[q], g2.hand.value) {
        assert BetOk(g.players[q], g.hand.value);
      }
      assert BetOk(g.players[p], g.hand.value);
    }
  }

  lemma JoinKeeps(g: Game, g2: Game, p: PlayerId, buyIn: int)
    requires TableFair(g) && Joined(g, g2, p, buyIn) && buyIn >= 0
    ensures TableFair(g2)
    ensures g.hand.Some? ==> g2.hand.Some? && Forfeited(g2) == Forfeited(g)
    ensures StackTotal(g2.players) == StackTotal(g.players) + buyIn
  {
    hide StackTotal, CommitTotal;
    JoinedTotals(g, g2, p, buyIn);
    if g.hand.Some? {
      forall q | q in g2.players ensures BetOk(g2.players[q], g.hand.value) {
        assert q != p ==> BetOk(g.players[q], g.hand.value);
      }
    }
  }

  // ── Hands that end ────────────────────────────────────────────────────────

  /** Stacks only grow. */
  ghost predicate NobodyLoses(g: Game, g2: Game)
  {
    g2.players.Keys == g.players.Keys && forall p | p in g.players :: g2.players[p].stack >= g.players[p].stack
  }

  /** What ends a hand: announcements, rake, and awards of something. */
  predicate Ends(e: Event)
  {
    || e.BettingRoundEnded? || e.ShowdownReached? || e.SidePotCreated? || e.RakeTaken? || e.HandEnded?
    || (e.PotAwarded? && e.amount >= 0)
  }

  lemma {:induction false} PaidGrows(players: map<PlayerId, Player>, winners: seq<PlayerId>, amount: nat, k: nat)
    requires k <= |winners|
    ensures forall p | p in players :: Paid(players, winners, amount, k)[p].stack >= players[p].stack
  {
    if k > 0 {
      PaidGrows(players, winners, amount, k - 1);
      assert amount / |winners| * |winners| <= amount;
    }
  }

  lemma EndsOne(g: Game, e: Event)
    requires Ends(e)
    ensures NobodyLoses(g, Effect(g, e, None))
  {
    hide Paid;
    if e.PotAwarded? {
      PaidGrows(g.players, e.winners, e.amount, |e.winners|);
    }
  }

  lemma {:induction false} EndsAll(g: Game, events: seq<Event>)
    requires forall e | e in events :: Ends(e)
    ensures NobodyLoses(g, Play(g, events))
  {
    hide Effect, Ends;
    if events != [] {
      LastBack(events);
      EndsAll(g, events[..|events| - 1]);
      EndsOne(Play(g, events[..|events| - 1]), events[|events| - 1]);
    }
  }

  lemma {:induction false} AwardsEnd(evals: map<PlayerId, nat>, nonFolded: seq<PlayerId>, pots: seq<Pot>, k: nat)
    requires k <= |pots|
    ensures forall e | e in AwardEvents(evals, nonFolded, pots, k) :: Ends(e)
  {
    hide Winners;
    if k > 0 {
      AwardsEnd(evals, nonFolded, pots, k - 1);
    }
  }

  lemma SettlementEnds(g: Game, luck: Luck)
    requires g.hand.Some? && |luck.cards| >= 3 && g.hand.value.phase == River
    ensures forall e | e in StreetEvents(g, luck) :: Ends(e)
  {
    hide Evals, NonFolded, HandPots, Rake, TakeRake;
    if NonFolded(g) != [] {
      var pots, rake := HandPots(g, luck.stakes), Rake(g.hand.value.pot, g.config);
      AwardsEnd(Evals(g), NonFolded(g), TakeRake(pots, rake), |pots|);
      SidePotsOnly(pots);
    }
  }

  lemma UncontestedEnds(g: Game)
    requires TableFair(g) && g.hand.Some?
    ensures forall e | e in UncontestedEvents(g) :: Ends(e)
  {
    hide NonFolded, Rake;
    PotIsThere(g);
    RakeBounds(g.hand.value.pot, g.config);
  }

  lemma PotIsThere(g: Game)
    requires TableFair(g) && g.hand.Some?
    ensures g.hand.value.pot >= 0
  {
    assert forall p | p in g.players :: BetOk(g.players[p], g.hand.value);
    CommitAtLeast(g.players, 0);
  }

  lemma EndedIsFair(g: Game, g2: Game)
    requires TableFair(g) && NobodyLoses(g, g2) && g2.hand.None? && g2.config == g.config
    ensures TableFair(g2)
  {
  }

  lemma HandEndsFair(g: Game, now: nat, luck: Luck)
    requires TableFair(g) && g.hand.Some? && Plausible(luck, g) && KindOf(g, now) in {PaysLast, Shows}
    ensures TableFair(Play(g, Advance(g, now, luck)))
  {
    hide *;
    var g2 := Play(g, Advance(g, now, luck));
    BatchOfKind(g, now, luck);
    KindFacts(g, now);
    StageOfKind(g, now);
    BatchIs(g, now, luck);
    Dealable(g, now, luck);
    if KindOf(g, now) == PaysLast {
      UncontestedRests(g, now);
      UncontestedEnds(g);
    } else {
      ShowdownRests(g, luck, now);
      SettlementEnds(g, luck);
    }
    EndsAll(g, Advance(g, now, luck));
    EndedIsFair(g, g2);
  }

  // ── Any step ──────────────────────────────────────────────────────────────

  /** Players come and go at any time; a new hand finds its antes covered. */
  ghost predicate Allowed(g: Game, m: Move)
  {
    Possible(g, m) && (m.Serve? ==> Covered(g, m.now)) && (m.Join? ==> m.buyIn > 0)
  }

  lemma BetweenHandsFair(g: Game, g2: Game)
    requires g.hand.None? && TableFair(g)
    ensures TableOk(g)
    ensures TableOk(g2) ==> TableFair(g2)
  {
  }

  lemma EndsOrStays(g: Game, now: nat, luck: Luck)
    requires TableFair(g) && g.hand.Some? && Plausible(luck, g)
    ensures Play(g, Advance(g, now, luck)).hand.None? ==> KindOf(g, now) in {PaysLast, Shows}
  {
    hide *;
    var g2 := Play(g, Advance(g, now, luck));
    BatchOfKind(g, now, luck);
    KindFacts(g, now);
    StageOfKind(g, now);
    BatchIs(g, now, luck);
    Dealable(g, now, luck);
    InHandKinds(g, now);
    match KindOf(g, now) {
      case Quiet => NothingHappens(g);
      case TimesOut =>
        TimeoutCarriesOn(g);
        StepIs(g, g2);
        StepKeeps(g, g2);
        KeptHand(g, g2);
      case TurnsStreet => StreetIsNew(g, luck);
        StillOn(g, g2);
      case Asks =>
        AskBatch(g, now);
        AskedHand(g, g2);
      case _ =>
    }
  }

  lemma KeptHand(g: Game, g2: Game)
    requires KeepsHand(g, g2)
    ensures g2.hand.Some? && TableFair(g2)
  {
  }

  lemma StillOn(g: Game, g2: Game)
    requires NewStreet(g, g2)
    ensures g2.hand.Some?
  {
  }

  lemma AskedHand(g: Game, g2: Game)
    requires OnlyAsked(g, g2)
    ensures g2.hand.Some?
  {
  }

  lemma ServeKeepsFair(g: Game, now: nat, luck: Luck)
    requires TableFair(g) && Plausible(luck, g) && Covered(g, now)
    ensures TableFair(Play(g, Advance(g, now, luck)))
  {
    hide *;
    var g2 := Play(g, Advance(g, now, luck));
    if g.hand.None? {
      BetweenHandsFair(g, g2);
      BatchConservesIff(g, now, luck);
    } else if g2.hand.None? {
      EndsOrStays(g, now, luck);
      HandEndsFair(g, now, luck);
    } else {
      ServeIsStep(g, now, luck);
      StepKeeps(g, g2);
      KeptHand(g, g2);
    }
  }

  lemma MoveKeepsFair(g: Game, m: Move)
    requires TableFair(g) && Allowed(g, m)
    ensures TableFair(After(g, m))
  {
    hide Effect, Play, Advance, TableFair, Plausible, Covered, CommandEvent, TableOk, HandStep, KeepsHand;
    match m
    case Order(cmd, actor) =>
      if g.hand.Some? {
        OrderIsStep(g, cmd, actor);
        StepKeeps(g, After(g, m));
        KeptHand(g, After(g, m));
      } else {
        BetweenHandsFair(g, After(g, m));
        CommandKeepsTable(g, cmd, actor);
      }
    case Serve(now, luck) => ServeKeepsFair(g, now, luck);
    case Join(p, user, seat, buyIn) =>
      JoinIsJoined(g, p, user, seat, buyIn);
      JoinKeeps(g, After(g, m), p, buyIn);
    case Leave(p) =>
      LeaveDeparts(g, p);
      LeaveKeeps(g, After(g, m), p);
  }

  ghost predicate IsOpenRun(g: Game, moves: seq<Move>)
    ensures IsOpenRun(g, moves) ==> Happens(g, moves)
    decreases |moves|
  {
    moves == [] || (Allowed(g, moves[0]) && IsOpenRun(After(g, moves[0]), moves[1..]))
  }

  /** Over any run, leaves in the middle of a hand included, every state satisfies the invariant. */
  lemma {:induction false} OpenRunKeepsFair(g: Game, moves: seq<Move>)
    requires TableFair(g) && IsOpenRun(g, moves)
    ensures TableFair(End(g, moves))
    decreases |moves|
  {
    hide TableFair, After, Possible;
    if moves != [] {
      MoveKeepsFair(g, moves[0]);
      OpenRunKeepsFair(After(g, moves[0]), moves[1..]);
    }
  }

  /** What that says of a hand: the players still to act are a duplicate-free subsequence of the order, the
      acting player is one of them, no bet exceeds the highest, no stack is below zero, and the pot holds at
      least what those still there committed. */
  lemma OpenBetting(config: Config, moves: seq<Move>) returns (at: seq<nat>)
    requires ConfigOk(config) && IsOpenRun(NewTable(config), moves)
    ensures var g := End(NewTable(config), moves);
      && (forall p | p in g.players :: g.players[p].stack >= 0)
      && (g.hand.Some? ==>
        var h := g.hand.value;
        && Distinct(h.order) && Distinct(h.pending) && |at| == |h.pending|
        && (forall i | 0 <= i < |at| :: at[i] < |h.order| && h.order[at[i]] == h.pending[i])
        && (forall i, j | 0 <= i < j < |at| :: at[i] < at[j])
        && (h.acting.Some? ==> h.acting.value in h.pending)
        && (forall p | p in g.players :: 0 <= g.players[p].currentBet <= h.highest)
        && h.pot >= CommitTotal(g.players))
  {
    hide IsOpenRun, CommitTotal;
    OpenRunKeepsFair(NewTable(config), moves);
    var g := End(NewTable(config), moves);
    at := [];
    if g.hand.Some? {
      var h := g.hand.value;
      SelectDistinct(h.order, Elems(h.pending));
      at := SelectIsSubsequence(h.order, Elems(h.pending));
      assert forall p | p in g.players :: BetOk(g.players[p], h);
    }
  }

  // ── The ledger ────────────────────────────────────────────────────────────

  /** A hand is on in every state of the run. */
  ghost predicate HandLasts(g: Game, moves: seq<Move>)
    requires Happens(g, moves)
    decreases |moves|
  {
    g.hand.Some? && (moves == [] || HandLasts(After(g, moves[0]), moves[1..]))
  }

  /** What a step forfeits: the commitment of whoever leaves. */
  ghost function Forfeit(g: Game, m: Move): int
    requires Possible(g, m)
  {
    if m.Leave? then g.players[m.player].committed else 0
  }

  ghost function ForfeitOf(g: Game, moves: seq<Move>): int
    requires Happens(g, moves)
    decreases |moves|
  {
    if moves == [] then 0 else Forfeit(g, moves[0]) + ForfeitOf(After(g, moves[0]), moves[1..])
  }

  ghost predicate Remains(p: PlayerId, moves: seq<Move>)
  {
    forall i | 0 <= i < |moves| :: moves[i] != Leave(p)
  }

  lemma MoveLedger(g: Game, m: Move, p: PlayerId)
    requires TableFair(g) && Allowed(g, m) && g.hand.Some? && After(g, m).hand.Some? && p in g.players && m != Leave(p)
    ensures var g2 := After(g, m);
      && p in g2.players && g2.players[p].stack + g2.players[p].committed == g.players[p].stack + g.players[p].committed
      && Forfeited(g2) == Forfeited(g) + Forfeit(g, m)
  {
    hide Effect, Play, Advance, TableFair, Plausible, Covered, CommandEvent, HandStep, CommitTotal;
    match m
    case Order(cmd, actor) =>
      OrderIsStep(g, cmd, actor);
      StepKeeps(g, After(g, m));
    case Serve(now, luck) =>
      ServeIsStep(g, now, luck);
      StepKeeps(g, After(g, m));
    case Join(q, user, seat, buyIn) =>
      JoinIsJoined(g, q, user, seat, buyIn);
      JoinKeeps(g, After(g, m), q, buyIn);
    case Leave(q) =>
      LeaveDeparts(g, q);
      LeaveKeeps(g, After(g, m), q);
  }

  /** While a hand lasts, across all actions, streets, joins and leaves, stack and commitment of everybody who
      stays add up to the same, and the pot is what those still there committed and what leavers left in it. */
  lemma {:induction false} OpenRunKeepsLedger(g: Game, moves: seq<Move>, p: PlayerId)
    requires TableFair(g) && IsOpenRun(g, moves) && HandLasts(g, moves) && p in g.players && Remains(p, moves)
    ensures var g2 := End(g, moves);
      && g2.hand.Some? && p in g2.players
      && g2.players[p].stack + g2.players[p].committed == g.players[p].stack + g.players[p].committed
      && Forfeited(g2) == Forfeited(g) + ForfeitOf(g, moves)
    decreases |moves|
  {
    hide TableFair, After, Possible, Forfeited, Forfeit;
    if moves != [] {
      var g1 := After(g, moves[0]);
      assert HandLasts(g1, moves[1..]) && g1.hand.Some?;
      assert moves[0] != Leave(p);
      MoveKeepsFair(g, moves[0]);
      MoveLedger(g, moves[0], p);
      OpenRunKeepsLedger(g1, moves[1..], p);
    }
  }
}
