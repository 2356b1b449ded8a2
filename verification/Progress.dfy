/** How a hand goes on: when another step is possible, and the two ways in which it can get stuck. */
module Progress {
  import opened Collections
  import opened Table
  import opened Rules
  import opened Lifecycle
  import opened Posting
  import opened Streets
  import opened Betting
  import opened Batches
  import opened Conservation
  import opened Rest
  import opened Runs
  import opened Chips
  import opened Leavers
  import opened Termination
  import opened Outcomes

  /** Somebody is asked to act only while two or more are left in the hand. */
  ghost predicate Asked(g: Game)
  {
    g.hand.Some? ==> g.status == Active && (g.hand.value.acting.Some? ==> |NonFolded(g)| >= 2)
  }

  /** Nobody is left in the order, and nobody is asked. */
  ghost predicate Stalled(g: Game)
  {
    g.hand.Some? && g.hand.value.acting.None? && NonFolded(g) == []
  }

  // ── What each kind of step leaves ─────────────────────────────────────────

  /** The same hand with the same players left in it. */
  ghost predicate SameContest(g: Game, g2: Game)
  {
    && g2.hand == g.hand && (g.hand.Some? ==> g2.status == g.status)
    && (g.hand.Some? ==> NonFolded(g2) == NonFolded(g))
  }

  lemma ContestStays(g: Game, g2: Game)
    requires SameContest(g, g2)
    ensures Asked(g) ==> Asked(g2)
    ensures Stalled(g2) <==> Stalled(g)
  {
  }

  lemma SatContest(g: Game, g2: Game)
    requires OnlySat(g, g2)
    ensures SameContest(g, g2)
  {
    assert UnfoldedIds(g2.players) == UnfoldedIds(g.players);
  }

  lemma {:induction false} SelectMore<T>(s: seq<T>, a: set<T>, b: set<T>)
    requires forall x | x in s && x in a :: x in b
    ensures |Select(s, a)| <= |Select(s, b)|
  {
    if s != [] {
      SelectMore(s[..|s| - 1], a, b);
    }
  }

  /** A newcomer changes nothing, unless they left this hand before and the order still lists them. */
  lemma JoinContest(g: Game, g2: Game, p: PlayerId, buyIn: int)
    requires Joined(g, g2, p, buyIn)
    ensures (g.hand.Some? && p in g.hand.value.order) || SameContest(g, g2)
    ensures Asked(g) ==> Asked(g2)
    ensures Stalled(g2) ==> Stalled(g)
  {
    if g.hand.Some? {
      var order := g.hand.value.order;
      SelectMore(order, UnfoldedIds(g.players), UnfoldedIds(g2.players));
      if p !in order {
        SelectSame(order, UnfoldedIds(g.players), UnfoldedIds(g2.players));
      }
    }
  }

  lemma LeaveContest(g: Game, g2: Game, p: PlayerId)
    requires TableFair(g) && Asked(g) && Departed(g, g2, p)
    ensures Asked(g2)
    ensures Stalled(g2) ==> Stalled(g) || NonFolded(g) == [p]
    ensures Stalled(g) ==> Stalled(g2) && g2.hand == g.hand
  {
    hide HandFair;
    if g.hand.Some? {
      var order := g.hand.value.order;
      SelectElems(order, UnfoldedIds(g.players));
      if g.players[p].folded || p !in order {
        SelectSame(order, UnfoldedIds(g.players), UnfoldedIds(g2.players));
        if !g.players[p].folded && g.hand.value.acting.None? {
          NotPending(g, p);
        }
      } else {
        OneFewer(g, g2, p);
      }
    }
  }

  lemma NotPending(g: Game, p: PlayerId)
    requires TableFair(g) && g.hand.Some? && p !in g.hand.value.order && g.hand.value.acting.None?
    ensures ActedOn(g.hand.value, p) == g.hand.value
  {
    var h := g.hand.value;
    SelectElems(h.order, Elems(h.pending));
    assert p !in h.pending;
    SelectAll(h.pending, Elems(h.pending) - {p});
  }

  /** An unfolded player of the order leaves: nobody is asked any more, and one fewer is left. */
  lemma OneFewer(g: Game, g2: Game, p: PlayerId)
    requires TableFair(g) && Departed(g, g2, p) && g.hand.Some? && !g.players[p].folded && p in g.hand.value.order
    ensures g2.hand.Some? && g2.hand.value.acting.None? && p in NonFolded(g)
    ensures NonFolded(g2) == [] ==> NonFolded(g) == [p]
  {
    hide CommitTotal;
    var order, left := g.hand.value.order, NonFolded(g);
    SelectElems(order, UnfoldedIds(g.players));
    SelectDistinct(order, UnfoldedIds(g.players));
    SelectElems(order, UnfoldedIds(g2.players));
    if NonFolded(g2) == [] {
      assert forall q | q in left && q != p :: q in NonFolded(g2);
      assert Elems(left) == {p};
      DistinctLength(left);
      assert left[0] in left;
    }
  }

  /** One action removes at most the one who acts. */
  lemma ActsLeavesOne(g: Game, g2: Game, pid: PlayerId, delta: int)
    requires TableFair(g) && Asked(g) && Acts(g, g2, pid, delta) && g.hand.value.acting == Some(pid)
    ensures Asked(g2) && !Stalled(g2)
  {
    var left := NonFolded(g);
    SelectElems(g.hand.value.order, UnfoldedIds(g.players));
    SelectDistinct(g.hand.value.order, UnfoldedIds(g.players));
    SelectElems(g2.hand.value.order, UnfoldedIds(g2.players));
    var q := if left[0] == pid then left[1] else left[0];
    assert q in left && q != pid && left[0] != left[1];
    assert q in NonFolded(g2);
  }

  lemma PassContest(g: Game, g2: Game, pid: PlayerId)
    requires Asked(g) && Passed(g, g2, pid) && g.hand.value.acting == Some(pid)
    ensures Asked(g2) && !Stalled(g2)
  {
    hide Without;
    assert NonFolded(g2) == NonFolded(g);
  }

  lemma AskContest(g: Game, g2: Game)
    requires OnlyAsked(g, g2) && |NonFolded(g)| >= 2
    ensures Asked(g) ==> Asked(g2)
    ensures !Stalled(g2)
  {
    assert NonFolded(g2) == NonFolded(g);
  }

  lemma StreetContest(g: Game, g2: Game)
    requires NewStreet(g, g2)
    ensures Asked(g) ==> Asked(g2)
    ensures Stalled(g2) <==> StillLive(g.players) == {}
  {
    hide PostflopOrder;
    LiveAreNonFolded(g, g2);
    if NonFolded(g2) != [] {
      assert NonFolded(g2)[0] in Elems(NonFolded(g2));
    }
  }

  lemma DealContest(g: Game, g2: Game)
    requires JustDealt(g, g2) && |ActiveIds(g.players)| >= 2
    ensures Asked(g2) && !Stalled(g2)
  {
    hide NonFolded;
    EveryoneIsIn(g, g2);
  }

  // ── Steps ─────────────────────────────────────────────────────────────────

  lemma OrderContest(g: Game, cmd: Command, actor: PlayerId)
    requires TableFair(g) && Asked(g)
    ensures var g2 := Play(g, [CommandEvent(g, cmd, actor)]);
      Asked(g2) && (Stalled(g2) ==> Stalled(g)) && (Stalled(g) ==> SameContest(g, g2))
  {
    hide Effect, Play, Acts, TableFair, HandFair, OnlySat, NobodySatIn, NonFolded, CommandEvent, BetsFit;
    FairFits(g);
    CommandShape(g, cmd, actor);
    var g2 := Play(g, [CommandEvent(g, cmd, actor)]);
    if g2 != g {
      if g.hand.Some? && g.hand.value.acting == Some(actor) && IsAction(cmd) {
        ActsLeavesOne(g, g2, actor, Wager(g, cmd, actor));
      } else {
        SatContest(g, g2);
        ContestStays(g, g2);
      }
    }
  }

  /** The street on which nobody live was left. */
  ghost predicate TurnsEmpty(g: Game, now: nat)
  {
    StreetDue(g) && KindOf(g, now) == TurnsStreet && StillLive(g.players) == {}
  }

  lemma TimeoutContest(g: Game)
    requires TableFair(g) && Asked(g) && g.hand.Some? && g.hand.value.acting.Some?
    ensures Asked(Play(g, TimeoutAction(g))) && !Stalled(Play(g, TimeoutAction(g)))
  {
    hide Effect, Play, Acts, HandFair, NonFolded, Without;
    var t, pid := TimeoutAction(g), g.hand.value.acting.value;
    ActingPends(g);
    PlayTwo(g, t[0], t[1]);
    NothingTimesOut(g, pid);
    if pid in g.players {
      FairFits(g);
      TimeoutShape(g);
      if t[1].PlayerFolded? {
        FoldActs(g, pid);
      } else {
        CheckActs(g, pid);
      }
      ActsLeavesOne(g, Play(g, t), pid, 0);
    } else {
      GoneChecks(g, pid);
      PassContest(g, Play(g, t), pid);
    }
  }

  lemma ServeContest(g: Game, now: nat, luck: Luck)
    requires TableFair(g) && Asked(g) && Plausible(luck, g)
    ensures var g2 := Play(g, Advance(g, now, luck));
      Asked(g2) && (Stalled(g2) ==> Stalled(g) || TurnsEmpty(g, now)) && (Stalled(g) ==> SameContest(g, g2))
  {
    hide *;
    var g2 := Play(g, Advance(g, now, luck));
    BatchOfKind(g, now, luck);
    KindFacts(g, now);
    StageOfKind(g, now);
    BatchIs(g, now, luck);
    Dealable(g, now, luck);
    StalledIsQuiet(g, now);
    match KindOf(g, now)
    case Quiet =>
      NothingHappens(g);
      SameIsSame(g);
    case SitsOut =>
      SitOutBatch(g, luck);
      SatContest(g, g2);
      ContestStays(g, g2);
    case Deals =>
      FairFits(g);
      EnoughStart(g);
      NewHandDealt(g, now, luck);
      DealContest(g, g2);
    case TimesOut => TimeoutContest(g);
    case PaysLast =>
      UncontestedRests(g, now);
      GoneIsNotStalled(g2);
    case TurnsStreet =>
      StreetBatch(g, luck);
      StreetContest(g, g2);
      TurnsWhenEmpty(g, now);
    case Shows =>
      ShowdownRests(g, luck, now);
      GoneIsNotStalled(g2);
    case Asks =>
      AskBatch(g, now);
      AskContest(g, g2);
  }

  lemma TurnsWhenEmpty(g: Game, now: nat)
    requires StreetDue(g) && KindOf(g, now) == TurnsStreet
    ensures TurnsEmpty(g, now) <==> StillLive(g.players) == {}
  {
  }

  lemma SameIsSame(g: Game)
    ensures SameContest(g, g)
  {
  }

  lemma GoneIsNotStalled(g: Game)
    requires g.hand.None?
    ensures Asked(g) && !Stalled(g)
  {
  }

  lemma StalledIsQuiet(g: Game, now: nat)
    ensures Stalled(g) ==> KindOf(g, now) == Quiet
  {
  }

  /** The step after which nobody was left: a street with nobody live, or the last player's leave. */
  ghost predicate Strands(g: Game, m: Move)
  {
    (m.Serve? && TurnsEmpty(g, m.now)) || (m.Leave? && g.hand.Some? && NonFolded(g) == [m.player])
  }

  /** Every step keeps Asked; only a stranding step stalls a hand; and a stalled hand does not move until
      somebody who left it comes back. */
  lemma MoveContest(g: Game, m: Move)
    requires TableFair(g) && Asked(g) && Allowed(g, m)
    ensures var g2 := After(g, m);
      && Asked(g2)
      && (Stalled(g2) ==> Stalled(g) || Strands(g, m))
      && (Stalled(g) && Stalled(g2) ==> g2.hand == g.hand)
      && (Stalled(g) && !(m.Join? && g.hand.Some? && m.player in g.hand.value.order) ==> Stalled(g2))
  {
    hide Effect, Play, Advance, TableFair, Asked, Plausible, Covered, TurnsEmpty, NonFolded, CommandEvent;
    var g2 := After(g, m);
    match m
    case Order(cmd, actor) =>
      OrderContest(g, cmd, actor);
      if Stalled(g) {
        ContestStays(g, g2);
      }
    case Serve(now, luck) =>
      ServeContest(g, now, luck);
      if Stalled(g) {
        ContestStays(g, g2);
      }
    case Join(p, user, seat, buyIn) =>
      JoinIsJoined(g, p, user, seat, buyIn);
      JoinContest(g, g2, p, buyIn);
      SameHandJoined(g, g2, p, buyIn);
      if SameContest(g, g2) {
        ContestStays(g, g2);
      }
    case Leave(p) =>
      LeaveDeparts(g, p);
      LeaveContest(g, g2, p);
      DepartedHand(g, g2, p);
  }

  lemma SameHandJoined(g: Game, g2: Game, p: PlayerId, buyIn: int)
    requires Joined(g, g2, p, buyIn)
    ensures g2.hand == g.hand
  {
  }

  lemma DepartedHand(g: Game, g2: Game, p: PlayerId)
    requires Departed(g, g2, p)
    ensures g2.hand.Some? <==> g.hand.Some?
  {
  }

  // ── Runs ──────────────────────────────────────────────────────────────────

  lemma {:induction false} RunKeepsAsked(g: Game, moves: seq<Move>)
    requires TableFair(g) && Asked(g) && IsOpenRun(g, moves)
    ensures TableFair(End(g, moves)) && Asked(End(g, moves))
    decreases |moves|
  {
    hide TableFair, Asked, After, Possible;
    if moves != [] {
      MoveKeepsFair(g, moves[0]);
      MoveContest(g, moves[0]);
      RunKeepsAsked(After(g, moves[0]), moves[1..]);
    }
  }

  /** Step k of the run left nobody in the hand, and the hand has not moved since. */
  ghost predicate StuckSince(g: Game, moves: seq<Move>, k: nat)
    requires Happens(g, moves)
  {
    && k < |moves| && Happens(g, moves[..k])
    && (var t := End(g, moves[..k]);
        Possible(t, moves[k]) && Strands(t, moves[k]) && After(t, moves[k]).hand == End(g, moves).hand)
  }

  /** A run that ends stalled was stalled all along, or since some step. */
  lemma {:induction false} WhenItStuck(g: Game, moves: seq<Move>) returns (always: bool, k: nat)
    requires TableFair(g) && Asked(g) && IsOpenRun(g, moves) && Stalled(End(g, moves))
    ensures if always then Stalled(g) && End(g, moves).hand == g.hand else StuckSince(g, moves, k)
    decreases |moves|
  {
    hide TableFair, Asked, Stalled, After, Strands, Possible;
    always, k := true, 0;
    if moves != [] {
      var g1 := After(g, moves[0]);
      MoveKeepsFair(g, moves[0]);
      MoveContest(g, moves[0]);
      always, k := WhenItStuck(g1, moves[1..]);
      if !always {
        k := k + 1;
        assert moves[..k][0] == moves[0] && moves[..k][1..] == moves[1..][..k - 1];
      } else if !Stalled(g) {
        always, k := false, 0;
        assert moves[..0] == [];
      }
    }
  }

  lemma RestMeansAsked(g: Game, now: nat)
    requires TableFair(g) && g.hand.Some? && KindOf(g, now) == Quiet && g.hand.value.acting.None?
    ensures Stalled(g)
  {
  }

  lemma NewTableOk(config: Config)
    requires ConfigOk(config)
    ensures TableFair(NewTable(config)) && Asked(NewTable(config)) && !Stalled(NewTable(config))
  {
  }

  /** Whenever the server has nothing to do in a hand, whoever joined or left, either somebody pending has
      been asked to act, with two or more left in the hand, or a street was turned with nobody live or the
      last player left, and the hand has been stuck since. */
  lemma HandAtRest(config: Config, moves: seq<Move>, now: nat) returns (k: nat)
    requires ConfigOk(config) && IsOpenRun(NewTable(config), moves)
    requires var g := End(NewTable(config), moves); g.hand.Some? && KindOf(g, now) == Quiet
    ensures var g := End(NewTable(config), moves);
      if g.hand.value.acting.Some? then g.hand.value.acting.value in g.hand.value.pending && |NonFolded(g)| >= 2
      else StuckSince(NewTable(config), moves, k)
  {
    hide IsOpenRun, HandFair, NonFolded, KindOf, StuckSince;
    var g := End(NewTable(config), moves);
    NewTableOk(config);
    RunKeepsAsked(NewTable(config), moves);
    k := 0;
    if g.hand.value.acting.Some? {
      ActingPends(g);
    } else {
      RestMeansAsked(g, now);
      var always;
      always, k := WhenItStuck(NewTable(config), moves);
    }
  }

  // ── Whether the hand can go on ────────────────────────────────────────────

  /** The player asked may act: not folded, not all-in, sitting in. */
  ghost predicate CanAct(g: Game)
    requires g.hand.Some? && g.hand.value.acting.Some?
  {
    var pid := g.hand.value.acting.value;
    pid in g.players && !g.players[pid].folded && !g.players[pid].allIn && !g.players[pid].sittingOut
  }

  /** Left to itself the hand moves on: the server has a batch, or will once the deadline has passed, or
      the player asked has a legal action. */
  ghost predicate GoesOn(g: Game)
    requires g.hand.Some?
  {
    var h := g.hand.value;
    NonFolded(g) != [] && (h.acting.None? || h.deadline.Some? || CanAct(g))
  }

  lemma BusyKind(g: Game) returns (now: nat)
    requires TableFair(g) && g.hand.Some? && NonFolded(g) != []
    requires (g.hand.value.acting.None? || g.hand.value.deadline.Some?)
    ensures KindOf(g, now) != Quiet && KindOf(g, now) != Deals
  {
    hide NonFolded;
    var h := g.hand.value;
    now := if h.acting.Some? && h.deadline.value >= 0 then h.deadline.value + 1 else 1;
  }

  lemma ServeCounts(g: Game, now: nat) returns (m: Move)
    requires KindOf(g, now) != Quiet && KindOf(g, now) != Deals
    ensures Allowed(g, m) && Counts(g, m)
  {
    hide *;
    var luck := SomeLuck(g, [], 0);
    StageOfKind(g, now);
    RestIsStageZero(g, now, luck);
    m := Serve(now, luck);
    ServeIsAllowed(g, now, luck);
  }

  lemma ServeIsAllowed(g: Game, now: nat, luck: Luck)
    requires Plausible(luck, g) && KindOf(g, now) != Deals && Advance(g, now, luck) != []
    ensures Allowed(g, Serve(now, luck)) && Counts(g, Serve(now, luck))
  {
    hide Advance, KindOf, Plausible;
  }

  lemma FoldCounts(g: Game)
    requires Asked(g) && g.hand.Some? && g.hand.value.acting.Some? && CanAct(g)
    ensures var m := Order(Fold, g.hand.value.acting.value); Allowed(g, m) && Counts(g, m)
  {
    hide NonFolded;
  }

  lemma ServeNeeds(g: Game, now: nat, luck: Luck)
    requires Asked(g) && g.hand.Some? && Plausible(luck, g) && Advance(g, now, luck) != []
    ensures GoesOn(g)
  {
    hide Plausible, Advance, NonFolded, CanAct, BatchOf;
    BatchOfKind(g, now, luck);
    QuietBatch(g, now, luck);
  }

  lemma QuietBatch(g: Game, now: nat, luck: Luck)
    requires Plausible(luck, g)
    ensures KindOf(g, now) == Quiet ==> BatchOf(g, now, luck) == []
  {
  }

  lemma OrderNeeds(g: Game, cmd: Command, actor: PlayerId)
    requires TableFair(g) && Asked(g) && g.hand.Some? && IsAction(cmd) && Validate(g, cmd, actor).None?
    ensures GoesOn(g)
  {
    hide NonFolded, HandFair;
    assert RequireTurn(g, actor).None?;
  }

  /** While a hand is on, a step that carries it on — and takes one off its rank — is possible exactly
      unless nobody is left in the order, or the player asked cannot act and has no deadline. */
  lemma HandGoesOnIff(g: Game)
    requires TableFair(g) && Asked(g) && g.hand.Some?
    ensures (exists m :: Allowed(g, m) && Counts(g, m)) <==> GoesOn(g)
  {
    hide TableFair, Asked, CanAct, NonFolded, Plausible, Advance, Validate, KindOf, Covered;
    if GoesOn(g) {
      if g.hand.value.acting.None? || g.hand.value.deadline.Some? {
        var now := BusyKind(g);
        var m := ServeCounts(g, now);
      } else {
        FoldCounts(g);
      }
    }
    if m :| Allowed(g, m) && Counts(g, m) {
      assert Allowed(g, m) && Counts(g, m);
      match m
      case Serve(now, luck) => ServeNeeds(g, now, luck);
      case Order(cmd, actor) => OrderNeeds(g, cmd, actor);
    }
  }
}
