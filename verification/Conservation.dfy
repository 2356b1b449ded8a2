/** What each batch of server-driven events does to the table: when it keeps the betting invariant,
    and when it keeps every chip. */
module Conservation {
  import opened Collections
  import opened Cards
  import opened Table
  import opened Pots
  import opened Lifecycle
  import opened Posting
  import opened Streets
  import opened Batches
  import opened Rest
  import opened Chips
  import opened Betting
  import opened Showdown

  // ── Sitting out ───────────────────────────────────────────────────────────

  /** Nothing but who sits out differs. */
  ghost predicate OnlySat(g: Game, g2: Game)
  {
    && g2.hand == g.hand && g2.config == g.config && g2.status == g.status && g2.players.Keys == g.players.Keys
    && forall p | p in g.players :: g2.players[p].(sittingOut := g.players[p].sittingOut) == g.players[p]
  }

  ghost predicate NobodySatIn(g: Game, g2: Game)
    requires g2.players.Keys == g.players.Keys
  {
    forall p | p in g.players :: g.players[p].sittingOut ==> g2.players[p].sittingOut
  }

  lemma SatOutOnly(g: Game, ids: set<PlayerId>)
    ensures OnlySat(g, g.(players := SatOut(g.players, ids)))
    ensures NobodySatIn(g, g.(players := SatOut(g.players, ids)))
  {
  }

  lemma SitOutBatch(g: Game, luck: Luck)
    requires Plausible(luck, g)
    ensures OnlySat(g, Play(g, SitOutEvents(luck.visit, BustedIds(g.players))))
    ensures NobodySatIn(g, Play(g, SitOutEvents(luck.visit, BustedIds(g.players))))
    ensures RakeIn(SitOutEvents(luck.visit, BustedIds(g.players))) == 0
  {
    hide Effect, Play, OnlySat, NobodySatIn, SatOut;
    SatOutOnly(g, BustedIds(g.players) * Elems(luck.visit));
    AllSatOut(g, luck.visit, BustedIds(g.players));
    SitOutsOnly(luck.visit, BustedIds(g.players));
    NoRake(SitOutEvents(luck.visit, BustedIds(g.players)));
  }

  lemma SittingConserves(g: Game, g2: Game)
    requires TableOk(g) && OnlySat(g, g2)
    ensures TableOk(g2) && ChipCount(g2) == ChipCount(g)
  {
    SittingKeepsTable(g, g2);
    StackTotalIsChips(g, g2, 0);
  }

  // ── Asking the next player ────────────────────────────────────────────────

  /** Nothing but whose turn it is, and until when, differs. */
  ghost predicate OnlyAsked(g: Game, g2: Game)
  {
    && g.hand.Some? && g2.hand.Some? && g2 == g.(hand := g2.hand)
    && (var h, h2 := g.hand.value, g2.hand.value;
        h2 == h.(acting := h2.acting, deadline := h2.deadline) && h2.acting.Some? && h2.acting.value in h.pending)
  }

  lemma AskBatch(g: Game, now: nat)
    requires g.hand.Some? && g.hand.value.pending != []
    ensures OnlyAsked(g, Play(g, NextAction(g, now))) && RakeIn(NextAction(g, now)) == 0
  {
    PlayOne(g, NextAction(g, now)[0]);
    NoRake(NextAction(g, now));
  }

  lemma AskingConserves(g: Game, g2: Game)
    requires TableOk(g) && OnlyAsked(g, g2)
    ensures TableOk(g2) && ChipCount(g2) == ChipCount(g)
  {
    var h, h2 := g.hand.value, g2.hand.value;
    forall p | p in g.players ensures BetOk(g2.players[p], h2) {
      assert BetOk(g.players[p], h);
    }
    forall p | p in h.order ensures p in g2.players && Matched(g2.players, h2, p) {
      assert p in g.players && Matched(g.players, h, p);
    }
  }

  // ── A new street ──────────────────────────────────────────────────────────

  lemma StreetConserves(g: Game, g2: Game)
    requires TableOk(g) && StreetDue(g) && NewStreet(g, g2)
    ensures TableOk(g2) && ChipCount(g2) == ChipCount(g)
  {
    var h, h2 := g.hand.value, g2.hand.value;
    SameStacksSameTotal(g.players, g2.players);
    SelectAll(h2.order, Elems(h2.pending));
    forall p | p in g2.players ensures BetOk(g2.players[p], h2) {
      assert BetOk(g.players[p], h);
    }
    forall p | p in h2.order ensures p in g2.players && Matched(g2.players, h2, p) {
      assert p in Elems(h2.order);
    }
  }

  // ── A new hand ────────────────────────────────────────────────────────────

  /** The players of the two blinds of the hand that starts. */
  ghost function BlindsOf(g: Game): (b: (PlayerId, PlayerId))
    requires |ActiveSeats(g)| >= 2
    ensures b.0 != b.1 && b.0 in ActiveIds(g.players) && b.1 in ActiveIds(g.players)
  {
    ActiveFits(g.players);
    var active := ActiveSeats(g);
    var b := Positions(g.players, active, g.dealerSeat, g.handNumber);
    (active[b.sb], active[b.bb])
  }

  function Charged(amount: int): int
  {
    if amount > 0 then amount else 0
  }

  /** Stacks cover the antes on top of the blinds. Without antes nothing is asked. */
  ghost predicate AntesCovered(g: Game)
    requires |ActiveSeats(g)| >= 2
  {
    var c, sb, bb := g.config, g.players[BlindsOf(g).0].stack, g.players[BlindsOf(g).1].stack;
    && (c.ante > 0 ==> c.ante + c.smallBlind <= sb)
    && (c.ante > 0 || c.bbAnte > 0 ==> Charged(c.ante) + Charged(c.bbAnte) + c.bigBlind <= bb)
  }

  lemma {:induction false} PaidInConcat(a: seq<Event>, b: seq<Event>, p: PlayerId)
    ensures PaidIn(a + b, p) == PaidIn(a, p) + PaidIn(b, p)
  {
    if b == [] {
      assert a + b == a;
    } else {
      assert (a + b)[..|a + b| - 1] == a + b[..|b| - 1];
      PaidInConcat(a, b[..|b| - 1], p);
    }
  }

  lemma {:induction false} PaidInAntes(g: Game, active: seq<PlayerId>, p: PlayerId)
    requires Distinct(active) && (forall q | q in active :: q in g.players)
    ensures PaidIn(AnteEvents(g, active), p)
         == if p in active && g.config.ante > 0 then Min(g.config.ante, g.players[p].stack) else 0
  {
    if active != [] && g.config.ante > 0 {
      var rest, last := active[..|active| - 1], active[|active| - 1];
      PaidInAntes(g, rest, p);
      LastBack(active);
      PaidInLast(AnteEvents(g, rest), AntePosted(last, Min(g.config.ante, g.players[last].stack)), p);
    }
  }

  lemma PaidInLast(events: seq<Event>, e: Event, p: PlayerId)
    ensures PaidIn(events + [e], p) == PaidIn(events, p) + PaidBy(e, p)
  {
    assert (events + [e])[..|events|] == events;
  }

  lemma {:induction false} PaidInHoles(active: seq<PlayerId>, cards: seq<Card>, k: nat, p: PlayerId)
    requires k <= |active| && |cards| >= 2 * k
    ensures PaidIn(HoleEvents(active, cards, k), p) == 0
  {
    if k > 0 {
      PaidInHoles(active, cards, k - 1, p);
      var front, d := HoleEvents(active, cards, k - 1), HoleCardsDealt(active[k - 1]);
      var e := HoleCardsRevealed(active[k - 1], HoleCards(cards[2 * k - 2], cards[2 * k - 1]));
      assert HoleEvents(active, cards, k) == front + [d] + [e];
      PaidInLast(front, d, p);
      PaidInLast(front + [d], e, p);
    }
  }

  lemma PaidInBlinds(g: Game, sb: PlayerId, bb: PlayerId, p: PlayerId)
    requires sb in g.players && bb in g.players && sb != bb
    ensures PaidIn(BlindEvents(g, sb, bb), p)
         == if p == sb then Min(g.config.smallBlind, g.players[sb].stack)
            else if p == bb then Min(g.config.bigBlind, g.players[bb].stack)
              + (if g.config.bbAnte > 0 then Min(g.config.bbAnte, g.players[bb].stack) else 0)
            else 0
  {
    var front := if g.config.bbAnte > 0 then [AntePosted(bb, Min(g.config.bbAnte, g.players[bb].stack))] else [];
    var s := BlindPosted(sb, Min(g.config.smallBlind, g.players[sb].stack), false);
    var b := BlindPosted(bb, Min(g.config.bigBlind, g.players[bb].stack), true);
    assert BlindEvents(g, sb, bb) == front + [s] + [b];
    PaidInLast(front + [s], b, p);
    PaidInLast(front, s, p);
    assert front != [] ==> [] + front == front;
  }

  /** What a player pays before the first action of a hand. */
  lemma PaidInPosts(g: Game, luck: Luck, p: PlayerId)
    requires Plausible(luck, g) && |ActiveSeats(g)| >= 2 && p in g.players
    ensures var c, stack := g.config, g.players[p].stack;
      PaidIn(Posts(g, luck), p) ==
        (if p in ActiveIds(g.players) && c.ante > 0 then Min(c.ante, stack) else 0)
        + (if p == BlindsOf(g).0 then Min(c.smallBlind, stack) else 0)
        + (if p == BlindsOf(g).1 then Min(c.bigBlind, stack) + (if c.bbAnte > 0 then Min(c.bbAnte, stack) else 0)
            else 0)
  {
    hide PaidIn, AnteEvents, BlindEvents, HoleEvents;
    ActiveFits(g.players);
    var active, blinds := ActiveSeats(g), BlindsOf(g);
    var antes, holes := AnteEvents(g, active), HoleEvents(active, luck.cards, |active|);
    var bets := BlindEvents(g, blinds.0, blinds.1);
    PaidInConcat(antes + bets, holes, p);
    PaidInConcat(antes, bets, p);
    PaidInAntes(g, active, p);
    PaidInBlinds(g, blinds.0, blinds.1, p);
    PaidInHoles(active, luck.cards, |active|, p);
    assert p in active <==> p in Elems(active);
  }

  lemma AffordsPosts(g: Game, luck: Luck)
    requires Plausible(luck, g) && |ActiveSeats(g)| >= 2 && TableOk(g)
    ensures (forall p | p in g.players :: g.players[p].stack >= PaidIn(Posts(g, luck), p)) <==> AntesCovered(g)
  {
    hide PaidIn, Posts, BlindsOf, HandOk;
    forall p | p in g.players
      ensures p in {BlindsOf(g).0, BlindsOf(g).1} || g.players[p].stack >= PaidIn(Posts(g, luck), p)
    {
      PaidInPosts(g, luck, p);
    }
    PaidInPosts(g, luck, BlindsOf(g).0);
    PaidInPosts(g, luck, BlindsOf(g).1);
  }

  lemma DealtTable(g: Game, g2: Game)
    requires TableOk(g) && JustDealt(g, g2)
    ensures TableOk(g2) <==> forall p | p in g2.players :: g2.players[p].stack >= 0
  {
    hide Total;
    var h := g2.hand.value;
    SelectAll(h.order, Elems(h.pending));
    forall p | p in h.order ensures p in g2.players && Matched(g2.players, h, p) {
      assert p in Elems(h.order);
    }
  }

  lemma DealtChips(g: Game, g2: Game)
    requires g.hand.None? && JustDealt(g, g2)
    ensures ChipCount(g2) == ChipCount(g)
  {
    hide Total;
    StacksAndCommitments(BlankPlayers(g.players), g2.players);
    SameStacksSameTotal(g.players, BlankPlayers(g.players));
    NothingCommitted(BlankPlayers(g.players));
  }

  function BlankPlayers(players: map<PlayerId, Player>): map<PlayerId, Player>
  {
    MapPlayers(players, FreshHand())
  }

  lemma {:induction false} PostsTakeNoRake(posts: seq<Event>, seated: set<PlayerId>)
    requires AllPosts(posts, seated)
    ensures RakeIn(posts) == 0
  {
    if posts != [] {
      PostsTakeNoRake(posts[..|posts| - 1], seated);
      assert IsPost(posts[|posts| - 1], seated);
    }
  }

  /** Starting a hand moves chips only from stacks into the pot; the invariant — no stack below
      zero — survives exactly when the blinds' stacks cover the antes as well. */
  lemma NewHandKeepsTableIff(g: Game, now: nat, luck: Luck)
    requires StartsHand(g) && Plausible(luck, g) && TableOk(g)
    ensures |ActiveSeats(g)| >= 2
    ensures TableOk(Play(g, Advance(g, now, luck))) <==> AntesCovered(g)
    ensures ChipCount(Play(g, Advance(g, now, luck))) == ChipCount(g) && RakeIn(Advance(g, now, luck)) == 0
  {
    hide Effect, Play, Advance, JustDealt, AntesCovered, Plausible, Posts, ActiveSeats, HandOk, PaidIn, AllBets;
    NewHandDealt(g, now, luck);
    var g2 := Play(g, Advance(g, now, luck));
    DealtTable(g, g2);
    DealtChips(g, g2);
    AffordsPosts(g, luck);
    SamePlayersDealt(g, g2);
    PostsArePosts(g, luck);
    PostsTakeNoRake(Posts(g, luck), g.players.Keys);
    RakeInConcat([HandStart(g, luck)], Posts(g, luck));
    NoRake([HandStart(g, luck)]);
  }

  lemma SamePlayersDealt(g: Game, g2: Game)
    requires JustDealt(g, g2)
    ensures g2.players.Keys == g.players.Keys
  {
  }

  // ── A hand that ends ──────────────────────────────────────────────────────

  /** The hand is over and nobody lost chips from their stack. */
  ghost predicate HandOver(g: Game, g2: Game)
  {
    && g.hand.Some? && g2.hand.None? && g2.config == g.config && g2.players.Keys == g.players.Keys
    && forall p | p in g.players :: g2.players[p].stack >= g.players[p].stack
  }

  lemma OverKeepsTable(g: Game, g2: Game)
    requires TableOk(g) && HandOver(g, g2)
    ensures TableOk(g2)
  {
  }

  lemma AwardedAndOver(g: Game, amount: int, winner: PlayerId, n: int)
    requires g.hand.Some?
    ensures var g2 := Effect(Effect(g, PotAwarded(amount, [winner]), None), HandEnded(n), None);
      g2.hand.None? && g2.config == g.config && g2.players == Paid(g.players, [winner], amount, 1)
  {
  }

  lemma AwardLast(g: Game, rake: int, winner: PlayerId, n: int)
    requires g.hand.Some? && winner in g.players && 0 <= rake <= g.hand.value.pot
    ensures var g2 := Play(g, RakeEvents(rake) + [PotAwarded(g.hand.value.pot - rake, [winner]), HandEnded(n)]);
      HandOver(g, g2) && g2.players == Paid(g.players, [winner], g.hand.value.pot - rake, 1)
  {
    hide Play, Effect, Paid, RakeEvents;
    PlayRake(g, rake);
    var g1, amount := Play(g, RakeEvents(rake)), g.hand.value.pot - rake;
    PlayConcat(g, RakeEvents(rake), [PotAwarded(amount, [winner]), HandEnded(n)]);
    PlayTwo(g1, PotAwarded(amount, [winner]), HandEnded(n));
    AwardedAndOver(g1, amount, winner, n);
    forall p | p in g.players ensures Paid(g.players, [winner], amount, 1)[p].stack >= g.players[p].stack {
      PaidEach(g.players, [winner], amount, 1, p);
    }
  }

  /** Whoever is left alone gets the pot, and the table keeps every chip but the rake. */
  lemma UncontestedConserves(g: Game)
    requires TableOk(g) && g.hand.Some? && NonFolded(g) != []
    ensures TableOk(Play(g, UncontestedEvents(g))) && Play(g, UncontestedEvents(g)).hand.None?
    ensures ChipCount(Play(g, UncontestedEvents(g))) + RakeIn(UncontestedEvents(g)) == ChipCount(g)
  {
    hide Effect, Play, HandOk, Rake, NonFolded, RakeIn, Total;
    var pot, rake, winner := g.hand.value.pot, Rake(g.hand.value.pot, g.config), NonFolded(g)[0];
    FirstIsSeated(g);
    RakeBounds(pot, g.config);
    AwardLast(g, rake, winner, g.handNumber + 1);
    OverKeepsTable(g, Play(g, UncontestedEvents(g)));
    SplitIsExact(g.players, [winner], pot - rake);
    RakeInConcat(RakeEvents(rake), [PotAwarded(pot - rake, [winner]), HandEnded(g.handNumber + 1)]);
    NoRake([PotAwarded(pot - rake, [winner]), HandEnded(g.handNumber + 1)]);
    RakeInRake(rake);
  }

  lemma FirstIsSeated(g: Game)
    requires TableOk(g) && g.hand.Some? && NonFolded(g) != []
    ensures NonFolded(g)[0] in g.players && g.hand.value.pot >= 0
  {
    SelectElems(g.hand.value.order, UnfoldedIds(g.players));
    CommitAtLeast(g.players, 0);
    assert NonFolded(g)[0] in NonFolded(g);
  }

  lemma ShowdownKeepsTable(g: Game, luck: Luck)
    requires ShowdownDue(g, luck)
    ensures TableOk(Play(g, StreetEvents(g, luck))) && Play(g, StreetEvents(g, luck)).hand.None?
  {
    hide Effect, Play, StreetEvents, AfterShowdown, Rake, NonFolded;
    CommitAtLeast(g.players, 0);
    PlayShowdown(g, luck);
    forall p | p in g.players ensures AfterShowdown(g, luck.stakes)[p].stack >= 0 {
      WinningsAreMatched(g, luck.stakes, p);
    }
    ShowdownConfig(g, luck);
  }

  lemma ShowdownConfig(g: Game, luck: Luck)
    requires g.hand.Some? && g.hand.value.phase == River && |luck.cards| >= 3
    ensures Play(g, StreetEvents(g, luck)).config == g.config
  {
    hide Effect, Play;
    ShowdownKeepsConfig(g, luck.stakes);
    ConfigKept(g, StreetEvents(g, luck));
  }

  lemma TimeoutConserves(g: Game, now: nat)
    requires TableOk(g) && g.hand.Some? && TimedOut(g, now)
    ensures TableOk(Play(g, TimeoutAction(g))) && ChipCount(Play(g, TimeoutAction(g))) == ChipCount(g)
    ensures RakeIn(TimeoutAction(g)) == 0
  {
    hide Effect, Play, Acts, HandOk, ChipCount;
    TimeoutActs(g);
    ActionKeepsTable(g, Play(g, TimeoutAction(g)), g.hand.value.acting.value, 0);
    NoRake(TimeoutAction(g));
  }

  // ── Any batch ─────────────────────────────────────────────────────────────

  /** What the stacks must cover for the invariant to survive the batch. */
  ghost predicate Covered(g: Game, now: nat)
  {
    KindOf(g, now) == Deals ==> |ActiveSeats(g)| >= 2 && AntesCovered(g)
  }

  /** What a showdown must satisfy for the batch to keep every chip. */
  ghost predicate PaysOut(g: Game, now: nat, luck: Luck)
  {
    KindOf(g, now) == Shows && g.hand.Some? ==> PaysFully(g, luck.stakes)
  }

  lemma ShowsWhenDue(g: Game, now: nat, luck: Luck)
    requires TableOk(g) && Plausible(luck, g) && KindOf(g, now) == Shows
    ensures ShowdownDue(g, luck)
  {
  }

  /** Every batch keeps the betting invariant, except a new hand whose blinds cannot cover the
      antes; and it keeps every chip but the rake, except a showdown that does not pay fully. */
  lemma BatchConservesIff(g: Game, now: nat, luck: Luck)
    requires TableOk(g) && Plausible(luck, g)
    ensures TableOk(Play(g, Advance(g, now, luck))) <==> Covered(g, now)
    ensures ChipCount(Play(g, Advance(g, now, luck))) + RakeIn(Advance(g, now, luck)) == ChipCount(g)
      <==> PaysOut(g, now, luck)
  {
    hide *;
    var g2 := Play(g, Advance(g, now, luck));
    BatchOfKind(g, now, luck);
    KindFacts(g, now);
    BatchFacts(g, now, luck);
    match KindOf(g, now)
    case Quiet => NothingHappens(g);
    case SitsOut =>
      SitOutBatch(g, luck);
      SittingConserves(g, g2);
    case Deals => NewHandKeepsTableIff(g, now, luck);
    case TimesOut => TimeoutConserves(g, now);
    case PaysLast => UncontestedConserves(g);
    case TurnsStreet =>
      StreetBatch(g, luck);
      StreetConserves(g, g2);
    case Shows =>
      ShowsWhenDue(g, now, luck);
      ShowdownKeepsTable(g, luck);
      BalancedIffPaysFully(g, luck);
      BalancedMeans(g, luck);
    case Asks =>
      AskBatch(g, now);
      AskingConserves(g, g2);
  }

  lemma BatchFacts(g: Game, now: nat, luck: Luck)
    requires Plausible(luck, g)
    ensures BatchOf(g, now, luck) ==
      match KindOf(g, now)
      case Quiet => []
      case SitsOut => SitOutEvents(luck.visit, BustedIds(g.players))
      case Deals => Advance(g, now, luck)
      case TimesOut => TimeoutAction(g)
      case PaysLast => UncontestedEvents(g)
      case TurnsStreet => StreetEvents(g, luck)
      case Shows => StreetEvents(g, luck)
      case Asks => NextAction(g, now)
    ensures |luck.cards| >= 3
    ensures KindOf(g, now) == Deals && |ActiveSeats(g)| >= 2 ==> (Covered(g, now) <==> AntesCovered(g))
    ensures KindOf(g, now) != Deals ==> Covered(g, now)
    ensures KindOf(g, now) == Shows && g.hand.Some? ==> (PaysOut(g, now, luck) <==> PaysFully(g, luck.stakes))
    ensures KindOf(g, now) != Shows ==> PaysOut(g, now, luck)
  {
  }

  lemma NothingHappens(g: Game)
    ensures Play(g, []) == g && RakeIn([]) == 0
  {
  }

  lemma BalancedMeans(g: Game, luck: Luck)
    requires g.hand.Some? && Plausible(luck, g)
    ensures Balanced(g, luck) <==>
      ChipCount(Play(g, StreetEvents(g, luck))) + RakeIn(StreetEvents(g, luck)) == ChipCount(g)
  {
  }

  lemma StreetBatch(g: Game, luck: Luck)
    requires StreetDue(g) && |luck.cards| >= 3
    ensures NewStreet(g, Play(g, StreetEvents(g, luck))) && RakeIn(StreetEvents(g, luck)) == 0
  {
    hide Effect, Play, NewStreet;
    StreetIsNew(g, luck);
    NoRake(StreetEvents(g, luck));
  }
}
