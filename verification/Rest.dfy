/** The lifecycle always comes to rest, after a handful of batches. */
module Rest {
  import opened Collections
  import opened Cards
  import opened Table
  import opened Pots
  import opened Lifecycle
  import opened Posting
  import opened Streets
  import opened Batches

  lemma {:induction false} AwardsOnly(evals: map<PlayerId, nat>, nonFolded: seq<PlayerId>, pots: seq<Pot>, k: nat)
    requires k <= |pots|
    ensures forall e | e in AwardEvents(evals, nonFolded, pots, k) :: e.PotAwarded?
  {
    if k > 0 {
      AwardsOnly(evals, nonFolded, pots, k - 1);
    }
  }

  lemma {:induction false} SidePotsOnly(pots: seq<Pot>)
    ensures forall e | e in SidePotEvents(pots) :: e.SidePotCreated?
  {
    if |pots| > 1 {
      SidePotsOnly(pots[..|pots| - 1]);
    }
  }

  /** Events that leave the configuration alone. */
  predicate KeepConfig(events: seq<Event>)
  {
    forall e | e in events :: !e.TableCreated?
  }

  lemma EffectKeepsConfig(g: Game, e: Event)
    requires !e.TableCreated?
    ensures Effect(g, e, None).config == g.config
  {
  }

  lemma {:induction false} ConfigKept(g: Game, events: seq<Event>)
    requires KeepConfig(events)
    ensures Play(g, events).config == g.config
  {
    hide Effect;
    if events != [] {
      var rest, last := events[..|events| - 1], events[|events| - 1];
      LastBack(events);
      ConfigKept(g, rest);
      EffectKeepsConfig(Play(g, rest), last);
    }
  }

  lemma ShowdownKeepsConfig(g: Game, stakes: seq<Stake>)
    requires g.hand.Some?
    ensures KeepConfig(ShowdownEvents(g, stakes))
  {
    if NonFolded(g) != [] {
      SettleKeepsConfig(Evals(g), NonFolded(g), HandPots(g, stakes), Rake(g.hand.value.pot, g.config),
                        g.handNumber + 1);
    }
  }

  lemma SettleKeepsConfig(evals: map<PlayerId, nat>, nonFolded: seq<PlayerId>, pots: seq<Pot>, rake: int, n: int)
    requires pots != []
    ensures KeepConfig(SettleEvents(evals, nonFolded, pots, rake, n))
    ensures SettleEvents(evals, nonFolded, pots, rake, n) != []
    ensures SettleEvents(evals, nonFolded, pots, rake, n)[|SettleEvents(evals, nonFolded, pots, rake, n)| - 1]
        == HandEnded(n)
  {
    AwardsOnly(evals, nonFolded, TakeRake(pots, rake), |pots|);
    SidePotsOnly(pots);
  }

  lemma {:induction false} SitOutsOnly(visit: seq<PlayerId>, busted: set<PlayerId>)
    ensures forall e | e in SitOutEvents(visit, busted) :: e.PlayerSatOut?
    ensures (exists p :: p in visit && p in busted) ==> SitOutEvents(visit, busted) != []
  {
    if visit != [] {
      SitOutsOnly(visit[..|visit| - 1], busted);
      LastBack(visit);
    }
  }

  // ── One batch ─────────────────────────────────────────────────────────────

  /** How many more batches advance can produce before it waits for a player. */
  ghost function Stage(g: Game, now: nat): (n: nat)
    ensures n <= 6
  {
    match KindOf(g, now)
    case Quiet => 0
    case Asks => 1
    case Deals => 2
    case SitsOut => 3
    case PaysLast => 4
    case TurnsStreet => 5
    case Shows => 5
    case TimesOut => 6
  }

  lemma TimeoutRests(g: Game, now: nat)
    requires g.hand.Some? && TimedOut(g, now)
    ensures Stage(Play(g, TimeoutAction(g)), now) <= 5
  {
    var t := TimeoutAction(g);
    PlayTwo(g, t[0], t[1]);
    NobodyActing(Play(g, t), now);
  }

  lemma NobodyActing(g: Game, now: nat)
    requires g.hand.None? || g.hand.value.acting.None?
    ensures Stage(g, now) <= 5
  {
  }

  lemma NoHandNow(g: Game, now: nat)
    requires g.hand.None?
    ensures Stage(g, now) <= 3
  {
  }

  lemma HandEndRests(g: Game, events: seq<Event>, n: int, now: nat)
    ensures Play(g, events + [HandEnded(n)]).hand.None? && Stage(Play(g, events + [HandEnded(n)]), now) <= 3
  {
    hide Effect, Play, Stage;
    EndedHandIsGone(g, events, n);
    NoHandNow(Play(g, events + [HandEnded(n)]), now);
  }

  lemma UncontestedRests(g: Game, now: nat)
    requires g.hand.Some? && NonFolded(g) != []
    ensures Stage(Play(g, UncontestedEvents(g)), now) <= 3 && UncontestedEvents(g) != []
    ensures Play(g, UncontestedEvents(g)).config == g.config && Play(g, UncontestedEvents(g)).hand.None?
  {
    hide Effect, Play, Stage, NonFolded, Rake;
    var pot, rake := g.hand.value.pot, Rake(g.hand.value.pot, g.config);
    var front := RakeEvents(rake) + [PotAwarded(pot - rake, [NonFolded(g)[0]])];
    assert UncontestedEvents(g) == front + [HandEnded(g.handNumber + 1)];
    HandEndRests(g, front, g.handNumber + 1, now);
    ConfigKept(g, UncontestedEvents(g));
  }

  lemma ShowdownRests(g: Game, luck: Luck, now: nat)
    requires g.hand.Some? && g.hand.value.phase == River && |luck.cards| >= 3 && NonFolded(g) != []
    ensures Stage(Play(g, StreetEvents(g, luck)), now) <= 3
    ensures Play(g, StreetEvents(g, luck)).config == g.config && StreetEvents(g, luck) != []
    ensures Play(g, StreetEvents(g, luck)).hand.None?
  {
    hide Effect, Play, Stage, NonFolded, Rake, Evals, HandPots, SettleEvents;
    ShowdownKeepsConfig(g, luck.stakes);
    ConfigKept(g, StreetEvents(g, luck));
    var events := StreetEvents(g, luck);
    SettleKeepsConfig(Evals(g), NonFolded(g), HandPots(g, luck.stakes), Rake(g.hand.value.pot, g.config),
                      g.handNumber + 1);
    assert events[|events| - 1] == HandEnded(g.handNumber + 1);
    LastBack(events);
    HandEndRests(g, events[..|events| - 1], g.handNumber + 1, now);
  }

  lemma NewStreetRests(g2: Game, now: nat)
    requires g2.hand.Some? && g2.hand.value.acting.None? && g2.hand.value.pending == g2.hand.value.order
    ensures Stage(g2, now) <= 4
  {
  }

  lemma StreetRests(g: Game, luck: Luck, now: nat)
    requires StreetDue(g) && |luck.cards| >= 3
    ensures Stage(Play(g, StreetEvents(g, luck)), now) <= 4
    ensures Play(g, StreetEvents(g, luck)).config == g.config && StreetEvents(g, luck) != []
  {
    hide Effect, Play, Stage, StreetEvents;
    StreetIsNew(g, luck);
    NewStreetRests(Play(g, StreetEvents(g, luck)), now);
  }

  lemma NextActionRests(g: Game, now: nat)
    requires g.hand.Some? && g.hand.value.pending != [] && |NonFolded(g)| > 1
    ensures Stage(Play(g, NextAction(g, now)), now) == 0
    ensures Play(g, NextAction(g, now)).config == g.config
  {
    PlayOne(g, NextAction(g, now)[0]);
    assert NonFolded(Play(g, NextAction(g, now))) == NonFolded(g);
  }

  lemma SitOutRests(g: Game, luck: Luck, now: nat)
    requires g.hand.None? && (g.status == Waiting || g.status == Active) && Plausible(luck, g)
    requires BustedIds(g.players) != {}
    ensures Stage(Play(g, SitOutEvents(luck.visit, BustedIds(g.players))), now) <= 2
    ensures Play(g, SitOutEvents(luck.visit, BustedIds(g.players))).config == g.config
    ensures SitOutEvents(luck.visit, BustedIds(g.players)) != []
  {
    AllSatOut(g, luck.visit, BustedIds(g.players));
    assert BustedIds(g.players) * Elems(luck.visit) == BustedIds(g.players);
    assert BustedIds(SatOut(g.players, BustedIds(g.players))) == {};
    SitOutsOnly(luck.visit, BustedIds(g.players));
    var p :| p in BustedIds(g.players);
    assert p in Elems(luck.visit);
  }

  lemma NewHandRests(g: Game, luck: Luck, now: nat)
    requires StartsHand(g) && Plausible(luck, g) && ConfigOk(g.config)
    ensures Stage(Play(g, Advance(g, now, luck)), now) == 1
    ensures Play(g, Advance(g, now, luck)).config == g.config
  {
    hide *;
    NewHandDealt(g, now, luck);
    EnoughStart(g);
    DealtStage(g, Play(g, Advance(g, now, luck)), now);
  }

  lemma EnoughStart(g: Game)
    requires StartsHand(g)
    ensures |ActiveIds(g.players)| >= 2
  {
  }

  lemma DealtStage(g: Game, g2: Game, now: nat)
    requires JustDealt(g, g2) && |ActiveIds(g.players)| >= 2
    ensures Stage(g2, now) == 1 && g2.config == g.config
  {
    hide NonFolded, ActiveIds;
    EveryoneIsIn(g, g2);
  }

  lemma EveryoneIsIn(g: Game, g2: Game)
    requires JustDealt(g, g2)
    ensures NonFolded(g2) == g2.hand.value.order && |NonFolded(g2)| == |ActiveIds(g.players)|
  {
    var order := g2.hand.value.order;
    assert Elems(order) <= UnfoldedIds(g2.players);
    SelectAll(order, UnfoldedIds(g2.players));
    DistinctLength(order);
  }

  lemma TimeoutKeepsConfig(g: Game)
    requires g.hand.Some? && g.hand.value.acting.Some?
    ensures Play(g, TimeoutAction(g)).config == g.config
  {
    hide Effect, Play;
    ConfigKept(g, TimeoutAction(g));
  }

  /** The stage counts kinds: quiet is 0, and every other kind has a batch. */
  lemma StageOfKind(g: Game, now: nat)
    ensures Stage(g, now) ==
      match KindOf(g, now)
      case Quiet => 0 case Asks => 1 case Deals => 2 case SitsOut => 3
      case PaysLast => 4 case TurnsStreet => 5 case Shows => 5 case TimesOut => 6
    ensures KindOf(g, now) == SitsOut ==>
      g.hand.None? && (g.status == Waiting || g.status == Active) && BustedIds(g.players) != {}
    ensures KindOf(g, now) == Asks ==> |NonFolded(g)| > 1
    ensures KindOf(g, now) == Shows ==> g.hand.value.phase == River && NonFolded(g) != []
    ensures KindOf(g, now) == TimesOut ==> g.hand.value.acting.Some?
  {
  }

  lemma BatchIs(g: Game, now: nat, luck: Luck)
    requires Plausible(luck, g)
    ensures BatchOf(g, now, luck) ==
      match KindOf(g, now)
      case Quiet => []
      case SitsOut => SitOutEvents(luck.visit, BustedIds(g.players))
      case Deals => Advance(g, now, luck)
      case TimesOut => TimeoutAction(g)
      case PaysLast => UncontestedEvents(g)
      case TurnsStreet => StreetEvents(g, luck)
      case Shows => StreetEvents(g, luck)
      case Asks => NextAction(g, now)
    ensures g.hand.Some? && g.hand.value.acting.Some? ==> TimeoutAction(g) != []
    ensures g.hand.Some? && g.hand.value.pending != [] ==> NextAction(g, now) != []
  {
  }

  /** Every batch brings the table closer to rest; only a quiet table has none. */
  lemma BatchBringsRest(g: Game, now: nat, luck: Luck)
    requires Plausible(luck, g) && ConfigOk(g.config)
    ensures Advance(g, now, luck) != [] ==> Stage(Play(g, Advance(g, now, luck)), now) < Stage(g, now)
    ensures Play(g, Advance(g, now, luck)).config == g.config
  {
    hide *;
    BatchOfKind(g, now, luck);
    KindFacts(g, now);
    Dealable(g, now, luck);
    StageOfKind(g, now);
    BatchIs(g, now, luck);
    match KindOf(g, now)
    case Quiet => NothingPlayed(g);
    case SitsOut => SitOutRests(g, luck, now);
    case Deals => NewHandRests(g, luck, now);
    case TimesOut =>
      TimeoutRests(g, now);
      TimeoutKeepsConfig(g);
    case PaysLast => UncontestedRests(g, now);
    case TurnsStreet => StreetRests(g, luck, now);
    case Shows => ShowdownRests(g, luck, now);
    case Asks => NextActionRests(g, now);
  }

  lemma NothingPlayed(g: Game)
    ensures Play(g, []) == g
  {
  }

  /** advance returns nothing exactly when no batch is left. */
  lemma RestIsStageZero(g: Game, now: nat, luck: Luck)
    requires Plausible(luck, g)
    ensures Advance(g, now, luck) == [] <==> Stage(g, now) == 0
  {
    hide *;
    BatchOfKind(g, now, luck);
    KindFacts(g, now);
    Dealable(g, now, luck);
    StageOfKind(g, now);
    BatchIs(g, now, luck);
    match KindOf(g, now)
    case SitsOut => SitOutRests(g, luck, now);
    case PaysLast => UncontestedRests(g, now);
    case TurnsStreet => StreetRests(g, luck, now);
    case Shows => ShowdownRests(g, luck, now);
    case _ =>
  }

  /** Whatever happens — deadline, street, hand end, sit-outs, new hand — a lifecycle run has at
      most six batches, so its cap of 64 steps never cuts one short. */
  lemma {:induction false} LifecycleIsShort(g: Game, now: nat, batches: seq<seq<Event>>)
    requires ConfigOk(g.config) && IsLifecycle(g, now, batches)
    ensures |batches| <= Stage(g, now) <= 6
    decreases |batches|
  {
    if batches != [] {
      var luck :| Plausible(luck, g) && batches[0] == Advance(g, now, luck);
      assert Plausible(luck, g);
      BatchBringsRest(g, now, luck);
      LifecycleIsShort(Play(g, batches[0]), now, batches[1..]);
    }
  }
}
