/** The kinds of batches the server produces, and when it produces which. */
module Batches {
  import opened Collections
  import opened Cards
  import opened Table
  import opened Lifecycle
  import opened Posting
  import opened Streets

  datatype Kind = Quiet | SitsOut | Deals | TimesOut | PaysLast | TurnsStreet | Shows | Asks

  ghost function KindOf(g: Game, now: nat): Kind
  {
    if g.hand.None? then
      if g.status != Waiting && g.status != Active then Quiet
      else if BustedIds(g.players) != {} then SitsOut
      else if |ActiveIds(g.players)| < MinPlayers(g.config) then Quiet
      else Deals
    else if TimedOut(g, now) then TimesOut
    else if NonFolded(g) == [] then Quiet
    else if |NonFolded(g)| == 1 then PaysLast
    else if g.hand.value.pending == [] && g.hand.value.acting.None? then
      if g.hand.value.phase == Phase.Showdown then Quiet else if g.hand.value.phase == River then Shows else TurnsStreet
    else if g.hand.value.acting.Some? then Quiet
    else Asks
  }

  /** The batch of each kind. */
  ghost function BatchOf(g: Game, now: nat, luck: Luck): seq<Event>
    requires Plausible(luck, g)
  {
    match KindOf(g, now)
    case Quiet => []
    case SitsOut => SitOutEvents(luck.visit, BustedIds(g.players))
    case Deals => Advance(g, now, luck)
    case TimesOut => TimeoutAction(g)
    case PaysLast => UncontestedEvents(g)
    case TurnsStreet => StreetEvents(g, luck)
    case Shows => StreetEvents(g, luck)
    case Asks => NextAction(g, now)
  }

  lemma BatchOfKind(g: Game, now: nat, luck: Luck)
    requires Plausible(luck, g)
    ensures Advance(g, now, luck) == BatchOf(g, now, luck)
    ensures KindOf(g, now) == Deals ==> StartsHand(g)
    ensures KindOf(g, now) == TurnsStreet ==> StreetDue(g)
  {
    hide Effect, Play, NonFolded, Plausible, TimedOut, IdleEvents, HandEvents, BatchOf, KindOf, ActiveIds, BustedIds;
    if g.hand.None? {
      IdleBatch(g, now, luck);
    } else {
      HandBatch(g, now, luck);
    }
  }

  lemma IdleBatch(g: Game, now: nat, luck: Luck)
    requires Plausible(luck, g) && g.hand.None?
    ensures IdleEvents(g, luck) == BatchOf(g, now, luck) && KindOf(g, now) != TurnsStreet
    ensures KindOf(g, now) == Deals ==> StartsHand(g)
  {
    hide Effect, Play, NonFolded, StreetEvents, NewHandEvents, SitOutEvents, Plausible, TimedOut;
    ActiveFits(g.players);
  }

  lemma NothingToPay(g: Game, luck: Luck)
    requires g.hand.Some? && |luck.cards| >= 3
    ensures NonFolded(g) == [] ==> UncontestedEvents(g) == []
    ensures g.hand.value.phase == Phase.Showdown ==> StreetEvents(g, luck) == []
  {
  }

  lemma HandBatch(g: Game, now: nat, luck: Luck)
    requires Plausible(luck, g) && g.hand.Some?
    ensures HandEvents(g, now, luck) == BatchOf(g, now, luck) && KindOf(g, now) != Deals
    ensures KindOf(g, now) == TurnsStreet ==> StreetDue(g)
  {
    hide Effect, Play, StreetEvents, UncontestedEvents, NonFolded, TimedOut, ActiveIds, BustedIds;
    hide TimeoutAction, NextAction, MinPlayers, Advance;
    NothingToPay(g, luck);
  }

  lemma KindFacts(g: Game, now: nat)
    ensures KindOf(g, now) == TimesOut ==> g.hand.Some? && TimedOut(g, now)
    ensures KindOf(g, now) == PaysLast ==> g.hand.Some? && NonFolded(g) != []
    ensures KindOf(g, now) == Asks ==> g.hand.Some? && g.hand.value.acting.None? && g.hand.value.pending != []
    ensures KindOf(g, now) == Shows ==> g.hand.Some?
  {
  }

  lemma Dealable(g: Game, now: nat, luck: Luck)
    requires Plausible(luck, g)
    ensures |luck.cards| >= 3
    ensures KindOf(g, now) == Deals ==> g.hand.None? && Advance(g, now, luck) != []
  {
    ActiveFits(g.players);
  }
}
