/** Which commands are legal, and the event a legal command stands for. */
module Rules {
  import opened Collections
  import opened Table

  datatype Command =
    | Fold
    | Check
    | CallBet(amount: int)  // 0 = whatever is needed
    | OpenBet(amount: int)
    | RaiseTo(to: int)
    | GoAllIn
    | SitOut
    | SitIn

  datatype Rejection =
    | TableIsClosed | GameNotActive | HandNotInProgress | NotAtTable
    | PlayerSittingOut | PlayerHasFolded | PlayerIsAllIn | NotYourTurn
    | CannotCheck | IllegalAction | CallAmountMismatch | IllegalAmount
    | AmountBelowMinBet | AmountAboveStack | RaiseActionClosed | AmountBelowMinRaise | RaiseCapReached
    | AlreadySittingOut | AlreadySittingIn

  /** What the player must add to call, capped at the stack; 0 when there is nothing to call. */
  function CallAmount(h: Hand, p: Player): int
  {
    if h.highest <= p.currentBet then 0
    else if h.highest - p.currentBet > p.stack then p.stack
    else h.highest - p.currentBet
  }

  function MinRaiseTo(g: Game, h: Hand): int
  {
    h.highest + if h.lastRaise < g.config.bigBlind then g.config.bigBlind else h.lastRaise
  }

  function PlayersInHand(g: Game): nat
  {
    |set p | p in g.players && !g.players[p].folded && !g.players[p].sittingOut|
  }

  /** The guards every in-hand action shares, in the order they are checked. */
  function RequireTurn(g: Game, actor: PlayerId): Option<Rejection>
  {
    if g.status == Closed then Some(TableIsClosed)
    else if g.status != Active && g.status != Paused then Some(GameNotActive)
    else if g.hand.None? then Some(HandNotInProgress)
    else if actor !in g.players then Some(NotAtTable)
    else if g.players[actor].sittingOut then Some(PlayerSittingOut)
    else if g.players[actor].folded then Some(PlayerHasFolded)
    else if g.players[actor].allIn then Some(PlayerIsAllIn)
    else if g.hand.value.acting != Some(actor) then Some(NotYourTurn)
    else None
  }

  function ValidateCheck(g: Game, actor: PlayerId): Option<Rejection>
  {
    if RequireTurn(g, actor).Some? then RequireTurn(g, actor)
    else if CallAmount(g.hand.value, g.players[actor]) > 0 then Some(CannotCheck)
    else None
  }

  function ValidateCall(g: Game, amount: int, actor: PlayerId): Option<Rejection>
  {
    if RequireTurn(g, actor).Some? then RequireTurn(g, actor) else
      var needed := CallAmount(g.hand.value, g.players[actor]);
      if needed == 0 then Some(IllegalAction)
      else if amount > 0 && amount != needed then Some(CallAmountMismatch)
      else None
  }

  function ValidateBet(g: Game, amount: int, actor: PlayerId): Option<Rejection>
  {
    if RequireTurn(g, actor).Some? then RequireTurn(g, actor) else
      var stack := g.players[actor].stack;
      if g.hand.value.highest > 0 then Some(IllegalAction)
      else if amount <= 0 then Some(IllegalAmount)
      else if amount < g.config.bigBlind && amount != stack then Some(AmountBelowMinBet)
      else if amount > stack then Some(AmountAboveStack)
      else None
  }

  function ValidateRaise(g: Game, to: int, actor: PlayerId): Option<Rejection>
  {
    if RequireTurn(g, actor).Some? then RequireTurn(g, actor) else
      var h := g.hand.value;
      var p := g.players[actor];
      var needed := to - p.currentBet;
      var cap := if g.config.uncapHeadsUp && PlayersInHand(g) == 2 then 0 else g.config.maxRaisesPerStreet;
      if h.highest == 0 then Some(IllegalAction)
      else if actor in h.closedFor then Some(RaiseActionClosed)
      else if to <= h.highest then Some(IllegalAmount)
      else if needed > p.stack then Some(AmountAboveStack)
      else if to < MinRaiseTo(g, h) && needed != p.stack then Some(AmountBelowMinRaise)
      else if g.config.fixedLimit && cap > 0 && h.raisesThisStreet >= cap then Some(RaiseCapReached)
      else None
  }

  function ValidateAllIn(g: Game, actor: PlayerId): Option<Rejection>
  {
    if RequireTurn(g, actor).Some? then RequireTurn(g, actor)
    else if g.players[actor].stack <= 0 then Some(IllegalAction)
    else None
  }

  function ValidateSitting(g: Game, actor: PlayerId, wasOut: bool): Option<Rejection>
  {
    if g.status == Closed then Some(TableIsClosed)
    else if actor !in g.players then Some(NotAtTable)
    else if g.players[actor].sittingOut && !wasOut then Some(AlreadySittingOut)
    else if !g.players[actor].sittingOut && wasOut then Some(AlreadySittingIn)
    else None
  }

  /** Why the command is refused in this state, or None when it is legal. */
  function Validate(g: Game, cmd: Command, actor: PlayerId): Option<Rejection>
  {
    match cmd
    case Fold => RequireTurn(g, actor)
    case Check => ValidateCheck(g, actor)
    case CallBet(amount) => ValidateCall(g, amount, actor)
    case OpenBet(amount) => ValidateBet(g, amount, actor)
    case RaiseTo(to) => ValidateRaise(g, to, actor)
    case GoAllIn => ValidateAllIn(g, actor)
    case SitOut => ValidateSitting(g, actor, false)
    case SitIn => ValidateSitting(g, actor, true)
  }

  /** The event of a legal command. */
  function BuildEvent(g: Game, cmd: Command, actor: PlayerId): Event
    requires Validate(g, cmd, actor).None?
  {
    match cmd
    case Fold => PlayerFolded(actor)
    case Check => PlayerChecked(actor)
    case CallBet(_) => PlayerCalled(actor, CallAmount(g.hand.value, g.players[actor]))
    case OpenBet(amount) => PlayerBet(actor, amount)
    case RaiseTo(to) => PlayerRaised(actor, to, to - g.hand.value.highest)
    case GoAllIn => PlayerAllIn(actor, g.players[actor].currentBet + g.players[actor].stack)
    case SitOut => PlayerSatOut(actor)
    case SitIn => PlayerSatIn(actor)
  }

  /** A refused command still leaves an event, which changes nothing but the version. */
  function CommandEvent(g: Game, cmd: Command, actor: PlayerId): Event
  {
    if Validate(g, cmd, actor).Some? then CommandRejected else BuildEvent(g, cmd, actor)
  }

  // ── Exactly which commands are legal ──────────────────────────────────────

  /** It is the actor's turn in a running hand, and they are in it with a right to act. */
  predicate OnTurn(g: Game, actor: PlayerId)
  {
    && (g.status == Active || g.status == Paused) && g.hand.Some? && g.hand.value.acting == Some(actor)
    && actor in g.players && !g.players[actor].sittingOut && !g.players[actor].folded && !g.players[actor].allIn
  }

  /** What the actor is short of the highest bet; 0 or less when nothing is. */
  function Short(g: Game, actor: PlayerId): int
    requires OnTurn(g, actor)
  {
    g.hand.value.highest - g.players[actor].currentBet
  }

  /** What is missing, or the whole stack when that is less. */
  function ToCall(g: Game, actor: PlayerId): int
    requires OnTurn(g, actor)
  {
    if g.players[actor].stack < Short(g, actor) then g.players[actor].stack else Short(g, actor)
  }

  lemma FoldLegalIff(g: Game, actor: PlayerId)
    ensures Validate(g, Fold, actor).None? <==> OnTurn(g, actor)
  {
  }

  /** Checking takes a matched bet, or nothing left to match it with. */
  lemma CheckLegalIff(g: Game, actor: PlayerId)
    ensures Validate(g, Check, actor).None? <==>
      OnTurn(g, actor) && (Short(g, actor) <= 0 || g.players[actor].stack <= 0)
  {
  }

  /** Calling takes something to call with; an amount, when given, must be what is missing, or the whole
      stack when that is less. The call is of that amount. */
  lemma CallLegalIff(g: Game, amount: int, actor: PlayerId)
    ensures Validate(g, CallBet(amount), actor).None? <==>
      && OnTurn(g, actor) && Short(g, actor) > 0 && g.players[actor].stack != 0
      && (amount <= 0 || amount == ToCall(g, actor))
    ensures Validate(g, CallBet(amount), actor).None? ==>
      BuildEvent(g, CallBet(amount), actor) == PlayerCalled(actor, ToCall(g, actor))
  {
  }

  /** A bet takes that nobody has bet, and at least the big blind or the whole stack. */
  lemma BetLegalIff(g: Game, amount: int, actor: PlayerId)
    ensures Validate(g, OpenBet(amount), actor).None? <==>
      && OnTurn(g, actor) && g.hand.value.highest <= 0 && 0 < amount <= g.players[actor].stack
      && (amount >= g.config.bigBlind || amount == g.players[actor].stack)
  {
  }

  lemma AllInLegalIff(g: Game, actor: PlayerId)
    ensures Validate(g, GoAllIn, actor).None? <==> OnTurn(g, actor) && g.players[actor].stack > 0
  {
  }

  lemma SittingLegalIff(g: Game, actor: PlayerId)
    ensures Validate(g, SitOut, actor).None? <==>
      g.status != Closed && actor in g.players && !g.players[actor].sittingOut
    ensures Validate(g, SitIn, actor).None? <==>
      g.status != Closed && actor in g.players && g.players[actor].sittingOut
  {
  }

  /** A raise to an amount above the highest bet that the stack covers, and which is all-in or by at least
      the big blind and at least the last raise. */
  predicate RaiseFits(g: Game, to: int, actor: PlayerId)
    requires OnTurn(g, actor)
  {
    var h, p := g.hand.value, g.players[actor];
    && to > h.highest && to - p.currentBet <= p.stack
    && (to - p.currentBet == p.stack || (to - h.highest >= g.config.bigBlind && to - h.highest >= h.lastRaise))
  }

  /** With fixed limits a street has at most so many raises, unless the cap is lifted for the last two. */
  predicate RaiseLeft(g: Game, h: Hand)
  {
    || !g.config.fixedLimit || g.config.maxRaisesPerStreet <= 0 || h.raisesThisStreet < g.config.maxRaisesPerStreet
    || (g.config.uncapHeadsUp && |set p | p in g.players && !g.players[p].folded && !g.players[p].sittingOut| == 2)
  }

  lemma RaiseLegalIff(g: Game, to: int, actor: PlayerId)
    ensures Validate(g, RaiseTo(to), actor).None? <==>
      && OnTurn(g, actor) && g.hand.value.highest != 0 && actor !in g.hand.value.closedFor
      && RaiseFits(g, to, actor) && RaiseLeft(g, g.hand.value)
  {
  }

  // ── The scans behind a raise ──────────────────────────────────────────────

  /** Players neither folded nor sitting out, counted one by one. */
  method CountPlayersInHand(g: Game) returns (n: nat)
    ensures n == PlayersInHand(g)
  {
    ghost var counted: set<PlayerId> := {};
    n := 0;
    var rest := g.players.Keys;
    while rest != {}
      invariant rest <= g.players.Keys && n == |counted|
      invariant counted == set p | p in g.players && p !in rest && !g.players[p].folded && !g.players[p].sittingOut
      decreases |rest|
    {
      var p :| p in rest;
      rest := rest - {p};
      if !g.players[p].folded && !g.players[p].sittingOut {
        counted := counted + {p};
        n := n + 1;
      }
    }
    assert counted == set p | p in g.players && !g.players[p].folded && !g.players[p].sittingOut;
  }

  /** The raise check with its scan of the players whose action is closed, and the cap lifted when only
      two are left. */
  method CheckRaise(g: Game, to: int, actor: PlayerId) returns (why: Option<Rejection>)
    ensures why == ValidateRaise(g, to, actor)
    ensures why.None? <==>
      && OnTurn(g, actor) && g.hand.value.highest != 0 && actor !in g.hand.value.closedFor
      && RaiseFits(g, to, actor) && RaiseLeft(g, g.hand.value)
  {
    RaiseLegalIff(g, to, actor);
    why := RequireTurn(g, actor);
    if why.Some? {
      return;
    }
    var h, p := g.hand.value, g.players[actor];
    if h.highest == 0 {
      return Some(IllegalAction);
    }
    for i := 0 to |h.closedFor|
      invariant actor !in h.closedFor[..i]
    {
      if h.closedFor[i] == actor {
        return Some(RaiseActionClosed);
      }
    }
    assert h.closedFor[..|h.closedFor|] == h.closedFor;
    if to <= h.highest {
      return Some(IllegalAmount);
    }
    var needed := to - p.currentBet;
    if needed > p.stack {
      return Some(AmountAboveStack);
    }
    if to < MinRaiseTo(g, h) && needed != p.stack {
      return Some(AmountBelowMinRaise);
    }
    if g.config.fixedLimit {
      var cap := g.config.maxRaisesPerStreet;
      var left := CountPlayersInHand(g);
      if g.config.uncapHeadsUp && left == 2 {
        cap := 0;
      }
      if cap > 0 && h.raisesThisStreet >= cap {
        return Some(RaiseCapReached);
      }
    }
    why := None;
  }
}
