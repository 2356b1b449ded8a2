/** Cards of one session: no card is on the table twice, and the deck does not run out. */
module Dealing {
  import opened Collections
  import opened Cards
  import opened Table
  import opened Rules
  import opened Lifecycle
  import opened Posting
  import opened Streets
  import opened Batches
  import opened Conservation
  import opened Rest
  import opened Runs

  /** What a dealer works through: the order of its deck and how many cards it has handed out. */
  datatype Shoe = Shoe(order: seq<Card>, dealt: nat)

  /** The dealer a reload starts with: a new deck in order, nothing dealt. */
  function NewDealer(): Shoe
  {
    Shoe(Unshuffled(), 0)
  }

  /** How many cards go on the board when a street ends. */
  function StreetCards(phase: Phase): nat
  {
    if phase == Preflop then 3 else 1
  }

  /** A batch takes its cards from the dealer: a new hand from a newly shuffled deck, a street after
      burning one card; other batches take none. */
  ghost predicate Feeds(g: Game, now: nat, luck: Luck, a: Shoe, b: Shoe)
  {
    if KindOf(g, now) == Deals then
      var n := |ActiveIds(g.players)|;
      && |b.order| == SIZE && Distinct(b.order) && b.dealt == 2 * n <= SIZE
      && |luck.cards| >= 2 * n && luck.cards[..2 * n] == b.order[..2 * n]
    else if KindOf(g, now) == TurnsStreet && g.hand.Some? then
      var k := StreetCards(g.hand.value.phase);
      && b.order == a.order && b.dealt == a.dealt + 1 + k <= |a.order|
      && |luck.cards| >= k && luck.cards[..k] == a.order[a.dealt + 1..b.dealt]
    else b == a
  }

  // ── Where every card came from ────────────────────────────────────────────

  datatype Place = FirstHole(player: PlayerId) | SecondHole(player: PlayerId) | OnFlop(k: nat) | OnTurn | OnRiver

  predicate OnTable(g: Game, place: Place)
  {
    match place
    case FirstHole(p) => p in g.players && g.players[p].hole.Some?
    case SecondHole(p) => p in g.players && g.players[p].hole.Some?
    case OnFlop(k) => k < 3 && g.hand.Some? && g.hand.value.flop.Some?
    case OnTurn => g.hand.Some? && g.hand.value.turn.Some?
    case OnRiver => g.hand.Some? && g.hand.value.river.Some?
  }

  function CardAt(g: Game, place: Place): Card
    requires OnTable(g, place)
  {
    match place
    case FirstHole(p) => g.players[p].hole.value.card1
    case SecondHole(p) => g.players[p].hole.value.card2
    case OnFlop(k) =>
      var f := g.hand.value.flop.value;
      if k == 0 then f.card1 else if k == 1 then f.card2 else f.card3
    case OnTurn => g.hand.value.turn.value
    case OnRiver => g.hand.value.river.value
  }

  /** Cards used, burns included, up to a street, with n players dealt in. */
  function UsedBy(phase: Phase, n: nat): nat
  {
    2 * n + match phase case Preflop => 0 case Flop => 4 case Turn => 6 case _ => 8
  }

  /** The board came from the deck behind the hole cards of n players, one burn before each street. */
  ghost predicate BoardFrom(h: Hand, shoe: Shoe, n: nat)
  {
    && |shoe.order| == SIZE && Distinct(shoe.order) && shoe.dealt == UsedBy(h.phase, n) <= SIZE
    && h.phase != Phase.Showdown
    && (h.flop.Some? ==>
          h.phase != Preflop
              && h.flop.value == FlopCards(shoe.order[2 * n + 1], shoe.order[2 * n + 2], shoe.order[2 * n + 3]))
    && (h.turn.Some? ==> (h.phase == Turn || h.phase == River) && h.turn.value == shoe.order[2 * n + 5])
    && (h.river.Some? ==> h.phase == River && h.river.value == shoe.order[2 * n + 7])
  }

  /** The i-th player dealt in holds cards 2i and 2i + 1 of the deck. */
  ghost predicate HolesFrom(players: map<PlayerId, Player>, order: seq<Card>, who: seq<PlayerId>)
  {
    && 2 * |who| <= |order|
    && forall p | p in players && players[p].hole.Some? ::
      p in who && players[p].hole.value == HoleCards(order[2 * IndexOf(who, p)], order[2 * IndexOf(who, p) + 1])
  }

  ghost predicate CardsFrom(g: Game, shoe: Shoe, who: seq<PlayerId>)
  {
    g.hand.Some? ==> HolesFrom(g.players, shoe.order, who) && BoardFrom(g.hand.value, shoe, |who|)
  }

  /** The cards on the table came from the dealer's deck, and at most n players were dealt in. */
  ghost predicate CardsOk(g: Game, shoe: Shoe, n: nat)
  {
    exists who :: |who| <= n && CardsFrom(g, shoe, who)
  }

  lemma BetweenHands(g: Game, shoe: Shoe, n: nat)
    requires g.hand.None?
    ensures CardsOk(g, shoe, n)
  {
    assert CardsFrom(g, shoe, []);
  }

  /** The position in the deck a card on the table came from. */
  ghost function Slot(place: Place, who: seq<PlayerId>): nat
    requires (place.FirstHole? || place.SecondHole?) ==> place.player in who
  {
    match place
    case FirstHole(p) => 2 * IndexOf(who, p)
    case SecondHole(p) => 2 * IndexOf(who, p) + 1
    case OnFlop(k) => 2 * |who| + 1 + k
    case OnTurn => 2 * |who| + 5
    case OnRiver => 2 * |who| + 7
  }

  lemma CameFrom(g: Game, shoe: Shoe, who: seq<PlayerId>, place: Place)
    requires g.hand.Some? && CardsFrom(g, shoe, who) && OnTable(g, place)
    ensures (place.FirstHole? || place.SecondHole?) ==> place.player in who
    ensures Slot(place, who) < |shoe.order| == SIZE && CardAt(g, place) == shoe.order[Slot(place, who)]
  {
  }

  lemma SlotsDiffer(who: seq<PlayerId>, x: Place, y: Place)
    requires x != y
    requires (x.FirstHole? || x.SecondHole?) ==> x.player in who
    requires (y.FirstHole? || y.SecondHole?) ==> y.player in who
    requires (x.OnFlop? ==> x.k < 3) && (y.OnFlop? ==> y.k < 3)
    ensures Slot(x, who) != Slot(y, who)
  {
  }

  /** While a hand is played, all hole cards and board cards are different cards. */
  lemma CardsAreDistinct(g: Game, shoe: Shoe, n: nat, x: Place, y: Place)
    requires CardsOk(g, shoe, n) && g.hand.Some? && OnTable(g, x) && OnTable(g, y) && x != y
    ensures CardAt(g, x) != CardAt(g, y)
  {
    hide CardsFrom;
    var who :| |who| <= n && CardsFrom(g, shoe, who);
    CameFrom(g, shoe, who, x);
    CameFrom(g, shoe, who, y);
    SlotsDiffer(who, x, y);
    assert Distinct(shoe.order) by {
      DeckIsDistinct(g, shoe, who);
    }
  }

  lemma DeckIsDistinct(g: Game, shoe: Shoe, who: seq<PlayerId>)
    requires g.hand.Some? && CardsFrom(g, shoe, who)
    ensures Distinct(shoe.order)
  {
  }

  // ── Steps that deal nothing ───────────────────────────────────────────────

  /** No card appears and the street stays the same. */
  ghost predicate SameCards(g: Game, g2: Game)
  {
    && g.hand.Some? && g2.hand.Some?
    && (forall p | p in g2.players && g2.players[p].hole.Some? ::
          p in g.players && g.players[p].hole == g2.players[p].hole)
    && (var h, h2 := g.hand.value, g2.hand.value;
        h2.flop == h.flop && h2.turn == h.turn && h2.river == h.river && h2.phase == h.phase)
  }

  lemma SameCardsOk(g: Game, g2: Game, shoe: Shoe, n: nat)
    requires CardsOk(g, shoe, n) && (g2.hand.None? || SameCards(g, g2))
    ensures CardsOk(g2, shoe, n)
  {
    if g2.hand.None? {
      BetweenHands(g2, shoe, n);
    } else {
      var who :| |who| <= n && CardsFrom(g, shoe, who);
      assert CardsFrom(g, shoe, who);
      assert CardsFrom(g2, shoe, who);
    }
  }

  /** Whoever held cards still holds them. */
  ghost predicate KeepsHoles(g: Game, g2: Game)
  {
    forall p | p in g.players && g.players[p].hole.Some? :: p in g2.players && g2.players[p].hole == g.players[p].hole
  }

  /** Nothing is dealt and nobody's cards go. */
  ghost predicate CardsStay(g: Game, g2: Game)
  {
    (g2.hand.None? || SameCards(g, g2)) && KeepsHoles(g, g2)
  }

  /** Events that put no card on the table and take none away, and turn no street. */
  predicate Cardless(e: Event)
  {
    && !e.HandStarted? && !e.HoleCardsRevealed? && !e.PlayerJoined? && !e.PlayerLeft?
    && !e.FlopDealt? && !e.TurnDealt? && !e.RiverDealt? && !e.ShowdownReached?
  }

  lemma PostsShowNothing(g: Game, e: Event)
    requires e.AntePosted? || e.BlindPosted? || e.PlayerCalled?
    ensures CardsStay(g, Effect(g, e, None))
  {
    hide Without;
  }

  lemma BetsShowNothing(g: Game, e: Event)
    requires e.PlayerBet? || e.PlayerRaised? || e.PlayerAllIn?
    ensures CardsStay(g, Effect(g, e, None))
  {
    hide OthersInOrder, Without, AllInHand;
    if e.PlayerAllIn? && g.hand.Some? && e.player in g.players {
      AllInShowsNothing(g, e.player, e.total);
    }
  }

  lemma AllInShowsNothing(g: Game, pid: PlayerId, total: int)
    requires g.hand.Some? && pid in g.players
    ensures var h, h2 := g.hand.value, AllIn(g, pid, total).hand.value;
      h2.flop == h.flop && h2.turn == h.turn && h2.river == h.river && h2.phase == h.phase
  {
    hide OthersInOrder, Without, Select;
  }

  lemma {:induction false} PaidKeepsHoles(players: map<PlayerId, Player>, winners: seq<PlayerId>, amount: int, k: nat)
    requires k <= |winners|
    ensures forall p | p in players :: Paid(players, winners, amount, k)[p].hole == players[p].hole
  {
    if k > 0 {
      PaidKeepsHoles(players, winners, amount, k - 1);
    }
  }

  lemma AwardShowsNothing(g: Game, e: Event)
    requires e.PotAwarded?
    ensures CardsStay(g, Effect(g, e, None))
  {
    hide Paid;
    PaidKeepsHoles(g.players, e.winners, e.amount, |e.winners|);
  }

  lemma CardlessShows(g: Game, e: Event)
    requires Cardless(e)
    ensures CardsStay(g, Effect(g, e, None))
  {
    hide Without, Select, Paid, Pay, Post, Call, Bet, Raise, AllIn;
    if e.AntePosted? || e.BlindPosted? || e.PlayerCalled? {
      PostsShowNothing(g, e);
    } else if e.PlayerBet? || e.PlayerRaised? || e.PlayerAllIn? {
      BetsShowNothing(g, e);
    } else if e.PotAwarded? {
      AwardShowsNothing(g, e);
    }
  }

  lemma StayTwice(g: Game, g1: Game, g2: Game)
    requires CardsStay(g, g1) && CardsStay(g1, g2)
    ensures CardsStay(g, g2)
  {
  }

  lemma StayAtAll(g: Game)
    ensures CardsStay(g, g)
  {
  }

  lemma {:induction false} CardlessPlays(g: Game, events: seq<Event>)
    requires forall e | e in events :: Cardless(e)
    ensures CardsStay(g, Play(g, events))
  {
    hide Effect, CardsStay, Cardless;
    if events == [] {
      StayAtAll(g);
    } else {
      LastBack(events);
      var before := Play(g, events[..|events| - 1]);
      CardlessPlays(g, events[..|events| - 1]);
      CardlessShows(before, events[|events| - 1]);
      StayTwice(g, before, Play(g, events));
    }
  }

  lemma JoinShowsNothing(g: Game, p: PlayerId, user: UserId, seat: int, buyIn: int)
    requires p !in g.players
    ensures CardsStay(g, Effect(g, PlayerJoined(p, user, seat, buyIn), None))
  {
    hide Select;
  }

  lemma LeaveShowsNothing(g: Game, p: PlayerId)
    requires p in g.players
    ensures var g2 := After(g, Leave(p));
      (g2.hand.None? || SameCards(g, g2)) && (g2.hand.Some? <==> g.hand.Some?) && g2.config == g.config
  {
    hide Without;
  }

  // ── A street ──────────────────────────────────────────────────────────────

  /** g2 is g with the next street's cards on the board. */
  ghost predicate StreetOpened(g: Game, g2: Game, cards: seq<Card>)
  {
    && g.hand.Some? && g2.hand.Some? && g2.players == MapPlayers(g.players, NoBet())
    && (var h, h2 := g.hand.value, g2.hand.value;
        && |cards| >= StreetCards(h.phase) && h2.phase == NextPhase(h.phase)
        && h2.flop == (if h.phase == Preflop then Some(FlopCards(cards[0], cards[1], cards[2])) else h.flop)
        && h2.turn == (if h.phase == Flop then Some(cards[0]) else h.turn)
        && h2.river == (if h.phase == Turn then Some(cards[0]) else h.river))
  }

  lemma OpenStreet(g: Game, street: Event, cards: seq<Card>)
    requires StreetDue(g) && |cards| >= 3
    requires street == match g.hand.value.phase
                       case Preflop => FlopDealt(FlopCards(cards[0], cards[1], cards[2]))
                       case Flop => TurnDealt(cards[0])
                       case _ => RiverDealt(cards[0])
    ensures StreetOpened(g, Effect(EndRound(g), street, None), cards)
  {
    hide PostflopOrder;
    var g2 := Effect(EndRound(g), street, None);
    assert g2.players == MapPlayers(g.players, NoBet());
  }

  lemma StreetOpens(g: Game, luck: Luck)
    requires StreetDue(g) && |luck.cards| >= 3
    ensures StreetOpened(g, Play(g, StreetEvents(g, luck)), luck.cards)
  {
    hide Effect, Play, EndRound, StreetOpened;
    var street := StreetEvents(g, luck)[1];
    RoundEnds(g);
    PlayTwo(g, BettingRoundEnded, street);
    OpenStreet(g, street, luck.cards);
  }

  lemma StreetKeepsCards(g: Game, g2: Game, luck: Luck, a: Shoe, b: Shoe, n: nat)
    requires CardsOk(g, a, n) && StreetDue(g) && StreetOpened(g, g2, luck.cards)
    requires var k := StreetCards(g.hand.value.phase);
      && b.order == a.order && b.dealt == a.dealt + 1 + k <= |a.order|
      && luck.cards[..k] == a.order[a.dealt + 1..b.dealt]
    ensures CardsOk(g2, b, n)
  {
    var who :| |who| <= n && CardsFrom(g, a, who);
    assert CardsFrom(g, a, who);
    var k := StreetCards(g.hand.value.phase);
    assert forall i | 0 <= i < k :: luck.cards[i] == luck.cards[..k][i] == a.order[a.dealt + 1 + i];
    assert HolesFrom(g2.players, b.order, who);
    assert CardsFrom(g2, b, who);
  }

  // ── A new hand ────────────────────────────────────────────────────────────

  /** The first k of the players dealt in hold their cards, nobody else holds any. */
  ghost predicate HolesDealt(players: map<PlayerId, Player>, active: seq<PlayerId>, cards: seq<Card>, k: nat)
    requires k <= |active| && |cards| >= 2 * k
  {
    forall p | p in players ::
      players[p].hole == if p in active[..k]
          then Some(HoleCards(cards[2 * IndexOf(active[..k], p)], cards[2 * IndexOf(active[..k], p) + 1]))
                         else None
  }

  lemma {:induction false} IndexInPrefix(s: seq<PlayerId>, p: PlayerId, x: PlayerId)
    requires p in s && p != x
    ensures p in s + [x] && IndexOf(s + [x], p) == IndexOf(s, p)
  {
    assert (s + [x])[..|s|] == s;
  }

  lemma RevealOne(g: Game, pid: PlayerId, hole: HoleCards)
    requires g.hand.Some? && pid in g.players
    ensures var g2 := Effect(Effect(g, HoleCardsDealt(pid), None), HoleCardsRevealed(pid, hole), None);
      g2 == g.(players := g.players[pid := g.players[pid].(hole := Some(hole))])
  {
  }

  lemma {:induction false} PlayHoles(g: Game, active: seq<PlayerId>, cards: seq<Card>, k: nat)
    requires k <= |active| && |cards| >= 2 * k && Distinct(active) && g.hand.Some?
    requires (forall p | p in active :: p in g.players) && (forall p | p in g.players :: g.players[p].hole.None?)
    ensures var g2 := Play(g, HoleEvents(active, cards, k));
      g2.hand == g.hand && g2.players.Keys == g.players.Keys && HolesDealt(g2.players, active, cards, k)
  {
    hide Effect;
    if k > 0 {
      PlayHoles(g, active, cards, k - 1);
      var pid, hole := active[k - 1], HoleCards(cards[2 * k - 2], cards[2 * k - 1]);
      var before := Play(g, HoleEvents(active, cards, k - 1));
      PlayConcat(g, HoleEvents(active, cards, k - 1), [HoleCardsDealt(pid), HoleCardsRevealed(pid, hole)]);
      PlayTwo(before, HoleCardsDealt(pid), HoleCardsRevealed(pid, hole));
      RevealOne(before, pid, hole);
      DealtOneMore(before.players, active, cards, k);
    }
  }

  lemma DealtOneMore(players: map<PlayerId, Player>, active: seq<PlayerId>, cards: seq<Card>, k: nat)
    requires 0 < k <= |active| && |cards| >= 2 * k && Distinct(active) && active[k - 1] in players
    requires HolesDealt(players, active, cards, k - 1)
    ensures HolesDealt(players[active[k - 1] := players[active[k - 1]].(hole := Some(HoleCards(cards[2 * k - 2],
        cards[2 * k - 1])))],
                       active, cards, k)
  {
    var pid, front := active[k - 1], active[..k - 1];
    assert active[..k] == front + [pid];
    forall p | p in front ensures IndexOf(active[..k], p) == IndexOf(front, p) {
      assert p != pid;
      IndexInPrefix(front, p, pid);
    }
    assert IndexOf(front + [pid], pid) == k - 1;
  }

  /** Antes and blinds reveal nothing. */
  ghost predicate NoHoles(players: map<PlayerId, Player>)
  {
    forall p | p in players :: players[p].hole.None?
  }

  lemma PayShowsNothing(g: Game, e: Event)
    requires (e.AntePosted? || e.BlindPosted?) && NoHoles(g.players)
    ensures NoHoles(Effect(g, e, None).players)
  {
  }

  lemma {:induction false} PaymentsShowNothing(g: Game, posts: seq<Event>)
    requires NoHoles(g.players) && forall e | e in posts :: e.AntePosted? || e.BlindPosted?
    ensures NoHoles(Play(g, posts).players)
  {
    hide Effect;
    if posts != [] {
      LastBack(posts);
      PaymentsShowNothing(g, posts[..|posts| - 1]);
      PayShowsNothing(Play(g, posts[..|posts| - 1]), posts[|posts| - 1]);
    }
  }

  lemma {:induction false} AntesArePayments(g: Game, active: seq<PlayerId>)
    requires forall p | p in active :: p in g.players
    ensures forall e | e in AnteEvents(g, active) :: e.AntePosted?
  {
    if active != [] && g.config.ante > 0 {
      AntesArePayments(g, active[..|active| - 1]);
    }
  }

  /** After a deal the players dealt in hold the first cards of the deck and the board is empty. */
  ghost predicate HandDealt(g: Game, g2: Game, cards: seq<Card>)
  {
    && g2.hand.Some? && |cards| >= 2 * |ActiveSeats(g)|
    && HolesDealt(g2.players, ActiveSeats(g), cards, |ActiveSeats(g)|)
    && (var h := g2.hand.value; h.phase == Preflop && h.flop.None? && h.turn.None? && h.river.None?)
  }

  lemma BlankShowsNothing(g: Game, start: Event)
    requires start.HandStarted?
    ensures NoHoles(Effect(g, start, None).players) && Effect(g, start, None).players.Keys == g.players.Keys
  {
    hide PreflopOrder;
  }

  /** What is paid before the cards are dealt. */
  ghost function Payments(g: Game): seq<Event>
    requires |ActiveSeats(g)| >= 2
  {
    ActiveFits(g.players);
    var active := ActiveSeats(g);
    AnteEvents(g, active) + BlindEvents(g, BlindsOf(g).0, BlindsOf(g).1)
  }

  lemma PostsInTwo(g: Game, luck: Luck)
    requires Plausible(luck, g) && |ActiveSeats(g)| >= 2
    ensures |luck.cards| >= 2 * |ActiveSeats(g)| && Distinct(ActiveSeats(g))
    ensures Posts(g, luck) == Payments(g) + HoleEvents(ActiveSeats(g), luck.cards, |ActiveSeats(g)|)
    ensures forall e | e in Payments(g) :: e.AntePosted? || e.BlindPosted?
    ensures forall p | p in ActiveSeats(g) :: p in g.players
  {
    hide BySeat, Effect, Play, AnteEvents, HoleEvents, Positions;
    ActiveFits(g.players);
    AntesArePayments(g, ActiveSeats(g));
    ActiveSeatsFit(g, luck);
  }

  lemma ActiveSeatsFit(g: Game, luck: Luck)
    requires Plausible(luck, g)
    ensures |luck.cards| >= 2 * |ActiveSeats(g)| && Distinct(ActiveSeats(g))
    ensures forall p | p in ActiveSeats(g) :: p in g.players
  {
    ActiveFits(g.players);
  }

  lemma DealShows(g: Game, now: nat, luck: Luck)
    requires StartsHand(g) && Plausible(luck, g) && ConfigOk(g.config)
    ensures |ActiveSeats(g)| >= 2 && HandDealt(g, Play(g, Advance(g, now, luck)), luck.cards)
  {
    hide Effect, Play, Advance, Posts, Payments, HoleEvents, AllBets, PaidIn, NoAntes, NoHoles;
    hide HolesDealt, Plausible, ActiveSeats;
    NewHandDealt(g, now, luck);
    PostsInTwo(g, luck);
    var start, active := HandStart(g, luck), ActiveSeats(g);
    var blank := Effect(g, start, None);
    PlayConcat(g, [start], Posts(g, luck));
    PlayOne(g, start);
    BlankShowsNothing(g, start);
    PlayConcat(blank, Payments(g), HoleEvents(active, luck.cards, |active|));
    PaymentsShowNothing(blank, Payments(g));
    var paid := Play(blank, Payments(g));
    PaidKeepsPlayers(g, luck, blank);
    NoneShown(paid);
    PlayHoles(paid, active, luck.cards, |active|);
  }

  lemma NoneShown(g: Game)
    requires NoHoles(g.players)
    ensures forall p | p in g.players :: g.players[p].hole.None?
  {
  }

  lemma PaidKeepsPlayers(g: Game, luck: Luck, blank: Game)
    requires Plausible(luck, g) && |ActiveSeats(g)| >= 2 && ConfigOk(g.config)
    requires blank == Effect(g, HandStart(g, luck), None)
    ensures Play(blank, Payments(g)).hand.Some? && Play(blank, Payments(g)).players.Keys == g.players.Keys
  {
    hide Effect, Play, Posts, Payments, Blank, Plausible;
    FreshTable(g, HandStart(g, luck));
    PostsArePosts(g, luck);
    PostsInTwo(g, luck);
    var all, front := Posts(g, luck), Payments(g);
    forall i | 0 <= i < |front| ensures IsPost(front[i], blank.players.Keys) {
      assert front[i] == all[i];
    }
    PlayPosts(blank, front);
  }

  lemma DealKeepsCards(g: Game, g2: Game, luck: Luck, b: Shoe, n: nat)
    requires 2 <= |ActiveSeats(g)| <= n && HandDealt(g, g2, luck.cards)
    requires |b.order| == SIZE && Distinct(b.order) && b.dealt == 2 * |ActiveSeats(g)| <= SIZE
    requires luck.cards[..b.dealt] == b.order[..b.dealt]
    ensures CardsOk(g2, b, n)
  {
    var who := ActiveSeats(g);
    assert who[..|who|] == who;
    forall i | 0 <= i < 2 * |who| ensures luck.cards[i] == b.order[i] {
      assert luck.cards[..b.dealt][i] == b.order[..b.dealt][i];
    }
    assert CardsFrom(g2, b, who);
  }

  // ── What a step puts on the table ─────────────────────────────────────────

  lemma CommandIsCardless(g: Game, cmd: Command, actor: PlayerId)
    ensures forall e | e in [CommandEvent(g, cmd, actor)] :: Cardless(e)
  {
    hide Validate;
  }

  /** Which batches are cardless. */
  lemma CardlessBatches(g: Game, now: nat, luck: Luck)
    requires Plausible(luck, g)
    ensures KindOf(g, now) in {Quiet, SitsOut, TimesOut, Asks} ==> forall e | e in BatchOf(g, now, luck) :: Cardless(e)
  {
    hide KindOf, SitOutEvents;
    KindFacts(g, now);
    StageOfKind(g, now);
    SitOutsOnly(luck.visit, BustedIds(g.players));
  }

  /** A batch deals a hand, opens a street, or deals nothing. */
  ghost predicate BatchShape(g: Game, g2: Game, now: nat, cards: seq<Card>)
  {
    match KindOf(g, now)
    case Deals => |ActiveSeats(g)| >= 2 && HandDealt(g, g2, cards)
    case TurnsStreet => StreetDue(g) && StreetOpened(g, g2, cards)
    case _ => g2.hand.None? || CardsStay(g, g2)
  }

  lemma BatchShapes(g: Game, now: nat, luck: Luck)
    requires ConfigOk(g.config) && Plausible(luck, g)
    ensures BatchShape(g, Play(g, Advance(g, now, luck)), now, luck.cards)
    ensures Play(g, Advance(g, now, luck)).config == g.config
  {
    hide *;
    var g2 := Play(g, Advance(g, now, luck));
    BatchOfKind(g, now, luck);
    KindFacts(g, now);
    StageOfKind(g, now);
    BatchIs(g, now, luck);
    Dealable(g, now, luck);
    CardlessBatches(g, now, luck);
    BatchBringsRest(g, now, luck);
    match KindOf(g, now) {
      case Deals => DealShows(g, now, luck);
      case PaysLast => UncontestedRests(g, now);
      case TurnsStreet => StreetOpens(g, luck);
      case Shows => ShowdownRests(g, luck, now);
      case _ => CardlessPlays(g, BatchOf(g, now, luck));
    }
    ShapeIs(g, g2, now, luck.cards);
  }

  lemma ShapeIs(g: Game, g2: Game, now: nat, cards: seq<Card>)
    ensures KindOf(g, now) == Deals && |ActiveSeats(g)| >= 2 && HandDealt(g, g2, cards) ==>
      BatchShape(g, g2, now, cards)
    ensures KindOf(g, now) == TurnsStreet && StreetDue(g) && StreetOpened(g, g2, cards) ==>
      BatchShape(g, g2, now, cards)
    ensures KindOf(g, now) != Deals && KindOf(g, now) != TurnsStreet && (g2.hand.None? || CardsStay(g, g2)) ==>
      BatchShape(g, g2, now, cards)
  {
  }

  // ── A session ─────────────────────────────────────────────────────────────

  /** A step with the dealer before and after it. A join or leave closes the session; the next command
      loads the table again, with a new dealer. */
  ghost predicate Dealt(g: Game, m: Move, a: Shoe, b: Shoe)
    requires Possible(g, m)
  {
    match m
    case Order(_, _) => b == a
    case Serve(now, luck) => Feeds(g, now, luck, a, b)
    case Join(_, _, _, _) => b == NewDealer()
    case Leave(_) => b == NewDealer()
  }

  lemma FeedsKind(g: Game, now: nat, luck: Luck, a: Shoe, b: Shoe)
    requires Feeds(g, now, luck, a, b) && Plausible(luck, g)
    ensures |ActiveSeats(g)| == |ActiveIds(g.players)|
    ensures KindOf(g, now) == Deals ==>
      && |b.order| == SIZE && Distinct(b.order) && b.dealt == 2 * |ActiveSeats(g)| <= SIZE
      && |luck.cards| >= b.dealt && luck.cards[..b.dealt] == b.order[..b.dealt]
    ensures KindOf(g, now) == TurnsStreet && g.hand.Some? ==>
      var k := StreetCards(g.hand.value.phase);
      && |luck.cards| >= k && b.order == a.order && b.dealt == a.dealt + 1 + k <= |a.order|
      && luck.cards[..k] == a.order[a.dealt + 1..b.dealt]
    ensures KindOf(g, now) != Deals && KindOf(g, now) != TurnsStreet ==> b == a
  {
    ActiveFits(g.players);
  }

  lemma StreetHand(g: Game)
    requires StreetDue(g)
    ensures g.hand.Some?
  {
  }

  lemma ServeKeepsCards(g: Game, now: nat, luck: Luck, a: Shoe, b: Shoe, n: nat)
    requires ConfigOk(g.config) && CardsOk(g, a, n) && Plausible(luck, g) && Feeds(g, now, luck, a, b)
    requires g.hand.None? ==> |ActiveIds(g.players)| <= n
    ensures CardsOk(Play(g, Advance(g, now, luck)), b, n)
  {
    hide Effect, Play, Advance, CardsOk, HandDealt, StreetOpened, SameCards, ConfigOk, Plausible;
    hide KindOf, Feeds, Distinct, ActiveSeats;
    var g2 := Play(g, Advance(g, now, luck));
    BatchShapes(g, now, luck);
    FeedsKind(g, now, luck, a, b);
    Dealable(g, now, luck);
    match KindOf(g, now)
    case Deals => DealKeepsCards(g, g2, luck, b, n);
    case TurnsStreet => StreetKeepsCards(g, g2, luck, a, b, n);
    case _ => SameCardsOk(g, g2, b, n);
  }

  lemma CommandKeepsConfig(g: Game, cmd: Command, actor: PlayerId)
    ensures Play(g, [CommandEvent(g, cmd, actor)]).config == g.config
  {
    hide Effect, Validate;
    ConfigKept(g, [CommandEvent(g, cmd, actor)]);
  }

  lemma MoveKeepsConfig(g: Game, m: Move)
    requires ConfigOk(g.config) && Possible(g, m)
    ensures After(g, m).config == g.config
  {
    hide Effect, Play, Advance, ConfigOk, Plausible, CommandEvent;
    match m
    case Order(cmd, actor) => CommandKeepsConfig(g, cmd, actor);
    case Serve(now, luck) => BatchBringsRest(g, now, luck);
    case Join(p, user, seat, buyIn) => EffectKeepsConfig(g, PlayerJoined(p, user, seat, buyIn));
    case Leave(p) => LeaveShowsNothing(g, p);
  }

  lemma OrderShowsNothing(g: Game, cmd: Command, actor: PlayerId)
    ensures CardsStay(g, Play(g, [CommandEvent(g, cmd, actor)]))
  {
    hide CardsStay, Play, CommandEvent;
    CommandIsCardless(g, cmd, actor);
    CardlessPlays(g, [CommandEvent(g, cmd, actor)]);
  }

  /** Joins and leaves do not reload the table in the middle of a hand. */
  ghost predicate BetweenHandsOnly(g: Game, m: Move)
  {
    m.Join? || m.Leave? ==> g.hand.None?
  }

  lemma MoveKeepsCards(g: Game, m: Move, a: Shoe, b: Shoe, n: nat)
    requires ConfigOk(g.config) && CardsOk(g, a, n) && Possible(g, m) && Dealt(g, m, a, b) && BetweenHandsOnly(g, m)
    requires g.hand.None? ==> |ActiveIds(g.players)| <= n
    ensures CardsOk(After(g, m), b, n)
  {
    hide Effect, Play, Advance, ConfigOk, CardsOk, Plausible, Feeds, CommandEvent, SameCards;
    match m
    case Order(cmd, actor) =>
      OrderShowsNothing(g, cmd, actor);
      SameCardsOk(g, After(g, m), a, n);
    case Serve(now, luck) => ServeKeepsCards(g, now, luck, a, b, n);
    case Join(p, user, seat, buyIn) =>
      JoinIsJoined(g, p, user, seat, buyIn);
      BetweenHands(After(g, m), b, n);
    case Leave(p) =>
      LeaveShowsNothing(g, p);
      BetweenHands(After(g, m), b, n);
  }

  /** Any run with its dealer: shoes[i] is the dealer after the i-th step. */
  ghost predicate IsSession(g: Game, moves: seq<Move>, shoe: Shoe, shoes: seq<Shoe>)
    requires |shoes| == |moves|
    ensures IsSession(g, moves, shoe, shoes) ==> Happens(g, moves)
    decreases |moves|
  {
    moves == [] ||
    (Possible(g, moves[0]) && Dealt(g, moves[0], shoe, shoes[0])
        && IsSession(After(g, moves[0]), moves[1..], shoes[0], shoes[1..]))
  }

  ghost function LastShoe(shoe: Shoe, shoes: seq<Shoe>): Shoe
  {
    if shoes == [] then shoe else shoes[|shoes| - 1]
  }

  /** Between hands no more than n players are ever ready to be dealt in. */
  ghost predicate AtMost(g: Game, moves: seq<Move>, n: nat)
    requires Happens(g, moves)
    decreases |moves|
  {
    && (g.hand.None? ==> |ActiveIds(g.players)| <= n)
    && (moves == [] || AtMost(After(g, moves[0]), moves[1..], n))
  }

  /** The table is never reloaded in the middle of a hand. */
  ghost predicate Unreloaded(g: Game, moves: seq<Move>)
    requires Happens(g, moves)
    decreases |moves|
  {
    moves == [] || (BetweenHandsOnly(g, moves[0]) && Unreloaded(After(g, moves[0]), moves[1..]))
  }

  /** In every state of a session whose joins and leaves come between hands — whoever bets, sits out or
      runs out of time — all cards on the table come from different positions of one shuffled deck. */
  lemma {:induction false} SessionKeepsCards(g: Game, moves: seq<Move>, shoe: Shoe, shoes: seq<Shoe>, n: nat)
    requires ConfigOk(g.config) && |shoes| == |moves| && CardsOk(g, shoe, n)
    requires IsSession(g, moves, shoe, shoes) && Unreloaded(g, moves) && AtMost(g, moves, n)
    ensures CardsOk(End(g, moves), LastShoe(shoe, shoes), n)
    decreases |moves|
  {
    hide ConfigOk, After, CardsOk, Dealt, Possible, ActiveIds, BetweenHandsOnly;
    if moves != [] {
      assert AtMost(After(g, moves[0]), moves[1..], n);
      MoveKeepsConfig(g, moves[0]);
      MoveKeepsCards(g, moves[0], shoe, shoes[0], n);
      SessionKeepsCards(After(g, moves[0]), moves[1..], shoes[0], shoes[1..], n);
    }
  }

  /** Some bound holds of every session. */
  lemma {:induction false} SomeBound(g: Game, moves: seq<Move>) returns (n: nat)
    requires Happens(g, moves)
    ensures AtMost(g, moves, n)
    decreases |moves|
  {
    hide After, Possible, ActiveIds;
    n := |ActiveIds(g.players)|;
    if moves != [] {
      var m := SomeBound(After(g, moves[0]), moves[1..]);
      n := if m > n then m else n;
      MoreThanEnough(After(g, moves[0]), moves[1..], m, n);
    }
  }

  lemma {:induction false} MoreThanEnough(g: Game, moves: seq<Move>, m: nat, n: nat)
    requires Happens(g, moves) && AtMost(g, moves, m) && m <= n
    ensures AtMost(g, moves, n)
    decreases |moves|
  {
    hide After, Possible, ActiveIds;
    if moves != [] {
      MoreThanEnough(After(g, moves[0]), moves[1..], m, n);
    }
  }

  /** So no card is ever on the table twice. */
  lemma SessionCardsDistinct(g: Game, moves: seq<Move>, shoe: Shoe, shoes: seq<Shoe>, x: Place, y: Place)
    requires ConfigOk(g.config) && g.hand.None? && |shoes| == |moves|
    requires IsSession(g, moves, shoe, shoes) && Unreloaded(g, moves)
    requires var last := End(g, moves); last.hand.Some? && OnTable(last, x) && OnTable(last, y) && x != y
    ensures CardAt(End(g, moves), x) != CardAt(End(g, moves), y)
  {
    hide IsSession, Happens, CardsOk, Unreloaded;
    var n := SomeBound(g, moves);
    BetweenHands(g, shoe, n);
    SessionKeepsCards(g, moves, shoe, shoes, n);
    CardsAreDistinct(End(g, moves), LastShoe(shoe, shoes), n, x, y);
  }

  // ── The deck does not run out ─────────────────────────────────────────────

  /** Why a batch could not be dealt: more players than cards, or too few cards left. */
  ghost predicate OutOfCards(g: Game, now: nat, a: Shoe)
  {
    || (KindOf(g, now) == Deals && 2 * |ActiveIds(g.players)| > SIZE)
    || (KindOf(g, now) == TurnsStreet && g.hand.Some? && a.dealt + 1 + StreetCards(g.hand.value.phase) > |a.order|)
  }

  /** In a hand the dealer has used no more cards than dealing in n players and the streets so far take. */
  ghost predicate DeckHolds(g: Game, shoe: Shoe, n: nat)
  {
    g.hand.Some? ==>
      |shoe.order| == SIZE && g.hand.value.phase != Phase.Showdown && shoe.dealt <= UsedBy(g.hand.value.phase, n)
  }

  lemma ServeKeepsDeck(g: Game, now: nat, luck: Luck, a: Shoe, b: Shoe, n: nat)
    requires ConfigOk(g.config) && DeckHolds(g, a, n) && Plausible(luck, g) && Feeds(g, now, luck, a, b)
    requires g.hand.None? ==> |ActiveIds(g.players)| <= n
    ensures DeckHolds(Play(g, Advance(g, now, luck)), b, n)
  {
    hide Effect, Play, Advance, ConfigOk, Plausible, KindOf, Feeds, Distinct, ActiveSeats;
    hide HolesDealt, KeepsHoles, ActiveIds;
    BatchShapes(g, now, luck);
    FeedsKind(g, now, luck, a, b);
    Dealable(g, now, luck);
  }

  lemma StayingKeepsDeck(g: Game, g2: Game, shoe: Shoe, n: nat)
    requires DeckHolds(g, shoe, n) && (g2.hand.None? || SameCards(g, g2))
    ensures DeckHolds(g2, shoe, n)
  {
  }

  lemma FreshDeckHolds(g: Game, shoe: Shoe, n: nat)
    requires DeckHolds(g, shoe, n)
    ensures DeckHolds(g, NewDealer(), n)
  {
  }

  lemma MoveKeepsDeck(g: Game, m: Move, a: Shoe, b: Shoe, n: nat)
    requires ConfigOk(g.config) && DeckHolds(g, a, n) && Possible(g, m) && Dealt(g, m, a, b)
    requires g.hand.None? ==> |ActiveIds(g.players)| <= n
    ensures DeckHolds(After(g, m), b, n)
  {
    hide Effect, Play, Advance, ConfigOk, DeckHolds, Plausible, Feeds, CommandEvent, SameCards, NewDealer;
    match m
    case Order(cmd, actor) =>
      OrderShowsNothing(g, cmd, actor);
      StayingKeepsDeck(g, After(g, m), a, n);
    case Serve(now, luck) => ServeKeepsDeck(g, now, luck, a, b, n);
    case Join(p, user, seat, buyIn) =>
      JoinShowsNothing(g, p, user, seat, buyIn);
      StayingKeepsDeck(g, After(g, m), a, n);
      FreshDeckHolds(After(g, m), a, n);
    case Leave(p) =>
      LeaveShowsNothing(g, p);
      StayingKeepsDeck(g, After(g, m), a, n);
      FreshDeckHolds(After(g, m), a, n);
  }

  lemma {:induction false} SessionKeepsDeck(g: Game, moves: seq<Move>, shoe: Shoe, shoes: seq<Shoe>, n: nat)
    requires ConfigOk(g.config) && |shoes| == |moves| && DeckHolds(g, shoe, n)
    requires IsSession(g, moves, shoe, shoes) && AtMost(g, moves, n)
    ensures DeckHolds(End(g, moves), LastShoe(shoe, shoes), n)
    ensures End(g, moves).hand.None? ==> |ActiveIds(End(g, moves).players)| <= n
    decreases |moves|
  {
    hide ConfigOk, After, DeckHolds, Dealt, Possible, ActiveIds;
    if moves != [] {
      assert AtMost(After(g, moves[0]), moves[1..], n);
      MoveKeepsConfig(g, moves[0]);
      MoveKeepsDeck(g, moves[0], shoe, shoes[0], n);
      SessionKeepsDeck(After(g, moves[0]), moves[1..], shoes[0], shoes[1..], n);
    }
  }

  /** Two cards for each of n players, three burns and a board of five fit into the deck. */
  lemma EnoughCards(g: Game, now: nat, shoe: Shoe, n: nat)
    requires DeckHolds(g, shoe, n) && 2 * n + 8 <= SIZE && (g.hand.None? ==> |ActiveIds(g.players)| <= n)
    ensures !OutOfCards(g, now, shoe)
  {
    hide NonFolded, TimedOut, ActiveIds, BustedIds;
  }

  /** In a session where at most n players are dealt in at a time and 2n + 8 is at most 52, the dealer
      has the cards for whatever the server wants to do next, in every state and at any time, reloads in
      the middle of a hand included. */
  lemma DeckSuffices(g: Game, moves: seq<Move>, shoe: Shoe, shoes: seq<Shoe>, n: nat, now: nat)
    requires ConfigOk(g.config) && g.hand.None? && |shoes| == |moves| && IsSession(g, moves, shoe, shoes)
    requires AtMost(g, moves, n) && 2 * n + 8 <= SIZE
    ensures !OutOfCards(End(g, moves), now, LastShoe(shoe, shoes))
  {
    hide IsSession, Happens, OutOfCards, AtMost, ActiveIds;
    SessionKeepsDeck(g, moves, shoe, shoes, n);
    EnoughCards(End(g, moves), now, LastShoe(shoe, shoes), n);
  }
}
