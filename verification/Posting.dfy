/** What starting a hand leaves: antes, blinds and hole cards posted on a blank hand. */
module Posting {
  import opened Collections
  import opened Cards
  import opened Table
  import opened Pots
  import opened Lifecycle
  import opened Chips

  /** Forced payments and cards, for a player at the table. */
  predicate IsPost(e: Event, seated: set<PlayerId>)
  {
    match e
    case AntePosted(p, amount) => p in seated && amount >= 0
    case BlindPosted(p, amount, _) => p in seated && amount >= 0
    case HoleCardsDealt(p) => p in seated
    case HoleCardsRevealed(p, _) => p in seated
    case _ => false
  }

  predicate AllPosts(posts: seq<Event>, seated: set<PlayerId>)
  {
    forall i | 0 <= i < |posts| :: IsPost(posts[i], seated)
  }

  predicate NoAntes(posts: seq<Event>)
  {
    forall e | e in posts :: !e.AntePosted?
  }

  /** What one event takes from player p's stack. */
  function PaidBy(e: Event, p: PlayerId): int
  {
    match e
    case AntePosted(q, amount) => if q == p then amount else 0
    case BlindPosted(q, amount, _) => if q == p then amount else 0
    case _ => 0
  }

  function PaidIn(posts: seq<Event>, p: PlayerId): int
  {
    if posts == [] then 0 else PaidIn(posts[..|posts| - 1], p) + PaidBy(posts[|posts| - 1], p)
  }

  /** What went into the pot was committed by the players. */
  ghost predicate PotFollows(g: Game, g2: Game)
    requires g.hand.Some? && g2.hand.Some?
  {
    g2.hand.value.pot - g.hand.value.pot == CommitTotal(g2.players) - CommitTotal(g.players)
  }

  /** g2 is g with some chips posted: nobody folded or acted, and bets are covered by what was
      paid in; the highest bet is at least every bet. Without antes all that was paid in is bet. */
  ghost predicate OnlyPosted(g: Game, g2: Game, noAntes: bool)
  {
    && g.hand.Some? && g2.hand.Some?
    && g2.players.Keys == g.players.Keys
    && (var h, h2 := g.hand.value, g2.hand.value;
        && h2.order == h.order && h2.pending == h.pending && h2.acting == h.acting
        && h2.phase == h.phase && h2.rakeTaken == h.rakeTaken
        && h2.dealer == h.dealer && h2.flop == h.flop && h2.turn == h.turn && h2.river == h.river
        && h2.highest >= h.highest)
    && PotFollows(g, g2)
    && g2.config == g.config && g2.status == g.status && g2.handNumber == g.handNumber
    && (forall p | p in g.players ::
        var a, b := g.players[p], g2.players[p];
        && b.seat == a.seat && b.sittingOut == a.sittingOut && b.folded == a.folded && b.allIn == a.allIn
        && b.stack + b.committed == a.stack + a.committed
        && 0 <= b.currentBet - a.currentBet <= b.committed - a.committed
        && (noAntes ==> b.currentBet - a.currentBet == b.committed - a.committed)
        && (a.currentBet <= g.hand.value.highest ==> b.currentBet <= g2.hand.value.highest))
  }

  lemma PostOne(g: Game, e: Event)
    requires g.hand.Some? && IsPost(e, g.players.Keys)
    ensures OnlyPosted(g, Effect(g, e, None), !e.AntePosted?)
    ensures forall p | p in g.players :: Effect(g, e, None).players[p].stack == g.players[p].stack - PaidBy(e, p)
  {
    hide Effect, Pay, Post, OnlyPosted;
    match e
    case AntePosted(p, amount) => AnteOnlyPosts(g, p, amount);
    case BlindPosted(p, amount, isBigBlind) => BlindOnlyPosts(g, p, amount, isBigBlind);
    case HoleCardsDealt(p) => CardsOnlyPost(g, p, HoleCards(0, 0));
    case HoleCardsRevealed(p, cards) => CardsOnlyPost(g, p, cards);
  }

  lemma AnteOnlyPosts(g: Game, pid: PlayerId, amount: int)
    requires g.hand.Some? && pid in g.players && amount >= 0
    ensures OnlyPosted(g, Effect(g, AntePosted(pid, amount), None), false)
    ensures forall p | p in g.players ::
      Effect(g, AntePosted(pid, amount), None).players[p].stack == g.players[p].stack - if p == pid then amount else 0
  {
    hide StackTotal, CommitTotal;
    PayPosts(g, pid, amount, false);
  }

  lemma BlindOnlyPosts(g: Game, pid: PlayerId, amount: int, isBigBlind: bool)
    requires g.hand.Some? && pid in g.players && amount >= 0
    ensures OnlyPosted(g, Effect(g, BlindPosted(pid, amount, isBigBlind), None), true)
    ensures forall p | p in g.players ::
      Effect(g, BlindPosted(pid, amount, isBigBlind), None).players[p].stack
      == g.players[p].stack - if p == pid then amount else 0
  {
    hide StackTotal, CommitTotal;
    PayPosts(g, pid, amount, true);
  }

  lemma CardsOnlyPost(g: Game, pid: PlayerId, cards: HoleCards)
    requires g.hand.Some? && pid in g.players
    ensures OnlyPosted(g, Effect(g, HoleCardsDealt(pid), None), true)
    ensures OnlyPosted(g, Effect(g, HoleCardsRevealed(pid, cards), None), true)
    ensures forall p | p in g.players ::
      && Effect(g, HoleCardsDealt(pid), None).players[p].stack == g.players[p].stack
      && Effect(g, HoleCardsRevealed(pid, cards), None).players[p].stack == g.players[p].stack
  {
    hide StackTotal, CommitTotal;
    SameStacksSameTotal(g.players, Effect(g, HoleCardsRevealed(pid, cards), None).players);
  }

  lemma PayPosts(g: Game, pid: PlayerId, amount: int, bet: bool)
    requires g.hand.Some? && pid in g.players && amount >= 0
    ensures PotFollows(g, Pay(g, pid, amount, bet))
  {
    TotalsAfterUpdate(g.players, pid, Pay(g, pid, amount, bet).players[pid]);
  }

  lemma {:induction false} PlayPosts(g: Game, posts: seq<Event>)
    requires g.hand.Some? && AllPosts(posts, g.players.Keys)
    ensures OnlyPosted(g, Play(g, posts), NoAntes(posts))
    ensures forall p | p in g.players :: Play(g, posts).players[p].stack == g.players[p].stack - PaidIn(posts, p)
  {
    if posts != [] {
      var rest, last := posts[..|posts| - 1], posts[|posts| - 1];
      PlayPosts(g, rest);
      LastBack(posts);
      PlayLast(g, rest, last);
      PostOne(Play(g, rest), last);
      OnlyPostedTwice(g, Play(g, rest), Play(g, posts), NoAntes(posts));
    }
  }

  lemma OnlyPostedTwice(a: Game, b: Game, c: Game, noAntes: bool)
    requires OnlyPosted(a, b, noAntes) && OnlyPosted(b, c, noAntes)
    ensures OnlyPosted(a, c, noAntes)
  {
  }

  /** The table's configuration as the server admits it. */
  predicate ConfigOk(c: Config)
  {
    0 < c.smallBlind < c.bigBlind && 0 <= c.rakeBps <= 10000
  }

  lemma RotateKeeps(ids: seq<PlayerId>, target: PlayerId)
    requires Distinct(ids)
    ensures Distinct(RotateAfter(ids, target)) && Elems(RotateAfter(ids, target)) == Elems(ids)
  {
    if target in ids {
      var k := (IndexOf(ids, target) + 1) % |ids|;
      assert ids == ids[..k] + ids[k..];
      assert forall p :: p in ids <==> p in ids[k..] + ids[..k];
    }
  }

  lemma {:induction false} AntesArePosts(g: Game, active: seq<PlayerId>)
    requires forall p | p in active :: p in g.players && g.players[p].stack >= 0
    ensures AllPosts(AnteEvents(g, active), g.players.Keys)
  {
    if active != [] && g.config.ante > 0 {
      AntesArePosts(g, active[..|active| - 1]);
      assert active[|active| - 1] in active;
    }
  }

  lemma {:induction false} HolesArePosts(active: seq<PlayerId>, cards: seq<Card>, k: nat, seated: set<PlayerId>)
    requires k <= |active| && |cards| >= 2 * k
    requires forall p | p in active :: p in seated
    ensures AllPosts(HoleEvents(active, cards, k), seated)
  {
    if k > 0 {
      HolesArePosts(active, cards, k - 1, seated);
    }
  }

  /** A new hand is about to start. */
  ghost predicate StartsHand(g: Game)
  {
    && g.hand.None? && (g.status == Waiting || g.status == Active)
    && BustedIds(g.players) == {} && |ActiveIds(g.players)| >= MinPlayers(g.config)
  }

  ghost function ActiveSeats(g: Game): seq<PlayerId>
  {
    BySeat(g.players, ActiveIds(g.players))
  }

  ghost function HandStart(g: Game, luck: Luck): Event
    requires |ActiveSeats(g)| >= 2
  {
    var active := ActiveSeats(g);
    var b := Positions(g.players, active, g.dealerSeat, g.handNumber);
    HandStarted(luck.handId, g.handNumber + 1, active[b.dealer], active[b.sb], active[b.bb], g.config.bigBlind)
  }

  /** Antes, blinds and hole cards of the hand that starts. */
  ghost function Posts(g: Game, luck: Luck): seq<Event>
    requires Plausible(luck, g) && |ActiveSeats(g)| >= 2
  {
    var active := ActiveSeats(g);
    ActiveFits(g.players);
    var b := Positions(g.players, active, g.dealerSeat, g.handNumber);
    AnteEvents(g, active) + BlindEvents(g, active[b.sb], active[b.bb]) + HoleEvents(active, luck.cards, |active|)
  }

  lemma PostsArePosts(g: Game, luck: Luck)
    requires Plausible(luck, g) && |ActiveSeats(g)| >= 2 && ConfigOk(g.config)
    ensures AllPosts(Posts(g, luck), g.players.Keys)
  {
    var active := ActiveSeats(g);
    ActiveFits(g.players);
    var b := Positions(g.players, active, g.dealerSeat, g.handNumber);
    var antes, holes := AnteEvents(g, active), HoleEvents(active, luck.cards, |active|);
    assert AllPosts(antes, g.players.Keys) by { AntesArePosts(g, active); }
    assert AllPosts(holes, g.players.Keys) by { HolesArePosts(active, luck.cards, |active|, g.players.Keys); }
    BlindsArePosts(g, active[b.sb], active[b.bb]);
    AllPostsConcat(antes, BlindEvents(g, active[b.sb], active[b.bb]), g.players.Keys);
    AllPostsConcat(antes + BlindEvents(g, active[b.sb], active[b.bb]), holes, g.players.Keys);
  }

  lemma AllPostsConcat(a: seq<Event>, b: seq<Event>, seated: set<PlayerId>)
    requires AllPosts(a, seated) && AllPosts(b, seated)
    ensures AllPosts(a + b, seated)
  {
  }

  lemma BlindsArePosts(g: Game, sb: PlayerId, bb: PlayerId)
    requires ConfigOk(g.config) && sb in ActiveIds(g.players) && bb in ActiveIds(g.players)
    ensures AllPosts(BlindEvents(g, sb, bb), g.players.Keys)
  {
  }

  /** The table once the new hand is dealt: everyone in, blinds in the pot, nobody has acted. */
  ghost predicate JustDealt(g: Game, g2: Game)
  {
    && g2.hand.Some? && g2.players.Keys == g.players.Keys
    && (var h := g2.hand.value;
        && Distinct(h.order) && Elems(h.order) == ActiveIds(g.players)
        && h.pending == h.order && h.acting.None? && h.phase == Preflop && h.rakeTaken == 0
        && h.flop.None? && h.turn.None? && h.river.None?
        && h.pot == CommitTotal(g2.players) && h.highest >= 0
        && forall p | p in g2.players ::
          var q := g2.players[p];
          && !q.folded && !q.allIn && q.sittingOut == g.players[p].sittingOut && q.seat == g.players[p].seat
          && q.stack + q.committed == g.players[p].stack
          && 0 <= q.currentBet <= q.committed && q.currentBet <= h.highest)
    && g2.config == g.config && g2.status == Active
  }

  /** Everything committed so far was bet on this street. */
  ghost predicate AllBets(g: Game)
  {
    forall p | p in g.players :: g.players[p].currentBet == g.players[p].committed
  }

  lemma NewHandDealt(g: Game, now: nat, luck: Luck)
    requires StartsHand(g) && Plausible(luck, g) && ConfigOk(g.config)
    ensures |ActiveSeats(g)| >= 2 && Advance(g, now, luck) == [HandStart(g, luck)] + Posts(g, luck)
    ensures JustDealt(g, Play(g, Advance(g, now, luck)))
    ensures NoAntes(Posts(g, luck)) ==> AllBets(Play(g, Advance(g, now, luck)))
    ensures forall p | p in g.players ::
      Play(g, Advance(g, now, luck)).players[p].stack == g.players[p].stack - PaidIn(Posts(g, luck), p)
  {
    hide Effect, Play, Advance, Posts, Blank, JustDealt, AllBets, OnlyPosted, AllPosts, NoAntes, PaidIn;
    ActiveFits(g.players);
    var start, posts := HandStart(g, luck), Posts(g, luck);
    HandEventsInTwo(g, now, luck);
    PlayConcat(g, [start], posts);
    PlayOne(g, start);
    var blank := Effect(g, start, None);
    FreshTable(g, start);
    PostsArePosts(g, luck);
    PlayPosts(blank, posts);
    DealtAfterPosts(g, blank, Play(blank, posts), NoAntes(posts));
  }

  lemma HandEventsInTwo(g: Game, now: nat, luck: Luck)
    requires StartsHand(g) && Plausible(luck, g)
    ensures |ActiveSeats(g)| >= 2 && Advance(g, now, luck) == [HandStart(g, luck)] + Posts(g, luck)
  {
    ActiveFits(g.players);
  }

  ghost predicate Blank(g: Game, b: Game)
  {
    && b.hand.Some? && b.players == MapPlayers(g.players, FreshHand()) && CommitTotal(b.players) == 0
    && b.config == g.config && b.status == Active
    && (var h := b.hand.value;
        && Distinct(h.order) && Elems(h.order) == ActiveIds(g.players)
        && h.pending == h.order && h.acting.None? && h.phase == Preflop && h.rakeTaken == 0
        && h.flop.None? && h.turn.None? && h.river.None? && h.pot == 0 && h.highest == 0)
  }

  lemma DealtAfterPosts(g: Game, b: Game, g2: Game, noAntes: bool)
    requires Blank(g, b) && b.hand.Some? && OnlyPosted(b, g2, noAntes) && g2.status == Active
    ensures JustDealt(g, g2)
    ensures noAntes ==> AllBets(g2)
  {
    forall p | p in g2.players ensures b.players[p] == ForNewHand(g.players[p]) {
      assert p in b.players;
    }
  }

  lemma FreshTable(g: Game, start: Event)
    requires start.HandStarted?
    ensures Blank(g, Effect(g, start, None))
    ensures Effect(g, start, None).hand.Some? && Effect(g, start, None).players.Keys == g.players.Keys
    ensures forall p | p in g.players :: Effect(g, start, None).players[p].stack == g.players[p].stack
  {
    var players := MapPlayers(g.players, FreshHand());
    var seated := BySeat(players, ActiveIds(players));
    assert ActiveIds(players) == ActiveIds(g.players);
    RotateKeeps(seated, start.bb);
    RotateKeeps(seated, start.dealer);
    NothingCommitted(players);
  }
}
