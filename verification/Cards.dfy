/** The deck, its Fisher–Yates shuffle and the dealer that draws from it. */
module Cards {
  import opened Collections

  const SIZE: nat := 52

  /** A card is suit * 13 + rank: suits clubs to spades, ranks two (0) to ace (12). */
  type Card = c: nat | c < 52

  // ── The shuffle as a function of its choices ──────────────────────────────

  /** The random draws of one shuffle of n cards: the draw made at position i lies in 0..i.
      (The loop stops at position 1; entry 0 can only be 0 and is never used.) */
  predicate Choices(draws: seq<nat>, n: nat)
  {
    |draws| == n && forall i | 0 <= i < n :: draws[i] <= i
  }

  function Swap<T>(s: seq<T>, i: nat, j: nat): seq<T>
    requires i < |s| && j < |s|
  {
    s[i := s[j]][j := s[i]]
  }

  /** What the shuffle leaves: the last position is settled first, then the positions below it. */
  function Shuffled<T>(s: seq<T>, draws: seq<nat>): (r: seq<T>)
    requires Choices(draws, |s|)
    ensures |r| == |s|
    decreases |s|
  {
    if s == [] then [] else
      var i := |s| - 1;
      var t := Swap(s, i, draws[i]);
      Shuffled(t[..i], draws[..i]) + [t[i]]
  }

  lemma SwapKeeps<T>(s: seq<T>, i: nat, j: nat)
    requires i < |s| && j < |s|
    ensures multiset(Swap(s, i, j)) == multiset(s)
    ensures Distinct(s) ==> Distinct(Swap(s, i, j))
  {
  }

  /** No card is lost or duplicated by a shuffle. */
  lemma {:induction false} ShuffleKeepsCards<T>(s: seq<T>, draws: seq<nat>)
    requires Choices(draws, |s|)
    ensures multiset(Shuffled(s, draws)) == multiset(s)
    decreases |s|
  {
    if s != [] {
      var i := |s| - 1;
      var t := Swap(s, i, draws[i]);
      SwapKeeps(s, i, draws[i]);
      ShuffleKeepsCards(t[..i], draws[..i]);
      LastBack(t);
    }
  }

  function IndexOf<T(==)>(s: seq<T>, x: T): (i: nat)
    requires x in s
    ensures i < |s| && s[i] == x
  {
    if s[|s| - 1] == x then |s| - 1 else IndexOf(s[..|s| - 1], x)
  }

  /** Moving the card at j to the end leaves the other cards in front of it. */
  lemma TakeOut<T>(s: seq<T>, j: nat)
    requires j < |s|
    ensures multiset(Swap(s, |s| - 1, j)[..|s| - 1]) == multiset(s) - multiset{s[j]}
    ensures Distinct(s) ==> Distinct(Swap(s, |s| - 1, j)[..|s| - 1])
  {
    hide Swap, Distinct;
    var t := Swap(s, |s| - 1, j);
    SwapKeeps(s, |s| - 1, j);
    SwappedLast(s, j);
    DropLast(t);
    DistinctPrefix(t, |s| - 1);
  }

  lemma SwappedLast<T>(s: seq<T>, j: nat)
    requires j < |s|
    ensures |Swap(s, |s| - 1, j)| == |s| && Swap(s, |s| - 1, j)[|s| - 1] == s[j]
  {
  }

  lemma DistinctPrefix<T>(s: seq<T>, n: nat)
    requires n <= |s|
    ensures Distinct(s) ==> Distinct(s[..n])
  {
  }

  lemma LastIsThere<T>(s: seq<T>, wanted: seq<T>)
    requires multiset(s) == multiset(wanted) && s != []
    ensures |s| == |wanted| && wanted[|wanted| - 1] in s
    ensures multiset(wanted[..|wanted| - 1]) == multiset(s) - multiset{wanted[|wanted| - 1]}
  {
    SameSize(s, wanted);
    DropLast(wanted);
    assert wanted[|wanted| - 1] in multiset(s);
  }

  /** The draws that turn s into a wanted order of the same cards. */
  function DrawsFor<T(==)>(s: seq<T>, wanted: seq<T>): (draws: seq<nat>)
    requires Distinct(s) && multiset(s) == multiset(wanted)
    ensures Choices(draws, |s|)
    decreases |s|
  {
    if s == [] then [] else
      LastIsThere(s, wanted);
      var i := |s| - 1;
      var j := IndexOf(s, wanted[i]);
      TakeOut(s, j);
      DrawsFor(Swap(s, i, j)[..i], wanted[..i]) + [j]
  }

  lemma {:induction false} ShuffleReaches<T>(s: seq<T>, wanted: seq<T>)
    requires Distinct(s) && multiset(s) == multiset(wanted)
    ensures Shuffled(s, DrawsFor(s, wanted)) == wanted
    decreases |s|
  {
    if s == [] {
      SameSize(s, wanted);
    } else {
      LastIsThere(s, wanted);
      var i := |s| - 1;
      var j := IndexOf(s, wanted[i]);
      TakeOut(s, j);
      var t := Swap(s, i, j);
      ShuffleReaches(t[..i], wanted[..i]);
      var draws := DrawsFor(s, wanted);
      assert draws[i] == j && draws[..i] == DrawsFor(t[..i], wanted[..i]);
      LastBack(wanted);
    }
  }

  lemma {:induction false} ShuffleSeparates<T>(s: seq<T>, a: seq<nat>, b: seq<nat>)
    requires Distinct(s) && Choices(a, |s|) && Choices(b, |s|)
    requires Shuffled(s, a) == Shuffled(s, b)
    ensures a == b
    decreases |s|
  {
    if s != [] {
      var i := |s| - 1;
      var t, u := Swap(s, i, a[i]), Swap(s, i, b[i]);
      assert Shuffled(s, a)[i] == s[a[i]] && Shuffled(s, b)[i] == s[b[i]];
      assert a[i] == b[i];
      SwapKeeps(s, i, a[i]);
      assert Shuffled(s, a)[..i] == Shuffled(t[..i], a[..i]);
      assert Shuffled(s, b)[..i] == Shuffled(u[..i], b[..i]);
      ShuffleSeparates(t[..i], a[..i], b[..i]);
      LastBack(a);
      LastBack(b);
    }
  }

  predicate ShufflesTo<T(==)>(s: seq<T>, draws: seq<nat>, wanted: seq<T>)
  {
    Choices(draws, |s|) && Shuffled(s, draws) == wanted
  }

  /** Fisher–Yates is a bijection: every order of the cards comes from exactly one sequence of
      draws, so equally likely draws make all orders equally likely. */
  lemma ShuffleIsBijection<T>(s: seq<T>, wanted: seq<T>) returns (draws: seq<nat>)
    requires Distinct(s) && multiset(s) == multiset(wanted)
    ensures ShufflesTo(s, draws, wanted)
    ensures forall other :: ShufflesTo(s, other, wanted) ==> other == draws
  {
    draws := DrawsFor(s, wanted);
    ShuffleReaches(s, wanted);
    forall other | ShufflesTo(s, other, wanted) ensures other == draws {
      ShuffleSeparates(s, other, draws);
    }
  }

  /** The final order as seen from the middle of the loop: position i and those below it are
      still to be shuffled, those above are settled. */
  ghost function Progress<T>(s: seq<T>, draws: seq<nat>, i: nat): seq<T>
    requires i < |s| && Choices(draws, |s|)
  {
    Shuffled(s[..i + 1], draws[..i + 1]) + s[i + 1..]
  }

  lemma Unstarted<T>(s: seq<T>, draws: seq<nat>)
    requires Choices(draws, |s|)
    ensures s != [] ==> Shuffled(s, draws) == Progress(s, draws, |s| - 1)
  {
    if s != [] {
      assert s[..|s|] == s && draws[..|s|] == draws;
    }
  }

  lemma Finished<T>(s: seq<T>, draws: seq<nat>)
    requires Choices(draws, |s|)
    ensures s != [] ==> Progress(s, draws, 0) == s
    ensures s == [] ==> Shuffled(s, draws) == s
  {
    if s != [] {
      assert draws[..1] == [0];
      ShuffleOne(s[..1]);
      assert s[..1] + s[1..] == s;
    }
  }

  lemma ShuffleOne<T>(s: seq<T>)
    requires |s| == 1
    ensures Shuffled(s, [0]) == s
  {
    assert [0][..0] == [] && Swap(s, 0, 0) == s && s[..0] == [];
    assert Shuffled(s, [0]) == Shuffled(s[..0], [0][..0]) + [s[0]];
  }

  lemma ShuffleRound<T>(s: seq<T>, draws: seq<nat>, i: nat)
    requires 0 < i < |s| && Choices(draws, |s|)
    ensures Progress(s, draws, i) == Progress(Swap(s, i, draws[i]), draws, i - 1)
  {
    var open, t := s[..i + 1], Swap(s, i, draws[i]);
    assert Swap(open, i, draws[i]) == t[..i + 1];
    assert t[..i + 1][..i] == t[..i] && draws[..i + 1][..i] == draws[..i];
    assert t[i..] == [t[i]] + s[i + 1..];
  }

  // ── The deck ──────────────────────────────────────────────────────────────

  function Unshuffled(): (cards: seq<Card>)
    ensures |cards| == SIZE && Distinct(cards)
    ensures forall i | 0 <= i < SIZE :: cards[i] == i
  {
    seq(SIZE, i requires 0 <= i < SIZE => i)
  }

  class Deck {
    const cards: array<Card>
    var pos: nat  // next card to draw

    ghost predicate Valid()
      reads this
    {
      pos <= cards.Length
    }

    constructor ()
      ensures Valid() && fresh(cards)
      ensures cards[..] == Unshuffled() && pos == 0
    {
      cards := new Card[SIZE](i requires 0 <= i < SIZE => i);
      pos := 0;
    }

    /** draws[i] stands for the random number drawn from 0..i at position i. */
    method CryptoShuffle(draws: seq<nat>)
      requires Choices(draws, cards.Length)
      modifies this, cards
      ensures Valid() && pos == 0
      ensures cards[..] == Shuffled(old(cards[..]), draws)
    {
      pos := 0;
      ghost var all := cards[..];
      var i := cards.Length - 1;
      Unstarted(all, draws);
      while i > 0
        invariant pos == 0 && i < cards.Length && (cards.Length == 0 || i >= 0)
        invariant cards.Length > 0 ==> Shuffled(all, draws) == Progress(cards[..], draws, i)
      {
        var j := draws[i];
        ghost var was := cards[..];
        cards[i], cards[j] := cards[j], cards[i];
        assert cards[..] == Swap(was, i, j);
        ShuffleRound(was, draws, i);
        i := i - 1;
      }
      Finished(cards[..], draws);
    }

    /** The next card, or None when the deck is exhausted. */
    method Draw() returns (card: Option<Card>)
      requires Valid()
      modifies this
      ensures Valid()
      ensures card.None? <==> old(pos) == cards.Length
      ensures card.None? ==> pos == old(pos)
      ensures card.Some? ==> card.value == cards[old(pos)] && pos == old(pos) + 1
    {
      if pos >= cards.Length {
        return None;
      }
      card := Some(cards[pos]);
      pos := pos + 1;
    }
  }

  // ── The dealer ────────────────────────────────────────────────────────────

  /** The production dealer of one session. Order() is the deck it works through, Dealt() how
      far it has got. */
  class CryptoDealer {
    var d: Deck

    ghost predicate Valid()
      reads this, d
    {
      d.Valid()
    }

    ghost function Order(): seq<Card>
      reads this, d, d.cards
    {
      d.cards[..]
    }

    ghost function Dealt(): nat
      reads this, d
    {
      d.pos
    }

    constructor ()
      ensures Valid() && fresh(d) && fresh(d.cards)
      ensures Order() == Unshuffled() && Dealt() == 0
    {
      d := new Deck();
    }

    /** A new hand gets a new deck: all 52 cards, in one of the orders, none dealt yet. */
    method Shuffle(draws: seq<nat>)
      requires Choices(draws, SIZE)
      modifies this
      ensures Valid() && fresh(d) && fresh(d.cards)
      ensures Dealt() == 0 && Order() == Shuffled(Unshuffled(), draws)
      ensures Distinct(Order()) && |Order()| == SIZE
    {
      d := new Deck();
      d.CryptoShuffle(draws);
      ShuffleKeepsCards(Unshuffled(), draws);
      SameElemsDistinct(Unshuffled(), Order());
    }

    method Deal() returns (card: Option<Card>)
      requires Valid()
      modifies d
      ensures Valid() && d == old(d) && Order() == old(Order())
      ensures card.None? <==> old(Dealt()) == |Order()|
      ensures card.None? ==> Dealt() == old(Dealt())
      ensures card.Some? ==> Dealt() == old(Dealt()) + 1 && card.value == Order()[old(Dealt())]
    {
      card := d.Draw();
    }

    /** Discards one card; false when there was none left. */
    method Burn() returns (ok: bool)
      requires Valid()
      modifies d
      ensures Valid() && d == old(d) && Order() == old(Order())
      ensures ok <==> old(Dealt()) < |Order()|
      ensures Dealt() == old(Dealt()) + if ok then 1 else 0
    {
      var card := d.Draw();
      ok := card.Some?;
    }
  }

  lemma DistinctAppend<T>(s: seq<T>, x: T)
    requires Distinct(s) && forall k | 0 <= k < |s| :: s[k] != x
    ensures Distinct(s + [x])
  {
  }

  /** Rearranging distinct cards leaves them distinct. */
  lemma {:induction false} SameElemsDistinct<T>(a: seq<T>, b: seq<T>)
    requires Distinct(a) && multiset(a) == multiset(b)
    ensures Distinct(b)
    decreases |b|
  {
    SameSize(a, b);
    if b != [] {
      var n := |b| - 1;
      var draws := DrawsFor(a, b);
      ShuffleReaches(a, b);
      ShuffleDistinct(a, draws);
    }
  }

  lemma {:induction false} ShuffleDistinct<T>(s: seq<T>, draws: seq<nat>)
    requires Distinct(s) && Choices(draws, |s|)
    ensures Distinct(Shuffled(s, draws))
    decreases |s|
  {
    if s != [] {
      var i := |s| - 1;
      var t := Swap(s, i, draws[i]);
      SwapKeeps(s, i, draws[i]);
      DistinctPrefix(t, i);
      ShuffleDistinct(t[..i], draws[..i]);
      ShuffleKeepsCards(t[..i], draws[..i]);
      NotAmongRest(t, Shuffled(t[..i], draws[..i]));
    }
  }

  /** Rearranging all but the last card leaves the last one different from them. */
  lemma NotAmongRest<T>(t: seq<T>, front: seq<T>)
    requires t != [] && Distinct(t) && Distinct(front) && multiset(front) == multiset(t[..|t| - 1])
    ensures Distinct(front + [t[|t| - 1]])
  {
    forall k | 0 <= k < |front| ensures front[k] != t[|t| - 1] {
      assert front[k] in multiset(t[..|t| - 1]);
    }
    DistinctAppend(front, t[|t| - 1]);
  }
}
