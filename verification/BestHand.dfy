/** The best five of a pool of any size, found by stepping through all index combinations. */
module BestHand {
  import opened Collections
  import opened Cards
  import opened Eval

  /** Five strictly increasing positions below n. */
  predicate Combo(t: seq<nat>, n: nat)
  {
    |t| == 5 && t[0] < t[1] < t[2] < t[3] < t[4] < n
  }

  /** Strictly increasing positions below n. */
  predicate Increasing(t: seq<nat>, n: nat)
  {
    (forall i, j | 0 <= i < j < |t| :: t[i] < t[j]) && forall i | 0 <= i < |t| :: t[i] < n
  }

  lemma ComboIsIncreasing(t: seq<nat>, n: nat)
    requires |t| == 5
    ensures Combo(t, n) <==> Increasing(t, n)
  {
  }

  function Pick<T>(pool: seq<T>, t: seq<nat>): (p: seq<T>)
    requires forall i | 0 <= i < |t| :: t[i] < |pool|
    ensures |p| == |t|
  {
    seq(|t|, i requires 0 <= i < |t| => pool[t[i]])
  }

  /** What five cards score; the results below hold for any way of scoring them. */
  type Scorer = seq<Card> -> nat

  ghost predicate Reaches(score: Scorer, pool: seq<Card>, t: seq<nat>, r: nat)
  {
    Combo(t, |pool|) && score(Pick(pool, t)) == r
  }

  /** r is the score of some five cards of the pool, and no five cards score more. */
  ghost predicate IsBest(score: Scorer, pool: seq<Card>, r: nat)
  {
    && (exists t :: Reaches(score, pool, t, r))
    && forall t, q: nat :: Reaches(score, pool, t, q) ==> q <= r
  }

  ghost function ScoreAt(score: Scorer, pool: seq<Card>, a: nat, b: nat, c: nat, d: nat, e: nat): nat
  {
    if a < b < c < d < e < |pool| then score(Pick(pool, [a, b, c, d, e])) else 0
  }

  lemma ReachedAt(score: Scorer, pool: seq<Card>, t: seq<nat>, r: nat)
    requires Reaches(score, pool, t, r)
    ensures r == ScoreAt(score, pool, t[0], t[1], t[2], t[3], t[4])
  {
    assert t == [t[0], t[1], t[2], t[3], t[4]];
  }

  lemma BestRankExists(score: Scorer, pool: seq<Card>)
    requires |pool| >= 5
    ensures exists best :: IsBest(score, pool, best)
  {
    hide ScoreAt;
    var n := |pool|;
    var scores := set a, b, c, d, e | 0 <= a < b < c < d < e < n :: ScoreAt(score, pool, a, b, c, d, e);
    assert ScoreAt(score, pool, 0, 1, 2, 3, 4) in scores;
    var best := Greatest(scores);
    var a, b, c, d, e :| 0 <= a < b < c < d < e < n && best == ScoreAt(score, pool, a, b, c, d, e);
    ScoreReached(score, pool, [a, b, c, d, e]);
    forall u, q: nat | Reaches(score, pool, u, q) ensures q <= best {
      ReachedAt(score, pool, u, q);
      assert ScoreAt(score, pool, u[0], u[1], u[2], u[3], u[4]) in scores;
    }
    assert IsBest(score, pool, best);
  }

  lemma ScoreReached(score: Scorer, pool: seq<Card>, t: seq<nat>)
    requires Combo(t, |pool|)
    ensures Reaches(score, pool, t, ScoreAt(score, pool, t[0], t[1], t[2], t[3], t[4]))
  {
    assert t == [t[0], t[1], t[2], t[3], t[4]];
  }

  // ── Stepping through the combinations ─────────────────────────────────────

  lemma LexTotal(a: seq<nat>, b: seq<nat>)
    requires |a| == |b| == 5
    ensures LexBelow(a, b) || a == b || LexBelow(b, a)
  {
    var k: nat := if a[0] != b[0] then 0 else if a[1] != b[1] then 1 else if a[2] != b[2] then 2
      else if a[3] != b[3] then 3 else if a[4] != b[4] then 4 else 5;
    if k < 5 {
      assert LexAt(a, b, k) || LexAt(b, a, k);
    }
  }

  predicate Maxed(t: seq<nat>, from: nat, n: nat)
    requires |t| == 5
  {
    forall j | from <= j < 5 :: t[j] == j + n - 5
  }

  /** With every index at its maximum there is no later combination. */
  lemma LastCombo(t: seq<nat>, u: seq<nat>, n: nat)
    requires Combo(t, n) && Combo(u, n) && Maxed(t, 0, n)
    ensures u == t || LexBelow(u, t)
  {
    LexTotal(t, u);
    assert forall k | 0 <= k < 5 :: u[k] <= k + n - 5;
    assert forall k: nat :: !LexAt(t, u, k);
  }

  /** Raising index i, the last one not at its maximum, skips no combination. */
  lemma NextCombo(t: seq<nat>, next: seq<nat>, i: nat, u: seq<nat>, n: nat)
    requires Combo(t, n) && i < 5 && t[i] < i + n - 5 && Maxed(t, i + 1, n)
    requires |next| == 5 && (forall j | 0 <= j < i :: next[j] == t[j])
    requires next[i] == t[i] + 1 && forall j | i < j < 5 :: next[j] == next[j - 1] + 1
    ensures Combo(next, n)
    ensures Combo(u, n) && LexBelow(u, next) ==> u == t || LexBelow(u, t)
  {
    if Combo(u, n) && LexBelow(u, next) {
      var k: nat :| LexAt(u, next, k);
      LexTotal(u, t);
      assert forall d | 0 <= d < 5 :: u[d] <= d + n - 5;
      if k < i {
        assert LexAt(u, t, k);
      } else {
        assert LexAt(u, next, k);
        assert k < |u|;
        NotBeyond(next, u, i, k);
        assert forall d: nat :: !LexAt(t, u, d);
      }
    }
  }

  lemma NotBeyond(next: seq<nat>, u: seq<nat>, i: nat, k: nat)
    requires |next| == 5 && |u| == 5 && i <= k < 5 && u[0] < u[1] < u[2] < u[3] < u[4]
    requires forall j | i < j < 5 :: next[j] == next[j - 1] + 1
    requires LexAt(u, next, k)
    ensures k == i
  {
  }

  // ── bestHand ──────────────────────────────────────────────────────────────

  /** The scorer that agrees with the evaluator on every five cards. */
  ghost function Evaluator(): (f: Scorer)
    ensures IsEvaluator(f)
  {
    EvaluatorExists();
    var f :| IsEvaluator(f);
    f
  }

  ghost predicate IsEvaluator(f: Scorer)
  {
    forall five: seq<Card> {:trigger Score(five)} | |five| == 5 :: f(five) == Score(five)
  }

  lemma EvaluatorExists()
    ensures exists f :: IsEvaluator(f)
  {
    var f: Scorer := five => if |five| == 5 then Score(five) else 0;
    assert IsEvaluator(f);
  }

  ghost function BestRank(pool: seq<Card>): (r: nat)
    requires |pool| >= 5
    ensures IsBest(Evaluator(), pool, r)
  {
    BestRankExists(Evaluator(), pool);
    var r :| IsBest(Evaluator(), pool, r);
    r
  }

  /** Fewer than five cards are evaluated with card 0 in the missing places. */
  function Padded(pool: seq<Card>): (five: seq<Card>)
    requires |pool| < 5
    ensures |five| == 5
  {
    pool + seq(5 - |pool|, i => 0)
  }

  ghost function PoolRank(pool: seq<Card>): nat
  {
    if |pool| < 5 then Evaluator()(Padded(pool)) else BestRank(pool)
  }

  ghost predicate PickedFrom(pool: seq<Card>, five: seq<Card>)
  {
    exists t :: Combo(t, |pool|) && five == Pick(pool, t)
  }

  /** best covers every combination before t. */
  ghost predicate Covers(score: Scorer, pool: seq<Card>, t: seq<nat>, best: nat)
  {
    forall u | Combo(u, |pool|) && LexBelow(u, t) :: score(Pick(pool, u)) <= best
  }

  ghost predicate CoversAll(score: Scorer, pool: seq<Card>, best: nat)
  {
    forall u | Combo(u, |pool|) :: score(Pick(pool, u)) <= best
  }

  /** No combination below n lies between t and next. */
  ghost predicate Follows(t: seq<nat>, next: seq<nat>, n: nat)
  {
    forall u | Combo(u, n) && LexBelow(u, next) :: u == t || LexBelow(u, t)
  }

  ghost predicate IsLast(t: seq<nat>, n: nat)
  {
    forall u | Combo(u, n) :: u == t || LexBelow(u, t)
  }

  lemma NothingBeforeFirst(score: Scorer, pool: seq<Card>)
    ensures Covers(score, pool, [0, 1, 2, 3, 4], 0)
  {
    forall u | Combo(u, |pool|) ensures !LexBelow(u, [0, 1, 2, 3, 4]) {
      assert forall k: nat :: !LexAt(u, [0, 1, 2, 3, 4], k);
    }
  }

  /** The best rank of hole cards plus board, and five cards that have it. */
  method FindBest(c1: Card, c2: Card, board: seq<Card>) returns (best: HandRank, bestCards: seq<Card>)
    ensures best == PoolRank([c1, c2] + board)
    ensures |bestCards| == 5 && Evaluator()(bestCards) == best
    ensures |board| >= 3 ==> PickedFrom([c1, c2] + board, bestCards)
  {
    hide Covers, CoversAll, Follows, IsLast, IsBest, LexBelow, Evaluator, IsEvaluator, Score;
    var pool := [c1, c2] + board;
    ghost var score := Evaluator();
    var n := |pool|;
    if n < 5 {
      bestCards := Padded(pool);
      best := Eval5(bestCards);
      EvaluatorScores(bestCards);
      return;
    }
    var first := true;
    best, bestCards := 0, pool[..5];
    ghost var at: seq<nat> := [];
    NothingBeforeFirst(score, pool);
    var idx := new nat[5](i => i);
    var more := true;
    assert idx[..] == [0, 1, 2, 3, 4];
    while more
      invariant more ==> Combo(idx[..], n) && Covers(score, pool, idx[..], best)
      invariant !more ==> CoversAll(score, pool, best)
      invariant first ==> more && best == 0
      invariant !first ==> Reaches(score, pool, at, best) && bestCards == Pick(pool, at)
      decreases more, n - idx[0], n - idx[1], n - idx[2], n - idx[3], n - idx[4]
    {
      ghost var t, was := idx[..], best;
      var five := Pick(pool, idx[..]);
      var r := Eval5(five);
      EvaluatorScores(five);
      if first || r > best {
        best, bestCards, at := r, five, t;
        first := false;
      }
      more := NextIndex(idx, n);
      LexCases(t, idx[..]);
      CoverMore(score, pool, t, idx[..], was, best);
    }
    UniqueBest(score, pool, at, best, BestRank(pool));
  }

  lemma EvaluatorScores(five: seq<Card>)
    requires |five| == 5
    ensures Evaluator()(five) == Score(five)
  {
    assert IsEvaluator(Evaluator());
  }

  lemma LexCases(t: seq<nat>, next: seq<nat>)
    requires |t| == |next| == 5
    ensures LexBelow(t, next) ==>
      || t[0] < next[0] || (t[0] == next[0] && t[1] < next[1])
      || (t[..2] == next[..2] && t[2] < next[2]) || (t[..3] == next[..3] && t[3] < next[3])
      || (t[..4] == next[..4] && t[4] < next[4])
    ensures t[..2] == next[..2] ==> t[0] == next[0] && t[1] == next[1]
    ensures t[..3] == next[..3] ==> t[0] == next[0] && t[1] == next[1] && t[2] == next[2]
    ensures t[..4] == next[..4] ==> t[0] == next[0] && t[1] == next[1] && t[2] == next[2] && t[3] == next[3]
  {
    assert forall k | 2 <= k <= 4 && t[..k] == next[..k] :: forall i | 0 <= i < k :: t[..k][i] == next[..k][i];
  }

  lemma CoverMore(score: Scorer, pool: seq<Card>, t: seq<nat>, next: seq<nat>, was: nat, best: nat)
    requires Combo(t, |pool|) && Covers(score, pool, t, was)
    requires was <= best && score(Pick(pool, t)) <= best
    ensures Follows(t, next, |pool|) ==> Covers(score, pool, next, best)
    ensures IsLast(t, |pool|) ==> CoversAll(score, pool, best)
  {
  }

  lemma UniqueBest(score: Scorer, pool: seq<Card>, at: seq<nat>, r: nat, q: nat)
    requires Reaches(score, pool, at, r) && CoversAll(score, pool, r) && IsBest(score, pool, q)
    ensures r == q
  {
  }

  /** Steps idx to the next combination in place; false when idx already was the last one. */
  method NextIndex(idx: array<nat>, n: nat) returns (more: bool)
    requires idx.Length == 5 && Combo(idx[..], n)
    modifies idx
    ensures more ==> Combo(idx[..], n) && LexBelow(old(idx[..]), idx[..])
    ensures more ==> Follows(old(idx[..]), idx[..], n)
    ensures !more ==> IsLast(old(idx[..]), n)
  {
    ghost var t := idx[..];
    var i := 4;
    while i >= 0 && idx[i] == i + n - 5
      invariant -1 <= i <= 4 && Maxed(t, i + 1, n)
      invariant idx[..] == t
    {
      i := i - 1;
    }
    if i < 0 {
      forall u | Combo(u, n) ensures u == t || LexBelow(u, t) {
        LastCombo(t, u, n);
      }
      return false;
    }
    idx[i] := idx[i] + 1;
    for j := i + 1 to 5
      invariant forall k | 0 <= k < i :: idx[k] == t[k]
      invariant idx[i] == t[i] + 1 && forall k | i < k < j :: idx[k] == idx[k - 1] + 1
    {
      idx[j] := idx[j - 1] + 1;
    }
    assert t[i] < i + n - 5;
    forall u | Combo(u, n) && LexBelow(u, idx[..]) ensures u == t || LexBelow(u, t) {
      NextCombo(t, idx[..], i, u, n);
    }
    NextCombo(t, idx[..], i, t, n);
    assert LexAt(t, idx[..], i);
    return true;
  }

  // ── The order of the pool is irrelevant, and more cards never hurt ────────

  /** Any cards found among a pool can be picked from it at increasing positions. */
  lemma {:induction false} PickAnywhere<T>(pool: seq<T>, want: multiset<T>) returns (t: seq<nat>)
    requires want <= multiset(pool)
    ensures Increasing(t, |pool|) && multiset(Pick(pool, t)) == want
  {
    if pool == [] {
      t := [];
    } else {
      var n := |pool| - 1;
      DropLast(pool);
      if pool[n] in want {
        var u := PickAnywhere(pool[..n], want - multiset{pool[n]});
        t := u + [n];
        PickStep(pool, u);
        assert want == want - multiset{pool[n]} + multiset{pool[n]};
      } else {
        t := PickAnywhere(pool[..n], want);
        assert Pick(pool, t) == Pick(pool[..n], t);
      }
    }
  }

  lemma PickStep<T>(pool: seq<T>, t: seq<nat>)
    requires pool != [] && Increasing(t, |pool| - 1)
    ensures Increasing(t + [|pool| - 1], |pool|)
    ensures Pick(pool, t + [|pool| - 1]) == Pick(pool[..|pool| - 1], t) + [pool[|pool| - 1]]
  {
  }

  lemma {:induction false} PickedFromPool<T>(pool: seq<T>, t: seq<nat>)
    requires Increasing(t, |pool|)
    ensures multiset(Pick(pool, t)) <= multiset(pool)
    decreases |pool|
  {
    if t != [] {
      var last := t[|t| - 1];
      var n := |pool| - 1;
      DropLast(pool);
      if last == n {
        var rest := t[..|t| - 1];
        PickedFromPool(pool[..n], rest);
        PickStep(pool, rest);
        LastBack(t);
      } else {
        PickedFromPool(pool[..n], t);
        assert Pick(pool, t) == Pick(pool[..n], t);
      }
    }
  }

  lemma SubmultisetSize<T>(a: multiset<T>, b: multiset<T>)
    requires a <= b
    ensures |a| <= |b|
  {
    assert b == a + (b - a);
  }

  lemma SamePickSameScore(five: seq<Card>, other: seq<Card>)
    requires |five| == 5 && multiset(five) == multiset(other)
    ensures |other| == 5 && Evaluator()(five) == Evaluator()(other)
  {
    AppraiseIgnoresOrder(five, other);
    assert Score(five) == Score(other);
  }

  /** Five cards of one pool can be picked from any pool that contains them. */
  lemma PickAgain(a: seq<Card>, t: seq<nat>, b: seq<Card>) returns (u: seq<nat>)
    requires Combo(t, |a|) && multiset(a) <= multiset(b)
    ensures Combo(u, |b|) && multiset(Pick(b, u)) == multiset(Pick(a, t))
  {
    ComboIsIncreasing(t, |a|);
    PickedFromPool(a, t);
    u := PickAnywhere(b, multiset(Pick(a, t)));
    SameSize(Pick(a, t), Pick(b, u));
    ComboIsIncreasing(u, |b|);
  }

  /** A pool that contains all cards of another, in any order, ranks at least as high. */
  lemma MoreCardsNeverHurt(a: seq<Card>, b: seq<Card>)
    requires |a| >= 5 && multiset(a) <= multiset(b)
    ensures |b| >= 5 && BestRank(a) <= BestRank(b)
  {
    SubmultisetSize(multiset(a), multiset(b));
    var t :| Reaches(Evaluator(), a, t, BestRank(a));
    assert Reaches(Evaluator(), a, t, BestRank(a));
    var u := PickAgain(a, t, b);
    SamePickSameScore(Pick(a, t), Pick(b, u));
    assert Reaches(Evaluator(), b, u, BestRank(a));
  }

  /** The rank of a pool does not depend on the order of its cards. */
  lemma PoolOrderIrrelevant(a: seq<Card>, b: seq<Card>)
    requires |a| >= 5 && multiset(a) == multiset(b)
    ensures |b| >= 5 && BestRank(a) == BestRank(b)
  {
    SameSize(a, b);
    MoreCardsNeverHurt(a, b);
    MoreCardsNeverHurt(b, a);
  }
}
