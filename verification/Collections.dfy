/** Sums over sequences and maps, filtered sequences, and the fact that sorting has one outcome.
    Every other module counts chips, filters seating orders or sorts with the help of these. */
module Collections {

  datatype Option<+T> = None | Some(value: T)

  // ── Sums ──────────────────────────────────────────────────────────────────

  /** The sum of all values of a finite map, whatever order its keys are visited in. */
  ghost function Total<K>(m: map<K, int>): int
  {
    if m == map[] then 0 else
      var k :| k in m;
      m[k] + Total(m - {k})
  }

  lemma {:induction false} TotalPick<K>(m: map<K, int>, k: K)
    requires k in m
    ensures Total(m) == m[k] + Total(m - {k})
    decreases |m|
  {
    var first :| first in m && Total(m) == m[first] + Total(m - {first});
    if first != k {
      TotalPick(m - {first}, k);
      TotalPick(m - {k}, first);
      assert m - {first} - {k} == m - {k} - {first};
    }
  }

  lemma TotalUpdate<K>(m: map<K, int>, k: K, v: int)
    ensures Total(m[k := v]) == Total(m) - (if k in m then m[k] else 0) + v
  {
    TotalPick(m[k := v], k);
    assert m[k := v] - {k} == m - {k};
    if k in m {
      TotalPick(m, k);
    } else {
      assert m - {k} == m;
    }
  }

  lemma TotalRemove<K>(m: map<K, int>, k: K)
    ensures Total(m - {k}) == Total(m) - (if k in m then m[k] else 0)
  {
    if k in m {
      TotalPick(m, k);
    } else {
      assert m - {k} == m;
    }
  }

  lemma {:induction false} TotalAtLeast<K>(m: map<K, int>, k: K)
    requires forall x | x in m :: m[x] >= 0
    ensures Total(m) >= 0
    ensures k in m ==> Total(m) >= m[k]
    decreases |m|
  {
    if k in m {
      TotalPick(m, k);
      TotalAtLeast(m - {k}, k);
    } else if m != map[] {
      var x :| x in m;
      TotalPick(m, x);
      TotalAtLeast(m - {x}, k);
    }
  }

  lemma {:induction false} TotalOfZeros<K>(m: map<K, int>)
    requires forall x | x in m :: m[x] == 0
    ensures Total(m) == 0
    decreases |m|
  {
    if m != map[] {
      var x :| x in m;
      TotalPick(m, x);
      TotalOfZeros(m - {x});
    }
  }

  lemma {:induction false} TotalAdd<K>(a: map<K, int>, b: map<K, int>, c: map<K, int>)
    requires a.Keys == b.Keys == c.Keys
    requires forall x | x in a :: c[x] == a[x] + b[x]
    ensures Total(c) == Total(a) + Total(b)
    decreases |a|
  {
    if a != map[] {
      var x :| x in a;
      assert x in b && x in c;
      TotalPick(a, x);
      TotalPick(b, x);
      TotalPick(c, x);
      TotalAdd(a - {x}, b - {x}, c - {x});
    } else {
      assert b == map[] && c == map[];
    }
  }

  // ── Filtered sequences ────────────────────────────────────────────────────

  function Elems<T>(s: seq<T>): set<T>
  {
    set x | x in s
  }

  predicate Distinct<T(==)>(s: seq<T>)
  {
    forall i, j | 0 <= i < j < |s| :: s[i] != s[j]
  }

  /** The members of s that belong to keep, in the order of s. */
  function Select<T(==)>(s: seq<T>, keep: set<T>): seq<T>
  {
    if s == [] then [] else
      Select(s[..|s| - 1], keep) + (if s[|s| - 1] in keep then [s[|s| - 1]] else [])
  }

  lemma {:induction false} SelectElems<T>(s: seq<T>, keep: set<T>)
    ensures forall x :: x in Select(s, keep) <==> x in s && x in keep
    ensures |Select(s, keep)| <= |s|
  {
    if s != [] {
      SelectElems(s[..|s| - 1], keep);
      assert s == s[..|s| - 1] + [s[|s| - 1]];
    }
  }

  lemma {:induction false} SelectDistinct<T>(s: seq<T>, keep: set<T>)
    requires Distinct(s)
    ensures Distinct(Select(s, keep))
  {
    if s != [] {
      SelectDistinct(s[..|s| - 1], keep);
      SelectElems(s[..|s| - 1], keep);
      assert s[|s| - 1] !in s[..|s| - 1];
    }
  }

  lemma {:induction false} SelectTwice<T>(s: seq<T>, a: set<T>, b: set<T>)
    ensures Select(Select(s, a), b) == Select(s, a * b)
  {
    if s != [] {
      SelectTwice(s[..|s| - 1], a, b);
      var kept, last := Select(s[..|s| - 1], a), s[|s| - 1];
      if last in a {
        assert Select(s, a) == kept + [last];
        assert (kept + [last])[..|kept + [last]| - 1] == kept;
      } else {
        assert Select(s, a) == kept;
      }
    }
  }

  /** Only the members of s matter to a selection from s. */
  lemma {:induction false} SelectSame<T>(s: seq<T>, a: set<T>, b: set<T>)
    requires forall x | x in s :: x in a <==> x in b
    ensures Select(s, a) == Select(s, b)
  {
    if s != [] {
      SelectSame(s[..|s| - 1], a, b);
    }
  }

  lemma {:induction false} SelectAll<T>(s: seq<T>, keep: set<T>)
    requires Elems(s) <= keep
    ensures Select(s, keep) == s
  {
    if s != [] {
      assert forall x | x in s :: x in Elems(s);
      assert Elems(s[..|s| - 1]) <= keep;
      SelectAll(s[..|s| - 1], keep);
    }
  }

  lemma SomeElem<T>(s: seq<T>)
    requires s != []
    ensures exists x :: x in s
  {
    assert s[0] in s;
  }

  /** r sits at the increasing positions at of s. */
  predicate SitsAt<T(==)>(s: seq<T>, at: seq<nat>, r: seq<T>)
  {
    && |at| == |r|
    && (forall i | 0 <= i < |at| :: at[i] < |s| && s[at[i]] == r[i])
    && (forall i, j | 0 <= i < j < |at| :: at[i] < at[j])
  }

  lemma SitsInLonger<T>(s: seq<T>, at: seq<nat>, r: seq<T>)
    requires s != [] && SitsAt(s[..|s| - 1], at, r)
    ensures SitsAt(s, at, r) && SitsAt(s, at + [|s| - 1], r + [s[|s| - 1]])
  {
    assert forall i | 0 <= i < |at| :: s[..|s| - 1][at[i]] == s[at[i]];
  }

  /** A selection is a subsequence. */
  lemma {:induction false} SelectIsSubsequence<T>(s: seq<T>, keep: set<T>) returns (at: seq<nat>)
    ensures SitsAt(s, at, Select(s, keep))
  {
    hide SitsAt;
    if s == [] {
      at := [];
      NothingSits(s);
    } else {
      var front, last := s[..|s| - 1], s[|s| - 1];
      var before := SelectIsSubsequence(front, keep);
      SitsInLonger(s, before, Select(front, keep));
      at := if last in keep then before + [|s| - 1] else before;
      assert Select(s, keep) == if last in keep then Select(front, keep) + [last] else Select(front, keep);
    }
  }

  lemma NothingSits<T>(s: seq<T>)
    ensures SitsAt(s, [], [])
  {
  }

  lemma {:induction false} DistinctLength<T>(s: seq<T>)
    requires Distinct(s)
    ensures |Elems(s)| == |s|
  {
    if s != [] {
      var rest := s[..|s| - 1];
      DistinctLength(rest);
      assert Elems(s) == Elems(rest) + {s[|s| - 1]};
      assert s[|s| - 1] !in Elems(rest);
    }
  }

  lemma SubsetSize<T>(a: set<T>, b: set<T>)
    requires a <= b
    ensures |a| <= |b|
  {
    assert b == a + (b - a);
  }

  /** A non-empty finite set of numbers has a greatest member. */
  lemma {:induction false} Greatest(s: set<nat>) returns (m: nat)
    requires s != {}
    ensures m in s && forall x | x in s :: x <= m
  {
    var x :| x in s;
    if s == {x} {
      m := x;
    } else {
      var rest := Greatest(s - {x});
      m := if rest < x then x else rest;
      assert forall y | y in s && y != x :: y in s - {x};
    }
  }

  // ── Sorting ───────────────────────────────────────────────────────────────

  predicate Ascending(s: seq<int>)
  {
    forall i, j | 0 <= i < j < |s| :: s[i] <= s[j]
  }

  /** Sorting has one outcome: ascending sequences with the same elements are equal. */
  lemma {:induction false} AscendingUnique(a: seq<int>, b: seq<int>)
    requires Ascending(a) && Ascending(b) && multiset(a) == multiset(b)
    ensures a == b
  {
    SameSize(a, b);
    if a != [] {
      hide Ascending;
      var n := |a| - 1;
      DropLast(a);
      DropLast(b);
      LastIsGreatest(a, b[n]);
      LastIsGreatest(b, a[n]);
      AscendingPrefix(a);
      AscendingPrefix(b);
      AscendingUnique(a[..n], b[..n]);
      LastBack(a);
      LastBack(b);
    }
  }

  lemma SameSize<T>(a: seq<T>, b: seq<T>)
    requires multiset(a) == multiset(b)
    ensures |a| == |b|
  {
    assert |multiset(a)| == |multiset(b)|;
  }

  lemma LastBack<T>(s: seq<T>)
    requires s != []
    ensures s == s[..|s| - 1] + [s[|s| - 1]]
  {
  }

  lemma AscendingPrefix(s: seq<int>)
    requires s != [] && Ascending(s)
    ensures Ascending(s[..|s| - 1])
  {
  }

  lemma LastIsGreatest(s: seq<int>, x: int)
    requires s != [] && Ascending(s)
    ensures x in multiset(s) ==> x <= s[|s| - 1]
  {
  }

  lemma DropLast<T>(s: seq<T>)
    requires s != []
    ensures multiset(s[..|s| - 1]) == multiset(s) - multiset{s[|s| - 1]}
    ensures s[|s| - 1] in multiset(s)
  {
    assert s == s[..|s| - 1] + [s[|s| - 1]];
  }

  function Keys<T, U>(s: seq<T>, key: T -> U): (k: seq<U>)
    ensures |k| == |s|
    ensures forall i | 0 <= i < |s| :: k[i] == key(s[i])
  {
    seq(|s|, i requires 0 <= i < |s| => key(s[i]))
  }

  /** Where sorting by insertion puts x: behind everything whose key is not larger. */
  function InsertBy<T>(s: seq<T>, x: T, key: T -> int): seq<T>
  {
    if s == [] || key(s[|s| - 1]) <= key(x) then s + [x]
    else InsertBy(s[..|s| - 1], x, key) + [s[|s| - 1]]
  }

  lemma {:induction false} InsertByKeepsOrder<T>(s: seq<T>, x: T, key: T -> int)
    requires Ascending(Keys(s, key))
    ensures Ascending(Keys(InsertBy(s, x, key), key))
    ensures multiset(InsertBy(s, x, key)) == multiset(s) + multiset{x}
  {
    if s == [] || key(s[|s| - 1]) <= key(x) {
      KeysOfAppend(s, x, key);
      AscendingAppend(Keys(s, key), key(x));
    } else {
      var rest, last := s[..|s| - 1], s[|s| - 1];
      LastBack(s);
      KeysOfAppend(rest, last, key);
      assert Keys(rest, key) == Keys(s, key)[..|rest|];
      InsertByKeepsOrder(rest, x, key);
      var placed := InsertBy(rest, x, key);
      forall i | 0 <= i < |placed| ensures Keys(placed, key)[i] <= key(last) {
        BoundedByLast(s, x, placed, i, key);
      }
      KeysOfAppend(placed, last, key);
      AscendingAppend(Keys(placed, key), key(last));
    }
  }

  lemma BoundedByLast<T>(s: seq<T>, x: T, placed: seq<T>, i: nat, key: T -> int)
    requires s != [] && Ascending(Keys(s, key)) && key(s[|s| - 1]) > key(x)
    requires multiset(placed) == multiset(s[..|s| - 1]) + multiset{x}
    requires i < |placed|
    ensures key(placed[i]) <= key(s[|s| - 1])
  {
    assert placed[i] in multiset(placed);
    if placed[i] != x {
      assert placed[i] in multiset(s[..|s| - 1]);
      var k :| 0 <= k < |s| - 1 && s[k] == placed[i];
      assert Keys(s, key)[k] <= Keys(s, key)[|s| - 1];
    }
  }

  lemma KeysOfAppend<T, U>(s: seq<T>, x: T, key: T -> U)
    ensures Keys(s + [x], key) == Keys(s, key) + [key(x)]
    ensures multiset(s + [x]) == multiset(s) + multiset{x}
  {
  }

  lemma KeysOfConcat<T, U>(a: seq<T>, b: seq<T>, key: T -> U)
    ensures Keys(a + b, key) == Keys(a, key) + Keys(b, key)
  {
  }

  lemma AscendingConcat(a: seq<int>, b: seq<int>)
    requires Ascending(a) && Ascending(b)
    requires forall i, j | 0 <= i < |a| && 0 <= j < |b| :: a[i] <= b[j]
    ensures Ascending(a + b)
  {
  }

  lemma AscendingAppend(s: seq<int>, x: int)
    requires Ascending(s)
    requires s == [] || s[|s| - 1] <= x || forall i | 0 <= i < |s| :: s[i] <= x
    ensures Ascending(s + [x])
  {
    forall i | 0 <= i < |s| ensures s[i] <= x {
      if s[|s| - 1] <= x && i < |s| - 1 {
        assert s[i] <= s[|s| - 1];
      }
    }
  }

  /** The multiset of keys follows the multiset of elements. */
  lemma {:induction false} SameElemsSameKeys<T, U>(a: seq<T>, b: seq<T>, key: T -> U)
    requires multiset(a) == multiset(b)
    ensures multiset(Keys(a, key)) == multiset(Keys(b, key))
    decreases |a|
  {
    SameSize(a, b);
    if a != [] {
      var n := |a| - 1;
      DropLast(a);
      assert a[n] in multiset(b);
      var j :| 0 <= j < |b| && b[j] == a[n];
      CutOut(b, j, key);
      SameElemsSameKeys(a[..n], b[..j] + b[j + 1..], key);
      LastBack(a);
      KeysOfAppend(a[..n], a[n], key);
    }
  }

  lemma CutOut<T, U>(s: seq<T>, j: nat, key: T -> U)
    requires j < |s|
    ensures multiset(s[..j] + s[j + 1..]) == multiset(s) - multiset{s[j]}
    ensures multiset(Keys(s[..j] + s[j + 1..], key)) == multiset(Keys(s, key)) - multiset{key(s[j])}
  {
    CutMultiset(s, j);
    CutMultiset(Keys(s, key), j);
    assert Keys(s[..j] + s[j + 1..], key) == Keys(s, key)[..j] + Keys(s, key)[j + 1..];
  }

  lemma CutMultiset<T>(s: seq<T>, j: nat)
    requires j < |s|
    ensures multiset(s[..j] + s[j + 1..]) == multiset(s) - multiset{s[j]}
  {
    assert s == s[..j] + ([s[j]] + s[j + 1..]);
  }

  lemma ArrangementUnique<T>(a: seq<T>, b: seq<T>, key: T -> int)
    requires multiset(a) == multiset(b)
    requires Ascending(Keys(a, key)) && Ascending(Keys(b, key))
    ensures Keys(a, key) == Keys(b, key)
    ensures (forall x, y | x in a && y in b && key(x) == key(y) :: x == y) ==> a == b
  {
    SameElemsSameKeys(a, b, key);
    AscendingUnique(Keys(a, key), Keys(b, key));
    assert forall i | 0 <= i < |a| :: Keys(a, key)[i] == key(a[i]) && Keys(b, key)[i] == key(b[i]);
  }

  /** s arranged by ascending key, ties in their original order. */
  function SortedBy<T>(s: seq<T>, key: T -> int): (r: seq<T>)
    ensures multiset(r) == multiset(s)
    ensures Ascending(Keys(r, key))
  {
    if s == [] then [] else
      DropLast(s);
      InsertByKeepsOrder(SortedBy(s[..|s| - 1], key), s[|s| - 1], key);
      InsertBy(SortedBy(s[..|s| - 1], key), s[|s| - 1], key)
  }

  /** The library sort: some ascending arrangement of s; ties may end up in any order. */
  method SortBy<T>(s: seq<T>, key: T -> int) returns (r: seq<T>)
    ensures multiset(r) == multiset(s)
    ensures Ascending(Keys(r, key))
  {
    r := [];
    for i := 0 to |s|
      invariant multiset(r) == multiset(s[..i])
      invariant Ascending(Keys(r, key))
    {
      InsertByKeepsOrder(r, s[i], key);
      r := InsertBy(r, s[i], key);
      assert s[..i + 1] == s[..i] + [s[i]];
    }
    assert s[..|s|] == s;
  }
}
