/** The packed hand rank as the machine word it is: shifts and bitwise or. */
module RankBits {
  import opened Eval

  /** Six four-bit fields — category, then tiebreakers — shifted into place. */
  function NewHandRank(c: bv64, t0: bv64, t1: bv64, t2: bv64, t3: bv64, t4: bv64): bv64
  {
    (c << 60) | (t0 << 56) | (t1 << 52) | (t2 << 48) | (t3 << 44) | (t4 << 40)
  }

  /** Everything above bit 40: the six fields. */
  function Fielded(x: bv64): bv64
  {
    x >> 40
  }

  function Down(x: bv64): bv64
  {
    x >> 4
  }

  predicate Less(x: bv64, y: bv64)
  {
    x < y
  }

  function Low(x: bv64): bv64
  {
    x & 15
  }

  /** The word down to and including field k. */
  function Upper(x: bv64, k: nat): bv64
    requires k < 6
    decreases 6 - k
  {
    if k == 5 then Fielded(x) else Down(Upper(x, k + 1))
  }

  function Field(x: bv64, k: nat): bv64
    requires k < 6
  {
    Low(Upper(x, k))
  }

  lemma NibblesReadBack(c: bv64, t0: bv64, t1: bv64, t2: bv64, t3: bv64, t4: bv64)
    requires c < 16 && t0 < 16 && t1 < 16 && t2 < 16 && t3 < 16 && t4 < 16
    ensures var u := Fielded(NewHandRank(c, t0, t1, t2, t3, t4));
      && Low(u) == t4 && Low(Down(u)) == t3 && Low(Down(Down(u))) == t2 && Low(Down(Down(Down(u)))) == t1
      && Low(Down(Down(Down(Down(u))))) == t0 && Low(Down(Down(Down(Down(Down(u)))))) == c
  {
  }

  lemma UppersAreDown(x: bv64)
    ensures Upper(x, 5) == Fielded(x) && Upper(x, 4) == Down(Fielded(x)) && Upper(x, 3) == Down(Down(Fielded(x)))
    ensures Upper(x, 2) == Down(Down(Down(Fielded(x)))) && Upper(x, 1) == Down(Down(Down(Down(Fielded(x)))))
    ensures Upper(x, 0) == Down(Down(Down(Down(Down(Fielded(x))))))
  {
    hide Down, Fielded;
    assert Upper(x, 3) == Down(Upper(x, 4));
    assert Upper(x, 1) == Down(Upper(x, 2));
  }

  /** Every field can be read back. */
  lemma FieldsReadBack(c: bv64, t0: bv64, t1: bv64, t2: bv64, t3: bv64, t4: bv64)
    requires c < 16 && t0 < 16 && t1 < 16 && t2 < 16 && t3 < 16 && t4 < 16
    ensures var x := NewHandRank(c, t0, t1, t2, t3, t4);
      && Field(x, 0) == c && Field(x, 1) == t0 && Field(x, 2) == t1
      && Field(x, 3) == t2 && Field(x, 4) == t3 && Field(x, 5) == t4
  {
    hide NewHandRank, Upper, Down, Low, Fielded;
    NibblesReadBack(c, t0, t1, t2, t3, t4);
    UppersAreDown(NewHandRank(c, t0, t1, t2, t3, t4));
  }

  lemma LowNibble(u: bv64, v: bv64)
    ensures Down(u) == Down(v) && Low(u) == Low(v) ==> u == v
    ensures Down(u) == Down(v) && Less(Low(u), Low(v)) ==> Less(u, v)
  {
  }

  lemma DownOrders(u: bv64, v: bv64)
    ensures Less(Down(u), Down(v)) ==> Less(u, v)
  {
  }

  lemma FieldedOrders(u: bv64, v: bv64)
    ensures Less(Fielded(u), Fielded(v)) ==> Less(u, v)
  {
  }

  lemma {:induction false} UpperOrders(x: bv64, y: bv64, k: nat)
    requires k < 6 && Less(Upper(x, k), Upper(y, k))
    ensures Less(x, y)
    decreases 6 - k
  {
    hide Down, Fielded, Less;
    if k == 5 {
      FieldedOrders(x, y);
    } else {
      DownOrders(Upper(x, k + 1), Upper(y, k + 1));
      UpperOrders(x, y, k + 1);
    }
  }

  lemma TopNibble(x: bv64)
    ensures var u := Down(Down(Down(Down(Down(Fielded(x)))))); Low(u) == u
  {
  }

  lemma TopIsOneField(x: bv64)
    ensures Field(x, 0) == Upper(x, 0)
  {
    hide Upper, Down, Low, Fielded;
    UppersAreDown(x);
    TopNibble(x);
  }

  /** Equal above field k and equal in it: equal down to it. */
  lemma UpperGrows(x: bv64, y: bv64, k: nat)
    requires k < 6 && (k > 0 ==> Upper(x, k - 1) == Upper(y, k - 1)) && Field(x, k) == Field(y, k)
    ensures Upper(x, k) == Upper(y, k)
  {
    hide Down, Low, Fielded;
    if k == 0 {
      TopIsOneField(x);
      TopIsOneField(y);
    } else {
      LowNibble(Upper(x, k), Upper(y, k));
    }
  }

  /** Equal above field k and less in it: less. */
  lemma FieldDecides(x: bv64, y: bv64, k: nat)
    requires k < 6 && (k > 0 ==> Upper(x, k - 1) == Upper(y, k - 1)) && Less(Field(x, k), Field(y, k))
    ensures Less(x, y)
  {
    hide Down, Low, Fielded, Less;
    if k == 0 {
      TopIsOneField(x);
      TopIsOneField(y);
    } else {
      LowNibble(Upper(x, k), Upper(y, k));
    }
    UpperOrders(x, y, k);
  }

  lemma {:induction false} SameUpper(x: bv64, y: bv64, k: nat)
    requires k < 6 && forall i | 0 <= i <= k :: Field(x, i) == Field(y, i)
    ensures Upper(x, k) == Upper(y, k)
  {
    hide Field, Upper;
    if k > 0 {
      SameUpper(x, y, k - 1);
    }
    assert Field(x, k) == Field(y, k);
    UpperGrows(x, y, k);
  }

  /** Words compare by the first field in which they differ. */
  lemma FirstFieldDecides(x: bv64, y: bv64, k: nat)
    requires k < 6 && Less(Field(x, k), Field(y, k)) && forall i | 0 <= i < k :: Field(x, i) == Field(y, i)
    ensures Less(x, y)
  {
    hide Field, Upper, Less;
    if k > 0 {
      SameUpper(x, y, k - 1);
    }
    FieldDecides(x, y, k);
  }

  // ── The word of a rank ────────────────────────────────────────────────────

  /** A rank or category as a four-bit field. */
  function Nib(n: nat): bv64
    requires n < 16
  {
    match n
    case 0 => 0
    case 1 => 1
    case 2 => 2
    case 3 => 3
    case 4 => 4
    case 5 => 5
    case 6 => 6
    case 7 => 7
    case 8 => 8
    case 9 => 9
    case 10 => 10
    case 11 => 11
    case 12 => 12
    case 13 => 13
    case 14 => 14
    case _ => 15
  }

  lemma NibsOrder(m: nat, n: nat)
    requires m < 16 && n < 16
    ensures Nib(m) < 16
    ensures Less(Nib(m), Nib(n)) <==> m < n
    ensures Nib(m) == Nib(n) <==> m == n
  {
  }

  lemma FieldsFit(w: Worth)
    requires |w.tiebreak| == 5
    ensures |Fields(w)| == 6 && forall i | 0 <= i < 6 :: Fields(w)[i] < 16
  {
  }

  /** The packed word of a rank. */
  function Word(w: Worth): bv64
    requires |w.tiebreak| == 5
  {
    FieldsFit(w);
    var f := Fields(w);
    NewHandRank(Nib(f[0]), Nib(f[1]), Nib(f[2]), Nib(f[3]), Nib(f[4]), Nib(f[5]))
  }

  lemma WordFields(w: Worth, k: nat)
    requires |w.tiebreak| == 5 && k < 6
    ensures Fields(w)[k] < 16 && Field(Word(w), k) == Nib(Fields(w)[k])
  {
    hide NewHandRank, Field, Nib, Fields;
    FieldsFit(w);
    var f := Fields(w);
    forall i | 0 <= i < 6 ensures Nib(f[i]) < 16 {
      NibsOrder(f[i], f[i]);
    }
    FieldsReadBack(Nib(f[0]), Nib(f[1]), Nib(f[2]), Nib(f[3]), Nib(f[4]), Nib(f[5]));
  }

  /** The fields of x and y compare like those of v and w. */
  predicate CompareAlike(x: bv64, y: bv64, v: Worth, w: Worth)
  {
    && |v.tiebreak| == 5 && |w.tiebreak| == 5
    && forall i | 0 <= i < 6 ::
      && (Less(Field(x, i), Field(y, i)) <==> Fields(v)[i] < Fields(w)[i])
      && (Less(Field(y, i), Field(x, i)) <==> Fields(w)[i] < Fields(v)[i])
      && (Field(x, i) == Field(y, i) <==> Fields(v)[i] == Fields(w)[i])
  }

  lemma WordsCompareAlike(v: Worth, w: Worth)
    requires |v.tiebreak| == 5 && |w.tiebreak| == 5
    ensures CompareAlike(Word(v), Word(w), v, w)
  {
    hide Word, Field, Nib, Less, Fields;
    FieldsFit(v);
    FieldsFit(w);
    forall i | 0 <= i < 6
      ensures Less(Field(Word(v), i), Field(Word(w), i)) <==> Fields(v)[i] < Fields(w)[i]
      ensures Less(Field(Word(w), i), Field(Word(v), i)) <==> Fields(w)[i] < Fields(v)[i]
      ensures Field(Word(v), i) == Field(Word(w), i) <==> Fields(v)[i] == Fields(w)[i]
    {
      WordFields(v, i);
      WordFields(w, i);
      NibsOrder(Fields(v)[i], Fields(w)[i]);
      NibsOrder(Fields(w)[i], Fields(v)[i]);
    }
  }

  lemma FieldsDecide(x: bv64, y: bv64, v: Worth, w: Worth)
    requires CompareAlike(x, y, v, w)
    ensures Pack(v) < Pack(w) ==> Less(x, y)
    ensures Pack(w) < Pack(v) ==> Less(y, x)
  {
    hide Field, Pack, Less;
    PackedOrderIsLexicographic(v, w);
    PackedOrderIsLexicographic(w, v);
    if Pack(v) < Pack(w) {
      var k: nat :| k < 6 && LexAt(Fields(v), Fields(w), k);
      FirstFieldDecides(x, y, k);
    }
    if Pack(w) < Pack(v) {
      var k: nat :| k < 6 && LexAt(Fields(w), Fields(v), k);
      FirstFieldDecides(y, x, k);
    }
  }

  lemma LessIsStrict(x: bv64, y: bv64)
    ensures Less(x, y) ==> !Less(y, x) && x != y
  {
  }

  /** One unsigned comparison of the shifted words is one comparison of the ranks as numbers, and with
      it category first, then each tiebreaker in turn. */
  lemma WordsCompareLikeRanks(v: Worth, w: Worth)
    requires |v.tiebreak| == 5 && |w.tiebreak| == 5
    ensures Less(Word(v), Word(w)) <==> Pack(v) < Pack(w)
    ensures Word(v) == Word(w) <==> Pack(v) == Pack(w)
    ensures Less(Word(v), Word(w)) <==> LexBelow(Fields(v), Fields(w))
  {
    hide Word, Less, Pack, CompareAlike, LexBelow, Fields;
    WordsCompareAlike(v, w);
    FieldsDecide(Word(v), Word(w), v, w);
    PackedOrderIsLexicographic(v, w);
    LessIsStrict(Word(v), Word(w));
    LessIsStrict(Word(w), Word(v));
  }
}
