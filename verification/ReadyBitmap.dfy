/** The bitmap of kernel/src/los_sched.c: bit 31 - p is set when ready list p is not empty. */
module ReadyBitmap {
  import opened KernelState

  /** PRIQUEUE_PRIOR0_BIT >> priority */
  function Bit(p: nat): bv32
    requires p <= LOWEST
  {
    0x8000_0000 >> p
  }

  predicate Meets(x: bv32, y: bv32) {
    x & y != 0
  }

  function With(b: bv32, x: bv32): bv32 {
    b | x
  }

  function Without(b: bv32, x: bv32): bv32 {
    b & !x
  }

  predicate Has(b: bv32, p: nat)
    requires p <= LOWEST
  {
    Meets(b, Bit(p))
  }

  lemma BitsApart(p: nat, q: nat)
    requires p < q <= LOWEST
    ensures !Meets(Bit(p), Bit(q))
  {
  }

  lemma BitNotZero(p: nat)
    requires p <= LOWEST
    ensures Bit(p) != 0
  {
  }

  lemma Apart(p: nat, q: nat)
    requires p <= LOWEST && q <= LOWEST && p != q
    ensures !Meets(Bit(p), Bit(q))
  {
    if p < q {
      BitsApart(p, q);
    } else {
      BitsApart(q, p);
      hide Bit;
      Commutes(Bit(p), Bit(q));
    }
  }

  lemma Commutes(x: bv32, y: bv32)
    ensures Meets(x, y) == Meets(y, x)
  {
  }

  lemma OrApart(b: bv32, x: bv32, y: bv32)
    requires !Meets(x, y)
    ensures Meets(With(b, x), y) <==> Meets(b, y)
  {
    OrDistributes(b, x, y);
    OrNothing(b & y);
  }

  lemma OrDistributes(b: bv32, x: bv32, y: bv32)
    ensures (b | x) & y == (b & y) | (x & y)
  {
  }

  lemma OrNothing(b: bv32)
    ensures b | 0 == b
  {
  }

  lemma OrSame(b: bv32, x: bv32)
    requires x != 0
    ensures Meets(With(b, x), x)
  {
  }

  lemma ClearApart(b: bv32, x: bv32, y: bv32)
    requires !Meets(x, y)
    ensures Meets(Without(b, x), y) <==> Meets(b, y)
  {
    hide Meets, Without;
    MeetsIs(x, y);
    MeetsIs(b, y);
    MeetsIs(Without(b, x), y);
    AndWithout(b, x, y);
  }

  lemma MeetsIs(x: bv32, y: bv32)
    ensures Meets(x, y) <==> x & y != 0
  {
  }

  lemma AndWithout(b: bv32, x: bv32, y: bv32)
    requires x & y == 0
    ensures Without(b, x) & y == b & y
  {
  }

  lemma ClearSame(b: bv32, x: bv32)
    ensures !Meets(Without(b, x), x)
  {
  }

  lemma SetEffect(b: bv32, p: nat, q: nat)
    requires p <= LOWEST && q <= LOWEST
    ensures Has(With(b, Bit(p)), q) <==> q == p || Has(b, q)
  {
    hide Bit, Meets, With;
    if p == q {
      BitNotZero(p);
      OrSame(b, Bit(p));
    } else {
      Apart(p, q);
      OrApart(b, Bit(p), Bit(q));
    }
  }

  lemma ClearEffect(b: bv32, p: nat, q: nat)
    requires p <= LOWEST && q <= LOWEST
    ensures Has(Without(b, Bit(p)), q) <==> q != p && Has(b, q)
  {
    hide Bit, Meets, Without;
    if p == q {
      ClearSame(b, Bit(p));
    } else {
      Apart(p, q);
      ClearApart(b, Bit(p), Bit(q));
    }
  }

  /** CLZ: the position of the first bit that is set. */
  function LeadingZeros(b: bv32, from: nat): (p: nat)
    requires from <= LOWEST + 1
    ensures from <= p <= LOWEST + 1
    ensures p <= LOWEST ==> Has(b, p)
    ensures forall q :: from <= q < p ==> !Has(b, q)
    decreases LOWEST + 1 - from
  {
    if from == LOWEST + 1 || Has(b, from) then from else LeadingZeros(b, from + 1)
  }

  /** A word without any bit is 0, so the test of the whole word finds out whether any list is nonempty. */
  lemma NoBits(b: bv32)
    requires forall p :: 0 <= p <= LOWEST ==> !Has(b, p)
    ensures b == 0
  {
    NoBitsBelow(b, LOWEST + 1);
  }

  lemma {:induction false} NoBitsBelow(b: bv32, n: nat)
    requires n <= LOWEST + 1 && forall p :: 0 <= p < n ==> !Has(b, p)
    ensures b & !(0xFFFF_FFFF >> n) == 0
  {
    if n > 0 {
      NoBitsBelow(b, n - 1);
      assert !Has(b, n - 1);
      OneMoreBit(b, n - 1);
    }
  }

  lemma OneMoreBit(b: bv32, p: nat)
    requires p <= LOWEST && b & !(0xFFFF_FFFF >> p) == 0 && b & (0x8000_0000 >> p) == 0
    ensures b & !(0xFFFF_FFFF >> (p + 1)) == 0
  {
  }

  // ---- The bitmap of a set of lists ----

  ghost predicate Agrees(b: bv32, m: Lists) {
    forall p :: 0 <= p <= LOWEST ==> (Has(b, p) <==> At(m, ReadyList(p)) != [])
  }

  /** Leading zeros lead to the first nonempty ready list; the whole word is 0 exactly when there is none. */
  lemma FirstList(b: bv32, m: Lists)
    requires Agrees(b, m)
    ensures b == 0 <==> forall p :: 0 <= p <= LOWEST ==> At(m, ReadyList(p)) == []
    ensures b != 0 ==> var p := LeadingZeros(b, 0);
                       && p <= LOWEST && At(m, ReadyList(p)) != []
                       && forall q :: 0 <= q < p ==> At(m, ReadyList(q)) == []
  {
    if forall p :: 0 <= p <= LOWEST ==> !Has(b, p) {
      NoBits(b);
    } else {
      var p :| 0 <= p <= LOWEST && Has(b, p);
      Some(b, p);
    }
    if b != 0 {
      var p := LeadingZeros(b, 0);
      if p == LOWEST + 1 {
        NoBits(b);
        assert false;
      }
    }
  }

  lemma Some(b: bv32, p: nat)
    requires p <= LOWEST && Has(b, p)
    ensures b != 0
  {
  }
}
