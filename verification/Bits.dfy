/** Machine words as numbers, bit by bit. */
module Bits {
  const WORD_BITS: nat := 64

  function Pow2(n: nat): (r: nat)
    ensures r > 0
  {
    if n == 0 then 1 else 2 * Pow2(n - 1)
  }

  /** `w` is less than 2^n. */
  predicate Narrow(w: nat, n: nat)
    decreases n, w
  {
    if n == 0 then w == 0 else Narrow(w / 2, n - 1)
  }

  lemma {:induction false} NarrowIs(w: nat, n: nat)
    ensures Narrow(w, n) <==> w < Pow2(n)
  {
    if n > 0 {
      NarrowIs(w / 2, n - 1);
    }
  }

  lemma {:induction false} NarrowZero(n: nat)
    ensures Narrow(0, n)
  {
    if n > 0 {
      NarrowZero(n - 1);
    }
  }

  predicate Bit(w: nat, k: nat) {
    if k == 0 then w % 2 == 1 else Bit(w / 2, k - 1)
  }

  /** `w >> k` */
  function Shr(w: nat, k: nat): nat {
    if k == 0 then w else Shr(w / 2, k - 1)
  }

  /** `w | 1 << k`, or with the bit cleared. */
  function Put(w: nat, k: nat, v: bool): nat {
    if k == 0 then w / 2 * 2 + (if v then 1 else 0) else Put(w / 2, k - 1, v) * 2 + w % 2
  }

  /** The number of trailing zeros. */
  function Ctz(w: nat): nat
    requires w > 0
  {
    if w % 2 == 1 then 0 else Ctz(w / 2) + 1
  }

  lemma {:induction false} BitOfPut(w: nat, k: nat, v: bool, j: nat)
    ensures Bit(Put(w, k, v), j) == (if j == k then v else Bit(w, j))
  {
    if k == 0 {
      assert Put(w, 0, v) / 2 == w / 2;
    } else {
      var half := Put(w / 2, k - 1, v);
      assert Put(w, k, v) == half * 2 + w % 2 && Put(w, k, v) / 2 == half;
      if j > 0 {
        BitOfPut(w / 2, k - 1, v, j - 1);
      }
    }
  }

  lemma {:induction false} PutFits(w: nat, k: nat, v: bool, n: nat)
    requires Narrow(w, n) && k < n
    ensures Narrow(Put(w, k, v), n)
  {
    if k == 0 {
      assert Put(w, 0, v) / 2 == w / 2;
    } else {
      PutFits(w / 2, k - 1, v, n - 1);
      assert Put(w, k, v) / 2 == Put(w / 2, k - 1, v);
    }
  }

  /** Setting a clear bit adds its weight, clearing a set one takes it away. */
  lemma {:induction false} PutIs(w: nat, k: nat, v: bool)
    ensures Put(w, k, v) == if Bit(w, k) == v then w else if v then w + Pow2(k) else w - Pow2(k)
  {
    if k > 0 {
      PutIs(w / 2, k - 1, v);
    }
  }

  lemma {:induction false} BitOfShr(w: nat, k: nat, j: nat)
    ensures Bit(Shr(w, k), j) == Bit(w, k + j)
  {
    if k > 0 {
      BitOfShr(w / 2, k - 1, j);
    }
  }

  lemma {:induction false} ShrFits(w: nat, k: nat, n: nat)
    requires Narrow(w, n) && k <= n
    ensures Narrow(Shr(w, k), n - k)
  {
    if k > 0 {
      ShrFits(w / 2, k - 1, n - 1);
    }
  }

  lemma {:induction false} NoBits(j: nat)
    ensures !Bit(0, j)
  {
    if j > 0 {
      NoBits(j - 1);
    }
  }

  /** The lowest set bit. */
  lemma {:induction false} CtzIsLowest(w: nat, n: nat)
    requires w > 0 && Narrow(w, n)
    ensures Ctz(w) < n && Bit(w, Ctz(w)) && forall j: nat | j < Ctz(w) :: !Bit(w, j)
  {
    if w % 2 == 0 {
      CtzIsLowest(w / 2, n - 1);
      forall j: nat | j < Ctz(w)
        ensures !Bit(w, j)
      {
        assert j > 0 ==> !Bit(w / 2, j - 1);
      }
    }
  }
}
