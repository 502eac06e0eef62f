/**
 Power-of-two blocks of a line of bytes: the `q`th block of order `k` starts at `q` times two to
 the `k`. Written without multiplication, so that one level is one doubling or halving.
 */
module Dyadic {
  /** `1 << k`. */
  function Size(k: nat): (s: nat)
    ensures s > 0
  {
    if k == 0 then 1 else 2 * Size(k - 1)
  }

  /** Where the `q`th block of order `k` starts. */
  function Start(k: nat, q: nat): nat
    decreases k, q
  {
    if k == 0 then q else Start(k - 1, 2 * q)
  }

  /** Which block of order `k` a byte is in. */
  function Up(x: nat, k: nat): nat {
    if k == 0 then x else Up(x, k - 1) / 2
  }

  /** The other half of a block's parent. */
  function Buddy(q: nat): nat {
    if q % 2 == 0 then q + 1 else q - 1
  }

  /** Bitwise exclusive or. */
  function Xor(a: nat, b: nat): nat {
    if a == 0 then b
    else if b == 0 then a
    else 2 * Xor(a / 2, b / 2) + (a + b) % 2
  }

  lemma {:induction false} StartNext(k: nat, q: nat)
    ensures Start(k, q + 1) == Start(k, q) + Size(k)
    decreases k
  {
    if k > 0 {
      StartNext(k - 1, 2 * q);
      StartNext(k - 1, 2 * q + 1);
      assert 2 * (q + 1) == 2 * q + 1 + 1;
    }
  }

  lemma {:induction false} StartMono(k: nat, q: nat, r: nat)
    requires q <= r
    ensures Start(k, q) <= Start(k, r)
    decreases k
  {
    if k > 0 {
      StartMono(k - 1, 2 * q, 2 * r);
    }
  }

  lemma {:induction false} StartZero(k: nat)
    ensures Start(k, 0) == 0 && Start(k, 1) == Size(k)
    decreases k
  {
    if k > 0 {
      StartZero(k - 1);
    }
    StartNext(k, 0);
  }

  /** A byte lies in the block `Up` names. */
  lemma {:induction false} UpBounds(x: nat, k: nat)
    ensures Start(k, Up(x, k)) <= x < Start(k, Up(x, k) + 1)
    decreases k
  {
    if k > 0 {
      var below := Up(x, k - 1);
      UpBounds(x, k - 1);
      StartMono(k - 1, 2 * (below / 2), below);
      StartMono(k - 1, below + 1, 2 * (below / 2 + 1));
    }
  }

  /** And in no other. */
  lemma UpUnique(x: nat, k: nat, q: nat)
    requires Start(k, q) <= x < Start(k, q + 1)
    ensures Up(x, k) == q
  {
    UpBounds(x, k);
    if Up(x, k) < q {
      StartMono(k, Up(x, k) + 1, q);
    } else if Up(x, k) > q {
      StartMono(k, q + 1, Up(x, k));
    }
  }

  lemma UpStart(k: nat, q: nat)
    ensures Up(Start(k, q), k) == q
  {
    StartNext(k, q);
    UpUnique(Start(k, q), k, q);
  }

  /** A block is two halves. */
  lemma Halves(k: nat, q: nat)
    ensures Start(k + 1, q) == Start(k, 2 * q) && Start(k + 1, q + 1) == Start(k, 2 * q + 2)
    ensures Start(k, 2 * q + 1) == Start(k + 1, q) + Size(k)
  {
    StartNext(k, 2 * q);
    assert 2 * (q + 1) == 2 * q + 2;
  }

  /** Blocks nest: each level of `Up` is a halving. */
  lemma {:induction false} UpUp(x: nat, j: nat, k: nat)
    requires j <= k
    ensures Up(x, k) == Up(Up(x, j), k - j)
    decreases k
  {
    if j < k {
      UpUp(x, j, k - 1);
    }
  }

  /** Bytes of one small block are in one large block. */
  lemma UpSame(x: nat, y: nat, j: nat, k: nat)
    requires j <= k && Up(x, j) == Up(y, j)
    ensures Up(x, k) == Up(y, k)
  {
    UpUp(x, j, k);
    UpUp(y, j, k);
  }

  /** Everything in a small block lies within the large block its first byte is in. */
  lemma Within(x: nat, j: nat, k: nat)
    requires j <= k
    ensures Start(k, Up(x, k)) <= Start(j, Up(x, j)) && Start(j, Up(x, j) + 1) <= Start(k, Up(x, k) + 1)
  {
    UpBounds(x, j);
    StartNext(j, Up(x, j));
    var first, last := Start(j, Up(x, j)), Start(j, Up(x, j) + 1) - 1;
    UpUnique(first, j, Up(x, j));
    UpUnique(last, j, Up(x, j));
    UpSame(first, x, j, k);
    UpSame(last, x, j, k);
    UpBounds(first, k);
    UpBounds(last, k);
  }

  lemma {:induction false} SizeMono(j: nat, k: nat)
    requires j <= k
    ensures Size(j) <= Size(k)
    ensures j < k ==> 2 * Size(j) <= Size(k)
  {
    if j < k {
      SizeMono(j, k - 1);
    }
  }

  /** A byte that a large block starts at, its small blocks start at too. */
  lemma {:induction false} StartDown(k: nat, q: nat, j: nat)
    requires j <= k
    ensures Start(j, Up(Start(k, q), j)) == Start(k, q)
    decreases k
  {
    if j == k {
      UpStart(k, q);
    } else {
      StartDown(k - 1, 2 * q, j);
    }
  }

  lemma {:induction false} DoubleXor(a: nat, b: nat)
    ensures Xor(2 * a, 2 * b) == 2 * Xor(a, b)
  {
  }

  /** The buddy's offset is the block's with one bit flipped. */
  lemma {:induction false} XorIsBuddy(k: nat, q: nat)
    ensures Xor(Start(k, q), Size(k)) == Start(k, Buddy(q))
    decreases k
  {
    if k == 0 {
      XorOne(q);
    } else {
      StartDoubles(k - 1, q);
      StartDoubles(k - 1, Buddy(q));
      DoubleXor(Start(k - 1, q), Size(k - 1));
      XorIsBuddy(k - 1, q);
    }
  }

  lemma XorOne(q: nat)
    ensures Xor(q, 1) == Buddy(q)
  {
    if q > 0 {
      assert Xor(q / 2, 0) == q / 2;
    }
  }

  lemma {:induction false} StartDoubles(k: nat, q: nat)
    ensures Start(k + 1, q) == 2 * Start(k, q)
    decreases k
  {
    if k > 0 {
      StartDoubles(k - 1, 2 * q);
    }
  }

  /** `off` is where a block of order `k` may start. */
  predicate Aligned(off: nat, k: nat) {
    off == Start(k, Up(off, k))
  }

  lemma AlignedHalves(off: nat, k: nat)
    requires Aligned(off, k + 1)
    ensures Aligned(off, k) && Aligned(off + Size(k), k) && Size(k + 1) == 2 * Size(k)
    ensures Up(off, k) == 2 * Up(off, k + 1) && Up(off + Size(k), k) == 2 * Up(off, k + 1) + 1
  {
    var q := Up(off, k + 1);
    Halves(k, q);
    UpStart(k, 2 * q);
    UpStart(k, 2 * q + 1);
  }

  /** A byte is in the first or in the second half of the next larger block around it. */
  lemma HalfOf(x: nat, k: nat)
    ensures Start(k, Up(x, k)) == Start(k + 1, Up(x, k + 1)) || Start(k, Up(x, k)) == Start(k + 1, Up(x, k + 1)) + Size(k)
  {
    Halves(k, Up(x, k + 1));
    assert Up(x, k) == 2 * Up(x, k + 1) || Up(x, k) == 2 * Up(x, k + 1) + 1;
  }

  /** Two buddies make their parent. */
  lemma AlignedPair(off: nat, k: nat)
    requires Aligned(off, k) && Up(off, k) % 2 == 0
    ensures Aligned(off, k + 1) && Aligned(off + Size(k), k) && Size(k + 1) == 2 * Size(k)
    ensures Up(off, k) == 2 * Up(off, k + 1) && Up(off + Size(k), k) == Up(off, k) + 1
  {
    Halves(k, Up(off, k + 1));
    AlignedHalves(off, k);
  }

  /** The buddy of a block that starts at `off`. */
  function BuddyOf(off: nat, k: nat): nat {
    Start(k, Buddy(Up(off, k)))
  }

  lemma BuddyIs(off: nat, k: nat)
    requires Aligned(off, k)
    ensures Aligned(BuddyOf(off, k), k) && Up(BuddyOf(off, k), k) == Buddy(Up(off, k))
    ensures if Up(off, k) % 2 == 0 then BuddyOf(off, k) == off + Size(k) else BuddyOf(off, k) + Size(k) == off
    ensures Up(BuddyOf(off, k), k + 1) == Up(off, k + 1)
  {
    var q := Up(off, k);
    UpStart(k, Buddy(q));
    if q % 2 == 0 {
      StartNext(k, q);
    } else {
      StartNext(k, q - 1);
    }
  }

  /** In a pair each is the other's buddy. */
  lemma PairBuddies(off: nat, k: nat)
    requires Aligned(off, k) && Up(off, k) % 2 == 0
    ensures BuddyOf(off, k) == off + Size(k) && BuddyOf(off + Size(k), k) == off
  {
    AlignedPair(off, k);
    BuddyIs(off, k);
    BuddyIs(off + Size(k), k);
  }

  lemma {:induction false} StartMul(k: nat, q: nat)
    ensures Start(k, q) == Size(k) * q
    decreases k
  {
    if k > 0 {
      StartMul(k - 1, 2 * q);
      assert Size(k - 1) * (2 * q) == (2 * Size(k - 1)) * q;
    }
  }

  /** `off % (1 << k)`: what is lost by shifting right and back. */
  function Rem(off: nat, k: nat): nat {
    UpBounds(off, k);
    off - Start(k, Up(off, k))
  }

  /** The end of a block is where the next of its order, or of any smaller, may start. */
  lemma AlignedEnd(off: nat, k: nat, j: nat)
    requires Aligned(off, k) && j <= k
    ensures Aligned(off + Size(k), j)
  {
    StartNext(k, Up(off, k));
    StartDown(k, Up(off, k) + 1, j);
  }

  /** How `kfree` finds it. */
  lemma XorAt(off: nat, k: nat)
    requires Aligned(off, k)
    ensures Xor(off, Size(k)) == BuddyOf(off, k)
  {
    XorIsBuddy(k, Up(off, k));
  }
}
