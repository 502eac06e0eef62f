/**
 The buddy heap's blocks: how the headers tile each arena with power-of-two blocks, what a
 split, a merge and the carving of a new arena do to the tiling, and why merging buddies
 whenever both are free leaves only one tiling when everything is free.
 */
module HeapBlocks {
  import opened Dyadic

  const MIN_ORDER := 6
  const MAX_ORDER := 30

  datatype Header = Header(order: nat, isFree: bool, userSize: nat)

  datatype Arena = Arena(base: nat, size: nat)

  type Headers = map<nat, Header>
  type Arenas = seq<Arena>

  /** Which arena each block is in. */
  type Homes = map<nat, nat>

  /** The part of an arena that whole blocks can cover. */
  function Extent(size: nat): nat {
    size / 64 * 64
  }

  predicate Clear(a: Arena, b: Arena) {
    a.base + a.size <= b.base || b.base + b.size <= a.base
  }

  ghost predicate ArenasApart(arenas: Arenas) {
    forall i, j {:trigger Clear(arenas[i], arenas[j])} :: 0 <= i < j < |arenas| ==> Clear(arenas[i], arenas[j])
  }

  /** A block is aligned to its size within its arena, and inside the part covered so far. */
  ghost predicate BlockOk(arenas: Arenas, cov: seq<nat>, hdr: Headers, home: Homes, a: nat)
    requires a in hdr && |cov| == |arenas|
  {
    && a in home && home[a] < |arenas|
    && var i, k := home[a], hdr[a].order;
       && MIN_ORDER <= k <= MAX_ORDER
       && arenas[i].base <= a
       && Aligned(a - arenas[i].base, k)
       && a - arenas[i].base + Size(k) <= cov[i]
  }

  ghost predicate BlocksOk(arenas: Arenas, cov: seq<nat>, hdr: Headers, home: Homes)
    requires |cov| == |arenas|
  {
    forall a {:trigger BlockOk(arenas, cov, hdr, home, a)} :: a in hdr ==> BlockOk(arenas, cov, hdr, home, a)
  }

  ghost predicate Before(hdr: Headers, a: nat, b: nat)
    requires a in hdr
  {
    a + Size(hdr[a].order) <= b
  }

  ghost predicate BlocksApart(hdr: Headers) {
    forall a, b {:trigger Before(hdr, a, b)} :: a in hdr && b in hdr && a < b ==> Before(hdr, a, b)
  }

  /** The `q`th block of order `k` of an arena is there. */
  ghost predicate IsBlock(hdr: Headers, base: nat, k: nat, q: nat) {
    base + Start(k, q) in hdr && hdr[base + Start(k, q)].order == k
  }

  ghost predicate Covered(hdr: Headers, base: nat, x: nat) {
    exists k {:trigger IsBlock(hdr, base, k, Up(x, k))} :: MIN_ORDER <= k <= MAX_ORDER && IsBlock(hdr, base, k, Up(x, k))
  }

  ghost predicate CoverOk(arenas: Arenas, cov: seq<nat>, hdr: Headers)
    requires |cov| == |arenas|
  {
    forall i, x {:trigger Covered(hdr, arenas[i].base, x)} :: 0 <= i < |arenas| && 0 <= x < cov[i] ==> Covered(hdr, arenas[i].base, x)
  }

  /** The headers tile the covered part of every arena. */
  ghost predicate Tiled(arenas: Arenas, cov: seq<nat>, hdr: Headers, home: Homes) {
    && |cov| == |arenas| && home.Keys == hdr.Keys
    && ArenasApart(arenas) && (forall i :: 0 <= i < |arenas| ==> cov[i] <= arenas[i].size)
    && BlocksOk(arenas, cov, hdr, home)
    && BlocksApart(hdr)
    && CoverOk(arenas, cov, hdr)
  }

  /** An address is in one arena only. */
  lemma OneArena(arenas: Arenas, i: nat, j: nat, a: nat)
    requires ArenasApart(arenas) && i < |arenas| && j < |arenas|
    requires arenas[i].base <= a < arenas[i].base + arenas[i].size && arenas[j].base <= a < arenas[j].base + arenas[j].size
    ensures i == j
  {
    assert i < j ==> Clear(arenas[i], arenas[j]);
    assert j < i ==> Clear(arenas[j], arenas[i]);
  }

  lemma HomeOf(arenas: Arenas, cov: seq<nat>, hdr: Headers, home: Homes, a: nat, i: nat)
    requires Tiled(arenas, cov, hdr, home) && a in hdr && i < |arenas|
    requires arenas[i].base <= a < arenas[i].base + arenas[i].size
    ensures BlockOk(arenas, cov, hdr, home, a) && home[a] == i
  {
    assert BlockOk(arenas, cov, hdr, home, a);
    OneArena(arenas, home[a], i, a);
  }

  // ------------------------------------------------------------------------
  // The buddy
  // ------------------------------------------------------------------------

  /** The block a byte lies in holds it. */
  lemma BlockHolds(arenas: Arenas, cov: seq<nat>, hdr: Headers, home: Homes, a: nat, i: nat, x: nat, j: nat)
    requires Tiled(arenas, cov, hdr, home) && a in hdr && i < |arenas| && home[a] == i
    requires IsBlock(hdr, arenas[i].base, j, Up(x, j))
    requires a <= arenas[i].base + x < a + Size(hdr[a].order)
    ensures j == hdr[a].order && arenas[i].base + Start(j, Up(x, j)) == a
  {
    var c := arenas[i].base + Start(j, Up(x, j));
    UpBounds(x, j);
    StartNext(j, Up(x, j));
    assert c < a ==> Before(hdr, c, a);
    assert a < c ==> Before(hdr, a, c);
  }

  lemma RoomInExtent(x: nat, k: nat, size: nat)
    requires k >= MIN_ORDER && x + Size(k) <= size
    ensures x < Extent(size)
  {
    SizeMono(6, k);
    assert Size(6) == 64;
  }

  /** Where a block's buddy would start, a block starts, and it is not larger: the header that
      `kfree` looks at is a real one. */
  lemma BuddyStarts(arenas: Arenas, cov: seq<nat>, hdr: Headers, home: Homes, a: nat)
    requires Tiled(arenas, cov, hdr, home) && a in hdr && BlockOk(arenas, cov, hdr, home, a)
    requires cov[home[a]] == Extent(arenas[home[a]].size)
    ensures var i, k := home[a], hdr[a].order;
            var b := arenas[i].base + BuddyOf(a - arenas[i].base, k);
            b + Size(k) <= arenas[i].base + arenas[i].size ==>
              b in hdr && hdr[b].order <= k && home[b] == i && BlockOk(arenas, cov, hdr, home, b)
  {
    var i, k := home[a], hdr[a].order;
    var off := a - arenas[i].base;
    var x := BuddyOf(off, k);
    if x + Size(k) <= arenas[i].size {
      RoomInExtent(x, k, arenas[i].size);
      assert Covered(hdr, arenas[i].base, x);
      var j :| MIN_ORDER <= j <= MAX_ORDER && IsBlock(hdr, arenas[i].base, j, Up(x, j));
      if j <= k {
        StartDown(k, Buddy(Up(off, k)), j);
        HomeOf(arenas, cov, hdr, home, arenas[i].base + x, i);
      } else {
        BuddyIs(off, k);
        UpSame(x, off, k + 1, j);
        BlockHolds(arenas, cov, hdr, home, a, i, off, j);
      }
    }
  }

  // ------------------------------------------------------------------------
  // Splitting and merging
  // ------------------------------------------------------------------------

  /** The tiling is a matter of the orders alone. */
  lemma SameTiles(arenas: Arenas, cov: seq<nat>, hdr: Headers, home: Homes, hdr': Headers)
    requires Tiled(arenas, cov, hdr, home) && hdr'.Keys == hdr.Keys
    requires forall a :: a in hdr ==> hdr'[a].order == hdr[a].order
    ensures Tiled(arenas, cov, hdr', home)
  {
    forall a | a in hdr'
      ensures BlockOk(arenas, cov, hdr', home, a)
    {
      assert BlockOk(arenas, cov, hdr, home, a);
    }
    SameApart(hdr, hdr');
    forall i, x | 0 <= i < |arenas| && 0 <= x < cov[i]
      ensures Covered(hdr', arenas[i].base, x)
    {
      assert Covered(hdr, arenas[i].base, x);
      SameCover(hdr, hdr', arenas[i].base, x);
    }
  }

  lemma SameApart(hdr: Headers, hdr': Headers)
    requires BlocksApart(hdr) && hdr'.Keys == hdr.Keys && forall a :: a in hdr ==> hdr'[a].order == hdr[a].order
    ensures BlocksApart(hdr')
  {
    forall a, b | a in hdr' && b in hdr' && a < b
      ensures Before(hdr', a, b)
    {
      assert Before(hdr, a, b);
    }
  }

  lemma SameCover(hdr: Headers, hdr': Headers, base: nat, x: nat)
    requires hdr'.Keys == hdr.Keys && (forall a :: a in hdr ==> hdr'[a].order == hdr[a].order) && Covered(hdr, base, x)
    ensures Covered(hdr', base, x)
  {
    var k :| MIN_ORDER <= k <= MAX_ORDER && IsBlock(hdr, base, k, Up(x, k));
    assert IsBlock(hdr', base, k, Up(x, k));
  }

  /** A block of order `k + 1` at `a` becomes two of order `k`. */
  function SplitAt(hdr: Headers, a: nat, k: nat): Headers {
    hdr[a := Header(k, false, 0)][a + Size(k) := Header(k, true, 0)]
  }

  lemma SplitBlocks(arenas: Arenas, cov: seq<nat>, hdr: Headers, home: Homes, a: nat, k: nat)
    requires Tiled(arenas, cov, hdr, home) && a in hdr && hdr[a].order == k + 1 && k >= MIN_ORDER
    ensures a in home
    ensures BlocksOk(arenas, cov, SplitAt(hdr, a, k), home[a + Size(k) := home[a]])
    ensures a + Size(k) !in hdr
  {
    var hdr', home' := SplitAt(hdr, a, k), home[a + Size(k) := home[a]];
    assert BlockOk(arenas, cov, hdr, home, a);
    AlignedHalves(a - arenas[home[a]].base, k);
    assert a + Size(k) in hdr ==> Before(hdr, a, a + Size(k));
    forall b | b in hdr'
      ensures BlockOk(arenas, cov, hdr', home', b)
    {
      if b != a && b != a + Size(k) {
        assert BlockOk(arenas, cov, hdr, home, b);
      }
    }
  }

  lemma SplitApart(arenas: Arenas, cov: seq<nat>, hdr: Headers, home: Homes, a: nat, k: nat)
    requires Tiled(arenas, cov, hdr, home) && a in hdr && hdr[a].order == k + 1
    ensures BlocksApart(SplitAt(hdr, a, k))
  {
    var hdr', mid := SplitAt(hdr, a, k), a + Size(k);
    forall b, c | b in hdr' && c in hdr' && b < c
      ensures Before(hdr', b, c)
    {
      assert b in hdr && c in hdr ==> Before(hdr, b, c);
      assert b == mid && c in hdr ==> Before(hdr, a, c);
      assert c == mid && b in hdr && b < a ==> Before(hdr, b, a);
      assert b in hdr && a < b ==> Before(hdr, a, b);
    }
  }

  lemma SplitCover(arenas: Arenas, cov: seq<nat>, hdr: Headers, home: Homes, a: nat, k: nat, i: nat, x: nat)
    requires Tiled(arenas, cov, hdr, home) && a in hdr && hdr[a].order == k + 1 && MIN_ORDER <= k < MAX_ORDER
    requires i < |arenas| && x < cov[i]
    ensures Covered(SplitAt(hdr, a, k), arenas[i].base, x)
  {
    var hdr', base := SplitAt(hdr, a, k), arenas[i].base;
    assert Covered(hdr, base, x);
    var j :| MIN_ORDER <= j <= MAX_ORDER && IsBlock(hdr, base, j, Up(x, j));
    if base + Start(j, Up(x, j)) == a {
      HalfOf(x, k);
      assert IsBlock(hdr', base, k, Up(x, k));
    } else {
      assert base + Start(j, Up(x, j)) != a + Size(k) by {
        assert base + Start(j, Up(x, j)) > a ==> Before(hdr, a, base + Start(j, Up(x, j)));
      }
      assert IsBlock(hdr', base, j, Up(x, j));
    }
  }

  lemma Split(arenas: Arenas, cov: seq<nat>, hdr: Headers, home: Homes, a: nat, k: nat)
    requires Tiled(arenas, cov, hdr, home) && a in hdr && hdr[a].order == k + 1 && MIN_ORDER <= k < MAX_ORDER
    ensures a in home && a + Size(k) !in hdr
    ensures Tiled(arenas, cov, SplitAt(hdr, a, k), home[a + Size(k) := home[a]])
  {
    SplitBlocks(arenas, cov, hdr, home, a, k);
    SplitApart(arenas, cov, hdr, home, a, k);
    forall i, x | 0 <= i < |arenas| && 0 <= x < cov[i]
      ensures Covered(SplitAt(hdr, a, k), arenas[i].base, x)
    {
      SplitCover(arenas, cov, hdr, home, a, k, i, x);
    }
  }

  /** Two buddies of order `k`, the lower one at `lo`. */
  ghost predicate Pair(arenas: Arenas, hdr: Headers, home: Homes, lo: nat, k: nat) {
    var hi := lo + Size(k);
    && lo in hdr && hi in hdr && lo in home && hi in home && home[hi] == home[lo] < |arenas|
    && hdr[lo].order == hdr[hi].order == k && arenas[home[lo]].base <= lo
    && Up(lo - arenas[home[lo]].base, k) % 2 == 0
  }

  function MergeAt(hdr: Headers, lo: nat, k: nat): Headers {
    (hdr - {lo + Size(k)})[lo := Header(k + 1, false, 0)]
  }

  function WithoutHome(home: Homes, a: nat): Homes {
    home - {a}
  }

  lemma MergeBlocks(arenas: Arenas, cov: seq<nat>, hdr: Headers, home: Homes, lo: nat, k: nat)
    requires Tiled(arenas, cov, hdr, home) && Pair(arenas, hdr, home, lo, k) && k < MAX_ORDER
    ensures BlocksOk(arenas, cov, MergeAt(hdr, lo, k), WithoutHome(home, lo + Size(k)))
    ensures MergeAt(hdr, lo, k).Keys == WithoutHome(home, lo + Size(k)).Keys
  {
    var hdr', home', hi := MergeAt(hdr, lo, k), WithoutHome(home, lo + Size(k)), lo + Size(k);
    assert BlockOk(arenas, cov, hdr, home, lo) && BlockOk(arenas, cov, hdr, home, hi);
    AlignedPair(lo - arenas[home[lo]].base, k);
    forall b | b in hdr'
      ensures BlockOk(arenas, cov, hdr', home', b)
    {
      if b != lo {
        assert BlockOk(arenas, cov, hdr, home, b);
      }
    }
  }

  lemma MergeApart(arenas: Arenas, cov: seq<nat>, hdr: Headers, home: Homes, lo: nat, k: nat)
    requires Tiled(arenas, cov, hdr, home) && Pair(arenas, hdr, home, lo, k)
    ensures BlocksApart(MergeAt(hdr, lo, k))
  {
    var hdr', hi := MergeAt(hdr, lo, k), lo + Size(k);
    forall b, c | b in hdr' && c in hdr' && b < c
      ensures Before(hdr', b, c)
    {
      assert Before(hdr, b, c);
      assert b == lo ==> Before(hdr, hi, c);
    }
  }

  lemma MergeCover(arenas: Arenas, cov: seq<nat>, hdr: Headers, home: Homes, lo: nat, k: nat, i: nat, x: nat)
    requires Tiled(arenas, cov, hdr, home) && Pair(arenas, hdr, home, lo, k) && MIN_ORDER <= k < MAX_ORDER
    requires i < |arenas| && x < cov[i]
    ensures Covered(MergeAt(hdr, lo, k), arenas[i].base, x)
  {
    var hdr', base, hi := MergeAt(hdr, lo, k), arenas[i].base, lo + Size(k);
    assert Covered(hdr, base, x);
    var j :| MIN_ORDER <= j <= MAX_ORDER && IsBlock(hdr, base, j, Up(x, j));
    var c := base + Start(j, Up(x, j));
    if c == lo || c == hi {
      UpBounds(x, j);
      HomeOf(arenas, cov, hdr, home, c, i);
      assert BlockOk(arenas, cov, hdr, home, lo);
      MergedStart(lo - base, k, x);
      assert IsBlock(hdr', base, k + 1, Up(x, k + 1));
    } else {
      assert IsBlock(hdr', base, j, Up(x, j));
    }
  }

  lemma MergedStart(off: nat, k: nat, x: nat)
    requires Aligned(off, k) && Up(off, k) % 2 == 0
    requires Start(k, Up(x, k)) == off || Start(k, Up(x, k)) == off + Size(k)
    ensures Start(k + 1, Up(x, k + 1)) == off
  {
    AlignedPair(off, k);
    UpStart(k, Up(x, k));
  }

  /** Merging two buddies keeps the tiling. */
  lemma Merge(arenas: Arenas, cov: seq<nat>, hdr: Headers, home: Homes, lo: nat, k: nat)
    requires Tiled(arenas, cov, hdr, home) && Pair(arenas, hdr, home, lo, k) && MIN_ORDER <= k < MAX_ORDER
    ensures Tiled(arenas, cov, MergeAt(hdr, lo, k), WithoutHome(home, lo + Size(k)))
  {
    MergeBlocks(arenas, cov, hdr, home, lo, k);
    MergeApart(arenas, cov, hdr, home, lo, k);
    forall i, x | 0 <= i < |arenas| && 0 <= x < cov[i]
      ensures Covered(MergeAt(hdr, lo, k), arenas[i].base, x)
    {
      MergeCover(arenas, cov, hdr, home, lo, k, i, x);
    }
  }

  // ------------------------------------------------------------------------
  // Carving an arena
  // ------------------------------------------------------------------------

  /** One more block at the end of what is covered of the last arena. */
  function CarveAt(hdr: Headers, a: nat, k: nat): Headers {
    hdr[a := Header(k, true, 0)]
  }

  ghost predicate CanCarve(arenas: Arenas, cov: seq<nat>, hdr: Headers, home: Homes, k: nat) {
    && Tiled(arenas, cov, hdr, home) && arenas != [] && MIN_ORDER <= k <= MAX_ORDER
    && var n := |arenas| - 1;
       cov[n] + Size(k) <= arenas[n].size && Aligned(cov[n], k)
  }

  ghost function Carved(arenas: Arenas, cov: seq<nat>, hdr: Headers, home: Homes, k: nat): (seq<nat>, Headers, Homes)
    requires CanCarve(arenas, cov, hdr, home, k)
  {
    var n := |arenas| - 1;
    var a := arenas[n].base + cov[n];
    var cov': seq<nat> := cov[n := cov[n] + Size(k)];
    var home': Homes := home[a := n];
    (cov', CarveAt(hdr, a, k), home')
  }

  /** Every block there was is still in order, and clear of the new one. */
  lemma CarvedOther(arenas: Arenas, cov: seq<nat>, hdr: Headers, home: Homes, k: nat, b: nat)
    requires CanCarve(arenas, cov, hdr, home, k) && b in hdr
    ensures var (cov', hdr', home') := Carved(arenas, cov, hdr, home, k);
            var a := arenas[|arenas| - 1].base + cov[|arenas| - 1];
            && b != a && BlockOk(arenas, cov', hdr', home', b)
            && if b < a then Before(hdr, b, a) else a + Size(k) <= b
  {
    var n := |arenas| - 1;
    assert BlockOk(arenas, cov, hdr, home, b);
    if home[b] != n {
      assert Clear(arenas[home[b]], arenas[n]);
    }
  }

  lemma CarvedBlocks(arenas: Arenas, cov: seq<nat>, hdr: Headers, home: Homes, k: nat)
    requires CanCarve(arenas, cov, hdr, home, k)
    ensures var (cov', hdr', home') := Carved(arenas, cov, hdr, home, k); BlocksOk(arenas, cov', hdr', home')
  {
    var (cov', hdr', home') := Carved(arenas, cov, hdr, home, k);
    forall b | b in hdr'
      ensures BlockOk(arenas, cov', hdr', home', b)
    {
      if b in hdr {
        CarvedOther(arenas, cov, hdr, home, k, b);
      }
    }
  }

  lemma CarvedApart(arenas: Arenas, cov: seq<nat>, hdr: Headers, home: Homes, k: nat)
    requires CanCarve(arenas, cov, hdr, home, k)
    ensures BlocksApart(Carved(arenas, cov, hdr, home, k).1)
  {
    var hdr' := Carved(arenas, cov, hdr, home, k).1;
    forall b, c | b in hdr' && c in hdr' && b < c
      ensures Before(hdr', b, c)
    {
      if b in hdr {
        CarvedOther(arenas, cov, hdr, home, k, b);
      }
      if c in hdr {
        CarvedOther(arenas, cov, hdr, home, k, c);
      }
      assert b in hdr && c in hdr ==> Before(hdr, b, c);
    }
  }

  lemma CarvedCover(arenas: Arenas, cov: seq<nat>, hdr: Headers, home: Homes, k: nat, i: nat, x: nat)
    requires CanCarve(arenas, cov, hdr, home, k) && i < |arenas|
    requires x < Carved(arenas, cov, hdr, home, k).0[i]
    ensures Covered(Carved(arenas, cov, hdr, home, k).1, arenas[i].base, x)
  {
    var n := |arenas| - 1;
    var a := arenas[n].base + cov[n];
    var (cov', hdr', home') := Carved(arenas, cov, hdr, home, k);
    if x < cov[i] {
      assert Covered(hdr, arenas[i].base, x);
      var j :| MIN_ORDER <= j <= MAX_ORDER && IsBlock(hdr, arenas[i].base, j, Up(x, j));
      UpBounds(x, j);
      CarvedOther(arenas, cov, hdr, home, k, arenas[i].base + Start(j, Up(x, j)));
      assert IsBlock(hdr', arenas[i].base, j, Up(x, j));
    } else {
      StartNext(k, Up(cov[n], k));
      UpUnique(x, k, Up(cov[n], k));
      assert IsBlock(hdr', arenas[i].base, k, Up(x, k));
    }
  }

  lemma Carve(arenas: Arenas, cov: seq<nat>, hdr: Headers, home: Homes, k: nat)
    requires CanCarve(arenas, cov, hdr, home, k)
    ensures var (cov', hdr', home') := Carved(arenas, cov, hdr, home, k);
            Tiled(arenas, cov', hdr', home')
  {
    var (cov', hdr', home') := Carved(arenas, cov, hdr, home, k);
    CarvedBlocks(arenas, cov, hdr, home, k);
    CarvedApart(arenas, cov, hdr, home, k);
    forall i, x | 0 <= i < |arenas| && 0 <= x < cov'[i]
      ensures Covered(hdr', arenas[i].base, x)
    {
      CarvedCover(arenas, cov, hdr, home, k, i, x);
    }
  }

  // ------------------------------------------------------------------------
  // One tiling when everything is free
  // ------------------------------------------------------------------------

  /** No two buddies below the largest order are both free. */
  ghost predicate NoPairs(arenas: Arenas, hdr: Headers, home: Homes) {
    forall lo: nat, k: nat {:trigger Pair(arenas, hdr, home, lo, k)} :: k < MAX_ORDER && Pair(arenas, hdr, home, lo, k) ==>
      !(hdr[lo].isFree && hdr[lo + Size(k)].isFree)
  }

  predicate Fits(size: nat, k: nat, q: nat) {
    Start(k, q + 1) <= size
  }

  /** A block that fits, and whose parent does not. */
  predicate Maximal(size: nat, k: nat, q: nat) {
    MIN_ORDER <= k <= MAX_ORDER && Fits(size, k, q) && (k == MAX_ORDER || !Fits(size, k + 1, q / 2))
  }

  ghost predicate AllFree(arenas: Arenas, hdr: Headers, home: Homes, i: nat) {
    forall a :: a in hdr && a in home && home[a] == i ==> hdr[a].isFree
  }

  lemma BlockFits(arenas: Arenas, cov: seq<nat>, hdr: Headers, home: Homes, i: nat, k: nat, q: nat)
    requires Tiled(arenas, cov, hdr, home) && i < |arenas| && IsBlock(hdr, arenas[i].base, k, q)
    requires Start(k, q) < arenas[i].size
    ensures var a := arenas[i].base + Start(k, q);
            home[a] == i && MIN_ORDER <= k <= MAX_ORDER && Start(k, q + 1) <= cov[i] && Aligned(Start(k, q), k) && Up(Start(k, q), k) == q
    ensures Fits(arenas[i].size, k, q) && BlockOk(arenas, cov, hdr, home, arenas[i].base + Start(k, q))
  {
    HomeOf(arenas, cov, hdr, home, arenas[i].base + Start(k, q), i);
    StartNext(k, q);
    UpStart(k, q);
  }

  /** A parent's range ends after both halves. */
  lemma ParentHolds(k: nat, q: nat)
    ensures Start(k, q + 1) <= Start(k + 1, q / 2 + 1) && Start(k, Buddy(q) + 1) <= Start(k + 1, q / 2 + 1)
  {
    Halves(k, q / 2);
    StartMono(k, q + 1, 2 * (q / 2) + 2);
    StartMono(k, Buddy(q) + 1, 2 * (q / 2) + 2);
  }

  /** The parent of a small block inside a large one lies in it too. */
  lemma ParentWithin(k: nat, q: nat, j: nat, x: nat)
    requires j < k && Start(k, q) <= x < Start(k, q + 1)
    ensures Start(j + 1, Up(x, j) / 2 + 1) <= Start(k, q + 1)
  {
    UpUnique(x, k, q);
    Within(x, j + 1, k);
  }

  /** A block and the block of its order at its buddy's place are a pair. */
  lemma BuddiesPair(arenas: Arenas, cov: seq<nat>, hdr: Headers, home: Homes, a: nat)
    requires Tiled(arenas, cov, hdr, home) && a in hdr && BlockOk(arenas, cov, hdr, home, a)
    requires var b := arenas[home[a]].base + BuddyOf(a - arenas[home[a]].base, hdr[a].order);
             b in hdr && hdr[b].order == hdr[a].order && home[b] == home[a]
    ensures var b := arenas[home[a]].base + BuddyOf(a - arenas[home[a]].base, hdr[a].order);
            Pair(arenas, hdr, home, if a < b then a else b, hdr[a].order)
  {
    BuddyIs(a - arenas[home[a]].base, hdr[a].order);
  }

  /** A block lies inside any larger block that holds its first byte, and so does its parent. */
  lemma AllInside(k: nat, q: nat, j: nat)
    requires k <= j
    ensures Start(k, q + 1) <= Start(j, Up(Start(k, q), j) + 1)
  {
    Within(Start(k, q), k, j);
    UpStart(k, q);
  }

  lemma ParentInside(k: nat, q: nat, j: nat)
    requires k < j
    ensures Start(k + 1, q / 2 + 1) <= Start(j, Up(Start(k, q), j) + 1)
  {
    Within(Start(k, q), k + 1, j);
    UpStart(k, q);
  }

  /** With everything free and no buddies left to merge, no block could be larger. */
  lemma {:induction false} NoLarger(arenas: Arenas, cov: seq<nat>, hdr: Headers, home: Homes, i: nat, k: nat, q: nat)
    requires Tiled(arenas, cov, hdr, home) && NoPairs(arenas, hdr, home) && i < |arenas|
    requires cov[i] == Extent(arenas[i].size) && AllFree(arenas, hdr, home, i)
    requires IsBlock(hdr, arenas[i].base, k, q) && Start(k, q) < arenas[i].size && k < MAX_ORDER
    ensures !Fits(arenas[i].size, k + 1, q / 2)
    decreases k
  {
    if Fits(arenas[i].size, k + 1, q / 2) {
      var base, off := arenas[i].base, Start(k, q);
      var x := BuddyOf(off, k);
      BlockFits(arenas, cov, hdr, home, i, k, q);
      BuddyIs(off, k);
      StartNext(k, Buddy(q));
      ParentHolds(k, q);
      BuddyStarts(arenas, cov, hdr, home, base + off);
      var j := hdr[base + x].order;
      if j < k {
        StartDown(k, Buddy(q), j);
        ParentWithin(k, Buddy(q), j, x);
        NoLarger(arenas, cov, hdr, home, i, j, Up(x, j));
      } else {
        BuddiesPair(arenas, cov, hdr, home, base + off);
      }
    }
  }

  /** A maximal block is there: no smaller one can be in its place, and no larger one fits. */
  lemma MaximalIsBlock(arenas: Arenas, cov: seq<nat>, hdr: Headers, home: Homes, i: nat, k: nat, q: nat)
    requires Tiled(arenas, cov, hdr, home) && NoPairs(arenas, hdr, home) && i < |arenas|
    requires cov[i] == Extent(arenas[i].size) && AllFree(arenas, hdr, home, i)
    requires Maximal(arenas[i].size, k, q)
    ensures IsBlock(hdr, arenas[i].base, k, q)
  {
    var x := Start(k, q);
    StartNext(k, q);
    RoomInExtent(x, k, arenas[i].size);
    assert Covered(hdr, arenas[i].base, x);
    var j :| MIN_ORDER <= j <= MAX_ORDER && IsBlock(hdr, arenas[i].base, j, Up(x, j));
    UpBounds(x, j);
    UpStart(k, q);
    BlockFits(arenas, cov, hdr, home, i, j, Up(x, j));
    if j < k {
      NoLarger(arenas, cov, hdr, home, i, j, Up(x, j));
    }
    OnlyItself(arenas[i].size, k, q, j);
  }

  /** Of the blocks that hold its first byte, only a maximal block itself fits maximally. */
  lemma OnlyItself(size: nat, k: nat, q: nat, j: nat)
    requires Maximal(size, k, q) && j <= MAX_ORDER
    requires var r := Up(Start(k, q), j); Fits(size, j, r) && (j < k ==> !Fits(size, j + 1, r / 2))
    ensures j == k && Up(Start(k, q), j) == q
  {
    StartNext(k, q);
    UpStart(k, q);
    if j < k {
      ParentWithin(k, q, j, Start(k, q));
    } else if j > k {
      ParentInside(k, q, j);
    }
  }

  /** So the blocks of an arena with nothing allocated are exactly the maximal ones. */
  lemma Canonical(arenas: Arenas, cov: seq<nat>, hdr: Headers, home: Homes, i: nat, k: nat, q: nat)
    requires Tiled(arenas, cov, hdr, home) && NoPairs(arenas, hdr, home) && i < |arenas|
    requires cov[i] == Extent(arenas[i].size) && AllFree(arenas, hdr, home, i)
    requires MIN_ORDER <= k <= MAX_ORDER && Fits(arenas[i].size, k, q)
    ensures IsBlock(hdr, arenas[i].base, k, q) <==> Maximal(arenas[i].size, k, q)
  {
    StartNext(k, q);
    if IsBlock(hdr, arenas[i].base, k, q) && k < MAX_ORDER {
      NoLarger(arenas, cov, hdr, home, i, k, q);
    }
    if Maximal(arenas[i].size, k, q) {
      MaximalIsBlock(arenas, cov, hdr, home, i, k, q);
    }
  }

  /** The blocks `carve_region` makes are maximal: of each it takes the largest that fits there. */
  ghost predicate MaximalSoFar(arenas: Arenas, hdr: Headers, home: Homes, i: nat)
    requires i < |arenas|
  {
    forall a {:trigger MaximalAt(arenas[i], hdr, a)} :: a in hdr && a in home && home[a] == i && arenas[i].base <= a ==>
      MaximalAt(arenas[i], hdr, a)
  }

  ghost predicate MaximalAt(arena: Arena, hdr: Headers, a: nat)
    requires a in hdr && arena.base <= a
  {
    Maximal(arena.size, hdr[a].order, Up(a - arena.base, hdr[a].order))
  }

  lemma CarvedMaximal(arenas: Arenas, cov: seq<nat>, hdr: Headers, home: Homes, k: nat)
    requires CanCarve(arenas, cov, hdr, home, k) && MaximalSoFar(arenas, hdr, home, |arenas| - 1)
    requires var n := |arenas| - 1;
             k < MAX_ORDER ==> !(cov[n] + Size(k + 1) <= arenas[n].size && Aligned(cov[n], k + 1))
    ensures var n := |arenas| - 1; Maximal(arenas[n].size, k, Up(cov[n], k))
  {
    var n := |arenas| - 1;
    var q, size := Up(cov[n], k), arenas[n].size;
    StartNext(k, q);
    NeverOdd(arenas, cov, hdr, home, k);
    if k < MAX_ORDER {
      AlignedPair(cov[n], k);
      StartNext(k + 1, q / 2);
    }
  }

  /** What holds the first byte of the parent of a block that goes into an upper half. */
  lemma LowerHalf(arenas: Arenas, cov: seq<nat>, hdr: Headers, home: Homes, k: nat, q: nat) returns (j: nat)
    requires Tiled(arenas, cov, hdr, home) && arenas != [] && MIN_ORDER <= k < MAX_ORDER
    requires var n := |arenas| - 1;
             MaximalSoFar(arenas, hdr, home, n) && Start(k + 1, q) + Size(k) == cov[n]
    ensures j <= k && Maximal(arenas[|arenas| - 1].size, j, Up(Start(k + 1, q), j))
  {
    var n := |arenas| - 1;
    var base, x := arenas[n].base, Start(k + 1, q);
    assert Covered(hdr, base, x);
    j :| MIN_ORDER <= j <= MAX_ORDER && IsBlock(hdr, base, j, Up(x, j));
    UpBounds(x, j);
    BlockFits(arenas, cov, hdr, home, n, j, Up(x, j));
    assert MaximalAt(arenas[n], hdr, base + Start(j, Up(x, j)));
    if j > k {
      AllInside(k + 1, q, j);
      StartNext(k + 1, q);
    }
  }

  /** So a block is never carved into an upper half. */
  lemma NeverOdd(arenas: Arenas, cov: seq<nat>, hdr: Headers, home: Homes, k: nat)
    requires CanCarve(arenas, cov, hdr, home, k) && MaximalSoFar(arenas, hdr, home, |arenas| - 1)
    ensures k < MAX_ORDER ==> Up(cov[|arenas| - 1], k) % 2 == 0
  {
    var q := Up(cov[|arenas| - 1], k) / 2;
    if k < MAX_ORDER && Up(cov[|arenas| - 1], k) == 2 * q + 1 {
      Halves(k, q);
      var j := LowerHalf(arenas, cov, hdr, home, k, q);
      StartNext(k + 1, q);
      ParentWithin(k + 1, q, j, Start(k + 1, q));
    }
  }
}
