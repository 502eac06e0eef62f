/**
 The heap as a whole, as a value: blocks, which of them are free, and what is on which list.
 Every small step of the allocator is one of the functions here.
 */
module HeapShape {
  import opened Dyadic
  import opened HeapBlocks
  import opened FreeLists

  datatype Shape = Shape(arenas: Arenas, cov: seq<nat>, hdr: Headers, home: Homes, lists: seq<seq<nat>>)

  ghost predicate OnList(lists: seq<seq<nat>>, k: nat, a: nat) {
    k < |lists| && a in lists[k]
  }

  /** List `k` has exactly the free blocks of order `k`. */
  ghost predicate Listed(hdr: Headers, lists: seq<seq<nat>>) {
    && |lists| == MAX_ORDER + 1
    && forall k, a {:trigger OnList(lists, k, a)} :: 0 <= k <= MAX_ORDER && 0 <= a ==>
         (OnList(lists, k, a) <==> a in hdr && hdr[a].isFree && hdr[a].order == k)
  }

  /** Only what is allocated has a size asked for. */
  ghost predicate FreeIsZero(hdr: Headers) {
    forall a {:trigger ZeroIfFree(hdr, a)} :: a in hdr ==> ZeroIfFree(hdr, a)
  }

  ghost predicate ZeroIfFree(hdr: Headers, a: nat)
    requires a in hdr
  {
    hdr[a].isFree ==> hdr[a].userSize == 0
  }

  lemma ZeroUpdate(hdr: Headers, a: nat, h: Header)
    requires FreeIsZero(hdr) && (h.isFree ==> h.userSize == 0)
    ensures FreeIsZero(hdr[a := h])
  {
    var hdr' := hdr[a := h];
    forall b | b in hdr'
      ensures ZeroIfFree(hdr', b)
    {
      if b != a {
        assert ZeroIfFree(hdr, b);
      }
    }
  }

  lemma ZeroWithout(hdr: Headers, a: nat)
    requires FreeIsZero(hdr)
    ensures FreeIsZero(hdr - {a})
  {
    var hdr' := hdr - {a};
    forall b | b in hdr'
      ensures ZeroIfFree(hdr', b)
    {
      assert ZeroIfFree(hdr, b);
    }
  }

  ghost predicate Good(s: Shape) {
    && Tiled(s.arenas, s.cov, s.hdr, s.home)
    && NoPairs(s.arenas, s.hdr, s.home)
    && Listed(s.hdr, s.lists)
    && FreeIsZero(s.hdr)
  }

  // ------------------------------------------------------------------------
  // Counting
  // ------------------------------------------------------------------------

  ghost function FreeSet(hdr: Headers): set<nat> {
    set a | a in hdr && hdr[a].isFree
  }

  /** The sum of the sizes asked for. */
  ghost function Asked(hdr: Headers): nat
    decreases |hdr|
  {
    if hdr == map[] then 0
    else
      var a :| a in hdr;
      hdr[a].userSize + Asked(hdr - {a})
  }

  lemma {:induction false} AskedWithout(hdr: Headers, a: nat)
    requires a in hdr
    ensures Asked(hdr) == hdr[a].userSize + Asked(hdr - {a})
    decreases |hdr|
  {
    var b :| b in hdr && Asked(hdr) == hdr[b].userSize + Asked(hdr - {b});
    if a != b {
      AskedWithout(hdr - {b}, a);
      AskedWithout(hdr - {a}, b);
      assert hdr - {a} - {b} == hdr - {b} - {a};
    }
  }

  lemma AskedUpdate(hdr: Headers, a: nat, h: Header)
    ensures Asked(hdr[a := h]) == Asked(hdr) - (if a in hdr then hdr[a].userSize else 0) + h.userSize
  {
    AskedWithout(hdr[a := h], a);
    assert hdr[a := h] - {a} == hdr - {a};
    if a in hdr {
      AskedWithout(hdr, a);
    } else {
      assert hdr - {a} == hdr;
    }
  }

  lemma ListedPush(hdr: Headers, lists: seq<seq<nat>>, a: nat, k: nat)
    requires Listed(hdr, lists) && k <= MAX_ORDER && (a in hdr ==> !hdr[a].isFree)
    ensures a !in lists[k]
    ensures Listed(hdr[a := Header(k, true, 0)], WithList(lists, k, [a] + lists[k]))
    ensures FreeSet(hdr[a := Header(k, true, 0)]) == FreeSet(hdr) + {a}
  {
    var hdr', lists' := hdr[a := Header(k, true, 0)], WithList(lists, k, [a] + lists[k]);
    assert !OnList(lists, k, a);
    forall j, x | 0 <= j <= MAX_ORDER && 0 <= x
      ensures OnList(lists', j, x) <==> x in hdr' && hdr'[x].isFree && hdr'[x].order == j
    {
      assert OnList(lists, j, x) <==> x in hdr && hdr[x].isFree && hdr[x].order == j;
    }
  }

  lemma ListedSame(hdr: Headers, lists: seq<seq<nat>>, a: nat, k: nat)
    requires Listed(hdr, lists) && a in hdr && !hdr[a].isFree
    ensures Listed(hdr[a := Header(k, false, 0)], lists) && FreeSet(hdr[a := Header(k, false, 0)]) == FreeSet(hdr)
  {
    var hdr' := hdr[a := Header(k, false, 0)];
    forall j, x | 0 <= j <= MAX_ORDER && 0 <= x
      ensures OnList(lists, j, x) <==> x in hdr' && hdr'[x].isFree && hdr'[x].order == j
    {
      assert OnList(lists, j, x) <==> x in hdr && hdr[x].isFree && hdr[x].order == j;
    }
  }

  // ------------------------------------------------------------------------
  // The steps
  // ------------------------------------------------------------------------

  function WithList(lists: seq<seq<nat>>, k: nat, list: seq<nat>): seq<seq<nat>>
    requires k < |lists|
  {
    lists[k := list]
  }

  /** A block of list `k` is taken off it, to be used or merged. */
  ghost predicate CanTake(s: Shape, k: nat, i: nat) {
    Good(s) && k <= MAX_ORDER && i < |s.lists[k]| && Distinct(s.lists[k])
  }

  ghost function Taken(s: Shape, k: nat, i: nat): Shape
    requires k < |s.lists| && i < |s.lists[k]|
  {
    s.(hdr := s.hdr[s.lists[k][i] := Header(k, false, 0)],
       lists := WithList(s.lists, k, Removed(s.lists[k], i)))
  }

  lemma RemovedMembers(list: seq<nat>, i: nat)
    requires i < |list| && Distinct(list)
    ensures forall x :: x in Removed(list, i) <==> x in list && x != list[i]
  {
    var r := Removed(list, i);
    forall x | x in list && x != list[i]
      ensures x in r
    {
      var j :| 0 <= j < |list| && list[j] == x;
      assert r[if j < i then j else j - 1] == x;
    }
  }

  lemma Take(s: Shape, k: nat, i: nat)
    requires CanTake(s, k, i)
    ensures var a, s' := s.lists[k][i], Taken(s, k, i);
            && a in s.hdr && s.hdr[a].isFree && s.hdr[a].order == k
            && Good(s') && FreeSet(s'.hdr) == FreeSet(s.hdr) - {a} && Asked(s'.hdr) == Asked(s.hdr)
  {
    var a, s' := s.lists[k][i], Taken(s, k, i);
    assert OnList(s.lists, k, a);
    SameTiles(s.arenas, s.cov, s.hdr, s.home, s'.hdr);
    TakenPairs(s, a, k);
    AskedUpdate(s.hdr, a, Header(k, false, 0));
    ZeroUpdate(s.hdr, a, Header(k, false, 0));
    assert ZeroIfFree(s.hdr, a);
    RemovedMembers(s.lists[k], i);
    forall j, b | 0 <= j <= MAX_ORDER && 0 <= b
      ensures OnList(s'.lists, j, b) <==> b in s'.hdr && s'.hdr[b].isFree && s'.hdr[b].order == j
    {
      assert OnList(s.lists, j, b) <==> b in s.hdr && s.hdr[b].isFree && s.hdr[b].order == j;
    }
  }

  lemma TakenPairs(s: Shape, a: nat, k: nat)
    requires Good(s) && a in s.hdr && s.hdr[a].order == k
    ensures NoPairs(s.arenas, s.hdr[a := Header(k, false, 0)], s.home)
  {
    var hdr' := s.hdr[a := Header(k, false, 0)];
    forall lo: nat, j: nat | j < MAX_ORDER && Pair(s.arenas, hdr', s.home, lo, j)
      ensures !(hdr'[lo].isFree && hdr'[lo + Size(j)].isFree)
    {
      assert Pair(s.arenas, s.hdr, s.home, lo, j);
    }
  }

  /** A block in hand: neither free nor asked for yet, or no longer. */
  ghost predicate InHand(s: Shape, a: nat, k: nat) {
    Good(s) && a in s.hdr && s.hdr[a] == Header(k, false, 0)
  }

  /** The block in hand is halved; its upper half goes onto a list. */
  ghost function Halved(s: Shape, a: nat, k: nat): Shape
    requires a in s.home && k < |s.lists|
  {
    var b := a + Size(k);
    s.(hdr := SplitAt(s.hdr, a, k),
       home := WithHome(s.home, b, s.home[a]),
       lists := WithList(s.lists, k, [b] + s.lists[k]))
  }

  function WithHome(home: Homes, a: nat, i: nat): Homes {
    home[a := i]
  }

  /** An upper half is the upper one of its pair. */
  lemma UpperOfPair(arenas: Arenas, hdr: Headers, home: Homes, b: nat, lo: nat, j: nat)
    requires Pair(arenas, hdr, home, lo, j) && b in hdr && b in home && home[b] < |arenas| && arenas[home[b]].base <= b
    requires Up(b - arenas[home[b]].base, hdr[b].order) % 2 == 1
    ensures lo != b && (lo + Size(j) == b ==> j == hdr[b].order)
  {
  }

  lemma OddUpper(off: nat, k: nat)
    requires Aligned(off, k + 1)
    ensures Up(off + Size(k), k) % 2 == 1
  {
    AlignedHalves(off, k);
  }

  lemma HalvedPair(arenas: Arenas, cov: seq<nat>, hdr: Headers, home: Homes, a: nat, k: nat, lo: nat, j: nat)
    requires Tiled(arenas, cov, hdr, home) && NoPairs(arenas, hdr, home)
    requires a in hdr && hdr[a].order == k + 1 && MIN_ORDER <= k < MAX_ORDER && j < MAX_ORDER
    requires Pair(arenas, SplitAt(hdr, a, k), WithHome(home, a + Size(k), home[a]), lo, j)
    ensures !(SplitAt(hdr, a, k)[lo].isFree && SplitAt(hdr, a, k)[lo + Size(j)].isFree)
  {
    assert BlockOk(arenas, cov, hdr, home, a);
    OddUpper(a - arenas[home[a]].base, k);
    UpperOfPair(arenas, SplitAt(hdr, a, k), WithHome(home, a + Size(k), home[a]), a + Size(k), lo, j);
    if lo != a && lo + Size(j) != a {
      assert lo + Size(j) != a + Size(k);
      assert Pair(arenas, hdr, home, lo, j);
    }
  }

  lemma HalvedPairs(arenas: Arenas, cov: seq<nat>, hdr: Headers, home: Homes, a: nat, k: nat)
    requires Tiled(arenas, cov, hdr, home) && NoPairs(arenas, hdr, home)
    requires a in hdr && hdr[a].order == k + 1 && MIN_ORDER <= k < MAX_ORDER
    ensures NoPairs(arenas, SplitAt(hdr, a, k), WithHome(home, a + Size(k), home[a]))
  {
    var hdr', home' := SplitAt(hdr, a, k), WithHome(home, a + Size(k), home[a]);
    forall lo: nat, j: nat | j < MAX_ORDER && Pair(arenas, hdr', home', lo, j)
      ensures !(hdr'[lo].isFree && hdr'[lo + Size(j)].isFree)
    {
      HalvedPair(arenas, cov, hdr, home, a, k, lo, j);
    }
  }

  lemma Halve(s: Shape, a: nat, k: nat)
    requires InHand(s, a, k + 1) && MIN_ORDER <= k < MAX_ORDER
    ensures a in s.home
    ensures var b, s' := a + Size(k), Halved(s, a, k);
            && b !in s.hdr && b !in s.lists[k]
            && InHand(s', a, k) && FreeSet(s'.hdr) == FreeSet(s.hdr) + {b} && Asked(s'.hdr) == Asked(s.hdr)
  {
    var b, s' := a + Size(k), Halved(s, a, k);
    Split(s.arenas, s.cov, s.hdr, s.home, a, k);
    HalvedPairs(s.arenas, s.cov, s.hdr, s.home, a, k);
    AskedUpdate(s.hdr, a, Header(k, false, 0));
    AskedUpdate(s.hdr[a := Header(k, false, 0)], b, Header(k, true, 0));
    ZeroUpdate(s.hdr, a, Header(k, false, 0));
    ZeroUpdate(s.hdr[a := Header(k, false, 0)], b, Header(k, true, 0));
    ListedSame(s.hdr, s.lists, a, k);
    ListedPush(s.hdr[a := Header(k, false, 0)], s.lists, b, k);
  }

  /** Two buddies in hand become one block. */
  ghost function Joined(s: Shape, lo: nat, k: nat): Shape {
    s.(hdr := MergeAt(s.hdr, lo, k), home := WithoutHome(s.home, lo + Size(k)))
  }

  lemma JoinPairs(s: Shape, lo: nat, k: nat)
    requires Good(s) && Pair(s.arenas, s.hdr, s.home, lo, k)
    ensures NoPairs(s.arenas, Joined(s, lo, k).hdr, Joined(s, lo, k).home)
  {
    var s' := Joined(s, lo, k);
    forall l: nat, j: nat | j < MAX_ORDER && Pair(s.arenas, s'.hdr, s'.home, l, j)
      ensures !(s'.hdr[l].isFree && s'.hdr[l + Size(j)].isFree)
    {
      if l != lo && l + Size(j) != lo {
        assert Pair(s.arenas, s.hdr, s.home, l, j);
      }
    }
  }

  lemma JoinAsked(hdr: Headers, lo: nat, k: nat)
    requires lo in hdr && lo + Size(k) in hdr && hdr[lo].userSize == 0 && hdr[lo + Size(k)].userSize == 0
    ensures Asked(MergeAt(hdr, lo, k)) == Asked(hdr)
  {
    AskedWithout(hdr, lo + Size(k));
    AskedUpdate(hdr - {lo + Size(k)}, lo, Header(k + 1, false, 0));
  }

  lemma Join(s: Shape, lo: nat, k: nat)
    requires InHand(s, lo, k) && InHand(s, lo + Size(k), k) && Pair(s.arenas, s.hdr, s.home, lo, k) && MIN_ORDER <= k < MAX_ORDER
    ensures var s' := Joined(s, lo, k);
            InHand(s', lo, k + 1) && FreeSet(s'.hdr) == FreeSet(s.hdr) && Asked(s'.hdr) == Asked(s.hdr)
  {
    var s' := Joined(s, lo, k);
    Merge(s.arenas, s.cov, s.hdr, s.home, lo, k);
    JoinPairs(s, lo, k);
    JoinAsked(s.hdr, lo, k);
    ZeroWithout(s.hdr, lo + Size(k));
    ZeroUpdate(s.hdr - {lo + Size(k)}, lo, Header(k + 1, false, 0));
    forall j, x | 0 <= j <= MAX_ORDER && 0 <= x
      ensures OnList(s'.lists, j, x) <==> x in s'.hdr && s'.hdr[x].isFree && s'.hdr[x].order == j
    {
      assert OnList(s.lists, j, x) <==> x in s.hdr && s.hdr[x].isFree && s.hdr[x].order == j;
    }
  }

  /** The block in hand goes onto its list. */
  ghost function PutBack(s: Shape, a: nat, k: nat): Shape
    requires k < |s.lists|
  {
    s.(hdr := s.hdr[a := Header(k, true, 0)], lists := WithList(s.lists, k, [a] + s.lists[k]))
  }

  /** Its buddy is out of reach, or not there as a free block of the same order. */
  ghost predicate BuddyBusy(s: Shape, a: nat, k: nat)
    requires InHand(s, a, k)
  {
    k == MAX_ORDER || forall lo: nat :: Pair(s.arenas, s.hdr, s.home, lo, k) ==>
      (lo == a ==> !s.hdr[lo + Size(k)].isFree) && (lo + Size(k) == a ==> !s.hdr[lo].isFree)
  }

  lemma GivenPairs(s: Shape, a: nat, k: nat)
    requires InHand(s, a, k) && BuddyBusy(s, a, k)
    ensures NoPairs(s.arenas, s.hdr[a := Header(k, true, 0)], s.home)
  {
    var hdr' := s.hdr[a := Header(k, true, 0)];
    forall lo: nat, j: nat | j < MAX_ORDER && Pair(s.arenas, hdr', s.home, lo, j)
      ensures !(hdr'[lo].isFree && hdr'[lo + Size(j)].isFree)
    {
      assert Pair(s.arenas, s.hdr, s.home, lo, j);
    }
  }

  lemma GiveBack(s: Shape, a: nat, k: nat)
    requires InHand(s, a, k) && MIN_ORDER <= k <= MAX_ORDER && BuddyBusy(s, a, k)
    ensures a !in s.lists[k]
    ensures var s' := PutBack(s, a, k);
            Good(s') && FreeSet(s'.hdr) == FreeSet(s.hdr) + {a} && Asked(s'.hdr) == Asked(s.hdr)
  {
    var s' := PutBack(s, a, k);
    SameTiles(s.arenas, s.cov, s.hdr, s.home, s'.hdr);
    ListedPush(s.hdr, s.lists, a, k);
    AskedUpdate(s.hdr, a, Header(k, true, 0));
    ZeroUpdate(s.hdr, a, Header(k, true, 0));
    GivenPairs(s, a, k);
  }

  /** A used block's header changes what was asked for. */
  ghost function Resized(s: Shape, a: nat, size: nat): Shape
    requires a in s.hdr
  {
    s.(hdr := s.hdr[a := Header(s.hdr[a].order, false, size)])
  }

  lemma Resize(s: Shape, a: nat, size: nat)
    requires Good(s) && a in s.hdr && !s.hdr[a].isFree
    ensures var s' := Resized(s, a, size);
            && Good(s') && FreeSet(s'.hdr) == FreeSet(s.hdr)
            && Asked(s'.hdr) == Asked(s.hdr) - s.hdr[a].userSize + size
  {
    var s' := Resized(s, a, size);
    SameTiles(s.arenas, s.cov, s.hdr, s.home, s'.hdr);
    AskedUpdate(s.hdr, a, Header(s.hdr[a].order, false, size));
    ZeroUpdate(s.hdr, a, Header(s.hdr[a].order, false, size));
    forall lo: nat, j: nat | j < MAX_ORDER && Pair(s.arenas, s'.hdr, s'.home, lo, j)
      ensures !(s'.hdr[lo].isFree && s'.hdr[lo + Size(j)].isFree)
    {
      assert Pair(s.arenas, s.hdr, s.home, lo, j);
    }
    forall j, x | 0 <= j <= MAX_ORDER && 0 <= x
      ensures OnList(s'.lists, j, x) <==> x in s'.hdr && s'.hdr[x].isFree && s'.hdr[x].order == j
    {
      assert OnList(s.lists, j, x) <==> x in s.hdr && s.hdr[x].isFree && s.hdr[x].order == j;
    }
  }

  // ------------------------------------------------------------------------
  // The buddy of the block in hand
  // ------------------------------------------------------------------------

  /** Where the buddy of a block would be. */
  ghost function BuddyAt(s: Shape, a: nat, k: nat): nat
    requires a in s.home && s.home[a] < |s.arenas| && s.arenas[s.home[a]].base <= a
  {
    var base := s.arenas[s.home[a]].base;
    base + BuddyOf(a - base, k)
  }

  lemma HandOk(s: Shape, a: nat, k: nat)
    requires InHand(s, a, k)
    ensures BlockOk(s.arenas, s.cov, s.hdr, s.home, a) && MIN_ORDER <= k <= MAX_ORDER
  {
    assert BlockOk(s.arenas, s.cov, s.hdr, s.home, a);
  }

  /** The other block of a pair is at the buddy's place. */
  lemma PartnerAt(s: Shape, a: nat, k: nat, lo: nat)
    requires |s.cov| == |s.arenas| && BlocksOk(s.arenas, s.cov, s.hdr, s.home)
    requires a in s.hdr && BlockOk(s.arenas, s.cov, s.hdr, s.home, a)
    requires Pair(s.arenas, s.hdr, s.home, lo, k) && (lo == a || lo + Size(k) == a)
    ensures BuddyAt(s, a, k) == if lo == a then lo + Size(k) else lo
  {
    assert BlockOk(s.arenas, s.cov, s.hdr, s.home, lo);
    PartnerOffset(s.arenas[s.home[a]].base, a, k, lo);
  }

  lemma PartnerOffset(base: nat, a: nat, k: nat, lo: nat)
    requires base <= lo && Aligned(lo - base, k) && Up(lo - base, k) % 2 == 0 && (lo == a || lo + Size(k) == a)
    ensures base + BuddyOf(a - base, k) == if lo == a then lo + Size(k) else lo
  {
    var off := lo - base;
    PairBuddies(off, k);
    assert a - base == off || a - base == off + Size(k);
  }

  /** `kfree` stops merging only where there is nothing to merge with. */
  lemma BusyUnless(s: Shape, a: nat, k: nat)
    requires InHand(s, a, k) && BlockOk(s.arenas, s.cov, s.hdr, s.home, a) && k < MAX_ORDER
    requires var b := BuddyAt(s, a, k);
             var arena := s.arenas[s.home[a]];
             b + Size(k) > arena.base + arena.size || (b in s.hdr && !(s.hdr[b].isFree && s.hdr[b].order == k))
    ensures BuddyBusy(s, a, k)
  {
    forall lo: nat | Pair(s.arenas, s.hdr, s.home, lo, k)
      ensures (lo == a ==> !s.hdr[lo + Size(k)].isFree) && (lo + Size(k) == a ==> !s.hdr[lo].isFree)
    {
      if lo == a || lo + Size(k) == a {
        PartnerAt(s, a, k, lo);
        assert BlockOk(s.arenas, s.cov, s.hdr, s.home, BuddyAt(s, a, k));
      }
    }
  }

  /** A free buddy of the same order, once off its list, can be joined. */
  lemma BuddyPairs(s: Shape, a: nat, k: nat)
    requires InHand(s, a, k) && BlockOk(s.arenas, s.cov, s.hdr, s.home, a)
    requires var b := BuddyAt(s, a, k); b in s.hdr && s.hdr[b].order == k && s.home[b] == s.home[a]
    ensures var b := BuddyAt(s, a, k);
            var lo := if b < a then b else a;
            Pair(s.arenas, s.hdr, s.home, lo, k) && (if b < a then b + Size(k) == a else a + Size(k) == b)
  {
    BuddiesPair(s.arenas, s.cov, s.hdr, s.home, a);
    BuddyIs(a - s.arenas[s.home[a]].base, k);
  }

  // ------------------------------------------------------------------------
  // A new arena
  // ------------------------------------------------------------------------

  ghost function Added(s: Shape, arena: Arena): Shape {
    s.(arenas := s.arenas + [arena], cov := s.cov + [0])
  }

  predicate ClearOfAll(arenas: Arenas, arena: Arena) {
    forall i :: 0 <= i < |arenas| ==> Clear(arenas[i], arena)
  }

  lemma AddTiled(s: Shape, arena: Arena)
    requires Tiled(s.arenas, s.cov, s.hdr, s.home) && ClearOfAll(s.arenas, arena)
    ensures var s' := Added(s, arena); Tiled(s'.arenas, s'.cov, s'.hdr, s'.home)
  {
    var s' := Added(s, arena);
    forall a | a in s.hdr
      ensures BlockOk(s'.arenas, s'.cov, s.hdr, s.home, a)
    {
      assert BlockOk(s.arenas, s.cov, s.hdr, s.home, a);
    }
    forall i, j | 0 <= i < j < |s'.arenas|
      ensures Clear(s'.arenas[i], s'.arenas[j])
    {
      assert j < |s.arenas| ==> Clear(s.arenas[i], s.arenas[j]);
    }
    forall i, x | 0 <= i < |s'.arenas| && 0 <= x < s'.cov[i]
      ensures Covered(s.hdr, s'.arenas[i].base, x)
    {
      assert s'.arenas[i] == s.arenas[i];
      assert Covered(s.hdr, s.arenas[i].base, x);
    }
  }

  lemma Add(s: Shape, arena: Arena)
    requires Good(s) && ClearOfAll(s.arenas, arena)
    ensures Good(Added(s, arena)) && MaximalSoFar(Added(s, arena).arenas, s.hdr, s.home, |s.arenas|)
  {
    var s' := Added(s, arena);
    AddTiled(s, arena);
    forall a | a in s.hdr
      ensures s.home[a] != |s.arenas|
    {
      assert BlockOk(s.arenas, s.cov, s.hdr, s.home, a);
    }
    forall lo: nat, k: nat | k < MAX_ORDER && Pair(s'.arenas, s.hdr, s.home, lo, k)
      ensures !(s.hdr[lo].isFree && s.hdr[lo + Size(k)].isFree)
    {
      assert Pair(s.arenas, s.hdr, s.home, lo, k);
    }
  }

  /** The largest order that may start at an offset and fits. */
  predicate NextOrder(off: nat, size: nat, k: nat) {
    && MIN_ORDER <= k <= MAX_ORDER && off + Size(k) <= size && Aligned(off, k)
    && (k < MAX_ORDER ==> !(off + Size(k + 1) <= size && Aligned(off, k + 1)))
  }

  /** The next block of an arena being carved. */
  ghost predicate CanCarveNext(s: Shape, k: nat) {
    && Good(s) && s.arenas != []
    && MaximalSoFar(s.arenas, s.hdr, s.home, |s.arenas| - 1)
    && NextOrder(s.cov[|s.arenas| - 1], s.arenas[|s.arenas| - 1].size, k)
  }

  ghost function CarvedNext(s: Shape, k: nat): Shape
    requires CanCarveNext(s, k)
  {
    var n := |s.arenas| - 1;
    var a := s.arenas[n].base + s.cov[n];
    var (cov', hdr', home') := Carved(s.arenas, s.cov, s.hdr, s.home, k);
    s.(cov := cov', hdr := hdr', home := home', lists := WithList(s.lists, k, [a] + s.lists[k]))
  }

  lemma CarvedIsNew(s: Shape, k: nat)
    requires CanCarve(s.arenas, s.cov, s.hdr, s.home, k)
    ensures s.arenas[|s.arenas| - 1].base + s.cov[|s.arenas| - 1] !in s.hdr
  {
    var n := |s.arenas| - 1;
    var a := s.arenas[n].base + s.cov[n];
    if a in s.hdr {
      HomeOf(s.arenas, s.cov, s.hdr, s.home, a, n);
    }
  }

  lemma CarvedStaysMaximal(s: Shape, k: nat)
    requires CanCarveNext(s, k)
    ensures var s' := CarvedNext(s, k); MaximalSoFar(s'.arenas, s'.hdr, s'.home, |s.arenas| - 1)
  {
    var s', n := CarvedNext(s, k), |s.arenas| - 1;
    CarvedIsNew(s, k);
    CarvedMaximal(s.arenas, s.cov, s.hdr, s.home, k);
    forall a | a in s'.hdr && a in s'.home && s'.home[a] == n && s.arenas[n].base <= a
      ensures MaximalAt(s.arenas[n], s'.hdr, a)
    {
      if a in s.hdr {
        assert MaximalAt(s.arenas[n], s.hdr, a);
      }
    }
  }

  /** Maximal blocks have no buddies among them. */
  lemma MaximalPairs(s: Shape, lo: nat, k: nat)
    requires Tiled(s.arenas, s.cov, s.hdr, s.home) && k < MAX_ORDER
    requires Pair(s.arenas, s.hdr, s.home, lo, k)
    ensures !MaximalSoFar(s.arenas, s.hdr, s.home, s.home[lo])
  {
    var i, hi := s.home[lo], lo + Size(k);
    var off := lo - s.arenas[i].base;
    assert BlockOk(s.arenas, s.cov, s.hdr, s.home, lo) && BlockOk(s.arenas, s.cov, s.hdr, s.home, hi);
    AlignedPair(off, k);
    StartNext(k + 1, Up(off, k + 1));
    assert Fits(s.arenas[i].size, k + 1, Up(off, k) / 2);
    assert !MaximalAt(s.arenas[i], s.hdr, lo);
  }

  lemma CarvedPairs(s: Shape, k: nat)
    requires CanCarveNext(s, k)
    ensures var s' := CarvedNext(s, k); Tiled(s'.arenas, s'.cov, s'.hdr, s'.home) && NoPairs(s'.arenas, s'.hdr, s'.home)
  {
    var s', n := CarvedNext(s, k), |s.arenas| - 1;
    var a := s.arenas[n].base + s.cov[n];
    Carve(s.arenas, s.cov, s.hdr, s.home, k);
    CarvedIsNew(s, k);
    CarvedStaysMaximal(s, k);
    forall lo: nat, j: nat | j < MAX_ORDER && Pair(s'.arenas, s'.hdr, s'.home, lo, j)
      ensures !(s'.hdr[lo].isFree && s'.hdr[lo + Size(j)].isFree)
    {
      MaximalPairs(s', lo, j);
      assert Pair(s.arenas, s.hdr, s.home, lo, j);
    }
  }

  lemma CarvedListed(s: Shape, k: nat)
    requires CanCarveNext(s, k)
    ensures var s', n := CarvedNext(s, k), |s.arenas| - 1;
            var a := s.arenas[n].base + s.cov[n];
            && a !in s.hdr && a !in s.lists[k] && Listed(s'.hdr, s'.lists) && FreeIsZero(s'.hdr)
            && FreeSet(s'.hdr) == FreeSet(s.hdr) + {a} && Asked(s'.hdr) == Asked(s.hdr)
  {
    var n := |s.arenas| - 1;
    var a := s.arenas[n].base + s.cov[n];
    CarvedIsNew(s, k);
    AskedUpdate(s.hdr, a, Header(k, true, 0));
    ZeroUpdate(s.hdr, a, Header(k, true, 0));
    ListedPush(s.hdr, s.lists, a, k);
  }

  lemma CarveNext(s: Shape, k: nat)
    requires CanCarveNext(s, k)
    ensures var s' := CarvedNext(s, k); Good(s') && MaximalSoFar(s'.arenas, s'.hdr, s'.home, |s.arenas| - 1)
  {
    CarvedPairs(s, k);
    CarvedStaysMaximal(s, k);
    CarvedListed(s, k);
  }
}
