/** Each small step of the allocator keeps the heap in order. */
module HeapSteps {
  import opened Basics
  import opened Dyadic
  import opened HeapBlocks
  import opened FreeLists
  import opened HeapShape
  import opened HeapState

  lemma PushLists(nodes: Nodes, heads: seq<nat>, lists: seq<seq<nat>>, hdr: Headers, k: nat, a: nat)
    requires ListsOk(nodes, heads, lists) && Listed(hdr, lists) && k <= MAX_ORDER && (a in hdr ==> !hdr[a].isFree)
    ensures heads[k] != 0 ==> heads[k] in nodes
    ensures ListsOk(Pushed(nodes, heads[k], a), heads[k := a + HEADER], WithList(lists, k, [a] + lists[k]))
  {
    assert !OnList(lists, k, a);
    assert Linked(nodes, heads[k], lists[k]);
    Push(nodes, heads[k], lists[k], a);
    var nodes' := Pushed(nodes, heads[k], a);
    forall j | 0 <= j <= MAX_ORDER && j != k
      ensures Linked(nodes', heads[j], lists[j])
    {
      assert Linked(nodes, heads[j], lists[j]);
      forall x | x in lists[j]
        ensures SameNode(nodes, nodes', x)
      {
        assert OnList(lists, j, x) && !OnList(lists, k, x) && !OnList(lists, j, a);
      }
      OtherList(nodes, nodes', heads[j], lists[j]);
    }
  }

  lemma UnlinkLists(nodes: Nodes, heads: seq<nat>, lists: seq<seq<nat>>, hdr: Headers, k: nat, i: nat)
    requires ListsOk(nodes, heads, lists) && Listed(hdr, lists) && k <= MAX_ORDER && i < |lists[k]|
    ensures var n := lists[k][i] + HEADER;
            && n in nodes && (nodes[n].prev != 0 ==> nodes[n].prev in nodes) && (nodes[n].next != 0 ==> nodes[n].next in nodes)
            && ListsOk(Unlinked(nodes, n), heads[k := if nodes[n].prev != 0 then heads[k] else nodes[n].next], WithList(lists, k, Removed(lists[k], i)))
            && (nodes[n].prev == 0 <==> i == 0)
  {
    assert Linked(nodes, heads[k], lists[k]);
    Neighbours(nodes, heads[k], lists[k], i);
    Unlink(nodes, heads[k], lists[k], i);
    var n := lists[k][i] + HEADER;
    var nodes' := Unlinked(nodes, n);
    forall j | 0 <= j <= MAX_ORDER && j != k
      ensures Linked(nodes', heads[j], lists[j])
    {
      assert Linked(nodes, heads[j], lists[j]);
      forall x | x in lists[j]
        ensures SameNode(nodes, nodes', x)
      {
        assert OnList(lists, j, x) && !OnList(lists, k, x);
      }
      OtherList(nodes, nodes', heads[j], lists[j]);
    }
  }

  lemma SameLiveTwice(a: Headers, b: Headers, c: Headers, ptr: map<nat, nat>)
    requires SameLive(a, b, ptr) && SameLive(b, c, ptr)
    ensures SameLive(a, c, ptr)
  {
    forall x | x in ptr
      ensures SameHeader(a, c, x)
    {
      assert SameHeader(a, b, x) && SameHeader(b, c, x);
    }
  }

  /** A free block more. */
  lemma OwnedMore(hdr: Headers, ptr: map<nat, nat>, hand: set<nat>, b: nat, h: Header)
    requires AllOwned(hdr, ptr, hand) && (h.isFree || b in hand || b in ptr)
    ensures AllOwned(hdr[b := h], ptr, hand)
  {
    var hdr' := hdr[b := h];
    forall a | a in hdr'
      ensures OwnedIfUsed(hdr', ptr, hand, a)
    {
      if a != b {
        assert OwnedIfUsed(hdr, ptr, hand, a);
      }
    }
  }

  lemma OwnedUsed(hdr: Headers, ptr: map<nat, nat>, back: map<nat, nat>, foot: set<nat>)
    requires LiveOk(hdr, ptr, back, foot)
    ensures forall a :: a in ptr ==> a in hdr && !hdr[a].isFree
  {
    forall a | a in ptr
      ensures a in hdr && !hdr[a].isFree
    {
      assert LiveAt(hdr, ptr, back, foot, a);
    }
  }

  /** Taking the first block of a list. */
  lemma TakenView(s: Shape, k: nat)
    requires Good(s) && k <= MAX_ORDER && s.lists[k] != [] && Distinct(s.lists[k])
    ensures var a, s' := s.lists[k][0], Taken(s, k, 0);
            && a in s.hdr && s.hdr[a].isFree && MIN_ORDER <= k
            && InHand(s', a, k) && |FreeSet(s'.hdr)| == |FreeSet(s.hdr)| - 1 && Asked(s'.hdr) == Asked(s.hdr)
  {
    var a := s.lists[k][0];
    Take(s, k, 0);
    HandOk(Taken(s, k, 0), a, k);
    assert a in FreeSet(s.hdr);
  }

  /** Halving the block in hand, as the headers in memory show it. */
  lemma HalvedView(s: Shape, hdr: Headers, a: nat, k: nat)
    requires InHand(s, a, k + 1) && MIN_ORDER <= k < MAX_ORDER && s.hdr == hdr[a := Header(k + 1, false, 0)] && a in hdr
    ensures a in s.home && a + Size(k) !in hdr
    ensures var s' := Halved(s, a, k);
            && InHand(s', a, k) && |FreeSet(s'.hdr)| == |FreeSet(s.hdr)| + 1 && Asked(s'.hdr) == Asked(s.hdr)
  {
    Halve(s, a, k);
    CardinalityOfInsert(FreeSet(s.hdr), FreeSet(Halved(s, a, k).hdr), a + Size(k));
  }

  lemma PopDefined(st: State, k: nat)
    requires Valid(st) && k <= MAX_ORDER && st.lists[k] != []
    ensures CanPop(st, k) && st.heads[k] == st.lists[k][0] + HEADER
  {
    assert Linked(st.nodes, st.heads[k], st.lists[k]);
    UnlinkLists(st.nodes, st.heads, st.lists, st.hdr, k, 0);
    TakenView(ShapeOf(st), k);
  }

  lemma PushDefined(st: State, k: nat)
    requires ListsOk(st.nodes, st.heads, st.lists) && k <= MAX_ORDER
    ensures CanPush(st, k)
  {
    assert Linked(st.nodes, st.heads[k], st.lists[k]);
    assert st.lists[k] != [] ==> LinkOk(st.nodes, st.lists[k], 0);
  }

  lemma PoppedHeld(st: State, k: nat)
    requires Valid(st) && k <= MAX_ORDER && st.lists[k] != []
    ensures CanPop(st, k) && MIN_ORDER <= k && Held(Popped(st, k), st.lists[k][0], k)
  {
    var a := st.lists[k][0];
    PopDefined(st, k);
    var st' := Popped(st, k);
    assert Linked(st.nodes, st.heads[k], st.lists[k]);
    TakenView(ShapeOf(st), k);
    UnlinkLists(st.nodes, st.heads, st.lists, st.hdr, k, 0);
    OwnedUsed(st.hdr, st.ptr, st.back, st.foot);
    forall b | b in st.hdr
      ensures OwnedIfUsed(st.hdr, st.ptr, {a}, b)
    {
      assert OwnedIfUsed(st.hdr, st.ptr, {}, b);
    }
    assert Holding(st', a, k) == Taken(ShapeOf(st), k, 0);
  }

  /** Live allocations whose headers stay stay in order. */
  lemma SameLiveOk(hdr: Headers, hdr': Headers, ptr: map<nat, nat>, back: map<nat, nat>, foot: set<nat>)
    requires LiveOk(hdr, ptr, back, foot) && SameLive(hdr, hdr', ptr)
    ensures LiveOk(hdr', ptr, back, foot)
  {
    forall a | a in ptr
      ensures LiveAt(hdr', ptr, back, foot, a)
    {
      assert LiveAt(hdr, ptr, back, foot, a) && SameHeader(hdr, hdr', a);
    }
  }

  /** The upper half of the block in hand, as the headers in memory show it. */
  lemma HalvedIs(st: State, a: nat, k: nat)
    requires CanPush(st, k) && a in st.home
    ensures Holding(HalvedState(st, a, k), a, k) == Halved(Holding(st, a, k + 1), a, k)
  {
    var b := a + Size(k);
    assert st.hdr[b := Header(k, true, 0)][a := Header(k, false, 0)] == SplitAt(st.hdr[a := Header(k + 1, false, 0)], a, k);
  }

  /** A header nobody's block has. */
  lemma NotLive(hdr: Headers, ptr: map<nat, nat>, b: nat, h: Header)
    requires b !in ptr || b !in hdr
    ensures SameLive(hdr, hdr[b := h], ptr)
  {
  }

  lemma HalvedCounted(st: State, a: nat, k: nat)
    requires InHand(Holding(st, a, k), a, k) && MIN_ORDER < k <= MAX_ORDER && CanPush(st, k - 1) && a in st.home && a in st.hdr
    requires Counted(st, Holding(st, a, k).hdr)
    ensures var st' := HalvedState(st, a, k - 1);
            InHand(Holding(st', a, k - 1), a, k - 1) && Counted(st', Holding(st', a, k - 1).hdr) && a + Size(k - 1) !in st.hdr
  {
    HalvedView(Holding(st, a, k), st.hdr, a, k - 1);
    HalvedIs(st, a, k - 1);
  }

  lemma HalvedLists(st: State, a: nat, k: nat)
    requires ListsOk(st.nodes, st.heads, st.lists) && InHand(Holding(st, a, k), a, k) && 0 < k <= MAX_ORDER
    requires a in st.home && a + Size(k - 1) !in st.hdr
    ensures CanPush(st, k - 1)
    ensures var st' := HalvedState(st, a, k - 1); ListsOk(st'.nodes, st'.heads, st'.lists)
  {
    PushDefined(st, k - 1);
    PushLists(st.nodes, st.heads, st.lists, Holding(st, a, k).hdr, k - 1, a + Size(k - 1));
  }

  lemma HalvedOwned(st: State, a: nat, k: nat)
    requires Owned(st, {a}) && CanPush(st, k) && a in st.home && a + Size(k) !in st.hdr
    ensures Owned(HalvedState(st, a, k), {a}) && SameLive(st.hdr, HalvedState(st, a, k).hdr, st.ptr)
  {
    NotLive(st.hdr, st.ptr, a + Size(k), Header(k, true, 0));
    OwnedMore(st.hdr, st.ptr, {a}, a + Size(k), Header(k, true, 0));
    SameLiveOk(st.hdr, HalvedState(st, a, k).hdr, st.ptr, st.back, st.foot);
  }

  lemma HalvedHeld(st: State, a: nat, k: nat)
    requires Held(st, a, k) && MIN_ORDER < k <= MAX_ORDER
    ensures CanPush(st, k - 1) && a in st.home && Held(HalvedState(st, a, k - 1), a, k - 1)
    ensures SameLive(st.hdr, HalvedState(st, a, k - 1).hdr, st.ptr)
  {
    HandOk(Holding(st, a, k), a, k);
    PushDefined(st, k - 1);
    HalvedCounted(st, a, k);
    HalvedLists(st, a, k);
    HalvedOwned(st, a, k - 1);
  }

  lemma AlignUpIs(x: nat, align: nat)
    requires align > 0
    ensures AlignUp(x, align) % align == 0 && x <= AlignUp(x, align) < x + align
  {
    var n := x + align - 1;
    var q := n / align;
    assert n == align * q + n % align;
    Quotient(align * q, align, q, 0);
  }

  lemma PayloadFits(a: nat, k: nat, size: nat, align: nat)
    requires align > 0 && Needed(size, align) <= Size(k)
    ensures var p := PayloadOf(a, align);
            p % align == 0 && a + HEADER + BACK_LINK <= p && p + size + FOOTER <= a + Size(k)
  {
    AlignUpIs(a + HEADER + BACK_LINK, align);
  }

  lemma GrantedCounted(st: State, a: nat, k: nat, size: nat, p: nat)
    requires InHand(Holding(st, a, k), a, k) && Counted(st, Holding(st, a, k).hdr) && Size(k) >= FOOTER
    ensures var st' := Granted(st, a, k, size, p); Good(ShapeOf(st')) && Counted(st', st'.hdr)
  {
    var s, st' := Holding(st, a, k), Granted(st, a, k, size, p);
    Resize(s, a, size);
    assert st'.hdr == Resized(s, a, size).hdr;
    assert ShapeOf(st') == Resized(s, a, size);
  }

  /** Payloads of different blocks are apart. */
  lemma PayloadsApart(hdr: Headers, ptr: map<nat, nat>, back: map<nat, nat>, foot: set<nat>, a: nat, b: nat)
    requires BlocksApart(hdr) && LiveOk(hdr, ptr, back, foot) && a in ptr && b in hdr && a != b
    ensures LiveAt(hdr, ptr, back, foot, a)
    ensures ptr[a] + hdr[a].userSize <= b || b + Size(hdr[b].order) <= ptr[a]
  {
    assert LiveAt(hdr, ptr, back, foot, a);
    assert a < b ==> Before(hdr, a, b);
    assert b < a ==> Before(hdr, b, a);
  }

  lemma GrantedOwned(st: State, a: nat, k: nat, size: nat, p: nat)
    requires Owned(st, {a}) && a !in st.ptr && BlocksApart(st.hdr[a := Header(k, false, 0)]) && Size(k) >= FOOTER
    requires a + HEADER + BACK_LINK <= p && p + size + FOOTER <= a + Size(k)
    ensures Owned(Granted(st, a, k, size, p), {}) && SameLive(st.hdr, Granted(st, a, k, size, p).hdr, st.ptr)
  {
    var st', h := Granted(st, a, k, size, p), st.hdr[a := Header(k, false, 0)];
    NotLive(st.hdr, st.ptr, a, Header(k, false, 0));
    NotLive(st.hdr, st.ptr, a, Header(k, false, size));
    forall b | b in st'.hdr
      ensures OwnedIfUsed(st'.hdr, st'.ptr, {}, b)
    {
      if b != a {
        assert OwnedIfUsed(st.hdr, st.ptr, {a}, b);
      }
    }
    SameLiveOk(st.hdr, h, st.ptr, st.back, st.foot);
    forall b | b in st'.ptr
      ensures LiveAt(st'.hdr, st'.ptr, st'.back, st'.foot, b)
    {
      if b != a {
        assert LiveAt(st.hdr, st.ptr, st.back, st.foot, b);
        PayloadsApart(h, st.ptr, st.back, st.foot, b, a);
      }
    }
  }

  lemma GrantedValid(st: State, a: nat, k: nat, size: nat, p: nat)
    requires Held(st, a, k) && Size(k) >= FOOTER
    requires a + HEADER + BACK_LINK <= p && p + size + FOOTER <= a + Size(k)
    ensures Valid(Granted(st, a, k, size, p)) && SameLive(st.hdr, Granted(st, a, k, size, p).hdr, st.ptr)
  {
    GrantedCounted(st, a, k, size, p);
    GrantedOwned(st, a, k, size, p);
  }

  lemma PutByte(data: map<nat, nat>, at: nat, value: nat)
    ensures forall x {:trigger Byte(data[at := value], x)} :: 0 <= x ==>
              Byte(data[at := value], x) == if x == at then value else Byte(data, x)
  {
  }

  lemma CarvedIs(st: State, cov: seq<nat>, k: nat)
    requires st.arenas != [] && |cov| == |st.arenas| && CanPush(st, k) && CanCarveNext(Carving(st, cov), k)
    ensures var at := st.arenas[|cov| - 1].base + cov[|cov| - 1];
            Carving(CarvedState(st, at, k), Covering(cov, k)) == CarvedNext(Carving(st, cov), k)
  {
  }

  lemma CarvedShape(st: State, cov: seq<nat>, k: nat)
    requires st.arenas != [] && |cov| == |st.arenas| && CanPush(st, k) && CanCarveNext(Carving(st, cov), k)
    ensures var at := st.arenas[|cov| - 1].base + cov[|cov| - 1];
            var st' := CarvedState(st, at, k);
            && Good(Carving(st', Covering(cov, k)))
            && MaximalSoFar(st'.arenas, st'.hdr, st'.home, |st'.arenas| - 1)
  {
    CarveNext(Carving(st, cov), k);
    CarvedIs(st, cov, k);
  }

  lemma CarvedCounted(st: State, cov: seq<nat>, k: nat)
    requires st.arenas != [] && |cov| == |st.arenas| && CanPush(st, k) && CanCarveNext(Carving(st, cov), k) && Counted(st, st.hdr)
    ensures var at := st.arenas[|cov| - 1].base + cov[|cov| - 1];
            at !in st.hdr && Counted(CarvedState(st, at, k), CarvedState(st, at, k).hdr)
  {
    var at := st.arenas[|cov| - 1].base + cov[|cov| - 1];
    CarvedListed(Carving(st, cov), k);
    CarvedIs(st, cov, k);
    CardinalityOfInsert(FreeSet(st.hdr), FreeSet(CarvedState(st, at, k).hdr), at);
  }

  lemma CarvedOwned(st: State, at: nat, k: nat)
    requires Owned(st, {}) && CanPush(st, k) && st.arenas != [] && at !in st.hdr
    ensures Owned(CarvedState(st, at, k), {})
  {
    NotLive(st.hdr, st.ptr, at, Header(k, true, 0));
    OwnedMore(st.hdr, st.ptr, {}, at, Header(k, true, 0));
    SameLiveOk(st.hdr, CarvedState(st, at, k).hdr, st.ptr, st.back, st.foot);
  }

  lemma CarvedInside(st: State, cov: seq<nat>, base: nat, size: nat, at: nat, k: nat)
    requires CarvingOk(st, cov) && CarvedTo(st.arenas, cov, base, size, at) && NextOrder(at - base, size, k)
    ensures CanPush(st, k) && |cov| == |st.arenas| && CanCarveNext(Carving(st, cov), k)
    ensures at == st.arenas[|cov| - 1].base + cov[|cov| - 1]
  {
    PushDefined(st, k);
  }

  lemma CarvedLists(st: State, at: nat, k: nat)
    requires ListsOk(st.nodes, st.heads, st.lists) && Listed(st.hdr, st.lists) && CanPush(st, k) && st.arenas != [] && at !in st.hdr
    ensures var st' := CarvedState(st, at, k); ListsOk(st'.nodes, st'.heads, st'.lists)
  {
    PushLists(st.nodes, st.heads, st.lists, st.hdr, k, at);
  }

  lemma CarvedAt(st: State, cov: seq<nat>, at: nat, k: nat)
    requires CarvingOk(st, cov) && |cov| == |st.arenas| && CanPush(st, k) && CanCarveNext(Carving(st, cov), k)
    requires at == st.arenas[|cov| - 1].base + cov[|cov| - 1]
    ensures at !in st.hdr && CarvingOk(CarvedState(st, at, k), Covering(cov, k))
  {
    CarvedShape(st, cov, k);
    CarvedCounted(st, cov, k);
    CarvedLists(st, at, k);
    CarvedOwned(st, at, k);
  }

  lemma CarvedOk(st: State, cov: seq<nat>, base: nat, size: nat, at: nat, k: nat)
    requires CarvingOk(st, cov) && CarvedTo(st.arenas, cov, base, size, at) && NextOrder(at - base, size, k)
    ensures CanPush(st, k) && |cov| == |st.arenas|
    ensures at !in st.hdr && CarvingOk(CarvedState(st, at, k), Covering(cov, k))
  {
    CarvedInside(st, cov, base, size, at, k);
    CarvedAt(st, cov, at, k);
  }

  lemma ZeroAligned(k: nat)
    ensures Aligned(0, k)
  {
    StartZero(k);
    UpStart(k, 0);
  }

  lemma FirstIsLargest(size: nat, k: nat, j: nat)
    requires NextOrder(0, size, k) && j <= MAX_ORDER && Size(j) <= size
    ensures j <= k
  {
    if j > k {
      SizeMono(k + 1, j);
      ZeroAligned(k + 1);
    }
  }

  lemma CarvedFirst(hdr: Headers, base: nat, size: nat, k: nat)
    requires NextOrder(0, size, k)
    ensures LargestFirst(hdr[base := Header(k, true, 0)], base, size)
  {
    forall j | 0 <= j <= MAX_ORDER && Size(j) <= size
      ensures j <= k
    {
      FirstIsLargest(size, k, j);
    }
  }

  lemma CarvedFurther(arenas: Arenas, cov: seq<nat>, base: nat, size: nat, current: nat, k: nat)
    requires CarvedTo(arenas, cov, base, size, current) && NextOrder(current - base, size, k)
    ensures cov != [] && CarvedTo(arenas, Covering(cov, k), base, size, current + Size(k))
  {
    AlignedEnd(current - base, k, MIN_ORDER);
  }

  lemma LargestStays(hdr: Headers, base: nat, size: nat, current: nat, k: nat)
    requires base <= current && NextOrder(current - base, size, k) && current !in hdr
    requires current > base ==> LargestFirst(hdr, base, size)
    ensures LargestFirst(hdr[current := Header(k, true, 0)], base, size)
  {
    if current == base {
      CarvedFirst(hdr, base, size, k);
    }
  }

  lemma CarvedOn(was: Headers, st: State, cov: seq<nat>, base: nat, size: nat, current: nat, k: nat)
    requires CarvedMore(was, st, cov, base, size, current) && NextOrder(current - base, size, k)
    requires CanPush(st, k) && current !in st.hdr
    ensures cov != [] && st.arenas != []
    ensures CarvedMore(was, CarvedState(st, current, k), Covering(cov, k), base, size, current + Size(k))
  {
    CarvedFurther(st.arenas, cov, base, size, current, k);
    LargestStays(st.hdr, base, size, current, k);
    NotLive(st.hdr, st.ptr, current, Header(k, true, 0));
    SameLiveTwice(was, st.hdr, CarvedState(st, current, k).hdr, st.ptr);
  }

  lemma CarveStep(was: Headers, st: State, cov: seq<nat>, base: nat, size: nat, current: nat, k: nat)
    requires CarveInv(was, st, cov, base, size, current) && NextOrder(current - base, size, k)
    ensures CanPush(st, k) && cov != [] && st.arenas != []
    ensures CarveInv(was, CarvedState(st, current, k), Covering(cov, k), base, size, current + Size(k))
  {
    CarvedOk(st, cov, base, size, current, k);
    CarvedOn(was, st, cov, base, size, current, k);
  }

  /** When no more fits, all is carved. */
  lemma CarveEnd(was: Headers, st: State, cov: seq<nat>, base: nat, size: nat, current: nat)
    requires CarveInv(was, st, cov, base, size, current) && base + size - current < Size(MIN_ORDER)
    ensures Valid(st) && st.arenas != [] && MaximalSoFar(st.arenas, st.hdr, st.home, |st.arenas| - 1)
    ensures SameLive(was, st.hdr, st.ptr) && Stocked(st.lists, size)
  {
    CarveDone(st.arenas, cov, base, size, current);
    LargestIsStocked(st.hdr, st.lists, base, size);
  }

  /** When no more fits, the arena is covered. */
  lemma CarveDone(arenas: Arenas, cov: seq<nat>, base: nat, size: nat, current: nat)
    requires CarvedTo(arenas, cov, base, size, current) && base + size - current < Size(MIN_ORDER)
    ensures cov == Extents(arenas)
  {
    var off := current - base;
    assert Size(MIN_ORDER) == 64;
    StartMul(MIN_ORDER, Up(off, MIN_ORDER));
    assert off == 64 * Up(off, MIN_ORDER);
    assert off == Extent(size);
  }

  lemma LargestIsStocked(hdr: Headers, lists: seq<seq<nat>>, base: nat, size: nat)
    requires Listed(hdr, lists) && (size >= Size(MIN_ORDER) ==> LargestFirst(hdr, base, size))
    ensures Stocked(lists, size)
  {
    forall k | MIN_ORDER <= k <= MAX_ORDER && Size(k) <= size
      ensures exists j :: k <= j <= MAX_ORDER && j < |lists| && lists[j] != []
    {
      SizeMono(MIN_ORDER, k);
      var j := hdr[base].order;
      assert OnList(lists, j, base);
    }
  }

  /** A new arena, clear of the others, is ready to be carved. */
  lemma AddedOk(st: State, base: nat, size: nat)
    requires Valid(st) && ClearOfAll(st.arenas, Arena(base, size))
    ensures CarveInv(st.hdr, st.(arenas := st.arenas + [Arena(base, size)]), Extents(st.arenas) + [0], base, size, base)
  {
    var arena := Arena(base, size);
    var st', cov: seq<nat> := st.(arenas := st.arenas + [arena]), Extents(st.arenas) + [0];
    Add(ShapeOf(st), arena);
    assert Carving(st', cov) == Added(ShapeOf(st), arena);
    ZeroAligned(MIN_ORDER);
    SameItself(st.hdr, st.ptr);
  }

  lemma SameItself(hdr: Headers, ptr: map<nat, nat>)
    ensures SameLive(hdr, hdr, ptr)
  {
  }

  /** Larger blocks have larger orders. */
  lemma SizeOrder(m: nat, k: nat)
    ensures Size(m) >= Size(k) <==> m >= k
    ensures Size(m) == Size(k) <==> m == k
  {
    if m > k {
      SizeMono(k + 1, m);
    } else if m < k {
      SizeMono(m + 1, k);
    }
  }

  /** The first order that is large enough is the smallest. */
  lemma FirstIsSmallest(order: nat, bytes: nat, o: nat)
    requires MIN_ORDER <= order <= MAX_ORDER + 1 && (order <= MAX_ORDER ==> bytes <= Size(order))
    requires forall k :: MIN_ORDER <= k < order ==> Size(k) < bytes
    ensures Smallest(o, bytes) <==> order <= MAX_ORDER && o == order
  {
    if o > order {
      SizeMono(order, o - 1);
    }
  }

  /** So an allocation succeeds exactly when there is a block for that order, or can be. */
  lemma WhenAllocatable(order: nat, lists: seq<seq<nat>>, arenas: Arenas, frames: nat -> nat, size: nat, align: nat)
    requires |lists| == MAX_ORDER + 1 && align > 0 && size > 0 && MIN_ORDER <= order <= MAX_ORDER + 1
    requires (order <= MAX_ORDER ==> Needed(size, align) <= Size(order))
    requires forall k :: MIN_ORDER <= k < order ==> Size(k) < Needed(size, align)
    ensures order <= MAX_ORDER ==> Smallest(order, Needed(size, align))
    ensures Allocatable(lists, arenas, frames, size, align)
            <==> order <= MAX_ORDER && (Stock(lists, order) || CanExtend(frames, arenas, order))
  {
    FirstIsSmallest(order, Needed(size, align), order);
    if o: nat :| Smallest(o, Needed(size, align)) && (Stock(lists, o) || CanExtend(frames, arenas, o)) {
      FirstIsSmallest(order, Needed(size, align), o);
    }
  }

  lemma ChunkSize(k: nat)
    requires k <= MAX_ORDER
    ensures GROW_CHUNK == Size(24) && Size(12) == PAGE
    ensures (if GROW_CHUNK < Size(k) then Size(k) else GROW_CHUNK) == Size(if k > 24 then k else 24)
  {
    assert Size(12) == PAGE;
    assert Size(24) == GROW_CHUNK;
    if k > 24 {
      SizeMono(24, k);
    } else {
      SizeMono(k, 24);
    }
  }

  lemma {:induction false} DoubledIs(k: nat, least: nat)
    ensures exists j :: j >= k && Doubled(Size(k), least) == Size(j)
    ensures Doubled(Size(k), least) >= least
    ensures Size(k) >= least ==> Doubled(Size(k), least) == Size(k)
    ensures Size(k) < least ==> Doubled(Size(k), least) < 2 * least
    decreases least - Size(k)
  {
    if Size(k) < least {
      assert Size(k + 1) == 2 * Size(k);
      DoubledIs(k + 1, least);
      var j :| j >= k + 1 && Doubled(Size(k + 1), least) == Size(j);
    }
  }

  /** A power of two of at least 16 stays as it is, and what is not becomes the next one. */
  lemma RoundedIs(align: nat)
    ensures Rounded(align) >= 16 && Rounded(align) >= align
    ensures exists j :: Rounded(align) == Size(j)
    ensures if align <= 16 then Rounded(align) == 16 else Rounded(align) < 2 * align
  {
    assert Size(0) == 1;
    DoubledIs(0, if align < 16 then 16 else align);
    assert Rounded(16) == 16;
  }

  lemma MaxSize()
    ensures Size(MAX_ORDER) == 0x4000_0000
  {
    assert Size(12) == PAGE;
    assert Size(24) == GROW_CHUNK;
  }

  /** Whether a payload fits the block the code picks for it is whether the sum stayed in 64 bits. */
  lemma FitsUnlessWrapped(size: nat, align: nat, k: nat)
    requires size < WORD && 16 <= align <= WORD / 2 && k <= MAX_ORDER
    requires Needed(size, align) % WORD <= Size(k)
    ensures NoWrap(size, align) ==> forall a {:trigger PayloadOf(a, align)} :: 0 <= a ==> PayloadOf(a, align) + size + FOOTER <= a + Size(k)
    ensures !NoWrap(size, align) ==> forall a {:trigger PayloadOf(a, align)} :: 0 <= a ==> PayloadOf(a, align) + size + FOOTER > a + Size(k)
  {
    if NoWrap(size, align) {
      forall a | 0 <= a
        ensures PayloadOf(a, align) + size + FOOTER <= a + Size(k)
      {
        PayloadFits(a, k, size, align);
      }
    } else {
      SizeMono(k, MAX_ORDER);
      MaxSize();
      forall a | 0 <= a
        ensures PayloadOf(a, align) + size + FOOTER > a + Size(k)
      {
        AlignUpIs(a + HEADER + BACK_LINK, align);
      }
    }
  }

  /** The smallest request that wraps with the smallest alignment asks for nothing at all. */
  lemma WrapsToNothing()
    ensures Needed(WORD - 71, 16) % WORD == 0 && !NoWrap(WORD - 71, 16) && NoWrap(WORD - 72, 16)
    ensures forall a {:trigger PayloadOf(a, 16)} :: 0 <= a ==> PayloadOf(a, 16) + (WORD - 71) > a + Size(MIN_ORDER)
  {
  }

  // ------------------------------------------------------------------------
  // Freeing
  // ------------------------------------------------------------------------

  lemma ReleasedCounted(st: State, a: nat)
    requires Good(ShapeOf(st)) && Counted(st, st.hdr) && a in st.hdr && !st.hdr[a].isFree
    ensures CanRelease(st, a)
    ensures var st', k := Released(st, a), st.hdr[a].order;
            InHand(Holding(st', a, k), a, k) && Counted(st', Holding(st', a, k).hdr)
  {
    var s, k := ShapeOf(st), st.hdr[a].order;
    AskedWithout(st.hdr, a);
    Resize(s, a, 0);
    assert Holding(Released(st, a), a, k) == Resized(s, a, 0);
  }

  lemma ReleasedOwned(st: State, a: nat)
    requires Owned(st, {}) && CanRelease(st, a)
    ensures Owned(Released(st, a), {a}) && SameLive(st.hdr, Released(st, a).hdr, Released(st, a).ptr)
  {
    var st' := Released(st, a);
    NotLive(st.hdr, st'.ptr, a, st.hdr[a].(userSize := 0));
    forall b | b in st'.ptr
      ensures LiveAt(st'.hdr, st'.ptr, st'.back, st'.foot, b)
    {
      assert LiveAt(st.hdr, st.ptr, st.back, st.foot, b);
    }
    forall b | b in st'.hdr
      ensures OwnedIfUsed(st'.hdr, st'.ptr, {a}, b)
    {
      assert OwnedIfUsed(st.hdr, st.ptr, {}, b);
    }
  }

  lemma ReleasedHeld(st: State, a: nat)
    requires Valid(st) && a in st.ptr
    ensures CanRelease(st, a) && Held(Released(st, a), a, st.hdr[a].order)
    ensures SameLive(st.hdr, Released(st, a).hdr, Released(st, a).ptr)
  {
    assert LiveAt(st.hdr, st.ptr, st.back, st.foot, a);
    ReleasedCounted(st, a);
    ReleasedOwned(st, a);
  }

  /** Where the buddy of the block in hand is, there is a block: what `kfree` reads is a header. */
  lemma BuddyIsBlock(st: State, a: nat, k: nat)
    requires Held(st, a, k)
    ensures a in st.home && st.home[a] < |st.arenas| && st.arenas[st.home[a]].base <= a && MIN_ORDER <= k <= MAX_ORDER
    ensures Aligned(a - st.arenas[st.home[a]].base, k)
    ensures var b, arena := BuddyAt(Holding(st, a, k), a, k), st.arenas[st.home[a]];
            && b != a
            && (b + Size(k) <= arena.base + arena.size ==> b in st.hdr && b in st.home && st.home[b] == st.home[a])
  {
    var s := Holding(st, a, k);
    HeldPlace(st, a, k);
    BuddyStarts(s.arenas, s.cov, s.hdr, s.home, a);
    BuddyIs(a - s.arenas[s.home[a]].base, k);
  }

  lemma HeldPlace(st: State, a: nat, k: nat)
    requires Held(st, a, k)
    ensures a in st.home && st.home[a] < |st.arenas| && st.arenas[st.home[a]].base <= a && MIN_ORDER <= k <= MAX_ORDER
    ensures Aligned(a - st.arenas[st.home[a]].base, k)
    ensures var s := Holding(st, a, k); BlockOk(s.arenas, s.cov, s.hdr, s.home, a)
  {
    HandOk(Holding(st, a, k), a, k);
  }

  lemma MergedShape(st: State, a: nat, b: nat, k: nat, i: nat)
    requires InHand(Holding(st, a, k), a, k) && Counted(st, Holding(st, a, k).hdr) && a in st.hdr && k < MAX_ORDER
    requires CanMerge(st, b, k, i) && Distinct(st.lists[k]) && b != a
    requires a in st.home && st.home[a] < |st.arenas| && st.arenas[st.home[a]].base <= a && b == BuddyAt(Holding(st, a, k), a, k)
    requires b in st.home && st.home[b] == st.home[a]
    ensures var st', lo := Merged(st, a, b, k, i), if b < a then b else a;
            InHand(Holding(st', lo, k + 1), lo, k + 1) && Counted(st', Holding(st', lo, k + 1).hdr)
  {
    var s := Holding(st, a, k);
    HandOk(s, a, k);
    JoinedTaken(s, a, b, k, i);
    MergedIs(st, a, b, k, i);
  }

  /** With its buddy off its list, a block in hand is joined to it. */
  lemma JoinedTaken(s: Shape, a: nat, b: nat, k: nat, i: nat)
    requires InHand(s, a, k) && MIN_ORDER <= k < MAX_ORDER && CanTake(s, k, i) && s.lists[k][i] == b && b != a
    requires a in s.home && s.home[a] < |s.arenas| && s.arenas[s.home[a]].base <= a && b == BuddyAt(s, a, k)
    requires b in s.home && s.home[b] == s.home[a]
    ensures if b < a then b + Size(k) == a else a + Size(k) == b
    ensures var lo := if b < a then b else a;
            var s' := Joined(Taken(s, k, i), lo, k);
            && b in FreeSet(s.hdr) && InHand(s', lo, k + 1)
            && FreeSet(s'.hdr) == FreeSet(s.hdr) - {b} && Asked(s'.hdr) == Asked(s.hdr)
  {
    Take(s, k, i);
    var t := Taken(s, k, i);
    HandOk(t, a, k);
    BuddyPairs(t, a, k);
    Join(t, if b < a then b else a, k);
  }

  lemma MergedIs(st: State, a: nat, b: nat, k: nat, i: nat)
    requires CanMerge(st, b, k, i) && b != a && (if b < a then b + Size(k) == a else a + Size(k) == b)
    ensures var lo := if b < a then b else a;
            Holding(Merged(st, a, b, k, i), lo, k + 1) == Joined(Taken(Holding(st, a, k), k, i), lo, k)
  {
    var lo, hi := if b < a then b else a, if b < a then a else b;
    assert (st.hdr - {hi})[lo := Header(k + 1, false, 0)] ==
           (st.hdr[a := Header(k, false, 0)][b := Header(k, false, 0)] - {hi})[lo := Header(k + 1, false, 0)];
  }

  lemma MergedOwned(st: State, a: nat, b: nat, k: nat, i: nat)
    requires Owned(st, {a}) && CanMerge(st, b, k, i) && a !in st.ptr && b !in st.ptr && b != a
    ensures Owned(Merged(st, a, b, k, i), {if b < a then b else a}) && SameLive(st.hdr, Merged(st, a, b, k, i).hdr, st.ptr)
  {
    var st', lo := Merged(st, a, b, k, i), if b < a then b else a;
    forall x | x in st.ptr
      ensures SameHeader(st.hdr, st'.hdr, x)
    {
    }
    SameLiveOk(st.hdr, st'.hdr, st.ptr, st.back, st.foot);
    forall x | x in st'.hdr
      ensures OwnedIfUsed(st'.hdr, st'.ptr, {lo}, x)
    {
      assert OwnedIfUsed(st.hdr, st.ptr, {a}, x);
    }
  }

  /** Merging with a free buddy of the same order. */
  lemma MergedHeld(st: State, a: nat, k: nat) returns (i: nat)
    requires Held(st, a, k) && k < MAX_ORDER
    requires a in st.home && st.home[a] < |st.arenas| && st.arenas[st.home[a]].base <= a
    requires var b := BuddyAt(Holding(st, a, k), a, k);
             b != a && b in st.hdr && st.hdr[b].isFree && st.hdr[b].order == k && b in st.home && st.home[b] == st.home[a]
    ensures var b := BuddyAt(Holding(st, a, k), a, k);
            && CanMerge(st, b, k, i)
            && Held(Merged(st, a, b, k, i), if b < a then b else a, k + 1)
            && SameLive(st.hdr, Merged(st, a, b, k, i).hdr, st.ptr)
  {
    var s := Holding(st, a, k);
    var b := BuddyAt(s, a, k);
    assert OnList(st.lists, k, b);
    i :| 0 <= i < |st.lists[k]| && st.lists[k][i] == b;
    assert Linked(st.nodes, st.heads[k], st.lists[k]);
    UnlinkLists(st.nodes, st.heads, st.lists, s.hdr, k, i);
    OwnedUsed(st.hdr, st.ptr, st.back, st.foot);
    assert b in FreeSet(s.hdr);
    MergedShape(st, a, b, k, i);
    MergedOwned(st, a, b, k, i);
  }

  /** The block in hand, with nothing to merge with, goes onto its list. */
  lemma ShelvedValid(st: State, a: nat, k: nat)
    requires Held(st, a, k) && MIN_ORDER <= k <= MAX_ORDER && BuddyBusy(Holding(st, a, k), a, k)
    ensures CanPush(st, k) && Valid(Shelved(st, a, k)) && SameLive(st.hdr, Shelved(st, a, k).hdr, st.ptr)
  {
    PushDefined(st, k);
    ShelvedCounted(st, a, k);
    PushLists(st.nodes, st.heads, st.lists, Holding(st, a, k).hdr, k, a);
    ShelvedOwned(st, a, k);
  }

  lemma ShelvedCounted(st: State, a: nat, k: nat)
    requires InHand(Holding(st, a, k), a, k) && MIN_ORDER <= k <= MAX_ORDER && BuddyBusy(Holding(st, a, k), a, k)
    requires CanPush(st, k) && Counted(st, Holding(st, a, k).hdr)
    ensures Good(ShapeOf(Shelved(st, a, k))) && Counted(Shelved(st, a, k), Shelved(st, a, k).hdr)
  {
    var s, st' := Holding(st, a, k), Shelved(st, a, k);
    GiveBack(s, a, k);
    assert st'.hdr == PutBack(s, a, k).hdr;
    assert ShapeOf(st') == PutBack(s, a, k);
    CardinalityOfInsert(FreeSet(s.hdr), FreeSet(st'.hdr), a);
  }

  lemma ShelvedOwned(st: State, a: nat, k: nat)
    requires Owned(st, {a}) && CanPush(st, k) && a !in st.ptr
    ensures Owned(Shelved(st, a, k), {}) && SameLive(st.hdr, Shelved(st, a, k).hdr, st.ptr)
  {
    var st' := Shelved(st, a, k);
    NotLive(st.hdr, st.ptr, a, Header(k, true, 0));
    SameLiveOk(st.hdr, st'.hdr, st.ptr, st.back, st.foot);
    forall b | b in st'.hdr
      ensures OwnedIfUsed(st'.hdr, st'.ptr, {}, b)
    {
      if b != a {
        assert OwnedIfUsed(st.hdr, st.ptr, {a}, b);
      }
    }
  }

  lemma BuddyXor(s: Shape, a: nat, k: nat)
    requires a in s.home && s.home[a] < |s.arenas| && s.arenas[s.home[a]].base <= a && Aligned(a - s.arenas[s.home[a]].base, k)
    ensures var base := s.arenas[s.home[a]].base; BuddyAt(s, a, k) == base + Xor(a - base, Size(k))
  {
    XorAt(a - s.arenas[s.home[a]].base, k);
  }

  /** Merging stops only where there is nothing to merge with. */
  lemma NothingToMerge(st: State, a: nat, k: nat)
    requires Held(st, a, k) && k < MAX_ORDER
    requires a in st.home && st.home[a] < |st.arenas| && st.arenas[st.home[a]].base <= a
    requires var b, arena := BuddyAt(Holding(st, a, k), a, k), st.arenas[st.home[a]];
             b != a && (b + Size(k) > arena.base + arena.size || (b in st.hdr && !(st.hdr[b].isFree && st.hdr[b].order == k)))
    ensures BuddyBusy(Holding(st, a, k), a, k)
  {
    HandOk(Holding(st, a, k), a, k);
    BusyUnless(Holding(st, a, k), a, k);
  }

  /** The arena `find_arena` finds is the block's own. */
  lemma ArenaFound(st: State, a: nat, i: nat)
    requires Valid(st) && a in st.ptr && i <= |st.arenas|
    requires i < |st.arenas| ==> st.arenas[i].base <= a < st.arenas[i].base + st.arenas[i].size
    requires i == |st.arenas| ==> forall j :: 0 <= j < |st.arenas| ==> !(st.arenas[j].base <= a < st.arenas[j].base + st.arenas[j].size)
    ensures i < |st.arenas| && a in st.home && st.home[a] == i
  {
    var s := ShapeOf(st);
    assert LiveAt(st.hdr, st.ptr, st.back, st.foot, a);
    assert BlockOk(s.arenas, s.cov, s.hdr, s.home, a);
    assert i < |st.arenas|;
    OneArena(st.arenas, st.home[a], i, a);
  }

  /** What `kfree` checks of a live pointer: its header and its footer are sound. */
  lemma ChecksPass(st: State, p: nat)
    requires Valid(st) && IsLive(st, p)
    ensures var a := st.back[p];
            !st.hdr[a].isFree && Size(st.hdr[a].order) >= FOOTER && a + Size(st.hdr[a].order) - FOOTER in st.foot
  {
    assert LiveAt(st.hdr, st.ptr, st.back, st.foot, st.back[p]);
  }

  lemma InPlaceValid(st: State, a: nat, size: nat)
    requires Valid(st) && a in st.ptr && a in st.hdr && st.ptr[a] + size + FOOTER <= a + Size(st.hdr[a].order)
    ensures CanRelease(st, a) && Valid(InPlace(st, a, size))
    ensures SameLive(st.hdr, InPlace(st, a, size).hdr, WithoutKey(st.ptr, a))
  {
    assert LiveAt(st.hdr, st.ptr, st.back, st.foot, a);
    var s := ShapeOf(st);
    AskedWithout(st.hdr, a);
    Resize(s, a, size);
    var st' := InPlace(st, a, size);
    assert ShapeOf(st') == Resized(s, a, size);
    InPlaceOwned(st, a, size);
  }

  lemma InPlaceOwned(st: State, a: nat, size: nat)
    requires Owned(st, {}) && CanRelease(st, a) && a in st.ptr && st.ptr[a] + size + FOOTER <= a + Size(st.hdr[a].order)
    ensures Owned(InPlace(st, a, size), {})
    ensures SameLive(st.hdr, InPlace(st, a, size).hdr, WithoutKey(st.ptr, a))
  {
    var st' := InPlace(st, a, size);
    NotLive(st.hdr, WithoutKey(st.ptr, a), a, st.hdr[a].(userSize := size));
    forall b | b in st'.ptr
      ensures LiveAt(st'.hdr, st'.ptr, st'.back, st'.foot, b)
    {
      assert LiveAt(st.hdr, st.ptr, st.back, st.foot, b);
    }
    forall b | b in st'.hdr
      ensures OwnedIfUsed(st'.hdr, st'.ptr, {}, b)
    {
      assert OwnedIfUsed(st.hdr, st.ptr, {}, b);
    }
  }

  /** A live payload lies in its block. */
  lemma LivePayload(st: State, p: nat)
    requires Valid(st) && IsLive(st, p)
    ensures var a := st.back[p];
            a + HEADER + BACK_LINK <= p && p + st.hdr[a].userSize + FOOTER <= a + Size(st.hdr[a].order) && p != 0
  {
    assert LiveAt(st.hdr, st.ptr, st.back, st.foot, st.back[p]);
  }

  /** What was live before another allocation still is, apart from the new payload. */
  lemma StillLive(st: State, st': State, p: nat, a': nat, q: nat, size: nat)
    requires Valid(st) && IsLive(st, p) && Valid(st') && SameLive(st.hdr, st'.hdr, st.ptr)
    requires NewAllocation(st.ptr, st', a', q, size, 16)
    ensures var n := st.hdr[st.back[p]].userSize;
            && IsLive(st', p) && IsLive(st', q) && st'.back[p] == st.back[p] && st'.hdr[st.back[p]] == st.hdr[st.back[p]]
            && st'.back[q] == a' && a' != st.back[p] && st'.hdr[a'].userSize == size
            && (p + n <= q || q + size <= p)
  {
    var a := st.back[p];
    assert LiveAt(st.hdr, st.ptr, st.back, st.foot, a) && SameHeader(st.hdr, st'.hdr, a);
    assert LiveAt(st'.hdr, st'.ptr, st'.back, st'.foot, a) && LiveAt(st'.hdr, st'.ptr, st'.back, st'.foot, a');
    PayloadsApart(st'.hdr, st'.ptr, st'.back, st'.foot, a, a');
  }

  lemma SixteenStays()
    ensures Rounded(16) == 16
  {
  }

  function Min(a: nat, b: nat): nat {
    if a < b then a else b
  }

  lemma NewIsLive(st: State, a: nat, p: nat)
    requires Valid(st) && a in st.ptr && st.ptr[a] == p
    ensures IsLive(st, p) && st.back[p] == a
  {
    assert LiveAt(st.hdr, st.ptr, st.back, st.foot, a);
  }

  /** Freeing one pointer leaves another live. */
  lemma StaysLive(st: State, st': State, p: nat, q: nat)
    requires Valid(st) && IsLive(st, p) && IsLive(st, q) && st.back[p] != st.back[q]
    requires Valid(st') && st'.ptr == WithoutKey(st.ptr, st.back[p]) && SameLive(st.hdr, st'.hdr, st'.ptr)
    ensures IsLive(st', q) && st'.back[q] == st.back[q] && st'.hdr[st.back[q]] == st.hdr[st.back[q]]
  {
    assert LiveAt(st'.hdr, st'.ptr, st'.back, st'.foot, st.back[q]);
    assert SameHeader(st.hdr, st'.hdr, st.back[q]);
  }

  lemma SameLiveFewer(hdr: Headers, hdr': Headers, ptr: map<nat, nat>, a: nat)
    requires SameLive(hdr, hdr', ptr)
    ensures SameLive(hdr, hdr', WithoutKey(ptr, a))
  {
    forall x | x in WithoutKey(ptr, a)
      ensures SameHeader(hdr, hdr', x)
    {
      assert x in ptr;
    }
  }

  /** New block, copy, free: each touches its own payload. */
  lemma MovedBytes(was: map<nat, nat>, made: map<nat, nat>, copied: map<nat, nat>, now: map<nat, nat>, p: nat, n: nat, q: nat, size: nat)
    requires SameOutside(was, made, q, size) && SameOutside(made, copied, q, n) && SameOutside(copied, now, p, n)
    requires SameBytes(was, p, copied, q, n) && n <= size && (p + n <= q || q + size <= p)
    ensures SameOutsideBoth(was, now, p, n, q, size) && SameBytes(was, p, now, q, n)
  {
    forall x: nat | !(p <= x < p + n) && !(q <= x < q + size)
      ensures Byte(now, x) == Byte(was, x)
    {
      assert Byte(now, x) == Byte(copied, x) && Byte(copied, x) == Byte(made, x) && Byte(made, x) == Byte(was, x);
    }
    forall x: nat | q <= x < q + n
      ensures Byte(now, x) == Byte(was, x - q + p)
    {
      assert Byte(now, x) == Byte(copied, x);
    }
  }

  /** Every other allocation is in place with its header. */
  lemma MovedLive(st: State, mid: State, st': State, p: nat, a: nat, q: nat)
    requires p in st.back && p in mid.back && mid.back[p] == st.back[p] && mid.ptr == st.ptr[a := q] && a !in st.ptr && a != st.back[p]
    requires SameLive(st.hdr, mid.hdr, st.ptr) && st'.ptr == WithoutKey(mid.ptr, st.back[p]) && SameLive(mid.hdr, st'.hdr, st'.ptr)
    ensures SameLive(st.hdr, st'.hdr, WithoutKey(st.ptr, st.back[p])) && st'.ptr == Moved(st.ptr, st.back[p], a, q)
  {
    forall x | x in WithoutKey(st.ptr, st.back[p])
      ensures SameHeader(st.hdr, st'.hdr, x)
    {
      assert x in st'.ptr && SameHeader(st.hdr, mid.hdr, x) && SameHeader(mid.hdr, st'.hdr, x);
    }
  }

  // ------------------------------------------------------------------------
  // Nothing allocated
  // ------------------------------------------------------------------------

  lemma NothingOwned(st: State, i: nat)
    requires Valid(st) && st.ptr == map[]
    ensures AllFree(st.arenas, st.hdr, st.home, i) && forall a :: a in st.hdr ==> st.hdr[a].isFree && st.hdr[a].userSize == 0
  {
    forall a | a in st.hdr
      ensures st.hdr[a].isFree && st.hdr[a].userSize == 0
    {
      assert OwnedIfUsed(st.hdr, st.ptr, {}, a) && ZeroIfFree(st.hdr, a);
    }
  }

  /** With nothing allocated the blocks are exactly the maximal ones of each arena. */
  lemma EmptyIsCanonical(st: State, i: nat, k: nat, q: nat)
    requires Valid(st) && st.ptr == map[] && i < |st.arenas|
    requires MIN_ORDER <= k <= MAX_ORDER && Fits(st.arenas[i].size, k, q)
    ensures IsBlock(st.hdr, st.arenas[i].base, k, q) <==> Maximal(st.arenas[i].size, k, q)
  {
    NothingOwned(st, i);
    var s := ShapeOf(st);
    Canonical(s.arenas, s.cov, s.hdr, s.home, i, k, q);
  }

  lemma SameBlock(st: State, st': State, a: nat)
    requires Valid(st) && Valid(st') && st.ptr == map[] && st'.ptr == map[] && st'.arenas == st.arenas && a in st.hdr
    ensures a in st'.hdr && st'.hdr[a] == st.hdr[a]
  {
    var s := ShapeOf(st);
    assert BlockOk(s.arenas, s.cov, s.hdr, s.home, a);
    var i, k := st.home[a], st.hdr[a].order;
    var off := a - st.arenas[i].base;
    StartNext(k, Up(off, k));
    assert IsBlock(st.hdr, st.arenas[i].base, k, Up(off, k));
    EmptyIsCanonical(st, i, k, Up(off, k));
    EmptyIsCanonical(st', i, k, Up(off, k));
    NothingOwned(st, i);
    NothingOwned(st', i);
    assert st.hdr[a] == Header(k, true, 0) && st'.hdr[a] == Header(k, true, 0);
  }

  /** So freeing every allocation, in whatever order, brings back exactly the headers there were
      when the arenas were carved. */
  lemma EmptyHeapsAgree(st: State, st': State)
    requires Valid(st) && Valid(st') && st.ptr == map[] && st'.ptr == map[] && st'.arenas == st.arenas
    ensures st'.hdr == st.hdr && st'.freeBlocks == st.freeBlocks && st'.total == st.total == 0
  {
    forall a
      ensures a in st.hdr <==> a in st'.hdr
      ensures a in st.hdr && a in st'.hdr ==> st'.hdr[a] == st.hdr[a]
    {
      if a in st.hdr {
        SameBlock(st, st', a);
      }
      if a in st'.hdr {
        SameBlock(st', st, a);
      }
    }
    assert st'.hdr == st.hdr;
    NothingOwned(st, 0);
    NothingAsked(st.hdr);
  }

  lemma {:induction false} NothingAsked(hdr: Headers)
    requires forall a :: a in hdr ==> hdr[a].userSize == 0
    ensures Asked(hdr) == 0
    decreases |hdr|
  {
    if hdr != map[] {
      var a :| a in hdr;
      AskedWithout(hdr, a);
      NothingAsked(hdr - {a});
    }
  }

  /** Before the first arena there is nothing. */
  lemma NothingIsValid(st: State)
    requires st.hdr == map[] && st.home == map[] && st.arenas == [] && st.ptr == map[] && st.freeBlocks == 0 && st.total == 0
    requires |st.heads| == |st.lists| == MAX_ORDER + 1
    requires forall k :: 0 <= k <= MAX_ORDER ==> st.heads[k] == 0 && st.lists[k] == []
    ensures Valid(st)
  {
  }

  // ------------------------------------------------------------------------
  // Where things are in memory
  // ------------------------------------------------------------------------

  const NODE := 16

  /** Inside a block its header and list node, or its header, back-pointer, payload and footer,
      follow each other, and nothing reaches out of it. */
  lemma CellsInside(st: State, a: nat)
    requires Valid(st) && a in st.hdr
    ensures var k := st.hdr[a].order;
            && (st.hdr[a].isFree ==> a + HEADER + NODE <= a + Size(k))
            && (!st.hdr[a].isFree ==> a in st.ptr && a + HEADER <= st.ptr[a] - BACK_LINK && st.ptr[a] + st.hdr[a].userSize <= a + Size(k) - FOOTER)
  {
    var s := ShapeOf(st);
    assert BlockOk(s.arenas, s.cov, s.hdr, s.home, a);
    SizeMono(MIN_ORDER, st.hdr[a].order);
    assert Size(MIN_ORDER) == 64;
    assert OwnedIfUsed(st.hdr, st.ptr, {}, a);
    if !st.hdr[a].isFree {
      assert LiveAt(st.hdr, st.ptr, st.back, st.foot, a);
    }
  }

  /** Blocks do not share a byte, so neither do two payloads, nor a payload and what the heap keeps
      in any other block. */
  lemma LivePayloadsDisjoint(st: State, p: nat, q: nat)
    requires Valid(st) && IsLive(st, p) && IsLive(st, q) && p != q
    ensures var m, n := st.hdr[st.back[p]].userSize, st.hdr[st.back[q]].userSize;
            p + m <= q - BACK_LINK || q + n <= p - BACK_LINK
  {
    var a, b := st.back[p], st.back[q];
    CellsInside(st, a);
    CellsInside(st, b);
    assert LiveAt(st.hdr, st.ptr, st.back, st.foot, a) && LiveAt(st.hdr, st.ptr, st.back, st.foot, b);
    assert a < b ==> Before(st.hdr, a, b);
    assert b < a ==> Before(st.hdr, b, a);
  }
}
