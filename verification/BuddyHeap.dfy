/**
 The kernel heap (`heap.cpp`). Memory is kept by what is in it: headers, list nodes, footers,
 the back-pointer before each payload, and payload bytes. A header that no longer starts a block
 is dropped, so a lookup that goes through is a lookup of a real header.
 */
module BuddyHeap {
  import opened Dyadic
  import opened HeapBlocks
  import opened FreeLists
  import opened HeapShape
  import opened HeapState
  import opened HeapSteps

  class Heap {
    var hdr: Headers
    var nodes: Nodes
    var heads: seq<nat>
    var arenas: Arenas
    var back: map<nat, nat>
    var foot: set<nat>
    var data: map<nat, nat>
    var totalAllocated: nat
    var peakUsage: nat
    var freeBlocks: nat
    ghost var home: Homes
    ghost var lists: seq<seq<nat>>
    ghost var ptr: map<nat, nat>

    ghost function Snap(): State
      reads this
    {
      State(hdr, nodes, heads, arenas, back, foot, totalAllocated, peakUsage, freeBlocks, home, lists, ptr)
    }

    /** `heap_init`. */
    constructor (base: nat, size: nat)
      ensures Valid(Snap()) && arenas == [Arena(base, size)] && ptr == map[] && totalAllocated == 0
      ensures MaximalSoFar(arenas, hdr, home, 0)
    {
      hdr, nodes, heads := map[], map[], seq(MAX_ORDER + 1, _ => 0);
      arenas, back, foot, data := [], map[], {}, map[];
      totalAllocated, peakUsage, freeBlocks := 0, 0, 0;
      home, lists, ptr := map[], seq(MAX_ORDER + 1, _ => []), map[];
      new;
      NothingIsValid(Snap());
      AddedOk(Snap(), base, size);
      arenas := [Arena(base, size)];
      assert [] + [Arena(base, size)] == arenas;
      CarveRegion(base, size, Extents([]) + [0]);
    }

    /** What the statistics are after an allocation of `size` bytes. */
    ghost predicate Accounted(total: nat, peak: nat, size: nat)
      reads this
    {
      totalAllocated == total + size && peakUsage == if total + size > peak then total + size else peak
    }

    // ----------------------------------------------------------------------
    // Lists
    // ----------------------------------------------------------------------

    /** Makes a free block of `a` and puts it first on its list. */
    method Shelve(a: nat, k: nat)
      requires CanPush(Snap(), k)
      modifies this`hdr, this`nodes, this`heads, this`lists, this`freeBlocks
      ensures Snap() == Shelved(old(Snap()), a, k)
    {
      hdr := hdr[a := Header(k, true, 0)];
      var node := a + HEADER;
      nodes := nodes[node := FreeNode(heads[k], 0)];
      if heads[k] != 0 {
        nodes := SetPrev(nodes, heads[k], node);
      }
      heads := heads[k := node];
      lists := WithList(lists, k, [a] + lists[k]);
      freeBlocks := freeBlocks + 1;
    }

    /** Takes the first block off a list. */
    method PopFront(k: nat) returns (a: nat)
      requires CanPop(Snap(), k)
      modifies this`nodes, this`heads, this`lists, this`freeBlocks
      ensures Snap() == Popped(old(Snap()), k) && a == old(heads)[k] - HEADER
    {
      var node := heads[k];
      heads := heads[k := nodes[node].next];
      if heads[k] != 0 {
        nodes := SetPrev(nodes, heads[k], 0);
      }
      freeBlocks := freeBlocks - 1;
      lists := WithList(lists, k, Removed(lists[k], 0));
      a := node - HEADER;
    }

    // ----------------------------------------------------------------------
    // Allocation
    // ----------------------------------------------------------------------

    /** The smallest order with a free block, from `order` up. */
    method FindOrder(order: nat) returns (found: nat)
      requires ListsOk(nodes, heads, lists) && order <= MAX_ORDER
      ensures order <= found <= MAX_ORDER + 1
      ensures forall k :: order <= k < found ==> lists[k] == []
      ensures found <= MAX_ORDER ==> lists[found] != []
    {
      found := order;
      while found <= MAX_ORDER && heads[found] == 0
        invariant order <= found <= MAX_ORDER + 1
        invariant forall k :: order <= k < found ==> lists[k] == []
      {
        assert Linked(nodes, heads[found], lists[found]);
        found := found + 1;
      }
      if found <= MAX_ORDER {
        assert Linked(nodes, heads[found], lists[found]);
      }
    }

    /** Halves the block in hand; its upper half becomes a free block. */
    method HalveOnce(a: nat, k: nat)
      requires CanPush(Snap(), k) && a in home
      modifies this`hdr, this`home, this`nodes, this`heads, this`lists, this`freeBlocks
      ensures Snap() == HalvedState(old(Snap()), a, k)
    {
      home := WithHome(home, a + Size(k), home[a]);
      Shelve(a + Size(k), k);
    }

    /** A block of the order asked for, in hand: the first of the nearest list, halved down. */
    method Reserve(order: nat) returns (ok: bool, a: nat)
      requires Valid(Snap()) && MIN_ORDER <= order <= MAX_ORDER
      modifies this`hdr, this`home, this`nodes, this`heads, this`lists, this`freeBlocks
      ensures ok <==> exists k :: order <= k <= MAX_ORDER && old(lists)[k] != []
      ensures if ok then Held(Snap(), a, order) else Snap() == old(Snap())
      ensures SameLive(old(hdr), hdr, ptr)
    {
      var found := FindOrder(order);
      if found > MAX_ORDER {
        return false, 0;
      }
      ok := true;
      ghost var st := Snap();
      PopDefined(st, found);
      PoppedHeld(st, found);
      a := PopFront(found);
      st := Popped(st, found);
      while found > order
        invariant order <= found <= MAX_ORDER && Snap() == st && Held(st, a, found)
        invariant st.ptr == ptr && SameLive(old(hdr), st.hdr, ptr)
      {
        HalvedHeld(st, a, found);
        found := found - 1;
        HalveOnce(a, found);
        SameLiveTwice(old(hdr), st.hdr, HalvedState(st, a, found).hdr, ptr);
        st := HalvedState(st, a, found);
      }
    }

    /** `poisonRange`. */
    method Poison(p: nat, size: nat, value: nat)
      modifies this`data
      ensures SameOutside(old(data), data, p, size)
      ensures Stamped(data, p, size, value)
    {
      for i := 0 to size
        invariant SameOutside(old(data), data, p, i)
        invariant forall x {:trigger Byte(data, x)} :: p <= x < p + i ==> Byte(data, x) == value
      {
        PutByte(data, p + i, value);
        data := data[p + i := value];
      }
    }

    /** The header, the footer, the statistics and the back-pointer of an allocation. */
    method Grant(a: nat, k: nat, size: nat, p: nat)
      requires Size(k) >= FOOTER
      modifies this`hdr, this`foot, this`totalAllocated, this`peakUsage, this`back, this`ptr
      ensures Snap() == Granted(old(Snap()), a, k, size, p)
    {
      hdr := hdr[a := Header(k, false, size)];
      foot := foot + {a + Size(k) - FOOTER};
      totalAllocated := totalAllocated + size;
      if totalAllocated > peakUsage {
        peakUsage := totalAllocated;
      }
      back := back[p := a];
      ptr := ptr[a := p];
    }

    /** The block in hand becomes an allocation. */
    method HandOut(b: nat, order: nat, size: nat, align: nat) returns (p: nat)
      requires Held(Snap(), b, order) && MIN_ORDER <= order <= MAX_ORDER && align > 0 && Needed(size, align) <= Size(order)
      modifies this`hdr, this`foot, this`totalAllocated, this`peakUsage, this`back, this`ptr, this`data
      ensures p != 0 && Valid(Snap()) && SameLive(old(hdr), hdr, old(ptr)) && SameOutside(old(data), data, p, size)
      ensures NewAllocation(old(ptr), Snap(), b, p, size, align) && hdr[b].order == order
      ensures Accounted(old(totalAllocated), old(peakUsage), size) && Stamped(data, p, size, 0xAA)
    {
      p := AlignUp(b + HEADER + BACK_LINK, align);
      SizeMono(6, order);
      PayloadFits(b, order, size, align);
      GrantedValid(Snap(), b, order, size, p);
      Grant(b, order, size, p);
      Poison(p, size, ALLOC_POISON);
    }

    /** `alloc_locked`. It fails exactly when no list from that order up has a block. */
    method AllocLocked(order: nat, size: nat, align: nat) returns (p: nat, ghost a: nat)
      requires Valid(Snap()) && MIN_ORDER <= order <= MAX_ORDER && align > 0 && Needed(size, align) <= Size(order)
      modifies this`hdr, this`home, this`nodes, this`heads, this`lists, this`freeBlocks,
               this`foot, this`totalAllocated, this`peakUsage, this`back, this`ptr, this`data
      ensures Valid(Snap()) && SameLive(old(hdr), hdr, old(ptr)) && SameOutside(old(data), data, p, size)
      ensures p != 0 <==> exists k :: order <= k <= MAX_ORDER && old(lists)[k] != []
      ensures if p == 0 then Snap() == old(Snap()) && data == old(data) else NewAllocation(old(ptr), Snap(), a, p, size, align)
      ensures p != 0 ==> hdr[a].order == order && Accounted(old(totalAllocated), old(peakUsage), size) && Stamped(data, p, size, 0xAA)
    {
      var ok, b := Reserve(order);
      if !ok {
        return 0, 0;
      }
      a := b;
      ghost var mid := hdr;
      p := HandOut(b, order, size, align);
      SameLiveTwice(old(hdr), mid, hdr, old(ptr));
    }

    // ----------------------------------------------------------------------
    // Growing
    // ----------------------------------------------------------------------

    /** The largest order that fits at an offset; less than the smallest if none does. */
    method PickOrder(offset: nat, remaining: nat, ghost size: nat) returns (order: nat)
      requires offset + remaining == size
      ensures MIN_ORDER - 1 <= order <= MAX_ORDER
      ensures order >= MIN_ORDER ==> NextOrder(offset, size, order)
      ensures order < MIN_ORDER ==> !(Size(MIN_ORDER) <= remaining && Aligned(offset, MIN_ORDER))
    {
      order := MAX_ORDER;
      while order >= MIN_ORDER
        invariant MIN_ORDER - 1 <= order <= MAX_ORDER
        invariant forall k :: order < k <= MAX_ORDER ==> !(Size(k) <= remaining && Aligned(offset, k))
      {
        if Size(order) <= remaining && Rem(offset, order) == 0 {
          return;
        }
        order := order - 1;
      }
    }

    /** One block of an arena being carved. */
    method CarveBlock(current: nat, order: nat)
      requires CanPush(Snap(), order) && arenas != []
      modifies this`hdr, this`home, this`nodes, this`heads, this`lists, this`freeBlocks
      ensures Snap() == CarvedState(old(Snap()), current, order)
    {
      home := WithHome(home, current, |arenas| - 1);
      Shelve(current, order);
    }

    /** One round of carving: the largest block that goes there, if one does. */
    method CarveNext(base: nat, size: nat, current: nat, remaining: nat, ghost was: Headers, ghost cov: seq<nat>)
      returns (order: nat, ghost cov': seq<nat>)
      requires base <= current && current - base + remaining == size
      requires CarveInv(was, Snap(), cov, base, size, current)
      modifies this`hdr, this`home, this`nodes, this`heads, this`lists, this`freeBlocks
      ensures order < MIN_ORDER ==> Snap() == old(Snap()) && cov' == cov && remaining < Size(MIN_ORDER)
      ensures order >= MIN_ORDER ==> Size(order) <= remaining && CarveInv(was, Snap(), cov', base, size, current + Size(order))
    {
      cov' := cov;
      order := PickOrder(current - base, remaining, size);
      if order >= MIN_ORDER {
        CarveStep(was, Snap(), cov, base, size, current, order);
        CarveBlock(current, order);
        cov' := Covering(cov, order);
      }
    }

    /** `carve_region`, for the last arena: all of it that whole blocks can cover, as maximal
        blocks. A block of every order that fits is on the lists afterwards, or a larger one. */
    method CarveRegion(base: nat, size: nat, ghost none: seq<nat>)
      requires CarveInv(hdr, Snap(), none, base, size, base)
      modifies this`hdr, this`home, this`nodes, this`heads, this`lists, this`freeBlocks
      ensures Valid(Snap()) && arenas != [] && MaximalSoFar(arenas, hdr, home, |arenas| - 1)
      ensures SameLive(old(hdr), hdr, ptr) && Stocked(lists, size)
    {
      var current, remaining := base, size;
      ghost var cov, was := none, hdr;
      while remaining > 0
        invariant base <= current && current - base + remaining == size
        invariant CarveInv(was, Snap(), cov, base, size, current)
      {
        var order;
        order, cov := CarveNext(base, size, current, remaining, was, cov);
        if order < MIN_ORDER {
          break;
        }
        current, remaining := current + Size(order), remaining - Size(order);
      }
      CarveEnd(was, Snap(), cov, base, size, current);
    }

    /** `register_arena`. */
    method RegisterArena(base: nat, size: nat) returns (ok: bool)
      requires Valid(Snap()) && ClearOfAll(arenas, Arena(base, size))
      modifies this`hdr, this`home, this`nodes, this`heads, this`lists, this`freeBlocks, this`arenas
      ensures Valid(Snap()) && SameLive(old(hdr), hdr, ptr) && ok == (|old(arenas)| < MAX_ARENAS)
      ensures if ok then arenas == old(arenas) + [Arena(base, size)] && Stocked(lists, size) else Snap() == old(Snap())
    {
      if |arenas| >= MAX_ARENAS {
        SameItself(hdr, ptr);
        return false;
      }
      AddedOk(Snap(), base, size);
      ghost var cov := Extents(arenas) + [0];
      arenas := arenas + [Arena(base, size)];
      CarveRegion(base, size, cov);
      return true;
    }

    /** The largest chunk the PMM has, from 16 MiB, or the block asked for if that is larger, down to that block. */
    method Offer(order: nat, frames: nat -> nat) returns (phys: nat, chunk: nat, ghost m: nat)
      requires MIN_ORDER <= order <= MAX_ORDER
      ensures forall n: nat {:trigger Size(n)} :: phys != 0 && m < n && (n <= 24 || n <= order) ==> frames(Size(n)) == 0
      ensures phys != 0 ==> chunk == Size(m) && phys == frames(chunk) && order <= m && 12 <= m <= MAX_ORDER && (m <= 24 || m <= order)
      ensures phys == 0 ==> forall n: nat {:trigger Size(n)} :: order <= n && 12 <= n && (n <= 24 || n <= order) ==> frames(Size(n)) == 0
    {
      var need := Size(order);
      chunk := if GROW_CHUNK < need then need else GROW_CHUNK;
      m := if order > 24 then order else 24;
      ChunkSize(order);
      while chunk >= need && chunk >= PAGE
        invariant m <= MAX_ORDER && chunk == Size(m) && (m <= 24 || m <= order)
        invariant forall n: nat {:trigger Size(n)} :: m < n && (n <= 24 || n <= order) ==> frames(Size(n)) == 0
        decreases m
      {
        SizeOrder(m, order);
        SizeOrder(m, 12);
        phys := frames(chunk);
        if phys != 0 {
          return;
        }
        if chunk == need {
          return;
        }
        chunk, m := chunk / 2, m - 1;
      }
      SizeOrder(m, order);
      SizeOrder(m, 12);
      phys := 0;
    }

    /** `grow_locked`: frames from the PMM, as many as it has, at least the block asked for. The PMM
        gives out only memory that is in no arena. */
    method Grow(order: nat, frames: nat -> nat) returns (ok: bool)
      requires Valid(Snap()) && MIN_ORDER <= order <= MAX_ORDER && Honest(frames, arenas)
      modifies this`hdr, this`home, this`nodes, this`heads, this`lists, this`freeBlocks, this`arenas
      ensures Valid(Snap()) && SameLive(old(hdr), hdr, ptr)
      ensures if ok then exists k :: order <= k <= MAX_ORDER && lists[k] != [] else Snap() == old(Snap())
      ensures ok <==> CanExtend(frames, old(arenas), order)
      ensures ok ==> exists m: nat {:trigger Size(m)} :: m >= order && arenas == old(arenas) + [Arena(frames(Size(m)), Size(m))]
    {
      var phys, chunk;
      ghost var m;
      phys, chunk, m := Offer(order, frames);
      if phys == 0 {
        SameItself(hdr, ptr);
        return false;
      }
      ok := RegisterArena(phys, chunk);
    }

    // ----------------------------------------------------------------------
    // kmalloc
    // ----------------------------------------------------------------------

    /** The alignment rounded up to a power of two. */
    method RoundUp(align: nat) returns (r: nat)
      ensures r == Rounded(align)
    {
      var least := if align < 16 then 16 else align;
      r := 1;
      while r < least
        invariant r > 0 && Doubled(r, least) == Rounded(align)
        decreases least - r
      {
        r := 2 * r;
      }
    }

    /** The smallest order whose blocks are large enough, or one past the largest. */
    method OrderFor(bytes: nat) returns (order: nat)
      ensures MIN_ORDER <= order <= MAX_ORDER + 1
      ensures order <= MAX_ORDER ==> bytes <= Size(order)
      ensures forall k :: MIN_ORDER <= k < order ==> Size(k) < bytes
    {
      order := MIN_ORDER;
      while order <= MAX_ORDER && Size(order) < bytes
        invariant MIN_ORDER <= order <= MAX_ORDER + 1
        invariant forall k :: MIN_ORDER <= k < order ==> Size(k) < bytes
      {
        order := order + 1;
      }
    }

    /** A block of an order; when there is none the heap grows and tries again, and a try after a
        successful growth succeeds. */
    method Obtain(order: nat, size: nat, align: nat, frames: nat -> nat) returns (p: nat, ghost a: nat)
      requires Valid(Snap()) && MIN_ORDER <= order <= MAX_ORDER && align > 0 && Needed(size, align) <= Size(order)
      requires Honest(frames, arenas)
      modifies this
      ensures Valid(Snap()) && SameLive(old(hdr), hdr, old(ptr)) && SameOutside(old(data), data, p, size)
      ensures if p == 0 then Snap() == old(Snap()) && data == old(data) else NewAllocation(old(ptr), Snap(), a, p, size, align)
      ensures p != 0 <==> Stock(old(lists), order) || CanExtend(frames, old(arenas), order)
      ensures p != 0 ==> hdr[a].order == order && Accounted(old(totalAllocated), old(peakUsage), size) && Stamped(data, p, size, 0xAA)
    {
      p, a := AllocLocked(order, size, align);
      if p == 0 {
        var grew := Grow(order, frames);
        if grew {
          ghost var mid := hdr;
          p, a := AllocLocked(order, size, align);
          SameLiveTwice(old(hdr), mid, hdr, old(ptr));
        }
      }
    }

    /** `kmalloc_aligned`. */
    method Kmalloc(size: nat, align: nat, frames: nat -> nat) returns (p: nat, ghost a: nat)
      requires Valid(Snap()) && Rounded(align) > 0 && NoWrap(size, Rounded(align)) && Honest(frames, arenas)
      modifies this
      ensures Valid(Snap()) && SameLive(old(hdr), hdr, old(ptr)) && SameOutside(old(data), data, p, size)
      ensures if p == 0 then Snap() == old(Snap()) && data == old(data) else NewAllocation(old(ptr), Snap(), a, p, size, Rounded(align))
      ensures p != 0 <==> Allocatable(old(lists), old(arenas), frames, size, Rounded(align))
      ensures p != 0 ==> Smallest(hdr[a].order, Needed(size, Rounded(align)))
      ensures p != 0 ==> Accounted(old(totalAllocated), old(peakUsage), size) && Stamped(data, p, size, 0xAA)
    {
      if size == 0 {
        SameItself(hdr, ptr);
        return 0, 0;
      }
      var rounded := RoundUp(align);
      var order := OrderFor((HEADER + BACK_LINK + size + FOOTER + rounded - 1) % WORD);
      WhenAllocatable(order, lists, arenas, frames, size, rounded);
      if order > MAX_ORDER {
        SameItself(hdr, ptr);
        return 0, 0;
      }
      p, a := Obtain(order, size, rounded, frames);
    }

    // ----------------------------------------------------------------------
    // kfree
    // ----------------------------------------------------------------------

    /** `find_arena`. */
    method FindArena(addr: nat) returns (i: nat)
      ensures i <= |arenas|
      ensures i < |arenas| ==> arenas[i].base <= addr < arenas[i].base + arenas[i].size
      ensures i == |arenas| ==> forall j :: 0 <= j < |arenas| ==> !(arenas[j].base <= addr < arenas[j].base + arenas[j].size)
    {
      i := 0;
      while i < |arenas|
        invariant i <= |arenas|
        invariant forall j :: 0 <= j < i ==> !(arenas[j].base <= addr < arenas[j].base + arenas[j].size)
      {
        if arenas[i].base <= addr < arenas[i].base + arenas[i].size {
          return;
        }
        i := i + 1;
      }
    }

    /** Takes the buddy off its list; the header of the upper half is a header no more. */
    method MergeWith(a: nat, b: nat, k: nat, ghost i: nat)
      requires CanMerge(Snap(), b, k, i)
      modifies this`hdr, this`home, this`nodes, this`heads, this`lists, this`freeBlocks
      ensures Snap() == Merged(old(Snap()), a, b, k, i)
    {
      var node := nodes[b + HEADER];
      if node.prev != 0 {
        nodes := SetNext(nodes, node.prev, node.next);
        assert heads == heads[k := heads[k]];
      } else {
        heads := heads[k := node.next];
      }
      if node.next != 0 {
        nodes := SetPrev(nodes, node.next, node.prev);
      }
      freeBlocks := freeBlocks - 1;
      lists := WithList(lists, k, Removed(lists[k], i));
      var hi := if b < a then a else b;
      hdr := WithoutHeader(hdr, hi);
      home := WithoutHome(home, hi);
    }

    /** One round of merging. */
    method TryMerge(current: nat, order: nat, g: nat) returns (merged: bool, lo: nat, k: nat)
      requires Held(Snap(), current, order) && order < MAX_ORDER && current in home && home[current] == g < |arenas|
      modifies this`hdr, this`home, this`nodes, this`heads, this`lists, this`freeBlocks
      ensures k == (if merged then order + 1 else order) && Held(Snap(), lo, k) && lo in home && home[lo] == g
      ensures !merged ==> lo == current && Snap() == old(Snap()) && BuddyBusy(Holding(Snap(), lo, order), lo, order)
      ensures SameLive(old(hdr), hdr, ptr)
    {
      ghost var st := Snap();
      BuddyIsBlock(st, current, order);
      BuddyXor(Holding(st, current, order), current, order);
      SameItself(hdr, ptr);
      var arena := arenas[g];
      var buddy := arena.base + Xor(current - arena.base, Size(order));
      if buddy + Size(order) > arena.base + arena.size || !(hdr[buddy].isFree && hdr[buddy].order == order) {
        NothingToMerge(st, current, order);
        return false, current, order;
      }
      ghost var i := MergedHeld(st, current, order);
      MergeWith(current, buddy, order, i);
      return true, if buddy < current then buddy else current, order + 1;
    }

    method Release(a: nat)
      requires CanRelease(Snap(), a)
      modifies this`hdr, this`totalAllocated, this`ptr
      ensures Snap() == Released(old(Snap()), a)
    {
      totalAllocated := totalAllocated - hdr[a].userSize;
      hdr := hdr[a := hdr[a].(userSize := 0)];
      ptr := WithoutKey(ptr, a);
    }

    /** Merges the block in hand as far as it goes and puts it on its list. */
    method Coalesce(start: nat, order: nat, g: nat)
      requires Held(Snap(), start, order) && start in home && home[start] == g < |arenas|
      modifies this`hdr, this`home, this`nodes, this`heads, this`lists, this`freeBlocks
      ensures Valid(Snap()) && SameLive(old(hdr), hdr, ptr)
    {
      var current, k, merged := start, order, true;
      HandOk(Holding(Snap(), start, order), start, order);
      SameItself(hdr, ptr);
      while k < MAX_ORDER && merged
        invariant MIN_ORDER <= k <= MAX_ORDER
        invariant Held(Snap(), current, k) && current in home && home[current] == g
        invariant SameLive(old(hdr), hdr, ptr)
        invariant !merged ==> BuddyBusy(Holding(Snap(), current, k), current, k)
        decreases MAX_ORDER - k, merged
      {
        ghost var mid := hdr;
        merged, current, k := TryMerge(current, k, g);
        SameLiveTwice(old(hdr), mid, hdr, ptr);
      }
      ghost var mid := hdr;
      ShelvedValid(Snap(), current, k);
      Shelve(current, k);
      SameLiveTwice(old(hdr), mid, hdr, ptr);
    }

    /** `kfree`. None of its checks fails for a pointer that is live. */
    method Kfree(p: nat)
      requires Valid(Snap()) && (p == 0 || IsLive(Snap(), p))
      modifies this
      ensures Valid(Snap()) && arenas == old(arenas)
      ensures p == 0 ==> Snap() == old(Snap()) && data == old(data)
      ensures p != 0 ==> var a := old(back)[p];
                         && ptr == WithoutKey(old(ptr), a) && SameLive(old(hdr), hdr, ptr)
                         && totalAllocated == old(totalAllocated) - old(hdr)[a].userSize && peakUsage == old(peakUsage)
                         && SameOutside(old(data), data, p, old(hdr)[a].userSize)
                         && Stamped(data, p, old(hdr)[a].userSize, 0xDD)
    {
      if p != 0 {
        FreeLive(p);
      }
    }

    /** The checks, the statistics and the poison: the block is in hand. */
    method TakeBack(p: nat) returns (a: nat, order: nat, g: nat)
      requires Valid(Snap()) && p != 0 && IsLive(Snap(), p)
      modifies this`hdr, this`totalAllocated, this`ptr, this`data
      ensures a == old(back)[p] && Held(Snap(), a, order) && a in home && home[a] == g < |arenas|
      ensures ptr == WithoutKey(old(ptr), a) && SameLive(old(hdr), hdr, ptr)
      ensures totalAllocated == old(totalAllocated) - old(hdr)[a].userSize && SameOutside(old(data), data, p, old(hdr)[a].userSize)
      ensures Stamped(data, p, old(hdr)[a].userSize, 0xDD)
    {
      a := back[p];
      ghost var st := Snap();
      ChecksPass(st, p);
      assert !hdr[a].isFree && a + Size(hdr[a].order) - FOOTER in foot;
      g := FindArena(a);
      ArenaFound(st, a, g);
      ReleasedHeld(st, a);
      order := hdr[a].order;
      var size := hdr[a].userSize;
      Release(a);
      Poison(p, size, FREE_POISON);
    }

    method FreeLive(p: nat)
      requires Valid(Snap()) && p != 0 && IsLive(Snap(), p)
      modifies this
      ensures Valid(Snap()) && arenas == old(arenas)
      ensures ptr == WithoutKey(old(ptr), old(back)[p]) && SameLive(old(hdr), hdr, ptr)
      ensures totalAllocated == old(totalAllocated) - old(hdr)[old(back)[p]].userSize && peakUsage == old(peakUsage)
      ensures SameOutside(old(data), data, p, old(hdr)[old(back)[p]].userSize)
      ensures Stamped(data, p, old(hdr)[old(back)[p]].userSize, 0xDD)
    {
      var a, order, g := TakeBack(p);
      ghost var mid := hdr;
      Coalesce(a, order, g);
      SameLiveTwice(old(hdr), mid, hdr, ptr);
    }

    // ----------------------------------------------------------------------
    // krealloc
    // ----------------------------------------------------------------------

    method SetSize(a: nat, size: nat)
      requires CanRelease(Snap(), a)
      modifies this`hdr, this`totalAllocated, this`peakUsage
      ensures Snap() == InPlace(old(Snap()), a, size)
    {
      totalAllocated := totalAllocated - hdr[a].userSize + size;
      hdr := hdr[a := hdr[a].(userSize := size)];
      if totalAllocated > peakUsage {
        peakUsage := totalAllocated;
      }
    }

    /** The copying loop. */
    method Copy(p: nat, q: nat, n: nat)
      requires p + n <= q || q + n <= p
      modifies this`data
      ensures SameOutside(old(data), data, q, n) && SameBytes(old(data), p, data, q, n)
    {
      ghost var was := data;
      for i := 0 to n
        invariant SameOutside(was, data, q, i) && SameBytes(was, p, data, q, i)
      {
        assert Byte(data, p + i) == Byte(was, p + i);
        PutByte(data, q + i, Byte(data, p + i));
        data := data[q + i := Byte(data, p + i)];
      }
    }

    /** A new block, the old bytes, and the old block is freed; nothing else is touched. */
    method Move(p: nat, size: nat, frames: nat -> nat) returns (q: nat, ghost a: nat)
      requires Valid(Snap()) && p != 0 && IsLive(Snap(), p) && NoWrap(size, 16) && hdr[back[p]].userSize <= size
      requires Honest(frames, arenas)
      modifies this
      ensures Valid(Snap()) && SameLive(old(hdr), hdr, WithoutKey(old(ptr), old(back)[p]))
      ensures q == 0 ==> ptr == old(ptr) && data == old(data) && SameLive(old(hdr), hdr, ptr)
      ensures q != 0 ==> IsLive(Snap(), q) && hdr[back[q]].userSize == size
      ensures q != 0 ==> q != p && a !in old(ptr) && ptr == Moved(old(ptr), old(back)[p], a, q)
      ensures q != 0 ==> SameBytes(old(data), p, data, q, old(hdr)[old(back)[p]].userSize)
      ensures q != 0 ==> SameOutsideBoth(old(data), data, p, old(hdr)[old(back)[p]].userSize, q, size)
      ensures q != 0 <==> Allocatable(old(lists), old(arenas), frames, size, 16)
      ensures totalAllocated == if q == 0 then old(totalAllocated) else old(totalAllocated) + size - old(hdr)[old(back)[p]].userSize
    {
      ghost var st, was := Snap(), data;
      var n := hdr[back[p]].userSize;
      SixteenStays();
      q, a := Kmalloc(size, 16, frames);
      SameLiveFewer(st.hdr, hdr, st.ptr, st.back[p]);
      if q == 0 {
        return;
      }
      StillLive(st, Snap(), p, a, q, size);
      ghost var st', made := Snap(), data;
      Copy(p, q, n);
      ghost var copied := data;
      assert SameBytes(was, p, data, q, n);
      Kfree(p);
      StaysLive(st', Snap(), p, q);
      MovedBytes(was, made, copied, data, p, n, q, size);
      MovedLive(st, st', Snap(), p, a, q);
    }

    /** `krealloc`. Whatever it returns has the first bytes of what there was; if it returns nothing for a size, what
        there was is untouched; and no other allocation, and no other byte, is touched at all. */
    method Krealloc(p: nat, size: nat, frames: nat -> nat) returns (q: nat, ghost a: nat)
      requires Valid(Snap()) && (p == 0 || IsLive(Snap(), p)) && NoWrap(size, 16) && Honest(frames, arenas)
      modifies this
      ensures Valid(Snap())
      ensures q != 0 ==> size != 0 && IsLive(Snap(), q) && hdr[back[q]].userSize == size
      ensures q != 0 && p != 0 ==> SameBytes(old(data), p, data, q, Min(size, old(hdr)[old(back)[p]].userSize))
      ensures q == 0 && p != 0 && size != 0 ==> ptr == old(ptr) && data == old(data) && SameLive(old(hdr), hdr, ptr)
      ensures q == 0 && p != 0 && size == 0 ==> ptr == WithoutKey(old(ptr), old(back)[p])
      ensures q == p != 0 ==> ptr == old(ptr) && data == old(data)
      ensures q != 0 && q != p ==> a !in old(ptr) && ptr == (if p == 0 then old(ptr)[a := q] else Moved(old(ptr), old(back)[p], a, q))
      ensures SameLive(old(hdr), hdr, if p == 0 then old(ptr) else WithoutKey(old(ptr), old(back)[p]))
      ensures SameOutsideBoth(old(data), data, p, if p == 0 then 0 else old(hdr)[old(back)[p]].userSize, q, size)
      ensures p != 0 && size != 0 ==> var b := old(back)[p];
                (q == p <==> p + size + 16 <= b + Size(old(hdr)[b].order))
      ensures q != p ==> (q != 0 <==> Allocatable(old(lists), old(arenas), frames, size, 16))
    {
      a := 0;
      if p == 0 {
        q, a := Fresh(size, frames);
        return;
      }
      if size == 0 {
        Kfree(p);
        return 0, 0;
      }
      var b := back[p];
      LivePayload(Snap(), p);
      var capacity := b + Size(hdr[b].order) - FOOTER - p;
      if size <= hdr[b].userSize || size <= capacity {
        InPlaceValid(Snap(), b, size);
        SetSize(b, size);
        return p, 0;
      }
      q, a := Move(p, size, frames);
    }

    /** `kmalloc`. */
    method Fresh(size: nat, frames: nat -> nat) returns (q: nat, ghost a: nat)
      requires Valid(Snap()) && NoWrap(size, 16) && Honest(frames, arenas)
      modifies this
      ensures Valid(Snap()) && SameLive(old(hdr), hdr, old(ptr)) && SameOutside(old(data), data, q, size)
      ensures if q == 0 then ptr == old(ptr) && data == old(data) else size != 0 && a !in old(ptr) && ptr == old(ptr)[a := q]
      ensures q != 0 ==> IsLive(Snap(), q) && hdr[back[q]].userSize == size
      ensures q != 0 <==> Allocatable(old(lists), old(arenas), frames, size, 16)
    {
      SixteenStays();
      q, a := Kmalloc(size, 16, frames);
      if q != 0 {
        NewIsLive(Snap(), a, q);
      }
    }
  }
}
