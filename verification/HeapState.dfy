/**
 The kernel heap as a value: what is in memory, the invariants, and the small steps the
 allocator takes.
 */
module HeapState {
  import opened Dyadic
  import opened HeapBlocks
  import opened FreeLists
  import opened HeapShape

  const FOOTER := 16
  const BACK_LINK := 8
  const ALLOC_POISON := 0xAA
  const FREE_POISON := 0xDD
  const MAX_ARENAS := 1024
  const GROW_CHUNK := 0x100_0000
  const PAGE := 4096

  function Extents(arenas: Arenas): (es: seq<nat>)
    ensures |es| == |arenas| && forall i :: 0 <= i < |arenas| ==> es[i] == Extent(arenas[i].size)
  {
    seq(|arenas|, i requires 0 <= i < |arenas| => Extent(arenas[i].size))
  }

  ghost predicate ListsOk(nodes: Nodes, heads: seq<nat>, lists: seq<seq<nat>>) {
    && |heads| == |lists| == MAX_ORDER + 1
    && forall k {:trigger Linked(nodes, heads[k], lists[k])} :: 0 <= k <= MAX_ORDER ==> Linked(nodes, heads[k], lists[k])
  }

  /** A live allocation: its payload lies between its back-pointer and its footer. */
  ghost predicate LiveAt(hdr: Headers, ptr: map<nat, nat>, back: map<nat, nat>, foot: set<nat>, a: nat)
    requires a in ptr
  {
    && a in hdr && !hdr[a].isFree
    && a + HEADER + BACK_LINK <= ptr[a]
    && ptr[a] + hdr[a].userSize + FOOTER <= a + Size(hdr[a].order)
    && ptr[a] in back && back[ptr[a]] == a
    && a + Size(hdr[a].order) - FOOTER in foot
  }

  ghost predicate LiveOk(hdr: Headers, ptr: map<nat, nat>, back: map<nat, nat>, foot: set<nat>) {
    forall a {:trigger LiveAt(hdr, ptr, back, foot, a)} :: a in ptr ==> LiveAt(hdr, ptr, back, foot, a)
  }

  /** Every used block is somebody's, except the one in hand. */
  ghost predicate AllOwned(hdr: Headers, ptr: map<nat, nat>, hand: set<nat>) {
    forall a {:trigger OwnedIfUsed(hdr, ptr, hand, a)} :: a in hdr ==> OwnedIfUsed(hdr, ptr, hand, a)
  }

  ghost predicate OwnedIfUsed(hdr: Headers, ptr: map<nat, nat>, hand: set<nat>, a: nat)
    requires a in hdr
  {
    hdr[a].isFree || a in hand || a in ptr
  }

  /** The headers of live blocks are as they were. */
  ghost predicate SameLive(hdr: Headers, hdr': Headers, ptr: map<nat, nat>) {
    forall a {:trigger SameHeader(hdr, hdr', a)} :: a in ptr ==> SameHeader(hdr, hdr', a)
  }

  ghost predicate SameHeader(hdr: Headers, hdr': Headers, a: nat) {
    a in hdr ==> a in hdr' && hdr'[a] == hdr[a]
  }

  datatype State = State(
    hdr: Headers, nodes: Nodes, heads: seq<nat>, arenas: Arenas, back: map<nat, nat>, foot: set<nat>,
    total: nat, peak: nat, freeBlocks: nat, home: Homes, lists: seq<seq<nat>>, ptr: map<nat, nat>)

  ghost function ShapeOf(st: State): Shape {
    Shape(st.arenas, Extents(st.arenas), st.hdr, st.home, st.lists)
  }

  /** The heap while block `a` is in hand as a block of order `k`, whatever its header still says. */
  ghost function Holding(st: State, a: nat, k: nat): Shape {
    Shape(st.arenas, Extents(st.arenas), st.hdr[a := Header(k, false, 0)], st.home, st.lists)
  }

  /** The statistics are exact. */
  ghost predicate Counted(st: State, hdr: Headers) {
    st.freeBlocks == |FreeSet(hdr)| && st.total == Asked(hdr) <= st.peak
  }

  /** Live allocations are in order, and every used block but those in hand is one. */
  ghost predicate Owned(st: State, hand: set<nat>) {
    LiveOk(st.hdr, st.ptr, st.back, st.foot) && AllOwned(st.hdr, st.ptr, hand)
  }

  ghost predicate Valid(st: State) {
    && Good(ShapeOf(st)) && ListsOk(st.nodes, st.heads, st.lists)
    && Owned(st, {}) && Counted(st, st.hdr)
  }

  /** The same, but for the one block in hand. */
  ghost predicate Held(st: State, a: nat, k: nat) {
    && InHand(Holding(st, a, k), a, k) && a in st.hdr && a !in st.ptr
    && ListsOk(st.nodes, st.heads, st.lists)
    && Owned(st, {a}) && Counted(st, Holding(st, a, k).hdr)
  }

  ghost predicate CanPop(st: State, k: nat) {
    && k < |st.lists| && |st.heads| == |st.lists| && st.lists[k] != [] && st.freeBlocks > 0
    && var n := st.heads[k];
       && n >= HEADER && n in st.nodes && (st.nodes[n].next != 0 ==> st.nodes[n].next in st.nodes)
  }

  /** The first block of a list comes into hand. */
  ghost function Popped(st: State, k: nat): State
    requires CanPop(st, k)
  {
    var next := st.nodes[st.heads[k]].next;
    st.(nodes := if next != 0 then SetPrev(st.nodes, next, 0) else st.nodes,
        heads := st.heads[k := next],
        lists := WithList(st.lists, k, Removed(st.lists[k], 0)),
        freeBlocks := st.freeBlocks - 1)
  }

  /** A free block of order `k` at `a` goes first onto its list. */
  ghost predicate CanPush(st: State, k: nat) {
    k < |st.lists| && |st.heads| == |st.lists| && (st.heads[k] != 0 ==> st.heads[k] in st.nodes)
  }

  ghost function Shelved(st: State, a: nat, k: nat): State
    requires CanPush(st, k)
  {
    st.(hdr := st.hdr[a := Header(k, true, 0)],
        nodes := Pushed(st.nodes, st.heads[k], a),
        heads := st.heads[k := a + HEADER],
        lists := WithList(st.lists, k, [a] + st.lists[k]),
        freeBlocks := st.freeBlocks + 1)
  }

  /** The upper half of the block in hand is shelved. */
  ghost function HalvedState(st: State, a: nat, k: nat): State
    requires CanPush(st, k) && a in st.home
  {
    Shelved(st, a + Size(k), k).(home := WithHome(st.home, a + Size(k), st.home[a]))
  }

  function AlignUp(x: nat, align: nat): nat
    requires align > 0
  {
    (x + align - 1) / align * align
  }

  /** What an allocation takes of a block: header, back-pointer, payload, footer, and room to align. */
  function Needed(size: nat, align: nat): nat
    requires align > 0
  {
    HEADER + BACK_LINK + size + FOOTER + align - 1
  }

  function PayloadOf(a: nat, align: nat): nat
    requires align > 0
  {
    AlignUp(a + HEADER + BACK_LINK, align)
  }

  ghost function Granted(st: State, a: nat, k: nat, size: nat, p: nat): State
    requires Size(k) >= FOOTER
  {
    st.(hdr := st.hdr[a := Header(k, false, size)],
        foot := st.foot + {a + Size(k) - FOOTER},
        total := st.total + size,
        peak := if st.total + size > st.peak then st.total + size else st.peak,
        back := st.back[p := a],
        ptr := st.ptr[a := p])
  }

  /** A byte of memory; what was never written reads as anything. */
  function Byte(data: map<nat, nat>, x: nat): nat {
    if x in data then data[x] else 0
  }

  /** Only the bytes of a range may have changed. */
  ghost predicate SameOutside(data: map<nat, nat>, data': map<nat, nat>, p: nat, size: nat) {
    forall x {:trigger Byte(data', x)} :: 0 <= x && !(p <= x < p + size) ==> Byte(data', x) == Byte(data, x)
  }

  ghost function Carving(st: State, cov: seq<nat>): Shape {
    Shape(st.arenas, cov, st.hdr, st.home, st.lists)
  }

  /** All is well, but of the last arena only the first `cov` bytes are blocks yet. */
  ghost predicate CarvingOk(st: State, cov: seq<nat>) {
    && st.arenas != [] && Good(Carving(st, cov))
    && MaximalSoFar(st.arenas, st.hdr, st.home, |st.arenas| - 1)
    && ListsOk(st.nodes, st.heads, st.lists) && Owned(st, {}) && Counted(st, st.hdr)
  }

  ghost function CarvedState(st: State, at: nat, k: nat): State
    requires CanPush(st, k) && st.arenas != []
  {
    Shelved(st, at, k).(home := WithHome(st.home, at, |st.arenas| - 1))
  }

  ghost function Covering(cov: seq<nat>, k: nat): seq<nat>
    requires cov != []
  {
    cov[|cov| - 1 := cov[|cov| - 1] + Size(k)]
  }

  /** The first block carved has the largest order that fits into the arena. */
  ghost predicate LargestFirst(hdr: Headers, base: nat, size: nat) {
    && base in hdr && hdr[base].isFree && hdr[base].order <= MAX_ORDER
    && forall k :: 0 <= k <= MAX_ORDER && Size(k) <= size ==> k <= hdr[base].order
  }

  /** The last arena is covered up to an offset, the others altogether. */
  ghost predicate Reached(arenas: Arenas, cov: seq<nat>, upto: nat) {
    && |cov| == |arenas| > 0 && cov[|cov| - 1] == upto
    && forall i :: 0 <= i < |cov| - 1 ==> cov[i] == Extent(arenas[i].size)
  }

  /** How far `carve_region` has come. */
  ghost predicate CarvedTo(arenas: Arenas, cov: seq<nat>, base: nat, size: nat, current: nat) {
    && arenas != [] && arenas[|arenas| - 1] == Arena(base, size) && base <= current <= base + size
    && Reached(arenas, cov, current - base) && Aligned(current - base, MIN_ORDER)
  }

  ghost predicate CarvedMore(was: Headers, st: State, cov: seq<nat>, base: nat, size: nat, current: nat) {
    && CarvedTo(st.arenas, cov, base, size, current)
    && (current > base ==> LargestFirst(st.hdr, base, size))
    && SameLive(was, st.hdr, st.ptr)
  }

  /** A block of every order that fits into `size` bytes is on the lists, or a larger one. */
  ghost predicate Stocked(lists: seq<seq<nat>>, size: nat) {
    forall k {:trigger Size(k)} :: MIN_ORDER <= k <= MAX_ORDER && Size(k) <= size ==>
      exists j :: k <= j <= MAX_ORDER && j < |lists| && lists[j] != []
  }

  /** A payload `p` of the size and alignment asked for, in a block that was nobody's. */
  /** The smallest order for this many bytes. */
  ghost predicate Smallest(o: nat, bytes: nat) {
    MIN_ORDER <= o <= MAX_ORDER && bytes <= Size(o) && (o == MIN_ORDER || Size(o - 1) < bytes)
  }

  /** A list from this order up has a block. */
  ghost predicate Stock(lists: seq<seq<nat>>, o: nat)
    requires |lists| == MAX_ORDER + 1
  {
    exists k :: o <= k <= MAX_ORDER && lists[k] != []
  }

  /** Whether the frame allocator, which answers `frames` to each size it is asked for, lets the heap grow by a block of
      an order: it is asked for 16 MiB, or the block if that is larger, and then for half as long as a block and a page
      fit. */
  ghost predicate CanExtend(frames: nat -> nat, arenas: Arenas, o: nat) {
    |arenas| < 1024 && exists m: nat {:trigger Size(m)} :: o <= m && 12 <= m && (m <= 24 || m <= o) && frames(Size(m)) != 0
  }

  /** When an allocation succeeds. */
  ghost predicate Allocatable(lists: seq<seq<nat>>, arenas: Arenas, frames: nat -> nat, size: nat, align: nat)
    requires |lists| == MAX_ORDER + 1 && align > 0
  {
    size > 0 && exists o: nat :: Smallest(o, 32 + 8 + size + 16 + align - 1) && (Stock(lists, o) || CanExtend(frames, arenas, o))
  }

  /** What the frame allocator gives is in no arena yet. */
  ghost predicate Honest(frames: nat -> nat, arenas: Arenas) {
    forall n: nat {:trigger frames(n)} :: frames(n) == 0 || ClearOfAll(arenas, Arena(frames(n), n))
  }

  ghost predicate Stamped(data: map<nat, nat>, p: nat, size: nat, value: nat) {
    forall x {:trigger Byte(data, x)} :: p <= x < p + size ==> Byte(data, x) == value
  }

  ghost predicate NewAllocation(was: map<nat, nat>, st: State, a: nat, p: nat, size: nat, align: nat)
    requires align > 0
  {
    && a !in was && st.ptr == was[a := p]
    && a in st.hdr && st.hdr[a].userSize == size && p % align == 0
  }

  ghost predicate CarveInv(was: Headers, st: State, cov: seq<nat>, base: nat, size: nat, current: nat) {
    CarvingOk(st, cov) && CarvedMore(was, st, cov, base, size, current)
  }

  const WORD := 0x1_0000_0000_0000_0000

  function Doubled(p: nat, least: nat): nat
    requires p > 0
    decreases least - p
  {
    if p < least then Doubled(2 * p, least) else p
  }

  /** The alignment that is used: at least 16, and a power of two. */
  function Rounded(align: nat): nat {
    Doubled(1, if align < 16 then 16 else align)
  }

  /** The sum of an allocation's parts fits in 64 bits, so that the code computes it right. */
  predicate NoWrap(size: nat, align: nat)
    requires align > 0
  {
    Needed(size, align) < WORD
  }

  // ------------------------------------------------------------------------
  // Freeing
  // ------------------------------------------------------------------------

  /** A live allocation's block comes into hand. */
  ghost predicate CanRelease(st: State, a: nat) {
    a in st.hdr && st.total >= st.hdr[a].userSize
  }

  ghost function Released(st: State, a: nat): State
    requires CanRelease(st, a)
  {
    st.(hdr := st.hdr[a := st.hdr[a].(userSize := 0)],
        total := st.total - st.hdr[a].userSize,
        ptr := WithoutKey(st.ptr, a))
  }

  function WithoutKey(m: map<nat, nat>, a: nat): map<nat, nat> {
    m - {a}
  }

  /** The free buddy `b` is taken off its list and the two become one block. */
  ghost predicate CanMerge(st: State, b: nat, k: nat, i: nat) {
    && k < |st.lists| && |st.heads| == |st.lists| && i < |st.lists[k]| && st.lists[k][i] == b && st.freeBlocks > 0
    && var n := b + HEADER;
       && n in st.nodes && (st.nodes[n].prev != 0 ==> st.nodes[n].prev in st.nodes)
       && (st.nodes[n].next != 0 ==> st.nodes[n].next in st.nodes)
  }

  ghost function Merged(st: State, a: nat, b: nat, k: nat, i: nat): State
    requires CanMerge(st, b, k, i)
  {
    var n, hi := b + HEADER, if b < a then a else b;
    st.(nodes := Unlinked(st.nodes, n),
        heads := st.heads[k := if st.nodes[n].prev != 0 then st.heads[k] else st.nodes[n].next],
        lists := WithList(st.lists, k, Removed(st.lists[k], i)),
        freeBlocks := st.freeBlocks - 1,
        hdr := WithoutHeader(st.hdr, hi),
        home := WithoutHome(st.home, hi))
  }

  function WithoutHeader(hdr: Headers, a: nat): Headers {
    hdr - {a}
  }

  /** A pointer that came from the heap and was not freed. */
  ghost predicate IsLive(st: State, p: nat) {
    p in st.back && st.back[p] in st.ptr && st.ptr[st.back[p]] == p && st.back[p] in st.hdr
  }

  /** A live allocation is given another size in its block. */
  ghost function InPlace(st: State, a: nat, size: nat): State
    requires CanRelease(st, a)
  {
    var total := st.total - st.hdr[a].userSize + size;
    st.(hdr := st.hdr[a := st.hdr[a].(userSize := size)],
        total := total,
        peak := if total > st.peak then total else st.peak)
  }

  /** The bytes of two ranges agree. */
  ghost predicate SameBytes(data: map<nat, nat>, p: nat, data': map<nat, nat>, q: nat, n: nat) {
    forall x {:trigger Byte(data', x)} :: q <= x < q + n ==> Byte(data', x) == Byte(data, x - q + p)
  }

  ghost predicate SameOutsideBoth(data: map<nat, nat>, data': map<nat, nat>, p: nat, n: nat, q: nat, m: nat) {
    forall x {:trigger Byte(data', x)} :: 0 <= x && !(p <= x < p + n) && !(q <= x < q + m) ==> Byte(data', x) == Byte(data, x)
  }

  /** The allocation in the block `from` is gone, and `q` is one in the block `to`. */
  function Moved(ptr: map<nat, nat>, from: nat, to: nat, q: nat): map<nat, nat> {
    WithoutKey(ptr[to := q], from)
  }
}
