/**
 The radix tree behind a PPGTT: 512-entry tables in physical frames, four levels, with a
 shared chain of scratch tables wherever nothing was mapped. What the hardware's walk finds is
 related to a flat map from page numbers to entries.
 */
module PageTables {
  import opened Basics

  const ENTRIES := 512
  const PAGE := 4096
  const PAGES := 0x10_0000_0000             // page numbers of a 48-bit space
  const FRAME_LIMIT := 0x1_0000_0000_0000

  type Mem = map<nat, seq<nat>>

  /** A table's place: its level (3 is the PML4) and the page-number bits above its own. */
  datatype Node = Node(level: nat, prefix: nat)

  type Tree = map<Node, nat>

  datatype Scratch = Scratch(page: nat, pt: nat, pd: nat, pdp: nat)

  // ------------------------------------------------------------------------
  // Entries and indices
  // ------------------------------------------------------------------------

  function EntryAddress(entry: nat): nat {
    (entry / PAGE % PAGES) * PAGE
  }

  function Pte(phys: nat, cached: bool): nat {
    EntryAddress(phys) + 3 + if cached then 128 else 24
  }

  function Pde(table: nat): nat {
    EntryAddress(table) + 3
  }

  // How the hardware reads an entry.

  predicate Present(entry: nat) { entry % 2 == 1 }

  predicate Writable(entry: nat) { entry / 2 % 2 == 1 }

  /** The entry's place in the private PAT: its PWT, PCD and PAT bits. */
  function PatIndex(entry: nat): nat {
    entry / 8 % 2 + 2 * (entry / 16 % 2) + 4 * (entry / 128 % 2)
  }

  /** Bits 12 to 47. */
  function FrameIn(entry: nat): nat {
    entry / 4096 % 0x10_0000_0000 * 4096
  }

  /** A present, writable entry for a frame, with a place in the PAT. */
  predicate LeadsTo(entry: nat, frame: nat, pat: nat) {
    Present(entry) && Writable(entry) && FrameIn(entry) == frame && PatIndex(entry) == pat
  }

  predicate FrameOk(f: nat) {
    0 < f < FRAME_LIMIT && f % PAGE == 0
  }

  lemma FlagBit(q: nat, low: nat, d: nat, half: nat)
    requires d > 0 && d * (2 * half) == 4096
    ensures (q * 4096 + low) / d % 2 == low / d % 2
  {
    DivMod(low, d);
    Associates(d, 2 * half, q);
    Distributes(d, 2 * half * q, low / d);
    Quotient(q * 4096 + low, d, 2 * half * q + low / d, low % d);
    assert 2 * half * q == 2 * (half * q);
  }

  /** The flags are below the frame. */
  lemma FlagBits(q: nat, low: nat)
    requires low < 4096
    ensures var e := q * 4096 + low;
            && e / 4096 == q && PatIndex(e) == PatIndex(low)
            && (Present(e) <==> Present(low)) && (Writable(e) <==> Writable(low))
  {
    FlagBit(q, low, 1, 2048);
    FlagBit(q, low, 2, 1024);
    FlagBit(q, low, 8, 256);
    FlagBit(q, low, 16, 128);
    FlagBit(q, low, 128, 16);
    Quotient(q * 4096 + low, 4096, q, low);
  }

  lemma FlagValues()
    ensures Present(131) && Writable(131) && PatIndex(131) == 4
    ensures Present(27) && Writable(27) && PatIndex(27) == 3
    ensures Present(3) && Writable(3) && PatIndex(3) == 0
  {
  }

  lemma EntryRead(q: nat, low: nat)
    requires q < PAGES && low < 4096 && Present(low) && Writable(low)
    ensures LeadsTo(q * 4096 + low, q * 4096, PatIndex(low)) && EntryAddress(q * 4096 + low) == q * 4096
  {
    FlagBits(q, low);
  }

  /** Of any address the entry keeps bits 12 to 47. */
  lemma PteRead(phys: nat, cached: bool)
    ensures LeadsTo(Pte(phys, cached), phys / 4096 % 0x10_0000_0000 * 4096, if cached then 4 else 3)
  {
    var q, low := phys / PAGE % PAGES, if cached then 131 else 27;
    FlagValues();
    EntryRead(q, low);
    assert Pte(phys, cached) == q * 4096 + low;
  }

  /** What the hardware reads in an entry is what it was made from: index 4 for a cached page, 3 for an uncached one, 0
      for a table. And the driver reads back its address. */
  lemma EntryRoundTrip(phys: nat, cached: bool)
    requires phys < FRAME_LIMIT && phys % PAGE == 0
    ensures LeadsTo(Pte(phys, cached), phys, if cached then 4 else 3) && LeadsTo(Pde(phys), phys, 0)
    ensures EntryAddress(phys) == phys && EntryAddress(Pde(phys)) == phys && EntryAddress(Pte(phys, cached)) == phys
  {
    var q, low := phys / PAGE, if cached then 131 else 27;
    assert phys == q * 4096 && q < PAGES;
    assert EntryAddress(phys) == phys;
    FlagValues();
    EntryRead(q, low);
    EntryRead(q, 3);
    assert Pte(phys, cached) == q * 4096 + low && Pde(phys) == q * 4096 + 3;
  }

  /** `kGen9PrivatePat`: a byte for each of the eight memory types. */
  const PRIVATE_PAT := 0x3B2B_1B0B_0003_0907

  function Byte(word: nat, i: nat): nat {
    if i == 0 then word % 256 else Byte(word / 256, i - 1)
  }

  // The memory type is the low two bits of a byte.
  const UNCACHED := 0
  const WRITE_BACK := 3

  function MemoryType(entry: nat): nat {
    Byte(PRIVATE_PAT, PatIndex(entry)) % 4
  }

  /** With the PAT the driver programs, cached pages and tables are write-back and other pages are uncached, whatever
      the frame. */
  lemma EntryCaching(phys: nat, cached: bool)
    ensures MemoryType(Pte(phys, cached)) == (if cached then WRITE_BACK else UNCACHED) && MemoryType(Pde(phys)) == WRITE_BACK
  {
    var q, low := phys / PAGE % PAGES, if cached then 131 else 27;
    FlagValues();
    EntryRead(q, low);
    EntryRead(q, 3);
    assert Pte(phys, cached) == q * 4096 + low && Pde(phys) == q * 4096 + 3;
    PatTypes();
  }

  lemma PatTypes()
    ensures Byte(PRIVATE_PAT, 0) % 4 == WRITE_BACK && Byte(PRIVATE_PAT, 3) % 4 == UNCACHED && Byte(PRIVATE_PAT, 4) % 4 == WRITE_BACK
  {
    var a := PRIVATE_PAT / 256;
    var b := a / 256;
    var c := b / 256;
    assert Byte(PRIVATE_PAT, 3) == Byte(a, 2) == Byte(b, 1) == Byte(c, 0);
    assert Byte(PRIVATE_PAT, 4) == Byte(a, 3) == Byte(b, 2) == Byte(c, 1);
  }

  /** The page number's bits above a table of `level`. */
  function Prefix(vpn: nat, level: nat): nat {
    if level == 0 then vpn / ENTRIES else Prefix(vpn, level - 1) / ENTRIES
  }

  /** Its index in a table of `level`. */
  function Index(vpn: nat, level: nat): (i: nat)
    ensures i < ENTRIES
  {
    if level == 0 then vpn % ENTRIES else Prefix(vpn, level - 1) % ENTRIES
  }

  function PageOf(address: nat): nat {
    address / PAGE % PAGES
  }

  function Shift(level: nat): nat
    requires level < 4
  {
    match level case 0 => 0x1000 case 1 => 0x20_0000 case 2 => 0x4000_0000 case _ => 0x80_0000_0000
  }

  /** `ppgttIndex`. */
  function IndexAt(address: nat, level: nat): nat
    requires level < 4
  {
    address / Shift(level) % ENTRIES
  }

  lemma DivDiv(a: nat, b: nat, c: nat)
    requires b > 0 && c > 0
    ensures b * c > 0 && a / b / c == a / (b * c)
  {
    var q, r := a / b, a % b;
    var s, t := q / c, q % c;
    DivMod(a, b);
    DivMod(q, c);
    Distributes(b, c * s, t);
    Associates(b, c, s);
    assert a == (b * c) * s + (b * t + r);
    MulMono(b, t, c - 1);
    Distributes(b, c, -1);
    assert b * t + r < b * c;
    Quotient(a, b * c, s, b * t + r);
  }

  lemma PrefixIs(vpn: nat)
    ensures Prefix(vpn, 0) == vpn / 0x200 && Prefix(vpn, 1) == vpn / 0x4_0000 && Prefix(vpn, 2) == vpn / 0x800_0000
    ensures Prefix(vpn, 3) == vpn / PAGES
  {
    DivDiv(vpn, 0x200, 512);
    DivDiv(vpn, 0x4_0000, 512);
    DivDiv(vpn, 0x800_0000, 512);
  }

  /** Bits above the 48th do not show below them. */
  lemma LowBits(n: nat, d: nat, m: nat)
    requires d > 0 && d * m == PAGES
    ensures n / d == m * (n / PAGES) + n % PAGES / d
  {
    var k, vpn := n / PAGES, n % PAGES;
    DivMod(n, PAGES);
    DivMod(vpn, d);
    Associates(d, m, k);
    Distributes(d, m * k, vpn / d);
    assert n == d * (m * k + vpn / d) + vpn % d;
    Quotient(n, d, m * k + vpn / d, vpn % d);
  }

  lemma LowIndex(n: nat, d: nat, j: nat)
    requires d > 0 && d * (ENTRIES * j) == PAGES
    ensures n / d % ENTRIES == n % PAGES / d % ENTRIES
  {
    var a, x := j * (n / PAGES), n % PAGES / d;
    LowBits(n, d, ENTRIES * j);
    assert ENTRIES * j * (n / PAGES) == ENTRIES * a;
    assert (ENTRIES * a + x) % ENTRIES == x % ENTRIES;
  }

  /** Taking the address apart by shifts and taking the page number apart level by level agree. */
  lemma IndexAgrees(address: nat, level: nat)
    requires level < 4
    ensures IndexAt(address, level) == Index(PageOf(address), level)
  {
    var n := address / PAGE;
    PrefixIs(n % PAGES);
    if level == 0 {
      LowIndex(n, 1, 0x800_0000);
    } else if level == 1 {
      DivDiv(address, PAGE, 0x200);
      LowIndex(n, 0x200, 0x4_0000);
    } else if level == 2 {
      DivDiv(address, PAGE, 0x4_0000);
      LowIndex(n, 0x4_0000, 0x200);
    } else {
      DivDiv(address, PAGE, 0x800_0000);
      LowIndex(n, 0x800_0000, 1);
    }
  }

  lemma PrefixSplit(vpn: nat, level: nat)
    requires level > 0
    ensures Prefix(vpn, level - 1) == Prefix(vpn, level) * ENTRIES + Index(vpn, level)
  {
  }

  lemma PrefixTop(vpn: nat)
    requires vpn < PAGES
    ensures Prefix(vpn, 3) == 0
  {
    PrefixIs(vpn);
  }

  // ------------------------------------------------------------------------
  // The walk, and the tree it walks
  // ------------------------------------------------------------------------

  /** What the hardware does: from a table of `level` down to the entry for a page, as far as entries are present. */
  ghost function Walk(mem: Mem, table: nat, vpn: nat, level: nat): nat
    decreases level
  {
    if table !in mem || |mem[table]| != ENTRIES then 0
    else if level == 0 then mem[table][Index(vpn, 0)]
    else if !Present(mem[table][Index(vpn, level)]) then 0
    else Walk(mem, FrameIn(mem[table][Index(vpn, level)]), vpn, level - 1)
  }

  /** The scratch table an entry of a table of `level` leads to when nothing is there. */
  function ScratchBelow(sc: Scratch, level: nat): nat {
    if level == 3 then sc.pdp else if level == 2 then sc.pd else sc.pt
  }

  /** What a new table of `level` is filled with. */
  function Fill(sc: Scratch, level: nat): nat {
    if level == 0 then Pte(sc.page, true) else Pde(ScratchBelow(sc, level))
  }

  function Filled(fill: nat): (t: seq<nat>)
    ensures |t| == ENTRIES && forall i :: 0 <= i < ENTRIES ==> t[i] == fill
  {
    seq(ENTRIES, _ => fill)
  }

  ghost predicate ScratchOk(mem: Mem, sc: Scratch) {
    && FrameOk(sc.pt) && FrameOk(sc.pd) && FrameOk(sc.pdp)
    && sc.pt != sc.pd && sc.pt != sc.pdp && sc.pd != sc.pdp
    && sc.pt in mem && mem[sc.pt] == Filled(Fill(sc, 0))
    && sc.pd in mem && mem[sc.pd] == Filled(Fill(sc, 1))
    && sc.pdp in mem && mem[sc.pdp] == Filled(Fill(sc, 2))
  }

  function ScratchTables(sc: Scratch): set<nat> {
    {sc.pt, sc.pd, sc.pdp}
  }

  function Child(n: Node, i: nat): Node
    requires n.level > 0
  {
    Node(n.level - 1, n.prefix * ENTRIES + i)
  }

  function Parent(n: Node): Node {
    Node(n.level + 1, n.prefix / ENTRIES)
  }

  const ROOT := Node(3, 0)

  /** A table's frame holds 512 entries, is no scratch table, and above it is its parent. */
  ghost predicate NodeOk(mem: Mem, sc: Scratch, tree: Tree, n: Node)
    requires n in tree
  {
    && FrameOk(tree[n]) && tree[n] !in ScratchTables(sc)
    && tree[n] in mem && |mem[tree[n]]| == ENTRIES
    && n.level <= 3 && (n.level == 3 ==> n == ROOT) && (n.level < 3 ==> Parent(n) in tree)
  }

  /** An entry leads to the table below, or else to the scratch chain. */
  ghost predicate EntryOk(mem: Mem, sc: Scratch, tree: Tree, n: Node, i: nat)
    requires n in tree && n.level > 0 && i < ENTRIES
    requires tree[n] in mem && |mem[tree[n]]| == ENTRIES
  {
    mem[tree[n]][i] == if Child(n, i) in tree then Pde(tree[Child(n, i)]) else Fill(sc, n.level)
  }

  ghost predicate NodesOk(mem: Mem, sc: Scratch, tree: Tree) {
    forall n {:trigger NodeOk(mem, sc, tree, n)} :: n in tree ==> NodeOk(mem, sc, tree, n)
  }

  ghost predicate EntriesOk(mem: Mem, sc: Scratch, tree: Tree)
    requires NodesOk(mem, sc, tree)
  {
    forall n, i {:trigger EntryOk(mem, sc, tree, n, i)} :: n in tree && n.level > 0 && 0 <= i < ENTRIES ==>
      NodeOk(mem, sc, tree, n) && EntryOk(mem, sc, tree, n, i)
  }

  ghost predicate Injective(tree: Tree) {
    forall a, b :: a in tree && b in tree && a != b ==> tree[a] != tree[b]
  }

  ghost predicate TreeOk(mem: Mem, sc: Scratch, tree: Tree) {
    && ScratchOk(mem, sc)
    && ROOT in tree && Injective(tree)
    && NodesOk(mem, sc, tree) && EntriesOk(mem, sc, tree)
  }

  /** The flat map the tree stands for. */
  ghost function Entry(mem: Mem, sc: Scratch, tree: Tree, vpn: nat): nat
    requires NodesOk(mem, sc, tree)
  {
    var n := Node(0, Prefix(vpn, 0));
    if n in tree then
      assert NodeOk(mem, sc, tree, n);
      mem[tree[n]][Index(vpn, 0)]
    else Fill(sc, 0)
  }

  /** The walk from any table of the tree finds what the flat map says. */
  lemma {:induction false} WalkFinds(mem: Mem, sc: Scratch, tree: Tree, vpn: nat, level: nat)
    requires TreeOk(mem, sc, tree) && Node(level, Prefix(vpn, level)) in tree
    ensures Walk(mem, tree[Node(level, Prefix(vpn, level))], vpn, level) == Entry(mem, sc, tree, vpn)
  {
    var n := Node(level, Prefix(vpn, level));
    assert NodeOk(mem, sc, tree, n);
    if level > 0 {
      var i := Index(vpn, level);
      PrefixSplit(vpn, level);
      assert Child(n, i) == Node(level - 1, Prefix(vpn, level - 1));
      assert EntryOk(mem, sc, tree, n, i);
      if Child(n, i) in tree {
        assert NodeOk(mem, sc, tree, Child(n, i));
        EntryRoundTrip(tree[Child(n, i)], true);
        WalkFinds(mem, sc, tree, vpn, level - 1);
      } else {
        WalkScratch(mem, sc, vpn, level);
        NoneBelow(mem, sc, tree, vpn, level - 1);
      }
    }
  }

  /** Down the scratch chain every walk ends at the scratch page. */
  lemma WalkScratch(mem: Mem, sc: Scratch, vpn: nat, level: nat)
    requires ScratchOk(mem, sc) && 0 < level <= 3
    ensures Present(Fill(sc, level)) && Walk(mem, FrameIn(Fill(sc, level)), vpn, level - 1) == Fill(sc, 0)
  {
    EntryRoundTrip(sc.pt, true);
    EntryRoundTrip(sc.pd, true);
    EntryRoundTrip(sc.pdp, true);
    assert Walk(mem, sc.pt, vpn, 0) == Fill(sc, 0);
    assert Walk(mem, sc.pd, vpn, 1) == Walk(mem, sc.pt, vpn, 0);
    assert Walk(mem, sc.pdp, vpn, 2) == Walk(mem, sc.pd, vpn, 1);
  }

  /** Without a table there are none below it. */
  lemma {:induction false} NoneBelow(mem: Mem, sc: Scratch, tree: Tree, vpn: nat, level: nat)
    requires NodesOk(mem, sc, tree) && level < 3 && Node(level, Prefix(vpn, level)) !in tree
    ensures Node(0, Prefix(vpn, 0)) !in tree
    decreases level
  {
    if level > 0 {
      var below := Node(level - 1, Prefix(vpn, level - 1));
      assert below in tree ==> NodeOk(mem, sc, tree, below) && Parent(below) in tree;
      NoneBelow(mem, sc, tree, vpn, level - 1);
    }
  }

  // ------------------------------------------------------------------------
  // Changing the tree
  // ------------------------------------------------------------------------

  ghost predicate Unused(sc: Scratch, tree: Tree, f: nat) {
    && FrameOk(f) && f !in ScratchTables(sc)
    && forall n :: n in tree ==> tree[n] != f
  }

  function WriteEntry(mem: Mem, table: nat, i: nat, entry: nat): Mem
    requires table in mem && i < |mem[table]|
  {
    var entries: seq<nat> := mem[table][i := entry];
    mem[table := entries]
  }

  /** A new table below an entry that led to the scratch chain. */
  ghost predicate CanGrow(mem: Mem, sc: Scratch, tree: Tree, n: Node, i: nat, child: nat) {
    && TreeOk(mem, sc, tree) && n in tree && n.level > 0 && i < ENTRIES
    && Child(n, i) !in tree && Unused(sc, tree, child)
    && NodeOk(mem, sc, tree, n)
  }

  ghost function Grown(mem: Mem, sc: Scratch, tree: Tree, n: Node, i: nat, child: nat): Mem
    requires CanGrow(mem, sc, tree, n, i, child)
  {
    WriteEntry(mem[child := Filled(Fill(sc, n.level - 1))], tree[n], i, Pde(child))
  }

  lemma GrowNodes(mem: Mem, sc: Scratch, tree: Tree, n: Node, i: nat, child: nat)
    requires CanGrow(mem, sc, tree, n, i, child)
    ensures NodesOk(Grown(mem, sc, tree, n, i, child), sc, tree[Child(n, i) := child])
    ensures ScratchOk(Grown(mem, sc, tree, n, i, child), sc) && Injective(tree[Child(n, i) := child])
  {
    var mem', tree' := Grown(mem, sc, tree, n, i, child), tree[Child(n, i) := child];
    forall m | m in tree'
      ensures NodeOk(mem', sc, tree', m)
    {
      if m == Child(n, i) {
        assert Parent(m) == n;
      } else {
        assert NodeOk(mem, sc, tree, m);
      }
    }
  }

  lemma GrowEntries(mem: Mem, sc: Scratch, tree: Tree, n: Node, i: nat, child: nat, m: Node, j: nat)
    requires CanGrow(mem, sc, tree, n, i, child)
    requires m in tree[Child(n, i) := child] && m.level > 0 && j < ENTRIES
    ensures NodeOk(Grown(mem, sc, tree, n, i, child), sc, tree[Child(n, i) := child], m)
    ensures EntryOk(Grown(mem, sc, tree, n, i, child), sc, tree[Child(n, i) := child], m, j)
  {
    var mem', tree' := Grown(mem, sc, tree, n, i, child), tree[Child(n, i) := child];
    GrowNodes(mem, sc, tree, n, i, child);
    assert NodeOk(mem', sc, tree', m);
    if m == Child(n, i) {
      assert Child(m, j) in tree ==> NodeOk(mem, sc, tree, Child(m, j)) && Parent(Child(m, j)) == m;
    } else {
      assert NodeOk(mem, sc, tree, m) && EntryOk(mem, sc, tree, m, j);
      assert Child(m, j) == Child(n, i) ==> m == n && i == j;
    }
  }

  lemma GrowKeeps(mem: Mem, sc: Scratch, tree: Tree, n: Node, i: nat, child: nat, vpn: nat)
    requires CanGrow(mem, sc, tree, n, i, child)
    ensures NodesOk(Grown(mem, sc, tree, n, i, child), sc, tree[Child(n, i) := child])
    ensures Entry(Grown(mem, sc, tree, n, i, child), sc, tree[Child(n, i) := child], vpn) == Entry(mem, sc, tree, vpn)
  {
    GrowNodes(mem, sc, tree, n, i, child);
    var leaf := Node(0, Prefix(vpn, 0));
    if leaf in tree {
      assert NodeOk(mem, sc, tree, leaf);
    }
  }

  /** Adding a table changes no translation. */
  lemma Grow(mem: Mem, sc: Scratch, tree: Tree, n: Node, i: nat, child: nat)
    requires CanGrow(mem, sc, tree, n, i, child)
    ensures TreeOk(Grown(mem, sc, tree, n, i, child), sc, tree[Child(n, i) := child])
    ensures SameEntries(mem, tree, Grown(mem, sc, tree, n, i, child), tree[Child(n, i) := child], sc)
  {
    var mem', tree' := Grown(mem, sc, tree, n, i, child), tree[Child(n, i) := child];
    GrowNodes(mem, sc, tree, n, i, child);
    forall m, j: nat | m in tree' && m.level > 0 && j < ENTRIES
      ensures NodeOk(mem', sc, tree', m) && EntryOk(mem', sc, tree', m, j)
    {
      GrowEntries(mem, sc, tree, n, i, child, m, j);
    }
    forall vpn
      ensures Entry(mem', sc, tree', vpn) == Entry(mem, sc, tree, vpn)
    {
      GrowKeeps(mem, sc, tree, n, i, child, vpn);
    }
  }

  ghost predicate SameEntries(mem: Mem, tree: Tree, mem': Mem, tree': Tree, sc: Scratch)
    requires NodesOk(mem, sc, tree) && NodesOk(mem', sc, tree')
  {
    forall vpn {:trigger Entry(mem', sc, tree', vpn)} :: Entry(mem', sc, tree', vpn) == Entry(mem, sc, tree, vpn)
  }

  // ------------------------------------------------------------------------
  // Writing a leaf
  // ------------------------------------------------------------------------

  ghost predicate CanWrite(mem: Mem, sc: Scratch, tree: Tree, vpn: nat) {
    && TreeOk(mem, sc, tree)
    && Node(0, Prefix(vpn, 0)) in tree
    && NodeOk(mem, sc, tree, Node(0, Prefix(vpn, 0)))
  }

  ghost function Written(mem: Mem, sc: Scratch, tree: Tree, vpn: nat, entry: nat): Mem
    requires CanWrite(mem, sc, tree, vpn)
  {
    WriteEntry(mem, tree[Node(0, Prefix(vpn, 0))], Index(vpn, 0), entry)
  }

  /** Writing a page's entry changes its translation and no other. */
  lemma Write(mem: Mem, sc: Scratch, tree: Tree, vpn: nat, entry: nat)
    requires CanWrite(mem, sc, tree, vpn)
    ensures var mem' := Written(mem, sc, tree, vpn, entry);
            && TreeOk(mem', sc, tree)
            && forall v {:trigger Entry(mem', sc, tree, v)} ::
                 Entry(mem', sc, tree, v) == if v == vpn then entry else Entry(mem, sc, tree, v)
  {
    var mem', leaf := Written(mem, sc, tree, vpn, entry), Node(0, Prefix(vpn, 0));
    forall m | m in tree
      ensures NodeOk(mem', sc, tree, m)
    {
      assert NodeOk(mem, sc, tree, m);
    }
    forall m, j: nat | m in tree && m.level > 0 && j < ENTRIES
      ensures NodeOk(mem', sc, tree, m) && EntryOk(mem', sc, tree, m, j)
    {
      assert NodeOk(mem, sc, tree, m) && EntryOk(mem, sc, tree, m, j) && NodeOk(mem', sc, tree, m);
    }
    forall v
      ensures Entry(mem', sc, tree, v) == if v == vpn then entry else Entry(mem, sc, tree, v)
    {
      var n := Node(0, Prefix(v, 0));
      if n in tree {
        assert NodeOk(mem, sc, tree, n);
        assert n == leaf && Index(v, 0) == Index(vpn, 0) ==> v == vpn;
      }
    }
  }

  /** Frames the tree and the scratch chain do not use may hold anything. */
  lemma Frame(mem: Mem, mem': Mem, sc: Scratch, tree: Tree)
    requires TreeOk(mem, sc, tree)
    requires forall f :: f in ScratchTables(sc) ==> f in mem' && mem'[f] == mem[f]
    requires forall n :: n in tree && tree[n] in mem ==> tree[n] in mem' && mem'[tree[n]] == mem[tree[n]]
    ensures TreeOk(mem', sc, tree) && SameEntries(mem, tree, mem', tree, sc)
  {
    forall m | m in tree
      ensures NodeOk(mem', sc, tree, m)
    {
      assert NodeOk(mem, sc, tree, m);
    }
    forall m, j: nat | m in tree && m.level > 0 && j < ENTRIES
      ensures NodeOk(mem', sc, tree, m) && EntryOk(mem', sc, tree, m, j)
    {
      assert NodeOk(mem, sc, tree, m) && EntryOk(mem, sc, tree, m, j) && NodeOk(mem', sc, tree, m);
    }
    forall v
      ensures Entry(mem', sc, tree, v) == Entry(mem, sc, tree, v)
    {
      var n := Node(0, Prefix(v, 0));
      if n in tree {
        assert NodeOk(mem, sc, tree, n);
      }
    }
  }

  // ------------------------------------------------------------------------
  // Taking a tree apart
  // ------------------------------------------------------------------------

  /** `m` is `n` or a table somewhere below it. */
  ghost predicate Under(m: Node, n: Node)
    decreases n.level - m.level
  {
    m == n || (m.level < n.level && Under(Parent(m), n))
  }

  /** Through which entry of `n` the table is reached. */
  ghost function Branch(m: Node, n: Node): nat
    requires m.level < n.level && Under(m, n)
    decreases n.level - m.level
  {
    if m.level + 1 == n.level then m.prefix % ENTRIES else Branch(Parent(m), n)
  }

  lemma {:induction false} UnderChild(m: Node, n: Node, i: nat)
    requires n.level > 0 && i < ENTRIES
    ensures Under(m, Child(n, i)) <==> m.level < n.level && Under(m, n) && Branch(m, n) == i
    decreases n.level - m.level
  {
    if m.level < n.level {
      if m.level + 1 == n.level {
        assert Under(m, n) <==> Parent(m) == n;
        assert m == Child(n, i) <==> m.prefix / ENTRIES == n.prefix && m.prefix % ENTRIES == i;
      } else {
        UnderChild(Parent(m), n, i);
      }
    }
  }

  lemma {:induction false} BranchBound(m: Node, n: Node)
    requires m.level < n.level && Under(m, n)
    ensures Branch(m, n) < ENTRIES
    decreases n.level - m.level
  {
    if m.level + 1 < n.level {
      BranchBound(Parent(m), n);
    }
  }

  /** The frames of the tables at and below `n`. */
  ghost function FramesUnder(tree: Tree, n: Node): set<nat> {
    set m | m in tree && Under(m, n) :: tree[m]
  }

  /** Those below the first `i` entries of `n`. */
  ghost function FramesBefore(tree: Tree, n: Node, i: nat): set<nat> {
    set m | m in tree && m.level < n.level && Under(m, n) && Branch(m, n) < i :: tree[m]
  }

  lemma FramesNext(tree: Tree, n: Node, i: nat)
    requires n.level > 0 && i < ENTRIES
    ensures FramesBefore(tree, n, i + 1) == FramesBefore(tree, n, i) + FramesUnder(tree, Child(n, i))
  {
    forall f
      ensures f in FramesBefore(tree, n, i + 1) <==> f in FramesBefore(tree, n, i) + FramesUnder(tree, Child(n, i))
    {
      forall m | m in tree
        ensures Under(m, Child(n, i)) <==> m.level < n.level && Under(m, n) && Branch(m, n) == i
      {
        UnderChild(m, n, i);
      }
    }
  }

  lemma FramesApart(tree: Tree, n: Node, i: nat)
    requires Injective(tree) && n.level > 0 && i < ENTRIES
    ensures FramesBefore(tree, n, i) !! FramesUnder(tree, Child(n, i))
    ensures n in tree ==> tree[n] !in FramesBefore(tree, n, i) && tree[n] !in FramesUnder(tree, Child(n, i))
  {
    forall m | m in tree
      ensures Under(m, Child(n, i)) <==> m.level < n.level && Under(m, n) && Branch(m, n) == i
    {
      UnderChild(m, n, i);
    }
  }

  /** All entries, and the table itself. */
  lemma FramesAll(tree: Tree, n: Node)
    requires n in tree
    ensures FramesUnder(tree, n) == FramesBefore(tree, n, ENTRIES) + {tree[n]}
  {
    forall m | m in tree && m.level < n.level && Under(m, n)
      ensures Branch(m, n) < ENTRIES
    {
      BranchBound(m, n);
    }
    assert Under(n, n);
    assert forall m :: m in tree && Under(m, n) ==> m == n || m.level < n.level;
  }

  /** Below a table that is not there, there are none. */
  lemma {:induction false} NothingUnder(mem: Mem, sc: Scratch, tree: Tree, n: Node, m: Node)
    requires NodesOk(mem, sc, tree) && n !in tree && m in tree && n.level < 3
    ensures !Under(m, n)
    decreases n.level - m.level
  {
    assert NodeOk(mem, sc, tree, m);
    if m.level < n.level {
      NothingUnder(mem, sc, tree, n, Parent(m));
    }
  }

  /** Every table is under the PML4. */
  lemma {:induction false} AllUnderRoot(mem: Mem, sc: Scratch, tree: Tree, m: Node)
    requires NodesOk(mem, sc, tree) && m in tree
    ensures Under(m, ROOT)
    decreases 3 - m.level
  {
    assert NodeOk(mem, sc, tree, m);
    if m.level < 3 {
      AllUnderRoot(mem, sc, tree, Parent(m));
    }
  }
}
