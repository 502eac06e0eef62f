/**
 The driver's PPGTTs: address spaces over one physical memory, each with tables of its own
 taken from the frame allocator, all sharing one chain of scratch tables.
 */
module Ppgtt {
  import opened Basics
  import opened PageTables

  /** `Ppgtt`. */
  datatype Space = Space(pml4: nat, tablePages: nat)

  /** Everything the page-table code touches, and which frame is which table of whom. */
  datatype World = World(mem: Mem, free: set<nat>, sc: Scratch, vms: map<nat, Space>, trees: map<nat, Tree>)

  ghost predicate SpaceOk(w: World, v: nat)
    requires v in w.vms && v in w.trees
  {
    && TreeOk(w.mem, w.sc, w.trees[v])
    && w.vms[v].pml4 == w.trees[v][ROOT]
    && w.vms[v].tablePages == |w.trees[v]|
    && w.trees[v].Values !! w.free
  }

  ghost predicate FreeOk(w: World) {
    && (forall f :: f in w.free ==> FrameOk(f))
    && w.free !! ScratchTables(w.sc)
  }

  /** Tables are private: no frame is free, scratch, or a table of two spaces. */
  ghost predicate Private(w: World) {
    forall a, b :: a in w.trees && b in w.trees && a != b ==> w.trees[a].Values !! w.trees[b].Values
  }

  ghost predicate WorldOk(w: World) {
    && w.trees.Keys == w.vms.Keys
    && FreeOk(w) && Private(w)
    && (w.sc.pdp != 0 ==> ScratchOk(w.mem, w.sc))
    && (w.vms.Keys != {} ==> w.sc.pdp != 0)
    && forall v {:trigger SpaceOk(w, v)} :: v in w.vms ==> SpaceOk(w, v)
  }

  /** What a page of an address space translates to: the leaf entry the hardware's walk ends at. */
  ghost function Sees(w: World, v: nat, vpn: nat): nat
    requires WorldOk(w) && v in w.vms
  {
    assert SpaceOk(w, v);
    Entry(w.mem, w.sc, w.trees[v], vpn)
  }

  /** The hardware, starting from the PML4, agrees. */
  lemma HardwareAgrees(w: World, v: nat, vpn: nat)
    requires WorldOk(w) && v in w.vms && vpn < PAGES
    ensures Walk(w.mem, w.vms[v].pml4, vpn, 3) == Sees(w, v, vpn)
  {
    assert SpaceOk(w, v);
    PrefixTop(vpn);
    WalkFinds(w.mem, w.sc, w.trees[v], vpn, 3);
  }

  ghost predicate SameFor(w: World, w': World, u: nat)
    requires WorldOk(w) && WorldOk(w') && u in w.vms && u in w'.vms
  {
    && w'.vms[u] == w.vms[u] && w'.trees[u] == w.trees[u]
    && forall vpn {:trigger Sees(w', u, vpn)} :: Sees(w', u, vpn) == Sees(w, u, vpn)
  }

  /** No address space but `v` sees a difference. */
  ghost predicate OthersSame(w: World, w': World, v: nat)
    requires WorldOk(w) && WorldOk(w')
  {
    && w'.vms.Keys == w.vms.Keys && w'.sc == w.sc
    && forall u {:trigger SameFor(w, w', u)} :: u in w.vms && u != v ==> SameFor(w, w', u)
  }

  /** A space is made, seeing scratch everywhere, or not for want of frames; the others see no difference. */
  ghost predicate Created(w: World, w': World, v: nat, ok: bool) {
    && WorldOk(w) && WorldOk(w') && v !in w.vms
    && w'.vms.Keys == w.vms.Keys + (if ok then {v} else {})
    && (w.vms.Keys != {} ==> w'.sc == w.sc)
    && (ok ==> forall x {:trigger Sees(w', v, x)} :: Sees(w', v, x) == Fill(w'.sc, 0))
    && (forall u {:trigger SameFor(w, w', u)} :: u in w.vms ==> SameFor(w, w', u))
  }

  // ------------------------------------------------------------------------
  // A new table
  // ------------------------------------------------------------------------

  ghost predicate CanGrowAt(w: World, v: nat, n: Node, i: nat, child: nat) {
    && WorldOk(w) && v in w.vms && n in w.trees[v] && n.level > 0 && i < ENTRIES
    && Child(n, i) !in w.trees[v] && child in w.free
  }

  lemma CanGrowThere(w: World, v: nat, n: Node, i: nat, child: nat)
    requires CanGrowAt(w, v, n, i, child)
    ensures CanGrow(w.mem, w.sc, w.trees[v], n, i, child)
  {
    assert SpaceOk(w, v);
    assert NodeOk(w.mem, w.sc, w.trees[v], n);
    assert forall m :: m in w.trees[v] ==> w.trees[v][m] in w.trees[v].Values;
  }

  function WithTable(tree: Tree, n: Node, f: nat): Tree {
    tree[n := f]
  }

  ghost function GrownWorld(w: World, v: nat, n: Node, i: nat, child: nat): World
    requires CanGrowAt(w, v, n, i, child)
  {
    CanGrowThere(w, v, n, i, child);
    w.(mem := Grown(w.mem, w.sc, w.trees[v], n, i, child),
       free := w.free - {child},
       vms := w.vms[v := w.vms[v].(tablePages := w.vms[v].tablePages + 1)],
       trees := w.trees[v := WithTable(w.trees[v], Child(n, i), child)])
  }

  lemma NewValues(tree: Tree, n: Node, f: nat)
    requires n !in tree
    ensures tree[n := f].Values == tree.Values + {f}
    ensures |tree[n := f]| == |tree| + 1
  {
    var tree' := tree[n := f];
    assert tree'.Keys == tree.Keys + {n};
    forall x | x in tree.Values + {f}
      ensures x in tree'.Values
    {
      if x != f {
        var m :| m in tree && tree[m] == x;
        assert tree'[m] == x;
      } else {
        assert tree'[n] == f;
      }
    }
    assert |tree'.Keys| == |tree.Keys| + 1;
  }

  /** The spaces whose tables a change of memory spares. */
  lemma SparedSpace(w: World, mem': Mem, u: nat)
    requires WorldOk(w) && u in w.vms
    requires forall f :: f in ScratchTables(w.sc) + w.trees[u].Values && f in w.mem ==> f in mem' && mem'[f] == w.mem[f]
    ensures TreeOk(mem', w.sc, w.trees[u])
    ensures forall vpn {:trigger Entry(mem', w.sc, w.trees[u], vpn)} :: Entry(mem', w.sc, w.trees[u], vpn) == Sees(w, u, vpn)
  {
    assert SpaceOk(w, u);
    assert forall n :: n in w.trees[u] ==> w.trees[u][n] in w.trees[u].Values;
    Frame(w.mem, mem', w.sc, w.trees[u]);
  }

  lemma GrownOther(w: World, v: nat, n: Node, i: nat, child: nat, u: nat)
    requires CanGrowAt(w, v, n, i, child) && u in w.vms && u != v
    ensures var w' := GrownWorld(w, v, n, i, child);
            && SpaceOk(w', u)
            && forall vpn {:trigger Entry(w'.mem, w.sc, w.trees[u], vpn)} :: Entry(w'.mem, w.sc, w.trees[u], vpn) == Sees(w, u, vpn)
  {
    CanGrowThere(w, v, n, i, child);
    var w' := GrownWorld(w, v, n, i, child);
    assert SpaceOk(w, u);
    assert w.trees[v][n] in w.trees[v].Values;
    assert NodeOk(w.mem, w.sc, w.trees[v], n);
    SparedSpace(w, w'.mem, u);
  }

  lemma GrownSelf(w: World, v: nat, n: Node, i: nat, child: nat)
    requires CanGrowAt(w, v, n, i, child)
    ensures var w' := GrownWorld(w, v, n, i, child);
            && SpaceOk(w', v) && ScratchOk(w'.mem, w.sc)
            && forall vpn {:trigger Entry(w'.mem, w.sc, w'.trees[v], vpn)} :: Entry(w'.mem, w.sc, w'.trees[v], vpn) == Sees(w, v, vpn)
  {
    CanGrowThere(w, v, n, i, child);
    assert SpaceOk(w, v);
    Grow(w.mem, w.sc, w.trees[v], n, i, child);
    NewValues(w.trees[v], Child(n, i), child);
  }

  lemma GrownPrivate(w: World, v: nat, n: Node, i: nat, child: nat)
    requires CanGrowAt(w, v, n, i, child)
    ensures Private(GrownWorld(w, v, n, i, child))
  {
    NewValues(w.trees[v], Child(n, i), child);
    var w' := GrownWorld(w, v, n, i, child);
    forall a, b | a in w'.trees && b in w'.trees && a != b
      ensures w'.trees[a].Values !! w'.trees[b].Values
    {
      assert SpaceOk(w, a) && SpaceOk(w, b);
    }
  }

  lemma GrownOk(w: World, v: nat, n: Node, i: nat, child: nat)
    requires CanGrowAt(w, v, n, i, child)
    ensures WorldOk(GrownWorld(w, v, n, i, child))
  {
    var w' := GrownWorld(w, v, n, i, child);
    GrownSelf(w, v, n, i, child);
    GrownPrivate(w, v, n, i, child);
    forall u | u in w.vms
      ensures SpaceOk(w', u)
    {
      if u != v {
        GrownOther(w, v, n, i, child, u);
      }
    }
  }

  /** Adding a table to one space changes no translation in any. */
  lemma GrowWorld(w: World, v: nat, n: Node, i: nat, child: nat)
    requires CanGrowAt(w, v, n, i, child)
    ensures var w' := GrownWorld(w, v, n, i, child);
            && WorldOk(w') && OthersSame(w, w', v)
            && forall vpn {:trigger Sees(w', v, vpn)} :: Sees(w', v, vpn) == Sees(w, v, vpn)
  {
    var w' := GrownWorld(w, v, n, i, child);
    GrownOk(w, v, n, i, child);
    GrownSelf(w, v, n, i, child);
    forall u | u in w.vms && u != v
      ensures SameFor(w, w', u)
    {
      GrownOther(w, v, n, i, child, u);
    }
  }

  // ------------------------------------------------------------------------
  // A leaf entry
  // ------------------------------------------------------------------------

  ghost predicate CanWriteAt(w: World, v: nat, vpn: nat) {
    WorldOk(w) && v in w.vms && Node(0, Prefix(vpn, 0)) in w.trees[v]
  }

  lemma CanWriteThere(w: World, v: nat, vpn: nat)
    requires CanWriteAt(w, v, vpn)
    ensures CanWrite(w.mem, w.sc, w.trees[v], vpn)
  {
    assert SpaceOk(w, v);
    assert NodeOk(w.mem, w.sc, w.trees[v], Node(0, Prefix(vpn, 0)));
  }

  ghost function WrittenWorld(w: World, v: nat, vpn: nat, entry: nat): World
    requires CanWriteAt(w, v, vpn)
  {
    CanWriteThere(w, v, vpn);
    w.(mem := Written(w.mem, w.sc, w.trees[v], vpn, entry))
  }

  lemma WrittenOther(w: World, v: nat, vpn: nat, entry: nat, u: nat)
    requires CanWriteAt(w, v, vpn) && u in w.vms && u != v
    ensures var w' := WrittenWorld(w, v, vpn, entry);
            && SpaceOk(w', u)
            && forall x {:trigger Entry(w'.mem, w.sc, w.trees[u], x)} :: Entry(w'.mem, w.sc, w.trees[u], x) == Sees(w, u, x)
  {
    CanWriteThere(w, v, vpn);
    var n := Node(0, Prefix(vpn, 0));
    assert SpaceOk(w, u);
    assert w.trees[v][n] in w.trees[v].Values;
    SparedSpace(w, WrittenWorld(w, v, vpn, entry).mem, u);
  }

  /** Writing one leaf entry changes one page of one space. */
  lemma WriteWorld(w: World, v: nat, vpn: nat, entry: nat)
    requires CanWriteAt(w, v, vpn)
    ensures var w' := WrittenWorld(w, v, vpn, entry);
            && WorldOk(w') && OthersSame(w, w', v)
            && forall x {:trigger Sees(w', v, x)} :: Sees(w', v, x) == if x == vpn then entry else Sees(w, v, x)
  {
    var w' := WrittenWorld(w, v, vpn, entry);
    CanWriteThere(w, v, vpn);
    assert SpaceOk(w, v);
    Write(w.mem, w.sc, w.trees[v], vpn, entry);
    assert SpaceOk(w', v);
    forall u | u in w.vms && u != v
      ensures SpaceOk(w', u)
    {
      WrittenOther(w, v, vpn, entry, u);
    }
    forall u | u in w.vms && u != v
      ensures SameFor(w, w', u)
    {
      WrittenOther(w, v, vpn, entry, u);
    }
  }

  // ------------------------------------------------------------------------
  // Spaces come and go
  // ------------------------------------------------------------------------

  ghost function BornWorld(w: World, v: nat, f: nat): World {
    w.(mem := w.mem[f := Filled(Fill(w.sc, 3))],
       free := w.free - {f},
       vms := w.vms[v := Space(f, 1)],
       trees := w.trees[v := map[ROOT := f]])
  }

  lemma BornSelf(w: World, v: nat, f: nat)
    requires WorldOk(w) && v !in w.vms && f in w.free && w.sc.pdp != 0
    ensures var w' := BornWorld(w, v, f);
            && ScratchOk(w'.mem, w.sc) && SpaceOk(w', v)
            && forall x {:trigger Entry(w'.mem, w.sc, w'.trees[v], x)} :: Entry(w'.mem, w.sc, w'.trees[v], x) == Fill(w.sc, 0)
  {
    var w' := BornWorld(w, v, f);
    var tree := w'.trees[v];
    assert tree.Values == {f} by {
      assert tree[ROOT] == f;
    }
    assert |tree| == 1;
    forall m | m in tree
      ensures NodeOk(w'.mem, w.sc, tree, m)
    {
    }
    forall m, j: nat | m in tree && m.level > 0 && j < ENTRIES
      ensures NodeOk(w'.mem, w.sc, tree, m) && EntryOk(w'.mem, w.sc, tree, m, j)
    {
      assert Child(m, j).level == 2;
    }
  }

  lemma BornOther(w: World, v: nat, f: nat, u: nat)
    requires WorldOk(w) && v !in w.vms && f in w.free && u in w.vms
    ensures var w' := BornWorld(w, v, f);
            && SpaceOk(w', u)
            && forall x {:trigger Entry(w'.mem, w.sc, w.trees[u], x)} :: Entry(w'.mem, w.sc, w.trees[u], x) == Sees(w, u, x)
  {
    assert SpaceOk(w, u);
    SparedSpace(w, BornWorld(w, v, f).mem, u);
  }

  lemma BornOk(w: World, v: nat, f: nat)
    requires WorldOk(w) && v !in w.vms && f in w.free && w.sc.pdp != 0
    ensures WorldOk(BornWorld(w, v, f))
  {
    var w' := BornWorld(w, v, f);
    BornSelf(w, v, f);
    forall u | u in w'.vms
      ensures SpaceOk(w', u) && (u != v ==> f !in w'.trees[u].Values)
    {
      if u != v {
        BornOther(w, v, f, u);
        assert SpaceOk(w, u);
      }
    }
    assert w'.trees[v].Values == {f} by {
      assert w'.trees[v][ROOT] == f;
    }
  }

  /** A new space sees the scratch page everywhere, and the others see no difference. */
  lemma BornWorldOk(w: World, v: nat, f: nat)
    requires WorldOk(w) && v !in w.vms && f in w.free && w.sc.pdp != 0
    ensures var w' := BornWorld(w, v, f);
            && WorldOk(w')
            && (forall x {:trigger Sees(w', v, x)} :: Sees(w', v, x) == Fill(w.sc, 0))
            && (forall u {:trigger SameFor(w, w', u)} :: u in w.vms ==> SameFor(w, w', u))
  {
    var w' := BornWorld(w, v, f);
    BornOk(w, v, f);
    BornSelf(w, v, f);
    forall u | u in w.vms
      ensures SameFor(w, w', u)
    {
      BornOther(w, v, f, u);
    }
  }

  ghost function GoneWorld(w: World, v: nat): World
    requires v in w.trees
  {
    w.(free := w.free + w.trees[v].Values, vms := w.vms - {v}, trees := w.trees - {v})
  }

  /** With a space its tables go back to the PMM, and the others see no difference. */
  lemma GoneWorldOk(w: World, v: nat)
    requires WorldOk(w) && v in w.vms
    ensures var w' := GoneWorld(w, v);
            && WorldOk(w')
            && (forall u {:trigger SameFor(w, w', u)} :: u in w'.vms ==> u in w.vms && SameFor(w, w', u))
  {
    var w' := GoneWorld(w, v);
    assert SpaceOk(w, v);
    forall f | f in w.trees[v].Values
      ensures FrameOk(f) && f !in ScratchTables(w.sc)
    {
      var n :| n in w.trees[v] && w.trees[v][n] == f;
      assert NodeOk(w.mem, w.sc, w.trees[v], n);
    }
    forall u | u in w'.vms
      ensures SpaceOk(w', u)
    {
      assert SpaceOk(w, u);
    }
  }

  // ------------------------------------------------------------------------
  // Ranges of pages
  // ------------------------------------------------------------------------

  const WORD := 0x1_0000_0000_0000_0000

  /** How far a page is into a range that starts at `first`, going round the 48-bit space. */
  function Offset(first: nat, x: nat): (o: nat)
    ensures o < PAGES
  {
    (x - first) % PAGES
  }

  lemma OffsetIs(first: nat, i: nat, x: nat)
    requires x < PAGES
    ensures x == (first + i) % PAGES <==> Offset(first, x) == i % PAGES
  {
  }

  /** The `i`th page of a range from `va`; addresses are 64 bits. */
  function AddressAt(va: nat, i: nat): nat {
    (va + i * PAGE) % WORD
  }

  /** The address of the `i`th page, in 64-bit arithmetic, names the page `i` into the range. */
  lemma PageAt(va: nat, i: nat)
    ensures PageOf(AddressAt(va, i)) == (PageOf(va) + i) % PAGES
  {
    var all := WORD / PAGE;
    var n, r := va / PAGE + i, va % PAGE;
    var k, x := n / all, n % all;
    assert va + i * PAGE == WORD * k + (PAGE * x + r);
    Quotient(va + i * PAGE, WORD, k, PAGE * x + r);
    Quotient(PAGE * x + r, PAGE, x, r);
    assert AddressAt(va, i) / PAGE == x;
    assert x % PAGES == n % PAGES;
  }

  lemma AtOffset(va: nat, i: nat, x: nat)
    requires x < PAGES
    ensures PageOf(AddressAt(va, i)) == x <==> Offset(PageOf(va), x) == i % PAGES
  {
    PageAt(va, i);
    OffsetIs(PageOf(va), i, x);
  }

  /** Translations after the first pages of a range were given entries. */
  ghost predicate Mapped(w: World, w': World, v: nat, first: nat, entries: seq<nat>)
    requires WorldOk(w) && WorldOk(w') && v in w.vms && v in w'.vms
  {
    forall x {:trigger Sees(w', v, x)} :: 0 <= x < PAGES ==>
      Sees(w', v, x) == if Offset(first, x) < |entries| then entries[Offset(first, x)] else Sees(w, v, x)
  }

  /** Translations after the first pages of a range were taken back to the scratch page. */
  ghost predicate Unmapped(w: World, w': World, v: nat, first: nat, pages: nat)
    requires WorldOk(w) && WorldOk(w') && v in w.vms && v in w'.vms
  {
    forall x {:trigger Sees(w', v, x)} :: 0 <= x < PAGES ==>
      Sees(w', v, x) == if Offset(first, x) < pages then Fill(w.sc, 0) else Sees(w, v, x)
  }

  /** Nothing visible has changed in any space. */
  ghost predicate Unseen(w: World, w': World, v: nat)
    requires WorldOk(w) && WorldOk(w') && v in w.vms && v in w'.vms
  {
    OthersSame(w, w', v) && forall x {:trigger Sees(w', v, x)} :: Sees(w', v, x) == Sees(w, v, x)
  }

  lemma OthersTwice(a: World, b: World, c: World, v: nat)
    requires WorldOk(a) && WorldOk(b) && WorldOk(c) && OthersSame(a, b, v) && OthersSame(b, c, v)
    ensures OthersSame(a, c, v)
  {
    forall u | u in a.vms && u != v
      ensures SameFor(a, c, u)
    {
      assert SameFor(a, b, u) && SameFor(b, c, u);
      forall x
        ensures Sees(c, u, x) == Sees(a, u, x)
      {
        assert Sees(b, u, x) == Sees(a, u, x);
      }
    }
  }

  lemma UnseenTwice(a: World, b: World, c: World, v: nat)
    requires WorldOk(a) && WorldOk(b) && WorldOk(c) && v in a.vms && v in b.vms && v in c.vms
    requires Unseen(a, b, v) && Unseen(b, c, v)
    ensures Unseen(a, c, v)
  {
    OthersTwice(a, b, c, v);
    forall x
      ensures Sees(c, v, x) == Sees(a, v, x)
    {
      assert Sees(b, v, x) == Sees(a, v, x);
    }
  }

  /** What the walk finds at a table of the tree. */
  lemma StepDown(w: World, v: nat, vpn: nat, level: nat)
    requires WorldOk(w) && v in w.vms && 0 < level <= 3 && Node(level, Prefix(vpn, level)) in w.trees[v]
    ensures var n, tree := Node(level, Prefix(vpn, level)), w.trees[v];
            && tree[n] in w.mem && |w.mem[tree[n]]| == ENTRIES
            && Child(n, Index(vpn, level)) == Node(level - 1, Prefix(vpn, level - 1))
            && EntryAddress(w.mem[tree[n]][Index(vpn, level)]) ==
               (if Node(level - 1, Prefix(vpn, level - 1)) in tree then tree[Node(level - 1, Prefix(vpn, level - 1))] else ScratchBelow(w.sc, level))
            && (Node(level - 1, Prefix(vpn, level - 1)) in tree ==> tree[Node(level - 1, Prefix(vpn, level - 1))] !in ScratchTables(w.sc))
  {
    var n, i, tree := Node(level, Prefix(vpn, level)), Index(vpn, level), w.trees[v];
    assert SpaceOk(w, v);
    assert NodeOk(w.mem, w.sc, tree, n);
    PrefixSplit(vpn, level);
    assert EntryOk(w.mem, w.sc, tree, n, i);
    if Child(n, i) in tree {
      assert NodeOk(w.mem, w.sc, tree, Child(n, i));
      EntryRoundTrip(tree[Child(n, i)], true);
    } else {
      EntryRoundTrip(ScratchBelow(w.sc, level), true);
    }
  }

  function Ptes(pages: seq<nat>, cached: bool): (es: seq<nat>)
    ensures |es| == |pages|
  {
    seq(|pages|, i requires 0 <= i < |pages| => Pte(pages[i], cached))
  }

  ghost predicate OneWritten(mid: World, w': World, v: nat, at: nat, e: nat)
    requires WorldOk(mid) && WorldOk(w') && v in mid.vms && v in w'.vms
  {
    forall x {:trigger Sees(w', v, x)} :: Sees(w', v, x) == if x == at then e else Sees(mid, v, x)
  }

  /** What a page holds after some entries were written, one after the other. */
  ghost function Latest(writes: seq<(nat, nat)>, x: nat, was: nat): nat
    decreases |writes|
  {
    if writes == [] then was
    else
      var last := |writes| - 1;
      if writes[last].0 == x then writes[last].1 else Latest(writes[..last], x, was)
  }

  /** Only space `v` has changed, by these writes. */
  ghost predicate Put(w: World, w': World, v: nat, writes: seq<(nat, nat)>)
    requires WorldOk(w) && WorldOk(w')
  {
    && v in w.vms && OthersSame(w, w', v)
    && forall x {:trigger Sees(w', v, x)} :: Sees(w', v, x) == Latest(writes, x, Sees(w, v, x))
  }

  lemma PutMore(w: World, mid: World, w': World, v: nat, writes: seq<(nat, nat)>, at: nat, e: nat)
    requires WorldOk(w) && WorldOk(mid) && WorldOk(w')
    requires Put(w, mid, v, writes) && OthersSame(mid, w', v) && OneWritten(mid, w', v, at, e)
    ensures Put(w, w', v, writes + [(at, e)])
  {
    OthersTwice(w, mid, w', v);
    assert (writes + [(at, e)])[..|writes|] == writes;
    forall x
      ensures Sees(w', v, x) == Latest(writes + [(at, e)], x, Sees(w, v, x))
    {
      assert Sees(mid, v, x) == Latest(writes, x, Sees(w, v, x));
    }
  }

  lemma PutSame(w: World, mid: World, w': World, v: nat, writes: seq<(nat, nat)>)
    requires WorldOk(w) && WorldOk(mid) && WorldOk(w')
    requires v in w.vms && v in mid.vms && v in w'.vms && Put(w, mid, v, writes) && Unseen(mid, w', v)
    ensures Put(w, w', v, writes)
  {
    OthersTwice(w, mid, w', v);
    forall x
      ensures Sees(w', v, x) == Latest(writes, x, Sees(w, v, x))
    {
      assert Sees(mid, v, x) == Latest(writes, x, Sees(w, v, x));
    }
  }

  /** The writes to the pages of a range, in order. */
  function RangeWrites(va: nat, entries: seq<nat>): (ws: seq<(nat, nat)>)
    ensures |ws| == |entries|
  {
    seq(|entries|, i requires 0 <= i < |entries| => (PageOf(AddressAt(va, i)), entries[i]))
  }

  lemma RangeWritesMore(va: nat, entries: seq<nat>, e: nat)
    ensures RangeWrites(va, entries + [e]) == RangeWrites(va, entries) + [(PageOf(AddressAt(va, |entries|)), e)]
  {
  }

  lemma {:induction false} LatestAt(writes: seq<(nat, nat)>, x: nat, was: nat, o: nat)
    requires forall i {:trigger writes[i]} | 0 <= i < |writes| :: writes[i].0 == x <==> i == o
    ensures Latest(writes, x, was) == if o < |writes| then writes[o].1 else was
    decreases |writes|
  {
    if writes != [] && o != |writes| - 1 {
      LatestAt(writes[..|writes| - 1], x, was, o);
    }
  }

  lemma RangeLatest(va: nat, entries: seq<nat>, x: nat, was: nat)
    requires x < PAGES && |entries| <= PAGES
    ensures var o := Offset(PageOf(va), x);
            Latest(RangeWrites(va, entries), x, was) == if o < |entries| then entries[o] else was
  {
    var writes, o := RangeWrites(va, entries), Offset(PageOf(va), x);
    forall i | 0 <= i < |writes|
      ensures writes[i].0 == x <==> i == o
    {
      AtOffset(va, i, x);
    }
    LatestAt(writes, x, was, o);
  }

  /** What the writes amount to: each page of the range has its entry, no other has changed. */
  lemma PutIsMapped(w: World, w': World, v: nat, va: nat, entries: seq<nat>)
    requires WorldOk(w) && WorldOk(w') && Put(w, w', v, RangeWrites(va, entries)) && |entries| <= PAGES
    ensures Mapped(w, w', v, PageOf(va), entries)
  {
    forall x | 0 <= x < PAGES
      ensures Sees(w', v, x) == if Offset(PageOf(va), x) < |entries| then entries[Offset(PageOf(va), x)] else Sees(w, v, x)
    {
      RangeLatest(va, entries, x, Sees(w, v, x));
    }
  }

  lemma {:induction false} RangeFilled(va: nat, n: nat, fill: nat, x: nat, was: nat)
    requires x < PAGES
    ensures Latest(RangeWrites(va, seq(n, _ => fill)), x, was) == if Offset(PageOf(va), x) < n then fill else was
    decreases n
  {
    if n > 0 {
      var entries, rest: seq<nat> := seq(n, _ => fill), seq(n - 1, _ => fill);
      assert entries == rest + [fill];
      RangeWritesMore(va, rest, fill);
      RangeFilled(va, n - 1, fill, x, was);
      AtOffset(va, n - 1, x);
      assert RangeWrites(va, entries)[..n - 1] == RangeWrites(va, rest);
    }
  }

  lemma PutIsUnmapped(w: World, w': World, v: nat, va: nat, n: nat)
    requires WorldOk(w) && WorldOk(w') && Put(w, w', v, RangeWrites(va, seq(n, _ => Fill(w.sc, 0))))
    ensures Unmapped(w, w', v, PageOf(va), n)
  {
    forall x | 0 <= x < PAGES
      ensures Sees(w', v, x) == if Offset(PageOf(va), x) < n then Fill(w.sc, 0) else Sees(w, v, x)
    {
      RangeFilled(va, n, Fill(w.sc, 0), x, Sees(w, v, x));
    }
  }

  /** A map that failed half way, then an unmap of the whole range where nothing was mapped
      before, leaves every translation as it was. */
  lemma RollBack(w: World, mid: World, w': World, v: nat, first: nat, entries: seq<nat>, pages: nat)
    requires WorldOk(w) && WorldOk(mid) && WorldOk(w') && v in w.vms && v in mid.vms && v in w'.vms && mid.sc == w.sc
    requires Mapped(w, mid, v, first, entries) && Unmapped(mid, w', v, first, pages) && |entries| <= pages
    requires forall x :: 0 <= x < PAGES && Offset(first, x) < pages ==> Sees(w, v, x) == Fill(w.sc, 0)
    ensures forall x {:trigger Sees(w', v, x)} :: 0 <= x < PAGES ==> Sees(w', v, x) == Sees(w, v, x)
  {
    forall x | 0 <= x < PAGES
      ensures Sees(w', v, x) == Sees(w, v, x)
    {
      assert Sees(mid, v, x) == if Offset(first, x) < |entries| then entries[Offset(first, x)] else Sees(w, v, x);
    }
  }

  function MapWrites(va: nat, pages: seq<nat>, k: nat, cached: bool): seq<(nat, nat)>
    requires k <= |pages|
  {
    RangeWrites(va, Ptes(pages[..k], cached))
  }

  lemma MapWritesMore(va: nat, pages: seq<nat>, k: nat, cached: bool)
    requires k < |pages|
    ensures MapWrites(va, pages, k + 1, cached) == MapWrites(va, pages, k, cached) + [(PageOf(AddressAt(va, k)), Pte(pages[k], cached))]
  {
    assert Ptes(pages[..k + 1], cached) == Ptes(pages[..k], cached) + [Pte(pages[k], cached)];
    RangeWritesMore(va, Ptes(pages[..k], cached), Pte(pages[k], cached));
  }

  function UnmapWrites(va: nat, n: nat, fill: nat): seq<(nat, nat)> {
    RangeWrites(va, seq(n, _ => fill))
  }

  lemma UnmapWritesMore(va: nat, n: nat, fill: nat)
    ensures UnmapWrites(va, n + 1, fill) == UnmapWrites(va, n, fill) + [(PageOf(AddressAt(va, n)), fill)]
  {
    assert seq(n + 1, _ => fill) == seq(n, _ => fill) + [fill];
    RangeWritesMore(va, seq(n, _ => fill), fill);
  }

  /** A page whose walk meets the scratch chain is not mapped. */
  lemma NotBelow(w: World, v: nat, vpn: nat, level: nat)
    requires WorldOk(w) && v in w.vms && level < 3 && Node(level, Prefix(vpn, level)) !in w.trees[v]
    ensures Node(0, Prefix(vpn, 0)) !in w.trees[v] && Sees(w, v, vpn) == Fill(w.sc, 0)
  {
    assert SpaceOk(w, v);
    NoneBelow(w.mem, w.sc, w.trees[v], vpn, level);
  }

  /** A table where the walk to an address passes. */
  ghost predicate OnPath(tree: Tree, address: nat, level: nat, table: nat) {
    var n := Node(level, Prefix(PageOf(address), level));
    n in tree && tree[n] == table
  }

  lemma PathFrame(w: World, v: nat, address: nat, level: nat, table: nat)
    requires WorldOk(w) && v in w.vms && OnPath(w.trees[v], address, level, table)
    ensures table != 0
  {
    assert SpaceOk(w, v);
    assert NodeOk(w.mem, w.sc, w.trees[v], Node(level, Prefix(PageOf(address), level)));
  }

  /** At the `i`th page of a range, in 64-bit arithmetic, the hardware finds a frame with a caching. */
  ghost predicate HardwareFinds(w: World, v: nat, va: nat, i: nat, frame: nat, cached: bool)
    requires v in w.vms
  {
    var vpn := (va + i * 4096) % 0x1_0000_0000_0000_0000 / 4096 % 0x10_0000_0000;
    LeadsTo(Walk(w.mem, w.vms[v].pml4, vpn, 3), frame / 4096 % 0x10_0000_0000 * 4096, if cached then 4 else 3)
  }

  lemma PageNumber(va: nat, i: nat)
    ensures PageOf(AddressAt(va, i)) == (va + i * 4096) % 0x1_0000_0000_0000_0000 / 4096 % 0x10_0000_0000
  {
  }

  lemma MappedFound(w: World, w': World, v: nat, va: nat, pages: seq<nat>, cached: bool, i: nat)
    requires WorldOk(w) && WorldOk(w') && v in w.vms && v in w'.vms && i < |pages| < PAGES
    requires Mapped(w, w', v, PageOf(va), Ptes(pages, cached))
    ensures HardwareFinds(w', v, va, i, pages[i], cached)
  {
    var x := PageOf(AddressAt(va, i));
    AtOffset(va, i, x);
    assert Sees(w', v, x) == Ptes(pages, cached)[i];
    SeenFound(w', v, va, i, pages[i], cached);
  }

  lemma UnmappedFound(w: World, w': World, v: nat, va: nat, pages: nat, i: nat)
    requires WorldOk(w) && WorldOk(w') && v in w.vms && v in w'.vms && i < pages
    requires Unmapped(w, w', v, PageOf(va), pages)
    ensures HardwareFinds(w', v, va, i, w.sc.page, true)
  {
    var x := PageOf(AddressAt(va, i));
    AtOffset(va, i, x);
    assert Offset(PageOf(va), x) == i % PAGES <= i;
    assert Sees(w', v, x) == Fill(w.sc, 0);
    SeenFound(w', v, va, i, w.sc.page, true);
  }

  lemma SeenFound(w: World, v: nat, va: nat, i: nat, frame: nat, cached: bool)
    requires WorldOk(w) && v in w.vms && Sees(w, v, PageOf(AddressAt(va, i))) == Pte(frame, cached)
    ensures HardwareFinds(w, v, va, i, frame, cached)
  {
    HardwareAgrees(w, v, PageOf(AddressAt(va, i)));
    PageNumber(va, i);
    PteRead(frame, cached);
  }

  /** What `ppgttFreeLevel` meets in an entry. */
  lemma ChildAt(mem: Mem, sc: Scratch, tree: Tree, n: Node, i: nat)
    requires TreeOk(mem, sc, tree) && n in tree && n.level > 0 && i < ENTRIES
    ensures NodeOk(mem, sc, tree, n)
    ensures var child := EntryAddress(mem[tree[n]][i]);
            && (Child(n, i) in tree <==> child != 0 && child != ScratchBelow(sc, n.level))
            && (Child(n, i) in tree ==> child == tree[Child(n, i)])
            && (Child(n, i) !in tree ==> FramesUnder(tree, Child(n, i)) == {})
  {
    assert NodeOk(mem, sc, tree, n) && EntryOk(mem, sc, tree, n, i);
    if Child(n, i) in tree {
      assert NodeOk(mem, sc, tree, Child(n, i));
      EntryRoundTrip(tree[Child(n, i)], true);
    } else {
      EntryRoundTrip(ScratchBelow(sc, n.level), true);
      forall m | m in tree
        ensures !Under(m, Child(n, i))
      {
        NothingUnder(mem, sc, tree, Child(n, i), m);
      }
    }
  }

  lemma UnderIncludes(tree: Tree, n: Node, i: nat)
    requires n.level > 0 && i < ENTRIES
    ensures FramesUnder(tree, Child(n, i)) <= FramesUnder(tree, n)
  {
    forall m | m in tree && Under(m, Child(n, i))
      ensures Under(m, n)
    {
      UnderChild(m, n, i);
    }
  }

  lemma WholeTree(mem: Mem, sc: Scratch, tree: Tree)
    requires NodesOk(mem, sc, tree) && ROOT in tree
    ensures FramesUnder(tree, ROOT) == tree.Values
  {
    forall m | m in tree
      ensures Under(m, ROOT)
    {
      AllUnderRoot(mem, sc, tree, m);
    }
  }

  /** As many frames as tables. */
  lemma {:induction false} AsManyFrames(tree: Tree)
    requires Injective(tree)
    ensures |tree.Values| == |tree|
    decreases |tree|
  {
    if tree.Keys != {} {
      var n :| n in tree;
      var rest: Tree := tree - {n};
      assert tree == WithTable(rest, n, tree[n]);
      NewValues(rest, n, tree[n]);
      AsManyFrames(rest);
      assert forall m :: m in rest ==> rest[m] != tree[n];
      assert |rest.Values + {tree[n]}| == |rest.Values| + 1;
    }
  }

  class Gpu {
    var mem: Mem
    var free: set<nat>                 // the frames the PMM would give out
    var scratchPage: nat
    var scratchPt: nat
    var scratchPd: nat
    var scratchPdp: nat
    var vms: map<nat, Space>
    ghost var trees: map<nat, Tree>

    ghost function View(): World
      reads this
    {
      World(mem, free, Scratch(scratchPage, scratchPt, scratchPd, scratchPdp), vms, trees)
    }

    function ScratchFor(level: nat): nat
      reads this
    {
      if level == 3 then scratchPdp else if level == 2 then scratchPd else scratchPt
    }

    /** `ppgttAllocTable`; the PMM gives out any frame it has. */
    method AllocTable(fill: nat) returns (phys: nat)
      requires forall f :: f in free ==> FrameOk(f)
      modifies this`mem, this`free
      ensures phys == 0 <==> old(free) == {}
      ensures phys == 0 ==> View() == old(View())
      ensures phys != 0 ==> phys in old(free) && View() == old(View()).(mem := old(mem)[phys := Filled(fill)], free := old(free) - {phys})
    {
      if free == {} {
        return 0;
      }
      phys :| phys in free;
      var table: seq<nat> := [];
      for i := 0 to ENTRIES
        invariant |table| == i && forall k :: 0 <= k < i ==> table[k] == fill
        invariant mem == old(mem) && free == old(free)
      {
        table := table + [fill];
      }
      assert table == Filled(fill);
      mem := mem[phys := table];
      free := free - {phys};
    }

    /** A table of its own for an entry that leads to the scratch chain. */
    method Sprout(v: nat, ghost n: Node, table: nat, level: nat, i: nat) returns (child: nat)
      requires WorldOk(View()) && v in vms && n in trees[v] && table == trees[v][n]
      requires 0 < level <= 3 && n.level == level && i < ENTRIES && Child(n, i) !in trees[v]
      modifies this`mem, this`free, this`vms, this`trees
      ensures child == 0 ==> View() == old(View()) && free == {}
      ensures child != 0 ==> CanGrowAt(old(View()), v, n, i, child) && View() == GrownWorld(old(View()), v, n, i, child)
    {
      ghost var w := View();
      child := AllocTable(if level == 1 then Pte(scratchPage, true) else Pde(ScratchFor(level - 1)));
      if child == 0 {
        return;
      }
      CanGrowThere(w, v, n, i, child);
      vms := vms[v := vms[v].(tablePages := vms[v].tablePages + 1)];
      mem := WriteEntry(mem, table, i, Pde(child));
      trees := trees[v := WithTable(trees[v], Child(n, i), child)];
    }

    /** One level down, through a new table if need be. */
    method Below(v: nat, address: nat, level: nat, table: nat) returns (child: nat)
      requires WorldOk(View()) && v in vms && 0 < level <= 3
      requires OnPath(trees[v], address, level, table)
      modifies this`mem, this`free, this`vms, this`trees
      ensures WorldOk(View()) && v in vms && Unseen(old(View()), View(), v)
      ensures if child != 0 then OnPath(trees[v], address, level - 1, child) else free == {}
    {
      ghost var w, vpn := View(), PageOf(address);
      StepDown(w, v, vpn, level);
      IndexAgrees(address, level);
      child := EntryAddress(mem[table][IndexAt(address, level)]);
      if child == ScratchFor(level) {
        ghost var n := Node(level, Prefix(vpn, level));
        child := Sprout(v, n, table, level, IndexAt(address, level));
        if child != 0 {
          GrowWorld(w, v, n, Index(vpn, level), child);
        }
      } else {
        PathFrame(w, v, address, level - 1, child);
      }
    }

    /** Down from the PML4 to the page table of an address, adding what is missing. Running out
        of frames half way leaves some new tables, and no translation changed. */
    method Descend(v: nat, address: nat) returns (table: nat)
      requires WorldOk(View()) && v in vms
      modifies this`mem, this`free, this`vms, this`trees
      ensures WorldOk(View()) && v in vms && Unseen(old(View()), View(), v)
      ensures if table != 0 then OnPath(trees[v], address, 0, table) else free == {}
    {
      ghost var w := View();
      assert SpaceOk(w, v);
      PrefixTop(PageOf(address));
      table := vms[v].pml4;
      var level := 3;
      while level > 0
        invariant 0 <= level <= 3 && WorldOk(View()) && v in vms && Unseen(w, View(), v)
        invariant OnPath(trees[v], address, level, table)
      {
        ghost var mid := View();
        table := Below(v, address, level, table);
        UnseenTwice(w, mid, View(), v);
        if table == 0 {
          return;
        }
        level := level - 1;
      }
      PathFrame(View(), v, address, 0, table);
    }

    /** One page: its table, then its entry. */
    method MapPage(v: nat, address: nat, entry: nat) returns (ok: bool)
      requires WorldOk(View()) && v in vms
      modifies this`mem, this`free, this`vms, this`trees
      ensures WorldOk(View()) && OthersSame(old(View()), View(), v)
      ensures if ok then OneWritten(old(View()), View(), v, PageOf(address), entry) else Unseen(old(View()), View(), v) && free == {}
    {
      ghost var w := View();
      var table := Descend(v, address);
      ok := table != 0;
      if ok {
        ghost var mid, vpn := View(), PageOf(address);
        CanWriteThere(mid, v, vpn);
        IndexAgrees(address, 0);
        WriteWorld(mid, v, vpn, entry);
        mem := WriteEntry(mem, table, IndexAt(address, 0), entry);
        assert View() == WrittenWorld(mid, v, vpn, entry);
        OthersTwice(w, mid, View(), v);
      }
    }

    method PutPage(ghost w: World, v: nat, address: nat, entry: nat, ghost writes: seq<(nat, nat)>) returns (ok: bool)
      requires WorldOk(w) && WorldOk(View()) && Put(w, View(), v, writes)
      modifies this`mem, this`free, this`vms, this`trees
      ensures WorldOk(View())
      ensures Put(w, View(), v, if ok then writes + [(PageOf(address), entry)] else writes)
      ensures !ok ==> free == {}
    {
      ghost var mid := View();
      ok := MapPage(v, address, entry);
      if ok {
        PutMore(w, mid, View(), v, writes, PageOf(address), entry);
      } else {
        PutSame(w, mid, View(), v, writes);
      }
    }

    /** The loop of `ppgttMap`. */
    method MapRange(v: nat, va: nat, pages: seq<nat>, cached: bool) returns (k: nat)
      requires WorldOk(View()) && v in vms
      modifies this`mem, this`free, this`vms, this`trees
      ensures WorldOk(View()) && k <= |pages| && (k < |pages| ==> free == {})
      ensures Put(old(View()), View(), v, MapWrites(va, pages, k, cached))
    {
      ghost var w, writes := View(), [];
      k := 0;
      while k < |pages|
        invariant k <= |pages| && WorldOk(View()) && Put(w, View(), v, writes)
        invariant writes == MapWrites(va, pages, k, cached)
      {
        var ok := PutPage(w, v, AddressAt(va, k), Pte(pages[k], cached), writes);
        if !ok {
          return;
        }
        MapWritesMore(va, pages, k, cached);
        writes := writes + [(PageOf(AddressAt(va, k)), Pte(pages[k], cached))];
        k := k + 1;
      }
    }

    /** `ppgttMap`: all pages, or as many as there were frames for; `k` is how many. */
    method Map(v: nat, va: nat, pages: seq<nat>, cached: bool) returns (ok: bool, ghost k: nat)
      requires WorldOk(View()) && v in vms && va < WORD && |pages| < 0x1_0000_0000
      modifies this`mem, this`free, this`vms, this`trees
      ensures WorldOk(View()) && OthersSame(old(View()), View(), v)
      ensures k <= |pages| && Mapped(old(View()), View(), v, PageOf(va), Ptes(pages[..k], cached))
      ensures if va % 4096 != 0 || (va + |pages| * 4096) % 0x1_0000_0000_0000_0000 > 0x1_0000_0000_0000
              then !ok && k == 0 && View() == old(View())
              else (ok <==> k == |pages|) && (!ok ==> free == {})
      ensures forall i | 0 <= i < k :: HardwareFinds(View(), v, va, i, pages[i], cached)
    {
      k := 0;
      if va % PAGE != 0 || (va + |pages| * PAGE) % WORD > FRAME_LIMIT {
        return false, 0;
      }
      ghost var w := View();
      var done := MapRange(v, va, pages, cached);
      PutIsMapped(w, View(), v, va, Ptes(pages[..done], cached));
      forall i | 0 <= i < done
        ensures HardwareFinds(View(), v, va, i, pages[i], cached)
      {
        MappedFound(w, View(), v, va, pages[..done], cached, i);
      }
      return done == |pages|, done;
    }

    /** Down to the page table of an address, unless the walk meets the scratch chain first. */
    method Find(v: nat, address: nat) returns (mapped: bool, table: nat)
      requires WorldOk(View()) && v in vms
      ensures if mapped then OnPath(trees[v], address, 0, table) else Sees(View(), v, PageOf(address)) == Fill(View().sc, 0)
    {
      ghost var w, vpn := View(), PageOf(address);
      assert SpaceOk(w, v);
      PrefixTop(vpn);
      table := vms[v].pml4;
      mapped := true;
      var level := 3;
      while level > 0 && mapped
        invariant 0 <= level <= 3
        invariant if mapped then OnPath(trees[v], address, level, table) else Sees(w, v, vpn) == Fill(w.sc, 0)
      {
        StepDown(w, v, vpn, level);
        IndexAgrees(address, level);
        var child := EntryAddress(mem[table][IndexAt(address, level)]);
        mapped := child != ScratchFor(level);
        if !mapped {
          NotBelow(w, v, vpn, level - 1);
        }
        table := child;
        level := level - 1;
      }
    }

    method UnmapPage(v: nat, address: nat)
      requires WorldOk(View()) && v in vms
      modifies this`mem
      ensures WorldOk(View()) && OthersSame(old(View()), View(), v)
      ensures OneWritten(old(View()), View(), v, PageOf(address), Fill(View().sc, 0)) && trees == old(trees)
    {
      ghost var w, vpn := View(), PageOf(address);
      var mapped, table := Find(v, address);
      if mapped {
        CanWriteThere(w, v, vpn);
        IndexAgrees(address, 0);
        WriteWorld(w, v, vpn, Fill(w.sc, 0));
        mem := WriteEntry(mem, table, IndexAt(address, 0), Pte(scratchPage, true));
        assert View() == WrittenWorld(w, v, vpn, Fill(w.sc, 0));
      }
    }

    /** `ppgttUnmap`. A byte count within a page of the word size would never be reached. */
    method Unmap(v: nat, va: nat, bytes: nat)
      requires WorldOk(View()) && v in vms && bytes <= WORD - PAGE
      modifies this`mem
      ensures WorldOk(View()) && OthersSame(old(View()), View(), v) && trees == old(trees)
      ensures Unmapped(old(View()), View(), v, PageOf(va), (bytes + PAGE - 1) / PAGE)
      ensures forall i | 0 <= i && i * 4096 < bytes :: HardwareFinds(View(), v, va, i, scratchPage, true)
    {
      ghost var w, writes, n := View(), [], 0;
      ghost var fill := Fill(w.sc, 0);
      var offset := 0;
      while offset < bytes
        invariant offset == n * PAGE && n <= (bytes + PAGE - 1) / PAGE
        invariant WorldOk(View()) && trees == old(trees) && v in vms && Put(w, View(), v, writes)
        invariant writes == UnmapWrites(va, n, fill)
        decreases bytes - offset
      {
        ghost var mid := View();
        UnmapPage(v, (va + offset) % WORD);
        PutMore(w, mid, View(), v, writes, PageOf(AddressAt(va, n)), fill);
        UnmapWritesMore(va, n, fill);
        writes := writes + [(PageOf(AddressAt(va, n)), fill)];
        n := n + 1;
        offset := offset + PAGE;
      }
      PutIsUnmapped(w, View(), v, va, n);
      forall i | 0 <= i && i * 4096 < bytes
        ensures HardwareFinds(View(), v, va, i, scratchPage, true)
      {
        UnmappedFound(w, View(), v, va, n, i);
      }
    }

    // ----------------------------------------------------------------------
    // Spaces come and go
    // ----------------------------------------------------------------------

    constructor (frames: set<nat>, scratch: nat)
      requires forall f :: f in frames ==> FrameOk(f)
      ensures WorldOk(View()) && vms == map[] && free == frames && scratchPage == scratch
    {
      mem, free, scratchPage, scratchPt, scratchPd, scratchPdp := map[], frames, scratch, 0, 0, 0;
      vms, trees := map[], map[];
    }

    /** `ensurePpgttScratch`. After a failure it starts afresh. */
    method EnsureScratch() returns (ok: bool)
      requires WorldOk(View())
      modifies this`mem, this`free, this`scratchPt, this`scratchPd, this`scratchPdp
      ensures WorldOk(View()) && ok == (scratchPdp != 0) && free <= old(free) && scratchPage == old(scratchPage)
      ensures !ok ==> scratchPage == 0 || free == {}
      ensures old(scratchPdp) != 0 ==> ok && View() == old(View())
    {
      if scratchPdp != 0 {
        return true;
      }
      if scratchPage == 0 {
        return false;
      }
      scratchPt := AllocTable(Pte(scratchPage, true));
      scratchPd := 0;
      if scratchPt != 0 {
        scratchPd := AllocTable(Pde(scratchPt));
      }
      if scratchPd != 0 {
        scratchPdp := AllocTable(Pde(scratchPd));
      }
      return scratchPdp != 0;
    }

    /** `createPpgtt`; `v` is where the space is kept, and `memory` says whether there is any for that. */
    method Create(v: nat, memory: bool) returns (ok: bool)
      requires WorldOk(View()) && v !in vms
      modifies this
      ensures Created(old(View()), View(), v, ok)
      ensures !ok ==> (scratchPage == 0 && scratchPdp == 0) || !memory || free == {}
      ensures ok ==> memory && scratchPdp != 0 && free < old(free)
      ensures forall vpn: nat | ok && vpn < PAGES :: LeadsTo(Walk(mem, vms[v].pml4, vpn, 3), scratchPage / 4096 % 0x10_0000_0000 * 4096, 4)
    {
      ok := EnsureScratch();
      if !ok || !memory {
        return false;
      }
      ghost var w := View();
      var pml4 := AllocTable(Pde(scratchPdp));
      if pml4 == 0 {
        return false;
      }
      BornWorldOk(w, v, pml4);
      vms := vms[v := Space(pml4, 1)];
      trees := trees[v := map[ROOT := pml4]];
      assert View() == BornWorld(w, v, pml4);
      forall vpn: nat | vpn < PAGES
        ensures LeadsTo(Walk(mem, vms[v].pml4, vpn, 3), scratchPage / 4096 % 0x10_0000_0000 * 4096, 4)
      {
        HardwareAgrees(View(), v, vpn);
        PteRead(scratchPage, true);
      }
    }

    /** The PMM takes a frame back; only one that is out. */
    method FreeFrame(f: nat)
      requires f !in free
      modifies this`free
      ensures free == old(free) + {f}
    {
      free := free + {f};
    }

    /** `ppgttFreeLevel`. No frame is freed that is already free, so each table goes exactly once;
        no scratch table and no mapped page is among them. */
    method FreeLevel(table: nat, level: nat, ghost tree: Tree, ghost n: Node)
      requires TreeOk(mem, View().sc, tree) && n in tree && tree[n] == table && n.level == level <= 3
      requires free !! FramesUnder(tree, n)
      modifies this`free
      ensures free == old(free) + FramesUnder(tree, n)
      decreases level
    {
      assert NodeOk(mem, View().sc, tree, n);
      if level > 0 {
        var scratchBelow := ScratchFor(level);
        for i := 0 to ENTRIES
          invariant free == old(free) + FramesBefore(tree, n, i)
        {
          ChildAt(mem, View().sc, tree, n, i);
          FramesNext(tree, n, i);
          FramesApart(tree, n, i);
          UnderIncludes(tree, n, i);
          var child := EntryAddress(mem[table][i]);
          if child != 0 && child != scratchBelow {
            FreeLevel(child, level - 1, tree, Child(n, i));
          }
        }
        FramesApart(tree, n, ENTRIES - 1);
      }
      FramesAll(tree, n);
      FreeFrame(table);
    }

    /** `destroyPpgtt`. The PMM gets back exactly the tables of the space. */
    method Destroy(v: nat)
      requires WorldOk(View()) && v in vms
      modifies this`free, this`vms, this`trees
      ensures WorldOk(View()) && View() == GoneWorld(old(View()), v)
      ensures |free| == |old(free)| + old(vms[v].tablePages)
      ensures forall u {:trigger SameFor(old(View()), View(), u)} :: u in vms ==> SameFor(old(View()), View(), u)
    {
      ghost var w, tree := View(), trees[v];
      assert SpaceOk(w, v);
      WholeTree(w.mem, w.sc, tree);
      FreeLevel(vms[v].pml4, 3, tree, ROOT);
      GoneWorldOk(w, v);
      AsManyFrames(tree);
      vms := vms - {v};
      trees := trees - {v};
      assert View() == GoneWorld(w, v);
    }
  }
}
