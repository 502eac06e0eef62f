/**
 An address space as a whole: the `Binding` list of a `DrmVm` and the page tables behind it.
 Whatever is bound, dropped or only half bound, every address translates to what the list says,
 or to the scratch page.
 */
module AddressSpace {
  import opened Basics
  import opened Bindings
  import opened PageTables
  import opened Ppgtt

  /** The pages of a buffer object, and whether the GPU snoops the caches for them. */
  datatype Obj = Obj(pages: seq<nat>, cached: bool)

  type Objects = map<nat, Obj>

  /** What execbuffer's checks promise of a binding. */
  ghost predicate BindingOk(objects: Objects, b: Binding) {
    && b.obj in objects && b.size == |objects[b.obj].pages| * PAGE
    && b.va % PAGE == 0 && b.va + b.size <= FRAME_LIMIT
    && 0 < |objects[b.obj].pages| < 0x1_0000_0000
  }

  ghost predicate ListOk(objects: Objects, bs: seq<Binding>) {
    Apart(bs) && forall b :: b in bs ==> BindingOk(objects, b)
  }

  predicate HasPage(b: Binding, x: nat) {
    b.va <= x * PAGE < b.va + b.size
  }

  ghost function LeafOf(objects: Objects, b: Binding, x: nat): nat
    requires BindingOk(objects, b) && HasPage(b, x)
  {
    Pte(objects[b.obj].pages[x - b.va / PAGE], objects[b.obj].cached)
  }

  /** What the list says about a page. */
  ghost function Says(objects: Objects, bs: seq<Binding>, fill: nat, x: nat): nat
    requires forall b :: b in bs ==> BindingOk(objects, b)
  {
    if bs == [] then fill
    else if HasPage(bs[0], x) then LeafOf(objects, bs[0], x)
    else Says(objects, bs[1..], fill, x)
  }

  /** The page tables show what the list says. */
  ghost predicate Shows(w: World, v: nat, objects: Objects, bs: seq<Binding>)
    requires WorldOk(w) && v in w.vms
    requires forall b :: b in bs ==> BindingOk(objects, b)
  {
    forall x {:trigger Sees(w, v, x)} :: 0 <= x < PAGES ==> Sees(w, v, x) == Says(objects, bs, Fill(w.sc, 0), x)
  }

  /** Without a binding over it a page shows scratch; with one, that object's page. */
  lemma {:induction false} SaysIs(objects: Objects, bs: seq<Binding>, fill: nat, x: nat)
    requires ListOk(objects, bs)
    ensures (forall b :: b in bs ==> !HasPage(b, x)) ==> Says(objects, bs, fill, x) == fill
    ensures forall b :: b in bs && HasPage(b, x) ==> Says(objects, bs, fill, x) == LeafOf(objects, b, x)
  {
    if bs != [] {
      TailOk(objects, bs);
      SaysIs(objects, bs[1..], fill, x);
      forall b | b in bs && HasPage(b, x)
        ensures Says(objects, bs, fill, x) == LeafOf(objects, b, x)
      {
        if b != bs[0] {
          assert b in bs[1..];
          ApartMembers(bs, bs[0], b);
        }
      }
    }
  }

  lemma TailOk(objects: Objects, bs: seq<Binding>)
    requires ListOk(objects, bs) && bs != []
    ensures ListOk(objects, bs[1..])
  {
    assert forall i :: 0 <= i < |bs[1..]| ==> bs[1..][i] == bs[i + 1];
  }

  /** Taking one binding out of the list takes its pages back to scratch, and no others. */
  lemma SaysWithout(objects: Objects, before: seq<Binding>, b: Binding, after: seq<Binding>, fill: nat, x: nat)
    requires ListOk(objects, before + [b] + after)
    ensures ListOk(objects, before + after)
    ensures Says(objects, before + after, fill, x) == if HasPage(b, x) then fill else Says(objects, before + [b] + after, fill, x)
  {
    var all, rest := before + [b] + after, before + after;
    RestOk(objects, before, b, after);
    SaysIs(objects, all, fill, x);
    SaysIs(objects, rest, fill, x);
    assert b in all;
    assert forall c :: c in rest ==> c in all;
    assert forall c :: c in all ==> c == b || c in rest;
    if HasPage(b, x) {
      forall c | c in rest
        ensures !HasPage(c, x)
      {
        RestApart(objects, before, b, after, c);
      }
    }
  }

  lemma RestOk(objects: Objects, before: seq<Binding>, b: Binding, after: seq<Binding>)
    requires ListOk(objects, before + [b] + after)
    ensures ListOk(objects, before + after)
  {
    var all, rest := before + [b] + after, before + after;
    assert forall i :: 0 <= i < |rest| ==> rest[i] == all[if i < |before| then i else i + 1];
    assert forall c :: c in rest ==> c in all;
  }

  lemma RestApart(objects: Objects, before: seq<Binding>, b: Binding, after: seq<Binding>, c: Binding)
    requires ListOk(objects, before + [b] + after) && c in before + after
    ensures !Overlap(b, c)
  {
    var all := before + [b] + after;
    var i :| 0 <= i < |before + after| && (before + after)[i] == c;
    assert all[|before|] == b;
    if i < |before| {
      assert all[i] == c;
    } else {
      assert all[i + 1] == c;
    }
  }

  /** A binding's pages are the range that starts at its address. */
  lemma PagesOf(objects: Objects, b: Binding, x: nat)
    requires BindingOk(objects, b) && x < PAGES
    ensures var n := |objects[b.obj].pages|;
            && (HasPage(b, x) <==> Offset(PageOf(b.va), x) < n)
            && (HasPage(b, x) ==> Offset(PageOf(b.va), x) == x - b.va / PAGE)
            && (b.size + PAGE - 1) / PAGE == n
  {
    var first := b.va / PAGE;
    assert PageOf(b.va) == first && b.va == first * PAGE;
    var n := |objects[b.obj].pages|;
    assert first + n <= PAGES;
    if x >= first {
      assert Offset(first, x) == x - first;
    } else {
      assert Offset(first, x) == x - first + PAGES;
    }
  }

  lemma UnbindShows(w: World, w': World, v: nat, objects: Objects, before: seq<Binding>, b: Binding, after: seq<Binding>)
    requires WorldOk(w) && WorldOk(w') && v in w.vms && v in w'.vms && w'.sc == w.sc
    requires ListOk(objects, before + [b] + after) && b in before + [b] + after
    requires Shows(w, v, objects, before + [b] + after)
    requires Unmapped(w, w', v, PageOf(b.va), (b.size + PAGE - 1) / PAGE)
    ensures ListOk(objects, before + after) && Shows(w', v, objects, before + after)
  {
    RestOk(objects, before, b, after);
    forall x | 0 <= x < PAGES
      ensures Sees(w', v, x) == Says(objects, before + after, Fill(w'.sc, 0), x)
    {
      SaysWithout(objects, before, b, after, Fill(w.sc, 0), x);
      PagesOf(objects, b, x);
      assert Sees(w, v, x) == Says(objects, before + [b] + after, Fill(w.sc, 0), x);
    }
  }

  lemma BindShows(w: World, w': World, v: nat, objects: Objects, b: Binding, bs: seq<Binding>)
    requires WorldOk(w) && WorldOk(w') && v in w.vms && v in w'.vms && w'.sc == w.sc
    requires ListOk(objects, [b] + bs) && (forall c :: c in bs ==> BindingOk(objects, c)) && BindingOk(objects, b)
    requires Shows(w, v, objects, bs)
    requires Mapped(w, w', v, PageOf(b.va), Ptes(objects[b.obj].pages, objects[b.obj].cached))
    ensures Shows(w', v, objects, [b] + bs)
  {
    forall x | 0 <= x < PAGES
      ensures Sees(w', v, x) == Says(objects, [b] + bs, Fill(w'.sc, 0), x)
    {
      PagesOf(objects, b, x);
      assert ([b] + bs)[1..] == bs;
      assert Sees(w, v, x) == Says(objects, bs, Fill(w.sc, 0), x);
    }
  }

  /** A bind that failed half way and was taken back leaves everything as the list says. */
  lemma FailedBindShows(w: World, mid: World, w': World, v: nat, objects: Objects, b: Binding, bs: seq<Binding>, entries: seq<nat>)
    requires WorldOk(w) && WorldOk(mid) && WorldOk(w') && v in w.vms && v in mid.vms && v in w'.vms && w'.sc == mid.sc == w.sc
    requires ListOk(objects, bs) && BindingOk(objects, b) && Shows(w, v, objects, bs)
    requires forall c :: c in bs ==> !Overlap(c, b)
    requires Mapped(w, mid, v, PageOf(b.va), entries) && |entries| <= |objects[b.obj].pages|
    requires Unmapped(mid, w', v, PageOf(b.va), (b.size + PAGE - 1) / PAGE)
    ensures Shows(w', v, objects, bs)
  {
    var n := |objects[b.obj].pages|;
    PagesOf(objects, b, 0);
    forall x | 0 <= x < PAGES && Offset(PageOf(b.va), x) < n
      ensures Sees(w, v, x) == Fill(w.sc, 0)
    {
      PagesOf(objects, b, x);
      SaysIs(objects, bs, Fill(w.sc, 0), x);
      assert forall c :: c in bs ==> !HasPage(c, x);
    }
    RollBack(w, mid, w', v, PageOf(b.va), entries, n);
    forall x | 0 <= x < PAGES
      ensures Sees(w', v, x) == Says(objects, bs, Fill(w'.sc, 0), x)
    {
      assert Sees(w, v, x) == Says(objects, bs, Fill(w.sc, 0), x);
    }
  }

  /** One binding further down the list. */
  lemma EvictNext(list: seq<Binding>, i: nat, want: Binding)
    requires i < |list|
    ensures Evict(list[..i + 1], want) == Evict(list[..i], want) + if InTheWay(list[i], want) then [] else [list[i]]
    ensures AnyInPlace(list[..i + 1], want) <==> AnyInPlace(list[..i], want) || InPlace(list[i], want)
  {
    assert list[..i + 1] == list[..i] + [list[i]];
    FilterAppend((x: Binding) => !InTheWay(x, want), list[..i], [list[i]]);
  }

  lemma AtHead(kept: seq<Binding>, list: seq<Binding>, i: nat)
    requires i < |list|
    ensures var all := kept + list[i..];
            && all[|kept|] == list[i]
            && all == kept + [list[i]] + list[i + 1..]
            && all[..|kept|] + all[|kept| + 1..] == kept + list[i + 1..]
  {
  }

  /** The walk over the list has come to its `i`th binding, now the `j`th that is left. */
  ghost predicate WalkedTo(list: seq<Binding>, i: nat, want: Binding, bs: seq<Binding>, j: nat, bound: bool) {
    && i <= |list| && j == |Evict(list[..i], want)|
    && bs == Evict(list[..i], want) + list[i..]
    && bound == AnyInPlace(list[..i], want)
  }

  lemma WalkStep(list: seq<Binding>, i: nat, want: Binding, bs: seq<Binding>, j: nat, bound: bool)
    requires WalkedTo(list, i, want, bs, j, bound) && j < |bs|
    ensures i < |list| && bs[j] == list[i]
    ensures if InTheWay(bs[j], want) then WalkedTo(list, i + 1, want, bs[..j] + bs[j + 1..], j, bound)
            else WalkedTo(list, i + 1, want, bs, j + 1, bound || InPlace(bs[j], want))
  {
    EvictNext(list, i, want);
    AtHead(Evict(list[..i], want), list, i);
  }

  lemma WalkEnd(list: seq<Binding>, i: nat, want: Binding, bs: seq<Binding>, j: nat, bound: bool)
    requires WalkedTo(list, i, want, bs, j, bound) && j >= |bs|
    ensures bs == Evict(list, want) && bound == AnyInPlace(list, want)
  {
    assert list[..i] == list;
  }

  lemma EvictClears(bs: seq<Binding>, want: Binding)
    requires !AnyInPlace(bs, want)
    ensures forall c :: c in Evict(bs, want) ==> !Overlap(c, want) && c.obj != want.obj
  {
  }

  lemma NewFirst(objects: Objects, b: Binding, bs: seq<Binding>)
    requires ListOk(objects, bs) && BindingOk(objects, b)
    requires forall c :: c in bs ==> !Overlap(c, b) && c.obj != b.obj
    ensures ListOk(objects, [b] + bs)
  {
    assert forall i :: 0 <= i < |bs| ==> bs[i] in bs;
  }

  lemma WithoutNext(list: seq<Binding>, i: nat, obj: nat)
    requires i < |list|
    ensures Without(list[..i + 1], obj) == Without(list[..i], obj) + if list[i].obj == obj then [] else [list[i]]
  {
    assert list[..i + 1] == list[..i] + [list[i]];
    FilterAppend((x: Binding) => x.obj != obj, list[..i], [list[i]]);
  }

  ghost predicate StrippedTo(list: seq<Binding>, i: nat, obj: nat, bs: seq<Binding>, j: nat) {
    && i <= |list| && j == |Without(list[..i], obj)|
    && bs == Without(list[..i], obj) + list[i..]
  }

  lemma StripStep(list: seq<Binding>, i: nat, obj: nat, bs: seq<Binding>, j: nat)
    requires StrippedTo(list, i, obj, bs, j) && j < |bs|
    ensures i < |list|
    ensures var gone := bs[j].obj == obj;
            StrippedTo(list, i + 1, obj, if gone then bs[..j] + bs[j + 1..] else bs, if gone then j else j + 1)
  {
    WithoutNext(list, i, obj);
    AtHead(Without(list[..i], obj), list, i);
  }

  lemma StripEnd(list: seq<Binding>, i: nat, obj: nat, bs: seq<Binding>, j: nat)
    requires StrippedTo(list, i, obj, bs, j) && j >= |bs|
    ensures bs == Without(list, obj)
  {
    assert list[..i] == list;
  }

  /** A list says nothing about an object that is not in it. */
  lemma SaysSame(objects: Objects, objects': Objects, bs: seq<Binding>, obj: nat)
    requires forall b :: b in bs ==> BindingOk(objects, b) && b.obj != obj
    requires forall o :: o in objects && o != obj ==> o in objects' && objects'[o] == objects[o]
    ensures forall b :: b in bs ==> BindingOk(objects', b)
    ensures forall fill, x :: Says(objects', bs, fill, x) == Says(objects, bs, fill, x)
  {
    forall fill, x
      ensures Says(objects', bs, fill, x) == Says(objects, bs, fill, x)
    {
      SaysSameAt(objects, objects', bs, obj, fill, x);
    }
  }

  lemma {:induction false} SaysSameAt(objects: Objects, objects': Objects, bs: seq<Binding>, obj: nat, fill: nat, x: nat)
    requires forall b :: b in bs ==> BindingOk(objects, b) && b.obj != obj && BindingOk(objects', b)
    requires forall o :: o in objects && o != obj ==> o in objects' && objects'[o] == objects[o]
    ensures Says(objects', bs, fill, x) == Says(objects, bs, fill, x)
    decreases |bs|
  {
    if bs != [] {
      assert bs[0] in bs;
      SaysSameAt(objects, objects', bs[1..], obj, fill, x);
    }
  }

  // ------------------------------------------------------------------------
  // What the operations on a space do to its tables
  // ------------------------------------------------------------------------

  ghost predicate TablesShow(w: World, v: nat, objects: Objects, bs: seq<Binding>) {
    WorldOk(w) && v in w.vms && ListOk(objects, bs) && Shows(w, v, objects, bs)
  }

  /** A binding's range is unmapped. */
  ghost predicate Drops(w: World, w': World, v: nat, b: Binding) {
    && WorldOk(w) && WorldOk(w') && v in w.vms && OthersSame(w, w', v)
    && Unmapped(w, w', v, PageOf(b.va), (b.size + PAGE - 1) / PAGE)
  }

  /** The first `k` pages of an object are mapped. */
  ghost predicate Enters(w: World, w': World, v: nat, o: Obj, b: Binding, k: nat)
    requires k <= |o.pages|
  {
    && WorldOk(w) && WorldOk(w') && v in w.vms && OthersSame(w, w', v)
    && Mapped(w, w', v, PageOf(b.va), Ptes(o.pages[..k], o.cached))
  }

  /** A mapping that failed after some pages, and was taken back. */
  ghost predicate Fails(w: World, w': World, v: nat, o: Obj, b: Binding) {
    exists mid, k :: 0 <= k <= |o.pages| && Enters(w, mid, v, o, b, k) && Drops(mid, w', v, b)
  }

  ghost predicate DropsAll(w: World, w': World, v: nat, gone: seq<Binding>)
    decreases |gone|
  {
    if gone == [] then w' == w
    else exists mid :: Drops(w, mid, v, gone[0]) && DropsAll(mid, w', v, gone[1..])
  }

  function InWay(bs: seq<Binding>, want: Binding): seq<Binding> {
    Filter((x: Binding) => InTheWay(x, want), bs)
  }

  function BindingsOf(bs: seq<Binding>, obj: nat): seq<Binding> {
    Filter((x: Binding) => x.obj == obj, bs)
  }

  /** What is in the way is gone; then the object is mapped unless it already was, or cannot be. */
  ghost predicate Maps(w: World, w': World, v: nat, o: Obj, bs: seq<Binding>, want: Binding, ok: bool) {
    if AnyInPlace(bs, want) then ok && w' == w
    else if ok then Enters(w, w', v, o, want, |o.pages|)
    else Fails(w, w', v, o, want)
  }

  /** One object of an execbuffer's list. */
  ghost predicate Binds(w: World, w': World, v: nat, o: Obj, bs: seq<Binding>, want: Binding, ok: bool) {
    exists mid :: DropsAll(w, mid, v, InWay(bs, want)) && Maps(mid, w', v, o, bs, want, ok)
  }

  ghost predicate WantsOk(objects: Objects, wants: seq<Binding>) {
    forall b {:trigger b in wants} :: b in wants ==> BindingOk(objects, b)
  }

  ghost predicate BindsEach(w: World, w': World, v: nat, objects: Objects, bs: seq<Binding>, wants: seq<Binding>)
    decreases |wants|
  {
    if wants == [] then w' == w
    else
      var n := |wants| - 1;
      && wants[n].obj in objects
      && exists mid ::
           && BindsEach(w, mid, v, objects, bs, wants[..n])
           && Binds(mid, w', v, objects[wants[n].obj], PlaceAll(bs, wants[..n]), wants[n], true)
  }

  /** The bind loop, up to the first object that cannot be mapped. */
  ghost predicate BindsUpTo(w: World, w': World, v: nat, objects: Objects, bs: seq<Binding>, wants: seq<Binding>, k: nat)
    requires k <= |wants|
  {
    if k == |wants| then BindsEach(w, w', v, objects, bs, wants)
    else
      && wants[k].obj in objects
      && exists mid ::
           && BindsEach(w, mid, v, objects, bs, wants[..k])
           && Binds(mid, w', v, objects[wants[k].obj], PlaceAll(bs, wants[..k]), wants[k], false)
  }

  // ------------------------------------------------------------------------
  // And that the tables go on showing the list
  // ------------------------------------------------------------------------

  /** The same pages; the caching an object was bound with may differ from what it is now. */
  ghost predicate Recorded(seen: Objects, objects: Objects) {
    seen.Keys == objects.Keys && forall o :: o in objects ==> seen[o].pages == objects[o].pages
  }

  lemma DropShows(w: World, w': World, v: nat, seen: Objects, before: seq<Binding>, b: Binding, after: seq<Binding>)
    requires TablesShow(w, v, seen, before + [b] + after) && Drops(w, w', v, b)
    ensures TablesShow(w', v, seen, before + after)
  {
    assert b in before + [b] + after;
    UnbindShows(w, w', v, seen, before, b, after);
  }

  lemma Regroup(a: seq<Binding>, b: seq<Binding>)
    requires b != []
    ensures a + b == a + [b[0]] + b[1..]
  {
  }

  /** Unmapping what is taken out of the list. */
  lemma {:induction false} StripShows(w: World, w': World, v: nat, seen: Objects, kept: seq<Binding>, rest: seq<Binding>,
                                      keep: Binding -> bool, gone: Binding -> bool)
    requires TablesShow(w, v, seen, kept + rest) && (forall x :: gone(x) <==> !keep(x)) && DropsAll(w, w', v, Filter(gone, rest))
    ensures TablesShow(w', v, seen, kept + Filter(keep, rest)) && OthersSame(w, w', v)
    decreases |rest|
  {
    if rest == [] {
      assert Filter(keep, rest) == rest;
    } else {
      var x := rest[0];
      Regroup(kept, rest);
      if keep(x) {
        assert Filter(gone, rest) == Filter(gone, rest[1..]);
        StripShows(w, w', v, seen, kept + [x], rest[1..], keep, gone);
        Regroup(kept, Filter(keep, rest));
      } else {
        var all := Filter(gone, rest);
        assert all[0] == x && all[1..] == Filter(gone, rest[1..]);
        var mid :| Drops(w, mid, v, x) && DropsAll(mid, w', v, all[1..]);
        DropShows(w, mid, v, seen, kept, x, rest[1..]);
        StripShows(mid, w', v, seen, kept, rest[1..], keep, gone);
        assert Filter(keep, rest) == Filter(keep, rest[1..]);
        OthersTwice(w, mid, w', v);
      }
    }
  }

  /** A list that does not have the object shows the same whatever its caching. */
  lemma SeenAnew(w: World, v: nat, seen: Objects, seen': Objects, bs: seq<Binding>, obj: nat)
    requires TablesShow(w, v, seen, bs) && (forall b :: b in bs ==> b.obj != obj)
    requires forall o :: o in seen && o != obj ==> o in seen' && seen'[o] == seen[o]
    ensures TablesShow(w, v, seen', bs)
  {
    SaysSame(seen, seen', bs, obj);
  }

  lemma EntersShows(w: World, w': World, v: nat, seen: Objects, bs: seq<Binding>, want: Binding)
    requires TablesShow(w, v, seen, bs) && BindingOk(seen, want) && forall c :: c in bs ==> !Overlap(c, want) && c.obj != want.obj
    requires Enters(w, w', v, seen[want.obj], want, |seen[want.obj].pages|)
    ensures TablesShow(w', v, seen, [want] + bs)
  {
    var pages := seen[want.obj].pages;
    assert pages[..|pages|] == pages;
    NewFirst(seen, want, bs);
    BindShows(w, w', v, seen, want, bs);
  }

  lemma FailsShows(w: World, w': World, v: nat, seen: Objects, bs: seq<Binding>, want: Binding)
    requires TablesShow(w, v, seen, bs) && BindingOk(seen, want) && forall c :: c in bs ==> !Overlap(c, want)
    requires Fails(w, w', v, seen[want.obj], want)
    ensures TablesShow(w', v, seen, bs) && OthersSame(w, w', v)
  {
    var o := seen[want.obj];
    var mid, k :| 0 <= k <= |o.pages| && Enters(w, mid, v, o, want, k) && Drops(mid, w', v, want);
    FailedBindShows(w, mid, w', v, seen, want, bs, Ptes(o.pages[..k], o.cached));
    OthersTwice(w, mid, w', v);
  }

  ghost function Refreshed(seen: Objects, objects: Objects, obj: nat): (r: Objects)
    requires Recorded(seen, objects) && obj in objects
    ensures Recorded(r, objects) && r[obj] == objects[obj] && (seen == objects ==> r == objects)
    ensures forall o :: o in seen && o != obj ==> o in r && r[o] == seen[o]
  {
    seen[obj := objects[obj]]
  }

  lemma MapsShows(w: World, w': World, v: nat, seen: Objects, objects: Objects, bs: seq<Binding>, want: Binding, ok: bool)
    returns (seen': Objects)
    requires TablesShow(w, v, seen, Evict(bs, want)) && Recorded(seen, objects) && BindingOk(objects, want)
    requires Maps(w, w', v, objects[want.obj], bs, want, ok)
    ensures TablesShow(w', v, seen', if ok then Place(bs, want) else Evict(bs, want)) && OthersSame(w, w', v)
    ensures Recorded(seen', objects) && (seen == objects ==> seen' == objects)
  {
    if AnyInPlace(bs, want) {
      seen' := seen;
    } else {
      EvictClears(bs, want);
      seen' := Refreshed(seen, objects, want.obj);
      SeenAnew(w, v, seen, seen', Evict(bs, want), want.obj);
      if ok {
        EntersShows(w, w', v, seen', Evict(bs, want), want);
      } else {
        FailsShows(w, w', v, seen', Evict(bs, want), want);
      }
    }
  }

  lemma EvictedShows(w: World, w': World, v: nat, seen: Objects, bs: seq<Binding>, want: Binding)
    requires TablesShow(w, v, seen, bs) && DropsAll(w, w', v, InWay(bs, want))
    ensures TablesShow(w', v, seen, Evict(bs, want)) && OthersSame(w, w', v)
  {
    assert [] + bs == bs && [] + Evict(bs, want) == Evict(bs, want);
    StripShows(w, w', v, seen, [], bs, (x: Binding) => !InTheWay(x, want), (x: Binding) => InTheWay(x, want));
  }

  lemma StrippedShows(w: World, w': World, v: nat, seen: Objects, bs: seq<Binding>, obj: nat)
    requires TablesShow(w, v, seen, bs) && DropsAll(w, w', v, BindingsOf(bs, obj))
    ensures TablesShow(w', v, seen, Without(bs, obj)) && OthersSame(w, w', v)
  {
    assert [] + bs == bs && [] + Without(bs, obj) == Without(bs, obj);
    StripShows(w, w', v, seen, [], bs, (x: Binding) => x.obj != obj, (x: Binding) => x.obj == obj);
  }

  lemma BindsShows(w: World, w': World, v: nat, seen: Objects, objects: Objects, bs: seq<Binding>, want: Binding, ok: bool)
    returns (seen': Objects)
    requires TablesShow(w, v, seen, bs) && Recorded(seen, objects) && BindingOk(objects, want)
    requires Binds(w, w', v, objects[want.obj], bs, want, ok)
    ensures TablesShow(w', v, seen', if ok then Place(bs, want) else Evict(bs, want)) && OthersSame(w, w', v)
    ensures Recorded(seen', objects) && (seen == objects ==> seen' == objects)
  {
    var mid :| DropsAll(w, mid, v, InWay(bs, want)) && Maps(mid, w', v, objects[want.obj], bs, want, ok);
    EvictedShows(w, mid, v, seen, bs, want);
    seen' := MapsShows(mid, w', v, seen, objects, bs, want, ok);
    OthersTwice(w, mid, w', v);
  }

  lemma {:induction false} BindsEachShows(w: World, w': World, v: nat, seen: Objects, objects: Objects, bs: seq<Binding>, wants: seq<Binding>)
    returns (seen': Objects)
    requires TablesShow(w, v, seen, bs) && Recorded(seen, objects) && WantsOk(objects, wants)
    requires BindsEach(w, w', v, objects, bs, wants)
    ensures TablesShow(w', v, seen', PlaceAll(bs, wants)) && OthersSame(w, w', v)
    ensures Recorded(seen', objects) && (seen == objects ==> seen' == objects)
    decreases |wants|
  {
    if wants == [] {
      seen' := seen;
    } else {
      var n := |wants| - 1;
      var mid :| BindsEach(w, mid, v, objects, bs, wants[..n])
                 && Binds(mid, w', v, objects[wants[n].obj], PlaceAll(bs, wants[..n]), wants[n], true);
      assert wants[n] in wants && forall b :: b in wants[..n] ==> b in wants;
      var seen1 := BindsEachShows(w, mid, v, seen, objects, bs, wants[..n]);
      seen' := BindsShows(mid, w', v, seen1, objects, PlaceAll(bs, wants[..n]), wants[n], true);
      OthersTwice(w, mid, w', v);
    }
  }

  lemma BindsUpToShows(w: World, w': World, v: nat, seen: Objects, objects: Objects, bs: seq<Binding>, wants: seq<Binding>, k: nat)
    returns (seen': Objects)
    requires TablesShow(w, v, seen, bs) && Recorded(seen, objects) && k <= |wants| && WantsOk(objects, wants)
    requires BindsUpTo(w, w', v, objects, bs, wants, k)
    ensures TablesShow(w', v, seen', PlaceSome(bs, wants, k)) && OthersSame(w, w', v)
    ensures Recorded(seen', objects) && (seen == objects ==> seen' == objects)
  {
    if k == |wants| {
      seen' := BindsEachShows(w, w', v, seen, objects, bs, wants);
    } else {
      var mid :| BindsEach(w, mid, v, objects, bs, wants[..k])
                 && Binds(mid, w', v, objects[wants[k].obj], PlaceAll(bs, wants[..k]), wants[k], false);
      assert wants[k] in wants && forall b :: b in wants[..k] ==> b in wants;
      var seen1 := BindsEachShows(w, mid, v, seen, objects, bs, wants[..k]);
      seen' := BindsShows(mid, w', v, seen1, objects, PlaceAll(bs, wants[..k]), wants[k], false);
      OthersTwice(w, mid, w', v);
    }
  }

  // ------------------------------------------------------------------------
  // The loops
  // ------------------------------------------------------------------------

  lemma TailAppend(gone: seq<Binding>, b: Binding)
    requires gone != []
    ensures (gone + [b])[0] == gone[0] && (gone + [b])[1..] == gone[1..] + [b]
  {
  }

  lemma {:induction false} DropsMore(w: World, mid: World, w': World, v: nat, gone: seq<Binding>, b: Binding)
    requires DropsAll(w, mid, v, gone) && Drops(mid, w', v, b)
    ensures DropsAll(w, w', v, gone + [b])
    decreases |gone|
  {
    var all := gone + [b];
    if gone == [] {
      assert all[0] == b && all[1..] == [];
      assert Drops(w, w', v, all[0]) && DropsAll(w', w', v, all[1..]);
    } else {
      TailAppend(gone, b);
      var next :| Drops(w, next, v, gone[0]) && DropsAll(next, mid, v, gone[1..]);
      DropsMore(next, mid, w', v, gone[1..], b);
      assert Drops(w, next, v, all[0]) && DropsAll(next, w', v, all[1..]);
    }
  }

  lemma InWayNext(list: seq<Binding>, i: nat, want: Binding)
    requires i < |list|
    ensures InWay(list[..i + 1], want) == if InTheWay(list[i], want) then InWay(list[..i], want) + [list[i]] else InWay(list[..i], want)
  {
    assert list[..i + 1] == list[..i] + [list[i]];
    FilterAppend((x: Binding) => InTheWay(x, want), list[..i], [list[i]]);
  }

  lemma BindingsOfNext(list: seq<Binding>, i: nat, obj: nat)
    requires i < |list|
    ensures BindingsOf(list[..i + 1], obj) == if list[i].obj == obj then BindingsOf(list[..i], obj) + [list[i]] else BindingsOf(list[..i], obj)
  {
    assert list[..i + 1] == list[..i] + [list[i]];
    FilterAppend((x: Binding) => x.obj == obj, list[..i], [list[i]]);
  }

  lemma StrippedHead(list: seq<Binding>, i: nat, obj: nat, bs: seq<Binding>, j: nat)
    requires StrippedTo(list, i, obj, bs, j) && j < |bs|
    ensures i < |list| && bs[j] == list[i]
  {
  }

  class Vm {
    const gpu: Gpu
    const v: nat
    var objects: Objects
    var bindings: seq<Binding>
    ghost var seen: Objects            // the objects as they were when they were bound

    constructor (gpu: Gpu, v: nat, objects: Objects)
      requires WorldOk(gpu.View()) && v in gpu.vms
      requires forall x {:trigger Sees(gpu.View(), v, x)} :: Sees(gpu.View(), v, x) == Fill(gpu.View().sc, 0)
      ensures this.gpu == gpu && this.v == v && Valid() && Exact() && bindings == [] && this.objects == objects
    {
      this.gpu, this.v, this.objects, this.bindings, this.seen := gpu, v, objects, [], objects;
    }

    /** The page tables show exactly what the binding list says, with the caching each object was bound with. */
    ghost predicate Valid()
      reads this, gpu
    {
      Recorded(seen, objects) && TablesShow(gpu.View(), v, seen, bindings)
    }

    /** Which is the caching it has now. */
    ghost predicate Exact()
      reads this
    {
      seen == objects
    }

    /** `unbind`. */
    method Unbind(i: nat)
      requires Valid() && i < |bindings|
      modifies this`bindings, gpu`mem
      ensures Valid() && bindings == old(bindings[..i] + bindings[i + 1..])
      ensures Drops(old(gpu.View()), gpu.View(), v, old(bindings[i]))
    {
      var b := bindings[i];
      ghost var w, before, after := gpu.View(), bindings[..i], bindings[i + 1..];
      assert bindings == before + [b] + after;
      assert b in bindings;
      bindings := bindings[..i] + bindings[i + 1..];
      gpu.Unmap(v, b.va, b.size);
      DropShows(w, gpu.View(), v, seen, before, b, after);
    }

    /** One binding of the list against what is wanted. */
    method Consider(ghost w: World, ghost list: seq<Binding>, ghost i: nat, want: Binding, j: nat, found: bool) returns (next: nat, bound: bool)
      requires Valid() && WalkedTo(list, i, want, bindings, j, found) && j < |bindings|
      requires DropsAll(w, gpu.View(), v, InWay(list[..i], want))
      modifies this`bindings, gpu`mem
      ensures Valid() && i < |list| && WalkedTo(list, i + 1, want, bindings, next, bound)
      ensures DropsAll(w, gpu.View(), v, InWay(list[..i + 1], want))
    {
      ghost var mid := gpu.View();
      WalkStep(list, i, want, bindings, j, found);
      InWayNext(list, i, want);
      var b := bindings[j];
      var same := b.obj == want.obj && b.va == want.va;
      var overlaps := want.va < b.va + b.size && b.va < want.va + want.size;
      next, bound := j + 1, found || same;
      if !same && (overlaps || b.obj == want.obj) {
        assert InTheWay(b, want);
        Unbind(j);
        DropsMore(w, mid, gpu.View(), v, InWay(list[..i], want), b);
        next := j;
      }
    }

    /** What is in the way of an object is unbound as the list is walked. */
    method MakeRoom(want: Binding) returns (bound: bool)
      requires Valid()
      modifies this`bindings, gpu`mem
      ensures Valid() && bindings == Evict(old(bindings), want) && bound == AnyInPlace(old(bindings), want)
      ensures DropsAll(old(gpu.View()), gpu.View(), v, InWay(old(bindings), want))
    {
      ghost var w, list, i: nat := gpu.View(), bindings, 0;
      bound := false;
      var j: nat := 0;
      while j < |bindings|
        invariant Valid() && WalkedTo(list, i, want, bindings, j, bound)
        invariant DropsAll(w, gpu.View(), v, InWay(list[..i], want))
        decreases |list| - i
      {
        j, bound := Consider(w, list, i, want, j, bound);
        i := i + 1;
      }
      WalkEnd(list, i, want, bindings, j, bound);
      assert list[..i] == list;
    }

    /** As many pages as there are frames for, if there is memory for the binding. */
    method Enter(want: Binding, memory: bool) returns (ok: bool, ghost k: nat)
      requires Valid() && BindingOk(objects, want)
      modifies gpu`mem, gpu`free, gpu`vms, gpu`trees
      ensures k <= |objects[want.obj].pages| && (ok <==> memory && k == |objects[want.obj].pages|)
      ensures Enters(old(gpu.View()), gpu.View(), v, objects[want.obj], want, k)
      ensures !ok ==> !memory || gpu.free == {}
    {
      ok, k := false, 0;
      if memory {
        ok, k := gpu.Map(v, want.va, objects[want.obj].pages, objects[want.obj].cached);
      }
    }

    /** The new mapping, in a range nothing is bound to; it is taken back if it fails half way. */
    method MapObject(want: Binding, memory: bool) returns (ok: bool)
      requires Valid() && BindingOk(objects, want)
      modifies gpu`mem, gpu`free, gpu`vms, gpu`trees
      ensures if ok then Enters(old(gpu.View()), gpu.View(), v, objects[want.obj], want, |objects[want.obj].pages|)
              else Fails(old(gpu.View()), gpu.View(), v, objects[want.obj], want)
      ensures !ok ==> !memory || gpu.free == {}
    {
      ghost var k;
      ok, k := Enter(want, memory);
      if !ok {
        gpu.Unmap(v, want.va, want.size);
      }
    }

    /** Binding one object where the caller placed it. There may be no memory for a binding, and the page tables may run
        out of frames; then the half-made mapping is taken back, and what was in the way is gone all the same. */
    method Bind(want: Binding, memory: bool) returns (ok: bool)
      requires Valid() && BindingOk(objects, want)
      modifies this`bindings, this`seen, gpu`mem, gpu`free, gpu`vms, gpu`trees
      ensures Valid() && (old(Exact()) ==> Exact())
      ensures bindings == if ok then Place(old(bindings), want) else Evict(old(bindings), want)
      ensures Binds(old(gpu.View()), gpu.View(), v, objects[want.obj], old(bindings), want, ok)
      ensures !ok ==> want !in old(bindings) && (!memory || gpu.free == {})
    {
      ghost var w, was := gpu.View(), bindings;
      var bound := MakeRoom(want);
      ghost var mid := gpu.View();
      if bound {
        ok := true;
        assert Maps(mid, mid, v, objects[want.obj], was, want, true);
        return;
      }
      ok := MapObject(want, memory);
      assert Maps(mid, gpu.View(), v, objects[want.obj], was, want, ok);
      seen := MapsShows(mid, gpu.View(), v, seen, objects, was, want, ok);
      if ok {
        bindings := [want] + bindings;
      }
    }

    /** The next object of the list, after those before it. */
    method BindNext(ghost w: World, ghost was: seq<Binding>, wants: seq<Binding>, k: nat, memory: bool) returns (ok: bool)
      requires Valid() && WantsOk(objects, wants) && k < |wants|
      requires bindings == PlaceAll(was, wants[..k]) && BindsEach(w, gpu.View(), v, objects, was, wants[..k])
      modifies this`bindings, this`seen, gpu`mem, gpu`free, gpu`vms, gpu`trees
      ensures Valid() && (old(Exact()) ==> Exact())
      ensures if ok then bindings == PlaceAll(was, wants[..k + 1]) && BindsEach(w, gpu.View(), v, objects, was, wants[..k + 1])
              else bindings == PlaceSome(was, wants, k) && BindsUpTo(w, gpu.View(), v, objects, was, wants, k)
      ensures !ok ==> !memory || gpu.free == {}
    {
      assert wants[k] in wants;
      assert wants[..k + 1][..k] == wants[..k] && wants[..k + 1][k] == wants[k];
      ok := Bind(wants[k], memory);
    }

    /** The bind loop of an execbuffer: objects in order, up to the first that cannot be mapped. */
    method BindAll(wants: seq<Binding>, memory: nat -> bool) returns (k: nat)
      requires Valid() && WantsOk(objects, wants)
      modifies this`bindings, this`seen, gpu`mem, gpu`free, gpu`vms, gpu`trees
      ensures Valid() && (old(Exact()) ==> Exact())
      ensures k <= |wants| && bindings == PlaceSome(old(bindings), wants, k)
      ensures BindsUpTo(old(gpu.View()), gpu.View(), v, objects, old(bindings), wants, k)
      ensures k < |wants| ==> !memory(k) || gpu.free == {}
    {
      ghost var w, was := gpu.View(), bindings;
      k := 0;
      while k < |wants|
        invariant k <= |wants| && Valid() && (old(Exact()) ==> Exact())
        invariant bindings == PlaceAll(was, wants[..k]) && BindsEach(w, gpu.View(), v, objects, was, wants[..k])
      {
        var ok := BindNext(w, was, wants, k, memory(k));
        if !ok {
          return;
        }
        k := k + 1;
      }
      assert wants[..k] == wants;
    }

    /** One binding of the list: dropped if it is the object's. */
    method StripOne(ghost w: World, ghost list: seq<Binding>, ghost i: nat, obj: nat, j: nat) returns (next: nat)
      requires Valid() && StrippedTo(list, i, obj, bindings, j) && j < |bindings|
      requires DropsAll(w, gpu.View(), v, BindingsOf(list[..i], obj))
      modifies this`bindings, gpu`mem
      ensures Valid() && i < |list| && StrippedTo(list, i + 1, obj, bindings, next)
      ensures DropsAll(w, gpu.View(), v, BindingsOf(list[..i + 1], obj))
    {
      ghost var mid := gpu.View();
      StripStep(list, i, obj, bindings, j);
      StrippedHead(list, i, obj, bindings, j);
      BindingsOfNext(list, i, obj);
      next := j + 1;
      var b := bindings[j];
      if b.obj == obj {
        Unbind(j);
        DropsMore(w, mid, gpu.View(), v, BindingsOf(list[..i], obj), b);
        next := j;
      }
    }

    /** `unbindAll` of one object. */
    method UnbindAll(obj: nat)
      requires Valid()
      modifies this`bindings, gpu`mem
      ensures Valid() && bindings == Without(old(bindings), obj)
      ensures DropsAll(old(gpu.View()), gpu.View(), v, BindingsOf(old(bindings), obj))
    {
      ghost var w, list, i: nat := gpu.View(), bindings, 0;
      var j: nat := 0;
      while j < |bindings|
        invariant Valid() && StrippedTo(list, i, obj, bindings, j)
        invariant DropsAll(w, gpu.View(), v, BindingsOf(list[..i], obj))
        decreases |list| - i
      {
        j := StripOne(w, list, i, obj, j);
        i := i + 1;
      }
      StripEnd(list, i, obj, bindings, j);
      assert list[..i] == list;
    }

    /** `SET_CACHING` as this space sees it: translations stay what they were, and show the object's caching exactly
        when it is bound nowhere here. */
    method SetCaching(obj: nat, cached: bool)
      requires Valid() && Exact() && obj in objects && objects[obj].cached != cached
      modifies this`objects, this`seen
      ensures Valid() && objects == old(objects)[obj := Obj(old(objects)[obj].pages, cached)]
      ensures Exact() <==> forall b :: b in bindings ==> b.obj != obj
    {
      objects := objects[obj := Obj(objects[obj].pages, cached)];
      if forall b :: b in bindings ==> b.obj != obj {
        SeenAnew(gpu.View(), v, seen, objects, bindings, obj);
        seen := objects;
      }
    }
  }
}
