/**
 The driver and the page tables together: one state, whose steps pair each step of the driver with what the verified
 operations on page tables do to them. What the request queue promises about bindings comes to a promise about what
 the hardware finds at every address of every object, in every run from the start.
 */
module GpuMemory {
  import opened Bindings
  import opened RequestQueue
  import opened Lifetimes
  import opened GpuSystem
  import opened GpuSafety
  import opened GpuIoctls
  import opened GpuRuns
  import PT = PageTables
  import PP = Ppgtt
  import opened AddressSpace

  datatype Machine = Machine(s: Sys, w: PP.World, objects: Objects)

  datatype Deed =
    | Do(t: Step)                                       // any step but a new object
    | Make(pages: seq<nat>)                             // GEM_CREATE, and what stands for it
    | Create(v: nat, ok: bool)                          // the PPGTT of a space, before its first binding
    | SetCaching(file: nat, obj: nat, cached: bool)

  // ------------------------------------------------------------------------
  // What becomes of the tables
  // ------------------------------------------------------------------------

  predicate NoRepeats(vs: seq<nat>) {
    forall i, j :: 0 <= i < j < |vs| ==> vs[i] != vs[j]
  }

  lemma NoRepeatsTail(vs: seq<nat>)
    requires NoRepeats(vs) && vs != []
    ensures NoRepeats(vs[1..]) && vs[0] !in vs[1..] && forall v :: v in vs <==> v == vs[0] || v in vs[1..]
  {
    assert vs == [vs[0]] + vs[1..];
  }

  /** `unbindAll` of one object in each of some spaces. */
  ghost predicate StripsAll(w: PP.World, w': PP.World, vms: Vms, obj: nat, vs: seq<nat>)
    decreases |vs|
  {
    if vs == [] then w' == w
    else
      && vs[0] in vms
      && exists mid :: DropsAll(w, mid, vs[0], BindingsOf(vms[vs[0]].bindings, obj)) && StripsAll(mid, w', vms, obj, vs[1..])
  }

  /** `unbindObject`: each space of the file that has a PPGTT. */
  ghost predicate Strips(w: PP.World, w': PP.World, vms: Vms, f: nat, obj: nat) {
    exists vs :: NoRepeats(vs) && (forall v :: v in vs <==> v in w.vms && v in vms && vms[v].file == f) && StripsAll(w, w', vms, obj, vs)
  }

  /** `releaseVm`, the last time: everything unbound, the PPGTT destroyed. */
  ghost predicate Frees(w: PP.World, w': PP.World, v: nat, bs: seq<Binding>) {
    exists mid :: PP.WorldOk(mid) && v in mid.vms && DropsAll(w, mid, v, bs) && w' == PP.GoneWorld(mid, v)
  }

  ghost predicate FreesAll(w: PP.World, w': PP.World, vms: Vms, vs: seq<nat>)
    decreases |vs|
  {
    if vs == [] then w' == w
    else vs[0] in vms && exists mid :: Frees(w, mid, vs[0], vms[vs[0]].bindings) && FreesAll(mid, w', vms, vs[1..])
  }

  /** The spaces that are gone. */
  ghost predicate Sweeps(w: PP.World, w': PP.World, vms: Vms, vms': Vms) {
    exists vs :: NoRepeats(vs) && (forall v :: v in vs <==> v in w.vms && v !in vms') && FreesAll(w, w', vms, vs)
  }

  ghost predicate Rewrites(m: Machine, p: Submission, k: nat, w': PP.World)
    requires CanSubmit(m.s, p) && k <= |p.uses|
  {
    var v := m.s.contexts[p.ctx].vm;
    v in m.w.vms && BindsUpTo(m.w, w', v, m.objects, m.s.vms[v].bindings, Wants(p.uses), k)
  }

  ghost predicate TableStep(m: Machine, t: Step, w': PP.World)
    requires Enabled(m.s, t)
  {
    match t
    case Submit(p) => Rewrites(m, p, |p.uses|, w')
    case Refused(p, code) => Rewrites(m, p, |p.uses|, w')
    case Aborted(p, k) => Rewrites(m, p, k, w')
    case Unbind(f, o) => Strips(m.w, w', m.s.vms, f, o)
    case Leave(_, _, _) => Sweeps(m.w, w', m.s.vms, Apply(m.s, t).vms)
    case Life(_) => Sweeps(m.w, w', m.s.vms, Apply(m.s, t).vms)
    case _ => w' == m.w
  }

  ghost predicate PagesOk(pages: seq<nat>) {
    0 < |pages| < 0x1_0000_0000 && forall p :: p in pages ==> PT.FrameOk(p)
  }

  ghost predicate Moved(m: Machine, d: Deed, m': Machine) {
    match d
    case Do(t) => Enabled(m.s, t) && !t.NewObject? && m'.s == Apply(m.s, t) && m'.objects == m.objects && TableStep(m, t, m'.w)
    case Make(pages) =>
      && PagesOk(pages) && m'.w == m.w && m'.s == Apply(m.s, NewObject(|pages| * PAGE))
      && m'.objects == m.objects[m.s.made := Obj(pages, true)]
    case Create(v, ok) => v in m.s.vms && PP.Created(m.w, m'.w, v, ok) && m'.s == m.s && m'.objects == m.objects
    case SetCaching(f, o, cached) =>
      && Enabled(m.s, Unbind(f, o)) && o in m.objects && m.objects[o].cached != cached
      && m'.s == Apply(m.s, Unbind(f, o)) && Strips(m.w, m'.w, m.s.vms, f, o)
      && m'.objects == m.objects[o := Obj(m.objects[o].pages, cached)]
  }

  // ------------------------------------------------------------------------
  // What every step keeps
  // ------------------------------------------------------------------------

  /** The tables of a space show its list: the right pages, and if `exact`, the caching the objects have now. */
  ghost predicate Backing(w: PP.World, v: nat, objects: Objects, bs: seq<Binding>, exact: bool) {
    exists seen :: Recorded(seen, objects) && (exact ==> seen == objects) && TablesShow(w, v, seen, bs)
  }

  ghost predicate ObjectsOk(objects: Objects, sizes: map<nat, nat>) {
    && objects.Keys == sizes.Keys
    && forall o :: o in objects ==> PagesOk(objects[o].pages) && sizes[o] == |objects[o].pages| * PAGE
  }

  ghost predicate BackedAt(w: PP.World, vms: Vms, objects: Objects, exact: bool, v: nat) {
    v in vms && Backing(w, v, objects, vms[v].bindings, exact)
  }

  ghost predicate Backed(w: PP.World, vms: Vms, objects: Objects, exact: bool) {
    && PP.WorldOk(w)
    && (forall v {:trigger BackedAt(w, vms, objects, exact, v)} :: v in w.vms ==> BackedAt(w, vms, objects, exact, v))
    && (forall v :: v in vms && v !in w.vms ==> vms[v].bindings == [])
  }

  ghost predicate MemoryInv(m: Machine, exact: bool) {
    ObjectsOk(m.objects, m.s.sizes) && Backed(m.w, m.s.vms, m.objects, exact)
  }

  lemma OtherShows(w: PP.World, w': PP.World, u: nat, objects: Objects, bs: seq<Binding>)
    requires PP.WorldOk(w') && u in w'.vms && w'.sc == w.sc && TablesShow(w, u, objects, bs) && PP.SameFor(w, w', u)
    ensures TablesShow(w', u, objects, bs)
  {
  }

  lemma OtherBacking(w: PP.World, w': PP.World, u: nat, objects: Objects, bs: seq<Binding>, exact: bool)
    requires PP.WorldOk(w) && PP.WorldOk(w') && u in w.vms && u in w'.vms && w'.sc == w.sc && PP.SameFor(w, w', u)
    requires Backing(w, u, objects, bs, exact)
    ensures Backing(w', u, objects, bs, exact)
  {
    var seen: Objects :| Recorded(seen, objects) && (exact ==> seen == objects) && TablesShow(w, u, seen, bs);
    OtherShows(w, w', u, seen, bs);
  }

  /** A change to one space's list and tables keeps all spaces backed. */
  lemma StaysBacked(w: PP.World, w': PP.World, vms: Vms, objects: Objects, exact: bool, v: nat, bs: seq<Binding>)
    requires Backed(w, vms, objects, exact) && PP.WorldOk(w') && PP.OthersSame(w, w', v)
    requires v in vms && v in w.vms && Backing(w', v, objects, bs, exact)
    ensures Backed(w', Rebind(vms, v, bs), objects, exact)
  {
    var vms' := Rebind(vms, v, bs);
    forall u | u in w'.vms
      ensures BackedAt(w', vms', objects, exact, u)
    {
      if u != v {
        assert PP.SameFor(w, w', u);
        assert BackedAt(w, vms, objects, exact, u);
        OtherBacking(w, w', u, objects, vms[u].bindings, exact);
      }
    }
  }

  lemma WantsBindable(m: Machine, p: Submission)
    requires ObjectsOk(m.objects, m.s.sizes) && CanSubmit(m.s, p)
    ensures WantsOk(m.objects, Wants(p.uses))
  {
    forall b | b in Wants(p.uses)
      ensures BindingOk(m.objects, b)
    {
      var i :| 0 <= i < |Wants(p.uses)| && Wants(p.uses)[i] == b;
      assert b == Want(p.uses[i]) && p.uses[i] in p.uses;
    }
  }

  lemma RewritesBacked(m: Machine, p: Submission, k: nat, w': PP.World, exact: bool)
    requires MemoryInv(m, exact) && CanSubmit(m.s, p) && k <= |p.uses| && Rewrites(m, p, k, w')
    ensures var v := m.s.contexts[p.ctx].vm;
            Backed(w', Rebind(m.s.vms, v, PlaceSome(m.s.vms[v].bindings, Wants(p.uses), k)), m.objects, exact)
  {
    var v := m.s.contexts[p.ctx].vm;
    var bs, wants := m.s.vms[v].bindings, Wants(p.uses);
    WantsBindable(m, p);
    assert BackedAt(m.w, m.s.vms, m.objects, exact, v);
    var seen: Objects :| Recorded(seen, m.objects) && (exact ==> seen == m.objects) && TablesShow(m.w, v, seen, bs);
    var seen' := BindsUpToShows(m.w, w', v, seen, m.objects, bs, wants, k);
    StaysBacked(m.w, w', m.s.vms, m.objects, exact, v, PlaceSome(bs, wants, k));
  }

  /** Unbinding one object from one space. */
  lemma StripBacking(w: PP.World, w': PP.World, v: nat, objects: Objects, bs: seq<Binding>, obj: nat, exact: bool)
    requires Backing(w, v, objects, bs, exact) && DropsAll(w, w', v, BindingsOf(bs, obj))
    ensures Backing(w', v, objects, Without(bs, obj), exact) && PP.WorldOk(w) && PP.WorldOk(w') && PP.OthersSame(w, w', v)
  {
    var seen: Objects :| Recorded(seen, objects) && (exact ==> seen == objects) && TablesShow(w, v, seen, bs);
    StrippedShows(w, w', v, seen, bs, obj);
  }

  function Stripped(vms: Vms, vs: seq<nat>, obj: nat): Vms {
    map v | v in vms :: if v in vs then vms[v].(bindings := Without(vms[v].bindings, obj)) else vms[v]
  }

  lemma StrippedNext(vms: Vms, vs: seq<nat>, obj: nat)
    requires NoRepeats(vs) && vs != [] && vs[0] in vms
    ensures Stripped(Rebind(vms, vs[0], Without(vms[vs[0]].bindings, obj)), vs[1..], obj) == Stripped(vms, vs, obj)
  {
    NoRepeatsTail(vs);
  }

  lemma StripOneBacked(w: PP.World, w': PP.World, vms: Vms, objects: Objects, exact: bool, obj: nat, v: nat)
    requires Backed(w, vms, objects, exact) && v in w.vms && v in vms && DropsAll(w, w', v, BindingsOf(vms[v].bindings, obj))
    ensures Backed(w', Rebind(vms, v, Without(vms[v].bindings, obj)), objects, exact) && w'.vms.Keys == w.vms.Keys
  {
    assert BackedAt(w, vms, objects, exact, v);
    StripBacking(w, w', v, objects, vms[v].bindings, obj, exact);
    StaysBacked(w, w', vms, objects, exact, v, Without(vms[v].bindings, obj));
  }

  lemma {:induction false} StripsBacked(w: PP.World, w': PP.World, vms: Vms, objects: Objects, exact: bool, obj: nat, vs: seq<nat>)
    requires Backed(w, vms, objects, exact) && NoRepeats(vs) && (forall v :: v in vs ==> v in w.vms) && StripsAll(w, w', vms, obj, vs)
    ensures Backed(w', Stripped(vms, vs, obj), objects, exact) && w'.vms.Keys == w.vms.Keys
    decreases |vs|
  {
    if vs == [] {
      assert Stripped(vms, vs, obj) == vms;
    } else {
      var v, rest := vs[0], vs[1..];
      var mid :| DropsAll(w, mid, v, BindingsOf(vms[v].bindings, obj)) && StripsAll(mid, w', vms, obj, rest);
      NoRepeatsTail(vs);
      StripOneBacked(w, mid, vms, objects, exact, obj, v);
      StrippedNext(vms, vs, obj);
      var vms1 := Rebind(vms, v, Without(vms[v].bindings, obj));
      StripsSame(mid, w', vms, vms1, obj, rest);
      StripsBacked(mid, w', vms1, objects, exact, obj, rest);
    }
  }

  lemma {:induction false} StripsSame(w: PP.World, w': PP.World, vms: Vms, vms': Vms, obj: nat, vs: seq<nat>)
    requires StripsAll(w, w', vms, obj, vs) && forall v :: v in vs && v in vms ==> v in vms' && vms'[v] == vms[v]
    ensures StripsAll(w, w', vms', obj, vs)
    decreases |vs|
  {
    if vs != [] {
      var mid :| DropsAll(w, mid, vs[0], BindingsOf(vms[vs[0]].bindings, obj)) && StripsAll(mid, w', vms, obj, vs[1..]);
      assert vs[0] in vs;
      StripsSame(mid, w', vms, vms', obj, vs[1..]);
    }
  }

  /** `unbindObject`, in lists and tables. */
  lemma UnbindBacked(w: PP.World, w': PP.World, vms: Vms, objects: Objects, exact: bool, f: nat, obj: nat)
    requires Backed(w, vms, objects, exact) && Strips(w, w', vms, f, obj)
    ensures Backed(w', UnbindObject(vms, f, obj), objects, exact) && w'.vms.Keys == w.vms.Keys
  {
    var vs :| NoRepeats(vs) && (forall v :: v in vs <==> v in w.vms && v in vms && vms[v].file == f) && StripsAll(w, w', vms, obj, vs);
    StripsBacked(w, w', vms, objects, exact, obj, vs);
    forall v | v in vms
      ensures UnbindObject(vms, f, obj)[v] == Stripped(vms, vs, obj)[v]
    {
      if v !in w.vms {
        assert Without(vms[v].bindings, obj) == [];
      } else {
        assert BackedAt(w, vms, objects, exact, v);
      }
    }
    assert UnbindObject(vms, f, obj) == Stripped(vms, vs, obj);
  }

  // ------------------------------------------------------------------------
  // Spaces that go
  // ------------------------------------------------------------------------

  lemma {:induction false} DropsOnly(w: PP.World, w': PP.World, v: nat, gone: seq<Binding>)
    requires PP.WorldOk(w) && v in w.vms && DropsAll(w, w', v, gone)
    ensures PP.WorldOk(w') && PP.OthersSame(w, w', v)
    decreases |gone|
  {
    if gone != [] {
      var mid :| Drops(w, mid, v, gone[0]) && DropsAll(mid, w', v, gone[1..]);
      DropsOnly(mid, w', v, gone[1..]);
      PP.OthersTwice(w, mid, w', v);
    }
  }

  /** Every space left is as it was. */
  ghost predicate Left(w: PP.World, w': PP.World) {
    && PP.WorldOk(w) && PP.WorldOk(w') && w'.sc == w.sc && w'.vms.Keys <= w.vms.Keys
    && forall u {:trigger PP.SameFor(w, w', u)} :: u in w'.vms ==> PP.SameFor(w, w', u)
  }

  lemma LeftTwice(a: PP.World, b: PP.World, c: PP.World)
    requires Left(a, b) && Left(b, c)
    ensures Left(a, c)
  {
    forall u | u in c.vms
      ensures PP.SameFor(a, c, u)
    {
      assert PP.SameFor(a, b, u) && PP.SameFor(b, c, u);
      forall x
        ensures PP.Sees(c, u, x) == PP.Sees(a, u, x)
      {
        assert PP.Sees(b, u, x) == PP.Sees(a, u, x);
      }
    }
  }

  lemma FreesLeft(w: PP.World, w': PP.World, v: nat, bs: seq<Binding>)
    requires PP.WorldOk(w) && v in w.vms && Frees(w, w', v, bs)
    ensures Left(w, w') && w'.vms.Keys == w.vms.Keys - {v}
  {
    var mid :| PP.WorldOk(mid) && v in mid.vms && DropsAll(w, mid, v, bs) && w' == PP.GoneWorld(mid, v);
    DropsOnly(w, mid, v, bs);
    PP.GoneWorldOk(mid, v);
    forall u | u in w'.vms
      ensures PP.SameFor(w, w', u)
    {
      assert PP.SameFor(w, mid, u) && PP.SameFor(mid, w', u);
      forall x
        ensures PP.Sees(w', u, x) == PP.Sees(w, u, x)
      {
        assert PP.Sees(mid, u, x) == PP.Sees(w, u, x);
      }
    }
  }

  lemma {:induction false} FreesAllLeft(w: PP.World, w': PP.World, vms: Vms, vs: seq<nat>)
    requires PP.WorldOk(w) && FreesAll(w, w', vms, vs) && NoRepeats(vs) && forall v :: v in vs ==> v in w.vms
    ensures Left(w, w') && forall u :: u in w'.vms <==> u in w.vms && u !in vs
    decreases |vs|
  {
    if vs != [] {
      var mid :| Frees(w, mid, vs[0], vms[vs[0]].bindings) && FreesAll(mid, w', vms, vs[1..]);
      NoRepeatsTail(vs);
      FreesLeft(w, mid, vs[0], vms[vs[0]].bindings);
      FreesAllLeft(mid, w', vms, vs[1..]);
      LeftTwice(w, mid, w');
    }
  }

  /** Bindings stay what they are in the spaces that stay, and new ones have none. */
  ghost predicate SameLists(vms: Vms, vms': Vms) {
    forall v {:trigger vms'[v]} :: v in vms' ==> if v in vms then vms'[v].bindings == vms[v].bindings else vms'[v].bindings == []
  }

  lemma SweepsBacked(w: PP.World, w': PP.World, vms: Vms, vms': Vms, objects: Objects, exact: bool)
    requires Backed(w, vms, objects, exact) && Sweeps(w, w', vms, vms') && SameLists(vms, vms')
    ensures Backed(w', vms', objects, exact)
  {
    var vs :| NoRepeats(vs) && (forall v :: v in vs <==> v in w.vms && v !in vms') && FreesAll(w, w', vms, vs);
    FreesAllLeft(w, w', vms, vs);
    forall v | v in w'.vms
      ensures BackedAt(w', vms', objects, exact, v)
    {
      assert PP.SameFor(w, w', v);
      assert BackedAt(w, vms, objects, exact, v);
      OtherBacking(w, w', v, objects, vms[v].bindings, exact);
    }
  }

  lemma LifeLists(s: Sys, l: LifeStep)
    requires Core(s) && LifeEnabled(s, l)
    ensures SameLists(s.vms, LifeApply(s, l).vms)
  {
    Fresh(s, s.made);
    Fresh(s, s.made + 1);
    FreshLists(s, l);
  }

  lemma FreshLists(s: Sys, l: LifeStep)
    requires LifeEnabled(s, l) && s.made !in s.vms && s.made + 1 !in s.vms
    ensures SameLists(s.vms, LifeApply(s, l).vms)
  {
    match l
    case CloseFile(f) => ClosedLists(s, f);
    case DestroyContext(c) => WithoutContextLists(s, c);
    case SetVm(c, slot) => VmSetLists(s, c, slot);
    case _ =>
  }

  lemma ClosedLists(s: Sys, f: nat)
    requires f in s.files
    ensures SameLists(s.vms, Closed(s, f).vms)
  {
  }

  lemma WithoutContextLists(s: Sys, c: nat)
    requires CanDestroy(s, c)
    ensures SameLists(s.vms, WithoutContext(s, c).vms)
  {
  }

  lemma VmSetLists(s: Sys, c: nat, slot: nat)
    requires CanSetVm(s, c, slot)
    ensures SameLists(s.vms, VmSet(s, c, slot).vms)
  {
  }

  lemma DropContextLists(s: Sys, c: nat)
    requires c in s.contexts && s.contexts[c].pending > 0
    requires s.contexts[c].vm in s.vms && s.vms[s.contexts[c].vm].refs > 0
    ensures SameLists(s.vms, DropContext(s, c).vms)
  {
  }

  lemma DropFileLists(s: Sys, f: nat)
    requires f in s.files && s.files[f].inflight > 0
    ensures SameLists(s.vms, DropFile(s, f).vms) && DropFile(s, f).vms.Keys <= s.vms.Keys
  {
  }

  lemma LeaveLists(s: Sys, e: nat, code: int, hung: bool)
    requires CanLeave(s, e, code, hung) && CanLetGo(s, e)
    ensures SameLists(s.vms, GpuSystem.Left(s, e, code, hung).vms)
  {
    var r, mid := s.q.requests[Leaving(s.q, e)], Signal(s, e, code, hung);
    DropContextLists(mid, r.ctx);
    DropFileLists(DropContext(mid, r.ctx), r.file);
  }

  // ------------------------------------------------------------------------
  // Spaces and objects that come, and caching
  // ------------------------------------------------------------------------

  lemma CreateBacked(w: PP.World, w': PP.World, vms: Vms, objects: Objects, exact: bool, v: nat, ok: bool)
    requires Backed(w, vms, objects, exact) && v in vms && PP.Created(w, w', v, ok)
    ensures Backed(w', vms, objects, exact)
  {
    forall u | u in w'.vms
      ensures BackedAt(w', vms, objects, exact, u)
    {
      if u in w.vms {
        assert PP.SameFor(w, w', u);
        assert BackedAt(w, vms, objects, exact, u);
        OtherBacking(w, w', u, objects, vms[u].bindings, exact);
      } else {
        assert TablesShow(w', v, objects, []);
      }
    }
  }

  lemma MakeBacking(w: PP.World, v: nat, objects: Objects, bs: seq<Binding>, exact: bool, obj: nat, o: Obj)
    requires Backing(w, v, objects, bs, exact) && obj !in objects
    ensures Backing(w, v, objects[obj := o], bs, exact)
  {
    var seen: Objects :| Recorded(seen, objects) && (exact ==> seen == objects) && TablesShow(w, v, seen, bs);
    var seen' := seen[obj := o];
    assert forall b :: b in bs ==> BindingOk(seen, b) && b.obj != obj;
    SeenAnew(w, v, seen, seen', bs, obj);
    assert Recorded(seen', objects[obj := o]);
  }

  lemma MakeBacked(w: PP.World, vms: Vms, objects: Objects, exact: bool, obj: nat, o: Obj)
    requires Backed(w, vms, objects, exact) && obj !in objects
    ensures Backed(w, vms, objects[obj := o], exact)
  {
    forall v | v in w.vms
      ensures BackedAt(w, vms, objects[obj := o], exact, v)
    {
      assert BackedAt(w, vms, objects, exact, v);
      MakeBacking(w, v, objects, vms[v].bindings, exact, obj, o);
    }
  }

  function Recached(objects: Objects, obj: nat, cached: bool): Objects
    requires obj in objects
  {
    objects[obj := Obj(objects[obj].pages, cached)]
  }

  ghost predicate Has(bs: seq<Binding>, obj: nat) {
    exists b :: b in bs && b.obj == obj
  }

  /** Its pages are the object's still; its caching only where the object is not bound. */
  lemma RecachedBacking(w: PP.World, v: nat, objects: Objects, bs: seq<Binding>, exact: bool, obj: nat, cached: bool)
    requires Backing(w, v, objects, bs, exact) && obj in objects && (exact ==> !Has(bs, obj))
    ensures Backing(w, v, Recached(objects, obj, cached), bs, exact)
  {
    var seen: Objects :| Recorded(seen, objects) && (exact ==> seen == objects) && TablesShow(w, v, seen, bs);
    var objects' := Recached(objects, obj, cached);
    if exact {
      assert forall b :: b in bs ==> b.obj != obj;
      SeenAnew(w, v, seen, objects', bs, obj);
    } else {
      assert Recorded(seen, objects');
    }
  }

  ghost predicate BoundElsewhere(vms: Vms, f: nat, obj: nat) {
    exists v :: v in vms && vms[v].file != f && Has(vms[v].bindings, obj)
  }

  lemma RecachedBacked(w: PP.World, vms: Vms, objects: Objects, exact: bool, obj: nat, cached: bool)
    requires Backed(w, vms, objects, exact) && obj in objects
    requires exact ==> forall v :: v in vms ==> !Has(vms[v].bindings, obj)
    ensures Backed(w, vms, Recached(objects, obj, cached), exact)
  {
    forall v | v in w.vms
      ensures BackedAt(w, vms, Recached(objects, obj, cached), exact, v)
    {
      assert BackedAt(w, vms, objects, exact, v);
      RecachedBacking(w, v, objects, vms[v].bindings, exact, obj, cached);
    }
  }

  lemma UnboundEverywhere(vms: Vms, f: nat, obj: nat)
    requires !BoundElsewhere(vms, f, obj)
    ensures forall v :: v in vms ==> !Has(UnbindObject(vms, f, obj)[v].bindings, obj)
  {
  }

  // ------------------------------------------------------------------------
  // Steps and runs
  // ------------------------------------------------------------------------

  ghost predicate CalmDeed(m: Machine, d: Deed) {
    d.Do? && Enabled(m.s, d.t) ==> Calm(m.s, d.t)
  }

  /** No caching is changed of an object that another file has bound. */
  ghost predicate Private(m: Machine, d: Deed) {
    d.SetCaching? ==> !BoundElsewhere(m.s.vms, d.file, d.obj)
  }

  lemma TablesStep(m: Machine, t: Step, w': PP.World, exact: bool)
    requires MemoryInv(m, exact) && Core(m.s) && Enabled(m.s, t) && TableStep(m, t, w')
    ensures Backed(w', Apply(m.s, t).vms, m.objects, exact)
  {
    match t
    case Submit(p) => SubmitBacked(m, p, w', exact);
    case Refused(p, code) => SubmitBacked(m, p, w', exact);
    case Aborted(p, k) => RewritesBacked(m, p, k, w', exact);
    case Unbind(f, o) => UnbindBacked(m.w, w', m.s.vms, m.objects, exact, f, o);
    case Leave(e, code, hung) => LeaveBacked(m, e, code, hung, w', exact);
    case Life(l) => LifeBacked(m, l, w', exact);
    case _ =>
  }

  lemma SubmitBacked(m: Machine, p: Submission, w': PP.World, exact: bool)
    requires MemoryInv(m, exact) && CanSubmit(m.s, p) && Rewrites(m, p, |p.uses|, w')
    ensures var v := m.s.contexts[p.ctx].vm;
            Backed(w', Rebind(m.s.vms, v, PlaceAll(m.s.vms[v].bindings, Wants(p.uses))), m.objects, exact)
  {
    RewritesBacked(m, p, |p.uses|, w', exact);
  }

  lemma LeaveBacked(m: Machine, e: nat, code: int, hung: bool, w': PP.World, exact: bool)
    requires MemoryInv(m, exact) && CanLeave(m.s, e, code, hung) && CanLetGo(m.s, e)
    requires Sweeps(m.w, w', m.s.vms, GpuSystem.Left(m.s, e, code, hung).vms)
    ensures Backed(w', GpuSystem.Left(m.s, e, code, hung).vms, m.objects, exact)
  {
    LeaveLists(m.s, e, code, hung);
    SweepsBacked(m.w, w', m.s.vms, GpuSystem.Left(m.s, e, code, hung).vms, m.objects, exact);
  }

  lemma LifeBacked(m: Machine, l: LifeStep, w': PP.World, exact: bool)
    requires MemoryInv(m, exact) && Core(m.s) && LifeEnabled(m.s, l) && Sweeps(m.w, w', m.s.vms, LifeApply(m.s, l).vms)
    ensures Backed(w', LifeApply(m.s, l).vms, m.objects, exact)
  {
    LifeLists(m.s, l);
    SweepsBacked(m.w, w', m.s.vms, LifeApply(m.s, l).vms, m.objects, exact);
  }

  lemma MakeStep(m: Machine, pages: seq<nat>, m': Machine, exact: bool)
    requires SysInv(m.s) && MemoryInv(m, exact) && Moved(m, Make(pages), m')
    ensures MemoryInv(m', exact)
  {
    Fresh(m.s, m.s.made);
    MakeBacked(m.w, m.s.vms, m.objects, exact, m.s.made, Obj(pages, true));
  }

  lemma SetCachingStep(m: Machine, d: Deed, m': Machine, exact: bool)
    requires d.SetCaching? && MemoryInv(m, exact) && Moved(m, d, m') && (exact ==> Private(m, d))
    ensures MemoryInv(m', exact)
  {
    UnbindBacked(m.w, m'.w, m.s.vms, m.objects, exact, d.file, d.obj);
    if exact {
      UnboundEverywhere(m.s.vms, d.file, d.obj);
    }
    RecachedBacked(m'.w, m'.s.vms, m.objects, exact, d.obj, d.cached);
  }

  lemma DoStep(m: Machine, t: Step, m': Machine, exact: bool)
    requires SysInv(m.s) && MemoryInv(m, exact) && Moved(m, Do(t), m')
    ensures MemoryInv(m', exact)
  {
    TablesStep(m, t, m'.w, exact);
    SameSizes(m.s, t);
  }

  lemma SameSizes(s: Sys, t: Step)
    requires Enabled(s, t) && !t.NewObject?
    ensures Apply(s, t).sizes == s.sizes
  {
    match t
    case Leave(e, code, hung) => LeftFrame(s, e, code, hung);
    case Life(l) => LifeFrame(s, l);
    case _ =>
  }

  /** Every step keeps the tables in step with the lists. */
  lemma MemoryStep(m: Machine, d: Deed, m': Machine, exact: bool)
    requires SysInv(m.s) && MemoryInv(m, exact) && Moved(m, d, m') && (exact ==> Private(m, d))
    ensures MemoryInv(m', exact)
  {
    match d
    case Do(t) => DoStep(m, t, m', exact);
    case Make(pages) => MakeStep(m, pages, m', exact);
    case Create(v, ok) => CreateBacked(m.w, m'.w, m.s.vms, m.objects, exact, v, ok);
    case SetCaching(_, _, _) => SetCachingStep(m, d, m', exact);
  }

  lemma DeedInv(m: Machine, d: Deed, m': Machine)
    requires SysInv(m.s) && Moved(m, d, m') && CalmDeed(m, d)
    ensures SysInv(m'.s)
  {
    match d
    case Do(t) => StepInv(m.s, t);
    case Make(pages) => StepInv(m.s, NewObject(|pages| * PAGE));
    case Create(_, _) =>
    case SetCaching(f, o, _) => StepInv(m.s, Unbind(f, o));
  }

  /** A run, state by state. */
  ghost predicate Link(ms: seq<Machine>, ds: seq<Deed>, i: nat)
    requires i < |ds| && |ms| == |ds| + 1
  {
    Moved(ms[i], ds[i], ms[i + 1]) && CalmDeed(ms[i], ds[i])
  }

  ghost predicate MachineRun(ms: seq<Machine>, ds: seq<Deed>) {
    |ms| == |ds| + 1 && forall i {:trigger Link(ms, ds, i)} :: 0 <= i < |ds| ==> Link(ms, ds, i)
  }

  /** Nothing queued, nothing made, no PPGTT yet. */
  ghost predicate Boots(m: Machine) {
    m.s == INIT && m.objects == map[] && PP.WorldOk(m.w) && m.w.vms == map[]
  }

  ghost predicate PrivateRun(ms: seq<Machine>, ds: seq<Deed>)
    requires |ms| == |ds| + 1
  {
    forall i {:trigger Private(ms[i], ds[i])} :: 0 <= i < |ds| ==> Private(ms[i], ds[i])
  }

  ghost predicate Good(m: Machine, exact: bool) {
    SysInv(m.s) && MemoryInv(m, exact)
  }

  lemma BootsGood(m: Machine, exact: bool)
    requires Boots(m)
    ensures Good(m, exact)
  {
    InitInv();
  }

  lemma GoodStep(m: Machine, d: Deed, m': Machine, exact: bool)
    requires Good(m, exact) && Moved(m, d, m') && CalmDeed(m, d) && (exact ==> Private(m, d))
    ensures Good(m', exact)
  {
    MemoryStep(m, d, m', exact);
    DeedInv(m, d, m');
  }

  ghost predicate GoodUpTo(ms: seq<Machine>, k: nat, exact: bool)
    requires k < |ms|
  {
    forall i {:trigger Good(ms[i], exact)} :: 0 <= i <= k ==> Good(ms[i], exact)
  }

  lemma GoodNext(ms: seq<Machine>, ds: seq<Deed>, k: nat, exact: bool)
    requires MachineRun(ms, ds) && k < |ds| && (exact ==> PrivateRun(ms, ds)) && GoodUpTo(ms, k, exact)
    ensures GoodUpTo(ms, k + 1, exact)
  {
    assert Link(ms, ds, k) && Good(ms[k], exact);
    assert exact ==> Private(ms[k], ds[k]);
    GoodStep(ms[k], ds[k], ms[k + 1], exact);
  }

  lemma {:induction false} MachineInv(ms: seq<Machine>, ds: seq<Deed>, k: nat, exact: bool)
    requires MachineRun(ms, ds) && Boots(ms[0]) && k <= |ds| && (exact ==> PrivateRun(ms, ds))
    ensures GoodUpTo(ms, k, exact)
    decreases k
  {
    if k == 0 {
      BootsGood(ms[0], exact);
    } else {
      MachineInv(ms, ds, k - 1, exact);
      GoodNext(ms, ds, k - 1, exact);
    }
  }

  // ------------------------------------------------------------------------
  // What the hardware finds
  // ------------------------------------------------------------------------

  lemma BoundEntry(w: PP.World, v: nat, objects: Objects, bs: seq<Binding>, b: Binding, i: nat)
    requires TablesShow(w, v, objects, bs) && b in bs && b.obj in objects && i < |objects[b.obj].pages|
    ensures PT.Walk(w.mem, w.vms[v].pml4, b.va / PT.PAGE + i, 3) == PT.Pte(objects[b.obj].pages[i], objects[b.obj].cached)
  {
    var x := b.va / PT.PAGE + i;
    assert BindingOk(objects, b) && HasPage(b, x) && x < PT.PAGES;
    SaysIs(objects, bs, PT.Fill(w.sc, 0), x);
    PP.HardwareAgrees(w, v, x);
  }

  /** A bound object's pages are what the hardware finds at its addresses, present, writable and cached as the object
      is. */
  lemma BoundTranslates(w: PP.World, v: nat, objects: Objects, bs: seq<Binding>, b: Binding, i: nat)
    requires TablesShow(w, v, objects, bs) && b in bs && b.obj in objects && i < |objects[b.obj].pages|
    requires PT.FrameOk(objects[b.obj].pages[i])
    ensures PT.LeadsTo(PT.Walk(w.mem, w.vms[v].pml4, b.va / 4096 + i, 3), objects[b.obj].pages[i], if objects[b.obj].cached then 4 else 3)
  {
    BoundEntry(w, v, objects, bs, b, i);
    PT.EntryRoundTrip(objects[b.obj].pages[i], objects[b.obj].cached);
  }

  /** The entry the hardware's walk ends at, for the `i`th page of an object where a request placed it. */
  ghost function Found(w: PP.World, v: nat, u: Use, i: nat): nat
    requires v in w.vms
  {
    PT.Walk(w.mem, w.vms[v].pml4, u.va / 4096 + i, 3)
  }

  /** Present and writable, for the `i`th page of the object. */
  ghost predicate PageFound(w: PP.World, v: nat, u: Use, i: nat, pages: seq<nat>)
    requires v in w.vms && i < |pages|
  {
    var entry := Found(w, v, u, i);
    PT.Present(entry) && PT.Writable(entry) && PT.FrameIn(entry) == pages[i]
  }

  /** Index 4 of the PAT, or 3 for an uncached object. */
  ghost predicate CachedAs(w: PP.World, v: nat, u: Use, i: nat, cached: bool)
    requires v in w.vms
  {
    PT.PatIndex(Found(w, v, u, i)) == if cached then 4 else 3
  }

  lemma BackingFound(w: PP.World, v: nat, objects: Objects, bs: seq<Binding>, exact: bool, u: Use, i: nat)
    requires Backing(w, v, objects, bs, exact) && Want(u) in bs && i * 4096 < u.size
    requires forall o, p :: o in objects && p in objects[o].pages ==> PT.FrameOk(p)
    ensures v in w.vms && u.obj in objects && i < |objects[u.obj].pages| && PageFound(w, v, u, i, objects[u.obj].pages)
    ensures exact ==> CachedAs(w, v, u, i, objects[u.obj].cached)
  {
    var seen: Objects :| Recorded(seen, objects) && (exact ==> seen == objects) && TablesShow(w, v, seen, bs);
    assert BindingOk(seen, Want(u));
    assert objects[u.obj].pages[i] in objects[u.obj].pages;
    BoundTranslates(w, v, seen, bs, Want(u), i);
  }

  lemma KeptFound(m: Machine, id: nat, exact: bool, u: Use, i: nat)
    requires KeptAlive(m.s, id) && MemoryInv(m, exact) && u in m.s.q.requests[id].uses && i * 4096 < u.size
    ensures var v := m.s.q.requests[id].vm;
            && v in m.w.vms && u.obj in m.objects && i < |m.objects[u.obj].pages|
            && PageFound(m.w, v, u, i, m.objects[u.obj].pages)
            && (exact ==> CachedAs(m.w, v, u, i, m.objects[u.obj].cached))
  {
    var v := m.s.q.requests[id].vm;
    assert Want(u) in m.s.vms[v].bindings;
    assert BackedAt(m.w, m.s.vms, m.objects, exact, v);
    BackingFound(m.w, v, m.objects, m.s.vms[v].bindings, exact, u, i);
  }

  /** In every state of every run from the start, every page of every object an unretired request lists is what the
      hardware finds at its address in the request's space, whatever was bound, dropped, closed or recached since. */
  lemma StaysTranslated(ms: seq<Machine>, ds: seq<Deed>, k: nat, id: nat, u: Use, i: nat)
    requires MachineRun(ms, ds) && Boots(ms[0]) && k <= |ds| && ms[k].s.q.Live(id)
    requires id in ms[k].s.q.requests && u in ms[k].s.q.requests[id].uses && i * 4096 < u.size
    ensures ms[k].s.q.requests[id].vm in ms[k].w.vms && u.obj in ms[k].objects && i < |ms[k].objects[u.obj].pages|
    ensures PageFound(ms[k].w, ms[k].s.q.requests[id].vm, u, i, ms[k].objects[u.obj].pages)
  {
    MachineInv(ms, ds, k, false);
    assert Good(ms[k], false);
    InvKeepsAlive(ms[k].s, id);
    KeptFound(ms[k], id, false, u, i);
  }

  /** And with the object's caching, in every run that changes none while another file has the object bound. */
  lemma StaysCached(ms: seq<Machine>, ds: seq<Deed>, k: nat, id: nat, u: Use, i: nat)
    requires MachineRun(ms, ds) && Boots(ms[0]) && PrivateRun(ms, ds) && k <= |ds| && ms[k].s.q.Live(id)
    requires id in ms[k].s.q.requests && u in ms[k].s.q.requests[id].uses && i * 4096 < u.size
    ensures ms[k].s.q.requests[id].vm in ms[k].w.vms && u.obj in ms[k].objects
    ensures CachedAs(ms[k].w, ms[k].s.q.requests[id].vm, u, i, ms[k].objects[u.obj].cached)
  {
    MachineInv(ms, ds, k, true);
    assert Good(ms[k], true);
    InvKeepsAlive(ms[k].s, id);
    KeptFound(ms[k], id, true, u, i);
  }
}
