/**
 Where translations do not follow `SET_CACHING`: it unbinds the object from the caller's address spaces only, so
 another file that shares the object goes on with the old caching. When that is, exactly, and a run in which a
 request runs with it.
 */
module GpuCaching {
  import opened Basics
  import opened Bindings
  import opened RequestQueue
  import opened ImplicitFencing
  import opened Lifetimes
  import opened GpuSystem
  import opened AddressSpace
  import opened GpuMemory

  /** The entry the hardware finds at the first page of a binding. */
  ghost function First(w: PP.World, v: nat, b: Binding): nat
    requires v in w.vms
  {
    PT.Walk(w.mem, w.vms[v].pml4, b.va / 4096, 3)
  }

  lemma FirstFound(w: PP.World, vms: Vms, objects: Objects, v: nat, b: Binding)
    requires Backed(w, vms, objects, true) && v in vms && b in vms[v].bindings
    ensures v in w.vms && b.obj in objects && PT.PatIndex(First(w, v, b)) == if objects[b.obj].cached then 4 else 3
  {
    assert BackedAt(w, vms, objects, true, v);
    assert BindingOk(objects, b);
    BoundEntry(w, v, objects, vms[v].bindings, b, 0);
    PT.PteRead(objects[b.obj].pages[0], objects[b.obj].cached);
  }

  /** Unbinding an object from the spaces of one file changes nothing in another's. */
  lemma OtherFile(w: PP.World, w': PP.World, vms: Vms, objects: Objects, f: nat, obj: nat, v: nat, b: Binding)
    requires Backed(w, vms, objects, true) && Strips(w, w', vms, f, obj)
    requires v in vms && vms[v].file != f && b in vms[v].bindings
    ensures v in w'.vms && b.obj in objects && PT.PatIndex(First(w', v, b)) == if objects[b.obj].cached then 4 else 3
  {
    UnbindBacked(w, w', vms, objects, true, f, obj);
    FirstFound(w', UnbindObject(vms, f, obj), objects, v, b);
  }

  /** The hardware finds the old caching where another file has the object bound. */
  lemma StaleEntry(m: Machine, d: Deed, m': Machine, v: nat, b: Binding)
    requires d.SetCaching? && MemoryInv(m, true) && Moved(m, d, m')
    requires v in m.s.vms && m.s.vms[v].file != d.file && b in m.s.vms[v].bindings && b.obj == d.obj
    ensures v in m'.w.vms && PT.PatIndex(First(m'.w, v, b)) == if d.cached then 3 else 4
  {
    OtherFile(m.w, m'.w, m.s.vms, m.objects, d.file, d.obj, v, b);
  }

  /** A change of caching leaves all translations as the objects now are if and only if no other file has the object
      bound. */
  lemma CachingExact(m: Machine, d: Deed, m': Machine)
    requires d.SetCaching? && MemoryInv(m, true) && Moved(m, d, m')
    ensures MemoryInv(m', true) <==> !BoundElsewhere(m.s.vms, d.file, d.obj)
  {
    if !BoundElsewhere(m.s.vms, d.file, d.obj) {
      SetCachingStep(m, d, m', true);
    } else {
      var v :| v in m.s.vms && m.s.vms[v].file != d.file && Has(m.s.vms[v].bindings, d.obj);
      var b :| b in m.s.vms[v].bindings && b.obj == d.obj;
      StaleEntry(m, d, m', v, b);
      if MemoryInv(m', true) {
        FirstFound(m'.w, m'.s.vms, m'.objects, v, b);
      }
    }
  }

  // ------------------------------------------------------------------------
  // A run: the tables
  // ------------------------------------------------------------------------

  ghost function FirstWorld(): PP.World {
    var sc := PT.Scratch(0x1000, 0x2000, 0x3000, 0x4000);
    PP.World(map[0x2000 := PT.Filled(PT.Fill(sc, 0)), 0x3000 := PT.Filled(PT.Fill(sc, 1)), 0x4000 := PT.Filled(PT.Fill(sc, 2))],
             {0x5000, 0x6000, 0x7000, 0x8000}, sc, map[], map[])
  }

  lemma FirstWorldOk()
    ensures PP.WorldOk(FirstWorld())
  {
  }

  /** One level further down to the first page. */
  lemma GrowFirst(w: PP.World, v: nat, level: nat, child: nat) returns (w': PP.World)
    requires PP.WorldOk(w) && v in w.vms && 0 < level <= 3 && child in w.free
    requires PT.Node(level, 0) in w.trees[v] && PT.Node(level - 1, 0) !in w.trees[v]
    ensures PP.WorldOk(w') && v in w'.vms && PP.Unseen(w, w', v)
    ensures w'.trees[v] == w.trees[v][PT.Node(level - 1, 0) := child] && w'.free == w.free - {child}
  {
    var n := PT.Node(level, 0);
    assert PT.Child(n, 0) == PT.Node(level - 1, 0);
    w' := PP.GrownWorld(w, v, n, 0, child);
    PP.GrowWorld(w, v, n, 0, child);
  }

  lemma GrowThree(w: PP.World, v: nat) returns (w': PP.World)
    requires PP.WorldOk(w) && v in w.vms && w.trees[v].Keys == {PT.ROOT} && {0x6000, 0x7000, 0x8000} <= w.free
    ensures PP.WorldOk(w') && v in w'.vms && PP.Unseen(w, w', v) && PT.Node(0, 0) in w'.trees[v]
  {
    var a := GrowFirst(w, v, 3, 0x6000);
    var b := GrowFirst(a, v, 2, 0x7000);
    PP.UnseenTwice(w, a, b, v);
    w' := GrowFirst(b, v, 1, 0x8000);
    PP.UnseenTwice(w, b, w', v);
  }

  lemma MapFirst(w: PP.World, v: nat, o: Obj, b: Binding) returns (w': PP.World)
    requires PP.WorldOk(w) && v in w.vms && w.trees[v].Keys == {PT.ROOT} && {0x6000, 0x7000, 0x8000} <= w.free
    requires |o.pages| == 1 && b.va == 0
    ensures Enters(w, w', v, o, b, 1)
  {
    var mid := GrowThree(w, v);
    var entry := PT.Pte(o.pages[0], o.cached);
    w' := WriteFirst(mid, v, entry);
    PP.OthersTwice(w, mid, w', v);
    MappedFirst(w, mid, w', v, entry);
    assert PP.Ptes(o.pages[..1], o.cached) == [entry];
  }

  lemma FirstOffset(x: nat)
    requires x < PT.PAGES
    ensures PP.Offset(PT.PageOf(0), x) == x
  {
  }

  lemma MappedFirst(w: PP.World, mid: PP.World, w': PP.World, v: nat, entry: nat)
    requires PP.WorldOk(w) && PP.WorldOk(mid) && PP.WorldOk(w') && v in w.vms && v in mid.vms && v in w'.vms
    requires PP.Unseen(w, mid, v) && PP.OneWritten(mid, w', v, 0, entry)
    ensures PP.Mapped(w, w', v, PT.PageOf(0), [entry])
  {
    forall x | 0 <= x < PT.PAGES
      ensures PP.Sees(w', v, x) == if PP.Offset(PT.PageOf(0), x) < 1 then [entry][PP.Offset(PT.PageOf(0), x)] else PP.Sees(w, v, x)
    {
      FirstOffset(x);
      assert PP.Sees(mid, v, x) == PP.Sees(w, v, x);
    }
  }

  lemma WriteFirst(w: PP.World, v: nat, entry: nat) returns (w': PP.World)
    requires PP.WorldOk(w) && v in w.vms && PT.Node(0, 0) in w.trees[v]
    ensures PP.WorldOk(w') && PP.OthersSame(w, w', v) && PP.OneWritten(w, w', v, 0, entry)
  {
    assert PT.Prefix(0, 0) == 0;
    w' := PP.WrittenWorld(w, v, 0, entry);
    PP.WriteWorld(w, v, 0, entry);
  }

  // ------------------------------------------------------------------------
  // The driver's part
  // ------------------------------------------------------------------------

  const SHARED := 6
  const BOUND := Binding(0, PAGE, SHARED)
  const READ := Use(SHARED, 0, PAGE, false, false)
  const AGAIN := Submission(0, 2, RENDER, [READ], [])

  /** Nothing is queued. File 0 has the object perhaps bound in its space 1; file 3 has a space 4. */
  ghost predicate AtRest(s: Sys, bs: seq<Binding>) {
    && s.q.lanes == [Lane(None, []), Lane(None, [])] && s.q.queuedCount == 0 && !s.q.claimed
    && 0 in s.files && !s.files[0].closed && 2 in s.files[0].table && s.files[0].inflight == 0 && 3 in s.files
    && 2 in s.contexts && s.contexts[2].vm == 1 && !s.contexts[2].banned && !s.contexts[2].single
    && s.contexts[2].pending == 0 && !s.contexts[2].destroyed
    && s.vms == map[1 := Vm(0, 2, bs), 4 := Vm(3, 2, [])]
    && SHARED in s.slots && SHARED in s.sizes && s.sizes[SHARED] == PAGE
    && |s.slots[SHARED].users| == 2 && ObjectIdle(s.q, s.slots[SHARED])
  }

  ghost function Opening(): Sys {
    Opened(Opened(INIT))
  }

  ghost function Starting(): Sys {
    Apply(Opening(), NewObject(PAGE))
  }

  lemma StartingAtRest()
    ensures AtRest(Starting(), [])
  {
    var s := Starting();
    assert s.vms == map[1 := Vm(0, 2, []), 4 := Vm(3, 2, [])];
  }

  lemma PlacedAgain(bs: seq<Binding>)
    requires bs == [] || bs == [BOUND]
    ensures PlaceAll(bs, [BOUND]) == [BOUND] && !NeedsEviction(bs, [BOUND])
  {
    assert [BOUND][..0] == [] && PlaceAll(bs, []) == bs;
    if bs == [BOUND] {
      assert InPlace(BOUND, BOUND) && BOUND in bs;
      FilterAll((x: Binding) => !InTheWay(x, BOUND), bs);
    }
  }

  lemma CanRead(s: Sys, bs: seq<Binding>)
    requires AtRest(s, bs) && (bs == [] || bs == [BOUND])
    ensures CanSubmit(s, AGAIN) && RequestOf(s, AGAIN).deps == []
    ensures Submitted(s, AGAIN).vms == map[1 := Vm(0, 2, [BOUND]), 4 := Vm(3, 2, [])]
  {
    PlacedAgain(bs);
    assert Wants(AGAIN.uses) == [BOUND] && forall u :: u in AGAIN.uses ==> u == READ;
    ReadWaits(s.q.status, s.slots);
  }

  lemma ReadWaits(status: seq<Status>, t: Table)
    requires SHARED in t && |t[SHARED].users| == 2 && Polled(status, t[SHARED].write)
    ensures Known(t, [READ]) && AddDependencies(status, ImplicitDeps(status, t, [READ]), []) == []
  {
    assert [READ][..0] == [] && ImplicitDeps(status, t, []) == [];
  }

  /** Its only user is on the render engine. */
  ghost predicate Busy(s: Sys, n: nat) {
    && s.q.lanes == [Lane(Some(n), []), Lane(None, [])] && s.q.queuedCount == 1 && !s.q.claimed && n < |s.q.status|
    && n in s.q.requests && s.q.requests[n].ctx == 2 && s.q.requests[n].file == 0
    && 0 in s.files && !s.files[0].closed && 2 in s.files[0].table && s.files[0].inflight == 1 && 3 in s.files
    && 2 in s.contexts && s.contexts[2].vm == 1 && !s.contexts[2].banned && !s.contexts[2].single
    && s.contexts[2].pending == 1 && !s.contexts[2].destroyed
    && s.vms == map[1 := Vm(0, 2, [BOUND]), 4 := Vm(3, 2, [])]
    && SHARED in s.slots && SHARED in s.sizes && s.sizes[SHARED] == PAGE && |s.slots[SHARED].users| == 2
    && s.slots[SHARED].users[0] == [n] && Polled(s.q.status, s.slots[SHARED].users[1]) && Polled(s.q.status, s.slots[SHARED].write)
  }

  lemma ReadPublishes(s: Sys, n: nat)
    requires SHARED in s.slots && |s.slots[SHARED].users| == 2
    ensures Publish(s.slots, n, RENDER, [READ]) == s.slots[SHARED := PublishOne(s.slots[SHARED], n, RENDER, false)]
  {
    assert [READ][..0] == [] && Publish(s.slots, n, RENDER, []) == s.slots;
  }

  lemma ReadRuns(s: Sys)
    requires AtRest(s, [])
    ensures CanSubmit(s, AGAIN) && CanGo(Submitted(s, AGAIN), RENDER)
    ensures Busy(Apply(Submitted(s, AGAIN), Go(RENDER)), |s.q.status|)
  {
    CanRead(s, []);
    var s1, n := Submitted(s, AGAIN), |s.q.status|;
    ReadPublishes(s, n);
    assert s1.q.lanes[RENDER].queue == [n];
    assert CanGo(s1, RENDER);
    var s2 := Apply(s1, Go(RENDER));
    assert s1.q.lanes[RENDER].queue[1..] == [];
    assert s2.q.lanes[0] == Lane(Some(n), []) && s2.q.lanes[1] == Lane(None, []);
    assert s2.q.lanes == [Lane(Some(n), []), Lane(None, [])];
  }

  lemma ReadRetires(s: Sys, n: nat)
    requires Busy(s, n)
    ensures Enabled(s, Leave(RENDER, 0, false)) && AtRest(Apply(s, Leave(RENDER, 0, false)), [BOUND])
    ensures Apply(s, Leave(RENDER, 0, false)).vms == s.vms
  {
    assert Enabled(s, Leave(RENDER, 0, false));
    var s' := Apply(s, Leave(RENDER, 0, false));
    assert s'.q.lanes == [Lane(None, []), Lane(None, [])];
    assert s'.q.status == s.q.status[n := Done(0)];
  }

  lemma OthersUntouched(s: Sys)
    requires AtRest(s, [BOUND])
    ensures Enabled(s, Unbind(3, SHARED)) && Apply(s, Unbind(3, SHARED)) == s
  {
    assert UnbindObject(s.vms, 3, SHARED) == s.vms;
  }

  // ------------------------------------------------------------------------
  // The run
  // ------------------------------------------------------------------------

  /** Some run from the start ends there; with `exact`, no caching was changed of an object bound elsewhere. */
  ghost predicate Ends(ms: seq<Machine>, ds: seq<Deed>, m: Machine, exact: bool) {
    MachineRun(ms, ds) && Boots(ms[0]) && ms[|ds|] == m && (exact ==> PrivateRun(ms, ds))
  }

  ghost predicate Reaches(m: Machine, exact: bool) {
    exists ms, ds :: Ends(ms, ds, m, exact)
  }

  lemma ReachesNext(m: Machine, d: Deed, m': Machine, exact: bool)
    requires Reaches(m, exact) && Moved(m, d, m') && CalmDeed(m, d) && (exact ==> Private(m, d))
    ensures Reaches(m', exact)
  {
    var ms, ds :| Ends(ms, ds, m, exact);
    EndsNext(ms, ds, m, d, m', exact);
  }

  lemma EndsNext(ms: seq<Machine>, ds: seq<Deed>, m: Machine, d: Deed, m': Machine, exact: bool)
    requires Ends(ms, ds, m, exact) && Moved(m, d, m') && CalmDeed(m, d) && (exact ==> Private(m, d))
    ensures Ends(ms + [m'], ds + [d], m', exact)
  {
    var ms', ds' := ms + [m'], ds + [d];
    forall i | 0 <= i < |ds'|
      ensures Link(ms', ds', i) && (exact ==> Private(ms'[i], ds'[i]))
    {
      if i < |ds| {
        assert Link(ms, ds, i) && (exact ==> Private(ms[i], ds[i]));
        assert ms'[i] == ms[i] && ms'[i + 1] == ms[i + 1] && ds'[i] == ds[i];
      } else {
        assert ms'[i] == m && ms'[i + 1] == m' && ds'[i] == d;
      }
    }
  }

  lemma ReachedGood(m: Machine, exact: bool)
    requires Reaches(m, exact)
    ensures Good(m, exact)
  {
    var ms, ds :| Ends(ms, ds, m, exact);
    MachineInv(ms, ds, |ds|, exact);
    assert Good(ms[|ds|], exact);
  }

  lemma ReachedMemory(m: Machine)
    requires Reaches(m, true)
    ensures MemoryInv(m, true)
  {
    ReachedGood(m, true);
  }

  lemma NothingSwept(w: PP.World, vms: Vms, vms': Vms)
    requires forall v :: v in w.vms ==> v in vms'
    ensures Sweeps(w, w, vms, vms')
  {
    var vs: seq<nat> := [];
    assert FreesAll(w, w, vms, vs) && NoRepeats(vs);
  }

  lemma NothingStripped(w: PP.World, vms: Vms, f: nat, obj: nat)
    requires forall v :: v in w.vms && v in vms ==> vms[v].file != f
    ensures Strips(w, w, vms, f, obj)
  {
    var vs: seq<nat> := [];
    assert StripsAll(w, w, vms, obj, vs) && NoRepeats(vs);
  }

  const PAGES := [0x9000]

  lemma ReachOpened(m: Machine)
    requires Reaches(m, true) && m.w.vms == map[]
    ensures Reaches(m.(s := Opened(m.s)), true)
  {
    NothingSwept(m.w, m.s.vms, Opened(m.s).vms);
    ReachesNext(m, Do(Life(Open)), m.(s := Opened(m.s)), true);
  }

  lemma ReachMade(m: Machine)
    requires Reaches(m, true) && m.s == Opening() && m.objects == map[]
    ensures Reaches(Machine(Starting(), m.w, map[SHARED := Obj(PAGES, true)]), true)
  {
    var m' := Machine(Starting(), m.w, map[SHARED := Obj(PAGES, true)]);
    assert PagesOk(PAGES);
    ReachesNext(m, Make(PAGES), m', true);
  }

  lemma ReachCreated(m: Machine, f: nat)
    requires Reaches(m, true) && PP.WorldOk(m.w) && m.w.vms == map[] && 1 in m.s.vms && f in m.w.free && m.w.sc.pdp != 0
    ensures Reaches(m.(w := PP.BornWorld(m.w, 1, f)), true)
  {
    PP.BornWorldOk(m.w, 1, f);
    ReachesNext(m, Create(1, true), m.(w := PP.BornWorld(m.w, 1, f)), true);
  }

  lemma ReachBooted()
    ensures Reaches(Machine(INIT, FirstWorld(), map[]), true)
  {
    FirstWorldOk();
    var m := Machine(INIT, FirstWorld(), map[]);
    assert Ends([m], [], m, true);
  }

  ghost function ReadyWorld(): PP.World {
    PP.BornWorld(FirstWorld(), 1, 0x5000)
  }

  /** Two files, an object, and the PPGTT of the first file's space. */
  lemma ReachReady()
    ensures Reaches(Machine(Starting(), ReadyWorld(), map[SHARED := Obj(PAGES, true)]), true)
  {
    ReachBooted();
    ReachOpened(Machine(INIT, FirstWorld(), map[]));
    ReachOpened(Machine(Opened(INIT), FirstWorld(), map[]));
    ReachMade(Machine(Opening(), FirstWorld(), map[]));
    FirstWorldOk();
    StartingAtRest();
    ReachCreated(Machine(Starting(), FirstWorld(), map[SHARED := Obj(PAGES, true)]), 0x5000);
  }

  /** Its first page is mapped. */
  lemma FirstBinds(w: PP.World, w': PP.World, objects: Objects)
    requires SHARED in objects && |objects[SHARED].pages| == 1 && Enters(w, w', 1, objects[SHARED], BOUND, 1)
    ensures BindsUpTo(w, w', 1, objects, [], [BOUND], 1)
  {
    assert InWay([], BOUND) == [] && DropsAll(w, w, 1, []) && !AnyInPlace([], BOUND);
    assert Maps(w, w', 1, objects[SHARED], [], BOUND, true);
    assert [BOUND][..0] == [] && PlaceAll([], []) == [];
    assert BindsEach(w, w, 1, objects, [], []);
  }

  lemma AgainBinds(w: PP.World, objects: Objects)
    requires SHARED in objects
    ensures BindsUpTo(w, w, 1, objects, [BOUND], [BOUND], 1)
  {
    assert InPlace(BOUND, BOUND) && BOUND in [BOUND];
    assert InWay([BOUND], BOUND) == [] && DropsAll(w, w, 1, []);
    assert Maps(w, w, 1, objects[SHARED], [BOUND], BOUND, true);
    assert [BOUND][..0] == [] && PlaceAll([BOUND], []) == [BOUND];
    assert BindsEach(w, w, 1, objects, [BOUND], []);
  }

  lemma ReadyWorldOk()
    ensures PP.WorldOk(ReadyWorld()) && ReadyWorld().vms.Keys == {1}
    ensures ReadyWorld().trees[1].Keys == {PT.ROOT} && {0x6000, 0x7000, 0x8000} <= ReadyWorld().free
  {
    FirstWorldOk();
    PP.BornWorldOk(FirstWorld(), 1, 0x5000);
  }

  lemma ReachBound() returns (m: Machine)
    ensures Reaches(m, true) && AtRest(m.s, [BOUND]) && m.objects == map[SHARED := Obj(PAGES, true)] && m.w.vms.Keys == {1}
  {
    ReachReady();
    StartingAtRest();
    ReadyWorldOk();
    var m0 := Machine(Starting(), ReadyWorld(), map[SHARED := Obj(PAGES, true)]);
    var w := MapFirst(m0.w, 1, Obj(PAGES, true), BOUND);
    var m1 := ReachRead(m0, w);
    m := ReachRetired(m1, |m0.s.q.status|);
  }

  lemma ReachSubmitted(m: Machine, bs: seq<Binding>, w: PP.World, exact: bool) returns (m': Machine)
    requires Reaches(m, exact) && AtRest(m.s, bs) && (bs == [] || bs == [BOUND]) && 1 in m.w.vms
    requires BindsUpTo(m.w, w, 1, m.objects, bs, [BOUND], 1)
    ensures CanSubmit(m.s, AGAIN) && m' == Machine(Submitted(m.s, AGAIN), w, m.objects) && Reaches(m', exact)
  {
    CanRead(m.s, bs);
    assert Wants(AGAIN.uses) == [BOUND];
    m' := Machine(Submitted(m.s, AGAIN), w, m.objects);
    ReachesNext(m, Do(Submit(AGAIN)), m', exact);
  }

  lemma ReachStarted(m: Machine) returns (m': Machine)
    requires Reaches(m, true) && CanGo(m.s, RENDER)
    ensures m' == m.(s := Apply(m.s, Go(RENDER))) && Reaches(m', true)
  {
    m' := m.(s := Apply(m.s, Go(RENDER)));
    ReachesNext(m, Do(Go(RENDER)), m', true);
  }

  lemma ReachRead(m: Machine, w: PP.World) returns (m': Machine)
    requires Reaches(m, true) && AtRest(m.s, []) && m.objects == map[SHARED := Obj(PAGES, true)]
    requires 1 in m.w.vms && Enters(m.w, w, 1, m.objects[SHARED], BOUND, 1)
    ensures Reaches(m', true) && Busy(m'.s, |m.s.q.status|) && m'.w == w && m'.objects == m.objects
  {
    FirstBinds(m.w, w, m.objects);
    ReadRuns(m.s);
    var mid := ReachSubmitted(m, [], w, true);
    m' := ReachStarted(mid);
  }

  lemma ReachRetired(m: Machine, n: nat) returns (m': Machine)
    requires Reaches(m, true) && Busy(m.s, n) && m.w.vms.Keys == {1}
    ensures Reaches(m', true) && AtRest(m'.s, [BOUND]) && m'.w == m.w && m'.objects == m.objects
  {
    ReadRetires(m.s, n);
    var t := Leave(RENDER, 0, false);
    m' := m.(s := Apply(m.s, t));
    NothingSwept(m.w, m.s.vms, m'.s.vms);
    ReachesNext(m, Do(t), m', true);
  }

  lemma ReachesAnyhow(m: Machine)
    requires Reaches(m, true)
    ensures Reaches(m, false)
  {
    var ms, ds :| Ends(ms, ds, m, true);
    assert Ends(ms, ds, m, false);
  }

  /** The other file changes the object's caching. */
  lemma ReachRecached(m: Machine) returns (m': Machine)
    requires Reaches(m, true) && AtRest(m.s, [BOUND]) && m.objects == map[SHARED := Obj(PAGES, true)] && m.w.vms.Keys == {1}
    ensures m' == m.(objects := map[SHARED := Obj(PAGES, false)])
    ensures Moved(m, SetCaching(3, SHARED, false), m') && Reaches(m', false)
  {
    ReachesAnyhow(m);
    OthersUntouched(m.s);
    NothingStripped(m.w, m.s.vms, 3, SHARED);
    m' := m.(objects := map[SHARED := Obj(PAGES, false)]);
    assert m.objects[SHARED := Obj(PAGES, false)] == m'.objects;
    ReachesNext(m, SetCaching(3, SHARED, false), m', false);
  }

  /** An unretired request whose object the hardware finds with another caching than it has. */
  ghost predicate Stale(m: Machine, id: nat, u: Use) {
    && m.s.q.Live(id) && id in m.s.q.requests && u in m.s.q.requests[id].uses
    && u.obj in m.objects && m.s.q.requests[id].vm in m.w.vms
    && CachedAs(m.w, m.s.q.requests[id].vm, u, 0, !m.objects[u.obj].cached)
  }

  /** It happens. */
  lemma CachingGoesStale()
    ensures exists ms, ds, id, u :: MachineRun(ms, ds) && Boots(ms[0]) && Stale(ms[|ds|], id, u)
  {
    var m := ReachBound();
    var m', n := ReachStale(m);
    var ms, ds :| Ends(ms, ds, m', false);
  }

  lemma ReachStale(m: Machine) returns (m': Machine, n: nat)
    requires Reaches(m, true) && AtRest(m.s, [BOUND]) && m.objects == map[SHARED := Obj(PAGES, true)] && m.w.vms.Keys == {1}
    ensures Reaches(m', false) && Stale(m', n, READ)
  {
    ReachedMemory(m);
    var m1 := ReachRecached(m);
    StaleEntry(m, SetCaching(3, SHARED, false), m1, 1, BOUND);
    AgainBinds(m.w, m1.objects);
    m' := ReachSubmitted(m1, [BOUND], m.w, false);
    n := |m.s.q.status|;
    StaleNow(m1, m');
  }

  lemma StaleNow(m1: Machine, m2: Machine)
    requires CanSubmit(m1.s, AGAIN) && AtRest(m1.s, [BOUND]) && m2 == Machine(Submitted(m1.s, AGAIN), m1.w, m1.objects)
    requires SHARED in m1.objects && 1 in m1.w.vms
    requires PT.PatIndex(First(m1.w, 1, BOUND)) == if m1.objects[SHARED].cached then 3 else 4
    ensures Stale(m2, |m1.s.q.status|, READ)
  {
    SubmittedLives(m1.s);
  }

  lemma SubmittedLives(s: Sys)
    requires CanSubmit(s, AGAIN) && AtRest(s, [BOUND])
    ensures Submitted(s, AGAIN).q.Live(|s.q.status|) && |s.q.status| in Submitted(s, AGAIN).q.requests
    ensures var r := Submitted(s, AGAIN).q.requests[|s.q.status|]; r.uses == [READ] && r.vm == 1
  {
    assert |s.q.status| in Submitted(s, AGAIN).q.lanes[RENDER].Ids();
  }
}
