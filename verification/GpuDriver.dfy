/**
 The driver as it runs: fields changed step by step by the loops of execbuffer,
 `processRequests` and the releases. Every method's effect is a step, or a run of steps, of
 the system in GpuSystem.
 */
module GpuDriver {
  import opened Basics
  import opened Bindings
  import opened RequestQueue
  import opened ImplicitFencing
  import opened Lifetimes
  import opened GpuSystem
  import opened GpuSafety
  import opened GpuIoctls
  import opened GpuRuns

  lemma PlaceAllNext(bs: seq<Binding>, wants: seq<Binding>, k: nat)
    requires k < |wants|
    ensures PlaceAll(bs, wants[..k + 1]) == Place(PlaceAll(bs, wants[..k]), wants[k])
  {
    assert wants[..k + 1][..k] == wants[..k] && wants[..k + 1][k] == wants[k];
  }

  lemma RebindAgain(vms: Vms, v: nat, a: seq<Binding>, b: seq<Binding>)
    requires v in vms
    ensures Rebind(Rebind(vms, v, a), v, b) == Rebind(vms, v, b)
  {
  }

  lemma ContextThingsMore(cs: set<nat>, c: nat)
    requires c !in cs
    ensures ContextThings(cs + {c}) == ContextThings(cs) + multiset{AContext(c)}
  {
    assert (set x | x in cs + {c} :: AContext(x)) == (set x | x in cs :: AContext(x)) + {AContext(c)};
  }

  lemma VmThingsMore(vs: set<nat>, v: nat)
    requires v !in vs
    ensures VmThings(vs + {v}) == VmThings(vs) + multiset{AVm(v)}
  {
    assert (set x | x in vs + {v} :: AVm(x)) == (set x | x in vs :: AVm(x)) + {AVm(v)};
  }

  /** How far a file's destruction has come: the contexts in `done` are gone, and only address
      spaces of the file have changed or gone. */
  ghost predicate Dismantled(s: Sys, f: nat, done: set<nat>, s': Sys)
    requires f in s.files
  {
    && s' == s.(contexts := s'.contexts, files := s'.files, vms := s'.vms, freed := s'.freed)
    && done <= s.files[f].table
    && s'.contexts == s.contexts - done
    && f in s'.files && s'.files - {f} == s.files - {f}
    && s'.files[f].table == s.files[f].table - done && s'.files[f].defaultVm == s.files[f].defaultVm
    && VmsDismantled(s.vms, f, s'.vms)
    && s'.freed == s.freed + ContextThings(done) + VmThings(s.vms.Keys - s'.vms.Keys)
    && LinksOk(s'.contexts, s'.files, s'.vms)
  }

  ghost predicate VmsDismantled(vms: Vms, f: nat, vms': Vms) {
    && vms'.Keys <= vms.Keys
    && (forall v :: v in vms' ==> vms'[v].file == vms[v].file)
    && (forall v :: v in vms && vms[v].file != f ==> v in vms' && vms'[v] == vms[v])
  }

  lemma ReleaseDismantles(vms: Vms, f: nat, vms': Vms, v: nat)
    requires VmsDismantled(vms, f, vms') && v in vms' && vms'[v].file == f && vms'[v].refs > 0
    ensures VmsDismantled(vms, f, Released(vms', v))
  {
  }

  /** Letting go of one reference of the file moves the destruction on. */
  lemma ReleasedThings(before: Vms, now: Vms, v: nat)
    requires now.Keys <= before.Keys && v in now && now[v].refs > 0
    ensures VmThings(before.Keys - Released(now, v).Keys) == VmThings(before.Keys - now.Keys) + FreedWith(now, v)
  {
    if now[v].refs == 1 {
      VmThingsMore(before.Keys - now.Keys, v);
      assert before.Keys - Released(now, v).Keys == before.Keys - now.Keys + {v};
    } else {
      assert Released(now, v).Keys == now.Keys;
    }
  }

  /** Freeing one more context of the file. */
  lemma DropListed(s: Sys, f: nat, c: nat, done: set<nat>, s': Sys)
    requires f in s.files && Dismantled(s, f, done, s') && c in s'.files[f].table
    ensures c in s'.contexts && s'.contexts[c].vm in s'.vms && s'.vms[s'.contexts[c].vm].refs > 0
    ensures Dismantled(s, f, done + {c},
                       FreeContext(s', c).(files := s'.files[f := s'.files[f].(table := s'.files[f].table - {c})]))
  {
    assert FileOk(s'.contexts, s'.files, s'.vms, f);
    assert ContextOk(s'.contexts, s'.files, s'.vms, c);
    var v := s'.contexts[c].vm;
    assert RefOk(s'.contexts, s'.files, s'.vms, v);
    FreeListedLinks(s'.contexts, s'.files, s'.vms, c);
    ReleaseDismantles(s.vms, f, s'.vms, v);
    ReleasedThings(s.vms, s'.vms, v);
    ContextThingsMore(done, c);
    var files' := s'.files[f := s'.files[f].(table := s'.files[f].table - {c})];
    assert files' - {f} == s'.files - {f};
    assert s'.contexts - {c} == s.contexts - (done + {c});
  }

  /** Letting go of one more VM id of the file. */
  lemma DropSlot(s: Sys, f: nat, slot: nat, done: set<nat>, s': Sys)
    requires f in s.files && Dismantled(s, f, done, s') && slot in s'.files[f].vmIds
    ensures var v := s'.files[f].vmIds[slot];
            && v in s'.vms && s'.vms[v].refs > 0
            && Dismantled(s, f, done,
                          ReleaseVm(s', v).(files := s'.files[f := s'.files[f].(vmIds := s'.files[f].vmIds - {slot})]))
  {
    assert FileOk(s'.contexts, s'.files, s'.vms, f);
    var v := s'.files[f].vmIds[slot];
    assert RefOk(s'.contexts, s'.files, s'.vms, v);
    DropVmLinks(s'.contexts, s'.files, s'.vms, f, slot);
    ReleaseDismantles(s.vms, f, s'.vms, v);
    ReleasedThings(s.vms, s'.vms, v);
    var files' := s'.files[f := s'.files[f].(vmIds := s'.files[f].vmIds - {slot})];
    assert files' - {f} == s'.files - {f};
  }

  ghost predicate AllListed(contexts: Contexts, files: Files, f: nat)
    requires f in files
  {
    forall c :: c in contexts && contexts[c].file == f ==> c in files[f].table
  }

  lemma DismantledStart(s: Sys, f: nat)
    requires f in s.files && LinksOk(s.contexts, s.files, s.vms)
    ensures Dismantled(s, f, {}, s)
  {
    assert s.contexts - {} == s.contexts;
    assert ContextThings({}) == multiset{} && VmThings({}) == multiset{};
    assert s.vms.Keys - s.vms.Keys == {};
  }

  /** Once its contexts and ids are gone, letting go of the default address space is all that is left. */
  lemma DismantledEnd(s: Sys, f: nat, s': Sys)
    requires f in s.files && AllListed(s.contexts, s.files, f) && Dismantled(s, f, s.files[f].table, s')
    requires s'.files[f].vmIds == map[]
    ensures var v := s.files[f].defaultVm;
            && v in s'.vms && s'.vms[v].refs == 1
            && DestroyFile(s, f) == s'.(vms := s'.vms - {v}, files := s'.files - {f}, freed := s'.freed + multiset{AVm(v)} + multiset{AFile(f)})
  {
    var v, owned := s.files[f].defaultVm, OwnedVms(s.vms, f);
    OnlyDefaultLeft(s'.contexts, s'.files, s'.vms, f);
    assert v in OwnedVms(s'.vms, f);
    assert s'.vms - {v} == s.vms - owned by {
      forall x | x in s.vms
        ensures x in owned <==> x !in s'.vms || x == v
      {
        assert x in s'.vms && s.vms[x].file == f ==> x in OwnedVms(s'.vms, f);
      }
    }
    var gone := s.vms.Keys - s'.vms.Keys;
    assert gone + {v} == owned;
    VmThingsMore(gone, v);
  }

  /** What a retiring request needs to let go of its context and its file. */
  ghost predicate CanDrop(s: Sys, r: Request) {
    && r.ctx in s.contexts && s.contexts[r.ctx].pending > 0
    && s.contexts[r.ctx].vm in s.vms && s.vms[s.contexts[r.ctx].vm].refs > 0
    && r.file in s.files && s.files[r.file].inflight > 0
  }

  /** If the file goes with this request, everything of it is found by its own tables. */
  ghost predicate CanTearDown(s: Sys, r: Request)
    requires CanDrop(s, r)
  {
    var b := DropContext(s, r.ctx);
    s.files[r.file].inflight == 1 && s.files[r.file].closed ==>
      LinksOk(b.contexts, Unflight(s.files, r.file), b.vms) && AllListed(b.contexts, Unflight(s.files, r.file), r.file)
  }

  lemma LetGoTearsDown(s: Sys, e: nat, code: int, hung: bool)
    requires QueueInv(s.q) && Alive(s) && CanLeave(s, e, code, hung) && CanLetGo(s, e)
    ensures var r := s.q.requests[Leaving(s.q, e)];
            CanDrop(Signal(s, e, code, hung), r) && CanTearDown(Signal(s, e, code, hung), r)
  {
    var id, live := Leaving(s.q, e), s.q.LiveIds();
    var r, a := s.q.requests[id], Signal(s, e, code, hung);
    SignalLife(s, e, code, hung);
    RetireDefined(s.q, e);
    assert id in live;
    DropContextLife(a, live, live, id);
    DroppedTearsDown(a, live, id);
  }

  lemma DroppedTearsDown(a: Sys, live: set<nat>, id: nat)
    requires id in live && id in a.q.requests && CanDrop(a, a.q.requests[id])
    requires LifeInv(DropContext(a, a.q.requests[id].ctx), live - {id}, live)
    ensures CanTearDown(a, a.q.requests[id])
  {
    var r := a.q.requests[id];
    var b := DropContext(a, r.ctx);
    if a.files[r.file].inflight == 1 {
      UnflightCounts(b.files, b.q.requests, live, id);
      var left := b.(files := Unflight(b.files, r.file));
      assert left.files.Keys == b.files.Keys;
      SameFileLinks(b.contexts, b.files, left.files, b.vms);
      assert OfFile(b.q.requests, live - {id}, r.file) == {};
      TableComplete(left, live - {id}, live - {id}, r.file);
    }
  }

  /** Nothing on the engine that a look finds done or overdue. */
  ghost predicate Quiet(q: Queues, e: nat, look: Look) {
    e < |q.lanes| && (q.lanes[e].active.Some? ==> q.lanes[e].active.value !in look.done && q.lanes[e].active.value !in look.late)
  }

  /** Nor anything it could start or fail. */
  ghost predicate Still(q: Queues, e: nat, look: Look) {
    Quiet(q, e, look) && !HeadReady(q, e)
  }

  /** What the hardware says when the engines are looked at: which requests are done, which are overdue, and which engines
      cannot be woken. */
  datatype Look = Look(done: set<nat>, late: set<nat>, asleep: set<nat>)

  /** What a look lets an engine do: whatever is done leaves with 0, what is overdue with -EIO, and what may start does
      unless the engine cannot be woken. */
  ghost predicate Allowed(s: Sys, t: Step, look: Look)
    requires Enabled(s, t)
  {
    match t
    case Go(e) => e !in look.asleep
    case Leave(e, code, hung) =>
      if s.q.lanes[e].active.Some? then
        var x := s.q.lanes[e].active.value;
        (x in look.done && !hung && code == 0) || (x !in look.done && x in look.late && hung && code == -5)
      else CanGo(s, e) ==> e in look.asleep
    case _ => false
  }

  /** A run of engine moves, each allowed by one of the first `r` looks. */
  ghost predicate EngineRun(s: Sys, steps: seq<Step>, s': Sys, hw: nat -> Look, r: nat)
    decreases |steps|
  {
    if steps == [] then s' == s
    else
      && Enabled(s, steps[0]) && (exists n: nat :: n < r && Allowed(s, steps[0], hw(n)))
      && EngineRun(Apply(s, steps[0]), steps[1..], s', hw, r)
  }

  lemma {:induction false} EngineRunIsRun(s: Sys, steps: seq<Step>, s': Sys, hw: nat -> Look, r: nat)
    requires EngineRun(s, steps, s', hw, r)
    ensures Run(s, steps, s') && forall t :: t in steps ==> t.Go? || t.Leave?
    decreases |steps|
  {
    if steps != [] {
      EngineRunIsRun(Apply(s, steps[0]), steps[1..], s', hw, r);
    }
  }

  /** The states the engines go through, the moves between them and the look each is made under. */
  datatype Course = Course(states: seq<Sys>, steps: seq<Step>, looks: seq<nat>)

  ghost predicate Traced(c: Course, from: Sys, to: Sys, hw: nat -> Look, r: nat) {
    && |c.states| == |c.steps| + 1 && |c.looks| == |c.steps| && c.states[0] == from && c.states[|c.steps|] == to
    && (forall i {:trigger c.looks[i]} | 0 <= i < |c.steps| :: c.looks[i] < r)
    && forall i {:trigger c.steps[i]} | 0 <= i < |c.steps| :: MovedBy(c.states[i], Some(c.steps[i]), c.states[i + 1], hw(c.looks[i]))
  }

  lemma TracedMore(c: Course, s: Sys, mid: Sys, t: Option<Step>, s': Sys, hw: nat -> Look, r: nat) returns (c': Course)
    requires SysInv(mid) && r > 0 && Traced(c, s, mid, hw, r) && MovedBy(mid, t, s', hw(r - 1))
    ensures SysInv(s') && Lighter(mid, s', if t.Some? then 1 else 0)
    ensures Traced(c', s, s', hw, r) && c'.steps == if t.Some? then c.steps + [t.value] else c.steps
    ensures t.None? ==> c' == c
  {
    c' := c;
    if t.Some? {
      MovedKeeps(mid, t.value, s');
      c' := TracedOne(c, s, mid, t.value, s', hw, r);
    }
  }

  lemma TracedOne(c: Course, s: Sys, mid: Sys, t: Step, s': Sys, hw: nat -> Look, r: nat) returns (c': Course)
    requires r > 0 && Traced(c, s, mid, hw, r) && MovedBy(mid, Some(t), s', hw(r - 1))
    ensures Traced(c', s, s', hw, r) && c'.steps == c.steps + [t]
  {
    c' := Course(c.states + [s'], c.steps + [t], c.looks + [r - 1]);
  }

  lemma TracedRuns(c: Course, s: Sys, s': Sys, hw: nat -> Look, r: nat)
    requires Traced(c, s, s', hw, r)
    ensures EngineRun(s, c.steps, s', hw, r) && Run(s, c.steps, s')
  {
    TracedFrom(c, s, s', hw, r);
    EngineRunIsRun(s, c.steps, s', hw, r);
  }

  lemma {:induction false} TracedFrom(c: Course, s: Sys, s': Sys, hw: nat -> Look, r: nat)
    requires Traced(c, s, s', hw, r)
    ensures EngineRun(s, c.steps, s', hw, r)
    decreases |c.steps|
  {
    if c.steps != [] {
      assert MovedBy(s, Some(c.steps[0]), c.states[1], hw(c.looks[0]));
      MovedIsStep(s, c.steps[0], c.states[1]);
      TracedFrom(Course(c.states[1..], c.steps[1..], c.looks[1..]), c.states[1], s', hw, r);
    }
  }

  /** At most one move of an engine. */
  ghost predicate Moved(s: Sys, t: Option<Step>, s': Sys) {
    match t
    case None => s' == s
    case Some(Go(e)) => CanGo(s, e) && s' == s.(q := Dispatch(s.q, e))
    case Some(Leave(e, code, hung)) => CanLeave(s, e, code, hung) && CanLetGo(s, e) && s' == Left(s, e, code, hung)
    case _ => false
  }

  /** A move, allowed by a look. */
  ghost predicate MovedBy(s: Sys, t: Option<Step>, s': Sys, look: Look) {
    Moved(s, t, s') && (t.Some? ==> Enabled(s, t.value) && Allowed(s, t.value, look))
  }

  /** At most `n` more moves done, each of which took something off the work there is. */
  ghost predicate Lighter(s: Sys, s': Sys, n: nat) {
    |s.q.lanes| == 2 && |s'.q.lanes| == 2 && Work(s'.q) + n <= Work(s.q) && s'.q.claimed == s.q.claimed
  }

  lemma MovedIsStep(s: Sys, t: Step, s': Sys)
    requires Moved(s, Some(t), s')
    ensures (t.Go? || t.Leave?) && Enabled(s, t) && s' == Apply(s, t)
  {
  }

  lemma MovedKeeps(s: Sys, t: Step, s': Sys)
    requires SysInv(s) && Moved(s, Some(t), s')
    ensures SysInv(s') && (t.Go? || t.Leave?) && Work(s'.q) < Work(s.q) && s'.q.claimed == s.q.claimed
  {
    MovedIsStep(s, t, s');
    StepInv(s, t);
    MoveShrinks(s, t);
  }

  /** The head of a queue is a request on record, and its context is there. */
  lemma HeadKnown(s: Sys, e: nat)
    requires SysInv(s) && e < 2 && s.q.lanes[e].queue != []
    ensures var id := s.q.lanes[e].queue[0]; id in s.q.requests && s.q.requests[id].ctx in s.contexts
  {
    var id := s.q.lanes[e].queue[0];
    assert s.q.Live(id) && id in s.q.LiveIds();
    assert RequestOk(s.contexts, s.q.requests, id);
  }

  /** With none of its requests in flight a file's own tables name everything it has. */
  lemma IdleFileListed(s: Sys, f: nat)
    requires Alive(s) && f in s.files && s.files[f].inflight == 0
    ensures LinksOk(s.contexts, s.files, s.vms) && AllListed(s.contexts, s.files, f)
  {
    var live := s.q.LiveIds();
    assert OfFile(s.q.requests, live, f) == {};
    TableComplete(s, live, live, f);
  }

  lemma ClosedLinks(s: Sys, f: nat)
    requires LinksOk(s.contexts, s.files, s.vms) && f in s.files
    ensures LinksOk(s.contexts, s.files[f := s.files[f].(closed := true)], s.vms)
  {
    var files' := s.files[f := s.files[f].(closed := true)];
    assert files'.Keys == s.files.Keys;
    SameFileLinks(s.contexts, s.files, files', s.vms);
  }

  const ENOENT := 2
  const ENOMEM := 12
  const EINVAL := 22
  const ENOSPC := 28

  /** What an execbuffer meets: whether there are frames and memory for page tables, for the context's image, for the
      mapping of each object and for the request, what queueing the request comes to, and what the hardware says. */
  datatype Env = Env(tables: bool, image: bool, mapped: nat -> bool, memory: bool, queued: int, hw: nat -> Look)

  /** How a pass of an execbuffer that does not sleep ends; one that has to sleep looks again. */
  datatype Outcome = Queued | Failed(code: int) | MustWait

  /** An entry of the object list, as the driver reads it: a 48-bit address, the object's size. */
  function Sized(sizes: map<nat, nat>, u: Use): Use {
    u.(va := u.va % VA_LIMIT, size := if u.obj in sizes then sizes[u.obj] else 0)
  }

  function SizedAll(sizes: map<nat, nat>, entries: seq<Use>): seq<Use> {
    seq(|entries|, i requires 0 <= i < |entries| => Sized(sizes, entries[i]))
  }

  // What is asked of an object list, in numbers.

  /** Two entries name one object, or overlap. */
  predicate Clash(sizes: map<nat, nat>, a: Use, b: Use) {
    a.obj == b.obj ||
    (&& a.obj in sizes && b.obj in sizes
     && a.va % 0x1_0000_0000_0000 < b.va % 0x1_0000_0000_0000 + sizes[b.obj]
     && b.va % 0x1_0000_0000_0000 < a.va % 0x1_0000_0000_0000 + sizes[a.obj])
  }

  /** An entry is unknown, not aligned or out of range, or clashes with one before it. */
  ghost predicate Bad(sizes: map<nat, nat>, entries: seq<Use>, i: nat)
    requires i < |entries|
  {
    var u := entries[i];
    || u.obj !in sizes || u.va % 4096 != 0 || u.va % 0x1_0000_0000_0000 + sizes[u.obj] > 0x1_0000_0000_0000
    || exists j :: 0 <= j < i && Clash(sizes, entries[j], u)
  }

  ghost predicate FirstBad(sizes: map<nat, nat>, entries: seq<Use>, i: nat) {
    i < |entries| && Bad(sizes, entries, i) && forall j: nat | j < i :: !Bad(sizes, entries, j)
  }

  /** An entry as a request records it: the object, how it is used and its size as they are, the address in 48 bits. */
  predicate AsGiven(sizes: map<nat, nat>, given: Use, u: Use) {
    && u.obj == given.obj && u.write == given.write && u.async == given.async
    && u.obj in sizes && u.size == sizes[u.obj]
    && u.va < 0x1_0000_0000_0000 && (given.va - u.va) % 0x1_0000_0000_0000 == 0
  }

  ghost predicate AllAsGiven(sizes: map<nat, nat>, given: seq<Use>, uses: seq<Use>) {
    |uses| == |given| && forall i | 0 <= i < |given| :: AsGiven(sizes, given[i], uses[i])
  }

  lemma SizedAsGiven(sizes: map<nat, nat>, given: seq<Use>)
    requires EntriesOk(sizes, SizedAll(sizes, given))
    ensures AllAsGiven(sizes, given, SizedAll(sizes, given))
  {
    var all := SizedAll(sizes, given);
    forall i | 0 <= i < |given|
      ensures AsGiven(sizes, given[i], all[i])
    {
      assert EntryOk(sizes, all[i]);
      LowAddress(given[i].va);
    }
  }

  lemma LowAddress(va: nat)
    ensures (va - va % VA_LIMIT) % VA_LIMIT == 0 && va % VA_LIMIT % PAGE == va % PAGE
  {
    var q, r := va / VA_LIMIT, va % VA_LIMIT;
    assert va == q * VA_LIMIT + r;
    assert (q * VA_LIMIT) % VA_LIMIT == 0;
    assert va == (q * 0x10_0000_0000) * PAGE + r;
  }

  lemma BadIs(sizes: map<nat, nat>, entries: seq<Use>, i: nat)
    requires i < |entries| && forall j :: 0 <= j < i ==> entries[j].obj in sizes
    ensures var all, u := SizedAll(sizes, entries), Sized(sizes, entries[i]);
            Bad(sizes, entries, i) <==>
              !EntryOk(sizes, u) || exists j :: 0 <= j < i && (all[j].obj == u.obj || Overlap(Want(all[j]), Want(u)))
  {
    var all, u := SizedAll(sizes, entries), Sized(sizes, entries[i]);
    LowAddress(entries[i].va);
    if u.obj in sizes {
      forall j | 0 <= j < i
        ensures Clash(sizes, entries[j], entries[i]) <==> all[j].obj == u.obj || Overlap(Want(all[j]), Want(u))
      {
      }
    }
  }

  /** A binding is in the way of an entry: elsewhere for the object, or across its range. */
  predicate Across(sizes: map<nat, nat>, b: Binding, u: Use) {
    var va := u.va % 0x1_0000_0000_0000;
    && !(b.obj == u.obj && b.va == va)
    && (b.obj == u.obj || (u.obj in sizes && b.va < va + sizes[u.obj] && va < b.va + b.size))
  }

  ghost predicate Crowded(sizes: map<nat, nat>, bs: seq<Binding>, entries: seq<Use>) {
    exists b, i :: b in bs && 0 <= i < |entries| && Across(sizes, b, entries[i])
  }

  lemma CrowdedIs(sizes: map<nat, nat>, bs: seq<Binding>, entries: seq<Use>)
    requires forall i :: 0 <= i < |entries| ==> entries[i].obj in sizes
    ensures NeedsEviction(bs, Wants(SizedAll(sizes, entries))) <==> Crowded(sizes, bs, entries)
  {
    var all := SizedAll(sizes, entries);
    var wants := Wants(all);
    if x, w :| x in bs && w in wants && InTheWay(x, w) {
      var i :| 0 <= i < |wants| && wants[i] == w;
      assert Across(sizes, x, entries[i]);
    }
    if b, i :| b in bs && 0 <= i < |entries| && Across(sizes, b, entries[i]) {
      assert wants[i] == Want(all[i]) && wants[i] in wants && InTheWay(b, wants[i]);
    }
  }

  /** What the tests of an execbuffer come to, in order. */
  ghost predicate TestsSay(s: Sys, given: Submission, env: Env, out: Outcome)
    requires given.file in s.files
    requires given.ctx in s.files[given.file].table ==> given.ctx in s.contexts && s.contexts[given.ctx].vm in s.vms
  {
    if given.ctx !in s.files[given.file].table then out == Failed(2)
    else if given.uses == [] then out == Failed(22)
    else if exists i: nat :: FirstBad(s.sizes, given.uses, i) then
      exists i: nat :: FirstBad(s.sizes, given.uses, i) && out == Failed(if given.uses[i].obj in s.sizes then 22 else 2)
    else if !env.tables then out == Failed(12)
    else if (Crowded(s.sizes, s.vms[s.contexts[given.ctx].vm].bindings, given.uses) && s.files[given.file].inflight != 0)
            || s.q.queuedCount >= 512 then out == MustWait
    else if s.contexts[given.ctx].banned then out == Failed(5)
    else if !env.image then out == Failed(12)
    else out == Queued
  }

  ghost predicate Tested(s: Sys, given: Submission, env: Env, out: Outcome) {
    && given.file in s.files
    && (given.ctx in s.files[given.file].table ==> given.ctx in s.contexts && s.contexts[given.ctx].vm in s.vms)
    && TestsSay(s, given, env, out)
  }

  /** And once they pass, what binding and queueing do. */
  ghost predicate StepTells(t: Step, p: Submission, env: Env, out: Outcome) {
    match t
    case Aborted(q, k) =>
      q == p && if k < |p.uses| then !env.mapped(k) && out == Failed(28) else k == |p.uses| && !env.memory && out == Failed(12)
    case Refused(q, code) => q == p && env.memory && code == env.queued < 0 && out == Failed(-code)
    case Submit(q) => q == p && env.memory && env.queued == 0 && out == Queued
    case _ => false
  }

  ghost predicate StepSays(t: Step, given: Submission, sizes: map<nat, nat>, env: Env, out: Outcome) {
    && (t.Submit? || t.Refused? || t.Aborted?) && StepTells(t, t.p, env, out)
    && t.p == given.(uses := t.p.uses) && AllAsGiven(sizes, given.uses, t.p.uses)
  }

  predicate EntryOk(sizes: map<nat, nat>, u: Use) {
    u.obj in sizes && u.va % PAGE == 0 && u.va + u.size <= VA_LIMIT
  }

  /** What the checks of the object list let through. */
  ghost predicate EntriesOk(sizes: map<nat, nat>, uses: seq<Use>) {
    (forall i :: 0 <= i < |uses| ==> EntryOk(sizes, uses[i])) && Apart(Wants(uses))
  }

  /** An execbuffer that has bound its objects. */
  ghost function BoundFor(s: Sys, p: Submission): Sys
    requires CanSubmit(s, p)
  {
    AbortedSys(s, p, |p.uses|)
  }

  /** A request's fence is published, and it is counted. */
  ghost function Announced(s: Sys, p: Submission): Sys
    requires Known(s.slots, p.uses) && p.engine < 2 && p.ctx in s.contexts && p.file in s.files
  {
    var k, id := s.contexts[p.ctx], |s.q.status|;
    s.(slots := Publish(s.slots, id, p.engine, p.uses),
       contexts := s.contexts[p.ctx := Noted(k, id).(pending := k.pending + 1)],
       files := s.files[p.file := s.files[p.file].(inflight := s.files[p.file].inflight + 1)])
  }

  ghost function Counting(s: Sys, p: Submission): Sys
    requires CanSubmit(s, p)
  {
    Announced(BoundFor(s, p), p)
  }

  lemma SubmittedIs(s: Sys, p: Submission)
    requires CanSubmit(s, p)
    ensures Submitted(s, p) == Counting(s, p).(q := Enqueue(s.q, RequestOf(s, p)))
  {
  }

  /** A refusal takes back exactly the counts, and nothing is freed by it. */
  lemma RefusalUncounts(s: Sys, p: Submission, code: int)
    requires Alive(s) && CanSubmit(s, p)
    ensures var a := Counting(s, p).(q := Refuse(s.q, code));
            && CanDrop(a, RequestOf(s, p)) && CanTearDown(a, RequestOf(s, p))
            && DropFile(DropContext(a, p.ctx), p.file) == RefusedSys(s, p, code)
  {
    var a, k := Counting(s, p).(q := Refuse(s.q, code)), s.contexts[p.ctx];
    assert ContextOk(s.contexts, s.files, s.vms, p.ctx) && FileOk(s.contexts, s.files, s.vms, p.file);
    assert RefOk(s.contexts, s.files, s.vms, k.vm);
    var b := DropContext(a, p.ctx);
    assert b.contexts == s.contexts[p.ctx := Noted(k, |s.q.status|)];
    assert Unflight(b.files, p.file) == s.files;
  }

  /** The file's context, as an execbuffer finds it. */
  lemma ListedKnown(s: Sys, f: nat, c: nat)
    requires Alive(s) && f in s.files && c in s.files[f].table
    ensures c in s.contexts && s.contexts[c].vm in s.vms
  {
    assert FileOk(s.contexts, s.files, s.vms, f);
    assert ContextOk(s.contexts, s.files, s.vms, c);
  }

  /** The tests an execbuffer makes are the whole of what it takes to be submitted. */
  ghost predicate Passes(s: Sys, p: Submission) {
    && p.file in s.files && p.ctx in s.files[p.file].table && p.uses != []
    && EntriesOk(s.sizes, p.uses)
    && p.ctx in s.contexts && s.contexts[p.ctx].vm in s.vms
    && (NeedsEviction(s.vms[s.contexts[p.ctx].vm].bindings, Wants(p.uses)) ==> s.files[p.file].inflight == 0)
    && s.q.queuedCount < MAX_QUEUED
    && !s.contexts[p.ctx].banned
  }

  lemma PassesIsCanSubmit(s: Sys, p: Submission)
    requires SysInv(s) && Explicit(s.q, p.explicit) && p.engine < 2 && p.file in s.files && !s.files[p.file].closed
    requires p.uses == SizedAll(s.sizes, p.uses)
    ensures Passes(s, p) <==> CanSubmit(s, p)
  {
    if EntriesOk(s.sizes, p.uses) {
      forall u | u in p.uses
        ensures u.obj in s.slots && u.size == s.sizes[u.obj] && u.va % PAGE == 0 && u.va + u.size <= VA_LIMIT
      {
        var i :| 0 <= i < |p.uses| && p.uses[i] == u;
        assert EntryOk(s.sizes, p.uses[i]);
      }
      assert Known(s.slots, p.uses);
    }
    if CanSubmit(s, p) {
      forall i | 0 <= i < |p.uses|
        ensures EntryOk(s.sizes, p.uses[i])
      {
        assert p.uses[i] in p.uses;
      }
    }
  }

  lemma EndedKeeps(s: Sys, p: Submission, out: Outcome, t: Step, s': Sys)
    requires SysInv(s) && Ended(s, p, out, Some(t), s')
    ensures SysInv(s') <==> (t.Refused? ==> Spares(s.q, s.slots, p.engine, p.uses, true))
  {
    match t
    case Submit(_) => SubmitInv(s, p);
    case Refused(_, code) => RefusedInv(s, p, code);
    case Aborted(_, k) => AbortedCore(s, p, k);
    case _ =>
  }

  lemma EndedRun(s: Sys, p: Submission, out: Outcome, t: Step, mid: Sys, rest: seq<Step>, s': Sys)
    requires Ended(s, p, out, Some(t), mid) && Run(mid, rest, s')
    ensures Run(s, [t] + rest, s')
  {
    assert Enabled(s, t) && Apply(s, t) == mid;
    assert ([t] + rest)[1..] == rest;
  }

  lemma SizedTwice(sizes: map<nat, nat>, entries: seq<Use>)
    ensures SizedAll(sizes, SizedAll(sizes, entries)) == SizedAll(sizes, entries)
  {
  }

  /** The engines have been seen to: some look left nothing to do. */
  ghost predicate AtRest(q: Queues, hw: nat -> Look) {
    exists r: nat :: Still(q, 0, hw(r)) && Still(q, 1, hw(r))
  }

  /** The request as it was asked for in state `s`: its engine, file, context and objects, and what it waits for. */
  ghost predicate Recorded(q: Queues, id: nat, given: Submission, s: Sys) {
    && id in q.requests
    && q.requests[id].engine == given.engine && q.requests[id].file == given.file && q.requests[id].ctx == given.ctx
    && AllAsGiven(s.sizes, given.uses, q.requests[id].uses)
    && forall f :: f in q.requests[id].deps <==> ToAwait(s, given, f)
  }

  lemma SameAwaited(s: Sys, given: Submission, p: Submission, f: Fence)
    requires p == given.(uses := p.uses) && AllAsGiven(s.sizes, given.uses, p.uses)
    ensures ToAwait(s, given, f) <==> ToAwait(s, p, f)
  {
    if u :| u in given.uses && AsksFor(s.slots, u, f) {
      var i :| 0 <= i < |given.uses| && given.uses[i] == u;
      assert AsGiven(s.sizes, given.uses[i], p.uses[i]) && p.uses[i] in p.uses && AsksFor(s.slots, p.uses[i], f);
    }
    if u :| u in p.uses && AsksFor(s.slots, u, f) {
      var i :| 0 <= i < |p.uses| && p.uses[i] == u;
      assert AsGiven(s.sizes, given.uses[i], p.uses[i]) && given.uses[i] in given.uses && AsksFor(s.slots, given.uses[i], f);
    }
  }

  lemma KnownEntries(sizes: map<nat, nat>, entries: seq<Use>)
    requires forall i: nat | i < |entries| :: !Bad(sizes, entries, i)
    ensures forall i :: 0 <= i < |entries| ==> entries[i].obj in sizes
    ensures !exists i: nat :: FirstBad(sizes, entries, i)
  {
    forall i | 0 <= i < |entries|
      ensures entries[i].obj in sizes
    {
      assert !Bad(sizes, entries, i);
    }
  }

  lemma SaysOn(t: Step, given: Submission, p: Submission, sizes: map<nat, nat>, env: Env, out: Outcome)
    requires StepTells(t, p, env, out) && p == given.(uses := p.uses) && AllAsGiven(sizes, given.uses, p.uses)
    ensures StepSays(t, given, sizes, env, out)
  {
  }

  lemma RecordedAfter(s: Sys, p: Submission, steps: seq<Step>, s': Sys, given: Submission)
    requires CanSubmit(s, p) && Run(s, steps, s') && steps != [] && steps[0] == Submit(p)
    requires p == given.(uses := p.uses) && AllAsGiven(s.sizes, given.uses, p.uses)
    ensures Recorded(s'.q, |s.q.status|, given, s)
  {
    RunKeeps(Submitted(s, p), steps[1..], s', |s.q.status|);
    AwaitsExactly(s, p);
    forall f
      ensures ToAwait(s, given, f) <==> ToAwait(s, p, f)
    {
      SameAwaited(s, given, p, f);
    }
  }

  /** What one pass may have done. */
  ghost predicate Ended(s: Sys, p: Submission, out: Outcome, t: Option<Step>, s': Sys) {
    match t
    case None => s' == s && !out.Queued?
    case Some(Submit(q)) => q == p && CanSubmit(s, p) && out == Queued && s' == Submitted(s, p)
    case Some(Refused(q, code)) => q == p && CanSubmit(s, p) && code < 0 && out == Failed(-code) && s' == RefusedSys(s, p, code)
    case Some(Aborted(q, k)) =>
      && q == p && CanSubmit(s, p) && k <= |p.uses| && s' == AbortedSys(s, p, k)
      && out == Failed(if k < |p.uses| then ENOSPC else ENOMEM)
    case _ => false
  }

  lemma EntriesMore(sizes: map<nat, nat>, uses: seq<Use>, u: Use)
    requires EntriesOk(sizes, uses)
    ensures EntriesOk(sizes, uses + [u]) <==>
            EntryOk(sizes, u) && forall j :: 0 <= j < |uses| ==> uses[j].obj != u.obj && !Overlap(Want(uses[j]), Want(u))
  {
    var all := uses + [u];
    assert Wants(all) == Wants(uses) + [Want(u)];
    if EntriesOk(sizes, all) {
      assert EntryOk(sizes, all[|uses|]);
      forall j | 0 <= j < |uses|
        ensures uses[j].obj != u.obj && !Overlap(Want(uses[j]), Want(u))
      {
        assert Wants(all)[j] == Want(uses[j]) && Wants(all)[|uses|] == Want(u);
      }
    }
  }

  lemma NotPast(sizes: map<nat, nat>, uses: seq<Use>, i: nat)
    requires i < |uses| && !EntriesOk(sizes, uses[..i + 1])
    ensures !EntriesOk(sizes, uses)
  {
    if EntriesOk(sizes, uses) {
      EntriesPrefix(sizes, uses, i + 1);
    }
  }

  lemma EntriesPrefix(sizes: map<nat, nat>, uses: seq<Use>, k: nat)
    requires EntriesOk(sizes, uses) && k <= |uses|
    ensures EntriesOk(sizes, uses[..k])
  {
    assert Wants(uses[..k]) == Wants(uses)[..k];
  }

  class Driver {
    var status: seq<Status>
    var requests: map<nat, Request>
    var lanes: seq<Lane>
    var queuedCount: nat
    var claimed: bool
    var processing: bool              // no second round while one is under way
    var slots: Table
    var sizes: map<nat, nat>
    var contexts: Contexts
    var files: Files
    var vms: Vms
    var made: nat
    ghost var log: seq<Event>
    ghost var born: set<Thing>
    ghost var freed: multiset<Thing>

    ghost function View(): Sys
      reads this
    {
      Sys(Queues(status, requests, lanes, queuedCount, claimed, log), slots, sizes, contexts, files, vms, made, born, freed)
    }

    constructor ()
      ensures View() == INIT && SysInv(View()) && !processing
    {
      status, requests, lanes, queuedCount, claimed, processing := [], map[], [Lane(None, []), Lane(None, [])], 0, false, false;
      slots, sizes, contexts, files, vms, made := map[], map[], map[], map[], map[], 0;
      log, born, freed := [], {}, multiset{};
      new;
      InitInv();
    }

    // ----------------------------------------------------------------------
    // Fences
    // ----------------------------------------------------------------------

    /** `Fence::poll`, and the status it leaves. */
    method Poll(f: Fence) returns (signaled: bool, code: int)
      ensures signaled == Polled(status, f)
      ensures signaled ==> code == FenceError(status, f)
    {
      for i := 0 to |f|
        invariant forall k :: 0 <= k < i ==> Signaled(status, f[k])
      {
        if !(f[i] < |status| && status[f[i]].Done?) {
          assert f[i] in f;
          return false, 0;
        }
      }
      code := 0;
      var i := 0;
      assert f[0..] == f;
      while i < |f| && code == 0
        invariant 0 <= i <= |f| && Polled(status, f)
        invariant FenceError(status, f) == if code != 0 then code else FenceError(status, f[i..])
      {
        assert f[i..][0] == f[i] && f[i..][1..] == f[i + 1..];
        code := status[f[i]].code;
        i := i + 1;
      }
      return true, code;
    }

    /** `addDependency`. */
    method AddDep(deps: seq<Fence>, f: Fence) returns (deps': seq<Fence>)
      ensures deps' == AddDependency(status, deps, f)
    {
      var signaled, _ := Poll(f);
      if signaled {
        return deps;
      }
      for i := 0 to |deps|
        invariant f !in deps[..i]
      {
        if deps[i] == f {
          return deps;
        }
      }
      return deps + [f];
    }

    /** What a request at the head of a queue still waits for, and the error it would inherit. */
    method CheckDeps(deps: seq<Fence>) returns (ready: bool, failed: int)
      ensures ready == Ready(status, deps)
      ensures ready ==> failed == DepError(status, deps)
    {
      ready, failed := true, 0;
      for d := 0 to |deps|
        invariant ready == Ready(status, deps[..d])
        invariant ready ==> failed == DepError(status, deps[..d])
      {
        assert deps[..d + 1] == deps[..d] + [deps[d]];
        var signaled, code := Poll(deps[d]);
        if !signaled {
          ready := false;
        } else if code < 0 {
          failed := code;
        }
        assert deps[..d + 1][..d] == deps[..d];
      }
      assert deps[..|deps|] == deps;
    }

    /** The dependencies of an execbuffer: implicit ones object by object, then the explicit ones. */
    method Gather(uses: seq<Use>, explicit: seq<Fence>) returns (deps: seq<Fence>)
      requires Known(slots, uses)
      ensures deps == AddDependencies(status, ImplicitDeps(status, slots, uses), explicit)
    {
      deps := [];
      for i := 0 to |uses|
        invariant deps == ImplicitDeps(status, slots, uses[..i])
      {
        var u := uses[i];
        assert u in uses;
        assert uses[..i + 1][..i] == uses[..i] && uses[..i + 1][i] == u;
        if !u.async {
          deps := AddDep(deps, slots[u.obj].write);
          if u.write {
            deps := AddDep(deps, slots[u.obj].users[0]);
            deps := AddDep(deps, slots[u.obj].users[1]);
          }
        }
      }
      assert uses[..|uses|] == uses;
      ghost var implicit := deps;
      for i := 0 to |explicit|
        invariant deps == AddDependencies(status, implicit, explicit[..i])
      {
        assert explicit[..i + 1][..i] == explicit[..i] && explicit[..i + 1][i] == explicit[i];
        deps := AddDep(deps, explicit[i]);
      }
      assert explicit[..|explicit|] == explicit;
    }

    /** The request's fence goes into its objects' slots. */
    method PublishFence(id: nat, e: nat, uses: seq<Use>)
      requires Known(slots, uses) && e < 2
      modifies this`slots
      ensures slots == Publish(old(slots), id, e, uses)
    {
      for i := 0 to |uses|
        invariant slots == Publish(old(slots), id, e, uses[..i])
        invariant Known(slots, uses)
      {
        var u := uses[i];
        assert u in uses;
        assert uses[..i + 1][..i] == uses[..i] && uses[..i + 1][i] == u;
        slots := slots[u.obj := slots[u.obj].(users := slots[u.obj].users[e := [id]])];
        if u.write {
          slots := slots[u.obj := slots[u.obj].(write := [id])];
        }
      }
      assert uses[..|uses|] == uses;
    }

    // ----------------------------------------------------------------------
    // Bindings
    // ----------------------------------------------------------------------

    /** One object's turn in the bind loop: what is in the way is unbound as the list is walked.
        Mapping it may fail; then nothing new is bound. */
    method BindOne(v: nat, want: Binding, mapped: bool) returns (ok: bool)
      requires v in vms
      modifies this`vms
      ensures ok <==> mapped || AnyInPlace(old(vms[v].bindings), want)
      ensures vms == Rebind(old(vms), v, if ok then Place(old(vms[v].bindings), want) else Evict(old(vms[v].bindings), want))
    {
      var list := vms[v].bindings;
      var kept: seq<Binding>, bound := [], false;
      for i := 0 to |list|
        invariant vms == old(vms)
        invariant kept == Evict(list[..i], want)
        invariant bound == AnyInPlace(list[..i], want)
      {
        assert list[..i + 1] == list[..i] + [list[i]];
        FilterAppend((x: Binding) => !InTheWay(x, want), list[..i], [list[i]]);
        var same := list[i].obj == want.obj && list[i].va == want.va;
        var overlaps := want.va < list[i].va + list[i].size && list[i].va < want.va + want.size;
        if same {
          bound := true;
          kept := kept + [list[i]];
        } else if !(overlaps || list[i].obj == want.obj) {
          kept := kept + [list[i]];
        }
      }
      assert list[..|list|] == list;
      ok := true;
      if !bound {
        if mapped {
          kept := [want] + kept;
        } else {
          ok := false;
        }
      }
      vms := vms[v := vms[v].(bindings := kept)];
    }

    /** The bind loop of an execbuffer; it stops at the first object that cannot be mapped. */
    method BindAll(v: nat, wants: seq<Binding>, mapped: nat -> bool) returns (k: nat)
      requires v in vms
      modifies this`vms
      ensures k < |wants| ==> !mapped(k)
      ensures k <= |wants| && vms == Rebind(old(vms), v, PlaceSome(old(vms[v].bindings), wants, k))
    {
      k := 0;
      ghost var was, bs := vms, vms[v].bindings;
      assert was == Rebind(was, v, bs);
      while k < |wants|
        invariant 0 <= k <= |wants|
        invariant vms == Rebind(was, v, bs) && bs == PlaceAll(was[v].bindings, wants[..k])
      {
        PlaceAllNext(was[v].bindings, wants, k);
        var ok := BindOne(v, wants[k], mapped(k));
        if !ok {
          RebindAgain(was, v, bs, Evict(bs, wants[k]));
          return;
        }
        RebindAgain(was, v, bs, Place(bs, wants[k]));
        bs := Place(bs, wants[k]);
        k := k + 1;
      }
      assert wants[..|wants|] == wants;
    }

    // ----------------------------------------------------------------------
    // Releases
    // ----------------------------------------------------------------------

    /** `releaseVm`: with the last reference its bindings and the space itself go. */
    method LetGoOfVm(v: nat)
      requires v in vms && vms[v].refs > 0
      modifies this`vms, this`freed
      ensures View() == ReleaseVm(old(View()), v)
    {
      vms := vms[v := vms[v].(refs := vms[v].refs - 1)];
      if vms[v].refs == 0 {
        vms := vms - {v};
        freed := freed + multiset{AVm(v)};
      }
    }

    /** `freeContext`. */
    method LetGoOfContext(c: nat)
      requires c in contexts && contexts[c].vm in vms && vms[contexts[c].vm].refs > 0
      modifies this`contexts, this`vms, this`freed
      ensures View() == FreeContext(old(View()), c)
    {
      var v := contexts[c].vm;
      contexts := contexts - {c};
      freed := freed + multiset{AContext(c)};
      LetGoOfVm(v);
    }

    method DropEntry(f: nat, c: nat)
      requires f in files && c in contexts && contexts[c].vm in vms && vms[contexts[c].vm].refs > 0
      modifies this`contexts, this`files, this`vms, this`freed
      ensures View() == FreeContext(old(View()), c).(files := old(files[f := files[f].(table := files[f].table - {c})]))
    {
      LetGoOfContext(c);
      files := files[f := files[f].(table := files[f].table - {c})];
    }

    /** The first loop of `destroyFile`. */
    method DropTable(ghost s: Sys, f: nat)
      requires f in s.files && s == View() && LinksOk(contexts, files, vms)
      modifies this`contexts, this`files, this`vms, this`freed
      ensures Dismantled(s, f, s.files[f].table, View())
    {
      ghost var done := {};
      DismantledStart(s, f);
      while files[f].table != {}
        invariant Dismantled(s, f, done, View())
        decreases |files[f].table|
      {
        var c :| c in files[f].table;
        DropListed(s, f, c, done, View());
        DropEntry(f, c);
        done := done + {c};
      }
      assert done == s.files[f].table;
    }

    /** The second. */
    method DropSlots(ghost s: Sys, f: nat, ghost done: set<nat>)
      requires f in s.files && Dismantled(s, f, done, View())
      modifies this`files, this`vms, this`freed
      ensures Dismantled(s, f, done, View()) && files[f].vmIds == map[]
    {
      while files[f].vmIds.Keys != {}
        invariant Dismantled(s, f, done, View())
        decreases |files[f].vmIds.Keys|
      {
        var slot :| slot in files[f].vmIds.Keys;
        DropSlot(s, f, slot, done, View());
        LetGoOfVm(files[f].vmIds[slot]);
        files := files[f := files[f].(vmIds := files[f].vmIds - {slot})];
      }
    }

    /** Everything but the default space. */
    method DropAll(ghost s: Sys, f: nat)
      requires f in s.files && s == View() && LinksOk(contexts, files, vms) && AllListed(contexts, files, f)
      modifies this`contexts, this`files, this`vms, this`freed
      ensures f in files && files[f].defaultVm == s.files[f].defaultVm
      ensures var v := s.files[f].defaultVm;
              && v in vms && vms[v].refs == 1
              && DestroyFile(s, f) == View().(vms := vms - {v}, files := files - {f}, freed := freed + multiset{AVm(v)} + multiset{AFile(f)})
    {
      DropTable(s, f);
      DropSlots(s, f, s.files[f].table);
      DismantledEnd(s, f, View());
    }

    /** `destroyFile`: the contexts one by one, the VM ids one by one, then the default address space. */
    method TearDown(f: nat)
      requires f in files && LinksOk(contexts, files, vms) && AllListed(contexts, files, f)
      modifies this`contexts, this`files, this`vms, this`freed
      ensures View() == DestroyFile(old(View()), f)
    {
      ghost var s := View();
      DropAll(s, f);
      ghost var left, v := View(), s.files[f].defaultVm;
      LetGoOfVm(files[f].defaultVm);
      assert View() == left.(vms := left.vms - {v}, freed := left.freed + multiset{AVm(v)});
      files := files - {f};
      freed := freed + multiset{AFile(f)};
    }

    // ----------------------------------------------------------------------
    // The engines
    // ----------------------------------------------------------------------

    method DropFromContext(c: nat)
      requires c in contexts && contexts[c].pending > 0 && contexts[c].vm in vms && vms[contexts[c].vm].refs > 0
      modifies this`contexts, this`vms, this`freed
      ensures View() == DropContext(old(View()), c)
    {
      contexts := contexts[c := contexts[c].(pending := contexts[c].pending - 1)];
      if contexts[c].pending == 0 && contexts[c].destroyed {
        LetGoOfContext(c);
      }
    }

    /** `retireGemRequest`. */
    method RetireGemRequest(r: Request)
      requires CanDrop(View(), r) && CanTearDown(View(), r)
      modifies this`contexts, this`files, this`vms, this`freed
      ensures View() == DropFile(DropContext(old(View()), r.ctx), r.file)
    {
      DropFromContext(r.ctx);
      files := files[r.file := files[r.file].(inflight := files[r.file].inflight - 1)];
      if files[r.file].inflight == 0 && files[r.file].closed {
        TearDown(r.file);
      }
    }

    /** A request leaves its engine or its queue and its fence is signaled. */
    method TakeOff(e: nat, code: int) returns (id: nat)
      requires CanRetire(View().q, e) && Leaving(View().q, e) < |status| && queuedCount > 0
      modifies this`status, this`lanes, this`queuedCount, this`log
      ensures id == Leaving(old(View().q), e) && View() == old(View().(q := Retire(View().q, e, code)))
    {
      var lane := lanes[e];
      if lane.active.Some? {
        id := lane.active.value;
        lanes := lanes[e := lane.(active := None)];
      } else {
        id := lane.queue[0];
        lanes := lanes[e := lane.(queue := lane.queue[1..])];
      }
      queuedCount := queuedCount - 1;
      status := status[id := Done(code)];
      log := log + [Retired(id, code)];
    }

    method MarkGuilty(c: nat, hung: bool)
      requires c in contexts
      modifies this`contexts
      ensures contexts == old(contexts[c := Blame(contexts[c], hung)])
    {
      if hung && !contexts[c].recoverable && contexts[c].bannable {
        contexts := contexts[c := contexts[c].(banned := true)];
      }
    }

    /** `finishActive`, and the ends of the branches that fail a request without running it. */
    method Finish(e: nat, code: int, hung: bool)
      requires QueueInv(View().q) && Alive(View()) && CanLeave(View(), e, code, hung) && CanLetGo(View(), e)
      modifies this`status, this`lanes, this`queuedCount, this`log, this`contexts, this`files, this`vms, this`freed
      ensures View() == Left(old(View()), e, code, hung)
    {
      LetGoTearsDown(View(), e, code, hung);
      var id := TakeOff(e, code);
      var r := requests[id];
      MarkGuilty(r.ctx, hung);
      RetireGemRequest(r);
    }

    /** The first half of an engine's turn: the request on it may be done, or overdue. */
    method Settle(e: nat, look: Look) returns (moved: bool, ghost t: Option<Step>)
      requires SysInv(View()) && e < 2
      modifies this`status, this`lanes, this`queuedCount, this`log, this`contexts, this`files, this`vms, this`freed
      ensures MovedBy(old(View()), t, View(), look) && moved == t.Some?
      ensures !moved ==> Quiet(View().q, e, look)
    {
      moved, t := false, None;
      if lanes[e].active.Some? {
        var done, overdue := lanes[e].active.value in look.done, lanes[e].active.value in look.late;
        if done || overdue {
          LetGoDefined(View(), e);
          moved, t := true, Some(Leave(e, if done then 0 else -EIO, !done));
          Finish(e, if done then 0 else -EIO, !done);
        }
      }
    }

    /** `dispatch`. */
    method Start(e: nat)
      requires HeadReady(View().q, e)
      modifies this`lanes, this`log
      ensures View() == old(View().(q := Dispatch(View().q, e)))
    {
      var lane := lanes[e];
      log := log + [Started(lane.queue[0])];
      lanes := lanes[e := Lane(Some(lane.queue[0]), lane.queue[1..])];
    }

    /** The second half: the head of the queue runs, fails, or waits for its dependencies. */
    method Advance(e: nat, look: Look) returns (moved: bool, ghost t: Option<Step>)
      requires SysInv(View()) && e < 2
      modifies this`status, this`lanes, this`queuedCount, this`log, this`contexts, this`files, this`vms, this`freed
      ensures MovedBy(old(View()), t, View(), look) && moved == t.Some?
      ensures moved <==> HeadReady(old(View().q), e)
    {
      moved, t := false, None;
      if lanes[e].active.Some? || lanes[e].queue == [] || claimed {
        return;
      }
      HeadKnown(View(), e);
      var r := requests[lanes[e].queue[0]];
      var ready, failed := CheckDeps(r.deps);
      if !ready {
        return;
      }
      moved := true;
      if failed == 0 && contexts[r.ctx].banned {
        failed := -EIO;
      }
      if failed == 0 && e !in look.asleep {
        t := Some(Go(e));
        Start(e);
      } else {
        LetGoDefined(View(), e);
        t := Some(Leave(e, if failed != 0 then failed else -EIO, false));
        Finish(e, if failed != 0 then failed else -EIO, false);
      }
    }

    /** One engine's turn in `processRequests`. */
    method Turn(e: nat, hw: nat -> Look, r: nat, ghost s: Sys, ghost c: Course) returns (moved: bool, ghost c': Course)
      requires SysInv(View()) && e < 2 && r > 0 && Traced(c, s, View(), hw, r)
      modifies this`status, this`lanes, this`queuedCount, this`log, this`contexts, this`files, this`vms, this`freed
      ensures SysInv(View()) && Traced(c', s, View(), hw, r)
      ensures |c'.steps| >= |c.steps| && Lighter(old(View()), View(), |c'.steps| - |c.steps|)
      ensures if moved then |c'.steps| > |c.steps| else View() == old(View()) && c' == c && Still(View().q, e, hw(r - 1))
    {
      ghost var t, mid := None, View();
      moved, t := Settle(e, hw(r - 1));
      c' := TracedMore(c, s, mid, t, View(), hw, r);
      mid := View();
      var more: bool;
      more, t := Advance(e, hw(r - 1));
      c' := TracedMore(c', s, mid, t, View(), hw, r);
      moved := moved || more;
    }

    /** `processRequests`: round and round the engines, a look at the hardware each time, until a round moves nothing. At
        the end no head is ready and nothing that the last look found done or overdue is left on an engine. */
    method ProcessRequests(hw: nat -> Look) returns (ghost steps: seq<Step>, ghost rounds: nat)
      requires SysInv(View())
      modifies this`status, this`lanes, this`queuedCount, this`log, this`contexts, this`files, this`vms, this`freed, this`processing
      ensures SysInv(View()) && EngineRun(old(View()), steps, View(), hw, rounds) && processing == old(processing)
      ensures Run(old(View()), steps, View()) && Lighter(old(View()), View(), |steps|)
      ensures if processing then steps == [] else rounds > 0 && Still(View().q, 0, hw(rounds - 1)) && Still(View().q, 1, hw(rounds - 1))
    {
      steps, rounds := [], 0;
      if processing {
        return;
      }
      processing := true;
      ghost var s, c := View(), Course([], [], []);
      c, rounds := Rounds(hw);
      processing := false;
      steps := c.steps;
      TracedRuns(c, s, View(), hw, rounds);
    }

    method Rounds(hw: nat -> Look) returns (ghost c: Course, ghost rounds: nat)
      requires SysInv(View())
      modifies this`status, this`lanes, this`queuedCount, this`log, this`contexts, this`files, this`vms, this`freed
      ensures SysInv(View()) && Traced(c, old(View()), View(), hw, rounds) && Lighter(old(View()), View(), |c.steps|)
      ensures rounds > 0 && Still(View().q, 0, hw(rounds - 1)) && Still(View().q, 1, hw(rounds - 1))
    {
      ghost var s := View();
      c := Course([s], [], []);
      var progress, r := true, 0;
      while progress
        invariant SysInv(View()) && Traced(c, s, View(), hw, r) && Lighter(s, View(), |c.steps|)
        invariant !progress ==> r > 0 && Still(View().q, 0, hw(r - 1)) && Still(View().q, 1, hw(r - 1))
        decreases Work(s.q) - |c.steps|, progress
      {
        r := r + 1;
        var first, second;
        first, c := Turn(0, hw, r, s, c);
        second, c := Turn(1, hw, r, s, c);
        progress := first || second;
      }
      rounds := r;
    }

    // ----------------------------------------------------------------------
    // Execbuffer
    // ----------------------------------------------------------------------

    /** One entry against those before it. */
    method ClashFree(uses: seq<Use>, u: Use) returns (ok: bool)
      ensures ok <==> forall j :: 0 <= j < |uses| ==> uses[j].obj != u.obj && !Overlap(Want(uses[j]), Want(u))
    {
      for j := 0 to |uses|
        invariant forall k :: 0 <= k < j ==> uses[k].obj != u.obj && !Overlap(Want(uses[k]), Want(u))
      {
        if uses[j].obj == u.obj || (u.va < uses[j].va + uses[j].size && uses[j].va < u.va + u.size) {
          return false;
        }
      }
      return true;
    }

    /** The checks of the object list: every entry, and every two of them. */
    method CheckEntries(entries: seq<Use>) returns (code: int, uses: seq<Use>)
      ensures code == 0 <==> EntriesOk(sizes, SizedAll(sizes, entries))
      ensures code == 0 ==> uses == SizedAll(sizes, entries) && AllAsGiven(sizes, entries, uses)
      ensures code == 0 <==> forall i: nat | i < |entries| :: !Bad(sizes, entries, i)
      ensures code != 0 ==> exists i: nat :: FirstBad(sizes, entries, i) && code == if entries[i].obj in sizes then EINVAL else ENOENT
    {
      uses := [];
      ghost var all := SizedAll(sizes, entries);
      for i := 0 to |entries|
        invariant uses == all[..i] && EntriesOk(sizes, uses)
        invariant forall j: nat | j < i :: !Bad(sizes, entries, j)
        invariant forall j :: 0 <= j < i ==> entries[j].obj in sizes
      {
        var u := Sized(sizes, entries[i]);
        assert all[..i + 1] == uses + [u];
        EntriesMore(sizes, uses, u);
        BadIs(sizes, entries, i);
        if !EntryOk(sizes, u) {
          NotPast(sizes, all, i);
          return if u.obj in sizes then EINVAL else ENOENT, [];
        }
        var ok := ClashFree(uses, u);
        if !ok {
          NotPast(sizes, all, i);
          return EINVAL, [];
        }
        uses := uses + [u];
      }
      assert all[..|entries|] == all;
      SizedAsGiven(sizes, entries);
      code := 0;
    }

    /** Whether a binding is in the way of what is wanted. */
    method MustEvict(v: nat, wants: seq<Binding>) returns (evict: bool)
      requires v in vms
      ensures evict == NeedsEviction(vms[v].bindings, wants)
    {
      var list := vms[v].bindings;
      for b := 0 to |list|
        invariant forall x, w :: x in list[..b] && w in wants ==> !InTheWay(x, w)
      {
        for i := 0 to |wants|
          invariant forall w :: w in wants[..i] ==> !InTheWay(list[b], w)
        {
          var same := list[b].obj == wants[i].obj && list[b].va == wants[i].va;
          var overlaps := wants[i].va < list[b].va + list[b].size && list[b].va < wants[i].va + wants[i].size;
          if !same && (overlaps || list[b].obj == wants[i].obj) {
            assert InTheWay(list[b], wants[i]);
            return true;
          }
        }
        assert wants[..|wants|] == wants;
        assert list[..b + 1] == list[..b] + [list[b]];
      }
      assert list[..|list|] == list;
      return false;
    }

    /** The request with its dependencies: implicit, explicit, and its timeline's. */
    method MakeRequest(p: Submission) returns (r: Request)
      requires Known(slots, p.uses) && p.ctx in contexts
      ensures r == Build(View().q, slots, p.engine, p.file, p.ctx, contexts[p.ctx].vm, p.uses,
                         p.explicit + (if contexts[p.ctx].single then [contexts[p.ctx].timeline] else []))
    {
      var k := contexts[p.ctx];
      var deps := Gather(p.uses, p.explicit + if k.single then [k.timeline] else []);
      r := Request(p.engine, p.file, p.ctx, k.vm, p.uses, deps);
    }

    method Count(c: nat, f: nat)
      requires c in contexts && f in files
      modifies this`contexts, this`files
      ensures contexts == old(contexts[c := Noted(contexts[c], |status|).(pending := contexts[c].pending + 1)])
      ensures files == old(files[f := files[f].(inflight := files[f].inflight + 1)])
    {
      var k := contexts[c];
      contexts := contexts[c := k.(timeline := if k.single then [|status|] else k.timeline, used := true, pending := k.pending + 1)];
      files := files[f := files[f].(inflight := files[f].inflight + 1)];
    }

    /** Its fence is published, and it is counted. */
    method Announce(p: Submission)
      requires Known(slots, p.uses) && p.engine < 2 && p.ctx in contexts && p.file in files
      modifies this`slots, this`contexts, this`files
      ensures View() == Announced(old(View()), p)
    {
      ghost var s := View();
      PublishFence(|status|, p.engine, p.uses);
      Count(p.ctx, p.file);
      assert View() == s.(slots := slots, contexts := contexts, files := files);
    }

    method Prepare(p: Submission, ghost s: Sys) returns (r: Request)
      requires CanSubmit(s, p) && View() == BoundFor(s, p)
      modifies this`slots, this`contexts, this`files
      ensures r == RequestOf(s, p) && View() == Counting(s, p)
    {
      r := MakeRequest(p);
      Announce(p);
    }

    /** `queueRequest`, without the `processRequests` at its end; `code` is what preparing the engine comes to. */
    method QueueRequest(r: Request, code: int)
      requires |lanes| == 2 && r.engine < 2 && code <= 0
      modifies this`status, this`requests, this`lanes, this`queuedCount, this`log
      ensures View() == if code == 0 then old(View().(q := Enqueue(View().q, r))) else old(View())
    {
      if code < 0 {
        return;
      }
      var id := |status|;
      status := status + [Pending];
      requests := requests[id := r];
      lanes := lanes[r.engine := lanes[r.engine].(queue := lanes[r.engine].queue + [id])];
      queuedCount := queuedCount + 1;
      log := log + [Accepted(id)];
    }

    method TakeBack(p: Submission, ghost s: Sys, r: Request, code: int)
      requires Alive(s) && CanSubmit(s, p) && View() == Counting(s, p) && r == RequestOf(s, p)
      modifies this`status, this`contexts, this`files, this`vms, this`freed
      ensures View() == RefusedSys(s, p, code)
    {
      status := status + [Done(code)];
      RefusalUncounts(s, p, code);
      assert View() == Counting(s, p).(q := Refuse(s.q, code));
      RetireGemRequest(r);
    }

    /** The tail of an execbuffer. A request that cannot be queued is retired on the spot. */
    method Commit(p: Submission, ghost s: Sys, code: int)
      requires SysInv(s) && CanSubmit(s, p) && View() == BoundFor(s, p) && code <= 0
      modifies this`slots, this`contexts, this`files, this`status, this`requests, this`lanes, this`queuedCount, this`log, this`vms, this`freed
      ensures View() == if code == 0 then Submitted(s, p) else RefusedSys(s, p, code)
    {
      var r := Prepare(p, s);
      QueueRequest(r, code);
      if code == 0 {
        SubmittedIs(s, p);
      } else {
        TakeBack(p, s, r, code);
      }
    }

    /** The tests of an execbuffer, in order, and whether it would have to sleep. */
    method Tests(given: Submission, env: Env) returns (out: Outcome, uses: seq<Use>)
      requires SysInv(View()) && given.file in files
      ensures Tested(View(), given, env, out)
      ensures out == Queued <==> env.tables && env.image && Passes(View(), given.(uses := SizedAll(sizes, given.uses)))
      ensures out == Queued ==> uses == SizedAll(sizes, given.uses) && AllAsGiven(sizes, given.uses, uses)
    {
      uses := [];
      if given.ctx !in files[given.file].table {
        return Failed(ENOENT), [];
      }
      ListedKnown(View(), given.file, given.ctx);
      if given.uses == [] {
        return Failed(EINVAL), [];
      }
      var code, sized := CheckEntries(given.uses);
      if code != 0 {
        return Failed(code), [];
      }
      if !env.tables {
        return Failed(ENOMEM), [];
      }
      KnownEntries(sizes, given.uses);
      CrowdedIs(sizes, vms[contexts[given.ctx].vm].bindings, given.uses);
      var evict := MustEvict(contexts[given.ctx].vm, Wants(sized));
      if (evict && files[given.file].inflight != 0) || queuedCount >= MAX_QUEUED {
        return MustWait, [];
      }
      if contexts[given.ctx].banned {
        return Failed(EIO), [];
      }
      if !env.image {
        return Failed(ENOMEM), [];
      }
      return Queued, sized;
    }

    /** From here nothing sleeps: bind, then queue. Binding may run out of page tables, and
        making the request may run out of memory. */
    method BindAndQueue(p: Submission, env: Env) returns (out: Outcome, ghost t: Option<Step>)
      requires SysInv(View()) && CanSubmit(View(), p) && env.queued <= 0
      modifies this`slots, this`contexts, this`files, this`status, this`requests, this`lanes, this`queuedCount, this`log, this`vms, this`freed
      ensures t.Some? && Ended(old(View()), p, out, t, View()) && StepTells(t.value, p, env, out)
    {
      ghost var s := View();
      var k := BindAll(contexts[p.ctx].vm, Wants(p.uses), env.mapped);
      assert View() == AbortedSys(s, p, k);
      if k < |p.uses| || !env.memory {
        return Failed(if k < |p.uses| then ENOSPC else ENOMEM), Some(Aborted(p, k));
      }
      Commit(p, s, env.queued);
      if env.queued == 0 {
        return Queued, Some(Submit(p));
      } else {
        return Failed(-env.queued), Some(Refused(p, env.queued));
      }
    }

    method Perform(p: Submission, env: Env) returns (out: Outcome, ghost steps: seq<Step>)
      requires SysInv(View()) && CanSubmit(View(), p) && env.queued <= 0
      modifies this`slots, this`contexts, this`files, this`status, this`requests, this`lanes, this`queuedCount, this`log,
               this`vms, this`freed, this`processing
      ensures Run(old(View()), steps, View()) && steps != [] && StepTells(steps[0], p, env, out)
      ensures SysInv(View()) <==> (steps[0].Refused? ==> Spares(old(View().q), old(slots), p.engine, p.uses, true))
      ensures out == Queued && !processing ==> AtRest(View().q, env.hw)
    {
      ghost var s, t := View(), None;
      out, t := BindAndQueue(p, env);
      ghost var mid, rest, rounds := View(), [], 0;
      EndedKeeps(s, p, out, t.value, mid);
      if out == Queued {
        rest, rounds := ProcessRequests(env.hw);
      }
      EndedRun(s, p, out, t.value, mid, rest, View());
      steps := [t.value] + rest;
    }

    /** A submission that has passed the tests. */
    method Proceed(given: Submission, uses: seq<Use>, env: Env) returns (out: Outcome, ghost steps: seq<Step>)
      requires SysInv(View()) && CanSubmit(View(), given.(uses := uses)) && AllAsGiven(sizes, given.uses, uses) && env.queued <= 0
      modifies this`slots, this`contexts, this`files, this`status, this`requests, this`lanes, this`queuedCount, this`log,
               this`vms, this`freed, this`processing
      ensures Run(old(View()), steps, View()) && steps != [] && StepSays(steps[0], given, old(sizes), env, out)
      ensures SysInv(View()) <==> (steps[0].Refused? ==> Spares(old(View().q), old(slots), given.engine, steps[0].p.uses, true))
      ensures out == Queued ==> Recorded(View().q, |old(status)|, given, old(View())) && (!processing ==> AtRest(View().q, env.hw))
    {
      ghost var s := View();
      var p := given.(uses := uses);
      out, steps := Perform(p, env);
      SaysOn(steps[0], given, p, sizes, env, out);
      if out == Queued {
        RecordedAfter(s, p, steps, View(), given);
      }
    }

    /** A pass of an execbuffer that does not sleep. It changes something exactly when its tests
        pass. What it does is then one step of the system, and if it queued a request, what the
        engines make of it at once. */
    method Execbuffer(given: Submission, env: Env) returns (out: Outcome, ghost steps: seq<Step>)
      requires SysInv(View()) && Explicit(View().q, given.explicit) && given.engine < 2
      requires given.file in files && !files[given.file].closed && env.queued <= 0
      modifies this`slots, this`contexts, this`files, this`status, this`requests, this`lanes, this`queuedCount, this`log,
               this`vms, this`freed, this`processing
      ensures Run(old(View()), steps, View())
      ensures Tested(old(View()), given, env, if steps == [] then out else Queued) && (steps == [] ==> out != Queued)
      ensures steps != [] <==> env.tables && env.image && CanSubmit(old(View()), given.(uses := SizedAll(old(sizes), given.uses)))
      ensures steps != [] ==> StepSays(steps[0], given, old(sizes), env, out)
      ensures out == Queued ==> Recorded(View().q, |old(status)|, given, old(View())) && (!processing ==> AtRest(View().q, env.hw))
      ensures SysInv(View()) <==> (steps != [] && steps[0].Refused? ==> Spares(old(View().q), old(slots), given.engine, steps[0].p.uses, true))
    {
      steps := [];
      SizedTwice(sizes, given.uses);
      PassesIsCanSubmit(View(), given.(uses := SizedAll(sizes, given.uses)));
      var uses;
      out, uses := Tests(given, env);
      if out == Queued {
        out, steps := Proceed(given, uses, env);
      }
    }

    // ----------------------------------------------------------------------
    // Closing and destroying
    // ----------------------------------------------------------------------

    /** `nodeClose`. */
    method Close(f: nat)
      requires SysInv(View()) && f in files
      modifies this`contexts, this`files, this`vms, this`freed
      ensures View() == Closed(old(View()), f)
    {
      if files[f].inflight == 0 {
        IdleFileListed(View(), f);
        ClosedLinks(View(), f);
      }
      files := files[f := files[f].(closed := true)];
      if files[f].inflight == 0 {
        TearDown(f);
      }
    }

    /** `doContextDestroy`. */
    method DestroyContext(f: nat, c: nat) returns (code: int)
      requires SysInv(View()) && f in files
      modifies this`contexts, this`files, this`vms, this`freed
      ensures code == if c in old(files[f].table) && c != old(files[f].defaultCtx) then 0 else ENOENT
      ensures if code == 0 then CanDestroy(old(View()), c) && View() == WithoutContext(old(View()), c) else View() == old(View())
    {
      if c !in files[f].table || c == files[f].defaultCtx {
        return ENOENT;
      }
      assert FileOk(contexts, files, vms, f);
      assert ContextOk(contexts, files, vms, c) && RefOk(contexts, files, vms, contexts[c].vm);
      files := files[f := files[f].(table := files[f].table - {c})];
      contexts := contexts[c := contexts[c].(destroyed := true)];
      if contexts[c].pending == 0 {
        LetGoOfContext(c);
      }
      return 0;
    }

    /** `unbindAll` of one object in one address space. */
    method UnbindAll(v: nat, obj: nat)
      requires v in vms
      modifies this`vms
      ensures vms == Rebind(old(vms), v, Without(old(vms[v].bindings), obj))
    {
      var list := vms[v].bindings;
      var kept: seq<Binding> := [];
      for i := 0 to |list|
        invariant vms == old(vms) && kept == Without(list[..i], obj)
      {
        assert list[..i + 1] == list[..i] + [list[i]];
        FilterAppend((x: Binding) => x.obj != obj, list[..i], [list[i]]);
        if list[i].obj != obj {
          kept := kept + [list[i]];
        }
      }
      assert list[..|list|] == list;
      vms := vms[v := vms[v].(bindings := kept)];
    }

    /** `unbindObject`. */
    method UnbindEverywhere(f: nat, obj: nat)
      modifies this`vms
      ensures vms == UnbindObject(old(vms), f, obj)
    {
      var left := vms.Keys;
      while left != {}
        invariant left <= vms.Keys == old(vms).Keys
        invariant forall v :: v in vms ==> vms[v] == if v in left then old(vms)[v] else UnbindObject(old(vms), f, obj)[v]
        decreases |left|
      {
        var v :| v in left;
        if vms[v].file == f {
          UnbindAll(v, obj);
        }
        left := left - {v};
      }
    }
  }
}
