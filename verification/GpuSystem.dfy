/**
 The whole driver as a step system. One step is what runs without sleeping: the tail of an
 execbuffer, one engine's turn in `processRequests`, or another ioctl's body. Completion and
 hangs of the hardware come at any time.
 */
module GpuSystem {
  import opened Bindings
  import opened RequestQueue
  import opened ImplicitFencing
  import opened Lifetimes

  const MAX_QUEUED := 512
  const PAGE := 4096
  const VA_LIMIT := 0x1_0000_0000_0000
  const EIO := 5

  datatype Submission = Submission(file: nat, ctx: nat, engine: nat, uses: seq<Use>, explicit: seq<Fence>)

  datatype Step =
    | Submit(p: Submission)
    | Refused(p: Submission, code: int)            // queueRequest failed
    | Aborted(p: Submission, k: nat)               // failed after binding its first k objects
    | Go(e: nat)
    | Leave(e: nat, code: int, hung: bool)
    | Unbind(file: nat, obj: nat)                  // GEM_CLOSE, SET_CACHING
    | Import(obj: nat, write: bool, fence: Fence)
    | NewObject(size: nat)
    | Claim(on: bool)                              // gpu-test takes the engines, or gives them back
    | Life(l: LifeStep)

  /** The ioctls that make and unmake files, contexts and address spaces. */
  datatype LifeStep =
    | Open
    | CloseFile(file: nat)
    | NewContext(file: nat, single: bool)
    | DestroyContext(ctx: nat)
    | Tune(ctx: nat, recoverable: bool, bannable: bool)
    | NewVm(file: nat, slot: nat)
    | DropVm(file: nat, slot: nat)
    | NameVm(ctx: nat, slot: nat)
    | SetVm(ctx: nat, slot: nat)

  // ------------------------------------------------------------------------
  // Execbuffer
  // ------------------------------------------------------------------------

  function Want(u: Use): Binding {
    Binding(u.va, u.size, u.obj)
  }

  function Wants(uses: seq<Use>): (ws: seq<Binding>)
    ensures |ws| == |uses|
    ensures forall i :: 0 <= i < |uses| ==> ws[i] == Want(uses[i])
    ensures forall u :: u in uses ==> Want(u) in ws
  {
    var ws := seq(|uses|, i requires 0 <= i < |uses| => Want(uses[i]));
    assert forall i :: 0 <= i < |uses| ==> ws[i] in ws;
    ws
  }

  /** What an execbuffer has checked, and waited for, when it comes to bind and queue. */
  ghost predicate CanSubmit(s: Sys, p: Submission) {
    && p.file in s.files && !s.files[p.file].closed
    && p.ctx in s.files[p.file].table && p.ctx in s.contexts
    && !s.contexts[p.ctx].banned
    && s.contexts[p.ctx].vm in s.vms
    && p.engine < 2 && |s.q.lanes| == 2
    && p.uses != []
    && Known(s.slots, p.uses)
    && (forall u :: u in p.uses ==> u.obj in s.sizes && u.size == s.sizes[u.obj] && u.va % PAGE == 0 && u.va + u.size <= VA_LIMIT)
    && Apart(Wants(p.uses))
    && Explicit(s.q, p.explicit)
    && (NeedsEviction(s.vms[s.contexts[p.ctx].vm].bindings, Wants(p.uses)) ==> s.files[p.file].inflight == 0)
    && s.q.queuedCount < MAX_QUEUED
  }

  ghost function RequestOf(s: Sys, p: Submission): Request
    requires CanSubmit(s, p)
  {
    var k := s.contexts[p.ctx];
    Build(s.q, s.slots, p.engine, p.file, p.ctx, k.vm, p.uses, p.explicit + (if k.single then [k.timeline] else []))
  }

  function Rebind(vms: Vms, v: nat, bs: seq<Binding>): Vms
    requires v in vms
  {
    vms[v := vms[v].(bindings := bs)]
  }

  function Noted(k: Context, id: nat): Context {
    k.(used := true, timeline := if k.single then [id] else k.timeline)
  }

  ghost function Submitted(s: Sys, p: Submission): Sys
    requires CanSubmit(s, p)
  {
    var k, v, id := s.contexts[p.ctx], s.contexts[p.ctx].vm, |s.q.status|;
    s.(q := Enqueue(s.q, RequestOf(s, p)),
       slots := Publish(s.slots, id, p.engine, p.uses),
       contexts := s.contexts[p.ctx := Noted(k, id).(pending := k.pending + 1)],
       files := s.files[p.file := s.files[p.file].(inflight := s.files[p.file].inflight + 1)],
       vms := Rebind(s.vms, v, PlaceAll(s.vms[v].bindings, Wants(p.uses))))
  }

  /** `queueRequest` refused: the fence is signaled with the error and the counts go back. */
  ghost function RefusedSys(s: Sys, p: Submission, code: int): Sys
    requires CanSubmit(s, p)
  {
    var k, v, id := s.contexts[p.ctx], s.contexts[p.ctx].vm, |s.q.status|;
    s.(q := Refuse(s.q, code),
       slots := Publish(s.slots, id, p.engine, p.uses),
       contexts := s.contexts[p.ctx := Noted(k, id)],
       vms := Rebind(s.vms, v, PlaceAll(s.vms[v].bindings, Wants(p.uses))))
  }

  ghost function AbortedSys(s: Sys, p: Submission, k: nat): Sys
    requires CanSubmit(s, p) && k <= |p.uses|
  {
    var v := s.contexts[p.ctx].vm;
    s.(vms := Rebind(s.vms, v, PlaceSome(s.vms[v].bindings, Wants(p.uses), k)))
  }

  // ------------------------------------------------------------------------
  // The engines
  // ------------------------------------------------------------------------

  /** The context of the request at the head of an engine's queue is banned. */
  ghost predicate HeadBanned(s: Sys, e: nat)
    requires HeadReady(s.q, e)
  {
    var c := s.q.requests[s.q.lanes[e].queue[0]].ctx;
    c in s.contexts && s.contexts[c].banned
  }

  ghost function HeadError(s: Sys, e: nat): int
    requires HeadReady(s.q, e)
  {
    DepError(s.q.status, s.q.requests[s.q.lanes[e].queue[0]].deps)
  }

  ghost predicate CanGo(s: Sys, e: nat) {
    HeadReady(s.q, e) && HeadError(s, e) == 0 && !HeadBanned(s, e)
  }

  /** A running request completes or hangs; a head with a failed dependency, a banned context or
      an engine that cannot be woken fails without running. */
  ghost predicate CanLeave(s: Sys, e: nat, code: int, hung: bool) {
    && CanRetire(s.q, e) && Leaving(s.q, e) < |s.q.status| && s.q.queuedCount > 0
    && if s.q.lanes[e].active.Some? then (if hung then code == -EIO else code == 0)
       else !hung && if HeadError(s, e) != 0 then code == HeadError(s, e) else code == -EIO
  }

  /** The retiring request still has a context and a file to let go of. */
  ghost predicate CanLetGo(s: Sys, e: nat)
    requires CanRetire(s.q, e)
  {
    var id := Leaving(s.q, e);
    && id in s.q.requests
    && s.q.requests[id].ctx in s.contexts && s.contexts[s.q.requests[id].ctx].pending > 0
    && s.contexts[s.q.requests[id].ctx].vm in s.vms && s.vms[s.contexts[s.q.requests[id].ctx].vm].refs > 0
    && s.q.requests[id].file in s.files && s.files[s.q.requests[id].file].inflight > 0
  }

  /** The engine's part of a retirement: the fence is signaled. */
  ghost function Signal(s: Sys, e: nat, code: int, hung: bool): Sys
    requires CanLeave(s, e, code, hung) && CanLetGo(s, e)
  {
    var c := s.q.requests[Leaving(s.q, e)].ctx;
    s.(q := Retire(s.q, e, code), contexts := s.contexts[c := Blame(s.contexts[c], hung)])
  }

  /** Then `retireGemRequest` lets go of everything the request held. */
  ghost function Left(s: Sys, e: nat, code: int, hung: bool): Sys
    requires CanLeave(s, e, code, hung) && CanLetGo(s, e)
  {
    var r := s.q.requests[Leaving(s.q, e)];
    DropFile(DropContext(Signal(s, e, code, hung), r.ctx), r.file)
  }

  // ------------------------------------------------------------------------
  // The other ioctls
  // ------------------------------------------------------------------------

  /** `objectIdle`. */
  predicate ObjectIdle(q: Queues, slots: Slots)
    requires |slots.users| == 2
  {
    Polled(q.status, slots.users[0]) && Polled(q.status, slots.users[1]) && Polled(q.status, slots.write)
  }

  /** `unbindObject`: out of every address space of the file. */
  function UnbindObject(vms: Vms, f: nat, obj: nat): Vms {
    map v | v in vms :: if vms[v].file == f then vms[v].(bindings := Without(vms[v].bindings, obj)) else vms[v]
  }

  ghost function Opened(s: Sys): Sys {
    var f, v, c := s.made, s.made + 1, s.made + 2;
    s.(files := s.files[f := File(0, false, {c}, v, map[], c)],
       vms := s.vms[v := Vm(f, 2, [])],
       contexts := s.contexts[c := Context(f, v, 0, false, false, false, true, true, false, [])],
       made := s.made + 3,
       born := s.born + {AFile(f), AVm(v), AContext(c)})
  }

  ghost function Closed(s: Sys, f: nat): Sys
    requires f in s.files
  {
    var left := s.(files := s.files[f := s.files[f].(closed := true)]);
    if left.files[f].inflight == 0 then DestroyFile(left, f) else left
  }

  function Retained(vms: Vms, v: nat): Vms
    requires v in vms
  {
    vms[v := vms[v].(refs := vms[v].refs + 1)]
  }

  ghost function WithContext(s: Sys, f: nat, single: bool): Sys
    requires f in s.files && s.files[f].defaultVm in s.vms
  {
    var c, v := s.made, s.files[f].defaultVm;
    s.(contexts := s.contexts[c := Context(f, v, 0, false, false, false, true, true, single, [])],
       files := s.files[f := s.files[f].(table := s.files[f].table + {c})],
       vms := Retained(s.vms, v),
       made := s.made + 1,
       born := s.born + {AContext(c)})
  }

  ghost predicate CanDestroy(s: Sys, c: nat) {
    && c in s.contexts && s.contexts[c].file in s.files
    && c in s.files[s.contexts[c].file].table && c != s.files[s.contexts[c].file].defaultCtx
    && s.contexts[c].vm in s.vms && s.vms[s.contexts[c].vm].refs > 0
  }

  ghost function WithoutContext(s: Sys, c: nat): Sys
    requires CanDestroy(s, c)
  {
    var f := s.contexts[c].file;
    var left := s.(files := s.files[f := s.files[f].(table := s.files[f].table - {c})],
                   contexts := s.contexts[c := s.contexts[c].(destroyed := true)]);
    if s.contexts[c].pending != 0 then left else FreeContext(left, c)
  }

  ghost function WithVm(s: Sys, f: nat, slot: nat): Sys
    requires f in s.files
  {
    var v := s.made;
    s.(vms := s.vms[v := Vm(f, 1, [])],
       files := s.files[f := s.files[f].(vmIds := s.files[f].vmIds[slot := v])],
       made := s.made + 1,
       born := s.born + {AVm(v)})
  }

  ghost predicate CanDropVm(s: Sys, f: nat, slot: nat) {
    && f in s.files && slot in s.files[f].vmIds
    && s.files[f].vmIds[slot] in s.vms && s.vms[s.files[f].vmIds[slot]].refs > 0
  }

  ghost function WithoutVm(s: Sys, f: nat, slot: nat): Sys
    requires CanDropVm(s, f, slot)
  {
    var v := s.files[f].vmIds[slot];
    ReleaseVm(s.(files := s.files[f := s.files[f].(vmIds := s.files[f].vmIds - {slot})]), v)
  }

  ghost function NamedVm(s: Sys, c: nat, slot: nat): Sys
    requires c in s.contexts && s.contexts[c].vm in s.vms && s.contexts[c].file in s.files
  {
    var f, v := s.contexts[c].file, s.contexts[c].vm;
    s.(vms := Retained(s.vms, v),
       files := s.files[f := s.files[f].(vmIds := s.files[f].vmIds[slot := v])])
  }

  ghost predicate CanSetVm(s: Sys, c: nat, slot: nat) {
    && c in s.contexts && !s.contexts[c].used && s.contexts[c].file in s.files
    && c in s.files[s.contexts[c].file].table
    && slot in s.files[s.contexts[c].file].vmIds
    && s.files[s.contexts[c].file].vmIds[slot] in s.vms
    && s.contexts[c].vm in s.vms && s.vms[s.contexts[c].vm].refs > 0
  }

  /** The new reference is taken before the old one is let go. */
  ghost function VmSet(s: Sys, c: nat, slot: nat): Sys
    requires CanSetVm(s, c, slot)
  {
    var v := s.files[s.contexts[c].file].vmIds[slot];
    ReleaseVm(s.(vms := Retained(s.vms, v), contexts := s.contexts[c := s.contexts[c].(vm := v)]), s.contexts[c].vm)
  }

  // ------------------------------------------------------------------------
  // Steps and runs
  // ------------------------------------------------------------------------

  ghost predicate Enabled(s: Sys, t: Step) {
    match t
    case Submit(p) => CanSubmit(s, p)
    case Refused(p, code) => CanSubmit(s, p) && code < 0
    case Aborted(p, k) => CanSubmit(s, p) && k <= |p.uses|
    case Go(e) => CanGo(s, e)
    case Leave(e, code, hung) => CanLeave(s, e, code, hung) && CanLetGo(s, e)
    case Unbind(f, o) => f in s.files && o in s.slots && |s.slots[o].users| == 2 && ObjectIdle(s.q, s.slots[o])
    case Import(o, write, fence) =>
      o in s.slots && |s.slots[o].users| == 2 && forall x :: x in fence ==> x < |s.q.status|
    case NewObject(size) => size > 0 && size % PAGE == 0
    case Claim(on) => if on then s.q.queuedCount == 0 && !s.q.claimed else s.q.claimed
    case Life(l) => LifeEnabled(s, l)
  }

  ghost predicate LifeEnabled(s: Sys, l: LifeStep) {
    match l
    case Open => true
    case CloseFile(f) => f in s.files && !s.files[f].closed
    case NewContext(f, single) => f in s.files && !s.files[f].closed && s.files[f].defaultVm in s.vms
    case DestroyContext(c) => CanDestroy(s, c)
    case Tune(c, r, b) => c in s.contexts
    case NewVm(f, slot) => f in s.files && slot !in s.files[f].vmIds
    case DropVm(f, slot) => CanDropVm(s, f, slot)
    case NameVm(c, slot) =>
      && c in s.contexts && s.contexts[c].vm in s.vms && s.contexts[c].file in s.files
      && slot !in s.files[s.contexts[c].file].vmIds
    case SetVm(c, slot) => CanSetVm(s, c, slot)
  }

  ghost function Apply(s: Sys, t: Step): Sys
    requires Enabled(s, t)
  {
    match t
    case Submit(p) => Submitted(s, p)
    case Refused(p, code) => RefusedSys(s, p, code)
    case Aborted(p, k) => AbortedSys(s, p, k)
    case Go(e) => s.(q := Dispatch(s.q, e))
    case Leave(e, code, hung) => Left(s, e, code, hung)
    case Unbind(f, o) => s.(vms := UnbindObject(s.vms, f, o))
    case Import(o, write, fence) => s.(slots := s.slots[o := ImportInto(s.q.status, s.slots[o], write, fence)])
    case NewObject(size) => s.(slots := s.slots[s.made := NO_FENCES], sizes := s.sizes[s.made := size], made := s.made + 1)
    case Claim(on) => s.(q := s.q.(claimed := on))
    case Life(l) => LifeApply(s, l)
  }

  ghost function LifeApply(s: Sys, l: LifeStep): Sys
    requires LifeEnabled(s, l)
  {
    match l
    case Open => Opened(s)
    case CloseFile(f) => Closed(s, f)
    case NewContext(f, single) => WithContext(s, f, single)
    case DestroyContext(c) => WithoutContext(s, c)
    case Tune(c, r, b) => s.(contexts := s.contexts[c := s.contexts[c].(recoverable := r, bannable := b)])
    case NewVm(f, slot) => WithVm(s, f, slot)
    case DropVm(f, slot) => WithoutVm(s, f, slot)
    case NameVm(c, slot) => NamedVm(s, c, slot)
    case SetVm(c, slot) => VmSet(s, c, slot)
  }

  const INIT := Sys(EMPTY, map[], map[], map[], map[], map[], 0, {}, multiset{})

  ghost predicate Run(s: Sys, steps: seq<Step>, s': Sys)
    decreases |steps|
  {
    if steps == [] then s' == s
    else Enabled(s, steps[0]) && Run(Apply(s, steps[0]), steps[1..], s')
  }
}
