/**
 Who keeps whom alive: files, contexts and address spaces, the counts of unretired requests
 on files and contexts, and the references on address spaces.
 */
module Lifetimes {
  import opened Basics
  import opened Bindings
  import opened RequestQueue
  import opened ImplicitFencing

  datatype Context = Context(
    file: nat,
    vm: nat,
    pending: nat,         // how many requests name it and have not retired
    destroyed: bool,      // given up by its owner, kept for those requests
    used: bool,           // a request was queued: its address space is fixed
    banned: bool,
    recoverable: bool,
    bannable: bool,
    single: bool,         // SINGLE_TIMELINE
    timeline: Fence)

  datatype File = File(
    inflight: nat,        // the same count over all its contexts
    closed: bool,
    table: set<nat>,      // its contexts by id
    defaultVm: nat,
    vmIds: map<nat, nat>,
    defaultCtx: nat)      // context 0, which stays

  datatype Vm = Vm(file: nat, refs: nat, bindings: seq<Binding>)

  datatype Thing = AContext(id: nat) | AFile(id: nat) | AVm(id: nat)

  type Contexts = map<nat, Context>
  type Files = map<nat, File>
  type Vms = map<nat, Vm>
  type Requests = map<nat, Request>

  datatype Sys = Sys(
    q: Queues,
    slots: Table,
    sizes: map<nat, nat>,          // of the objects made so far
    contexts: Contexts,
    files: Files,
    vms: Vms,
    made: nat,                     // names handed out
    born: set<Thing>,
    freed: multiset<Thing>)        // every free, however often

  // ------------------------------------------------------------------------
  // Letting go
  // ------------------------------------------------------------------------

  function Released(vms: Vms, v: nat): Vms
    requires v in vms && vms[v].refs > 0
  {
    if vms[v].refs == 1 then vms - {v} else vms[v := vms[v].(refs := vms[v].refs - 1)]
  }

  function FreedWith(vms: Vms, v: nat): multiset<Thing>
    requires v in vms
  {
    if vms[v].refs == 1 then multiset{AVm(v)} else multiset{}
  }

  /** `releaseVm`. */
  function ReleaseVm(s: Sys, v: nat): Sys
    requires v in s.vms && s.vms[v].refs > 0
  {
    s.(vms := Released(s.vms, v), freed := s.freed + FreedWith(s.vms, v))
  }

  /** `freeContext`. */
  function FreeContext(s: Sys, c: nat): Sys
    requires c in s.contexts && s.contexts[c].vm in s.vms && s.vms[s.contexts[c].vm].refs > 0
  {
    ReleaseVm(s.(contexts := s.contexts - {c}, freed := s.freed + multiset{AContext(c)}), s.contexts[c].vm)
  }

  ghost function OwnedVms(vms: Vms, f: nat): set<nat> {
    set v | v in vms && vms[v].file == f
  }

  ghost function FreedWithFile(file: File, f: nat, owned: set<nat>): multiset<Thing> {
    ContextThings(file.table) + VmThings(owned) + multiset{AFile(f)}
  }

  ghost function ContextThings(cs: set<nat>): multiset<Thing> {
    multiset(set c | c in cs :: AContext(c))
  }

  ghost function VmThings(vs: set<nat>): multiset<Thing> {
    multiset(set v | v in vs :: AVm(v))
  }

  /** `destroyFile`: a file with everything in it, its contexts and its address spaces. */
  ghost function DestroyFile(s: Sys, f: nat): Sys
    requires f in s.files
  {
    s.(contexts := s.contexts - s.files[f].table,
       vms := s.vms - OwnedVms(s.vms, f),
       files := s.files - {f},
       freed := s.freed + FreedWithFile(s.files[f], f, OwnedVms(s.vms, f)))
  }

  function Unpend(contexts: Contexts, c: nat): Contexts
    requires c in contexts && contexts[c].pending > 0
  {
    contexts[c := contexts[c].(pending := contexts[c].pending - 1)]
  }

  /** `--context->pending`, and the free that may follow. */
  function DropContext(s: Sys, c: nat): Sys
    requires c in s.contexts && s.contexts[c].pending > 0
    requires s.contexts[c].vm in s.vms && s.vms[s.contexts[c].vm].refs > 0
  {
    var left := s.(contexts := Unpend(s.contexts, c));
    if left.contexts[c].pending == 0 && left.contexts[c].destroyed then FreeContext(left, c) else left
  }

  function Unflight(files: Files, f: nat): Files
    requires f in files && files[f].inflight > 0
  {
    files[f := files[f].(inflight := files[f].inflight - 1)]
  }

  /** `--file->inflight`, and the destruction that may follow. */
  ghost function DropFile(s: Sys, f: nat): Sys
    requires f in s.files && s.files[f].inflight > 0
  {
    var left := s.(files := Unflight(s.files, f));
    if left.files[f].inflight == 0 && left.files[f].closed then DestroyFile(left, f) else left
  }

  /** A hung batch (`context_mark_guilty`): a context that cannot recover is banned. */
  function Blame(c: Context, hung: bool): Context {
    if hung && !c.recoverable && c.bannable then c.(banned := true) else c
  }

  // ------------------------------------------------------------------------
  // What every step keeps. `p` are the requests that still count for their context, `g` those
  // that still count for their file; between steps both are the unretired ones.
  // ------------------------------------------------------------------------

  ghost function OfContext(requests: Requests, p: set<nat>, c: nat): set<nat> {
    set id | id in p && id in requests && requests[id].ctx == c
  }

  ghost function OfFile(requests: Requests, g: set<nat>, f: nat): set<nat> {
    set id | id in g && id in requests && requests[id].file == f
  }

  /** Each context's `pending` counts its requests. */
  ghost predicate PendingOk(contexts: Contexts, requests: Requests, p: set<nat>) {
    forall c {:trigger OfContext(requests, p, c)} :: c in contexts ==> contexts[c].pending == |OfContext(requests, p, c)|
  }

  /** Each file's `inflight` counts its requests. */
  ghost predicate InflightOk(files: Files, requests: Requests, g: set<nat>) {
    forall f {:trigger OfFile(requests, g, f)} :: f in files ==> files[f].inflight == |OfFile(requests, g, f)|
  }

  ghost function ContextHolders(contexts: Contexts, v: nat): set<nat> {
    set c | c in contexts && contexts[c].vm == v
  }

  ghost function SlotHolders(ids: map<nat, nat>, v: nat): set<nat> {
    set i | i in ids && ids[i] == v
  }

  /** How many hold a reference on an address space: contexts, ids, and the file it is the default of. */
  ghost function HolderCount(contexts: Contexts, file: File, v: nat): nat {
    |ContextHolders(contexts, v)| + |SlotHolders(file.vmIds, v)| + (if file.defaultVm == v then 1 else 0)
  }

  ghost predicate RefOk(contexts: Contexts, files: Files, vms: Vms, v: nat)
    requires v in vms
  {
    && vms[v].file in files
    && vms[v].refs == HolderCount(contexts, files[vms[v].file], v)
    && vms[v].refs > 0
  }

  ghost predicate RefsOk(contexts: Contexts, files: Files, vms: Vms) {
    forall v {:trigger RefOk(contexts, files, vms, v)} :: v in vms ==> RefOk(contexts, files, vms, v)
  }

  ghost predicate ContextOk(contexts: Contexts, files: Files, vms: Vms, c: nat)
    requires c in contexts
  {
    var k := contexts[c];
    && k.file in files
    && k.vm in vms && vms[k.vm].file == k.file
    && (k.destroyed <==> c !in files[k.file].table)
  }

  ghost predicate ContextsOk(contexts: Contexts, files: Files, vms: Vms) {
    forall c {:trigger ContextOk(contexts, files, vms, c)} :: c in contexts ==> ContextOk(contexts, files, vms, c)
  }

  ghost predicate FileOk(contexts: Contexts, files: Files, vms: Vms, f: nat)
    requires f in files
  {
    var k := files[f];
    && (forall c :: c in k.table ==> c in contexts && contexts[c].file == f)
    && k.defaultVm in vms && vms[k.defaultVm].file == f
    && (forall i :: i in k.vmIds ==> k.vmIds[i] in vms && vms[k.vmIds[i]].file == f)
  }

  ghost predicate FilesOk(contexts: Contexts, files: Files, vms: Vms) {
    forall f {:trigger FileOk(contexts, files, vms, f)} :: f in files ==> FileOk(contexts, files, vms, f)
  }

  /** A destroyed context or a closed file is only there for its requests. */
  ghost predicate DestroyedPending(contexts: Contexts) {
    forall c :: c in contexts && contexts[c].destroyed ==> contexts[c].pending > 0
  }

  ghost predicate ClosedInflight(files: Files) {
    forall f :: f in files && files[f].closed ==> files[f].inflight > 0
  }

  /** A request keeps its context, with the address space and file it was queued for. */
  ghost predicate RequestOk(contexts: Contexts, requests: Requests, id: nat) {
    && id in requests
    && requests[id].ctx in contexts
    && contexts[requests[id].ctx].file == requests[id].file
    && contexts[requests[id].ctx].vm == requests[id].vm
    && contexts[requests[id].ctx].used
  }

  ghost predicate RequestsOk(contexts: Contexts, requests: Requests, p: set<nat>) {
    forall id {:trigger RequestOk(contexts, requests, id)} :: id in p ==> RequestOk(contexts, requests, id)
  }

  ghost predicate RequestFiles(files: Files, requests: Requests, g: set<nat>) {
    forall id :: id in g ==> id in requests && requests[id].file in files
  }

  /** Every object a request lists is bound where it was placed. */
  ghost predicate Bound(vms: Vms, r: Request) {
    && r.vm in vms
    && forall u :: u in r.uses ==> Binding(u.va, u.size, u.obj) in vms[r.vm].bindings
  }

  ghost predicate BoundAt(vms: Vms, requests: Requests, id: nat) {
    id in requests && Bound(vms, requests[id])
  }

  ghost predicate BoundOk(vms: Vms, requests: Requests, live: set<nat>) {
    forall id {:trigger BoundAt(vms, requests, id)} :: id in live ==> BoundAt(vms, requests, id)
  }

  /** In every address space bindings never overlap, name an object once, and have its size. */
  ghost predicate VmsOk(vms: Vms, sizes: map<nat, nat>) {
    forall v {:trigger Fits(vms[v].bindings, sizes)} :: v in vms ==> Fits(vms[v].bindings, sizes)
  }

  ghost predicate Fits(bs: seq<Binding>, sizes: map<nat, nat>) {
    Apart(bs) && forall b :: b in bs ==> b.obj in sizes && b.size == sizes[b.obj]
  }

  ghost predicate Present(contexts: Contexts, files: Files, vms: Vms, t: Thing) {
    match t
    case AContext(c) => c in contexts
    case AFile(f) => f in files
    case AVm(v) => v in vms
  }

  /** What was made is either still there or was freed exactly once. */
  ghost predicate FreedOk(contexts: Contexts, files: Files, vms: Vms, born: set<Thing>, freed: multiset<Thing>) {
    && (forall t {:trigger freed[t]} :: t in born ==> freed[t] == if Present(contexts, files, vms, t) then 0 else 1)
    && (forall t {:trigger freed[t]} :: t !in born ==> freed[t] == 0)
    && (forall c {:trigger AContext(c)} :: c in contexts ==> AContext(c) in born)
    && (forall f {:trigger AFile(f)} :: f in files ==> AFile(f) in born)
    && (forall v {:trigger AVm(v)} :: v in vms ==> AVm(v) in born)
  }

  ghost predicate LinksOk(contexts: Contexts, files: Files, vms: Vms) {
    ContextsOk(contexts, files, vms) && FilesOk(contexts, files, vms) && RefsOk(contexts, files, vms)
  }

  ghost predicate LifeInv(s: Sys, p: set<nat>, g: set<nat>) {
    && s.q.LiveIds() <= p <= g
    && LinksOk(s.contexts, s.files, s.vms)
    && PendingOk(s.contexts, s.q.requests, p) && DestroyedPending(s.contexts)
    && InflightOk(s.files, s.q.requests, g) && ClosedInflight(s.files)
    && RequestsOk(s.contexts, s.q.requests, p)
    && RequestFiles(s.files, s.q.requests, g)
    && BoundOk(s.vms, s.q.requests, s.q.LiveIds())
    && VmsOk(s.vms, s.sizes)
    && FreedOk(s.contexts, s.files, s.vms, s.born, s.freed)
  }

  // ------------------------------------------------------------------------
  // References
  // ------------------------------------------------------------------------

  lemma OneLess(before: set<nat>, after: set<nat>, x: nat)
    requires x in before && after == before - {x}
    ensures |after| == |before| - 1
  {
  }

  lemma ContextHoldersWithout(contexts: Contexts, c: nat, v: nat)
    requires c in contexts
    ensures |ContextHolders(contexts - {c}, v)| == |ContextHolders(contexts, v)| - if contexts[c].vm == v then 1 else 0
  {
    var before, after := ContextHolders(contexts, v), ContextHolders(contexts - {c}, v);
    assert after == before - {c};
    if contexts[c].vm == v {
      OneLess(before, after, c);
    } else {
      assert after == before;
    }
  }

  lemma SlotHoldersWithout(ids: map<nat, nat>, i: nat, v: nat)
    requires i in ids
    ensures |SlotHolders(ids - {i}, v)| == |SlotHolders(ids, v)| - if ids[i] == v then 1 else 0
  {
    var before, after := SlotHolders(ids, v), SlotHolders(ids - {i}, v);
    assert after == before - {i};
    if ids[i] == v {
      OneLess(before, after, i);
    } else {
      assert after == before;
    }
  }

  lemma EmptyHolders(contexts: Contexts, file: File, v: nat)
    requires HolderCount(contexts, file, v) == 0
    ensures forall c :: c in contexts ==> contexts[c].vm != v
    ensures forall i :: i in file.vmIds ==> file.vmIds[i] != v
    ensures file.defaultVm != v
  {
    assert forall c :: c in contexts && contexts[c].vm == v ==> c in ContextHolders(contexts, v);
    assert forall i :: i in file.vmIds && file.vmIds[i] == v ==> i in SlotHolders(file.vmIds, v);
  }

  /** Taking away one holder's reference keeps every count right. */
  lemma ReleaseRefs(contexts: Contexts, files: Files, contexts': Contexts, files': Files, vms: Vms, v: nat)
    requires RefsOk(contexts, files, vms) && v in vms && RefOk(contexts, files, vms, v)
    requires files'.Keys == files.Keys
    requires forall w :: w in vms && vms[w].file in files ==>
               HolderCount(contexts', files'[vms[w].file], w)
               == HolderCount(contexts, files[vms[w].file], w) - (if w == v then 1 else 0)
    ensures RefsOk(contexts', files', Released(vms, v))
  {
    var vms' := Released(vms, v);
    forall w | w in vms'
      ensures RefOk(contexts', files', vms', w)
    {
      assert RefOk(contexts, files, vms, w);
    }
  }

  /** With its last reference an address space is named by no one: what is left when it goes
      links nowhere else. */
  lemma ReleaseLinks(contexts: Contexts, files: Files, contexts': Contexts, files': Files, vms: Vms, v: nat)
    requires RefsOk(contexts, files, vms) && v in vms && RefOk(contexts, files, vms, v)
    requires files'.Keys == files.Keys
    requires forall w :: w in vms && vms[w].file in files ==>
               HolderCount(contexts', files'[vms[w].file], w)
               == HolderCount(contexts, files[vms[w].file], w) - (if w == v then 1 else 0)
    requires ContextsOk(contexts', files', vms) && FilesOk(contexts', files', vms)
    ensures LinksOk(contexts', files', Released(vms, v))
  {
    var vms', f := Released(vms, v), vms[v].file;
    ReleaseRefs(contexts, files, contexts', files', vms, v);
    if vms[v].refs == 1 {
      EmptyHolders(contexts', files'[f], v);
    }
    forall c | c in contexts'
      ensures ContextOk(contexts', files', vms', c)
    {
      assert ContextOk(contexts', files', vms, c);
    }
    forall k | k in files'
      ensures FileOk(contexts', files', vms', k)
    {
      assert FileOk(contexts', files', vms, k);
    }
  }

  /** Nothing else names an address space that goes with this context. */
  lemma FreeContextLinks(contexts: Contexts, files: Files, vms: Vms, c: nat)
    requires LinksOk(contexts, files, vms)
    requires c in contexts && contexts[c].vm in vms && vms[contexts[c].vm].refs > 0
    requires contexts[c].file in files ==> c !in files[contexts[c].file].table
    ensures LinksOk(contexts - {c}, files, Released(vms, contexts[c].vm))
  {
    var v := contexts[c].vm;
    assert RefOk(contexts, files, vms, v) && ContextOk(contexts, files, vms, c);
    forall w | w in vms && vms[w].file in files
      ensures HolderCount(contexts - {c}, files[vms[w].file], w)
              == HolderCount(contexts, files[vms[w].file], w) - if w == v then 1 else 0
    {
      ContextHoldersWithout(contexts, c, w);
    }
    forall k | k in contexts - {c}
      ensures ContextOk(contexts - {c}, files, vms, k)
    {
      assert ContextOk(contexts, files, vms, k);
    }
    forall f | f in files
      ensures FileOk(contexts - {c}, files, vms, f)
    {
      assert FileOk(contexts, files, vms, f);
    }
    ReleaseLinks(contexts, files, contexts - {c}, files, vms, v);
  }

  lemma FreedAfterContext(s: Sys, c: nat)
    requires FreedOk(s.contexts, s.files, s.vms, s.born, s.freed)
    requires c in s.contexts && s.contexts[c].vm in s.vms && s.vms[s.contexts[c].vm].refs > 0
    ensures var s' := FreeContext(s, c); FreedOk(s'.contexts, s'.files, s'.vms, s'.born, s'.freed)
  {
    var s' := FreeContext(s, c);
    forall t | t in s.born
      ensures s'.freed[t] == if Present(s'.contexts, s'.files, s'.vms, t) then 0 else 1
    {
      assert s.freed[t] == if Present(s.contexts, s.files, s.vms, t) then 0 else 1;
    }
  }

  /** A request's address space outlives any reference but its context's. */
  lemma ReleasedKeepsBound(vms: Vms, requests: Requests, live: set<nat>, v: nat)
    requires v in vms && vms[v].refs > 0 && BoundOk(vms, requests, live)
    requires vms[v].refs == 1 ==> forall id :: id in live && id in requests ==> requests[id].vm != v
    ensures BoundOk(Released(vms, v), requests, live)
  {
    forall id | id in live
      ensures BoundAt(Released(vms, v), requests, id)
    {
      assert BoundAt(vms, requests, id);
    }
  }

  /** Two contexts in one address space are two references. */
  lemma SharedVm(contexts: Contexts, files: Files, vms: Vms, v: nat, c: nat, k: nat)
    requires v in vms && RefOk(contexts, files, vms, v)
    requires c in contexts && k in contexts && c != k && contexts[c].vm == v && contexts[k].vm == v
    ensures vms[v].refs >= 2
  {
    SubsetCardinality({c, k}, ContextHolders(contexts, v));
  }

  // ------------------------------------------------------------------------
  // Retirement
  // ------------------------------------------------------------------------

  lemma SameHolders(contexts: Contexts, contexts': Contexts, file: File, v: nat)
    requires contexts'.Keys == contexts.Keys && forall c :: c in contexts ==> contexts'[c].vm == contexts[c].vm
    ensures HolderCount(contexts', file, v) == HolderCount(contexts, file, v)
  {
    assert ContextHolders(contexts', v) == ContextHolders(contexts, v);
  }

  /** Changing what a context counts or remembers moves no link. */
  lemma SameLinks(contexts: Contexts, contexts': Contexts, files: Files, vms: Vms)
    requires LinksOk(contexts, files, vms)
    requires contexts'.Keys == contexts.Keys
    requires forall c :: c in contexts ==>
               && contexts'[c].vm == contexts[c].vm && contexts'[c].file == contexts[c].file
               && contexts'[c].destroyed == contexts[c].destroyed
    ensures LinksOk(contexts', files, vms)
  {
    forall c | c in contexts'
      ensures ContextOk(contexts', files, vms, c)
    {
      assert ContextOk(contexts, files, vms, c);
    }
    forall f | f in files
      ensures FileOk(contexts', files, vms, f)
    {
      assert FileOk(contexts, files, vms, f);
    }
    forall v | v in vms
      ensures RefOk(contexts', files, vms, v)
    {
      assert RefOk(contexts, files, vms, v);
      SameHolders(contexts, contexts', files[vms[v].file], v);
    }
  }

  lemma UnpendCounts(contexts: Contexts, requests: Requests, p: set<nat>, id: nat)
    requires PendingOk(contexts, requests, p) && id in p && id in requests && requests[id].ctx in contexts
    ensures contexts[requests[id].ctx].pending > 0
    ensures PendingOk(Unpend(contexts, requests[id].ctx), requests, p - {id})
  {
    var c := requests[id].ctx;
    assert id in OfContext(requests, p, c);
    forall k | k in contexts
      ensures Unpend(contexts, c)[k].pending == |OfContext(requests, p - {id}, k)|
    {
      assert OfContext(requests, p - {id}, k) == OfContext(requests, p, k) - {id};
    }
  }

  /** Dropping a retired request's hold on its context. */
  lemma DropContextLife(s: Sys, p: set<nat>, g: set<nat>, id: nat)
    requires LifeInv(s, p, g) && id in p && id !in s.q.LiveIds()
    ensures id in s.q.requests
    ensures var c := s.q.requests[id].ctx;
            && c in s.contexts && s.contexts[c].pending > 0
            && s.contexts[c].vm in s.vms && s.vms[s.contexts[c].vm].refs > 0
            && LifeInv(DropContext(s, c), p - {id}, g)
  {
    assert RequestOk(s.contexts, s.q.requests, id);
    var c, p' := s.q.requests[id].ctx, p - {id};
    assert ContextOk(s.contexts, s.files, s.vms, c) && RefOk(s.contexts, s.files, s.vms, s.contexts[c].vm);
    UnpendCounts(s.contexts, s.q.requests, p, id);
    var left := s.(contexts := Unpend(s.contexts, c));
    assert left.contexts.Keys == s.contexts.Keys;
    SameLinks(s.contexts, left.contexts, s.files, s.vms);
    SameRequests(s.contexts, left.contexts, s.q.requests, p');
    if left.contexts[c].pending == 0 && left.contexts[c].destroyed {
      FreeDestroyed(left, p', g, c);
    }
  }

  lemma SameRequests(contexts: Contexts, contexts': Contexts, requests: Requests, p: set<nat>)
    requires RequestsOk(contexts, requests, p)
    requires forall c :: c in contexts ==>
               && c in contexts' && contexts'[c].vm == contexts[c].vm
               && contexts'[c].file == contexts[c].file && (contexts[c].used ==> contexts'[c].used)
    ensures RequestsOk(contexts', requests, p)
  {
    forall id | id in p
      ensures RequestOk(contexts', requests, id)
    {
      assert RequestOk(contexts, requests, id);
    }
  }

  /** The free of a destroyed context whose last request has gone. */
  lemma FreeDestroyed(s: Sys, p: set<nat>, g: set<nat>, c: nat)
    requires s.q.LiveIds() <= p <= g
    requires LinksOk(s.contexts, s.files, s.vms) && c in s.contexts && s.contexts[c].vm in s.vms
    requires s.vms[s.contexts[c].vm].refs > 0
    requires s.contexts[c].file in s.files && c !in s.files[s.contexts[c].file].table
    requires PendingOk(s.contexts, s.q.requests, p) && s.contexts[c].pending == 0
    requires forall k :: k in s.contexts && k != c && s.contexts[k].destroyed ==> s.contexts[k].pending > 0
    requires InflightOk(s.files, s.q.requests, g) && ClosedInflight(s.files)
    requires RequestsOk(s.contexts, s.q.requests, p) && RequestFiles(s.files, s.q.requests, g)
    requires BoundOk(s.vms, s.q.requests, s.q.LiveIds()) && VmsOk(s.vms, s.sizes)
    requires FreedOk(s.contexts, s.files, s.vms, s.born, s.freed)
    ensures LifeInv(FreeContext(s, c), p, g)
  {
    var v, s' := s.contexts[c].vm, FreeContext(s, c);
    FreeContextLinks(s.contexts, s.files, s.vms, c);
    FreedAfterContext(s, c);
    assert OfContext(s.q.requests, p, c) == {};
    forall id | id in p
      ensures RequestOk(s'.contexts, s.q.requests, id) && s.q.requests[id].ctx != c
    {
      assert RequestOk(s.contexts, s.q.requests, id);
      assert id !in OfContext(s.q.requests, p, c);
    }
    assert RefOk(s.contexts, s.files, s.vms, v);
    forall id | id in s.q.LiveIds() && s.vms[v].refs == 1
      ensures s.q.requests[id].vm != v
    {
      assert RequestOk(s.contexts, s.q.requests, id);
      if s.q.requests[id].vm == v {
        SharedVm(s.contexts, s.files, s.vms, v, c, s.q.requests[id].ctx);
      }
    }
    ReleasedKeepsBound(s.vms, s.q.requests, s.q.LiveIds(), v);
  }

  lemma UnflightCounts(files: Files, requests: Requests, g: set<nat>, id: nat)
    requires InflightOk(files, requests, g) && id in g && id in requests && requests[id].file in files
    ensures files[requests[id].file].inflight > 0
    ensures InflightOk(Unflight(files, requests[id].file), requests, g - {id})
  {
    var f := requests[id].file;
    assert id in OfFile(requests, g, f);
    forall k | k in files
      ensures Unflight(files, f)[k].inflight == |OfFile(requests, g - {id}, k)|
    {
      assert OfFile(requests, g - {id}, k) == OfFile(requests, g, k) - {id};
    }
  }

  lemma SameFileLinks(contexts: Contexts, files: Files, files': Files, vms: Vms)
    requires LinksOk(contexts, files, vms)
    requires files'.Keys == files.Keys
    requires forall f :: f in files ==>
               && files'[f].table == files[f].table && files'[f].vmIds == files[f].vmIds
               && files'[f].defaultVm == files[f].defaultVm
    ensures LinksOk(contexts, files', vms)
  {
    forall c | c in contexts
      ensures ContextOk(contexts, files', vms, c)
    {
      assert ContextOk(contexts, files, vms, c);
    }
    forall f | f in files'
      ensures FileOk(contexts, files', vms, f)
    {
      assert FileOk(contexts, files, vms, f);
    }
    forall v | v in vms
      ensures RefOk(contexts, files', vms, v)
    {
      assert RefOk(contexts, files, vms, v);
    }
  }

  /** Nothing of a destroyed file is left. */
  ghost predicate Gone(s: Sys, f: nat) {
    && f !in s.files
    && (forall c :: c in s.contexts ==> s.contexts[c].file != f)
    && (forall v :: v in s.vms ==> s.vms[v].file != f)
  }

  /** Dropping a retired request's hold on its file; a closed file goes with its last request,
      and nothing of it is left behind. */
  lemma DropFileLife(s: Sys, p: set<nat>, g: set<nat>, id: nat)
    requires LifeInv(s, p, g) && id in g && id !in p
    ensures id in s.q.requests
    ensures var f := s.q.requests[id].file;
            && f in s.files && s.files[f].inflight > 0
            && LifeInv(DropFile(s, f), p, g - {id})
            && (f !in DropFile(s, f).files ==> Gone(DropFile(s, f), f))
  {
    var f, g' := s.q.requests[id].file, g - {id};
    UnflightCounts(s.files, s.q.requests, g, id);
    var left := s.(files := Unflight(s.files, f));
    assert left.files.Keys == s.files.Keys;
    SameFileLinks(s.contexts, s.files, left.files, s.vms);
    if left.files[f].inflight == 0 && left.files[f].closed {
      DestroyFileLife(left, p, g', f);
    }
  }

  /** When a file's requests are done, its table names all its contexts. */
  lemma TableComplete(s: Sys, p: set<nat>, g: set<nat>, f: nat)
    requires p <= g && f in s.files
    requires ContextsOk(s.contexts, s.files, s.vms) && FilesOk(s.contexts, s.files, s.vms)
    requires PendingOk(s.contexts, s.q.requests, p) && DestroyedPending(s.contexts)
    requires RequestsOk(s.contexts, s.q.requests, p)
    requires OfFile(s.q.requests, g, f) == {}
    ensures forall c :: c in s.contexts ==> (c in s.files[f].table <==> s.contexts[c].file == f)
  {
    assert FileOk(s.contexts, s.files, s.vms, f);
    forall c | c in s.contexts && s.contexts[c].file == f
      ensures c in s.files[f].table
    {
      assert ContextOk(s.contexts, s.files, s.vms, c);
      ContextsRequestsInFile(s.contexts, s.q.requests, p, g, c);
    }
  }

  lemma ContextsRequestsInFile(contexts: Contexts, requests: Requests, p: set<nat>, g: set<nat>, c: nat)
    requires p <= g && RequestsOk(contexts, requests, p) && c in contexts
    ensures OfContext(requests, p, c) <= OfFile(requests, g, contexts[c].file)
  {
    forall id | id in OfContext(requests, p, c)
      ensures id in OfFile(requests, g, contexts[c].file)
    {
      assert RequestOk(contexts, requests, id);
    }
  }

  lemma DestroyedLinks(contexts: Contexts, files: Files, vms: Vms, f: nat)
    requires LinksOk(contexts, files, vms) && f in files
    requires forall c :: c in contexts ==> (c in files[f].table <==> contexts[c].file == f)
    ensures LinksOk(contexts - files[f].table, files - {f}, vms - OwnedVms(vms, f))
  {
    var contexts', files', vms' := contexts - files[f].table, files - {f}, vms - OwnedVms(vms, f);
    forall c | c in contexts'
      ensures ContextOk(contexts', files', vms', c)
    {
      assert ContextOk(contexts, files, vms, c);
    }
    forall k | k in files'
      ensures FileOk(contexts', files', vms', k)
    {
      assert FileOk(contexts, files, vms, k);
    }
    forall v | v in vms'
      ensures RefOk(contexts', files', vms', v)
    {
      assert RefOk(contexts, files, vms, v);
      OtherFilesHolders(contexts, files, vms, f, v);
    }
  }

  lemma OtherFilesHolders(contexts: Contexts, files: Files, vms: Vms, f: nat, v: nat)
    requires ContextsOk(contexts, files, vms) && f in files
    requires forall c :: c in contexts ==> (c in files[f].table <==> contexts[c].file == f)
    requires v in vms && vms[v].file != f && vms[v].file in files
    ensures HolderCount(contexts - files[f].table, files[vms[v].file], v) == HolderCount(contexts, files[vms[v].file], v)
  {
    forall c | c in contexts && contexts[c].vm == v
      ensures c in contexts - files[f].table
    {
      assert ContextOk(contexts, files, vms, c);
    }
    assert ContextHolders(contexts - files[f].table, v) == ContextHolders(contexts, v);
  }

  /** Each of its things once, and nothing else. */
  lemma FreedWithFileIs(file: File, f: nat, owned: set<nat>, t: Thing)
    ensures FreedWithFile(file, f, owned)[t] ==
            if (t.AContext? && t.id in file.table) || (t.AVm? && t.id in owned) || t == AFile(f) then 1 else 0
  {
    assert t in (set c | c in file.table :: AContext(c)) <==> t.AContext? && t.id in file.table;
    assert t in (set v | v in owned :: AVm(v)) <==> t.AVm? && t.id in owned;
  }

  lemma FreedAfterFile(s: Sys, f: nat)
    requires FreedOk(s.contexts, s.files, s.vms, s.born, s.freed) && f in s.files
    requires forall c :: c in s.files[f].table ==> c in s.contexts
    ensures var s' := DestroyFile(s, f); FreedOk(s'.contexts, s'.files, s'.vms, s'.born, s'.freed)
  {
    var s', owned := DestroyFile(s, f), OwnedVms(s.vms, f);
    forall t | t in s.born
      ensures s'.freed[t] == if Present(s'.contexts, s'.files, s'.vms, t) then 0 else 1
    {
      FreedWithFileIs(s.files[f], f, owned, t);
      assert s.freed[t] == if Present(s.contexts, s.files, s.vms, t) then 0 else 1;
    }
    forall t | t in s'.freed
      ensures t in s.born
    {
      FreedWithFileIs(s.files[f], f, owned, t);
    }
  }

  lemma DestroyFileLife(s: Sys, p: set<nat>, g: set<nat>, f: nat)
    requires s.q.LiveIds() <= p <= g && f in s.files
    requires LinksOk(s.contexts, s.files, s.vms)
    requires PendingOk(s.contexts, s.q.requests, p) && DestroyedPending(s.contexts)
    requires InflightOk(s.files, s.q.requests, g) && s.files[f].inflight == 0
    requires forall k :: k in s.files && k != f && s.files[k].closed ==> s.files[k].inflight > 0
    requires RequestsOk(s.contexts, s.q.requests, p) && RequestFiles(s.files, s.q.requests, g)
    requires BoundOk(s.vms, s.q.requests, s.q.LiveIds()) && VmsOk(s.vms, s.sizes)
    requires FreedOk(s.contexts, s.files, s.vms, s.born, s.freed)
    ensures LifeInv(DestroyFile(s, f), p, g) && Gone(DestroyFile(s, f), f)
  {
    var s' := DestroyFile(s, f);
    assert OfFile(s.q.requests, g, f) == {};
    TableComplete(s, p, g, f);
    DestroyedLinks(s.contexts, s.files, s.vms, f);
    assert FileOk(s.contexts, s.files, s.vms, f);
    FreedAfterFile(s, f);
    forall id | id in g
      ensures s.q.requests[id].file != f
    {
      assert id !in OfFile(s.q.requests, g, f);
    }
    forall id | id in p
      ensures RequestOk(s'.contexts, s.q.requests, id)
    {
      assert RequestOk(s.contexts, s.q.requests, id);
    }
    forall id | id in s.q.LiveIds()
      ensures BoundAt(s'.vms, s.q.requests, id)
    {
      assert BoundAt(s.vms, s.q.requests, id) && RequestOk(s.contexts, s.q.requests, id);
      assert ContextOk(s.contexts, s.files, s.vms, s.q.requests[id].ctx);
    }
  }
}
