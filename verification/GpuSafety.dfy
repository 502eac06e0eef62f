/** What every step of the driver keeps, and what follows for every run. */
module GpuSafety {
  import opened Bindings
  import opened RequestQueue
  import opened ImplicitFencing
  import opened Lifetimes
  import opened GpuSystem

  ghost predicate NamesOk(s: Sys) {
    && s.slots.Keys == s.sizes.Keys
    && (forall o :: o in s.slots ==> o < s.made)
    && (forall t :: t in s.born ==> t.id < s.made)
  }

  ghost predicate TimelinesOk(s: Sys) {
    forall c, x :: c in s.contexts && x in s.contexts[c].timeline ==> x < |s.q.status|
  }

  ghost predicate Alive(s: Sys) {
    LifeInv(s, s.q.LiveIds(), s.q.LiveIds())
  }

  /** Queues, slots and names are in order. Every step keeps this, whatever came before. */
  ghost predicate Sound(s: Sys) {
    QueueInv(s.q) && SlotsOk(s.q, s.slots) && NamesOk(s) && TimelinesOk(s)
  }

  /** So are lifetimes and bindings. Every step but an unbinding keeps this. */
  ghost predicate Core(s: Sys) {
    Sound(s) && Alive(s)
  }

  /** And no object looks idle while an unretired request uses it, nor ever will, whatever is submitted; or, not
      `wild`, if it is without `EXEC_OBJECT_ASYNC`. */
  ghost predicate SysInv(s: Sys, wild: bool := true) {
    Core(s) && UsersCovered(s.q, s.slots, wild)
  }

  // ------------------------------------------------------------------------
  // Address spaces
  // ------------------------------------------------------------------------

  lemma SameVmLinks(contexts: Contexts, files: Files, vms: Vms, vms': Vms)
    requires LinksOk(contexts, files, vms) && vms'.Keys == vms.Keys
    requires forall v :: v in vms ==> vms'[v].file == vms[v].file && vms'[v].refs == vms[v].refs
    ensures LinksOk(contexts, files, vms')
  {
    forall c | c in contexts
      ensures ContextOk(contexts, files, vms', c)
    {
      assert ContextOk(contexts, files, vms, c);
    }
    forall f | f in files
      ensures FileOk(contexts, files, vms', f)
    {
      assert FileOk(contexts, files, vms, f);
    }
    forall v | v in vms'
      ensures RefOk(contexts, files, vms', v)
    {
      assert RefOk(contexts, files, vms, v);
    }
  }

  lemma SameFreed(s: Sys, contexts': Contexts, files': Files, vms': Vms)
    requires FreedOk(s.contexts, s.files, s.vms, s.born, s.freed)
    requires contexts'.Keys == s.contexts.Keys && files'.Keys == s.files.Keys && vms'.Keys == s.vms.Keys
    ensures FreedOk(contexts', files', vms', s.born, s.freed)
  {
  }

  /** Changing what is bound is fine as long as what unretired requests use stays. */
  lemma BindingsLife(s: Sys, vms': Vms)
    requires Alive(s) && vms'.Keys == s.vms.Keys
    requires forall v :: v in s.vms ==> vms'[v].file == s.vms[v].file && vms'[v].refs == s.vms[v].refs
    requires VmsOk(vms', s.sizes) && BoundOk(vms', s.q.requests, s.q.LiveIds())
    ensures Alive(s.(vms := vms'))
  {
    SameVmLinks(s.contexts, s.files, s.vms, vms');
    SameFreed(s, s.contexts, s.files, vms');
  }

  lemma RebindLife(s: Sys, v: nat, bs: seq<Binding>)
    requires Alive(s) && v in s.vms && Fits(bs, s.sizes)
    requires forall id, b :: id in s.q.LiveIds() && id in s.q.requests && s.q.requests[id].vm == v && b in s.vms[v].bindings ==> b in bs
    ensures Alive(s.(vms := Rebind(s.vms, v, bs)))
  {
    var vms' := Rebind(s.vms, v, bs);
    assert vms'.Keys == s.vms.Keys;
    forall id | id in s.q.LiveIds()
      ensures BoundAt(vms', s.q.requests, id)
    {
      assert BoundAt(s.vms, s.q.requests, id);
    }
    BindingsLife(s, vms');
  }

  lemma EvictMembers(bs: seq<Binding>, b: Binding)
    ensures forall x :: x in Evict(bs, b) <==> x in bs && !InTheWay(x, b)
  {
  }

  /** What an execbuffer makes of the bindings it found: they still fit, everything it wants is
      there, and without an eviction nothing was lost. */
  lemma PlacedFits(bs: seq<Binding>, sizes: map<nat, nat>, wants: seq<Binding>, k: nat)
    requires Fits(bs, sizes) && Fits(wants, sizes) && k <= |wants|
    ensures Fits(PlaceSome(bs, wants, k), sizes)
    ensures k == |wants| ==> forall w :: w in wants ==> w in PlaceSome(bs, wants, k)
    ensures !NeedsEviction(bs, wants) ==> forall x :: x in bs ==> x in PlaceSome(bs, wants, k)
  {
    var head := wants[..k];
    assert Apart(head) && forall w :: w in head ==> w in wants;
    assert SizesAgree(bs, head);
    PlaceAllMembers(bs, head);
    PlaceAllApart(bs, head);
    if k < |wants| {
      FilterApart((x: Binding) => !InTheWay(x, wants[k]), PlaceAll(bs, head));
      EvictMembers(PlaceAll(bs, head), wants[k]);
      assert wants[k] in wants;
    } else {
      assert head == wants;
    }
  }

  lemma WantsFit(s: Sys, p: Submission)
    requires CanSubmit(s, p)
    ensures Fits(Wants(p.uses), s.sizes) && Distinct(p.uses)
  {
  }

  /** With none of a file's requests in flight, none runs in its address spaces. */
  lemma NoneInVm(s: Sys, c: nat, id: nat)
    requires Alive(s) && c in s.contexts && id in s.q.LiveIds()
    requires s.contexts[c].file in s.files && s.files[s.contexts[c].file].inflight == 0
    ensures id in s.q.requests && s.q.requests[id].vm != s.contexts[c].vm
  {
    var live := s.q.LiveIds();
    assert RequestOk(s.contexts, s.q.requests, id);
    var r := s.q.requests[id];
    assert ContextOk(s.contexts, s.files, s.vms, c) && ContextOk(s.contexts, s.files, s.vms, r.ctx);
    assert OfFile(s.q.requests, live, s.contexts[c].file) == {};
    assert id !in OfFile(s.q.requests, live, s.contexts[c].file);
  }

  lemma PlaceLife(s: Sys, p: Submission, k: nat)
    requires Alive(s) && CanSubmit(s, p) && k <= |p.uses|
    ensures var v := s.contexts[p.ctx].vm;
            && Alive(s.(vms := Rebind(s.vms, v, PlaceSome(s.vms[v].bindings, Wants(p.uses), k))))
            && (k == |p.uses| ==>
                  forall u :: u in p.uses ==> Want(u) in PlaceSome(s.vms[v].bindings, Wants(p.uses), k))
  {
    var v := s.contexts[p.ctx].vm;
    var bs := s.vms[v].bindings;
    WantsFit(s, p);
    PlacedFits(bs, s.sizes, Wants(p.uses), k);
    assert ContextOk(s.contexts, s.files, s.vms, p.ctx);
    assert FileOk(s.contexts, s.files, s.vms, p.file);
    if NeedsEviction(bs, Wants(p.uses)) {
      forall id | id in s.q.LiveIds()
        ensures id in s.q.requests && s.q.requests[id].vm != v
      {
        NoneInVm(s, p.ctx, id);
      }
    }
    RebindLife(s, v, PlaceSome(bs, Wants(p.uses), k));
  }

  // ------------------------------------------------------------------------
  // Execbuffer
  // ------------------------------------------------------------------------

  ghost function Counted(s: Sys, r: Request, k: Context): Sys
    requires |s.q.lanes| == 2 && r.engine < 2 && r.file in s.files
  {
    s.(q := Enqueue(s.q, r),
       contexts := s.contexts[r.ctx := k],
       files := s.files[r.file := s.files[r.file].(inflight := s.files[r.file].inflight + 1)])
  }

  lemma LiveAfterEnqueue(q: Queues, r: Request)
    requires |q.lanes| == 2 && r.engine < 2
    ensures Enqueue(q, r).LiveIds() == q.LiveIds() + {|q.status|}
  {
  }

  lemma OfContextMore(requests: Requests, p: set<nat>, id: nat, r: Request, c: nat)
    requires id !in p
    ensures |OfContext(requests[id := r], p + {id}, c)| == |OfContext(requests, p, c)| + if c == r.ctx then 1 else 0
  {
    var before, after := OfContext(requests, p, c), OfContext(requests[id := r], p + {id}, c);
    if c == r.ctx {
      assert after == before + {id};
    } else {
      assert after == before;
    }
  }

  lemma PendMore(contexts: Contexts, requests: Requests, p: set<nat>, id: nat, r: Request, k: Context)
    requires PendingOk(contexts, requests, p) && id !in p && r.ctx in contexts
    requires k.pending == contexts[r.ctx].pending + 1
    ensures PendingOk(contexts[r.ctx := k], requests[id := r], p + {id})
  {
    var contexts' := contexts[r.ctx := k];
    forall c | c in contexts'
      ensures contexts'[c].pending == |OfContext(requests[id := r], p + {id}, c)|
    {
      OfContextMore(requests, p, id, r, c);
    }
  }

  lemma OfFileMore(requests: Requests, g: set<nat>, id: nat, r: Request, f: nat)
    requires id !in g
    ensures |OfFile(requests[id := r], g + {id}, f)| == |OfFile(requests, g, f)| + if f == r.file then 1 else 0
  {
    var before, after := OfFile(requests, g, f), OfFile(requests[id := r], g + {id}, f);
    if f == r.file {
      assert after == before + {id};
    } else {
      assert after == before;
    }
  }

  lemma FlyMore(files: Files, requests: Requests, g: set<nat>, id: nat, r: Request)
    requires InflightOk(files, requests, g) && id !in g && r.file in files
    ensures InflightOk(files[r.file := files[r.file].(inflight := files[r.file].inflight + 1)], requests[id := r], g + {id})
  {
    var files' := files[r.file := files[r.file].(inflight := files[r.file].inflight + 1)];
    forall f | f in files'
      ensures files'[f].inflight == |OfFile(requests[id := r], g + {id}, f)|
    {
      OfFileMore(requests, g, id, r, f);
    }
  }

  /** The unretired requests and the new one keep what they need. */
  lemma CountedRequests(s: Sys, r: Request, k: Context)
    requires Alive(s) && r.ctx in s.contexts && |s.q.status| !in s.q.LiveIds() && |s.q.status| !in s.q.requests
    requires s.contexts[r.ctx].file == r.file && s.contexts[r.ctx].vm == r.vm && Bound(s.vms, r)
    requires k.file == r.file && k.vm == r.vm && k.used
    ensures var id, live := |s.q.status|, s.q.LiveIds();
            && RequestsOk(s.contexts[r.ctx := k], s.q.requests[id := r], live + {id})
            && BoundOk(s.vms, s.q.requests[id := r], live + {id})
  {
    var id, live := |s.q.status|, s.q.LiveIds();
    var contexts', requests' := s.contexts[r.ctx := k], s.q.requests[id := r];
    forall x | x in live + {id}
      ensures RequestOk(contexts', requests', x) && BoundAt(s.vms, requests', x)
    {
      if x != id {
        assert RequestOk(s.contexts, s.q.requests, x) && BoundAt(s.vms, s.q.requests, x);
      }
    }
  }

  lemma CountedLinks(s: Sys, r: Request, k: Context)
    requires Alive(s) && |s.q.lanes| == 2 && r.engine < 2 && r.file in s.files && r.ctx in s.contexts
    requires k.file == s.contexts[r.ctx].file && k.vm == s.contexts[r.ctx].vm && k.destroyed == s.contexts[r.ctx].destroyed
    ensures var s' := Counted(s, r, k);
            LinksOk(s'.contexts, s'.files, s'.vms) && FreedOk(s'.contexts, s'.files, s'.vms, s'.born, s'.freed)
  {
    var s' := Counted(s, r, k);
    assert s'.contexts.Keys == s.contexts.Keys && s'.files.Keys == s.files.Keys;
    SameLinks(s.contexts, s'.contexts, s.files, s.vms);
    SameFileLinks(s'.contexts, s.files, s'.files, s.vms);
    SameFreed(s, s'.contexts, s'.files, s.vms);
  }

  lemma CountedLife(s: Sys, r: Request, k: Context)
    requires QueueInv(s.q) && Alive(s) && r.engine < 2 && r.file in s.files && r.ctx in s.contexts
    requires s.contexts[r.ctx].file == r.file && s.contexts[r.ctx].vm == r.vm && Bound(s.vms, r)
    requires k.file == r.file && k.vm == r.vm && k.used && k.destroyed == s.contexts[r.ctx].destroyed
    requires k.pending == s.contexts[r.ctx].pending + 1
    ensures Alive(Counted(s, r, k))
  {
    var id, live := |s.q.status|, s.q.LiveIds();
    LiveAfterEnqueue(s.q, r);
    NotYetLive(s.q);
    CountedLinks(s, r, k);
    PendMore(s.contexts, s.q.requests, live, id, r, k);
    FlyMore(s.files, s.q.requests, live, id, r);
    CountedRequests(s, r, k);
  }

  lemma NotYetLive(q: Queues)
    requires QueueInv(q)
    ensures |q.status| !in q.LiveIds() && |q.status| !in q.requests
  {
  }

  /** Bound, but not queued yet. */
  ghost function Placed(s: Sys, p: Submission): Sys
    requires CanSubmit(s, p)
  {
    var v := s.contexts[p.ctx].vm;
    s.(vms := Rebind(s.vms, v, PlaceAll(s.vms[v].bindings, Wants(p.uses))))
  }

  lemma SubmittedCounts(s: Sys, p: Submission, k: Context)
    requires CanSubmit(s, p) && k == Noted(s.contexts[p.ctx], |s.q.status|).(pending := s.contexts[p.ctx].pending + 1)
    ensures var r := RequestOf(s, p); r.engine < 2 && r.file in s.files && |s.q.lanes| == 2
    ensures Submitted(s, p) == Counted(Placed(s, p), RequestOf(s, p), k).(slots := Submitted(s, p).slots)
  {
  }

  lemma SubmitLife(s: Sys, p: Submission)
    requires QueueInv(s.q) && Alive(s) && CanSubmit(s, p)
    ensures Alive(Submitted(s, p))
  {
    var r := RequestOf(s, p);
    PlaceLife(s, p, |p.uses|);
    assert ContextOk(s.contexts, s.files, s.vms, p.ctx) && FileOk(s.contexts, s.files, s.vms, p.file);
    var k := Noted(s.contexts[p.ctx], |s.q.status|).(pending := s.contexts[p.ctx].pending + 1);
    SubmittedCounts(s, p, k);
    CountedLife(Placed(s, p), r, k);
    SlotsApart(Counted(Placed(s, p), r, k), Submitted(s, p).slots);
  }

  /** The fence slots have no part in who keeps whom. */
  lemma SlotsApart(s: Sys, t: Table)
    requires Alive(s)
    ensures Alive(s.(slots := t))
  {
  }

  lemma SubmitSound(s: Sys, p: Submission)
    requires Sound(s) && CanSubmit(s, p)
    ensures Sound(Submitted(s, p))
  {
    SubmitDeps(s, p);
    WantsFit(s, p);
    EnqueueInv(s.q, RequestOf(s, p));
    PublishedSlotsOk(s.q, Enqueue(s.q, RequestOf(s, p)), s.slots, |s.q.status|, RequestOf(s, p));
  }

  /** A request waits at least for what the slots of its objects ask for. */
  lemma SubmitHeeds(s: Sys, p: Submission)
    requires CanSubmit(s, p)
    ensures Heeds(s.q, s.slots, RequestOf(s, p))
  {
    var k := s.contexts[p.ctx];
    var explicit := p.explicit + (if k.single then [k.timeline] else []);
    AddDependenciesCover(s.q.status, ImplicitDeps(s.q.status, s.slots, p.uses), explicit);
  }

  /** A fence of which some part is not over and that a submission is to wait for: it was asked to, it is the last on its
      context's one timeline, or it stands for the last writer of an object that is used without `EXEC_OBJECT_ASYNC`, or
      for any user of one that is written so. */
  ghost predicate ToAwait(s: Sys, p: Submission, f: Fence) {
    && (exists x :: x in f && !(x < |s.q.status| && s.q.status[x].Done?))
    && (|| f in p.explicit
        || (p.ctx in s.contexts && s.contexts[p.ctx].single && f == s.contexts[p.ctx].timeline)
        || exists u :: u in p.uses && AsksFor(s.slots, u, f))
  }

  ghost predicate AsksFor(slots: Table, u: Use, f: Fence) {
    !u.async && u.obj in slots && (f == slots[u.obj].write || (u.write && f in slots[u.obj].users))
  }

  /** The request waits for those fences and for no others. */
  lemma AwaitsExactly(s: Sys, p: Submission)
    requires CanSubmit(s, p)
    ensures forall f :: f in RequestOf(s, p).deps <==> ToAwait(s, p, f)
  {
    var k := s.contexts[p.ctx];
    var explicit := p.explicit + (if k.single then [k.timeline] else []);
    AddDependenciesCover(s.q.status, ImplicitDeps(s.q.status, s.slots, p.uses), explicit);
    ImplicitDepsCover(s.q.status, s.slots, p.uses);
    forall f
      ensures f in RequestOf(s, p).deps <==> ToAwait(s, p, f)
    {
      assert Polled(s.q.status, f) <==> !exists x :: x in f && !(x < |s.q.status| && s.q.status[x].Done?);
      if f in RequestOf(s, p).deps && f !in explicit {
        var u :| u in p.uses && !u.async && (f == s.slots[u.obj].write || (u.write && f in s.slots[u.obj].users));
        assert AsksFor(s.slots, u, f);
      }
    }
  }

  lemma SubmittedUsage(s: Sys, p: Submission, wild: bool)
    requires Sound(s) && UsersCovered(s.q, s.slots, wild) && CanSubmit(s, p) && (wild || NoAsync(p.uses))
    ensures UsersCovered(Submitted(s, p).q, Submitted(s, p).slots, wild)
  {
    SubmitDeps(s, p);
    SubmitHeeds(s, p);
    WantsFit(s, p);
    SubmitUsage(s.q, s.slots, RequestOf(s, p), wild);
  }

  /** An accepted execbuffer. */
  lemma SubmitInv(s: Sys, p: Submission, wild: bool := true)
    requires SysInv(s, wild) && CanSubmit(s, p) && (wild || NoAsync(p.uses))
    ensures SysInv(Submitted(s, p), wild)
  {
    SubmitSound(s, p);
    SubmitLife(s, p);
    SubmittedUsage(s, p, wild);
  }

  lemma SubmitDeps(s: Sys, p: Submission)
    requires Sound(s) && CanSubmit(s, p)
    ensures forall f, x :: f in RequestOf(s, p).deps && x in f ==> x < |s.q.status|
  {
    var k := s.contexts[p.ctx];
    var explicit := p.explicit + (if k.single then [k.timeline] else []);
    forall f, x | f in explicit && x in f
      ensures x < |s.q.status|
    {
      assert f in p.explicit || f == k.timeline;
    }
    BuildDeps(s.q, s.slots, p.engine, p.file, p.ctx, k.vm, p.uses, explicit);
  }

  lemma RefusedLife(s: Sys, p: Submission, code: int)
    requires QueueInv(s.q) && Alive(s) && CanSubmit(s, p)
    ensures Alive(RefusedSys(s, p, code))
  {
    var s' := RefusedSys(s, p, code);
    PlaceLife(s, p, |p.uses|);
    NotedLife(s.(vms := s'.vms), p.ctx, |s.q.status|);
    var noted := s.(vms := s'.vms, contexts := s'.contexts);
    assert Alive(noted);
    assert s'.q.LiveIds() == s.q.LiveIds();
    SlotsApart(noted, s'.slots);
  }

  lemma NotedLife(s: Sys, c: nat, id: nat)
    requires Alive(s) && c in s.contexts
    ensures Alive(s.(contexts := s.contexts[c := Noted(s.contexts[c], id)]))
  {
    var contexts' := s.contexts[c := Noted(s.contexts[c], id)];
    assert contexts'.Keys == s.contexts.Keys;
    SameLinks(s.contexts, contexts', s.files, s.vms);
    SameFreed(s, contexts', s.files, s.vms);
    SameRequests(s.contexts, contexts', s.q.requests, s.q.LiveIds());
    SamePending(s.contexts, contexts', s.q.requests, s.q.LiveIds());
  }

  lemma RefusedSound(s: Sys, p: Submission, code: int)
    requires Sound(s) && CanSubmit(s, p)
    ensures Sound(RefusedSys(s, p, code))
  {
    WantsFit(s, p);
    RefuseInv(s.q, code);
    PublishedSlotsOk(s.q, Refuse(s.q, code), s.slots, |s.q.status|, Request(p.engine, 0, 0, 0, p.uses, []));
  }

  /** A refused submission leaves everything in order exactly when the fences it leaves in its objects' slots still
      guard their unretired users. */
  lemma RefusedInv(s: Sys, p: Submission, code: int, wild: bool := true)
    requires SysInv(s, wild) && CanSubmit(s, p)
    ensures SysInv(RefusedSys(s, p, code), wild) <==> Spares(s.q, s.slots, p.engine, p.uses, wild)
  {
    RefusedSound(s, p, code);
    RefusedLife(s, p, code);
    WantsFit(s, p);
    RefusedUsage(s.q, s.slots, p.engine, p.uses, code, wild);
  }

  lemma SamePending(contexts: Contexts, contexts': Contexts, requests: Requests, p: set<nat>)
    requires PendingOk(contexts, requests, p) && contexts'.Keys == contexts.Keys
    requires forall c :: c in contexts ==> contexts'[c].pending == contexts[c].pending
    ensures PendingOk(contexts', requests, p)
  {
  }

  // ------------------------------------------------------------------------
  // The engines
  // ------------------------------------------------------------------------

  lemma LiveIdsIsLive(q: Queues)
    requires |q.lanes| == 2
    ensures forall x :: x in q.LiveIds() <==> q.Live(x)
  {
  }

  lemma GoCore(s: Sys, e: nat)
    requires Core(s) && CanGo(s, e)
    ensures Core(s.(q := Dispatch(s.q, e)))
  {
    DispatchInv(s.q, e);
    assert Dispatch(s.q, e).LiveIds() == s.q.LiveIds() by {
      LiveIdsIsLive(s.q);
      LiveIdsIsLive(Dispatch(s.q, e));
    }
  }

  /** What a request lets go of when it retires is still there. */
  lemma LetGoDefined(s: Sys, e: nat)
    requires QueueInv(s.q) && Alive(s) && CanRetire(s.q, e)
    ensures Leaving(s.q, e) < |s.q.status| && s.q.queuedCount > 0 && CanLetGo(s, e)
  {
    RetireDefined(s.q, e);
    var id, live := Leaving(s.q, e), s.q.LiveIds();
    assert id in live;
    assert RequestOk(s.contexts, s.q.requests, id);
    var r := s.q.requests[id];
    assert ContextOk(s.contexts, s.files, s.vms, r.ctx) && RefOk(s.contexts, s.files, s.vms, r.vm);
    assert id in OfContext(s.q.requests, live, r.ctx) && id in OfFile(s.q.requests, live, r.file);
  }

  lemma SignalLife(s: Sys, e: nat, code: int, hung: bool)
    requires QueueInv(s.q) && Alive(s) && CanLeave(s, e, code, hung) && CanLetGo(s, e)
    ensures var s' := Signal(s, e, code, hung);
            && s'.q.LiveIds() == s.q.LiveIds() - {Leaving(s.q, e)}
            && LifeInv(s', s.q.LiveIds(), s.q.LiveIds())
  {
    var s', live := Signal(s, e, code, hung), s.q.LiveIds();
    RetireInv(s.q, e, code);
    assert s'.q.LiveIds() == live - {Leaving(s.q, e)} by {
      LiveIdsIsLive(s.q);
      LiveIdsIsLive(s'.q);
    }
    assert s'.contexts.Keys == s.contexts.Keys;
    SameLinks(s.contexts, s'.contexts, s.files, s.vms);
    SameFreed(s, s'.contexts, s.files, s.vms);
    SameRequests(s.contexts, s'.contexts, s.q.requests, live);
    SamePending(s.contexts, s'.contexts, s.q.requests, live);
  }

  lemma LeftLife(s: Sys, e: nat, code: int, hung: bool)
    requires QueueInv(s.q) && Alive(s) && CanLeave(s, e, code, hung) && CanLetGo(s, e)
    ensures Alive(Left(s, e, code, hung))
  {
    var id, live := Leaving(s.q, e), s.q.LiveIds();
    var r := s.q.requests[id];
    var a := Signal(s, e, code, hung);
    SignalLife(s, e, code, hung);
    RetireDefined(s.q, e);
    assert id in live;
    DropContextLife(a, live, live, id);
    var b := DropContext(a, r.ctx);
    assert b.q == a.q;
    DropFileLife(b, live - {id}, live, id);
    assert DropFile(b, r.file).q == a.q;
  }

  lemma LeaveSound(s: Sys, e: nat, code: int, hung: bool)
    requires Sound(s) && CanLeave(s, e, code, hung) && CanLetGo(s, e)
    ensures Sound(Left(s, e, code, hung))
  {
    RetireInv(s.q, e, code);
    LeftFrame(s, e, code, hung);
    SlotsKept(s.q, Retire(s.q, e, code), s.slots);
  }

  /** A retirement, in whichever of its ways. */
  lemma LeaveInv(s: Sys, e: nat, code: int, hung: bool, wild: bool := true)
    requires SysInv(s, wild) && CanLeave(s, e, code, hung) && CanLetGo(s, e)
    ensures SysInv(Left(s, e, code, hung), wild)
  {
    LeaveSound(s, e, code, hung);
    LeftLife(s, e, code, hung);
    RetireUsage(s.q, s.slots, e, code, wild);
    LeftFrame(s, e, code, hung);
  }

  ghost predicate SameStream(a: Context, b: Context) {
    a.timeline == b.timeline && a.single == b.single
  }

  lemma DropContextFrame(s: Sys, c: nat)
    requires c in s.contexts && s.contexts[c].pending > 0
    requires s.contexts[c].vm in s.vms && s.vms[s.contexts[c].vm].refs > 0
    ensures var s' := DropContext(s, c);
            && s'.q == s.q && s'.slots == s.slots && s'.sizes == s.sizes && s'.made == s.made && s'.born == s.born
            && s'.files == s.files
            && forall k :: k in s'.contexts ==> k in s.contexts && SameStream(s'.contexts[k], s.contexts[k])
  {
  }

  lemma DropFileFrame(s: Sys, f: nat)
    requires f in s.files && s.files[f].inflight > 0
    ensures var s' := DropFile(s, f);
            && s'.q == s.q && s'.slots == s.slots && s'.sizes == s.sizes && s'.made == s.made && s'.born == s.born
            && forall k :: k in s'.contexts ==> k in s.contexts && s'.contexts[k] == s.contexts[k]
  {
  }

  /** A retirement changes no slots, and only takes contexts away. */
  lemma LeftFrame(s: Sys, e: nat, code: int, hung: bool)
    requires CanLeave(s, e, code, hung) && CanLetGo(s, e)
    ensures var s' := Left(s, e, code, hung);
            && s'.q == Retire(s.q, e, code) && s'.slots == s.slots && s'.sizes == s.sizes
            && s'.made == s.made && s'.born == s.born
            && forall c :: c in s'.contexts ==> c in s.contexts && SameStream(s'.contexts[c], s.contexts[c])
  {
    var r := s.q.requests[Leaving(s.q, e)];
    var a := Signal(s, e, code, hung);
    DropContextFrame(a, r.ctx);
    DropFileFrame(DropContext(a, r.ctx), r.file);
  }
}
