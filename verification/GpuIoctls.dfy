/** The ioctls beside execbuffer: each keeps what the engines rely on. */
module GpuIoctls {
  import opened Basics
  import opened Bindings
  import opened RequestQueue
  import opened ImplicitFencing
  import opened Lifetimes
  import opened GpuSystem
  import opened GpuSafety

  /** Closing a handle or changing an object's caching takes away no binding in use. */
  lemma UnbindInv(s: Sys, f: nat, o: nat, wild: bool := true)
    requires SysInv(s, wild) && Enabled(s, Unbind(f, o))
    ensures SysInv(s.(vms := UnbindObject(s.vms, f, o)), wild)
    ensures UnbindObject(s.vms, f, o).Keys == s.vms.Keys
    ensures forall v, b {:trigger b in s.vms[v].bindings} :: v in s.vms ==>
              (b in UnbindObject(s.vms, f, o)[v].bindings <==> b in s.vms[v].bindings && !(s.vms[v].file == f && b.obj == o))
  {
    var vms' := UnbindObject(s.vms, f, o);
    IdleUnused(s.q, s.slots, o, wild);
    LiveIdsIsLive(s.q);
    forall id | id in s.q.LiveIds()
      ensures BoundAt(vms', s.q.requests, id)
    {
      assert BoundAt(s.vms, s.q.requests, id) && s.q.Live(id);
      assert forall u :: u in s.q.requests[id].uses ==> u.obj != o;
    }
    forall v | v in vms'
      ensures Fits(vms'[v].bindings, s.sizes)
    {
      assert Fits(s.vms[v].bindings, s.sizes);
      FilterApart((x: Binding) => x.obj != o, s.vms[v].bindings);
    }
    BindingsLife(s, vms');
  }

  lemma ImportCore(s: Sys, o: nat, write: bool, fence: Fence)
    requires Core(s) && Enabled(s, Import(o, write, fence))
    ensures Core(Apply(s, Import(o, write, fence)))
  {
    ImportSlots(s.q, s.slots, o, write, fence);
    SlotsApart(s, s.slots[o := ImportInto(s.q.status, s.slots[o], write, fence)]);
  }

  lemma NewObjectSlots(q: Queues, t: Table, o: nat)
    requires SlotsOk(q, t) && o !in t
    ensures SlotsOk(q, t[o := NO_FENCES])
  {
  }

  lemma NewObjectSound(s: Sys, size: nat)
    requires Sound(s) && Enabled(s, NewObject(size))
    ensures Sound(Apply(s, NewObject(size)))
  {
    var s' := Apply(s, NewObject(size));
    assert s.made !in s.slots;
    NewObjectSlots(s.q, s.slots, s.made);
    assert s'.slots.Keys == s.slots.Keys + {s.made} && s'.sizes.Keys == s.sizes.Keys + {s.made};
  }

  lemma MoreSizes(vms: Vms, sizes: map<nat, nat>, o: nat, size: nat)
    requires VmsOk(vms, sizes) && o !in sizes
    ensures VmsOk(vms, sizes[o := size])
  {
    forall v | v in vms
      ensures Fits(vms[v].bindings, sizes[o := size])
    {
      assert Fits(vms[v].bindings, sizes);
    }
  }

  lemma NewObjectCore(s: Sys, size: nat)
    requires Core(s) && Enabled(s, NewObject(size))
    ensures Core(Apply(s, NewObject(size)))
  {
    NewObjectSound(s, size);
    assert s.made !in s.slots;
    MoreSizes(s.vms, s.sizes, s.made, size);
  }

  // ------------------------------------------------------------------------
  // References taken
  // ------------------------------------------------------------------------

  lemma RetainRefs(contexts: Contexts, files: Files, contexts': Contexts, files': Files, vms: Vms, v: nat)
    requires RefsOk(contexts, files, vms) && v in vms
    requires files'.Keys == files.Keys
    requires forall w :: w in vms && vms[w].file in files ==>
               HolderCount(contexts', files'[vms[w].file], w)
               == HolderCount(contexts, files[vms[w].file], w) + (if w == v then 1 else 0)
    ensures RefsOk(contexts', files', Retained(vms, v))
  {
    var vms' := Retained(vms, v);
    forall w | w in vms'
      ensures RefOk(contexts', files', vms', w)
    {
      assert RefOk(contexts, files, vms, w);
    }
  }

  lemma ContextHoldersWith(contexts: Contexts, c: nat, k: Context, v: nat)
    requires c !in contexts
    ensures |ContextHolders(contexts[c := k], v)| == |ContextHolders(contexts, v)| + if k.vm == v then 1 else 0
  {
    var before, after := ContextHolders(contexts, v), ContextHolders(contexts[c := k], v);
    if k.vm == v {
      assert after == before + {c};
      CardinalityOfInsert(before, after, c);
    } else {
      assert after == before;
    }
  }

  lemma SlotHoldersWith(ids: map<nat, nat>, i: nat, v: nat, w: nat)
    requires i !in ids
    ensures |SlotHolders(ids[i := v], w)| == |SlotHolders(ids, w)| + if v == w then 1 else 0
  {
    var before, after := SlotHolders(ids, w), SlotHolders(ids[i := v], w);
    if v == w {
      assert after == before + {i};
      CardinalityOfInsert(before, after, i);
    } else {
      assert after == before;
    }
  }

  // ------------------------------------------------------------------------
  // Contexts
  // ------------------------------------------------------------------------

  lemma WithContextLinks(contexts: Contexts, files: Files, vms: Vms, f: nat, c: nat, k: Context)
    requires LinksOk(contexts, files, vms) && f in files && c !in contexts
    requires k.file == f && k.vm in vms && vms[k.vm].file == f && !k.destroyed
    ensures LinksOk(contexts[c := k], files[f := files[f].(table := files[f].table + {c})], Retained(vms, k.vm))
  {
    var contexts', files', vms' := contexts[c := k], files[f := files[f].(table := files[f].table + {c})], Retained(vms, k.vm);
    assert files'.Keys == files.Keys;
    forall w | w in vms && vms[w].file in files
      ensures HolderCount(contexts', files'[vms[w].file], w)
              == HolderCount(contexts, files[vms[w].file], w) + if w == k.vm then 1 else 0
    {
      ContextHoldersWith(contexts, c, k, w);
    }
    RetainRefs(contexts, files, contexts', files', vms, k.vm);
    forall x | x in contexts'
      ensures ContextOk(contexts', files', vms', x)
    {
      if x != c {
        assert ContextOk(contexts, files, vms, x);
      }
    }
    forall x | x in files'
      ensures FileOk(contexts', files', vms', x)
    {
      assert FileOk(contexts, files, vms, x);
    }
  }

  /** A name not handed out yet belongs to nothing. */
  lemma Fresh(s: Sys, n: nat)
    requires Alive(s) && NamesOk(s) && n >= s.made
    ensures n !in s.contexts && n !in s.files && n !in s.vms && n !in s.slots && n !in s.sizes
    ensures AContext(n) !in s.born && AFile(n) !in s.born && AVm(n) !in s.born
  {
    assert AContext(n) !in s.born && AFile(n) !in s.born && AVm(n) !in s.born;
    assert n in s.contexts ==> Present(s.contexts, s.files, s.vms, AContext(n));
    assert n in s.files ==> Present(s.contexts, s.files, s.vms, AFile(n));
    assert n in s.vms ==> Present(s.contexts, s.files, s.vms, AVm(n));
  }

  /** Something new is there and was never freed. */
  lemma BornFreed(s: Sys, contexts': Contexts, files': Files, vms': Vms, t: Thing)
    requires FreedOk(s.contexts, s.files, s.vms, s.born, s.freed) && t !in s.born
    requires Present(contexts', files', vms', t)
    requires contexts'.Keys == s.contexts.Keys + (if t.AContext? then {t.id} else {})
    requires files'.Keys == s.files.Keys + (if t.AFile? then {t.id} else {})
    requires vms'.Keys == s.vms.Keys + (if t.AVm? then {t.id} else {})
    ensures FreedOk(contexts', files', vms', s.born + {t}, s.freed)
  {
  }

  lemma NewContextLife(s: Sys, f: nat, single: bool)
    requires QueueInv(s.q) && Alive(s) && NamesOk(s) && LifeEnabled(s, NewContext(f, single))
    ensures Alive(WithContext(s, f, single))
  {
    var c, v, s' := s.made, s.files[f].defaultVm, WithContext(s, f, single);
    var k := Context(f, v, 0, false, false, false, true, true, single, []);
    Fresh(s, c);
    assert FileOk(s.contexts, s.files, s.vms, f);
    WithContextLinks(s.contexts, s.files, s.vms, f, c, k);
    var live := s.q.LiveIds();
    NoRequestsYet(s, c, k);
    BornFreed(s, s'.contexts, s'.files, s'.vms, AContext(c));
    SameInflight(s.files, s'.files, s.q.requests, live);
    SameBound(s.vms, s'.vms, s.q.requests, live);
  }

  lemma SameBound(vms: Vms, vms': Vms, requests: Requests, live: set<nat>)
    requires BoundOk(vms, requests, live)
    requires forall v :: v in vms ==> v in vms' && vms'[v].bindings == vms[v].bindings
    ensures BoundOk(vms', requests, live)
  {
    forall id | id in live
      ensures BoundAt(vms', requests, id)
    {
      assert BoundAt(vms, requests, id);
    }
  }

  /** A new context has no requests, and the others keep theirs. */
  lemma NoRequestsYet(s: Sys, c: nat, k: Context)
    requires Alive(s) && c !in s.contexts && k.pending == 0
    ensures RequestsOk(s.contexts[c := k], s.q.requests, s.q.LiveIds())
    ensures PendingOk(s.contexts[c := k], s.q.requests, s.q.LiveIds())
  {
    var live := s.q.LiveIds();
    SameRequests(s.contexts, s.contexts[c := k], s.q.requests, live);
    forall id | id in live
      ensures id in s.q.requests && s.q.requests[id].ctx != c
    {
      assert RequestOk(s.contexts, s.q.requests, id);
    }
    assert OfContext(s.q.requests, live, c) == {};
  }

  lemma NewContextCore(s: Sys, f: nat, single: bool)
    requires Core(s) && LifeEnabled(s, NewContext(f, single))
    ensures Core(WithContext(s, f, single))
    ensures var s', c, v := WithContext(s, f, single), s.made, s.files[f].defaultVm;
            && c !in s.contexts && c in s'.contexts && s'.contexts - {c} == s.contexts
            && s'.files == s.files[f := s.files[f].(table := s.files[f].table + {c})]
            && s'.contexts[c].file == f && s'.contexts[c].vm == v && s'.contexts[c].pending == 0 && s'.contexts[c].single == single
            && !s'.contexts[c].banned && !s'.contexts[c].used && !s'.contexts[c].destroyed
            && s'.vms == s.vms[v := s.vms[v].(refs := s.vms[v].refs + 1)]
  {
    NewContextLife(s, f, single);
  }

  lemma DestroyMarked(contexts: Contexts, files: Files, vms: Vms, c: nat)
    requires LinksOk(contexts, files, vms) && c in contexts && contexts[c].file in files
    ensures var f := contexts[c].file;
            LinksOk(contexts[c := contexts[c].(destroyed := true)],
                    files[f := files[f].(table := files[f].table - {c})], vms)
  {
    var f := contexts[c].file;
    var contexts', files' := contexts[c := contexts[c].(destroyed := true)], files[f := files[f].(table := files[f].table - {c})];
    forall x | x in contexts'
      ensures ContextOk(contexts', files', vms, x)
    {
      assert ContextOk(contexts, files, vms, x);
    }
    forall x | x in files'
      ensures FileOk(contexts', files', vms, x)
    {
      assert FileOk(contexts, files, vms, x);
    }
    forall v | v in vms
      ensures RefOk(contexts', files', vms, v)
    {
      assert RefOk(contexts, files, vms, v);
      SameHolders(contexts, contexts', files[vms[v].file], v);
    }
  }

  /** Freeing a context the file's table names. */
  lemma FreeListedLinks(contexts: Contexts, files: Files, vms: Vms, c: nat)
    requires LinksOk(contexts, files, vms) && c in contexts && contexts[c].file in files
    requires contexts[c].vm in vms && vms[contexts[c].vm].refs > 0
    ensures var f := contexts[c].file;
            LinksOk(contexts - {c}, files[f := files[f].(table := files[f].table - {c})], Released(vms, contexts[c].vm))
  {
    var f := contexts[c].file;
    var marked := contexts[c := contexts[c].(destroyed := true)];
    var files' := files[f := files[f].(table := files[f].table - {c})];
    DestroyMarked(contexts, files, vms, c);
    FreeContextLinks(marked, files', vms, c);
    assert marked - {c} == contexts - {c};
  }

  /** A context with requests queued outlives CONTEXT_DESTROY until the last of them. */
  lemma DestroyContextLife(s: Sys, c: nat)
    requires Alive(s) && CanDestroy(s, c)
    ensures Alive(WithoutContext(s, c))
  {
    var f, live := s.contexts[c].file, s.q.LiveIds();
    var left := s.(files := s.files[f := s.files[f].(table := s.files[f].table - {c})],
                   contexts := s.contexts[c := s.contexts[c].(destroyed := true)]);
    assert left.contexts.Keys == s.contexts.Keys && left.files.Keys == s.files.Keys;
    DestroyMarked(s.contexts, s.files, s.vms, c);
    SameFreed(s, left.contexts, left.files, s.vms);
    SameRequests(s.contexts, left.contexts, s.q.requests, live);
    SamePending(s.contexts, left.contexts, s.q.requests, live);
    SameInflight(s.files, left.files, s.q.requests, live);
    if s.contexts[c].pending == 0 {
      FreeDestroyed(left, live, live, c);
    }
  }

  lemma SameInflight(files: Files, files': Files, requests: Requests, g: set<nat>)
    requires InflightOk(files, requests, g) && files'.Keys == files.Keys
    requires forall f :: f in files ==> files'[f].inflight == files[f].inflight
    ensures InflightOk(files', requests, g)
  {
  }

  lemma TuneCore(s: Sys, c: nat, r: bool, b: bool)
    requires Core(s) && c in s.contexts
    ensures Core(s.(contexts := s.contexts[c := s.contexts[c].(recoverable := r, bannable := b)]))
  {
    var contexts' := s.contexts[c := s.contexts[c].(recoverable := r, bannable := b)];
    assert contexts'.Keys == s.contexts.Keys;
    SameLinks(s.contexts, contexts', s.files, s.vms);
    SameFreed(s, contexts', s.files, s.vms);
    SameRequests(s.contexts, contexts', s.q.requests, s.q.LiveIds());
    SamePending(s.contexts, contexts', s.q.requests, s.q.LiveIds());
  }

  // ------------------------------------------------------------------------
  // Files
  // ------------------------------------------------------------------------

  lemma OpenLinks(contexts: Contexts, files: Files, vms: Vms, f: nat, v: nat, c: nat)
    requires LinksOk(contexts, files, vms) && f !in files && v !in vms && c !in contexts
    ensures LinksOk(contexts[c := Context(f, v, 0, false, false, false, true, true, false, [])],
                    files[f := File(0, false, {c}, v, map[], c)], vms[v := Vm(f, 2, [])])
  {
    var k := Context(f, v, 0, false, false, false, true, true, false, []);
    var contexts', files', vms' := contexts[c := k], files[f := File(0, false, {c}, v, map[], c)], vms[v := Vm(f, 2, [])];
    forall x | x in contexts'
      ensures ContextOk(contexts', files', vms', x)
    {
      if x != c {
        assert ContextOk(contexts, files, vms, x);
      }
    }
    forall x | x in files'
      ensures FileOk(contexts', files', vms', x)
    {
      if x != f {
        assert FileOk(contexts, files, vms, x);
      }
    }
    forall w | w in vms'
      ensures RefOk(contexts', files', vms', w)
    {
      if w != v {
        assert RefOk(contexts, files, vms, w);
        ContextHoldersWith(contexts, c, k, w);
      } else {
        forall x | x in contexts
          ensures contexts[x].vm != v
        {
          assert ContextOk(contexts, files, vms, x);
        }
        assert ContextHolders(contexts', v) == {c};
        assert SlotHolders(files'[f].vmIds, v) == {};
      }
    }
  }

  lemma OpenFreed(s: Sys)
    requires Alive(s) && NamesOk(s)
    ensures var s' := Opened(s); FreedOk(s'.contexts, s'.files, s'.vms, s'.born, s'.freed)
  {
  }

  lemma OpenLife(s: Sys)
    requires QueueInv(s.q) && Alive(s) && NamesOk(s)
    ensures Alive(Opened(s))
  {
    var f, v, c, s', live := s.made, s.made + 1, s.made + 2, Opened(s), s.q.LiveIds();
    Fresh(s, f);
    Fresh(s, v);
    Fresh(s, c);
    OpenLinks(s.contexts, s.files, s.vms, f, v, c);
    NoRequestsYet(s, c, s'.contexts[c]);
    OpenInflight(s, f, s'.files[f]);
    SameBound(s.vms, s'.vms, s.q.requests, live);
    EmptyVmFits(s.vms, s.sizes, v, f, 2);
    OpenFreed(s);
  }

  lemma OpenInflight(s: Sys, f: nat, file: File)
    requires Alive(s) && f !in s.files && file.inflight == 0
    ensures InflightOk(s.files[f := file], s.q.requests, s.q.LiveIds())
  {
  }

  lemma OpenCore(s: Sys)
    requires Core(s)
    ensures Core(Opened(s))
  {
    OpenLife(s);
  }

  lemma CloseCore(s: Sys, f: nat)
    requires Core(s) && f in s.files
    ensures Core(Closed(s, f))
    ensures s.files[f].inflight == 0 ==> Gone(Closed(s, f), f)
    ensures s.files[f].inflight != 0 ==> Closed(s, f) == s.(files := s.files[f := s.files[f].(closed := true)])
  {
    var left := s.(files := s.files[f := s.files[f].(closed := true)]);
    assert left.files.Keys == s.files.Keys;
    SameFileLinks(s.contexts, s.files, left.files, s.vms);
    SameFreed(s, s.contexts, left.files, s.vms);
    SameInflight(s.files, left.files, s.q.requests, s.q.LiveIds());
    if left.files[f].inflight == 0 {
      DestroyFileLife(left, s.q.LiveIds(), s.q.LiveIds(), f);
    }
  }

  // ------------------------------------------------------------------------
  // Address spaces
  // ------------------------------------------------------------------------

  lemma NewVmLinks(contexts: Contexts, files: Files, vms: Vms, f: nat, slot: nat, v: nat)
    requires LinksOk(contexts, files, vms) && f in files && slot !in files[f].vmIds && v !in vms
    ensures LinksOk(contexts, files[f := files[f].(vmIds := files[f].vmIds[slot := v])], vms[v := Vm(f, 1, [])])
  {
    var files', vms' := files[f := files[f].(vmIds := files[f].vmIds[slot := v])], vms[v := Vm(f, 1, [])];
    assert FileOk(contexts, files, vms, f);
    forall x | x in contexts
      ensures ContextOk(contexts, files', vms', x) && contexts[x].vm != v
    {
      assert ContextOk(contexts, files, vms, x);
    }
    forall x | x in files'
      ensures FileOk(contexts, files', vms', x)
    {
      assert FileOk(contexts, files, vms, x);
    }
    forall w | w in vms'
      ensures RefOk(contexts, files', vms', w)
    {
      if w != v {
        assert RefOk(contexts, files, vms, w);
        SlotHoldersWith(files[f].vmIds, slot, v, w);
      } else {
        assert ContextHolders(contexts, v) == {};
        assert SlotHolders(files'[f].vmIds, v) == {slot};
      }
    }
  }

  lemma EmptyVmFits(vms: Vms, sizes: map<nat, nat>, v: nat, f: nat, refs: nat)
    requires VmsOk(vms, sizes)
    ensures VmsOk(vms[v := Vm(f, refs, [])], sizes)
  {
  }

  lemma NewVmLife(s: Sys, f: nat, slot: nat)
    requires QueueInv(s.q) && Alive(s) && NamesOk(s) && LifeEnabled(s, NewVm(f, slot))
    ensures Alive(WithVm(s, f, slot))
  {
    var v, s' := s.made, WithVm(s, f, slot);
    Fresh(s, v);
    NewVmLinks(s.contexts, s.files, s.vms, f, slot, v);
    assert s'.files.Keys == s.files.Keys;
    SameInflight(s.files, s'.files, s.q.requests, s.q.LiveIds());
    SameBound(s.vms, s'.vms, s.q.requests, s.q.LiveIds());
    EmptyVmFits(s.vms, s.sizes, v, f, 1);
    BornFreed(s, s.contexts, s'.files, s'.vms, AVm(v));
  }

  lemma NewVmCore(s: Sys, f: nat, slot: nat)
    requires Core(s) && LifeEnabled(s, NewVm(f, slot))
    ensures Core(WithVm(s, f, slot))
    ensures var s', v := WithVm(s, f, slot), s.made;
            && v !in s.vms && s'.vms == s.vms[v := Vm(f, 1, [])] && s'.contexts == s.contexts
            && s'.files == s.files[f := s.files[f].(vmIds := s.files[f].vmIds[slot := v])]
  {
    NewVmLife(s, f, slot);
  }

  /** Nothing else names an address space that goes with its id. */
  lemma DropVmLinks(contexts: Contexts, files: Files, vms: Vms, f: nat, slot: nat)
    requires LinksOk(contexts, files, vms) && f in files && slot in files[f].vmIds
    requires files[f].vmIds[slot] in vms && vms[files[f].vmIds[slot]].refs > 0
    ensures LinksOk(contexts, files[f := files[f].(vmIds := files[f].vmIds - {slot})], Released(vms, files[f].vmIds[slot]))
  {
    var v := files[f].vmIds[slot];
    var files' := files[f := files[f].(vmIds := files[f].vmIds - {slot})];
    assert files'.Keys == files.Keys;
    assert FileOk(contexts, files, vms, f) && RefOk(contexts, files, vms, v);
    forall w | w in vms && vms[w].file in files
      ensures HolderCount(contexts, files'[vms[w].file], w)
              == HolderCount(contexts, files[vms[w].file], w) - if w == v then 1 else 0
    {
      SlotHoldersWithout(files[f].vmIds, slot, w);
    }
    forall x | x in contexts
      ensures ContextOk(contexts, files', vms, x)
    {
      assert ContextOk(contexts, files, vms, x);
    }
    forall x | x in files'
      ensures FileOk(contexts, files', vms, x)
    {
      assert FileOk(contexts, files, vms, x);
    }
    ReleaseLinks(contexts, files, contexts, files', vms, v);
  }

  /** A VM id and a context are two references. */
  lemma SlotAndContext(contexts: Contexts, files: Files, vms: Vms, v: nat, slot: nat, c: nat)
    requires v in vms && RefOk(contexts, files, vms, v)
    requires slot in files[vms[v].file].vmIds && files[vms[v].file].vmIds[slot] == v
    requires c in contexts && contexts[c].vm == v
    ensures vms[v].refs >= 2
  {
    assert c in ContextHolders(contexts, v) && slot in SlotHolders(files[vms[v].file].vmIds, v);
  }

  /** A file with no contexts and no VM ids left holds only its default address space. */
  lemma OnlyDefaultLeft(contexts: Contexts, files: Files, vms: Vms, f: nat)
    requires LinksOk(contexts, files, vms) && f in files && files[f].vmIds == map[]
    requires forall c :: c in contexts ==> contexts[c].file != f
    ensures OwnedVms(vms, f) == {files[f].defaultVm} && vms[files[f].defaultVm].refs == 1
  {
    assert FileOk(contexts, files, vms, f);
    forall v | v in vms && vms[v].file == f
      ensures v == files[f].defaultVm && vms[v].refs == 1
    {
      assert RefOk(contexts, files, vms, v);
      forall c | c in contexts
        ensures contexts[c].vm != v
      {
        assert ContextOk(contexts, files, vms, c);
      }
      assert ContextHolders(contexts, v) == {};
      assert SlotHolders(files[f].vmIds, v) == {};
    }
  }

  lemma FreedAfterRelease(s: Sys, v: nat)
    requires FreedOk(s.contexts, s.files, s.vms, s.born, s.freed) && v in s.vms && s.vms[v].refs > 0
    ensures var s' := ReleaseVm(s, v); FreedOk(s'.contexts, s'.files, s'.vms, s'.born, s'.freed)
  {
  }

  /** Destroying a VM id leaves the address space to the contexts still using it. */
  lemma DropVmLife(s: Sys, f: nat, slot: nat)
    requires Alive(s) && CanDropVm(s, f, slot)
    ensures Alive(WithoutVm(s, f, slot))
  {
    var v, s', live := s.files[f].vmIds[slot], WithoutVm(s, f, slot), s.q.LiveIds();
    DropVmLinks(s.contexts, s.files, s.vms, f, slot);
    assert s'.files.Keys == s.files.Keys;
    SameInflight(s.files, s'.files, s.q.requests, live);
    SameFreed(s, s.contexts, s'.files, s.vms);
    FreedAfterRelease(s.(files := s'.files), v);
    assert FileOk(s.contexts, s.files, s.vms, f);
    assert RefOk(s.contexts, s.files, s.vms, v);
    forall id | id in live && s.vms[v].refs == 1
      ensures s.q.requests[id].vm != v
    {
      assert RequestOk(s.contexts, s.q.requests, id);
      if s.q.requests[id].vm == v {
        SlotAndContext(s.contexts, s.files, s.vms, v, slot, s.q.requests[id].ctx);
      }
    }
    ReleasedKeepsBound(s.vms, s.q.requests, live, v);
  }

  lemma NameVmLinks(contexts: Contexts, files: Files, vms: Vms, f: nat, slot: nat, v: nat)
    requires LinksOk(contexts, files, vms) && f in files && slot !in files[f].vmIds && v in vms && vms[v].file == f
    ensures LinksOk(contexts, files[f := files[f].(vmIds := files[f].vmIds[slot := v])], Retained(vms, v))
  {
    var files', vms' := files[f := files[f].(vmIds := files[f].vmIds[slot := v])], Retained(vms, v);
    assert files'.Keys == files.Keys;
    forall w | w in vms && vms[w].file in files
      ensures HolderCount(contexts, files'[vms[w].file], w)
              == HolderCount(contexts, files[vms[w].file], w) + if w == v then 1 else 0
    {
      SlotHoldersWith(files[f].vmIds, slot, v, w);
    }
    RetainRefs(contexts, files, contexts, files', vms, v);
    forall x | x in contexts
      ensures ContextOk(contexts, files', vms', x)
    {
      assert ContextOk(contexts, files, vms, x);
    }
    forall x | x in files'
      ensures FileOk(contexts, files', vms', x)
    {
      assert FileOk(contexts, files, vms, x);
    }
  }

  lemma NameVmLife(s: Sys, c: nat, slot: nat)
    requires Alive(s) && LifeEnabled(s, NameVm(c, slot))
    ensures Alive(NamedVm(s, c, slot))
  {
    var f, v, s' := s.contexts[c].file, s.contexts[c].vm, NamedVm(s, c, slot);
    assert ContextOk(s.contexts, s.files, s.vms, c);
    NameVmLinks(s.contexts, s.files, s.vms, f, slot, v);
    assert s'.files.Keys == s.files.Keys && s'.vms.Keys == s.vms.Keys;
    SameInflight(s.files, s'.files, s.q.requests, s.q.LiveIds());
    SameFreed(s, s.contexts, s'.files, s'.vms);
    forall id | id in s.q.LiveIds()
      ensures BoundAt(s'.vms, s.q.requests, id)
    {
      assert BoundAt(s.vms, s.q.requests, id);
    }
  }

  lemma ContextHoldersMoved(contexts: Contexts, c: nat, v: nat, w: nat)
    requires c in contexts && v != contexts[c].vm
    ensures |ContextHolders(contexts[c := contexts[c].(vm := v)], w)|
            == |ContextHolders(contexts, w)| + (if w == v then 1 else 0) - (if w == contexts[c].vm then 1 else 0)
  {
    var without, k := contexts - {c}, contexts[c].(vm := v);
    ContextHoldersWithout(contexts, c, w);
    ContextHoldersWith(without, c, k, w);
    assert without[c := k] == contexts[c := k];
  }

  /** A context that has not run yet moves to another address space of its file. */
  lemma MovedCount(contexts: Contexts, files: Files, vms: Vms, c: nat, v: nat, w: nat)
    requires LinksOk(contexts, files, vms) && c in contexts && v != contexts[c].vm && w in vms
    ensures vms[w].file in files && vms[w].refs > 0
    ensures HolderCount(contexts[c := contexts[c].(vm := v)], files[vms[w].file], w)
            == vms[w].refs + (if w == v then 1 else 0) - (if w == contexts[c].vm then 1 else 0)
  {
    assert RefOk(contexts, files, vms, w);
    ContextHoldersMoved(contexts, c, v, w);
  }

  /** What else the links say, where the space left behind has no holders if it goes. */
  lemma MovedNames(contexts: Contexts, files: Files, vms: Vms, c: nat, v: nat)
    requires LinksOk(contexts, files, vms) && c in contexts && contexts[c].vm in vms && v in vms
    requires vms[v].file == contexts[c].file && v != contexts[c].vm && vms[contexts[c].vm].refs > 0
    requires vms[contexts[c].vm].file in files
    requires vms[contexts[c].vm].refs == 1 ==>
               HolderCount(contexts[c := contexts[c].(vm := v)], files[vms[contexts[c].vm].file], contexts[c].vm) == 0
    ensures var contexts', vms' := contexts[c := contexts[c].(vm := v)], Released(Retained(vms, v), contexts[c].vm);
            ContextsOk(contexts', files, vms') && FilesOk(contexts', files, vms')
  {
    var u := contexts[c].vm;
    var contexts', vms' := contexts[c := contexts[c].(vm := v)], Released(Retained(vms, v), u);
    if vms[u].refs == 1 {
      EmptyHolders(contexts', files[vms[u].file], u);
    }
    forall x | x in contexts'
      ensures ContextOk(contexts', files, vms', x)
    {
      assert ContextOk(contexts, files, vms, x) && ContextOk(contexts, files, vms, c);
    }
    forall f | f in files
      ensures FileOk(contexts', files, vms', f)
    {
      assert FileOk(contexts, files, vms, f);
    }
  }

  lemma MoveContextLinks(contexts: Contexts, files: Files, vms: Vms, c: nat, v: nat)
    requires LinksOk(contexts, files, vms) && c in contexts && contexts[c].vm in vms && v in vms
    requires vms[v].file == contexts[c].file && v != contexts[c].vm && vms[contexts[c].vm].refs > 0
    ensures LinksOk(contexts[c := contexts[c].(vm := v)], files, Released(Retained(vms, v), contexts[c].vm))
  {
    var u, contexts' := contexts[c].vm, contexts[c := contexts[c].(vm := v)];
    forall w {:trigger vms[w]} | w in vms
      ensures vms[w].file in files && vms[w].refs > 0
      ensures HolderCount(contexts', files[vms[w].file], w)
              == vms[w].refs + (if w == v then 1 else 0) - (if w == u then 1 else 0)
    {
      MovedCount(contexts, files, vms, c, v, w);
    }
    MovedRefs(contexts', files, vms, v, u);
    MovedCount(contexts, files, vms, c, v, u);
    MovedNames(contexts, files, vms, c, v);
  }

  lemma MovedRefs(contexts: Contexts, files: Files, vms: Vms, v: nat, u: nat)
    requires v in vms && u in vms && u != v && vms[u].refs > 0
    requires forall w {:trigger vms[w]} :: w in vms ==>
               && vms[w].file in files && vms[w].refs > 0
               && HolderCount(contexts, files[vms[w].file], w) == vms[w].refs + (if w == v then 1 else 0) - (if w == u then 1 else 0)
    ensures RefsOk(contexts, files, Released(Retained(vms, v), u))
  {
  }

  lemma SetVmLife(s: Sys, c: nat, slot: nat)
    requires QueueInv(s.q) && Alive(s) && CanSetVm(s, c, slot)
    ensures Alive(VmSet(s, c, slot))
  {
    var f, v, u, s', live := s.contexts[c].file, s.files[s.contexts[c].file].vmIds[slot], s.contexts[c].vm, VmSet(s, c, slot), s.q.LiveIds();
    assert FileOk(s.contexts, s.files, s.vms, f) && ContextOk(s.contexts, s.files, s.vms, c);
    if v == u {
      assert s'.contexts == s.contexts && s'.vms == s.vms && s'.freed == s.freed;
    } else {
      MoveContextLinks(s.contexts, s.files, s.vms, c, v);
      SetVmRequests(s, c, slot);
      assert s'.contexts.Keys == s.contexts.Keys;
      SamePending(s.contexts, s'.contexts, s.q.requests, live);
      var mid := s.(vms := Retained(s.vms, v), contexts := s'.contexts);
      assert mid.vms.Keys == s.vms.Keys;
      SameFreed(s, mid.contexts, s.files, mid.vms);
      FreedAfterRelease(mid, u);
    }
  }

  /** No request runs in a context that has not run. */
  lemma SetVmRequests(s: Sys, c: nat, slot: nat)
    requires Alive(s) && CanSetVm(s, c, slot) && s.files[s.contexts[c].file].vmIds[slot] != s.contexts[c].vm
    ensures var s' := VmSet(s, c, slot);
            && RequestsOk(s'.contexts, s.q.requests, s.q.LiveIds())
            && BoundOk(s'.vms, s.q.requests, s.q.LiveIds())
  {
    var s', u, live := VmSet(s, c, slot), s.contexts[c].vm, s.q.LiveIds();
    assert RefOk(s.contexts, s.files, s.vms, u);
    forall id | id in live
      ensures RequestOk(s'.contexts, s.q.requests, id) && s.q.requests[id].ctx != c
    {
      assert RequestOk(s.contexts, s.q.requests, id);
    }
    forall id | id in live && s.vms[u].refs == 1
      ensures s.q.requests[id].vm != u
    {
      assert RequestOk(s.contexts, s.q.requests, id);
      if s.q.requests[id].vm == u {
        SharedVm(s.contexts, s.files, s.vms, u, c, s.q.requests[id].ctx);
      }
    }
    ReleasedKeepsBound(s.vms, s.q.requests, live, u);
    forall id | id in live
      ensures BoundAt(s'.vms, s.q.requests, id)
    {
      assert BoundAt(Released(s.vms, u), s.q.requests, id);
    }
  }

  // ------------------------------------------------------------------------
  // The whole invariant
  // ------------------------------------------------------------------------

  /** A space has one reference less, or is gone with its last; the others are as they were. */
  ghost predicate OneLess(vms: Vms, vms': Vms, v: nat) {
    && v in vms && vms[v].refs > 0
    && if vms[v].refs == 1 then vms' == vms - {v}
       else vms'.Keys == vms.Keys && vms'[v] == vms[v].(refs := vms[v].refs - 1) && vms' - {v} == vms - {v}
  }

  lemma DestroyContextCore(s: Sys, c: nat)
    requires Core(s) && CanDestroy(s, c)
    ensures Core(WithoutContext(s, c))
    ensures var s', f := WithoutContext(s, c), s.contexts[c].file;
            && s'.files == s.files[f := s.files[f].(table := s.files[f].table - {c})]
            && (if s.contexts[c].pending == 0 then s'.contexts == s.contexts - {c} && s'.freed[AContext(c)] == s.freed[AContext(c)] + 1
                else s'.contexts == s.contexts[c := s.contexts[c].(destroyed := true)] && s'.vms == s.vms && s'.freed == s.freed)
            && s'.q == s.q && s'.slots == s.slots
  {
    DestroyContextLife(s, c);
    DestroyedIs(s, c);
    var s' := WithoutContext(s, c);
    assert forall k :: k in s'.contexts ==> k in s.contexts && s'.contexts[k].timeline == s.contexts[k].timeline;
  }

  lemma DestroyedIs(s: Sys, c: nat)
    requires CanDestroy(s, c)
    ensures var s', f := WithoutContext(s, c), s.contexts[c].file;
            && s'.files == s.files[f := s.files[f].(table := s.files[f].table - {c})]
            && (if s.contexts[c].pending == 0 then s'.contexts == s.contexts - {c} && s'.freed[AContext(c)] == s.freed[AContext(c)] + 1
                else s'.contexts == s.contexts[c := s.contexts[c].(destroyed := true)] && s'.vms == s.vms && s'.freed == s.freed)
            && s'.q == s.q && s'.slots == s.slots && s'.sizes == s.sizes && s'.made == s.made && s'.born == s.born
  {
  }

  lemma DropVmCore(s: Sys, f: nat, slot: nat)
    requires Core(s) && CanDropVm(s, f, slot)
    ensures Core(WithoutVm(s, f, slot))
    ensures var s', v := WithoutVm(s, f, slot), s.files[f].vmIds[slot];
            && s'.files == s.files[f := s.files[f].(vmIds := s.files[f].vmIds - {slot})] && s'.contexts == s.contexts
            && OneLess(s.vms, s'.vms, v) && s'.q == s.q && s'.slots == s.slots
  {
    DropVmLife(s, f, slot);
  }

  lemma NameVmCore(s: Sys, c: nat, slot: nat)
    requires Core(s) && LifeEnabled(s, NameVm(c, slot))
    ensures Core(NamedVm(s, c, slot))
    ensures var s', f, v := NamedVm(s, c, slot), s.contexts[c].file, s.contexts[c].vm;
            && s'.files == s.files[f := s.files[f].(vmIds := s.files[f].vmIds[slot := v])] && s'.contexts == s.contexts
            && v in s'.vms && s'.vms[v].refs == s.vms[v].refs + 1 && s'.vms[v].bindings == s.vms[v].bindings
  {
    NameVmLife(s, c, slot);
  }

  lemma SetVmCore(s: Sys, c: nat, slot: nat)
    requires Core(s) && CanSetVm(s, c, slot)
    ensures Core(VmSet(s, c, slot))
    ensures var s', u, v := VmSet(s, c, slot), s.contexts[c].vm, s.files[s.contexts[c].file].vmIds[slot];
            && s'.contexts == s.contexts[c := s.contexts[c].(vm := v)] && s'.files == s.files && s'.q == s.q
            && (if u == v then s'.vms == s.vms
                else v in s'.vms && s'.vms[v] == s.vms[v].(refs := s.vms[v].refs + 1) && OneLess(s.vms[v := s'.vms[v]], s'.vms, u))
  {
    SetVmLife(s, c, slot);
    var s' := VmSet(s, c, slot);
    assert forall k :: k in s'.contexts ==> k in s.contexts && s'.contexts[k].timeline == s.contexts[k].timeline;
  }
}
