/**
 Implicit fencing: each buffer object keeps one fence per engine for its last user there and
 one for its last writer, an execbuffer waits for the ones that conflict with it, and its own
 fence replaces them. That so few fences are enough to keep every pair of conflicting
 requests apart, on two engines that run their queues in order, is what this module proves.
 */
module ImplicitFencing {
  import opened Basics
  import opened RequestQueue

  /** `GemObject::reads` and `GemObject::write`; no fence is the empty one. */
  datatype Slots = Slots(users: seq<Fence>, write: Fence)

  type Table = map<nat, Slots>

  const NO_FENCES := Slots([[], []], [])

  /** `addDependency`: neither signaled fences nor repeated ones are kept. */
  function AddDependency(status: seq<Status>, deps: seq<Fence>, f: Fence): seq<Fence> {
    if Polled(status, f) || f in deps then deps else deps + [f]
  }

  function AddDependencies(status: seq<Status>, deps: seq<Fence>, fs: seq<Fence>): seq<Fence>
    decreases |fs|
  {
    if fs == [] then deps
    else AddDependency(status, AddDependencies(status, deps, fs[..|fs| - 1]), fs[|fs| - 1])
  }

  /** What one entry of the object list has to wait for. */
  function UseDeps(status: seq<Status>, deps: seq<Fence>, slots: Slots, u: Use): seq<Fence>
    requires |slots.users| == 2
  {
    if u.async then deps
    else
      var afterWriter := AddDependency(status, deps, slots.write);
      if u.write then AddDependency(status, AddDependency(status, afterWriter, slots.users[0]), slots.users[1])
      else afterWriter
  }

  ghost predicate Known(t: Table, uses: seq<Use>) {
    forall u :: u in uses ==> u.obj in t && |t[u.obj].users| == 2
  }

  ghost function ImplicitDeps(status: seq<Status>, t: Table, uses: seq<Use>): seq<Fence>
    requires Known(t, uses)
    decreases |uses|
  {
    if uses == [] then []
    else
      var n := |uses| - 1;
      UseDeps(status, ImplicitDeps(status, t, uses[..n]), t[uses[n].obj], uses[n])
  }

  /** A request's fence where later ones will look (the loop over `setFence`). */
  ghost function Publish(t: Table, id: nat, e: nat, uses: seq<Use>): Table
    requires Known(t, uses) && e < 2
    ensures Publish(t, id, e, uses).Keys == t.Keys
    ensures forall o :: o in t && |t[o].users| == 2 ==> |Publish(t, id, e, uses)[o].users| == 2
    decreases |uses|
  {
    if uses == [] then t
    else
      var n := |uses| - 1;
      var before := Publish(t, id, e, uses[..n]);
      before[uses[n].obj := PublishOne(before[uses[n].obj], id, e, uses[n].write)]
  }

  function PublishOne(slots: Slots, id: nat, e: nat, write: bool): Slots
    requires |slots.users| == 2 && e < 2
  {
    Slots(slots.users[e := [id]], if write then [id] else slots.write)
  }

  predicate Distinct(uses: seq<Use>) {
    forall i, j :: 0 <= i < j < |uses| ==> uses[i].obj != uses[j].obj
  }

  // ------------------------------------------------------------------------
  // What the loops compute
  // ------------------------------------------------------------------------

  lemma {:induction false} AddDependenciesCover(status: seq<Status>, deps: seq<Fence>, fs: seq<Fence>)
    ensures forall f :: f in deps ==> f in AddDependencies(status, deps, fs)
    ensures forall f :: f in fs ==> Polled(status, f) || f in AddDependencies(status, deps, fs)
    ensures forall f :: f in AddDependencies(status, deps, fs) ==> f in deps || (f in fs && !Polled(status, f))
    decreases |fs|
  {
    if fs != [] {
      var n := |fs| - 1;
      AddDependenciesCover(status, deps, fs[..n]);
      assert fs == fs[..n] + [fs[n]];
    }
  }

  /** A request waits for every unsignaled fence its accesses conflict with, and for no others. */
  lemma {:induction false} ImplicitDepsCover(status: seq<Status>, t: Table, uses: seq<Use>)
    requires Known(t, uses)
    ensures forall u :: u in uses && !u.async ==> Polled(status, t[u.obj].write) || t[u.obj].write in ImplicitDeps(status, t, uses)
    ensures forall u, e :: u in uses && !u.async && u.write && 0 <= e < 2 ==>
              Polled(status, t[u.obj].users[e]) || t[u.obj].users[e] in ImplicitDeps(status, t, uses)
    ensures forall f :: f in ImplicitDeps(status, t, uses) ==>
              !Polled(status, f) && exists u :: u in uses && !u.async && (f == t[u.obj].write || (u.write && f in t[u.obj].users))
    decreases |uses|
  {
    if uses != [] {
      var n := |uses| - 1;
      assert uses == uses[..n] + [uses[n]];
      ImplicitDepsCover(status, t, uses[..n]);
      var before := ImplicitDeps(status, t, uses[..n]);
      var after := ImplicitDeps(status, t, uses);
      assert forall f :: f in before ==> f in after;
      forall f | f in after
        ensures !Polled(status, f) && exists u :: u in uses && !u.async && (f == t[u.obj].write || (u.write && f in t[u.obj].users))
      {
        if f !in before {
          assert uses[n] in uses;
        } else {
          var u :| u in uses[..n] && !u.async && (f == t[u.obj].write || (u.write && f in t[u.obj].users));
          assert u in uses;
        }
      }
    }
  }

  /** Publishing puts the request's fence in exactly the slots of the objects it uses. */
  lemma {:induction false} PublishSlots(t: Table, id: nat, e: nat, uses: seq<Use>)
    requires Known(t, uses) && e < 2 && Distinct(uses)
    ensures forall u :: u in uses ==> Publish(t, id, e, uses)[u.obj] == PublishOne(t[u.obj], id, e, u.write)
    ensures forall o :: o in t && (forall u :: u in uses ==> u.obj != o) ==> Publish(t, id, e, uses)[o] == t[o]
    decreases |uses|
  {
    if uses != [] {
      var n := |uses| - 1;
      assert uses == uses[..n] + [uses[n]];
      PublishSlots(t, id, e, uses[..n]);
      forall u | u in uses
        ensures Publish(t, id, e, uses)[u.obj] == PublishOne(t[u.obj], id, e, u.write)
      {
        var i :| 0 <= i < |uses| && uses[i] == u;
        if i < n {
          assert uses[..n][i] == u && u.obj != uses[n].obj;
        } else {
          assert forall v :: v in uses[..n] ==> v.obj != u.obj;
        }
      }
    }
  }

  // ------------------------------------------------------------------------
  // What every step keeps
  // ------------------------------------------------------------------------

  /** `f` waits for a request on engine `e` that is `id` or was submitted after it. */
  ghost predicate Covers(q: Queues, f: Fence, e: nat, id: nat)
    requires |q.lanes| == 2 && e < 2
  {
    exists x :: x in f && x in q.lanes[e].Ids() && x >= id
  }

  /** `y` waits on its engine, at or ahead of `c`, for a request `z` of the other engine that is
      `a` or behind it: `c` cannot start before `a` has retired. */
  ghost predicate HeldBy(q: Queues, a: nat, c: nat, y: nat, z: nat) {
    && |q.lanes| == 2
    && a in q.requests && c in q.requests && y in q.requests
    && q.requests[a].engine < 2 && q.requests[c].engine == 1 - q.requests[a].engine
    && y in q.lanes[q.requests[c].engine].queue && y <= c
    && z in q.lanes[q.requests[a].engine].Ids() && a <= z
    && exists f :: f in q.requests[y].deps && z in f
  }

  ghost predicate Held(q: Queues, a: nat, c: nat) {
    exists y, z :: HeldBy(q, a, c, y, z)
  }

  /** `x` is `id`, or cannot finish before it. */
  ghost predicate Follows(q: Queues, id: nat, x: nat) {
    && q.Live(x) && id in q.requests && x in q.requests && id <= x
    && (q.requests[x].engine == q.requests[id].engine || Held(q, id, x))
  }

  /** `f` cannot be signaled before `id` has retired. */
  ghost predicate Behind(q: Queues, f: Fence, id: nat) {
    exists x :: x in f && Follows(q, id, x)
  }

  /** A request waiting on the other engine waits for `id`, and so holds up all that come after it there. */
  ghost predicate Blocks(q: Queues, id: nat) {
    exists y, z :: HeldBy(q, id, y, y, z)
  }

  /** The slots of an object cannot all be signaled before its user `id` has retired, now or after more
      submissions. The fence of the user's own engine is only ever replaced by one further down its queue. Of the
      others that can be said once the other engine is held up; or, for the writer's, when no submission skips it
      (`wild` is whether some may, by `EXEC_OBJECT_ASYNC`). */
  ghost predicate Guarded(q: Queues, slots: Slots, id: nat, wild: bool)
    requires |slots.users| == 2 && id in q.requests && q.requests[id].engine < 2
  {
    var e := q.requests[id].engine;
    || Behind(q, slots.users[e], id)
    || ((wild ==> Blocks(q, id)) && Behind(q, slots.write, id))
    || (Blocks(q, id) && Behind(q, slots.users[1 - e], id))
  }

  ghost predicate UsersCovered(q: Queues, t: Table, wild: bool) {
    forall id, u {:trigger u in q.requests[id].uses} :: q.Live(id) && id in q.requests && u in q.requests[id].uses ==>
      && u.obj in t && |t[u.obj].users| == 2 && q.requests[id].engine < 2
      && Guarded(q, t[u.obj], id, wild)
  }

  /** A later request of the other engine that conflicts with this use of an object will wait for `id`: for a use
      that only reads the later one has to write, and so looks at all slots. */
  ghost predicate Lined(q: Queues, slots: Slots, id: nat, write: bool)
    requires |slots.users| == 2 && id in q.requests && q.requests[id].engine < 2
  {
    || Blocks(q, id)
    || Behind(q, slots.write, id)
    || (!write && Behind(q, slots.users[q.requests[id].engine], id))
  }

  ghost predicate UsersLined(q: Queues, t: Table) {
    forall id, u {:trigger u in q.requests[id].uses} :: q.Live(id) && id in q.requests && u in q.requests[id].uses ==>
      && u.obj in t && |t[u.obj].users| == 2 && q.requests[id].engine < 2
      && Lined(q, t[u.obj], id, u.write)
  }

  predicate Conflict(a: Request, c: Request) {
    exists u, v :: u in a.uses && v in c.uses && u.obj == v.obj && (u.write || v.write)
  }

  /** Two unretired requests that conflict, on different engines. */
  ghost predicate CrossConflict(q: Queues, a: nat, c: nat) {
    && a < c && q.Live(a) && q.Live(c) && a in q.requests && c in q.requests
    && Conflict(q.requests[a], q.requests[c])
    && q.requests[a].engine != q.requests[c].engine
  }

  /** Of two unretired requests that conflict, the later is held back by the earlier (on one
      engine, by the queue itself). */
  ghost predicate ConflictsHeld(q: Queues) {
    forall a, c {:trigger Held(q, a, c)} {:trigger CrossConflict(q, a, c)} :: CrossConflict(q, a, c) ==> Held(q, a, c)
  }

  ghost predicate SlotsOk(q: Queues, t: Table) {
    && (forall o :: o in t ==> |t[o].users| == 2)
    && (forall o, x {:trigger x in t[o].write} :: o in t && x in t[o].write ==> x < |q.status|)
    && (forall o, x {:trigger x in t[o].users[0]} :: o in t && x in t[o].users[0] ==> x < |q.status|)
    && (forall o, x {:trigger x in t[o].users[1]} :: o in t && x in t[o].users[1] ==> x < |q.status|)
  }

  ghost predicate UsageInv(q: Queues, t: Table, wild: bool) {
    QueueInv(q) && SlotsOk(q, t) && UsersCovered(q, t, wild)
  }

  ghost predicate NoAsync(uses: seq<Use>) {
    forall u :: u in uses ==> !u.async
  }

  ghost predicate FencingInv(q: Queues, t: Table) {
    QueueInv(q) && SlotsOk(q, t) && UsersLined(q, t) && ConflictsHeld(q)
  }

  /** The request an execbuffer makes, and what it leaves behind. */
  ghost function Build(q: Queues, t: Table, e: nat, file: nat, ctx: nat, vm: nat, uses: seq<Use>, explicit: seq<Fence>): Request
    requires Known(t, uses)
  {
    Request(e, file, ctx, vm, uses, AddDependencies(q.status, ImplicitDeps(q.status, t, uses), explicit))
  }

  ghost predicate Explicit(q: Queues, explicit: seq<Fence>) {
    forall f, x :: f in explicit && x in f ==> x < |q.status|
  }

  lemma BehindUnsignaled(q: Queues, f: Fence, id: nat)
    requires QueueInv(q) && Behind(q, f, id)
    ensures !Polled(q.status, f)
  {
    var x :| x in f && Follows(q, id, x);
    assert !Signaled(q.status, x);
  }

  lemma GuardedBusy(q: Queues, slots: Slots, id: nat, wild: bool)
    requires QueueInv(q) && |slots.users| == 2 && id in q.requests && q.requests[id].engine < 2
    requires Guarded(q, slots, id, wild)
    ensures !(Polled(q.status, slots.users[0]) && Polled(q.status, slots.users[1]) && Polled(q.status, slots.write))
  {
    forall f | Behind(q, f, id)
      ensures !Polled(q.status, f)
    {
      BehindUnsignaled(q, f, id);
    }
  }

  /** An idle object has no unretired user (`objectIdle`). */
  lemma IdleUnused(q: Queues, t: Table, o: nat, wild: bool)
    requires UsageInv(q, t, wild) && o in t
    requires Polled(q.status, t[o].users[0]) && Polled(q.status, t[o].users[1]) && Polled(q.status, t[o].write)
    ensures forall id, u :: q.Live(id) && id in q.requests && u in q.requests[id].uses ==> u.obj != o
  {
    forall id, u | q.Live(id) && id in q.requests && u in q.requests[id].uses
      ensures u.obj != o
    {
      GuardedBusy(q, t[u.obj], id, wild);
    }
  }

  /** What a new request waits for are fences that exist. */
  lemma BuildDeps(q: Queues, t: Table, e: nat, file: nat, ctx: nat, vm: nat, uses: seq<Use>, explicit: seq<Fence>)
    requires SlotsOk(q, t) && Known(t, uses) && Explicit(q, explicit)
    ensures forall f, x :: f in Build(q, t, e, file, ctx, vm, uses, explicit).deps && x in f ==> x < |q.status|
  {
    ImplicitDepsCover(q.status, t, uses);
    AddDependenciesCover(q.status, ImplicitDeps(q.status, t, uses), explicit);
    var deps := Build(q, t, e, file, ctx, vm, uses, explicit).deps;
    forall f, x | f in deps && x in f
      ensures x < |q.status|
    {
      if f in ImplicitDeps(q.status, t, uses) {
        var u :| u in uses && !u.async && (f == t[u.obj].write || (u.write && f in t[u.obj].users));
        assert u.obj in t;
        assert t[u.obj].users == [t[u.obj].users[0], t[u.obj].users[1]];
      }
    }
  }

  lemma PublishedSlotsOk(q: Queues, q': Queues, t: Table, id: nat, r: Request)
    requires SlotsOk(q, t) && r.engine < 2 && Known(t, r.uses) && Distinct(r.uses)
    requires id == |q.status| && |q'.status| == |q.status| + 1
    ensures SlotsOk(q', Publish(t, id, r.engine, r.uses))
  {
    var t' := Publish(t, id, r.engine, r.uses);
    PublishSlots(t, id, r.engine, r.uses);
    forall o | o in t'
      ensures |t'[o].users| == 2
      ensures forall x :: x in t'[o].write || x in t'[o].users[0] || x in t'[o].users[1] ==> x < |q'.status|
    {
      if u :| u in r.uses && u.obj == o {
        assert t'[o] == PublishOne(t[o], id, r.engine, u.write);
      } else {
        assert t'[o] == t[o];
      }
    }
  }

  /** The fences a new request waits for, or that a request already waiting on its engine waits
      for, put it behind `a`, a request of the other engine. */
  ghost predicate Orders(q: Queues, r: Request, a: nat)
    requires |q.lanes| == 2 && r.engine < 2 && a in q.requests && q.requests[a].engine < 2
  {
    || (exists f :: f in r.deps && Covers(q, f, q.requests[a].engine, a))
    || (exists y, f :: y in q.lanes[r.engine].queue && y in q.requests && f in q.requests[y].deps
                       && Covers(q, f, q.requests[a].engine, a))
  }

  lemma OrderedIsHeld(q: Queues, r: Request, a: nat)
    requires QueueInv(q) && r.engine < 2
    requires q.Live(a) && a in q.requests && q.requests[a].engine == 1 - r.engine
    requires Orders(q, r, a)
    ensures Held(Enqueue(q, r), a, |q.status|)
  {
    EnqueueLanes(q, r);
    var ea, c, q' := q.requests[a].engine, |q.status|, Enqueue(q, r);
    assert a < c;
    if f :| f in r.deps && Covers(q, f, ea, a) {
      var z :| z in f && z in q.lanes[ea].Ids() && z >= a;
      assert HeldBy(q', a, c, c, z);
    } else {
      var y, f :| y in q.lanes[r.engine].queue && y in q.requests && f in q.requests[y].deps && Covers(q, f, ea, a);
      var z :| z in f && z in q.lanes[ea].Ids() && z >= a;
      assert y in q.lanes[r.engine].Ids() && y < c;
      assert HeldBy(q', a, c, y, z);
    }
  }

  lemma HeldIsOrdered(q: Queues, r: Request, a: nat)
    requires |q.lanes| == 2 && r.engine < 2 && a in q.requests && q.requests[a].engine == 1 - r.engine
    requires |q.status| !in q.requests && a < |q.status|
    requires Held(Enqueue(q, r), a, |q.status|)
    ensures Orders(q, r, a)
  {
    EnqueueLanes(q, r);
    var q' := Enqueue(q, r);
    var y, z :| HeldBy(q', a, |q.status|, y, z);
    var f :| f in q'.requests[y].deps && z in f;
    assert Covers(q, f, q.requests[a].engine, a);
    assert y == |q.status| || y in q.lanes[r.engine].queue;
  }

  /** That is exactly what holds it back once it is queued. */
  lemma OrdersIsHeld(q: Queues, r: Request, a: nat)
    requires QueueInv(q) && r.engine < 2
    requires q.Live(a) && a in q.requests && q.requests[a].engine == 1 - r.engine
    ensures Orders(q, r, a) <==> Held(Enqueue(q, r), a, |q.status|)
  {
    if Orders(q, r, a) {
      OrderedIsHeld(q, r, a);
    }
    if Held(Enqueue(q, r), a, |q.status|) {
      HeldIsOrdered(q, r, a);
    }
  }

  /** A writer the request waits for puts it behind everyone that writer follows. */
  lemma OrderedByWriter(q: Queues, r: Request, a: nat, f: Fence, x: nat)
    requires QueueInv(q) && r.engine < 2 && f in r.deps && x in f
    requires q.Live(a) && a in q.requests && q.requests[a].engine == 1 - r.engine
    requires Follows(q, a, x)
    ensures Orders(q, r, a)
  {
    LiveInOneLane(q, x);
    if q.requests[x].engine == q.requests[a].engine {
      assert Covers(q, f, q.requests[a].engine, a);
    } else {
      var y, z :| HeldBy(q, a, x, y, z);
      var g :| g in q.requests[y].deps && z in g;
      assert Covers(q, g, q.requests[a].engine, a);
    }
  }

  /** The dependencies an execbuffer gathers put it behind every unretired request of the other
      engine that it conflicts with. */
  lemma DepsOrder(q: Queues, t: Table, r: Request, a: nat)
    requires FencingInv(q, t) && r.engine < 2 && Known(t, r.uses) && NoAsync(r.uses)
    requires Heeds(q, t, r)
    requires q.Live(a) && a in q.requests && q.requests[a].engine != r.engine && Conflict(q.requests[a], r)
    ensures q.requests[a].engine == 1 - r.engine && Orders(q, r, a)
  {
    LiveInOneLane(q, a);
    ImplicitDepsCover(q.status, t, r.uses);
    var u, v :| u in q.requests[a].uses && v in r.uses && u.obj == v.obj && (u.write || v.write);
    assert Lined(q, t[u.obj], a, u.write);
    if Blocks(q, a) {
      BlocksOrders(q, r, a);
    } else {
      var f := if Behind(q, t[u.obj].write, a) then t[u.obj].write else t[u.obj].users[q.requests[a].engine];
      var x :| x in f && Follows(q, a, x);
      assert !Signaled(q.status, x);
      OrderedByWriter(q, r, a, f, x);
    }
  }

  /** A submission is safe when every unretired request of the other engine that it conflicts
      with is ordered before it. Without `EXEC_OBJECT_ASYNC` every submission is. */
  ghost predicate SafeSubmit(q: Queues, r: Request)
    requires |q.lanes| == 2 && r.engine < 2
  {
    forall a :: q.Live(a) && a in q.requests && q.requests[a].engine == 1 - r.engine && Conflict(q.requests[a], r)
      ==> Orders(q, r, a)
  }

  lemma NoAsyncIsSafe(q: Queues, t: Table, r: Request)
    requires FencingInv(q, t) && r.engine < 2 && Known(t, r.uses) && NoAsync(r.uses) && Heeds(q, t, r)
    ensures SafeSubmit(q, r)
  {
    forall a | q.Live(a) && a in q.requests && q.requests[a].engine == 1 - r.engine && Conflict(q.requests[a], r)
      ensures Orders(q, r, a)
    {
      DepsOrder(q, t, r, a);
    }
  }

  lemma HeldKeptByEnqueue(q: Queues, r: Request, a: nat, c: nat)
    requires QueueInv(q) && r.engine < 2 && Held(q, a, c)
    ensures Held(Enqueue(q, r), a, c)
  {
    EnqueueLanes(q, r);
    var y, z :| HeldBy(q, a, c, y, z);
    assert HeldBy(Enqueue(q, r), a, c, y, z);
  }

  lemma FollowsKeptByEnqueue(q: Queues, r: Request, id: nat, x: nat)
    requires QueueInv(q) && r.engine < 2 && Follows(q, id, x)
    ensures Follows(Enqueue(q, r), id, x)
  {
    EnqueueLanes(q, r);
    if q.requests[x].engine != q.requests[id].engine {
      HeldKeptByEnqueue(q, r, id, x);
    }
  }

  lemma BehindKeptByEnqueue(q: Queues, r: Request, f: Fence, id: nat)
    requires QueueInv(q) && r.engine < 2 && Behind(q, f, id)
    ensures Behind(Enqueue(q, r), f, id)
  {
    var x :| x in f && Follows(q, id, x);
    FollowsKeptByEnqueue(q, r, id, x);
  }

  lemma BlocksKeptByEnqueue(q: Queues, r: Request, id: nat)
    requires QueueInv(q) && r.engine < 2 && Blocks(q, id)
    ensures Blocks(Enqueue(q, r), id)
  {
    EnqueueLanes(q, r);
    var y, z :| HeldBy(q, id, y, y, z);
    assert HeldBy(Enqueue(q, r), id, y, y, z);
  }

  lemma HeldBlocks(q: Queues, a: nat, c: nat)
    requires Held(q, a, c) && LaneOk(q, 0) && LaneOk(q, 1)
    ensures Blocks(q, a)
  {
    var y, z :| HeldBy(q, a, c, y, z);
    assert y in q.lanes[q.requests[c].engine].Ids();
    assert HeldBy(q, a, y, y, z);
  }

  /** A held up engine holds up whoever comes next. */
  lemma BlocksOrders(q: Queues, r: Request, id: nat)
    requires QueueInv(q) && r.engine < 2 && Blocks(q, id) && q.requests[id].engine == 1 - r.engine
    ensures Orders(q, r, id)
  {
    var y, z :| HeldBy(q, id, y, y, z);
    var f :| f in q.requests[y].deps && z in f;
    assert Covers(q, f, q.requests[id].engine, id);
  }

  /** What a request ordered after `id` leaves behind. */
  lemma OrderedLeaves(q: Queues, r: Request, id: nat)
    requires QueueInv(q) && r.engine < 2 && q.Live(id) && id in q.requests
    requires forall f, x :: f in r.deps && x in f ==> x < |q.status|
    requires q.requests[id].engine == r.engine || (q.requests[id].engine == 1 - r.engine && Orders(q, r, id))
    ensures Follows(Enqueue(q, r), id, |q.status|)
    ensures q.requests[id].engine != r.engine ==> Blocks(Enqueue(q, r), id)
  {
    EnqueueInv(q, r);
    if q.requests[id].engine != r.engine {
      OrderedIsHeld(q, r, id);
      HeldBlocks(Enqueue(q, r), id, |q.status|);
    }
  }

  ghost predicate Heeds(q: Queues, t: Table, r: Request)
    requires Known(t, r.uses)
  {
    forall f :: f in ImplicitDeps(q.status, t, r.uses) ==> f in r.deps
  }

  /** An object listed by a new request of the other engine. */
  lemma SubmitGuards(q: Queues, t: Table, r: Request, id: nat, v: Use, wild: bool)
    requires QueueInv(q) && SlotsOk(q, t) && r.engine < 2 && Known(t, r.uses) && Heeds(q, t, r) && (wild || NoAsync(r.uses))
    requires forall f, x :: f in r.deps && x in f ==> x < |q.status|
    requires q.Live(id) && id in q.requests && q.requests[id].engine < 2 && v in r.uses
    requires Guarded(q, t[v.obj], id, wild)
    ensures Guarded(Enqueue(q, r), PublishOne(t[v.obj], |q.status|, r.engine, v.write), id, wild)
  {
    var n, e, slots, q' := |q.status|, q.requests[id].engine, t[v.obj], Enqueue(q, r);
    var slots' := PublishOne(slots, n, r.engine, v.write);
    LiveInOneLane(q, id);
    if e == r.engine {
      OrderedLeaves(q, r, id);
      assert Behind(q', slots'.users[e], id);
    } else if Behind(q, slots.users[e], id) {
      BehindKeptByEnqueue(q, r, slots.users[e], id);
    } else if Blocks(q, id) {
      BlocksOrders(q, r, id);
      OrderedLeaves(q, r, id);
      assert Behind(q', slots'.users[1 - e], id);
    } else if v.write {
      var x :| x in slots.write && Follows(q, id, x);
      ImplicitDepsCover(q.status, t, r.uses);
      assert !Signaled(q.status, x);
      OrderedByWriter(q, r, id, slots.write, x);
      OrderedLeaves(q, r, id);
      assert Behind(q', slots'.users[1 - e], id);
    } else {
      BehindKeptByEnqueue(q, r, slots.write, id);
    }
  }

  lemma GuardedKeptByEnqueue(q: Queues, r: Request, slots: Slots, id: nat, wild: bool)
    requires QueueInv(q) && r.engine < 2 && |slots.users| == 2 && id in q.requests && q.requests[id].engine < 2
    requires Guarded(q, slots, id, wild)
    ensures id in Enqueue(q, r).requests && Enqueue(q, r).requests[id] == q.requests[id]
    ensures Guarded(Enqueue(q, r), slots, id, wild)
  {
    forall f | Behind(q, f, id)
      ensures Behind(Enqueue(q, r), f, id)
    {
      BehindKeptByEnqueue(q, r, f, id);
    }
    if Blocks(q, id) {
      BlocksKeptByEnqueue(q, r, id);
    }
  }

  lemma SubmitUsage(q: Queues, t: Table, r: Request, wild: bool)
    requires UsageInv(q, t, wild) && r.engine < 2 && Known(t, r.uses) && Distinct(r.uses)
    requires Heeds(q, t, r) && (wild || NoAsync(r.uses))
    requires forall f, x :: f in r.deps && x in f ==> x < |q.status|
    ensures UsageInv(Enqueue(q, r), Publish(t, |q.status|, r.engine, r.uses), wild)
  {
    var n, q' := |q.status|, Enqueue(q, r);
    var t' := Publish(t, n, r.engine, r.uses);
    EnqueueInv(q, r);
    PublishSlots(t, n, r.engine, r.uses);
    PublishedSlotsOk(q, q', t, n, r);
    forall id: nat, u | q'.Live(id) && id in q'.requests && u in q'.requests[id].uses
      ensures u.obj in t' && |t'[u.obj].users| == 2 && q'.requests[id].engine < 2 && Guarded(q', t'[u.obj], id, wild)
    {
      if id == n {
        assert Follows(q', n, n) && n in t'[u.obj].users[r.engine];
      } else if v :| v in r.uses && v.obj == u.obj {
        SubmitGuards(q, t, r, id, v, wild);
      } else {
        assert t'[u.obj] == t[u.obj];
        GuardedKeptByEnqueue(q, r, t[u.obj], id, wild);
      }
    }
  }

  lemma SubmitConflictsHeld(q: Queues, r: Request)
    requires QueueInv(q) && ConflictsHeld(q) && r.engine < 2
    requires forall f, x :: f in r.deps && x in f ==> x < |q.status|
    ensures ConflictsHeld(Enqueue(q, r)) <==> SafeSubmit(q, r)
  {
    var id, q' := |q.status|, Enqueue(q, r);
    EnqueueInv(q, r);
    if SafeSubmit(q, r) {
      forall a, c | CrossConflict(q', a, c)
        ensures Held(q', a, c)
      {
        LiveInOneLane(q', a);
        if c == id {
          OrdersIsHeld(q, r, a);
        } else {
          HeldKeptByEnqueue(q, r, a, c);
        }
      }
    }
    if ConflictsHeld(q') {
      forall a | q.Live(a) && a in q.requests && q.requests[a].engine == 1 - r.engine && Conflict(q.requests[a], r)
        ensures Orders(q, r, a)
      {
        assert CrossConflict(q', a, id);
        OrdersIsHeld(q, r, a);
      }
    }
  }

  /** Queueing a request keeps the conflicts in order exactly when the submission is safe. */
  lemma SubmitFencing(q: Queues, t: Table, r: Request)
    requires FencingInv(q, t) && r.engine < 2 && Known(t, r.uses) && Distinct(r.uses)
    requires forall f, x :: f in r.deps && x in f ==> x < |q.status|
    ensures FencingInv(Enqueue(q, r), Publish(t, |q.status|, r.engine, r.uses)) <==> SafeSubmit(q, r)
  {
    EnqueueInv(q, r);
    PublishedSlotsOk(q, Enqueue(q, r), t, |q.status|, r);
    SubmitConflictsHeld(q, r);
    if SafeSubmit(q, r) {
      SubmitLined(q, t, r);
    }
  }

  /** An object listed by a new request that is ordered after every request it conflicts with. */
  lemma SubmitLines(q: Queues, t: Table, r: Request, id: nat, u: Use, v: Use)
    requires FencingInv(q, t) && r.engine < 2 && Known(t, r.uses) && SafeSubmit(q, r)
    requires forall f, x :: f in r.deps && x in f ==> x < |q.status|
    requires q.Live(id) && id in q.requests && u in q.requests[id].uses && v in r.uses && v.obj == u.obj
    ensures q.requests[id].engine < 2
    ensures Lined(Enqueue(q, r), PublishOne(t[v.obj], |q.status|, r.engine, v.write), id, u.write)
  {
    var n, slots, q' := |q.status|, t[v.obj], Enqueue(q, r);
    var slots' := PublishOne(slots, n, r.engine, v.write);
    LiveInOneLane(q, id);
    assert Lined(q, slots, id, u.write);
    if Blocks(q, id) {
      BlocksKeptByEnqueue(q, r, id);
    } else if q.requests[id].engine == r.engine {
      OrderedLeaves(q, r, id);
      assert !u.write ==> Behind(q', slots'.users[r.engine], id);
      assert v.write ==> Behind(q', slots'.write, id);
      if u.write && !v.write {
        BehindKeptByEnqueue(q, r, slots.write, id);
      }
    } else if u.write || v.write {
      assert Conflict(q.requests[id], r);
      OrderedLeaves(q, r, id);
    } else {
      LinedKeptByEnqueue(q, r, slots, id, u.write);
    }
  }

  lemma LinedKeptByEnqueue(q: Queues, r: Request, slots: Slots, id: nat, write: bool)
    requires QueueInv(q) && r.engine < 2 && |slots.users| == 2 && id in q.requests && q.requests[id].engine < 2
    requires Lined(q, slots, id, write)
    ensures id in Enqueue(q, r).requests && Enqueue(q, r).requests[id] == q.requests[id]
    ensures Lined(Enqueue(q, r), slots, id, write)
  {
    forall f | Behind(q, f, id)
      ensures Behind(Enqueue(q, r), f, id)
    {
      BehindKeptByEnqueue(q, r, f, id);
    }
    if Blocks(q, id) {
      BlocksKeptByEnqueue(q, r, id);
    }
  }

  lemma SubmitLined(q: Queues, t: Table, r: Request)
    requires FencingInv(q, t) && r.engine < 2 && Known(t, r.uses) && Distinct(r.uses) && SafeSubmit(q, r)
    requires forall f, x :: f in r.deps && x in f ==> x < |q.status|
    ensures UsersLined(Enqueue(q, r), Publish(t, |q.status|, r.engine, r.uses))
  {
    var n, q' := |q.status|, Enqueue(q, r);
    var t' := Publish(t, n, r.engine, r.uses);
    EnqueueInv(q, r);
    PublishSlots(t, n, r.engine, r.uses);
    forall id: nat, u | q'.Live(id) && id in q'.requests && u in q'.requests[id].uses
      ensures u.obj in t' && |t'[u.obj].users| == 2 && q'.requests[id].engine < 2 && Lined(q', t'[u.obj], id, u.write)
    {
      if id == n {
        assert Follows(q', n, n) && n in t'[u.obj].users[r.engine] && (u.write ==> n in t'[u.obj].write);
      } else if v :| v in r.uses && v.obj == u.obj {
        SubmitLines(q, t, r, id, u, v);
      } else {
        assert t'[u.obj] == t[u.obj];
        LinedKeptByEnqueue(q, r, t[u.obj], id, u.write);
      }
    }
  }

  /** A dispatch moves no one out of its place. */
  lemma HeldKeptByDispatch(q: Queues, e: nat, a: nat, c: nat)
    requires QueueInv(q) && HeadReady(q, e) && Held(q, a, c)
    ensures Held(Dispatch(q, e), a, c)
  {
    DispatchLanes(q, e);
    var y, z :| HeldBy(q, a, c, y, z);
    if q.requests[c].engine == e && y == q.lanes[e].queue[0] {
      var f :| f in q.requests[y].deps && z in f;
      assert Signaled(q.status, z) && q.Live(z);
      assert false;
    }
    assert HeldBy(Dispatch(q, e), a, c, y, z);
  }

  /** A waiting request with an unsignaled dependency is not the next to leave. */
  lemma NotLeaving(q: Queues, e: nat, y: nat, f: Fence)
    requires QueueInv(q) && CanRetire(q, e)
    requires y in q.requests && f in q.requests[y].deps && !Polled(q.status, f)
    requires q.requests[y].engine < 2 && y in q.lanes[q.requests[y].engine].queue
    ensures y != Leaving(q, e)
  {
    IncreasingHead(q.lanes[e].Ids());
    assert q.lanes[e].active.Some? ==> q.lanes[e].queue == q.lanes[e].Ids()[1..];
    RetireDefined(q, e);
  }

  /** The two requests that hold one back stay where they are while a third retires. */
  lemma HeldByKept(q: Queues, e: nat, code: int, a: nat, c: nat, y: nat, z: nat)
    requires QueueInv(q) && CanRetire(q, e) && HeldBy(q, a, c, y, z)
    requires q.Live(a) && a != Leaving(q, e)
    ensures Leaving(q, e) < |q.status| && q.queuedCount > 0
    ensures HeldBy(Retire(q, e, code), a, c, y, z) && y != Leaving(q, e)
  {
    RetireDefined(q, e);
    RetireLanes(q, e, code);
    LiveInOneLane(q, a);
    var f :| f in q.requests[y].deps && z in f;
    assert q.Live(z) && !Signaled(q.status, z);
    assert z != Leaving(q, e);
    NotLeaving(q, e, y, f);
  }

  /** A request that is held back stays so until the one it waits for retires. */
  lemma HeldKeptByRetire(q: Queues, e: nat, code: int, a: nat, c: nat)
    requires QueueInv(q) && CanRetire(q, e) && Held(q, a, c)
    requires q.Live(a) && q.Live(c) && a != Leaving(q, e)
    ensures Leaving(q, e) < |q.status| && q.queuedCount > 0
    ensures Held(Retire(q, e, code), a, c) && c != Leaving(q, e)
  {
    RetireDefined(q, e);
    LiveInOneLane(q, c);
    var y, z :| HeldBy(q, a, c, y, z);
    HeldByKept(q, e, code, a, c, y, z);
    assert y in q.lanes[q.requests[c].engine].Ids();
  }

  lemma FollowsKeptByDispatch(q: Queues, e: nat, id: nat, x: nat)
    requires QueueInv(q) && HeadReady(q, e) && Follows(q, id, x)
    ensures Follows(Dispatch(q, e), id, x)
  {
    DispatchInv(q, e);
    if q.requests[x].engine != q.requests[id].engine {
      HeldKeptByDispatch(q, e, id, x);
    }
  }

  lemma FollowsKeptByRetire(q: Queues, e: nat, code: int, id: nat, x: nat)
    requires QueueInv(q) && CanRetire(q, e) && Follows(q, id, x) && q.Live(id) && id != Leaving(q, e)
    ensures Leaving(q, e) < |q.status| && q.queuedCount > 0
    ensures Follows(Retire(q, e, code), id, x)
  {
    RetireInv(q, e, code);
    RetireDefined(q, e);
    LiveInOneLane(q, id);
    LiveInOneLane(q, x);
    if q.requests[x].engine != q.requests[id].engine {
      HeldKeptByRetire(q, e, code, id, x);
    }
  }

  /** What is said of the requests still unretired carries over from `q` to `q'`. */
  ghost predicate Carried(q: Queues, q': Queues) {
    && q'.requests == q.requests
    && (forall id :: q'.Live(id) ==> q.Live(id))
    && (forall id, x {:trigger Follows(q', id, x)} {:trigger Follows(q, id, x)} ::
          q'.Live(id) && Follows(q, id, x) ==> Follows(q', id, x))
    && (forall id {:trigger Blocks(q', id)} {:trigger Blocks(q, id)} :: q'.Live(id) && Blocks(q, id) ==> Blocks(q', id))
    && (forall a, c {:trigger Held(q', a, c)} {:trigger Held(q, a, c)} ::
          q'.Live(a) && q'.Live(c) && Held(q, a, c) ==> Held(q', a, c))
  }

  lemma BehindCarried(q: Queues, q': Queues, f: Fence, id: nat)
    requires Carried(q, q') && q'.Live(id) && Behind(q, f, id)
    ensures Behind(q', f, id)
  {
    var x :| x in f && Follows(q, id, x);
    assert Follows(q', id, x);
  }

  lemma CoveredCarried(q: Queues, q': Queues, t: Table, wild: bool)
    requires UsersCovered(q, t, wild) && Carried(q, q')
    ensures UsersCovered(q', t, wild)
  {
    forall id, u | q'.Live(id) && id in q'.requests && u in q'.requests[id].uses
      ensures u.obj in t && |t[u.obj].users| == 2 && q'.requests[id].engine < 2 && Guarded(q', t[u.obj], id, wild)
    {
      forall f | Behind(q, f, id)
        ensures Behind(q', f, id)
      {
        BehindCarried(q, q', f, id);
      }
      assert Guarded(q, t[u.obj], id, wild);
    }
  }

  lemma LinedCarried(q: Queues, q': Queues, t: Table)
    requires UsersLined(q, t) && ConflictsHeld(q) && Carried(q, q')
    ensures UsersLined(q', t) && ConflictsHeld(q')
  {
    forall id, u | q'.Live(id) && id in q'.requests && u in q'.requests[id].uses
      ensures u.obj in t && |t[u.obj].users| == 2 && q'.requests[id].engine < 2 && Lined(q', t[u.obj], id, u.write)
    {
      forall f | Behind(q, f, id)
        ensures Behind(q', f, id)
      {
        BehindCarried(q, q', f, id);
      }
      assert Lined(q, t[u.obj], id, u.write);
    }
    forall a, c | CrossConflict(q', a, c)
      ensures Held(q', a, c)
    {
      assert CrossConflict(q, a, c);
    }
  }

  lemma DispatchCarries(q: Queues, e: nat)
    requires QueueInv(q) && HeadReady(q, e)
    ensures Carried(q, Dispatch(q, e))
  {
    var q' := Dispatch(q, e);
    DispatchInv(q, e);
    forall id, x | Follows(q, id, x)
      ensures Follows(q', id, x)
    {
      FollowsKeptByDispatch(q, e, id, x);
    }
    forall a, c | Held(q, a, c)
      ensures Held(q', a, c)
    {
      HeldKeptByDispatch(q, e, a, c);
    }
    forall id | Blocks(q, id)
      ensures Blocks(q', id)
    {
      var y, z :| HeldBy(q, id, y, y, z);
      assert Held(q, id, y);
      HeldBlocks(q', id, y);
    }
  }

  lemma RetireCarries(q: Queues, e: nat, code: int)
    requires QueueInv(q) && CanRetire(q, e)
    ensures Leaving(q, e) < |q.status| && q.queuedCount > 0
    ensures Carried(q, Retire(q, e, code))
  {
    RetireInv(q, e, code);
    var q' := Retire(q, e, code);
    forall id, x | q'.Live(id) && Follows(q, id, x)
      ensures Follows(q', id, x)
    {
      FollowsKeptByRetire(q, e, code, id, x);
    }
    forall a, c | q'.Live(a) && q'.Live(c) && Held(q, a, c)
      ensures Held(q', a, c)
    {
      HeldKeptByRetire(q, e, code, a, c);
    }
    forall id | q'.Live(id) && Blocks(q, id)
      ensures Blocks(q', id)
    {
      var y, z :| HeldBy(q, id, y, y, z);
      HeldByKept(q, e, code, id, y, y, z);
    }
  }

  lemma SlotsKept(q: Queues, q': Queues, t: Table)
    requires SlotsOk(q, t) && |q.status| <= |q'.status|
    ensures SlotsOk(q', t)
  {
  }

  lemma DispatchUsage(q: Queues, t: Table, e: nat, wild: bool)
    requires UsageInv(q, t, wild) && HeadReady(q, e)
    ensures UsageInv(Dispatch(q, e), t, wild)
  {
    DispatchInv(q, e);
    DispatchCarries(q, e);
    CoveredCarried(q, Dispatch(q, e), t, wild);
  }

  lemma RetireUsage(q: Queues, t: Table, e: nat, code: int, wild: bool)
    requires UsageInv(q, t, wild) && CanRetire(q, e)
    ensures Leaving(q, e) < |q.status| && q.queuedCount > 0
    ensures UsageInv(Retire(q, e, code), t, wild)
  {
    RetireInv(q, e, code);
    RetireCarries(q, e, code);
    CoveredCarried(q, Retire(q, e, code), t, wild);
  }

  lemma DispatchFencing(q: Queues, t: Table, e: nat)
    requires FencingInv(q, t) && HeadReady(q, e)
    ensures FencingInv(Dispatch(q, e), t)
  {
    DispatchInv(q, e);
    DispatchCarries(q, e);
    LinedCarried(q, Dispatch(q, e), t);
  }

  lemma RetireFencing(q: Queues, t: Table, e: nat, code: int)
    requires FencingInv(q, t) && CanRetire(q, e)
    ensures Leaving(q, e) < |q.status| && q.queuedCount > 0
    ensures FencingInv(Retire(q, e, code), t)
  {
    RetireInv(q, e, code);
    RetireCarries(q, e, code);
    LinedCarried(q, Retire(q, e, code), t);
  }

  // ------------------------------------------------------------------------
  // Submissions that are refused
  // ------------------------------------------------------------------------

  /** What a refused submission leaves of an object's fences: its own is already in their place, signaled. */
  function Spent(slots: Slots, e: nat, write: bool): Slots
    requires |slots.users| == 2 && e < 2
  {
    Slots(slots.users[e := []], if write then [] else slots.write)
  }

  /** The fences that would be left still guard every unretired user of the objects. */
  ghost predicate Spares(q: Queues, t: Table, e: nat, uses: seq<Use>, wild: bool)
    requires e < 2 && Known(t, uses)
  {
    forall id, u {:trigger u in q.requests[id].uses} :: q.Live(id) && id in q.requests && u in q.requests[id].uses ==>
      q.requests[id].engine < 2 && SparesUse(q, t, e, uses, id, u, wild)
  }

  ghost predicate SparesUse(q: Queues, t: Table, e: nat, uses: seq<Use>, id: nat, u: Use, wild: bool)
    requires e < 2 && Known(t, uses) && id in q.requests && q.requests[id].engine < 2
  {
    forall v | v in uses && u.obj == v.obj :: Guarded(q, Spent(t[v.obj], e, v.write), id, wild)
  }

  /** They still keep every later conflicting request behind them. */
  ghost predicate SparesOrder(q: Queues, t: Table, e: nat, uses: seq<Use>)
    requires e < 2 && Known(t, uses)
  {
    forall id, u, v {:trigger u in q.requests[id].uses, v in uses} ::
      q.Live(id) && id in q.requests && u in q.requests[id].uses && v in uses && u.obj == v.obj
      ==> q.requests[id].engine < 2 && Lined(q, Spent(t[v.obj], e, v.write), id, u.write)
  }

  lemma SameHeld(q: Queues, code: int, a: nat, c: nat)
    ensures Held(Refuse(q, code), a, c) <==> Held(q, a, c)
    ensures Blocks(Refuse(q, code), a) <==> Blocks(q, a)
  {
    var q' := Refuse(q, code);
    assert forall x, y, z {:trigger HeldBy(q', a, x, y, z)} {:trigger HeldBy(q, a, x, y, z)} ::
        HeldBy(q', a, x, y, z) <==> HeldBy(q, a, x, y, z);
  }

  lemma SameFollows(q: Queues, code: int, id: nat, x: nat)
    ensures Follows(Refuse(q, code), id, x) <==> Follows(q, id, x)
  {
    SameHeld(q, code, id, x);
  }

  lemma SameBehind(q: Queues, code: int, f: Fence, id: nat)
    ensures Behind(Refuse(q, code), f, id) <==> Behind(q, f, id)
  {
    forall x
      ensures Follows(Refuse(q, code), id, x) <==> Follows(q, id, x)
    {
      SameFollows(q, code, id, x);
    }
  }

  lemma SameGuard(q: Queues, code: int, slots: Slots, id: nat, wild: bool, write: bool)
    requires |slots.users| == 2 && id in q.requests && q.requests[id].engine < 2
    ensures Guarded(Refuse(q, code), slots, id, wild) <==> Guarded(q, slots, id, wild)
    ensures Lined(Refuse(q, code), slots, id, write) <==> Lined(q, slots, id, write)
  {
    SameHeld(q, code, id, id);
    SameBehind(q, code, slots.users[0], id);
    SameBehind(q, code, slots.users[1], id);
    SameBehind(q, code, slots.write, id);
  }

  /** A signaled fence is as good as none. */
  lemma SpentIsPublished(q: Queues, slots: Slots, e: nat, id: nat, v: bool, wild: bool, write: bool)
    requires QueueInv(q) && |slots.users| == 2 && e < 2 && id in q.requests && q.requests[id].engine < 2
    ensures var slots' := PublishOne(slots, |q.status|, e, v);
            && (Guarded(q, slots', id, wild) <==> Guarded(q, Spent(slots, e, v), id, wild))
            && (Lined(q, slots', id, write) <==> Lined(q, Spent(slots, e, v), id, write))
  {
    assert !q.Live(|q.status|);
    assert !Behind(q, [|q.status|], id) && !Behind(q, [], id);
  }

  /** A user of an object a refused submission lists. */
  lemma RefusedListed(q: Queues, t: Table, e: nat, uses: seq<Use>, code: int, id: nat, u: Use, v: Use, wild: bool)
    requires QueueInv(q) && e < 2 && Known(t, uses) && Distinct(uses) && id in q.requests && q.requests[id].engine < 2
    requires v in uses && v.obj == u.obj
    ensures var q', slots' := Refuse(q, code), Publish(t, |q.status|, e, uses)[u.obj];
            && (Guarded(q', slots', id, wild) <==> Guarded(q, Spent(t[v.obj], e, v.write), id, wild))
            && (Lined(q', slots', id, u.write) <==> Lined(q, Spent(t[v.obj], e, v.write), id, u.write))
  {
    PublishSlots(t, |q.status|, e, uses);
    SameGuard(q, code, PublishOne(t[v.obj], |q.status|, e, v.write), id, wild, u.write);
    SpentIsPublished(q, t[v.obj], e, id, v.write, wild, u.write);
  }

  /** A user of an object it does not list. */
  lemma RefusedUnlisted(q: Queues, t: Table, e: nat, uses: seq<Use>, code: int, id: nat, u: Use, wild: bool)
    requires QueueInv(q) && e < 2 && Known(t, uses) && Distinct(uses) && id in q.requests && q.requests[id].engine < 2
    requires u.obj in t && |t[u.obj].users| == 2 && forall v | v in uses :: v.obj != u.obj
    ensures var q', slots' := Refuse(q, code), Publish(t, |q.status|, e, uses)[u.obj];
            && (Guarded(q', slots', id, wild) <==> Guarded(q, t[u.obj], id, wild))
            && (Lined(q', slots', id, u.write) <==> Lined(q, t[u.obj], id, u.write))
  {
    PublishSlots(t, |q.status|, e, uses);
    SameGuard(q, code, t[u.obj], id, wild, u.write);
  }

  /** A refused submission has already put its fence, signaled, in its objects' slots. Their users stay guarded
      exactly when what is left of the slots guards them. */
  lemma RefusedUsage(q: Queues, t: Table, e: nat, uses: seq<Use>, code: int, wild: bool)
    requires UsageInv(q, t, wild) && e < 2 && Known(t, uses) && Distinct(uses)
    ensures UsageInv(Refuse(q, code), Publish(t, |q.status|, e, uses), wild) <==> Spares(q, t, e, uses, wild)
  {
    var q' := Refuse(q, code);
    RefuseInv(q, code);
    PublishedSlotsOk(q, q', t, |q.status|, Request(e, 0, 0, 0, uses, []));
    assert forall id {:trigger q'.Live(id)} :: q'.Live(id) <==> q.Live(id);
    forall id: nat, u | q.Live(id) && id in q.requests && u in q.requests[id].uses
      ensures q.requests[id].engine < 2
      ensures Guarded(q', Publish(t, |q.status|, e, uses)[u.obj], id, wild) <==> SparesUse(q, t, e, uses, id, u, wild)
    {
      RefusedUse(q, t, e, uses, code, id, u, wild);
    }
  }

  lemma RefusedUse(q: Queues, t: Table, e: nat, uses: seq<Use>, code: int, id: nat, u: Use, wild: bool)
    requires UsageInv(q, t, wild) && e < 2 && Known(t, uses) && Distinct(uses)
    requires q.Live(id) && id in q.requests && u in q.requests[id].uses
    ensures q.requests[id].engine < 2 && u.obj in t && |t[u.obj].users| == 2
    ensures Guarded(Refuse(q, code), Publish(t, |q.status|, e, uses)[u.obj], id, wild) <==> SparesUse(q, t, e, uses, id, u, wild)
  {
    assert Guarded(q, t[u.obj], id, wild);
    if v :| v in uses && v.obj == u.obj {
      assert forall x | x in uses && x.obj == u.obj :: x == v;
      RefusedListed(q, t, e, uses, code, id, u, v, wild);
    } else {
      RefusedUnlisted(q, t, e, uses, code, id, u, wild);
    }
  }

  /** Conflicts stay in order exactly when what is left of the slots keeps later requests behind the users. */
  lemma RefusedFencing(q: Queues, t: Table, e: nat, uses: seq<Use>, code: int)
    requires FencingInv(q, t) && e < 2 && Known(t, uses) && Distinct(uses)
    ensures FencingInv(Refuse(q, code), Publish(t, |q.status|, e, uses)) <==> SparesOrder(q, t, e, uses)
  {
    var q' := Refuse(q, code);
    RefuseInv(q, code);
    PublishedSlotsOk(q, q', t, |q.status|, Request(e, 0, 0, 0, uses, []));
    assert forall id {:trigger q'.Live(id)} :: q'.Live(id) <==> q.Live(id);
    forall id: nat, u | q.Live(id) && id in q.requests && u in q.requests[id].uses
      ensures q.requests[id].engine < 2
      ensures Lined(q', Publish(t, |q.status|, e, uses)[u.obj], id, u.write) <==>
                forall v | v in uses && u.obj == v.obj :: Lined(q, Spent(t[v.obj], e, v.write), id, u.write)
    {
      assert Lined(q, t[u.obj], id, u.write);
      if v :| v in uses && v.obj == u.obj {
        assert forall x | x in uses && x.obj == u.obj :: x == v;
        RefusedListed(q, t, e, uses, code, id, u, v, true);
      } else {
        RefusedUnlisted(q, t, e, uses, code, id, u, true);
      }
    }
    RefusedConflicts(q, code);
  }

  lemma RefusedConflicts(q: Queues, code: int)
    requires QueueInv(q) && ConflictsHeld(q)
    ensures ConflictsHeld(Refuse(q, code))
  {
    forall a, c | CrossConflict(Refuse(q, code), a, c)
      ensures Held(Refuse(q, code), a, c)
    {
      assert CrossConflict(q, a, c);
      SameHeld(q, code, a, c);
    }
  }

  // ------------------------------------------------------------------------
  // Fences imported into an object (DMA_BUF_IOCTL_IMPORT_SYNC_FILE)
  // ------------------------------------------------------------------------

  /** `joinFences` of what a slot held and one more: signaled parts without an error drop out. */
  function Joined(status: seq<Status>, a: Fence, b: Fence): Fence {
    Filter((x: nat) => !(x < |status| && status[x] == Done(0)), a + b)
  }

  /** Into the writer's slot, or for a read the render engine's (line 2663). */
  function ImportInto(status: seq<Status>, slots: Slots, write: bool, f: Fence): Slots
    requires |slots.users| == 2
  {
    if write then slots.(write := Joined(status, slots.write, f))
    else slots.(users := slots.users[0 := Joined(status, slots.users[0], f)])
  }

  /** Joining takes no unsignaled fence out of a slot. */
  lemma ImportBehind(q: Queues, slots: Slots, write: bool, f: Fence, id: nat)
    requires QueueInv(q) && |slots.users| == 2
    ensures var slots' := ImportInto(q.status, slots, write, f);
            && (Behind(q, slots.write, id) ==> Behind(q, slots'.write, id))
            && forall e | 0 <= e < 2 :: Behind(q, slots.users[e], id) ==> Behind(q, slots'.users[e], id)
  {
    forall a, b | Behind(q, a, id)
      ensures Behind(q, Joined(q.status, a, b), id)
    {
      var x :| x in a && Follows(q, id, x);
      assert x in Joined(q.status, a, b);
    }
  }

  /** As a writer the fence joins the write slot, as a reader the first engine's; what is done without an error is left
      out, and nothing else changes. */
  lemma ImportIs(status: seq<Status>, slots: Slots, write: bool, f: Fence)
    requires |slots.users| == 2
    ensures var slots' := ImportInto(status, slots, write, f);
            && |slots'.users| == 2 && slots'.users[1] == slots.users[1]
            && (if write then slots'.users[0] == slots.users[0] else slots'.write == slots.write)
            && forall x :: x in (if write then slots'.write else slots'.users[0]) <==>
                 (x in f || x in if write then slots.write else slots.users[0]) && !(x < |status| && status[x] == Done(0))
  {
  }

  lemma ImportSlots(q: Queues, t: Table, o: nat, write: bool, f: Fence)
    requires SlotsOk(q, t) && o in t && forall x :: x in f ==> x < |q.status|
    ensures SlotsOk(q, t[o := ImportInto(q.status, t[o], write, f)])
  {
  }

  lemma ImportUsage(q: Queues, t: Table, o: nat, write: bool, f: Fence, wild: bool)
    requires UsageInv(q, t, wild) && o in t && forall x :: x in f ==> x < |q.status|
    ensures UsageInv(q, t[o := ImportInto(q.status, t[o], write, f)], wild)
  {
    var t' := t[o := ImportInto(q.status, t[o], write, f)];
    ImportSlots(q, t, o, write, f);
    forall id, u | q.Live(id) && id in q.requests && u in q.requests[id].uses
      ensures u.obj in t' && |t'[u.obj].users| == 2 && q.requests[id].engine < 2 && Guarded(q, t'[u.obj], id, wild)
    {
      assert Guarded(q, t[u.obj], id, wild);
      ImportBehind(q, t[o], write, f, id);
    }
  }

  lemma ImportFencing(q: Queues, t: Table, o: nat, write: bool, f: Fence)
    requires FencingInv(q, t) && o in t && forall x :: x in f ==> x < |q.status|
    ensures FencingInv(q, t[o := ImportInto(q.status, t[o], write, f)])
  {
    var t' := t[o := ImportInto(q.status, t[o], write, f)];
    ImportSlots(q, t, o, write, f);
    forall id, u | q.Live(id) && id in q.requests && u in q.requests[id].uses
      ensures u.obj in t' && |t'[u.obj].users| == 2 && q.requests[id].engine < 2 && Lined(q, t'[u.obj], id, u.write)
    {
      assert Lined(q, t[u.obj], id, u.write);
      ImportBehind(q, t[o], write, f, id);
    }
  }

  // ------------------------------------------------------------------------
  // The theorem
  // ------------------------------------------------------------------------

  lemma HeadNotHeld(q: Queues, e: nat, a: nat)
    requires |q.lanes| == 2 && e < 2 && LaneOk(q, e) && FencesOk(q) && HeadReady(q, e)
    ensures !Held(q, a, q.lanes[e].queue[0])
  {
    var c := q.lanes[e].queue[0];
    assert q.lanes[e].Ids() == q.lanes[e].queue;
    IncreasingHead(q.lanes[e].queue);
    forall y, z
      ensures !HeldBy(q, a, c, y, z)
    {
      if c in q.requests && q.requests[c].engine == e && y in q.lanes[e].queue && y <= c {
        assert y == c;
        assert q.Live(z) ==> !Signaled(q.status, z);
        assert forall f :: f in q.requests[y].deps && z in f ==> Polled(q.status, f) && Signaled(q.status, z);
      }
    }
  }

  /** When a request can be put on its engine, every earlier one it conflicts with has retired. */
  lemma NoConflictAtDispatch(q: Queues, t: Table, e: nat, a: nat)
    requires FencingInv(q, t) && HeadReady(q, e)
    requires a in q.requests && a < q.lanes[e].queue[0]
    requires Conflict(q.requests[a], q.requests[q.lanes[e].queue[0]])
    ensures !q.Live(a)
  {
    var c := q.lanes[e].queue[0];
    HeadNotHeld(q, e, a);
    assert q.lanes[e].Ids() == q.lanes[e].queue;
    IncreasingHead(q.lanes[e].Ids());
    assert q.Live(c) && !CrossConflict(q, a, c);
    if q.Live(a) {
      LiveInOneLane(q, a);
    }
  }
}
