/**
 The engines' request queues: what `queueRequest`, `dispatch`, `finishActive` and the
 skip and failure branches of `processRequests` do to them, one atomic step each.
 Requests are named by the order they were submitted in, and a request's own fence
 (`done`) carries its name.
 */
module RequestQueue {
  import opened Basics

  const RENDER := 0
  const BLITTER := 1

  /** A request's own fence: unsignaled, or signaled with 0 or a negative errno. */
  datatype Status = Pending | Done(code: int)

  /** What a fence stands for: the requests' fences it waits on. One for a request's own
      fence, several for a join, none for a fence made signaled (or no fence at all). */
  type Fence = seq<nat>

  /** One entry of an execbuffer's object list. */
  datatype Use = Use(obj: nat, va: nat, size: nat, write: bool, async: bool)

  datatype Request = Request(engine: nat, file: nat, ctx: nat, vm: nat, uses: seq<Use>, deps: seq<Fence>)

  /** What happened, oldest first. */
  datatype Event =
    | Accepted(id: nat)
    | Started(id: nat)
    | Retired(id: nat, code: int)

  /** One engine: the request on it and the ones waiting, in order. */
  datatype Lane = Lane(active: Option<nat>, queue: seq<nat>) {
    function Ids(): seq<nat> {
      (if active.Some? then [active.value] else []) + queue
    }
  }

  datatype Queues = Queues(
    status: seq<Status>,            // by fence
    requests: map<nat, Request>,    // every request ever accepted
    lanes: seq<Lane>,               // by engine
    queuedCount: nat,
    claimed: bool,                  // gpu-test holds the engines
    log: seq<Event>)
  {
    ghost predicate Live(id: nat) {
      |lanes| == 2 && (id in lanes[0].Ids() || id in lanes[1].Ids())
    }

    ghost function LiveIds(): set<nat> {
      if |lanes| == 2 then (set x | x in lanes[0].Ids()) + (set x | x in lanes[1].Ids()) else {}
    }
  }

  predicate Signaled(status: seq<Status>, id: nat) {
    id < |status| && status[id].Done?
  }

  /** `Fence::poll`. */
  predicate Polled(status: seq<Status>, f: Fence) {
    forall x :: x in f ==> Signaled(status, x)
  }

  /** The first error among a fence's parts (`Fence::poll`'s second loop). */
  function FenceError(status: seq<Status>, f: Fence): int
    requires Polled(status, f)
  {
    if f == [] then 0
    else
      assert f[0] in f && forall x :: x in f[1..] ==> x in f;
      if status[f[0]].code != 0 then status[f[0]].code else FenceError(status, f[1..])
  }

  predicate Ready(status: seq<Status>, deps: seq<Fence>) {
    forall f :: f in deps ==> Polled(status, f)
  }

  /** The error a request inherits: that of its last failed dependency. */
  function DepError(status: seq<Status>, deps: seq<Fence>): int
    requires Ready(status, deps)
  {
    if deps == [] then 0
    else
      var last := deps[|deps| - 1];
      assert last in deps && forall f :: f in deps[..|deps| - 1] ==> f in deps;
      if FenceError(status, last) < 0 then FenceError(status, last)
      else DepError(status, deps[..|deps| - 1])
  }

  /** The tail of `queueRequest`: a new request at the end of its engine's queue. */
  function Enqueue(q: Queues, r: Request): Queues
    requires |q.lanes| == 2 && r.engine < 2
  {
    var id := |q.status|;
    var lane := q.lanes[r.engine];
    q.(status := q.status + [Pending],
       requests := q.requests[id := r],
       lanes := q.lanes[r.engine := lane.(queue := lane.queue + [id])],
       queuedCount := q.queuedCount + 1,
       log := q.log + [Accepted(id)])
  }

  /** A submission `queueRequest` refuses: its fence is signaled with the error at once. */
  function Refuse(q: Queues, code: int): Queues {
    q.(status := q.status + [Done(code)])
  }

  /** The head of an idle engine's queue, with nothing left to wait for. */
  predicate HeadReady(q: Queues, e: nat) {
    && e < |q.lanes|
    && !q.claimed
    && q.lanes[e].active.None?
    && q.lanes[e].queue != []
    && q.lanes[e].queue[0] in q.requests
    && Ready(q.status, q.requests[q.lanes[e].queue[0]].deps)
  }

  /** `dispatch`: the head goes onto its engine. */
  function Dispatch(q: Queues, e: nat): Queues
    requires HeadReady(q, e)
  {
    var lane := q.lanes[e];
    q.(lanes := q.lanes[e := Lane(Some(lane.queue[0]), lane.queue[1..])],
       log := q.log + [Started(lane.queue[0])])
  }

  /** The request that leaves its engine next, if one may: the active one (it completed, or
      hung) or a head that is skipped. */
  predicate CanRetire(q: Queues, e: nat) {
    e < |q.lanes| && (q.lanes[e].active.Some? || HeadReady(q, e))
  }

  function Leaving(q: Queues, e: nat): nat
    requires CanRetire(q, e)
  {
    if q.lanes[e].active.Some? then q.lanes[e].active.value else q.lanes[e].queue[0]
  }

  /** `finishActive`, and the branches that fail a request without running it. */
  function Retire(q: Queues, e: nat, code: int): Queues
    requires CanRetire(q, e) && Leaving(q, e) < |q.status| && q.queuedCount > 0
  {
    var lane := q.lanes[e];
    var id := Leaving(q, e);
    q.(status := q.status[id := Done(code)],
       lanes := q.lanes[e := if lane.active.Some? then lane.(active := None) else lane.(queue := lane.queue[1..])],
       queuedCount := q.queuedCount - 1,
       log := q.log + [Retired(id, code)])
  }

  // ------------------------------------------------------------------------
  // What every step keeps
  // ------------------------------------------------------------------------

  predicate Rises(xs: seq<nat>, i: nat, j: nat)
    requires i < |xs| && j < |xs|
  {
    xs[i] < xs[j]
  }

  predicate Increasing(xs: seq<nat>) {
    forall i, j {:trigger Rises(xs, i, j)} :: 0 <= i < j < |xs| ==> Rises(xs, i, j)
  }

  lemma IncreasingAppend(xs: seq<nat>, x: nat)
    requires Increasing(xs) && forall y :: y in xs ==> y < x
    ensures Increasing(xs + [x])
  {
    forall i, j | 0 <= i < j < |xs + [x]|
      ensures Rises(xs + [x], i, j)
    {
      if j < |xs| {
        assert Rises(xs, i, j);
      } else {
        assert xs[i] in xs;
      }
    }
  }

  lemma IncreasingHead(xs: seq<nat>)
    requires Increasing(xs) && xs != []
    ensures forall y :: y in xs ==> xs[0] <= y
    ensures xs[0] !in xs[1..] && Increasing(xs[1..])
  {
    forall j | 0 < j < |xs|
      ensures xs[0] < xs[j]
    {
      assert Rises(xs, 0, j);
    }
    forall i, j | 0 <= i < j < |xs[1..]|
      ensures Rises(xs[1..], i, j)
    {
      assert Rises(xs, i + 1, j + 1);
    }
  }

  /** A lane runs its own engine's requests, in the order they were submitted. */
  ghost predicate LaneOk(q: Queues, e: nat)
    requires e < |q.lanes|
  {
    && Increasing(q.lanes[e].Ids())
    && forall id :: id in q.lanes[e].Ids() ==> id in q.requests && q.requests[id].engine == e
  }

  /** A fence is unsignaled exactly while its request is queued or running. */
  ghost predicate FencesOk(q: Queues) {
    && (forall id :: id in q.requests ==> id < |q.status|)
    && (forall id {:trigger q.status[id]} :: 0 <= id < |q.status| ==> (q.status[id].Pending? <==> q.Live(id)))
  }

  /** Dependencies name only earlier submissions. */
  ghost predicate DepsOk(q: Queues) {
    forall id, f, x {:trigger f in q.requests[id].deps, x in f} ::
      id in q.requests && f in q.requests[id].deps && x in f ==> x < id
  }

  ghost predicate HasRetired(log: seq<Event>, id: nat) {
    exists i :: 0 <= i < |log| && log[i].Retired? && log[i].id == id
  }

  ghost predicate WasStarted(q: Queues, x: nat) {
    Started(x) in q.log
  }

  /** Every request is accepted once and retires at most once, and is started between the two
      if at all; it has retired exactly when it is no longer queued or running. */
  ghost predicate LogOk(q: Queues) {
    && (forall id {:trigger HasRetired(q.log, id)} :: id in q.requests ==> (HasRetired(q.log, id) <==> !q.Live(id)))
    && (forall i :: 0 <= i < |q.log| ==> q.log[i].id in q.requests)
    && (forall i, j {:trigger q.log[i], q.log[j]} :: 0 <= i < j < |q.log| && q.log[i].Retired? ==>
          && (q.log[j].Retired? ==> q.log[i].id != q.log[j].id)
          && (q.log[j].Started? ==> q.log[i].id != q.log[j].id))
  }

  ghost predicate QueueInv(q: Queues) {
    && |q.lanes| == 2
    && LaneOk(q, 0) && LaneOk(q, 1)
    && FencesOk(q)
    && DepsOk(q)
    && q.queuedCount == |q.lanes[0].Ids()| + |q.lanes[1].Ids()|
  }

  const EMPTY := Queues([], map[], [Lane(None, []), Lane(None, [])], 0, false, [])

  lemma EmptyInv()
    ensures QueueInv(EMPTY) && LogOk(EMPTY)
  {
  }

  lemma LiveInOneLane(q: Queues, id: nat)
    requires QueueInv(q) && q.Live(id)
    ensures id in q.requests && q.requests[id].engine < 2
    ensures id in q.lanes[q.requests[id].engine].Ids() && id !in q.lanes[1 - q.requests[id].engine].Ids()
  {
  }

  lemma EnqueueLanes(q: Queues, r: Request)
    requires |q.lanes| == 2 && r.engine < 2
    ensures var q' := Enqueue(q, r);
            && q'.lanes[r.engine].Ids() == q.lanes[r.engine].Ids() + [|q.status|]
            && q'.lanes[1 - r.engine] == q.lanes[1 - r.engine]
  {
  }

  lemma DispatchLanes(q: Queues, e: nat)
    requires HeadReady(q, e) && |q.lanes| == 2
    ensures var q' := Dispatch(q, e);
            && q'.lanes[e].Ids() == q.lanes[e].Ids()
            && q'.lanes[1 - e] == q.lanes[1 - e]
  {
  }

  lemma RetireLanes(q: Queues, e: nat, code: int)
    requires CanRetire(q, e) && Leaving(q, e) < |q.status| && q.queuedCount > 0 && |q.lanes| == 2
    ensures var q' := Retire(q, e, code);
            && q.lanes[e].Ids() == [Leaving(q, e)] + q'.lanes[e].Ids()
            && q'.lanes[1 - e] == q.lanes[1 - e]
  {
  }

  /** The requirements of a retirement hold whenever the invariant does. */
  lemma RetireDefined(q: Queues, e: nat)
    requires QueueInv(q) && CanRetire(q, e)
    ensures Leaving(q, e) in q.requests && Leaving(q, e) < |q.status| && q.queuedCount > 0
    ensures Leaving(q, e) in q.lanes[e].Ids() && q.requests[Leaving(q, e)].engine == e
    ensures q.status[Leaving(q, e)].Pending?
    ensures forall x :: x in q.lanes[e].Ids() ==> Leaving(q, e) <= x
  {
    var id := Leaving(q, e);
    assert q.lanes[e].Ids()[0] == id;
    assert q.Live(id);
    IncreasingHead(q.lanes[e].Ids());
  }

  lemma EnqueueInv(q: Queues, r: Request)
    requires QueueInv(q) && r.engine < 2
    requires forall f, x :: f in r.deps && x in f ==> x < |q.status|
    ensures QueueInv(Enqueue(q, r))
    ensures forall x :: Enqueue(q, r).Live(x) <==> q.Live(x) || x == |q.status|
  {
    var id, q' := |q.status|, Enqueue(q, r);
    EnqueueLanes(q, r);
    assert id !in q.requests;
    IncreasingAppend(q.lanes[r.engine].Ids(), id);
    assert forall x :: q'.Live(x) <==> q.Live(x) || x == id;
  }

  lemma EnqueueLog(q: Queues, r: Request)
    requires QueueInv(q) && LogOk(q) && r.engine < 2
    ensures LogOk(Enqueue(q, r))
  {
    var id, q' := |q.status|, Enqueue(q, r);
    EnqueueLanes(q, r);
    assert id !in q.requests;
    forall x | x in q'.requests
      ensures HasRetired(q'.log, x) <==> !q'.Live(x)
    {
      RetiredAfter(q.log, Accepted(id), x);
      assert HasRetired(q.log, id) ==> id in q.requests;
    }
  }

  lemma RetiredAfter(log: seq<Event>, e: Event, x: nat)
    ensures HasRetired(log + [e], x) <==> HasRetired(log, x) || (e.Retired? && e.id == x)
  {
    var log' := log + [e];
    assert log'[|log|] == e;
    if HasRetired(log, x) {
      var i :| 0 <= i < |log| && log[i].Retired? && log[i].id == x;
      assert log'[i] == log[i];
    }
  }

  lemma RefuseInv(q: Queues, code: int)
    requires QueueInv(q)
    ensures QueueInv(Refuse(q, code))
  {
    var q' := Refuse(q, code);
    assert forall x :: q'.Live(x) <==> q.Live(x);
    assert !q.Live(|q.status|);
  }

  lemma DispatchInv(q: Queues, e: nat)
    requires QueueInv(q) && HeadReady(q, e)
    ensures QueueInv(Dispatch(q, e))
    ensures forall x :: Dispatch(q, e).Live(x) <==> q.Live(x)
  {
    var q' := Dispatch(q, e);
    var id := q.lanes[e].queue[0];
    DispatchLanes(q, e);
    assert q.lanes[e].Ids()[0] == id;
    assert forall x :: q'.Live(x) <==> q.Live(x);
  }

  lemma DispatchLog(q: Queues, e: nat)
    requires QueueInv(q) && LogOk(q) && HeadReady(q, e)
    ensures LogOk(Dispatch(q, e))
  {
    var id, q' := q.lanes[e].queue[0], Dispatch(q, e);
    DispatchLanes(q, e);
    forall x | x in q'.requests
      ensures HasRetired(q'.log, x) <==> !q'.Live(x)
    {
      RetiredAfter(q.log, Started(id), x);
      assert HasRetired(q.log, x) <==> !q.Live(x);
    }
    assert id in q.lanes[e].Ids();
    assert q.Live(id) && !HasRetired(q.log, id);
  }

  lemma LiveEither(q: Queues, e: nat)
    requires |q.lanes| == 2 && e < 2
    ensures forall x :: q.Live(x) <==> x in q.lanes[e].Ids() || x in q.lanes[1 - e].Ids()
  {
  }

  lemma LiveAfterRetire(q: Queues, e: nat, code: int)
    requires QueueInv(q) && CanRetire(q, e)
    ensures Leaving(q, e) < |q.status| && q.queuedCount > 0
    ensures forall x :: Retire(q, e, code).Live(x) <==> q.Live(x) && x != Leaving(q, e)
    ensures Increasing(Retire(q, e, code).lanes[e].Ids())
  {
    RetireDefined(q, e);
    var id, q' := Leaving(q, e), Retire(q, e, code);
    LiveInOneLane(q, id);
    LiveEither(q, e);
    LiveEither(q', e);
    RetireLanes(q, e, code);
    HeadGone(q.lanes[e].Ids(), id, q'.lanes[e].Ids());
  }

  lemma HeadGone(before: seq<nat>, id: nat, after: seq<nat>)
    requires Increasing(before) && before == [id] + after
    ensures Increasing(after) && id !in after
    ensures forall x :: x in after <==> x in before && x != id
  {
    IncreasingHead(before);
    assert before[1..] == after;
  }

  lemma RetireInv(q: Queues, e: nat, code: int)
    requires QueueInv(q) && CanRetire(q, e)
    ensures Leaving(q, e) < |q.status| && q.queuedCount > 0
    ensures QueueInv(Retire(q, e, code))
    ensures forall x :: Retire(q, e, code).Live(x) <==> q.Live(x) && x != Leaving(q, e)
  {
    LiveAfterRetire(q, e, code);
    RetireLanes(q, e, code);
  }

  lemma RetireLog(q: Queues, e: nat, code: int)
    requires QueueInv(q) && LogOk(q) && CanRetire(q, e)
    ensures Leaving(q, e) < |q.status| && q.queuedCount > 0
    ensures LogOk(Retire(q, e, code))
  {
    RetireDefined(q, e);
    RetireInv(q, e, code);
    var id, q' := Leaving(q, e), Retire(q, e, code);
    forall x | x in q'.requests
      ensures HasRetired(q'.log, x) <==> !q'.Live(x)
    {
      RetiredAfter(q.log, Retired(id, code), x);
      assert HasRetired(q.log, x) <==> !q.Live(x);
    }
    assert q.Live(id) && !HasRetired(q.log, id);
  }

  // ------------------------------------------------------------------------
  // The queues never deadlock
  // ------------------------------------------------------------------------

  /** The oldest unretired request is on its engine, or heads its engine's queue with every
      dependency signaled. */
  lemma OldestCanMove(q: Queues, id: nat)
    requires QueueInv(q) && q.Live(id)
    requires forall x :: q.Live(x) ==> id <= x
    ensures var e := q.requests[id].engine;
            && e < 2
            && (q.lanes[e].active == Some(id) ||
                (q.lanes[e].active.None? && q.lanes[e].queue != [] && q.lanes[e].queue[0] == id
                 && Ready(q.status, q.requests[id].deps)))
  {
    LiveInOneLane(q, id);
    var e := q.requests[id].engine;
    var ids := q.lanes[e].Ids();
    IncreasingHead(ids);
    assert ids[0] in ids && q.Live(ids[0]);
    assert ids[0] == id;
    forall f, x | f in q.requests[id].deps && x in f
      ensures Signaled(q.status, x)
    {
      assert x < id && !q.Live(x);
    }
  }

  lemma OldestLive(q: Queues) returns (id: nat)
    requires |q.lanes| == 2 && Increasing(q.lanes[0].Ids()) && Increasing(q.lanes[1].Ids())
    requires q.lanes[0].Ids() != [] || q.lanes[1].Ids() != []
    ensures q.Live(id) && forall x :: q.Live(x) ==> id <= x
  {
    var a, b := q.lanes[0].Ids(), q.lanes[1].Ids();
    if a != [] {
      IncreasingHead(a);
    }
    if b != [] {
      IncreasingHead(b);
    }
    if b == [] || (a != [] && a[0] <= b[0]) {
      id := a[0];
    } else {
      id := b[0];
    }
  }

  /** The measure `processRequests` runs down: a dispatch takes one from it, a retirement one or two. */
  function Work(q: Queues): nat
    requires |q.lanes| == 2
  {
    2 * |q.lanes[0].queue| + 2 * |q.lanes[1].queue|
    + (if q.lanes[0].active.Some? then 1 else 0) + (if q.lanes[1].active.Some? then 1 else 0)
  }

  lemma DispatchWork(q: Queues, e: nat)
    requires |q.lanes| == 2 && HeadReady(q, e)
    ensures Work(Dispatch(q, e)) == Work(q) - 1
  {
  }

  lemma RetireWork(q: Queues, e: nat, code: int)
    requires |q.lanes| == 2 && CanRetire(q, e) && Leaving(q, e) < |q.status| && q.queuedCount > 0
    ensures Work(Retire(q, e, code)) == Work(q) - if q.lanes[e].active.Some? then 1 else 2
  {
  }
}
