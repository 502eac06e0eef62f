/**
 What a refused submission spoils, exactly: the conditions under which refusals are let through elsewhere are not
 only enough. Where one fails, some continuation that refuses nothing more takes a binding away from an unretired
 request, or starts a request too early.
 */
module GpuExact {
  import opened Basics
  import opened Bindings
  import opened RequestQueue
  import opened ImplicitFencing
  import opened Lifetimes
  import opened GpuSystem
  import opened GpuSafety
  import opened GpuIoctls
  import opened GpuRuns
  import opened GpuOrder
  import opened GpuTimeline
  import opened GpuOvertaking
  import opened GpuEarlyStart

  // ------------------------------------------------------------------------
  // Continuations that refuse nothing
  // ------------------------------------------------------------------------

  /** No refusal; and unless `wild`, no submission with `EXEC_OBJECT_ASYNC`. */
  ghost predicate Plain(t: Step, wild: bool) {
    !t.Refused? && (t.Submit? ==> wild || NoAsync(t.p.uses))
  }

  ghost predicate PlainRun(s: Sys, steps: seq<Step>, s': Sys, wild: bool)
    decreases |steps|
  {
    if steps == [] then s' == s
    else Plain(steps[0], wild) && Enabled(s, steps[0]) && PlainRun(Apply(s, steps[0]), steps[1..], s', wild)
  }

  lemma {:induction false} PlainIsCalm(s: Sys, steps: seq<Step>, s': Sys, wild: bool)
    requires PlainRun(s, steps, s', wild)
    ensures CalmRun(s, steps, s', wild)
    decreases |steps|
  {
    if steps != [] {
      PlainIsCalm(Apply(s, steps[0]), steps[1..], s', wild);
    }
  }

  lemma {:induction false} PlainIsOrdered(s: Sys, steps: seq<Step>, s': Sys)
    requires PlainRun(s, steps, s', false)
    ensures OrderedRun(s, steps, s')
    decreases |steps|
  {
    if steps != [] {
      PlainIsOrdered(Apply(s, steps[0]), steps[1..], s');
    }
  }

  lemma {:induction false} QuietIsPlain(s: Sys, steps: seq<Step>, s': Sys, wild: bool)
    requires QuietRun(s, steps, s')
    ensures PlainRun(s, steps, s', wild)
    decreases |steps|
  {
    if steps != [] {
      QuietIsPlain(Apply(s, steps[0]), steps[1..], s', wild);
    }
  }

  lemma {:induction false} PlainThen(s: Sys, first: seq<Step>, mid: Sys, second: seq<Step>, s': Sys, wild: bool) returns (all: seq<Step>)
    requires PlainRun(s, first, mid, wild) && PlainRun(mid, second, s', wild)
    ensures PlainRun(s, all, s', wild)
    decreases |first|
  {
    if first == [] {
      all := second;
    } else {
      var rest := PlainThen(Apply(s, first[0]), first[1..], mid, second, s', wild);
      all := [first[0]] + rest;
      assert all[1..] == rest;
    }
  }

  lemma PlainOne(s: Sys, t: Step, wild: bool)
    requires Plain(t, wild) && Enabled(s, t)
    ensures PlainRun(s, [t], Apply(s, t), wild)
  {
    assert [t][1..] == [];
  }

  // ------------------------------------------------------------------------
  // Another user of an object
  // ------------------------------------------------------------------------

  /** One object in a file of its own, at the bottom of its address space. */
  ghost function Intruder(s: Sys, e: nat, o: nat, write: bool, async: bool): Submission
    requires o in s.sizes
  {
    Submission(s.made, s.made + 2, e, [Use(o, 0, s.sizes[o], write, async)], [])
  }

  /** What it takes to be one. */
  ghost predicate Room(s: Sys, e: nat, o: nat) {
    && e < 2 && |s.q.lanes| == 2 && s.q.queuedCount < MAX_QUEUED
    && o in s.slots && |s.slots[o].users| == 2 && o in s.sizes && s.sizes[o] <= VA_LIMIT
  }

  lemma CanIntrude(s: Sys, e: nat, o: nat, write: bool, async: bool)
    requires Room(s, e, o)
    ensures CanSubmit(Opened(s), Intruder(s, e, o, write, async))
  {
    var p := Intruder(s, e, o, write, async);
    assert Wants(p.uses) == [Binding(0, s.sizes[o], o)];
  }

  lemma IntruderCore(s: Sys, e: nat, o: nat, write: bool, async: bool)
    requires Core(s) && Room(s, e, o)
    ensures CanSubmit(Opened(s), Intruder(s, e, o, write, async))
    ensures Core(Opened(s)) && Core(Submitted(Opened(s), Intruder(s, e, o, write, async)))
  {
    OpenCore(s);
    CanIntrude(s, e, o, write, async);
    StepCore(Opened(s), Submit(Intruder(s, e, o, write, async)));
  }

  /** It waits for what its one entry waits for. */
  lemma IntruderWaits(s: Sys, e: nat, o: nat, write: bool, async: bool)
    requires Room(s, e, o)
    ensures CanSubmit(Opened(s), Intruder(s, e, o, write, async))
    ensures var p := Intruder(s, e, o, write, async);
            && RequestOf(Opened(s), p).deps == UseDeps(s.q.status, [], s.slots[o], p.uses[0])
            && RequestOf(Opened(s), p).uses == p.uses && RequestOf(Opened(s), p).engine == e
  {
    CanIntrude(s, e, o, write, async);
    var p := Intruder(s, e, o, write, async);
    assert p.uses[..0] == [];
    assert ImplicitDeps(s.q.status, s.slots, []) == [];
  }

  lemma IntruderPublishes(s: Sys, e: nat, o: nat, write: bool, async: bool)
    requires Room(s, e, o)
    ensures CanSubmit(Opened(s), Intruder(s, e, o, write, async))
    ensures Submitted(Opened(s), Intruder(s, e, o, write, async)).slots == s.slots[o := PublishOne(s.slots[o], |s.q.status|, e, write)]
  {
    CanIntrude(s, e, o, write, async);
    var p, id := Intruder(s, e, o, write, async), |s.q.status|;
    assert p.uses[..0] == [];
    assert Publish(s.slots, id, e, []) == s.slots;
  }

  // ------------------------------------------------------------------------
  // Every fence but those behind a request can be got out of the way
  // ------------------------------------------------------------------------

  /** What is not behind `id` is signaled once everything left is. */
  lemma OnlyBehindLeft(q: Queues, f: Fence, id: nat)
    requires QueueInv(q) && Ahead(q, id) == {} && !Behind(q, f, id) && forall x :: x in f ==> x < |q.status|
    ensures Polled(q.status, f)
  {
    LiveIdsIsLive(q);
    forall x | x in f
      ensures Signaled(q.status, x)
    {
      assert x !in Ahead(q, id) && !Follows(q, id, x);
      assert !q.Live(x);
    }
  }

  /** With the other engine empty, what is behind `id` is on its own engine, and always was. */
  lemma StillBehind(q: Queues, q': Queues, f: Fence, id: nat)
    requires QueueInv(q') && id in q.requests && id in q'.requests && q'.requests[id] == q.requests[id] && q.requests[id].engine < 2
    requires q'.lanes[1 - q.requests[id].engine] == Lane(None, []) && Behind(q', f, id)
    requires forall x :: x in f && q'.Live(x) ==> q.Live(x) && x in q.requests && x in q'.requests && q'.requests[x] == q.requests[x]
    ensures Behind(q, f, id)
  {
    var x :| x in f && Follows(q', id, x);
    LiveInOneLane(q', x);
    assert Follows(q, id, x);
  }

  ghost function Members(xs: seq<nat>): set<nat> {
    set x | x in xs
  }

  lemma {:induction false} IncreasingCount(xs: seq<nat>)
    requires Increasing(xs)
    ensures |Members(xs)| == |xs|
    decreases |xs|
  {
    if xs != [] {
      IncreasingHead(xs);
      IncreasingCount(xs[1..]);
      assert xs == [xs[0]] + xs[1..];
      assert Members(xs) == {xs[0]} + Members(xs[1..]);
    }
  }

  lemma CountLive(q: Queues)
    requires QueueInv(q)
    ensures q.queuedCount == |q.LiveIds()|
  {
    var a, b := Members(q.lanes[0].Ids()), Members(q.lanes[1].Ids());
    IncreasingCount(q.lanes[0].Ids());
    IncreasingCount(q.lanes[1].Ids());
    assert a !! b;
    assert q.LiveIds() == a + b;
  }

  lemma FewerLive(q: Queues, q': Queues)
    requires QueueInv(q) && QueueInv(q') && Since(q, q')
    ensures q'.queuedCount <= q.queuedCount
  {
    CountLive(q);
    CountLive(q');
    LiveIdsIsLive(q);
    LiveIdsIsLive(q');
    assert forall x :: x in q'.LiveIds() ==> q'.Live(x);
    SubsetCardinality(q'.LiveIds(), q.LiveIds());
  }

  /** A request that waits for nothing behind `id`, on an engine not held up by it. */
  lemma NotOrdered(q: Queues, r: Request, id: nat)
    requires QueueInv(q) && r.engine < 2 && q.Live(id) && id in q.requests && q.requests[id].engine == 1 - r.engine
    requires !Blocks(q, id) && forall f :: f in r.deps ==> !Behind(q, f, id)
    ensures !Orders(q, r, id)
  {
    forall f | Covers(q, f, q.requests[id].engine, id)
      ensures Behind(q, f, id)
    {
      var x :| x in f && x in q.lanes[q.requests[id].engine].Ids() && x >= id;
      assert Follows(q, id, x);
    }
    forall y, f | y in q.lanes[r.engine].queue && y in q.requests && f in q.requests[y].deps
      ensures !Covers(q, f, q.requests[id].engine, id)
    {
      if z :| z in f && z in q.lanes[q.requests[id].engine].Ids() && z >= id {
        assert y in q.lanes[r.engine].Ids();
        assert HeldBy(q, id, y, y, z);
      }
    }
  }

  lemma IntruderPasses(s: Sys, id: nat, o: nat, wild: bool)
    requires Core(s) && s.q.Live(id) && id in s.q.requests && s.q.requests[id].engine < 2 && !Blocks(s.q, id)
    requires Room(s, 1 - s.q.requests[id].engine, o) && (wild || !Behind(s.q, s.slots[o].write, id))
    ensures var p := Intruder(s, 1 - s.q.requests[id].engine, o, wild, wild);
            CanSubmit(Opened(s), p) && !Orders(Opened(s).q, RequestOf(Opened(s), p), id)
  {
    var e := 1 - s.q.requests[id].engine;
    IntruderWaits(s, e, o, wild, wild);
    NotOrdered(s.q, RequestOf(Opened(s), Intruder(s, e, o, wild, wild)), id);
  }

  /** `id` is left, its engine's others behind it, the other engine empty, and of the fences in the object's slots
      only one of the user on `id`'s own engine can still be unsignaled. */
  ghost predicate Cleared(s: Sys, s': Sys, id: nat, o: nat)
    requires id in s.q.requests && s.q.requests[id].engine < 2 && o in s.slots && |s.slots[o].users| == 2
  {
    var e := s.q.requests[id].engine;
    && !s'.q.claimed && s'.q.Live(id) && id in s'.q.requests && s'.q.requests[id] == s.q.requests[id]
    && Room(s', 1 - e, o) && s'.q.lanes[1 - e] == Lane(None, [])
    && Polled(s'.q.status, s'.slots[o].users[1 - e]) && Polled(s'.q.status, s'.slots[o].write)
    && (Behind(s.q, s.slots[o].users[e], id) || Polled(s'.q.status, s'.slots[o].users[e]))
  }

  /** Once the intruder is queued. */
  ghost predicate Intruded(s: Sys, e: nat, o: nat, write: bool, async: bool, rest: seq<Step>, s': Sys)
    requires Room(s, e, o)
  {
    CanIntrude(s, e, o, write, async);
    QuietRun(Submitted(Opened(s), Intruder(s, e, o, write, async)), rest, s')
  }

  lemma ClearRest(s: Sys, id: nat, o: nat, wild: bool) returns (rest: seq<Step>, s': Sys)
    requires Core(s) && s.q.Live(id) && id in s.q.requests && s.q.requests[id].engine < 2 && !Blocks(s.q, id)
    requires Room(s, 1 - s.q.requests[id].engine, o) && (wild || !Behind(s.q, s.slots[o].write, id))
    ensures Intruded(s, 1 - s.q.requests[id].engine, o, wild, wild, rest, s')
    ensures Core(s') && Cleared(s, s', id, o)
  {
    var e := 1 - s.q.requests[id].engine;
    var p := Intruder(s, e, o, wild, wild);
    IntruderCore(s, e, o, wild, wild);
    IntruderPasses(s, id, o, wild);
    rest, s' := PassBy(Opened(s), p, id);
    PassedBy(s, id, o, wild, s');
  }

  lemma IntrudedRun(s: Sys, e: nat, o: nat, write: bool, async: bool, rest: seq<Step>, s': Sys, wild: bool) returns (all: seq<Step>)
    requires Room(s, e, o) && Intruded(s, e, o, write, async, rest, s') && (async ==> wild)
    ensures PlainRun(s, all, s', wild)
  {
    var last := SubmittedRun(s, e, o, write, async, rest, s', wild);
    all := [Life(Open)] + last;
    assert all[1..] == last && Apply(s, Life(Open)) == Opened(s);
  }

  lemma SubmittedRun(s: Sys, e: nat, o: nat, write: bool, async: bool, rest: seq<Step>, s': Sys, wild: bool) returns (all: seq<Step>)
    requires Room(s, e, o) && Intruded(s, e, o, write, async, rest, s') && (async ==> wild)
    ensures PlainRun(Opened(s), all, s', wild)
  {
    CanIntrude(s, e, o, write, async);
    var t := Submit(Intruder(s, e, o, write, async));
    QuietIsPlain(Apply(Opened(s), t), rest, s', wild);
    all := [t] + rest;
    assert all[1..] == rest;
  }

  lemma Clear(s: Sys, id: nat, o: nat, wild: bool) returns (steps: seq<Step>, s': Sys)
    requires Core(s) && s.q.Live(id) && id in s.q.requests && s.q.requests[id].engine < 2 && !Blocks(s.q, id)
    requires Room(s, 1 - s.q.requests[id].engine, o) && (wild || !Behind(s.q, s.slots[o].write, id))
    ensures PlainRun(s, steps, s', wild) && Core(s') && Cleared(s, s', id, o)
  {
    var rest;
    rest, s' := ClearRest(s, id, o, wild);
    steps := IntrudedRun(s, 1 - s.q.requests[id].engine, o, wild, wild, rest, s', wild);
  }

  lemma PassedBy(s: Sys, id: nat, o: nat, wild: bool, s': Sys)
    requires Core(s) && s.q.Live(id) && id in s.q.requests && s.q.requests[id].engine < 2
    requires Room(s, 1 - s.q.requests[id].engine, o) && (wild || !Behind(s.q, s.slots[o].write, id))
    requires CanSubmit(Opened(s), Intruder(s, 1 - s.q.requests[id].engine, o, wild, wild))
    requires Core(s') && !s'.q.claimed && s'.q.Live(id) && Ahead(s'.q, id) == {}
    requires Aside(Unclaimed(Submitted(Opened(s), Intruder(s, 1 - s.q.requests[id].engine, o, wild, wild))), s')
    requires s'.q.lanes[1 - s.q.requests[id].engine] == Lane(None, [])
    ensures Cleared(s, s', id, o)
  {
    var e := 1 - s.q.requests[id].engine;
    OpenCore(s);
    IntruderPublishes(s, e, o, wild, wild);
    PassedSince(Opened(s), Intruder(s, e, o, wild, wild), s');
    ClearedAfter(s, id, o, wild, s');
  }

  /** One more request has come and gone, and perhaps others gone. */
  ghost predicate Since(q: Queues, q': Queues) {
    && |q'.status| == |q.status| + 1
    && (forall x {:trigger q'.Live(x)} :: q'.Live(x) ==> q.Live(x))
    && (forall x :: x in q.requests ==> x in q'.requests && q'.requests[x] == q.requests[x])
  }

  lemma PassedSince(s: Sys, p: Submission, s': Sys)
    requires Core(s) && CanSubmit(s, p) && Core(s') && Aside(Unclaimed(Submitted(s, p)), s')
    requires s'.q.lanes[p.engine] == Lane(None, [])
    ensures Since(s.q, s'.q) && s'.slots == Submitted(s, p).slots && s'.sizes == s.sizes
  {
    NotYetLive(s.q);
    SubmitDeps(s, p);
    EnqueueInv(s.q, RequestOf(s, p));
    UnclaimedSame(Submitted(s, p));
    EmptyIsGone(s'.q, p.engine, |s.q.status|);
  }

  lemma ClearedFence(q: Queues, q': Queues, f: Fence, id: nat)
    requires QueueInv(q) && QueueInv(q') && Since(q, q') && id in q.requests && q.requests[id].engine < 2
    requires Ahead(q', id) == {} && q'.lanes[1 - q.requests[id].engine] == Lane(None, [])
    requires !Behind(q, f, id) && forall x :: x in f ==> x < |q'.status|
    ensures Polled(q'.status, f)
  {
    forall x | x in f && q'.Live(x)
      ensures q.Live(x) && x in q.requests && x in q'.requests && q'.requests[x] == q.requests[x]
    {
      LiveInOneLane(q, x);
    }
    assert !Behind(q', f, id) by {
      if Behind(q', f, id) {
        StillBehind(q, q', f, id);
      }
    }
    OnlyBehindLeft(q', f, id);
  }

  lemma GoneSignaled(q: Queues, n: nat)
    requires QueueInv(q) && n < |q.status| && !q.Live(n)
    ensures Polled(q.status, [n])
  {
  }

  lemma SlotBounds(q: Queues, t: Table, o: nat, e: nat)
    requires SlotsOk(q, t) && o in t && e < 2
    ensures forall x :: x in t[o].users[e] ==> x < |q.status|
  {
    assert e == 0 || e == 1;
  }

  lemma ClearedSlots(q: Queues, q': Queues, was: Slots, id: nat, wild: bool)
    requires QueueInv(q) && QueueInv(q') && Since(q, q') && id in q.requests && q.requests[id].engine < 2
    requires Ahead(q', id) == {} && q'.lanes[1 - q.requests[id].engine] == Lane(None, [])
    requires |was.users| == 2 && (wild || !Behind(q, was.write, id)) && forall x :: x in was.write ==> x < |q.status|
    requires forall x :: x in was.users[q.requests[id].engine] ==> x < |q.status|
    ensures var e := q.requests[id].engine;
            var now := PublishOne(was, |q.status|, 1 - e, wild);
            && Polled(q'.status, now.users[1 - e]) && Polled(q'.status, now.write)
            && (Behind(q, was.users[e], id) || Polled(q'.status, now.users[e]))
  {
    var e, n := q.requests[id].engine, |q.status|;
    NotYetLive(q);
    LiveIdsIsLive(q);
    GoneSignaled(q', n);
    if !wild {
      ClearedFence(q, q', was.write, id);
    }
    if !Behind(q, was.users[e], id) {
      ClearedFence(q, q', was.users[e], id);
    }
  }

  lemma ClearedAfter(s: Sys, id: nat, o: nat, wild: bool, s': Sys)
    requires QueueInv(s.q) && SlotsOk(s.q, s.slots) && s.q.Live(id) && id in s.q.requests && s.q.requests[id].engine < 2
    requires Room(s, 1 - s.q.requests[id].engine, o) && (wild || !Behind(s.q, s.slots[o].write, id))
    requires QueueInv(s'.q) && !s'.q.claimed && s'.q.Live(id) && Ahead(s'.q, id) == {} && Since(s.q, s'.q)
    requires s'.slots == s.slots[o := PublishOne(s.slots[o], |s.q.status|, 1 - s.q.requests[id].engine, wild)] && s'.sizes == s.sizes
    requires s'.q.lanes[1 - s.q.requests[id].engine] == Lane(None, [])
    ensures Cleared(s, s', id, o)
  {
    FewerLive(s.q, s'.q);
    SlotBounds(s.q, s.slots, o, s.q.requests[id].engine);
    ClearedSlots(s.q, s'.q, s.slots[o], id, wild);
  }

  // ------------------------------------------------------------------------
  // Bindings
  // ------------------------------------------------------------------------

  lemma AsideBehind(s: Sys, s': Sys, f: Fence, id: nat)
    requires Aside(Unclaimed(s), s') && Behind(s'.q, f, id)
    ensures Behind(s.q, f, id)
  {
    UnclaimedSame(s);
    var x :| x in f && Follows(s'.q, id, x);
    assert Follows(s.q, id, x);
  }

  lemma PastFence(s: Sys, s': Sys, f: Fence, id: nat)
    requires Aside(Unclaimed(s), s') && QueueInv(s'.q) && Ahead(s'.q, id) == {}
    requires !Behind(s.q, f, id) && forall x :: x in f ==> x < |s.q.status|
    ensures Polled(s'.q.status, f)
  {
    assert !Behind(s'.q, f, id) by {
      if Behind(s'.q, f, id) {
        AsideBehind(s, s', f, id);
      }
    }
    OnlyBehindLeft(s'.q, f, id);
  }

  /** An object that looks idle is unbound, whoever still uses it. */
  lemma LosesBinding(s: Sys, id: nat, u: Use)
    requires Core(s) && s.q.Live(id) && id in s.q.requests && u in s.q.requests[id].uses
    requires u.obj in s.slots && |s.slots[u.obj].users| == 2 && ObjectIdle(s.q, s.slots[u.obj])
    ensures var t := Unbind(s.q.requests[id].file, u.obj); Enabled(s, t) && Apply(s, t).q == s.q && !KeptAlive(Apply(s, t), id)
  {
    InvKeepsAlive(s, id);
    var r, t := s.q.requests[id], Unbind(s.q.requests[id].file, u.obj);
    assert ContextOk(s.contexts, s.files, s.vms, r.ctx);
    assert Enabled(s, t);
    assert Want(u) !in Apply(s, t).vms[r.vm].bindings;
  }

  /** The engines alone, then: the object is idle with `id` unretired. */
  lemma IdleByItself(s: Sys, id: nat, o: nat) returns (steps: seq<Step>, s': Sys)
    requires Core(s) && s.q.Live(id) && o in s.slots && |s.slots[o].users| == 2
    requires !Behind(s.q, s.slots[o].users[0], id) && !Behind(s.q, s.slots[o].users[1], id) && !Behind(s.q, s.slots[o].write, id)
    ensures QuietRun(s, steps, s') && Core(s') && s'.q.Live(id) && s'.q.requests == s.q.requests && s'.slots == s.slots
    ensures ObjectIdle(s'.q, s'.slots[o])
  {
    steps, s' := RunPast(s, id);
    PastFence(s, s', s.slots[o].users[0], id);
    PastFence(s, s', s.slots[o].users[1], id);
    PastFence(s, s', s.slots[o].write, id);
  }

  /** After `Clear`, likewise. */
  lemma ClearedIdle(s: Sys, s': Sys, id: nat, o: nat)
    requires id in s.q.requests && s.q.requests[id].engine < 2 && o in s.slots && |s.slots[o].users| == 2
    requires Cleared(s, s', id, o) && !Behind(s.q, s.slots[o].users[s.q.requests[id].engine], id)
    ensures ObjectIdle(s'.q, s'.slots[o])
  {
    var e := s.q.requests[id].engine;
    assert e == 0 || e == 1;
  }

  ghost predicate IdleUnder(s: Sys, s': Sys, id: nat, o: nat)
    requires id in s.q.requests
  {
    && s'.q.Live(id) && id in s'.q.requests && s'.q.requests[id] == s.q.requests[id]
    && o in s'.slots && |s'.slots[o].users| == 2 && ObjectIdle(s'.q, s'.slots[o])
  }

  lemma Idle(s: Sys, id: nat, o: nat, wild: bool) returns (steps: seq<Step>, s': Sys)
    requires Core(s) && s.q.Live(id) && id in s.q.requests && s.q.requests[id].engine < 2
    requires Room(s, 1 - s.q.requests[id].engine, o) && !Guarded(s.q, s.slots[o], id, wild)
    ensures PlainRun(s, steps, s', wild) && Core(s') && IdleUnder(s, s', id, o)
  {
    if Blocks(s.q, id) {
      steps, s' := IdleHeldUp(s, id, o, wild);
    } else {
      steps, s' := Clear(s, id, o, wild);
      ClearedIdle(s, s', id, o);
    }
  }

  lemma IdleHeldUp(s: Sys, id: nat, o: nat, wild: bool) returns (steps: seq<Step>, s': Sys)
    requires Core(s) && s.q.Live(id) && id in s.q.requests && s.q.requests[id].engine < 2 && Blocks(s.q, id)
    requires Room(s, 1 - s.q.requests[id].engine, o) && !Guarded(s.q, s.slots[o], id, wild)
    ensures PlainRun(s, steps, s', wild) && Core(s') && IdleUnder(s, s', id, o)
  {
    var e := s.q.requests[id].engine;
    assert e == 0 || e == 1;
    steps, s' := IdleByItself(s, id, o);
    QuietIsPlain(s, steps, s', wild);
  }

  /** A user whose object's fences do not guard it can lose its binding. */
  lemma Unguarded(s: Sys, id: nat, u: Use, wild: bool) returns (steps: seq<Step>, s': Sys)
    requires Core(s) && s.q.Live(id) && id in s.q.requests && s.q.requests[id].engine < 2 && u in s.q.requests[id].uses
    requires Room(s, 1 - s.q.requests[id].engine, u.obj) && !Guarded(s.q, s.slots[u.obj], id, wild)
    ensures PlainRun(s, steps, s', wild) && s'.q.Live(id) && !KeptAlive(s', id)
  {
    var first, mid := Idle(s, id, u.obj, wild);
    LosesBinding(mid, id, u);
    var t := Unbind(mid.q.requests[id].file, u.obj);
    s' := Apply(mid, t);
    PlainOne(mid, t, wild);
    steps := PlainThen(s, first, mid, [t], s', wild);
  }

  /** No continuation that refuses nothing more takes a binding from an unretired request. */
  ghost predicate BindingsSafe(s: Sys, wild: bool) {
    forall steps, s', id :: PlainRun(s, steps, s', wild) && s'.q.Live(id) ==> KeptAlive(s', id)
  }

  lemma RefusedRoom(s: Sys, p: Submission, code: int, e: nat, v: Use)
    requires Sound(s) && CanSubmit(s, p) && v in p.uses && e < 2
    ensures var s1 := RefusedSys(s, p, code); Room(s1, e, v.obj) && s1.q.requests == s.q.requests && s1.q.lanes == s.q.lanes
  {
    assert v.obj in s.sizes && s.sizes[v.obj] <= VA_LIMIT;
  }

  lemma HiddenLoses(s: Sys, p: Submission, code: int, id: nat, u: Use, v: Use, wild: bool)
    requires Core(s) && CanSubmit(s, p) && code < 0
    requires s.q.Live(id) && id in s.q.requests && u in s.q.requests[id].uses && v in p.uses && u.obj == v.obj
    requires s.q.requests[id].engine < 2 && !Guarded(s.q, Spent(s.slots[v.obj], p.engine, v.write), id, wild)
    ensures !BindingsSafe(RefusedSys(s, p, code), wild)
  {
    WantsFit(s, p);
    RefusedListed(s.q, s.slots, p.engine, p.uses, code, id, u, v, wild);
    RefusedRoom(s, p, code, 1 - s.q.requests[id].engine, v);
    StepCore(s, Refused(p, code));
    var steps, s' := Unguarded(RefusedSys(s, p, code), id, u, wild);
  }

  lemma UnsparedLoses(s: Sys, p: Submission, code: int, wild: bool)
    requires Core(s) && CanSubmit(s, p) && code < 0 && !Spares(s.q, s.slots, p.engine, p.uses, wild)
    ensures !BindingsSafe(RefusedSys(s, p, code), wild)
  {
    var id, u :| s.q.Live(id) && id in s.q.requests && u in s.q.requests[id].uses
                 && !(s.q.requests[id].engine < 2 && SparesUse(s.q, s.slots, p.engine, p.uses, id, u, wild));
    LiveInOneLane(s.q, id);
    var v :| v in p.uses && u.obj == v.obj && !Guarded(s.q, Spent(s.slots[v.obj], p.engine, v.write), id, wild);
    HiddenLoses(s, p, code, id, u, v, wild);
  }

  /** A refused submission leaves every unretired request its bindings, whatever comes after, if and only if the
      fences left in its objects' slots guard their users: with any submissions to come, or, not `wild`, with none
      that sets `EXEC_OBJECT_ASYNC`. */
  lemma RefusalBindings(s: Sys, p: Submission, code: int, wild: bool)
    requires SysInv(s, wild) && CanSubmit(s, p) && code < 0
    ensures BindingsSafe(RefusedSys(s, p, code), wild) <==> Spares(s.q, s.slots, p.engine, p.uses, wild)
  {
    if Spares(s.q, s.slots, p.engine, p.uses, wild) {
      var s1 := RefusedSys(s, p, code);
      RefusedInv(s, p, code, wild);
      forall steps, s', id | PlainRun(s1, steps, s', wild) && s'.q.Live(id)
        ensures KeptAlive(s', id)
      {
        PlainIsCalm(s1, steps, s', wild);
        StaysBound(s1, steps, s', id, wild);
      }
    } else {
      UnsparedLoses(s, p, code, wild);
    }
  }

  // ------------------------------------------------------------------------
  // Order
  // ------------------------------------------------------------------------

  lemma {:induction false} PlainLog(s: Sys, steps: seq<Step>, s': Sys, wild: bool)
    requires Sound(s) && LogOk(s.q) && PlainRun(s, steps, s', wild)
    ensures LogOk(s'.q)
    decreases |steps|
  {
    if steps != [] {
      StepSound(s, steps[0]);
      StepLog(s, steps[0]);
      PlainLog(Apply(s, steps[0]), steps[1..], s', wild);
    }
  }

  /** Everything the conflicting use of an object on the other engine would wait for is signaled. */
  ghost predicate Exposed(s: Sys, id: nat, u: Use) {
    && s.q.Live(id) && id in s.q.requests && s.q.requests[id].engine < 2 && u in s.q.requests[id].uses
    && Room(s, 1 - s.q.requests[id].engine, u.obj) && !s.q.claimed
    && s.q.lanes[1 - s.q.requests[id].engine] == Lane(None, [])
    && Polled(s.q.status, s.slots[u.obj].write)
    && (u.write || (Polled(s.q.status, s.slots[u.obj].users[0]) && Polled(s.q.status, s.slots[u.obj].users[1])))
  }

  /** It is queued, and can be started at once. */
  lemma CanStrike(s: Sys, id: nat, u: Use)
    requires Exposed(s, id, u)
    ensures var e := 1 - s.q.requests[id].engine;
            var p := Intruder(s, e, u.obj, !u.write, false);
            && CanSubmit(Opened(s), p) && CanGo(Submitted(Opened(s), p), e)
            && Submitted(Opened(s), p).q == Enqueue(s.q, RequestOf(Opened(s), p))
            && RequestOf(Opened(s), p).uses == p.uses && RequestOf(Opened(s), p).deps == [] && RequestOf(Opened(s), p).engine == e
  {
    var e, n := 1 - s.q.requests[id].engine, |s.q.status|;
    var p := Intruder(s, e, u.obj, !u.write, false);
    IntruderWaits(s, e, u.obj, !u.write, false);
    var s1, r := Submitted(Opened(s), p), RequestOf(Opened(s), p);
    assert r.deps == [];
    assert s1.q.lanes[e].queue == [n] && s1.q.requests[n] == r;
  }

  lemma StruckEarly(q: Queues, r: Request, id: nat, u: Use, v: Use)
    requires QueueInv(q) && LogOk(q) && q.Live(id) && id in q.requests && u in q.requests[id].uses
    requires r.engine < 2 && r.deps == [] && v in r.uses && v.obj == u.obj && (u.write || v.write)
    requires q.lanes[r.engine] == Lane(None, []) && HeadReady(Enqueue(q, r), r.engine)
    ensures !Serialized(Dispatch(Enqueue(q, r), r.engine))
  {
    var q1 := Enqueue(q, r);
    NotYetLive(q);
    EnqueueLog(q, r);
    EnqueueInv(q, r);
    var q2, j := Dispatch(q1, r.engine), |q1.log|;
    assert q2.log[..j] == q1.log && !HasRetired(q1.log, id);
    assert StartedAgainst(q2, j, id);
  }

  lemma Strike(s: Sys, id: nat, u: Use) returns (steps: seq<Step>, s': Sys)
    requires Exposed(s, id, u) && QueueInv(s.q) && LogOk(s.q)
    ensures PlainRun(s, steps, s', false) && !Serialized(s'.q)
  {
    var rest;
    rest, s' := StruckRest(s, id, u);
    steps := IntrudedRun(s, 1 - s.q.requests[id].engine, u.obj, !u.write, false, rest, s', false);
  }

  lemma StruckRest(s: Sys, id: nat, u: Use) returns (rest: seq<Step>, s': Sys)
    requires Exposed(s, id, u) && QueueInv(s.q) && LogOk(s.q)
    ensures Intruded(s, 1 - s.q.requests[id].engine, u.obj, !u.write, false, rest, s') && !Serialized(s'.q)
  {
    var e := 1 - s.q.requests[id].engine;
    var p := Intruder(s, e, u.obj, !u.write, false);
    CanStrike(s, id, u);
    StruckEarly(s.q, RequestOf(Opened(s), p), id, u, p.uses[0]);
    var s1 := Submitted(Opened(s), p);
    rest, s' := GoRun(s1, e);
  }

  lemma GoRun(s: Sys, e: nat) returns (steps: seq<Step>, s': Sys)
    requires CanGo(s, e)
    ensures QuietRun(s, steps, s') && s'.q == Dispatch(s.q, e)
  {
    s' := Apply(s, Go(e));
    steps := [Go(e)];
    assert steps[1..] == [];
  }

  /** What is said of a state and one it clears the way to does not depend on what requests list. */
  lemma AlikeCleared(a: Sys, a': Sys, b: Sys, b': Sys, id: nat, o: nat)
    requires Alike(a, b) && Alike(a', b') && id in a.q.requests && a.q.requests[id].engine < 2
    requires o in a.slots && |a.slots[o].users| == 2 && Cleared(a, a', id, o)
    requires id in b.q.requests && id in b'.q.requests && b'.q.requests[id] == b.q.requests[id]
    ensures b.q.requests[id].engine < 2 && o in b.slots && |b.slots[o].users| == 2 && Cleared(b, b', id, o)
  {
    AlikeParts(a, b);
    AlikeParts(a', b');
    AlikeBehind(a, b, a.slots[o].users[a.q.requests[id].engine], id);
  }

  lemma {:induction false} AlikePlain(a: Sys, steps: seq<Step>, a': Sys, b: Sys, wild: bool) returns (b': Sys)
    requires Alike(a, b) && PlainRun(a, steps, a', wild)
    ensures PlainRun(b, steps, b', wild) && Run(b, steps, b') && Alike(a', b')
    decreases |steps|
  {
    if steps == [] {
      b' := b;
    } else {
      AlikeStep(a, b, steps[0]);
      b' := AlikePlain(Apply(a, steps[0]), steps[1..], a', Apply(b, steps[0]), wild);
    }
  }

  /** `Clear`, whatever has become of bindings. */
  lemma ClearAnyway(s: Sys, id: nat, o: nat) returns (steps: seq<Step>, s': Sys)
    requires Lasting(s) && s.q.Live(id) && id in s.q.requests && s.q.requests[id].engine < 2 && !Blocks(s.q, id)
    requires Room(s, 1 - s.q.requests[id].engine, o) && !Behind(s.q, s.slots[o].write, id)
    ensures PlainRun(s, steps, s', false) && QueueInv(s'.q) && Cleared(s, s', id, o)
  {
    var b := Bare(s);
    var b';
    BareAlike(s);
    AlikeHeld(s, b);
    AlikeBehind(s, b, s.slots[o].write, id);
    LastsSound(s);
    LiveBelow(s.q, id);
    steps, b' := Clear(b, id, o, false);
    s' := AlikePlain(b, steps, b', s, false);
    AlikeQueues(b', s');
    RunKeeps(s, steps, s', id);
    AlikeCleared(b, b', s, s', id, o);
  }

  lemma LiveBelow(q: Queues, id: nat)
    requires QueueInv(q) && q.Live(id)
    ensures id < |q.status|
  {
    LiveInOneLane(q, id);
  }

  /** A use whose object's fences do not line up later ones behind it can be overtaken. */
  lemma Unlined(s: Sys, id: nat, u: Use) returns (steps: seq<Step>, s': Sys)
    requires Lasting(s) && LogOk(s.q)
    requires s.q.Live(id) && id in s.q.requests && s.q.requests[id].engine < 2 && u in s.q.requests[id].uses
    requires Room(s, 1 - s.q.requests[id].engine, u.obj) && !Lined(s.q, s.slots[u.obj], id, u.write)
    ensures PlainRun(s, steps, s', false) && !Serialized(s'.q)
  {
    var first, mid := ClearAnyway(s, id, u.obj);
    LastsSound(s);
    PlainLog(s, first, mid, false);
    var e := s.q.requests[id].engine;
    assert e == 0 || e == 1;
    var last;
    last, s' := Strike(mid, id, u);
    steps := PlainThen(s, first, mid, last, s', false);
  }

  /** No continuation that refuses nothing more, and submits nothing asynchronous, starts a request before an earlier
      one it conflicts with has retired. */
  ghost predicate OrderSafe(s: Sys) {
    forall steps, s' :: PlainRun(s, steps, s', false) ==> Serialized(s'.q)
  }

  lemma HiddenOvertaken(s: Sys, p: Submission, code: int, id: nat, u: Use, v: Use)
    requires Lasting(s) && LogOk(s.q) && CanSubmit(s, p) && code < 0
    requires s.q.Live(id) && id in s.q.requests && u in s.q.requests[id].uses && v in p.uses && u.obj == v.obj
    requires s.q.requests[id].engine < 2 && !Lined(s.q, Spent(s.slots[v.obj], p.engine, v.write), id, u.write)
    ensures !OrderSafe(RefusedSys(s, p, code))
  {
    LastsSound(s);
    WantsFit(s, p);
    RefusedListed(s.q, s.slots, p.engine, p.uses, code, id, u, v, false);
    RefusedRoom(s, p, code, 1 - s.q.requests[id].engine, v);
    StepLasts(s, Refused(p, code));
    StepLog(s, Refused(p, code));
    var steps, s' := Unlined(RefusedSys(s, p, code), id, u);
  }

  lemma UnlinedOvertaken(s: Sys, p: Submission, code: int)
    requires Lasting(s) && LogOk(s.q) && CanSubmit(s, p) && code < 0 && !SparesOrder(s.q, s.slots, p.engine, p.uses)
    ensures !OrderSafe(RefusedSys(s, p, code))
  {
    var id, u, v :| s.q.Live(id) && id in s.q.requests && u in s.q.requests[id].uses && v in p.uses && u.obj == v.obj
                    && !(s.q.requests[id].engine < 2 && Lined(s.q, Spent(s.slots[v.obj], p.engine, v.write), id, u.write));
    LastsSound(s);
    LiveInOneLane(s.q, id);
    HiddenOvertaken(s, p, code, id, u, v);
  }

  /** Conflicting requests stay in order after a refused submission, whatever comes after, if and only if the fences
      left in its objects' slots still line up later requests behind their users. */
  lemma RefusalOrder(s: Sys, p: Submission, code: int)
    requires Lasting(s) && OrderInv(s) && CanSubmit(s, p) && code < 0
    ensures OrderSafe(RefusedSys(s, p, code)) <==> SparesOrder(s.q, s.slots, p.engine, p.uses)
  {
    var s1 := RefusedSys(s, p, code);
    if SparesOrder(s.q, s.slots, p.engine, p.uses) {
      StepOrder(s, Refused(p, code));
      forall steps, s' | PlainRun(s1, steps, s', false)
        ensures Serialized(s'.q)
      {
        PlainIsOrdered(s1, steps, s');
        RunOrder(s1, steps, s');
      }
    } else {
      UnlinedOvertaken(s, p, code);
    }
  }

  // ------------------------------------------------------------------------
  // Timelines
  // ------------------------------------------------------------------------

  lemma {:induction false} PlainIsStream(s: Sys, steps: seq<Step>, s': Sys)
    requires PlainRun(s, steps, s', true)
    ensures StreamRun(s, steps, s')
    decreases |steps|
  {
    if steps != [] {
      PlainIsStream(Apply(s, steps[0]), steps[1..], s');
    }
  }

  /** One of the objects again, in the same context. */
  function Again(p: Submission, e: nat): Submission
    requires p.uses != []
  {
    Submission(p.file, p.ctx, e, [p.uses[0].(async := true)], [])
  }

  /** It is bound where the refused submission left it. */
  lemma AgainInPlace(bs: seq<Binding>, wants: seq<Binding>)
    requires Apart(wants) && SizesAgree(bs, wants) && wants != []
    ensures !NeedsEviction(PlaceAll(bs, wants), [wants[0]])
  {
    PlaceAllMembers(bs, wants);
    forall x | x in PlaceAll(bs, wants)
      ensures !InTheWay(x, wants[0])
    {
      if x in wants && x != wants[0] {
        ApartMembers(wants, x, wants[0]);
      }
    }
  }

  lemma CanAgain(s: Sys, p: Submission, code: int, e: nat)
    requires Core(s) && CanSubmit(s, p) && e < 2
    ensures CanSubmit(RefusedSys(s, p, code), Again(p, e))
  {
    var s1, k := RefusedSys(s, p, code), s.contexts[p.ctx];
    var u := p.uses[0].(async := true);
    assert Wants([u]) == [Want(p.uses[0])] && Wants(p.uses)[0] == Want(p.uses[0]);
    assert Fits(s.vms[k.vm].bindings, s.sizes);
    AgainInPlace(s.vms[k.vm].bindings, Wants(p.uses));
    assert p.uses[0] in p.uses;
  }

  /** It waits for nothing: the timeline's fence is the refused one's. */
  lemma AgainWaits(s: Sys, p: Submission, code: int, e: nat)
    requires Core(s) && CanSubmit(s, p) && e < 2
    ensures CanSubmit(RefusedSys(s, p, code), Again(p, e))
    ensures s.contexts[p.ctx].single ==> RequestOf(RefusedSys(s, p, code), Again(p, e)).deps == []
  {
    CanAgain(s, p, code, e);
    var s1, n := RefusedSys(s, p, code), |s.q.status|;
    var uses, late := Again(p, e).uses, [[n]];
    assert uses[..0] == [] && ImplicitDeps(s1.q.status, s1.slots, []) == [];
    assert ImplicitDeps(s1.q.status, s1.slots, uses) == [];
    assert Polled(s1.q.status, [n]) && late[..0] == [];
    assert AddDependencies(s1.q.status, [], []) == [] && AddDependencies(s1.q.status, [], late) == [];
    assert [] + late == late;
  }

  /** A request of the stream that waits for nothing, on the engine `id` does not hold up. */
  ghost predicate Slips(s: Sys, p: Submission, id: nat) {
    && CanSubmit(s, p) && InStream(s, id, p.ctx) && s.q.requests[id].engine == 1 - p.engine
    && !Blocks(s.q, id) && RequestOf(s, p).deps == []
  }

  lemma NewNotDoomed(s: Sys, p: Submission)
    requires CanSubmit(s, p) && RequestOf(s, p).deps == []
    ensures !Doomed(Submitted(s, p), |s.q.status|)
  {
  }

  lemma SlipsPast(s: Sys, p: Submission, id: nat) returns (steps: seq<Step>, s': Sys)
    requires Core(s) && Slips(s, p, id)
    ensures QuietRun(Submitted(s, p), steps, s') && s'.q.Live(id) && WasStarted(s'.q, |s.q.status|)
  {
    NotOrdered(s.q, RequestOf(s, p), id);
    NewNotDoomed(s, p);
    steps, s' := PassBy(s, p, id);
  }

  lemma StillStreams(s: Sys, p: Submission, id: nat)
    requires Core(s) && CanSubmit(s, p) && InStream(s, id, p.ctx)
    ensures InStream(Submitted(s, p), id, p.ctx) && id < |s.q.status|
    ensures |s.q.status| in Submitted(s, p).q.requests && Submitted(s, p).q.requests[|s.q.status|].ctx == p.ctx
  {
    NotYetLive(s.q);
    LiveInOneLane(s.q, id);
    EnqueueLanes(s.q, RequestOf(s, p));
  }

  lemma SlipsRun(s: Sys, p: Submission, id: nat) returns (steps: seq<Step>, s': Sys)
    requires Core(s) && Slips(s, p, id)
    ensures PlainRun(s, steps, s', true) && OutOfTurn(s', id, |s.q.status|, p.ctx)
  {
    var rest;
    rest, s' := SlipsPast(s, p, id);
    StillStreams(s, p, id);
    StepCore(s, Submit(p));
    QuietStreams(Submitted(s, p), rest, s', id, p.ctx);
    QuietIsPlain(Submitted(s, p), rest, s', true);
    PlainOne(s, Submit(p), true);
    steps := PlainThen(s, [Submit(p)], Submitted(s, p), rest, s', true);
  }

  /** The engines leave a stream what it is. */
  lemma {:induction false} QuietStreams(s: Sys, steps: seq<Step>, s': Sys, id: nat, c: nat)
    requires Core(s) && QuietRun(s, steps, s') && InStream(s, id, c) && s'.q.Live(id)
    ensures InStream(s', id, c) && s'.q.requests == s.q.requests
    decreases |steps|
  {
    if steps != [] {
      StepCore(s, steps[0]);
      var next := Apply(s, steps[0]);
      QuietLive(next, steps[1..], s', id);
      QuietStream(s, steps[0], id, c);
      QuietStreams(next, steps[1..], s', id, c);
    }
  }

  lemma QuietStream(s: Sys, t: Step, id: nat, c: nat)
    requires Core(s) && Quiet(t) && Enabled(s, t) && InStream(s, id, c) && Core(Apply(s, t)) && Apply(s, t).q.Live(id)
    ensures InStream(Apply(s, t), id, c) && Apply(s, t).q.requests == s.q.requests
  {
    if t.Leave? {
      var s' := Apply(s, t);
      LeftFrame(s, t.e, t.code, t.hung);
      InvKeepsAlive(s', id);
    }
  }

  lemma {:induction false} QuietLive(s: Sys, steps: seq<Step>, s': Sys, id: nat)
    requires Core(s) && QuietRun(s, steps, s') && s'.q.Live(id)
    ensures s.q.Live(id)
    decreases |steps|
  {
    if steps != [] {
      StepCore(s, steps[0]);
      QuietLive(Apply(s, steps[0]), steps[1..], s', id);
      QueuesAre(s, steps[0]);
      QuietShrinks(s, steps[0], id);
    }
  }

  lemma QuietShrinks(s: Sys, t: Step, id: nat)
    requires Sound(s) && Quiet(t) && Enabled(s, t) && QueuesAfter(s, t).Live(id)
    ensures s.q.Live(id)
  {
    match t
    case Go(e) => DispatchInv(s.q, e);
    case Leave(e, code, hung) => RetireInv(s.q, e, code);
    case Claim(_) =>
  }

  /** No continuation that refuses nothing more starts a request of a single-timeline context out of its turn. */
  ghost predicate StreamsSafe(s: Sys) {
    forall steps, s', a, b, c :: PlainRun(s, steps, s', true) ==> !OutOfTurn(s', a, b, c)
  }

  lemma AgainSlips(s: Sys, p: Submission, code: int, id: nat)
    requires Core(s) && CanSubmit(s, p) && InStream(s, id, p.ctx) && !Blocks(s.q, id) && s.q.requests[id].engine < 2
    ensures Slips(RefusedSys(s, p, code), Again(p, 1 - s.q.requests[id].engine), id)
  {
    AgainWaits(s, p, code, 1 - s.q.requests[id].engine);
    SameHeld(s.q, code, id, id);
  }

  lemma HiddenStream(s: Sys, p: Submission, code: int, id: nat)
    requires Core(s) && CanSubmit(s, p) && code < 0 && InStream(s, id, p.ctx) && !Blocks(s.q, id)
    ensures !StreamsSafe(RefusedSys(s, p, code))
  {
    LiveInOneLane(s.q, id);
    AgainSlips(s, p, code, id);
    StepCore(s, Refused(p, code));
    var steps, s' := SlipsRun(RefusedSys(s, p, code), Again(p, 1 - s.q.requests[id].engine), id);
  }

  lemma StreamsAlike(a: Sys, b: Sys)
    requires Alike(a, b) && !StreamsSafe(a)
    ensures !StreamsSafe(b)
  {
    var steps, a', x, y, c :| PlainRun(a, steps, a', true) && OutOfTurn(a', x, y, c);
    var b' := AlikePlain(a, steps, a', b, true);
    AlikeParts(a', b');
    assert OutOfTurn(b', x, y, c);
  }

  lemma UnsparedCore(s: Sys, p: Submission, code: int)
    requires Core(s) && CanSubmit(s, p) && code < 0 && !SparesStream(s, p.ctx)
    ensures !StreamsSafe(RefusedSys(s, p, code))
  {
    var id :| InStream(s, id, p.ctx) && !Blocks(s.q, id);
    HiddenStream(s, p, code, id);
  }

  lemma UnsparedStream(s: Sys, p: Submission, code: int)
    requires Lasting(s) && CanSubmit(s, p) && code < 0 && !SparesStream(s, p.ctx)
    ensures !StreamsSafe(RefusedSys(s, p, code))
  {
    BareAlike(s);
    AlikeTurns(s, Bare(s));
    AlikeEnabled(s, Bare(s), Submit(p));
    AlikeRefused(s, Bare(s), p, code);
    UnsparedCore(Bare(s), p, code);
    StreamsAlike(RefusedSys(Bare(s), p, code), RefusedSys(s, p, code));
  }

  /** Single timelines stay in turn after a refused submission, whatever comes after, if and only if every unretired
      request of its context, if that has a single timeline, holds up the other engine. */
  lemma RefusalStreams(s: Sys, p: Submission, code: int)
    requires StreamInv(s) && CanSubmit(s, p) && code < 0
    ensures StreamsSafe(RefusedSys(s, p, code)) <==> SparesStream(s, p.ctx)
  {
    var s1 := RefusedSys(s, p, code);
    if SparesStream(s, p.ctx) {
      StepStreamInv(s, Refused(p, code));
      forall steps, s', a, b, c | PlainRun(s1, steps, s', true)
        ensures !OutOfTurn(s', a, b, c)
      {
        PlainIsStream(s1, steps, s');
        RunTimeline(s1, steps, s');
      }
    } else {
      UnsparedStream(s, p, code);
    }
  }
}
