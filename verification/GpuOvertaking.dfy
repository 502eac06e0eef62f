/**
 What can happen before a request retires: everything that is not behind it. From any state the engines can be run
 until only the requests that follow a given one are left, which makes the orders of the other modules exact.
 */
module GpuOvertaking {
  import opened Basics
  import opened RequestQueue
  import opened ImplicitFencing
  import opened Lifetimes
  import opened GpuSystem
  import opened GpuSafety
  import opened GpuRuns

  // ------------------------------------------------------------------------
  // Behind a request
  // ------------------------------------------------------------------------

  lemma FollowsLater(q: Queues, id: nat, x: nat, m: nat)
    requires QueueInv(q) && Follows(q, id, x) && q.Live(m) && m in q.requests && x <= m
    requires q.requests[m].engine == q.requests[x].engine
    ensures Follows(q, id, m)
  {
    if q.requests[x].engine != q.requests[id].engine {
      var y, z :| HeldBy(q, id, x, y, z);
      assert HeldBy(q, id, m, y, z);
    }
  }

  lemma FollowsDependent(q: Queues, id: nat, z: nat, m: nat, f: Fence)
    requires QueueInv(q) && q.Live(id) && Follows(q, id, z) && m in q.requests && q.requests[m].engine < 2
    requires m in q.lanes[q.requests[m].engine].queue && f in q.requests[m].deps && z in f
    ensures Follows(q, id, m)
  {
    assert m in q.lanes[q.requests[m].engine].Ids() && z < m;
    LiveInOneLane(q, id);
    LiveInOneLane(q, z);
    if q.requests[m].engine == q.requests[z].engine {
      FollowsLater(q, id, z, m);
    } else if q.requests[m].engine != q.requests[id].engine {
      assert HeldBy(q, id, m, m, z);
    }
  }

  lemma LeastOf(xs: set<nat>) returns (m: nat)
    requires xs != {}
    ensures m in xs && forall x | x in xs :: m <= x
    decreases |xs|
  {
    var k :| k in xs;
    m := k;
    if xs != {k} {
      var rest := LeastOf(xs - {k});
      m := if rest < k then rest else k;
      assert forall x | x in xs :: x == k || x in xs - {k};
    }
  }

  ghost function Ahead(q: Queues, id: nat): set<nat> {
    set x | x in q.LiveIds() && !Follows(q, id, x)
  }

  lemma FirstLeads(q: Queues, id: nat, m: nat)
    requires QueueInv(q) && m in Ahead(q, id) && forall x | x in Ahead(q, id) :: m <= x
    ensures q.Live(m) && m in q.requests && q.requests[m].engine < 2
    ensures var ids := q.lanes[q.requests[m].engine].Ids(); ids != [] && ids[0] == m
  {
    LiveIdsIsLive(q);
    LiveInOneLane(q, m);
    var ids := q.lanes[q.requests[m].engine].Ids();
    IncreasingHead(ids);
    var h := ids[0];
    assert q.Live(h) && h in ids && h <= m;
    if Follows(q, id, h) {
      FollowsLater(q, id, h, m);
    }
    assert h in Ahead(q, id);
  }

  /** The first of those that are not behind `id` heads its engine, with nothing left to wait for. */
  lemma FirstAhead(q: Queues, id: nat) returns (m: nat)
    requires QueueInv(q) && q.Live(id) && Ahead(q, id) != {}
    ensures m in Ahead(q, id) && m != id && m in q.requests && q.requests[m].engine < 2
    ensures var lane := q.lanes[q.requests[m].engine];
            lane.active == Some(m) ||
            (lane.active.None? && lane.queue != [] && lane.queue[0] == m && Ready(q.status, q.requests[m].deps))
  {
    m := LeastOf(Ahead(q, id));
    FirstLeads(q, id, m);
    LiveInOneLane(q, id);
    if q.lanes[q.requests[m].engine].active.None? {
      FirstReady(q, id, m);
    }
  }

  lemma FirstReady(q: Queues, id: nat, m: nat)
    requires QueueInv(q) && q.Live(id) && m in Ahead(q, id) && forall x | x in Ahead(q, id) :: m <= x
    requires m in q.requests && q.requests[m].engine < 2 && m in q.lanes[q.requests[m].engine].queue
    ensures Ready(q.status, q.requests[m].deps)
  {
    LiveIdsIsLive(q);
    forall f, z | f in q.requests[m].deps && z in f
      ensures Signaled(q.status, z)
    {
      assert z < m;
      if q.Live(z) {
        assert z !in Ahead(q, id);
        FollowsDependent(q, id, z, m, f);
      }
    }
  }

  // ------------------------------------------------------------------------
  // One move of an engine
  // ------------------------------------------------------------------------

  ghost predicate IsMove(t: Step) {
    t.Go? || (t.Leave? && !t.hung)
  }

  /** Which request a move concerns. */
  ghost function Mover(s: Sys, t: Step): nat
    requires IsMove(t) && Enabled(s, t)
  {
    if t.Go? then s.q.lanes[t.e].queue[0] else Leaving(s.q, t.e)
  }

  /** A request that may start is started; one that is not fails for a reason of its own. */
  ghost predicate Fair(s: Sys, t: Step)
    requires IsMove(t) && Enabled(s, t)
  {
    t.Leave? && s.q.lanes[t.e].active.None? ==> !CanGo(s, t.e)
  }

  lemma MoveAhead(s: Sys, id: nat) returns (t: Step)
    requires Core(s) && !s.q.claimed && s.q.Live(id) && Ahead(s.q, id) != {}
    ensures IsMove(t) && Enabled(s, t) && Fair(s, t) && Mover(s, t) != id
  {
    var m := FirstAhead(s.q, id);
    var e := s.q.requests[m].engine;
    if s.q.lanes[e].active.Some? {
      t := Leave(e, 0, false);
      LetGoDefined(s, e);
    } else if CanGo(s, e) {
      t := Go(e);
    } else {
      t := Leave(e, if HeadError(s, e) != 0 then HeadError(s, e) else -EIO, false);
      LetGoDefined(s, e);
    }
  }

  /** What a move leaves as it is. */
  ghost predicate Aside(s: Sys, s': Sys) {
    && s'.slots == s.slots && s'.sizes == s.sizes && s'.made == s.made && s'.q.requests == s.q.requests
    && |s'.q.status| == |s.q.status| && s'.q.queuedCount <= s.q.queuedCount && s'.q.claimed == s.q.claimed
    && s.q.log <= s'.q.log
    && (forall x :: s'.q.Live(x) ==> s.q.Live(x))
    && (forall id, x {:trigger Follows(s'.q, id, x)} :: Follows(s'.q, id, x) ==> Follows(s.q, id, x))
    && (forall id {:trigger Blocks(s'.q, id)} :: Blocks(s'.q, id) ==> Blocks(s.q, id))
  }

  lemma DispatchBack(q: Queues, e: nat)
    requires QueueInv(q) && HeadReady(q, e)
    ensures var q' := Dispatch(q, e);
            && (forall x :: q'.Live(x) ==> q.Live(x))
            && (forall a, c, y, z {:trigger HeldBy(q', a, c, y, z)} :: HeldBy(q', a, c, y, z) ==> HeldBy(q, a, c, y, z))
  {
    DispatchInv(q, e);
    DispatchLanes(q, e);
    assert forall y :: y in q.lanes[e].queue[1..] ==> y in q.lanes[e].queue;
  }

  lemma RetireBack(q: Queues, e: nat, code: int)
    requires QueueInv(q) && CanRetire(q, e)
    ensures Leaving(q, e) < |q.status| && q.queuedCount > 0
    ensures var q' := Retire(q, e, code);
            && (forall x :: q'.Live(x) ==> q.Live(x))
            && (forall a, c, y, z {:trigger HeldBy(q', a, c, y, z)} :: HeldBy(q', a, c, y, z) ==> HeldBy(q, a, c, y, z))
  {
    RetireInv(q, e, code);
    RetireLanes(q, e, code);
    assert q.lanes[e].active.None? ==> forall y :: y in q.lanes[e].queue[1..] ==> y in q.lanes[e].queue;
  }

  lemma BackFollows(q: Queues, q': Queues)
    requires q'.requests == q.requests
    requires forall x :: q'.Live(x) ==> q.Live(x)
    requires forall a, c, y, z {:trigger HeldBy(q', a, c, y, z)} :: HeldBy(q', a, c, y, z) ==> HeldBy(q, a, c, y, z)
    ensures forall id, x {:trigger Follows(q', id, x)} :: Follows(q', id, x) ==> Follows(q, id, x)
    ensures forall id {:trigger Blocks(q', id)} :: Blocks(q', id) ==> Blocks(q, id)
  {
    forall id, x | Follows(q', id, x)
      ensures Follows(q, id, x)
    {
      if Held(q', id, x) {
        var y, z :| HeldBy(q', id, x, y, z);
        assert HeldBy(q, id, x, y, z);
      }
    }
    forall id | Blocks(q', id)
      ensures Blocks(q, id)
    {
      var y, z :| HeldBy(q', id, y, y, z);
      assert HeldBy(q, id, y, y, z);
    }
  }

  lemma MoveAside(s: Sys, t: Step)
    requires Sound(s) && IsMove(t) && Enabled(s, t)
    ensures Aside(s, Apply(s, t))
    ensures forall x :: s.q.Live(x) && x != Mover(s, t) ==> Apply(s, t).q.Live(x)
  {
    var s' := Apply(s, t);
    match t
    case Go(e) =>
      DispatchBack(s.q, e);
      DispatchInv(s.q, e);
      BackFollows(s.q, s'.q);
    case Leave(e, code, hung) =>
      LeftFrame(s, e, code, hung);
      RetireBack(s.q, e, code);
      RetireInv(s.q, e, code);
      BackFollows(s.q, s'.q);
  }

  // ------------------------------------------------------------------------
  // Requests that will fail without running
  // ------------------------------------------------------------------------

  ghost predicate Waiting(q: Queues, x: nat) {
    |q.lanes| == 2 && x in q.requests && (x in q.lanes[0].queue || x in q.lanes[1].queue)
  }

  ghost predicate FailedFence(q: Queues, x: nat) {
    x < |q.status| && q.status[x].Done? && q.status[x].code != 0
  }

  ghost predicate BannedContext(s: Sys, x: nat)
    requires x in s.q.requests
  {
    s.q.requests[x].ctx in s.contexts && s.contexts[s.q.requests[x].ctx].banned
  }

  /** `x` waits, and its context is banned, or something it waits for has failed or will. */
  ghost predicate Doomed(s: Sys, x: nat)
    decreases x
  {
    && Waiting(s.q, x)
    && (BannedContext(s, x)
        || exists f, p: nat :: f in s.q.requests[x].deps && p in f && p < x && (FailedFence(s.q, p) || Doomed(s, p)))
  }

  lemma {:induction false} FenceErrorMeans(status: seq<Status>, f: Fence)
    requires Polled(status, f) && FenceError(status, f) != 0
    ensures exists p :: p in f && p < |status| && status[p].Done? && status[p].code != 0
  {
    assert f[0] in f;
    if status[f[0]].code == 0 {
      assert forall x :: x in f[1..] ==> x in f;
      FenceErrorMeans(status, f[1..]);
    }
  }

  lemma {:induction false} DepErrorMeans(status: seq<Status>, deps: seq<Fence>)
    requires Ready(status, deps) && DepError(status, deps) != 0
    ensures exists f, p: nat :: f in deps && p in f && p < |status| && status[p].Done? && status[p].code != 0
  {
    var last := deps[|deps| - 1];
    assert last in deps && forall f :: f in deps[..|deps| - 1] ==> f in deps;
    if FenceError(status, last) < 0 {
      FenceErrorMeans(status, last);
    } else {
      DepErrorMeans(status, deps[..|deps| - 1]);
    }
  }

  /** A head that is failed without running was doomed. */
  lemma FailedHeadDoomed(s: Sys, e: nat)
    requires Sound(s) && HeadReady(s.q, e) && !CanGo(s, e)
    ensures Doomed(s, s.q.lanes[e].queue[0])
  {
    var m := s.q.lanes[e].queue[0];
    if HeadError(s, e) != 0 {
      DepErrorMeans(s.q.status, s.q.requests[m].deps);
      var f, p: nat :| f in s.q.requests[m].deps && p in f && p < |s.q.status| && s.q.status[p].Done? && s.q.status[p].code != 0;
      assert p < m && FailedFence(s.q, p);
    }
  }

  /** A fair move dooms nobody. */
  lemma {:induction false} MoveDoomsNone(s: Sys, t: Step, x: nat)
    requires Sound(s) && IsMove(t) && Enabled(s, t) && Fair(s, t) && Doomed(Apply(s, t), x)
    ensures Doomed(s, x)
    decreases x
  {
    var s' := Apply(s, t);
    MoveWaits(s, t, x);
    if !BannedContext(s', x) {
      var f, p: nat :| f in s.q.requests[x].deps && p in f && p < x && (FailedFence(s'.q, p) || Doomed(s', p));
      if FailedFence(s'.q, p) {
        MoveFails(s, t, p);
      } else {
        MoveDoomsNone(s, t, p);
      }
    }
  }

  lemma MoveWaits(s: Sys, t: Step, x: nat)
    requires Sound(s) && IsMove(t) && Enabled(s, t) && Waiting(Apply(s, t).q, x)
    ensures Waiting(s.q, x) && Apply(s, t).q.requests == s.q.requests
    ensures BannedContext(Apply(s, t), x) ==> BannedContext(s, x)
  {
    match t
    case Go(e) =>
      assert forall y :: y in s.q.lanes[e].queue[1..] ==> y in s.q.lanes[e].queue;
    case Leave(e, code, hung) =>
      LeftFrame(s, e, code, hung);
      LeftBans(s, e, code);
      assert s.q.lanes[e].active.None? ==> forall y :: y in s.q.lanes[e].queue[1..] ==> y in s.q.lanes[e].queue;
  }

  lemma LeftBans(s: Sys, e: nat, code: int)
    requires CanLeave(s, e, code, false) && CanLetGo(s, e)
    ensures forall c :: c in Left(s, e, code, false).contexts ==>
              c in s.contexts && Left(s, e, code, false).contexts[c].banned == s.contexts[c].banned
  {
  }

  lemma MoveFails(s: Sys, t: Step, p: nat)
    requires Sound(s) && IsMove(t) && Enabled(s, t) && Fair(s, t) && FailedFence(Apply(s, t).q, p)
    ensures FailedFence(s.q, p) || Doomed(s, p)
  {
    match t
    case Go(e) =>
    case Leave(e, code, hung) =>
      LeftFrame(s, e, code, hung);
      if p == Leaving(s.q, e) && s.q.lanes[e].active.None? {
        FailedHeadDoomed(s, e);
      }
  }

  // ------------------------------------------------------------------------
  // Running ahead of a request
  // ------------------------------------------------------------------------

  ghost predicate Moves(s: Sys, steps: seq<Step>, s': Sys)
    decreases |steps|
  {
    if steps == [] then s' == s
    else
      && IsMove(steps[0]) && Enabled(s, steps[0]) && Fair(s, steps[0])
      && Moves(Apply(s, steps[0]), steps[1..], s')
  }

  /** Whoever was waiting and is gone has been started, unless it was doomed. */
  ghost predicate AllStarted(s: Sys, s': Sys) {
    forall x {:trigger WasStarted(s'.q, x)} :: Waiting(s.q, x) && !Doomed(s, x) && !s'.q.Live(x) ==> WasStarted(s'.q, x)
  }

  lemma AsideTwice(s: Sys, mid: Sys, s': Sys)
    requires Aside(s, mid) && Aside(mid, s')
    ensures Aside(s, s')
  {
  }

  lemma StartedFirst(s: Sys, t: Step, s': Sys)
    requires Sound(s) && IsMove(t) && Enabled(s, t) && Fair(s, t)
    requires Aside(Apply(s, t), s') && AllStarted(Apply(s, t), s')
    ensures AllStarted(s, s')
  {
    var mid := Apply(s, t);
    QueuesAre(s, t);
    forall x | Waiting(s.q, x) && !Doomed(s, x) && !s'.q.Live(x)
      ensures WasStarted(s'.q, x)
    {
      if Doomed(mid, x) {
        MoveDoomsNone(s, t, x);
      }
      StartedOrWaits(s, t, x);
    }
  }

  lemma StartedOrWaits(s: Sys, t: Step, x: nat)
    requires Sound(s) && IsMove(t) && Enabled(s, t) && Fair(s, t) && Waiting(s.q, x) && !Doomed(s, x)
    ensures Waiting(QueuesAfter(s, t), x) || WasStarted(QueuesAfter(s, t), x)
  {
    match t
    case Go(e) => StartedByGo(s.q, e, x);
    case Leave(e, code, hung) =>
      if s.q.lanes[e].active.None? {
        FailedHeadDoomed(s, e);
        SkippedHead(s.q, e, x);
      }
  }

  lemma StartedByGo(q: Queues, e: nat, x: nat)
    requires |q.lanes| == 2 && HeadReady(q, e) && Waiting(q, x)
    ensures Waiting(Dispatch(q, e), x) || WasStarted(Dispatch(q, e), x)
  {
    SkippedHead(q, e, x);
    assert Dispatch(q, e).log[|q.log|] == Started(q.lanes[e].queue[0]);
  }

  lemma SkippedHead(q: Queues, e: nat, x: nat)
    requires |q.lanes| == 2 && HeadReady(q, e) && Waiting(q, x)
    ensures x == q.lanes[e].queue[0] || x in q.lanes[e].queue[1..] || x in q.lanes[1 - e].queue
  {
    assert q.lanes[e].queue == [q.lanes[e].queue[0]] + q.lanes[e].queue[1..];
  }

  /** The engines can be run until everything left is behind `id`, and `id` itself is still there. */
  lemma {:induction false} RunAhead(s: Sys, id: nat) returns (steps: seq<Step>, s': Sys)
    requires Core(s) && !s.q.claimed && s.q.Live(id)
    ensures Moves(s, steps, s') && Core(s') && Aside(s, s') && AllStarted(s, s')
    ensures s'.q.Live(id) && Ahead(s'.q, id) == {}
    decreases Work(s.q)
  {
    if Ahead(s.q, id) == {} {
      assert AllStarted(s, s);
      return [], s;
    }
    var t := MoveAhead(s, id);
    MoveShrinks(s, t);
    StepCore(s, t);
    MoveAside(s, t);
    var mid := Apply(s, t);
    var rest;
    rest, s' := RunAhead(mid, id);
    AsideTwice(s, mid, s');
    StartedFirst(s, t, s');
    steps := [t] + rest;
    assert steps[1..] == rest;
  }

  // ------------------------------------------------------------------------
  // Running until everything left is behind a request
  // ------------------------------------------------------------------------

  /** Steps of the engines alone, or giving them back. */
  ghost predicate Quiet(t: Step) {
    t.Go? || t.Leave? || t.Claim?
  }

  ghost predicate QuietRun(s: Sys, steps: seq<Step>, s': Sys)
    decreases |steps|
  {
    if steps == [] then s' == s
    else Quiet(steps[0]) && Enabled(s, steps[0]) && QuietRun(Apply(s, steps[0]), steps[1..], s')
  }

  lemma {:induction false} QuietIsCalm(s: Sys, steps: seq<Step>, s': Sys, wild: bool)
    requires QuietRun(s, steps, s')
    ensures CalmRun(s, steps, s', wild)
    decreases |steps|
  {
    if steps != [] {
      QuietIsCalm(Apply(s, steps[0]), steps[1..], s', wild);
    }
  }

  lemma {:induction false} MovesAreQuiet(s: Sys, steps: seq<Step>, s': Sys)
    requires Moves(s, steps, s')
    ensures QuietRun(s, steps, s')
    decreases |steps|
  {
    if steps != [] {
      MovesAreQuiet(Apply(s, steps[0]), steps[1..], s');
    }
  }

  /** The engines are given back first if they are claimed. */
  ghost function Unclaimed(s: Sys): Sys {
    s.(q := s.q.(claimed := false))
  }

  lemma UnclaimRun(s: Sys, steps: seq<Step>, s': Sys) returns (all: seq<Step>)
    requires QuietRun(Unclaimed(s), steps, s')
    ensures QuietRun(s, all, s')
  {
    if s.q.claimed {
      all := [Claim(false)] + steps;
      assert all[1..] == steps && Apply(s, Claim(false)) == Unclaimed(s);
    } else {
      all := steps;
      assert Unclaimed(s) == s;
    }
  }

  lemma UnclaimedSame(s: Sys)
    ensures forall id, x {:trigger Follows(Unclaimed(s).q, id, x)} :: Follows(Unclaimed(s).q, id, x) <==> Follows(s.q, id, x)
    ensures forall id {:trigger Blocks(Unclaimed(s).q, id)} :: Blocks(Unclaimed(s).q, id) <==> Blocks(s.q, id)
    ensures forall id {:trigger Unclaimed(s).q.Live(id)} :: Unclaimed(s).q.Live(id) <==> s.q.Live(id)
  {
    var q, q' := s.q, Unclaimed(s).q;
    assert forall a, c, y, z {:trigger HeldBy(q', a, c, y, z)} {:trigger HeldBy(q, a, c, y, z)} ::
        HeldBy(q', a, c, y, z) <==> HeldBy(q, a, c, y, z);
    assert forall a, c {:trigger Held(q', a, c)} {:trigger Held(q, a, c)} :: Held(q', a, c) <==> Held(q, a, c);
  }

  lemma {:induction false} UnclaimedDooms(s: Sys, x: nat)
    ensures Doomed(Unclaimed(s), x) <==> Doomed(s, x)
    decreases x
  {
    forall p: nat | p < x
      ensures Doomed(Unclaimed(s), p) <==> Doomed(s, p)
    {
      UnclaimedDooms(s, p);
    }
  }

  lemma EmptyBeside(q: Queues, a: nat)
    requires QueueInv(q) && q.Live(a) && a in q.requests && Ahead(q, a) == {} && !Blocks(q, a)
    ensures q.requests[a].engine < 2 && q.lanes[1 - q.requests[a].engine] == Lane(None, [])
  {
    LiveIdsIsLive(q);
    LiveInOneLane(q, a);
    var lane := q.lanes[1 - q.requests[a].engine];
    if lane.Ids() != [] {
      var x := lane.Ids()[0];
      assert x in lane.Ids() && q.Live(x) && x !in Ahead(q, a);
      assert Follows(q, a, x) && Held(q, a, x);
      HeldBlocks(q, a, x);
    }
  }

  /** Until everything left is behind `a`. */
  lemma RunPast(s: Sys, a: nat) returns (steps: seq<Step>, s': Sys)
    requires Core(s) && s.q.Live(a)
    ensures QuietRun(s, steps, s') && Core(s') && !s'.q.claimed && s'.q.Live(a)
    ensures Aside(Unclaimed(s), s') && AllStarted(Unclaimed(s), s') && Ahead(s'.q, a) == {}
  {
    ClaimCore(s, false);
    UnclaimedSame(s);
    var moves;
    moves, s' := RunAhead(Unclaimed(s), a);
    MovesAreQuiet(Unclaimed(s), moves, s');
    steps := UnclaimRun(s, moves, s');
  }

  /** A new request that is not ordered after `a` leaves the other engine free of it. */
  lemma NotBlocking(q: Queues, r: Request, a: nat)
    requires QueueInv(q) && r.engine < 2 && q.Live(a) && a in q.requests && q.requests[a].engine == 1 - r.engine
    requires !Orders(q, r, a)
    ensures !Blocks(Enqueue(q, r), a)
  {
    var q', n := Enqueue(q, r), |q.status|;
    NotYetLive(q);
    if Blocks(q', a) {
      var y: nat, z: nat :| HeldBy(q', a, y, y, z);
      EnqueueLanes(q, r);
      assert y <= n;
      assert HeldBy(q', a, n, y, z);
      HeldIsOrdered(q, r, a);
    }
  }

  lemma NewWaits(q: Queues, r: Request)
    requires |q.lanes| == 2 && r.engine < 2
    ensures Waiting(Enqueue(q, r).(claimed := false), |q.status|)
  {
  }
}
