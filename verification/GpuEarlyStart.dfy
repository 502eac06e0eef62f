/**
 When exactly a new request can start while an unretired one of the other engine is still there, over all the ways a
 run can go on.
 */
module GpuEarlyStart {
  import opened Basics
  import opened RequestQueue
  import opened ImplicitFencing
  import opened Lifetimes
  import opened GpuSystem
  import opened GpuSafety
  import opened GpuRuns
  import opened GpuOvertaking

  // ------------------------------------------------------------------------
  // A request held back is not started
  // ------------------------------------------------------------------------

  ghost predicate HeldBack(q: Queues, a: nat, c: nat) {
    q.Live(a) ==> q.Live(c) && Held(q, a, c) && !WasStarted(q, c)
  }

  lemma HeldStep(s: Sys, t: Step, a: nat, c: nat)
    requires Sound(s) && Enabled(s, t) && HeldBack(s.q, a, c) && a < |s.q.status|
    ensures HeldBack(QueuesAfter(s, t), a, c) && a < |QueuesAfter(s, t).status|
  {
    match t
    case Submit(p) => HeldSubmit(s, p, a, c);
    case Refused(p, code) => SameHeld(s.q, code, a, c);
    case Go(e) => HeldGo(s.q, e, a, c);
    case Leave(e, code, hung) => HeldLeave(s.q, e, code, a, c);
    case Claim(on) => ClaimCarries(s.q, on);
    case _ =>
  }

  lemma HeldSubmit(s: Sys, p: Submission, a: nat, c: nat)
    requires Sound(s) && CanSubmit(s, p) && HeldBack(s.q, a, c) && a < |s.q.status|
    ensures HeldBack(Submitted(s, p).q, a, c)
  {
    SubmitDeps(s, p);
    EnqueueInv(s.q, RequestOf(s, p));
    if s.q.Live(a) {
      HeldKeptByEnqueue(s.q, RequestOf(s, p), a, c);
    }
  }

  lemma HeldGo(q: Queues, e: nat, a: nat, c: nat)
    requires QueueInv(q) && HeadReady(q, e) && HeldBack(q, a, c)
    ensures HeldBack(Dispatch(q, e), a, c)
  {
    DispatchInv(q, e);
    HeadNotHeld(q, e, a);
    if q.Live(a) {
      HeldKeptByDispatch(q, e, a, c);
    }
  }

  lemma HeldLeave(q: Queues, e: nat, code: int, a: nat, c: nat)
    requires QueueInv(q) && CanRetire(q, e) && HeldBack(q, a, c)
    ensures Leaving(q, e) < |q.status| && q.queuedCount > 0
    ensures HeldBack(Retire(q, e, code), a, c)
  {
    RetireInv(q, e, code);
    if q.Live(a) && a != Leaving(q, e) {
      HeldKeptByRetire(q, e, code, a, c);
    }
  }

  lemma {:induction false} HeldRun(s: Sys, steps: seq<Step>, s': Sys, a: nat, c: nat)
    requires Sound(s) && Run(s, steps, s') && HeldBack(s.q, a, c) && a < |s.q.status|
    ensures HeldBack(s'.q, a, c)
    decreases |steps|
  {
    if steps != [] {
      StepSound(s, steps[0]);
      HeldStep(s, steps[0], a, c);
      QueuesAre(s, steps[0]);
      HeldRun(Apply(s, steps[0]), steps[1..], s', a, c);
    }
  }

  // ------------------------------------------------------------------------
  // Nor is one that is doomed
  // ------------------------------------------------------------------------

  /** Fences are signaled with 0 or a negative errno. */
  ghost predicate CodesOk(q: Queues) {
    forall x | 0 <= x < |q.status| :: q.status[x].Done? ==> q.status[x].code <= 0
  }

  lemma {:induction false} DepErrorSign(status: seq<Status>, deps: seq<Fence>)
    requires Ready(status, deps)
    ensures DepError(status, deps) <= 0
  {
    if deps != [] {
      var last := deps[|deps| - 1];
      assert last in deps && forall f :: f in deps[..|deps| - 1] ==> f in deps;
      DepErrorSign(status, deps[..|deps| - 1]);
    }
  }

  lemma CodesAfter(s: Sys, t: Step)
    requires CodesOk(s.q) && Enabled(s, t)
    ensures CodesOk(QueuesAfter(s, t))
  {
    match t
    case Leave(e, code, hung) => LeaveSign(s, e, code, hung);
    case _ =>
  }

  lemma StepCodes(s: Sys, t: Step)
    requires CodesOk(s.q) && Enabled(s, t)
    ensures CodesOk(Apply(s, t).q)
  {
    QueuesAre(s, t);
    CodesAfter(s, t);
  }

  lemma LeaveSign(s: Sys, e: nat, code: int, hung: bool)
    requires CanLeave(s, e, code, hung)
    ensures code <= 0 && (s.q.lanes[e].active.None? ==> code < 0)
  {
    if s.q.lanes[e].active.None? {
      DepErrorSign(s.q.status, s.q.requests[s.q.lanes[e].queue[0]].deps);
    }
  }

  lemma {:induction false} FenceErrorFound(status: seq<Status>, f: Fence, p: nat)
    requires Polled(status, f) && p in f && status[p].code != 0
    requires forall x | 0 <= x < |status| :: status[x].Done? ==> status[x].code <= 0
    ensures FenceError(status, f) < 0
  {
    assert f[0] in f;
    if status[f[0]].code == 0 {
      assert forall x :: x in f[1..] ==> x in f;
      assert p in f[1..];
      FenceErrorFound(status, f[1..], p);
    }
  }

  lemma {:induction false} DepErrorFound(status: seq<Status>, deps: seq<Fence>, f: Fence, p: nat)
    requires Ready(status, deps) && f in deps && p in f && status[p].code != 0
    requires forall x | 0 <= x < |status| :: status[x].Done? ==> status[x].code <= 0
    ensures DepError(status, deps) != 0
  {
    var last := deps[|deps| - 1];
    assert last in deps && forall g :: g in deps[..|deps| - 1] ==> g in deps;
    if f == last {
      FenceErrorFound(status, f, p);
    } else {
      assert f in deps[..|deps| - 1];
      DepErrorFound(status, deps[..|deps| - 1], f, p);
    }
  }

  /** Doomed, or already failed. */
  ghost predicate Lost(s: Sys, x: nat) {
    FailedFence(s.q, x) || Doomed(s, x)
  }

  lemma DoomedPending(s: Sys, x: nat)
    requires QueueInv(s.q)
    ensures Doomed(s, x) ==> s.q.Live(x) && !Signaled(s.q.status, x)
  {
    assert Waiting(s.q, x) ==> s.q.Live(x);
  }

  lemma LostHead(s: Sys, e: nat)
    requires Sound(s) && CodesOk(s.q) && HeadReady(s.q, e) && Lost(s, s.q.lanes[e].queue[0])
    ensures !CanGo(s, e)
  {
    var m := s.q.lanes[e].queue[0];
    assert m in s.q.lanes[e].Ids() && s.q.Live(m) && !FailedFence(s.q, m);
    if !BannedContext(s, m) {
      var f, p: nat :| f in s.q.requests[m].deps && p in f && p < m && (FailedFence(s.q, p) || Doomed(s, p));
      assert Signaled(s.q.status, p);
      DoomedPending(s, p);
      DepErrorFound(s.q.status, s.q.requests[m].deps, f, p);
    }
  }

  /** A ban is for good. */
  lemma BansKept(s: Sys, t: Step, c: nat)
    requires Enabled(s, t) && c in s.contexts && c < s.made && s.contexts[c].banned && c in Apply(s, t).contexts
    ensures Apply(s, t).contexts[c].banned
  {
    match t
    case Leave(e, code, hung) => LeftKeepsBans(s, e, code, hung, c);
    case Life(l) => LifeKeepsBans(s, l, c);
    case _ =>
  }

  lemma ContextNamed(s: Sys, c: nat)
    requires Core(s) && c in s.contexts
    ensures c < s.made
  {
    assert Present(s.contexts, s.files, s.vms, AContext(c)) && AContext(c) in s.born;
  }

  lemma LeftKeepsBans(s: Sys, e: nat, code: int, hung: bool, c: nat)
    requires CanLeave(s, e, code, hung) && CanLetGo(s, e)
    requires c in s.contexts && s.contexts[c].banned && c in Left(s, e, code, hung).contexts
    ensures Left(s, e, code, hung).contexts[c].banned
  {
  }

  lemma LifeKeepsBans(s: Sys, l: LifeStep, c: nat)
    requires LifeEnabled(s, l) && c in s.contexts && s.contexts[c].banned && c < s.made && c in LifeApply(s, l).contexts
    ensures LifeApply(s, l).contexts[c].banned
  {
  }

  /** Nothing is signaled twice. */
  lemma StepDone(s: Sys, t: Step, x: nat)
    requires Sound(s) && Enabled(s, t) && x < |s.q.status|
    ensures var q := QueuesAfter(s, t); x < |q.status| && (s.q.status[x].Done? ==> q.status[x] == s.q.status[x])
  {
    match t
    case Leave(e, code, hung) => LeaveWaits(s, e, code, hung, x);
    case _ =>
  }

  /** Waiting requests stay until they start or are failed. */
  lemma StepWaits(s: Sys, t: Step, x: nat)
    requires Sound(s) && Enabled(s, t) && Waiting(s.q, x)
    ensures Waiting(QueuesAfter(s, t), x) || (IsMoveOf(s, t, x) && (t.Leave? ==> FailedFence(QueuesAfter(s, t), x)))
  {
    match t
    case Submit(p) => EnqueueLanes(s.q, RequestOf(s, p));
    case Go(e) => assert s.q.lanes[e].queue == [s.q.lanes[e].queue[0]] + s.q.lanes[e].queue[1..];
    case Leave(e, code, hung) => LeaveWaits(s, e, code, hung, x);
    case _ =>
  }

  ghost predicate IsMoveOf(s: Sys, t: Step, x: nat)
    requires Enabled(s, t)
  {
    match t
    case Go(e) => s.q.lanes[e].queue[0] == x
    case Leave(e, _, _) => Leaving(s.q, e) == x
    case _ => false
  }

  lemma LeaveWaits(s: Sys, e: nat, code: int, hung: bool, x: nat)
    requires Sound(s) && CanLeave(s, e, code, hung) && x < |s.q.status|
    ensures var q' := Retire(s.q, e, code);
            && (s.q.status[x].Done? ==> q'.status[x] == s.q.status[x])
            && (Waiting(s.q, x) ==> Waiting(q', x) || (Leaving(s.q, e) == x && FailedFence(q', x)))
  {
    RetireDefined(s.q, e);
    LeaveSign(s, e, code, hung);
    if s.q.lanes[e].active.None? {
      assert s.q.lanes[e].queue == [s.q.lanes[e].queue[0]] + s.q.lanes[e].queue[1..];
    }
  }

  lemma BannedStep(s: Sys, t: Step, x: nat)
    requires SysInv(s) && Enabled(s, t) && Calm(s, t) && x in s.q.requests && BannedContext(s, x)
    requires Waiting(Apply(s, t).q, x) && Apply(s, t).q.requests[x] == s.q.requests[x]
    ensures BannedContext(Apply(s, t), x)
  {
    var s' := Apply(s, t);
    StepInv(s, t);
    LiveIdsIsLive(s'.q);
    assert s'.q.Live(x) && x in s'.q.LiveIds();
    assert RequestOk(s'.contexts, s'.q.requests, x);
    ContextNamed(s, s.q.requests[x].ctx);
    BansKept(s, t, s.q.requests[x].ctx);
  }

  /** What becomes of a doomed request that a step does not leave waiting. */
  lemma DoomedMoves(s: Sys, t: Step, x: nat)
    requires Sound(s) && CodesOk(s.q) && Enabled(s, t) && Doomed(s, x)
    ensures x in QueuesAfter(s, t).requests && QueuesAfter(s, t).requests[x] == s.q.requests[x]
    ensures Waiting(QueuesAfter(s, t), x) || FailedFence(QueuesAfter(s, t), x)
  {
    DoomedPending(s, x);
    StepWaits(s, t, x);
    StepKeepsRequests(s, t, x);
    if t.Go? && s.q.lanes[t.e].queue[0] == x {
      LostHead(s, t.e);
    }
  }

  lemma {:induction false} LostStep(s: Sys, t: Step, x: nat)
    requires SysInv(s) && CodesOk(s.q) && Enabled(s, t) && Calm(s, t) && Lost(s, x)
    ensures Lost(Apply(s, t), x)
    decreases x
  {
    QueuesAre(s, t);
    if !Doomed(s, x) {
      StepDone(s, t, x);
    } else {
      DoomedMoves(s, t, x);
      if BannedContext(s, x) {
        if Waiting(Apply(s, t).q, x) { BannedStep(s, t, x); }
      } else {
        var f, p := DoomedBy(s, x);
        LostStep(s, t, p);
        if Waiting(Apply(s, t).q, x) { StillDoomed(Apply(s, t), x, f, p); }
      }
    }
  }

  lemma DoomedBy(s: Sys, x: nat) returns (f: Fence, p: nat)
    requires Doomed(s, x) && !BannedContext(s, x)
    ensures f in s.q.requests[x].deps && p in f && p < x && Lost(s, p)
  {
    f, p :| f in s.q.requests[x].deps && p in f && p < x && (FailedFence(s.q, p) || Doomed(s, p));
  }

  lemma StillDoomed(s: Sys, x: nat, f: Fence, p: nat)
    requires Waiting(s.q, x) && f in s.q.requests[x].deps && p in f && p < x && Lost(s, p)
    ensures Doomed(s, x)
  {
  }

  /** So it never starts. */
  lemma LostUnstarted(s: Sys, t: Step, x: nat)
    requires Sound(s) && CodesOk(s.q) && Enabled(s, t) && Lost(s, x) && !WasStarted(s.q, x)
    ensures !WasStarted(QueuesAfter(s, t), x)
  {
    match t
    case Go(e) => if s.q.lanes[e].queue[0] == x { LostHead(s, e); }
    case _ =>
  }

  lemma {:induction false} AlikeDoomed(a: Sys, b: Sys, x: nat)
    requires Alike(a, b)
    ensures Doomed(a, x) <==> Doomed(b, x)
    decreases x
  {
    AlikeParts(a, b);
    forall p: nat | p < x
      ensures Doomed(a, p) <==> Doomed(b, p)
    {
      AlikeDoomed(a, b, p);
    }
  }

  lemma AlikeLost(a: Sys, b: Sys, x: nat)
    requires Alike(a, b)
    ensures Lost(a, x) <==> Lost(b, x)
  {
    AlikeParts(a, b);
    AlikeDoomed(a, b, x);
  }

  lemma StaysLost(s: Sys, t: Step, x: nat)
    requires Lasting(s) && CodesOk(s.q) && Enabled(s, t) && Lost(s, x)
    ensures Lost(Apply(s, t), x)
  {
    BareAlike(s);
    AlikeLost(s, Bare(s), x);
    AlikeStep(s, Bare(s), t);
    BareCalm(s, t);
    LostStep(Bare(s), t, x);
    AlikeLost(Apply(s, t), Apply(Bare(s), t), x);
  }

  lemma {:induction false} LostRun(s: Sys, steps: seq<Step>, s': Sys, x: nat)
    requires Lasting(s) && CodesOk(s.q) && Run(s, steps, s') && Lost(s, x) && !WasStarted(s.q, x)
    ensures !WasStarted(s'.q, x)
    decreases |steps|
  {
    if steps != [] {
      StepLasts(s, steps[0]);
      StepCodes(s, steps[0]);
      StaysLost(s, steps[0], x);
      LastsSound(s);
      LostUnstarted(s, steps[0], x);
      QueuesAre(s, steps[0]);
      LostRun(Apply(s, steps[0]), steps[1..], s', x);
    }
  }

  // ------------------------------------------------------------------------
  // The theorem
  // ------------------------------------------------------------------------

  ghost predicate Overtakes(s: Sys, n: nat, a: nat, steps: seq<Step>, s': Sys) {
    Run(s, steps, s') && s'.q.Live(a) && WasStarted(s'.q, n)
  }

  /** A request that is not ordered after `a` is gone before it, and has been started unless it was doomed. */
  lemma PassBy(s: Sys, p: Submission, a: nat) returns (steps: seq<Step>, s': Sys)
    requires Core(s) && CanSubmit(s, p) && s.q.Live(a) && a in s.q.requests && s.q.requests[a].engine == 1 - p.engine
    requires !Orders(s.q, RequestOf(s, p), a)
    ensures QuietRun(Submitted(s, p), steps, s') && Core(s') && !s'.q.claimed && s'.q.Live(a)
    ensures Aside(Unclaimed(Submitted(s, p)), s') && Ahead(s'.q, a) == {} && s'.q.lanes[p.engine] == Lane(None, [])
    ensures Doomed(Submitted(s, p), |s.q.status|) || WasStarted(s'.q, |s.q.status|)
  {
    var n, s1, r := |s.q.status|, Submitted(s, p), RequestOf(s, p);
    StepCore(s, Submit(p));
    SubmitDeps(s, p);
    EnqueueInv(s.q, r);
    NotBlocking(s.q, r, a);
    UnclaimedSame(s1);
    UnclaimedDooms(s1, n);
    NewWaits(s.q, r);
    steps, s' := RunPast(s1, a);
    EmptyBeside(s'.q, a);
    EmptyIsGone(s'.q, p.engine, n);
  }

  lemma EmptyIsGone(q: Queues, e: nat, n: nat)
    requires QueueInv(q) && e < 2 && q.lanes[e] == Lane(None, []) && n in q.requests && q.requests[n].engine == e
    ensures !q.Live(n)
  {
    if q.Live(n) {
      LiveInOneLane(q, n);
    }
  }

  lemma AlikeOrders(a: Sys, b: Sys, r: Request, x: nat)
    requires Alike(a, b) && |a.q.lanes| == 2 && r.engine < 2 && x in a.q.requests && a.q.requests[x].engine < 2
    ensures |b.q.lanes| == 2 && x in b.q.requests && b.q.requests[x].engine < 2
    ensures Orders(a.q, r, x) <==> Orders(b.q, r, x)
  {
    AlikeParts(a, b);
    var e := a.q.requests[x].engine;
    assert forall f {:trigger Covers(a.q, f, e, x)} {:trigger Covers(b.q, f, e, x)} :: Covers(a.q, f, e, x) <==> Covers(b.q, f, e, x);
  }

  lemma CanOvertake(s: Sys, p: Submission, a: nat) returns (steps: seq<Step>, s': Sys)
    requires Lasting(s) && CanSubmit(s, p) && s.q.Live(a) && a in s.q.requests && s.q.requests[a].engine == 1 - p.engine
    requires !Orders(s.q, RequestOf(s, p), a) && !Doomed(Submitted(s, p), |s.q.status|)
    ensures Overtakes(Submitted(s, p), |s.q.status|, a, steps, s')
  {
    var b := Bare(s);
    BareAlike(s);
    AlikeStep(s, b, Submit(p));
    AlikeOrders(s, b, RequestOf(s, p), a);
    AlikeDoomed(Submitted(s, p), Submitted(b, p), |s.q.status|);
    var b';
    steps, b' := PassBy(b, p, a);
    QuietIsCalm(Submitted(b, p), steps, b', true);
    CalmIsRun(Submitted(b, p), steps, b');
    s' := AlikeRun(Submitted(b, p), steps, b', Submitted(s, p));
    AlikeParts(b', s');
  }

  lemma NewUnstarted(s: Sys, p: Submission)
    requires Sound(s) && LogOk(s.q) && CanSubmit(s, p)
    ensures Submitted(s, p).q.Live(|s.q.status|) && !WasStarted(Submitted(s, p).q, |s.q.status|)
  {
    SubmitDeps(s, p);
    EnqueueInv(s.q, RequestOf(s, p));
    NotYetLive(s.q);
  }

  lemma CannotOvertake(s: Sys, p: Submission, a: nat, steps: seq<Step>, s': Sys)
    requires Lasting(s) && LogOk(s.q) && CodesOk(s.q) && CanSubmit(s, p)
    requires s.q.Live(a) && a in s.q.requests && s.q.requests[a].engine == 1 - p.engine
    requires Orders(s.q, RequestOf(s, p), a) || Doomed(Submitted(s, p), |s.q.status|)
    ensures !Overtakes(Submitted(s, p), |s.q.status|, a, steps, s')
  {
    var n, s1 := |s.q.status|, Submitted(s, p);
    LastsSound(s);
    StepLasts(s, Submit(p));
    NewUnstarted(s, p);
    if Run(s1, steps, s') {
      if Orders(s.q, RequestOf(s, p), a) {
        OrderedIsHeld(s.q, RequestOf(s, p), a);
        LastsSound(s1);
        HeldRun(s1, steps, s', a, n);
      } else {
        StepCodes(s, Submit(p));
        LostRun(s1, steps, s', n);
      }
    }
  }

  lemma {:induction false} RunHistory(s: Sys, steps: seq<Step>, s': Sys)
    requires Lasting(s) && LogOk(s.q) && CodesOk(s.q) && Run(s, steps, s')
    ensures Lasting(s') && LogOk(s'.q) && CodesOk(s'.q)
    decreases |steps|
  {
    if steps != [] {
      StepLasts(s, steps[0]);
      StepCodes(s, steps[0]);
      LastsSound(s);
      StepLog(s, steps[0]);
      RunHistory(Apply(s, steps[0]), steps[1..], s');
    }
  }

  /** In every state a run reaches: a new request can be started, by some continuation, while an unretired one of the
      other engine is still there, if and only if nothing it waits for, or that waits ahead of it, comes after that
      one, and it is not bound to fail without running. */
  lemma StartsEarly(before: seq<Step>, s: Sys, p: Submission, a: nat)
    requires Run(INIT, before, s) && CanSubmit(s, p)
    requires s.q.Live(a) && a in s.q.requests && s.q.requests[a].engine == 1 - p.engine
    ensures (exists steps, s' :: Overtakes(Submitted(s, p), |s.q.status|, a, steps, s'))
            <==> !Orders(s.q, RequestOf(s, p), a) && !Doomed(Submitted(s, p), |s.q.status|)
  {
    InitLasts();
    EmptyInv();
    RunHistory(INIT, before, s);
    if !Orders(s.q, RequestOf(s, p), a) && !Doomed(Submitted(s, p), |s.q.status|) {
      var steps, s' := CanOvertake(s, p, a);
    } else {
      forall steps, s'
        ensures !Overtakes(Submitted(s, p), |s.q.status|, a, steps, s')
      {
        CannotOvertake(s, p, a, steps, s');
      }
    }
  }

  ghost predicate CanPass(s: Sys, p: Submission, a: nat)
    requires CanSubmit(s, p)
  {
    exists steps, s' :: Overtakes(Submitted(s, p), |s.q.status|, a, steps, s')
  }

  /** So a submission that can run is safe if and only if no continuation starts it before a conflicting request of
      the other engine has retired. */
  lemma SafeIsExact(before: seq<Step>, s: Sys, p: Submission)
    requires Run(INIT, before, s) && CanSubmit(s, p) && !Doomed(Submitted(s, p), |s.q.status|)
    ensures SafeSubmit(s.q, RequestOf(s, p)) <==>
            forall a | s.q.Live(a) && a in s.q.requests && s.q.requests[a].engine == 1 - p.engine
                       && Conflict(s.q.requests[a], RequestOf(s, p)) :: !CanPass(s, p, a)
  {
    forall a | s.q.Live(a) && a in s.q.requests && s.q.requests[a].engine == 1 - p.engine
      ensures CanPass(s, p, a) <==> !Orders(s.q, RequestOf(s, p), a)
    {
      StartsEarly(before, s, p, a);
    }
  }
}
