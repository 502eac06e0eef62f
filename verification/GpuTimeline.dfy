/** Single-timeline contexts: their requests run in the order they were submitted, across engines. */
module GpuTimeline {
  import opened RequestQueue
  import opened ImplicitFencing
  import opened Lifetimes
  import opened GpuSystem
  import opened GpuSafety
  import opened GpuRuns

  ghost predicate InStream(s: Sys, id: nat, c: nat) {
    s.q.Live(id) && id in s.q.requests && s.q.requests[id].ctx == c && c in s.contexts && s.contexts[c].single
  }

  /** Later requests of the context will come after `id`: the other engine is held up, or the context's timeline
      fence is not signaled before. */
  ghost predicate StreamCovered(s: Sys, id: nat, c: nat)
    requires c in s.contexts
  {
    Blocks(s.q, id) || Behind(s.q, s.contexts[c].timeline, id)
  }

  ghost predicate CrossPair(s: Sys, a: nat, b: nat, c: nat) {
    a < b && InStream(s, a, c) && InStream(s, b, c) && s.q.requests[a].engine != s.q.requests[b].engine
  }

  ghost predicate TimelineInv(s: Sys) {
    && (forall id, c {:trigger StreamCovered(s, id, c)} :: InStream(s, id, c) ==> StreamCovered(s, id, c))
    && (forall a, b, c {:trigger CrossPair(s, a, b, c)} :: CrossPair(s, a, b, c) ==> Held(s.q, a, b))
  }

  /** What carries over a step that neither adds requests nor touches a context with some. */
  ghost predicate StreamsKept(s: Sys, s': Sys) {
    && Carried(s.q, s'.q)
    && (forall id :: s'.q.Live(id) && id in s.q.requests && s.q.requests[id].ctx in s'.contexts ==>
          s.q.requests[id].ctx in s.contexts && SameStream(s'.contexts[s.q.requests[id].ctx], s.contexts[s.q.requests[id].ctx]))
  }

  lemma KeptTimelines(s: Sys, s': Sys)
    requires TimelineInv(s) && StreamsKept(s, s')
    ensures TimelineInv(s')
  {
    forall id, c | InStream(s', id, c)
      ensures StreamCovered(s', id, c)
    {
      assert InStream(s, id, c) && StreamCovered(s, id, c);
      if Behind(s.q, s.contexts[c].timeline, id) {
        BehindCarried(s.q, s'.q, s.contexts[c].timeline, id);
      }
    }
    forall a, b, c | CrossPair(s', a, b, c)
      ensures Held(s'.q, a, b)
    {
      assert CrossPair(s, a, b, c);
    }
  }

  lemma GoTimeline(s: Sys, e: nat)
    requires SysInv(s) && TimelineInv(s) && CanGo(s, e)
    ensures TimelineInv(s.(q := Dispatch(s.q, e)))
  {
    var s' := s.(q := Dispatch(s.q, e));
    DispatchCarries(s.q, e);
    KeptTimelines(s, s');
  }

  lemma LeaveTimeline(s: Sys, e: nat, code: int, hung: bool)
    requires SysInv(s) && TimelineInv(s) && CanLeave(s, e, code, hung) && CanLetGo(s, e)
    ensures TimelineInv(Left(s, e, code, hung))
  {
    var s' := Left(s, e, code, hung);
    LeftFrame(s, e, code, hung);
    RetireCarries(s.q, e, code);
    KeptTimelines(s, s');
  }

  /** A new request of a single-timeline context is ordered after every unretired one of it, on either engine. */
  lemma StreamOrders(s: Sys, p: Submission, a: nat)
    requires SysInv(s) && TimelineInv(s) && CanSubmit(s, p) && InStream(s, a, p.ctx)
    ensures Follows(Submitted(s, p).q, a, |s.q.status|)
  {
    var k, r := s.contexts[p.ctx], RequestOf(s, p);
    LiveInOneLane(s.q, a);
    SubmitDeps(s, p);
    assert StreamCovered(s, a, p.ctx);
    if s.q.requests[a].engine != p.engine {
      if Blocks(s.q, a) {
        BlocksOrders(s.q, r, a);
      } else {
        var x :| x in k.timeline && Follows(s.q, a, x);
        assert !Signaled(s.q.status, x);
        var explicit := p.explicit + [k.timeline];
        AddDependenciesCover(s.q.status, ImplicitDeps(s.q.status, s.slots, p.uses), explicit);
        assert k.timeline in explicit;
        OrderedByWriter(s.q, r, a, k.timeline, x);
      }
    }
    OrderedLeaves(s.q, r, a);
  }

  lemma SubmitStream(s: Sys, p: Submission, id: nat, c: nat)
    requires SysInv(s) && TimelineInv(s) && CanSubmit(s, p) && InStream(Submitted(s, p), id, c)
    ensures StreamCovered(Submitted(s, p), id, c)
  {
    var s', n := Submitted(s, p), |s.q.status|;
    SubmitDeps(s, p);
    EnqueueInv(s.q, RequestOf(s, p));
    NotYetLive(s.q);
    if c == p.ctx {
      assert s'.contexts[c].timeline == [n];
      if id != n {
        StreamOrders(s, p, id);
      }
      assert Follows(s'.q, id, n);
    } else {
      assert id != n && StreamCovered(s, id, c);
      if Blocks(s.q, id) {
        BlocksKeptByEnqueue(s.q, RequestOf(s, p), id);
      } else {
        BehindKeptByEnqueue(s.q, RequestOf(s, p), s.contexts[c].timeline, id);
      }
    }
  }

  lemma SubmitTimeline(s: Sys, p: Submission)
    requires SysInv(s) && TimelineInv(s) && CanSubmit(s, p)
    ensures TimelineInv(Submitted(s, p))
  {
    var s', n := Submitted(s, p), |s.q.status|;
    SubmitDeps(s, p);
    EnqueueInv(s.q, RequestOf(s, p));
    NotYetLive(s.q);
    forall id, c | InStream(s', id, c)
      ensures StreamCovered(s', id, c)
    {
      SubmitStream(s, p, id, c);
    }
    forall a, b, c | CrossPair(s', a, b, c)
      ensures Held(s'.q, a, b)
    {
      if b == n {
        StreamOrders(s, p, a);
      } else {
        assert CrossPair(s, a, b, c);
        HeldKeptByEnqueue(s.q, RequestOf(s, p), a, b);
      }
    }
  }

  /** Every unretired request of the context holds up the other engine. */
  ghost predicate SparesStream(s: Sys, c: nat) {
    forall id :: InStream(s, id, c) ==> Blocks(s.q, id)
  }

  /** A refused submission leaves a single timeline in order exactly then: its signaled fence is the timeline's now. */
  lemma RefusedTimeline(s: Sys, p: Submission, code: int)
    requires SysInv(s) && TimelineInv(s) && CanSubmit(s, p)
    ensures TimelineInv(RefusedSys(s, p, code)) <==> SparesStream(s, p.ctx)
  {
    var s', n := RefusedSys(s, p, code), |s.q.status|;
    NotYetLive(s.q);
    LiveIdsIsLive(s.q);
    assert forall x :: s'.q.Live(x) <==> s.q.Live(x);
    if SparesStream(s, p.ctx) {
      RefusedSpared(s, p, code);
    } else {
      var id :| InStream(s, id, p.ctx) && !Blocks(s.q, id);
      assert InStream(s', id, p.ctx);
      SameHeld(s.q, code, id, id);
      assert s'.contexts[p.ctx].timeline == [n];
      assert !StreamCovered(s', id, p.ctx);
    }
  }

  lemma RefusedSpared(s: Sys, p: Submission, code: int)
    requires SysInv(s) && TimelineInv(s) && CanSubmit(s, p) && SparesStream(s, p.ctx)
    ensures TimelineInv(RefusedSys(s, p, code))
  {
    var s' := RefusedSys(s, p, code);
    forall id, c | InStream(s', id, c)
      ensures StreamCovered(s', id, c)
    {
      assert InStream(s, id, c) && StreamCovered(s, id, c);
      SameHeld(s.q, code, id, id);
      SameBehind(s.q, code, s.contexts[c].timeline, id);
    }
    forall a, b, c | CrossPair(s', a, b, c)
      ensures Held(s'.q, a, b)
    {
      assert CrossPair(s, a, b, c);
      SameHeld(s.q, code, a, b);
    }
  }

  ghost predicate StreamStep(s: Sys, t: Step)
    requires Enabled(s, t)
  {
    t.Refused? ==> SparesStream(s, t.p.ctx)
  }

  ghost predicate StreamRun(s: Sys, steps: seq<Step>, s': Sys)
    decreases |steps|
  {
    if steps == [] then s' == s
    else Enabled(s, steps[0]) && StreamStep(s, steps[0]) && StreamRun(Apply(s, steps[0]), steps[1..], s')
  }

  /** Files, contexts and address spaces come and go without touching a context's timeline. */
  lemma LifeTimeline(s: Sys, l: LifeStep)
    requires SysInv(s) && TimelineInv(s) && LifeEnabled(s, l)
    ensures TimelineInv(LifeApply(s, l))
  {
    var s' := LifeApply(s, l);
    LifeFrame(s, l);
    forall id | s'.q.Live(id) && id in s.q.requests && s.q.requests[id].ctx in s'.contexts
      ensures s.q.requests[id].ctx in s.contexts
      ensures SameStream(s'.contexts[s.q.requests[id].ctx], s.contexts[s.q.requests[id].ctx])
    {
      assert id in s.q.LiveIds();
      assert RequestOk(s.contexts, s.q.requests, id);
      assert AContext(s.q.requests[id].ctx) in s.born;
      LifeStreams(s, l, s.q.requests[id].ctx);
    }
    KeptTimelines(s, s');
  }

  lemma LifeStreams(s: Sys, l: LifeStep, c: nat)
    requires LifeEnabled(s, l) && c in s.contexts && c in LifeApply(s, l).contexts
    requires c < s.made
    ensures SameStream(LifeApply(s, l).contexts[c], s.contexts[c])
  {
  }

  lemma StepTimeline(s: Sys, t: Step)
    requires SysInv(s) && TimelineInv(s) && Enabled(s, t) && StreamStep(s, t)
    ensures TimelineInv(Apply(s, t))
  {
    match t
    case Submit(p) => SubmitTimeline(s, p);
    case Refused(p, code) => RefusedTimeline(s, p, code);
    case Go(e) => GoTimeline(s, e);
    case Leave(e, code, hung) => LeaveTimeline(s, e, code, hung);
    case Life(l) => LifeTimeline(s, l);
    case Claim(on) => ClaimTimeline(s, on);
    case _ => QuietTimeline(s, t);
  }

  /** Steps that concern neither queues nor contexts. */
  lemma QuietTimeline(s: Sys, t: Step)
    requires SysInv(s) && TimelineInv(s) && Enabled(s, t) && (t.Aborted? || t.Unbind? || t.Import? || t.NewObject?)
    ensures TimelineInv(Apply(s, t))
  {
    KeptTimelines(s, Apply(s, t));
  }

  lemma ClaimTimeline(s: Sys, on: bool)
    requires TimelineInv(s)
    ensures TimelineInv(s.(q := s.q.(claimed := on)))
  {
    ClaimCarries(s.q, on);
    KeptTimelines(s, s.(q := s.q.(claimed := on)));
  }

  // ------------------------------------------------------------------------
  // Starts
  // ------------------------------------------------------------------------

  /** A later request `b` of the stream of the unretired `a` has been started. */
  ghost predicate OutOfTurn(s: Sys, a: nat, b: nat, c: nat) {
    InStream(s, a, c) && b in s.q.requests && s.q.requests[b].ctx == c && a < b && WasStarted(s.q, b)
  }

  ghost predicate InTurn(s: Sys) {
    forall a, b, c :: !OutOfTurn(s, a, b, c)
  }

  /** Streams do not gain requests but by submission. */
  lemma StepStreams(s: Sys, t: Step, a: nat, c: nat)
    requires SysInv(s) && Enabled(s, t) && InStream(Apply(s, t), a, c)
    ensures InStream(s, a, c) || (t.Submit? && a == |s.q.status|)
  {
    match t
    case Submit(p) => SubmitStreams(s, p, a, c);
    case Go(e) => DispatchInv(s.q, e);
    case Leave(e, code, hung) =>
      LeftFrame(s, e, code, hung);
      RetireInv(s.q, e, code);
    case Life(l) => LifeStreamsBack(s, l, a, c);
    case _ =>
  }

  lemma SubmitStreams(s: Sys, p: Submission, a: nat, c: nat)
    requires Sound(s) && CanSubmit(s, p) && InStream(Submitted(s, p), a, c)
    ensures InStream(s, a, c) || a == |s.q.status|
  {
    SubmitDeps(s, p);
    EnqueueInv(s.q, RequestOf(s, p));
  }

  lemma LifeStreamsBack(s: Sys, l: LifeStep, a: nat, c: nat)
    requires SysInv(s) && LifeEnabled(s, l) && InStream(LifeApply(s, l), a, c)
    ensures InStream(s, a, c)
  {
    LifeFrame(s, l);
    assert a in s.q.LiveIds();
    assert RequestOk(s.contexts, s.q.requests, a);
    assert AContext(c) in s.born;
    LifeStreams(s, l, c);
  }

  lemma StartedBy(s: Sys, t: Step, b: nat)
    requires Sound(s) && Enabled(s, t) && WasStarted(QueuesAfter(s, t), b)
    ensures WasStarted(s.q, b) || (t.Go? && s.q.lanes[t.e].queue[0] == b)
  {
  }

  lemma SubmitKnown(s: Sys, t: Step, b: nat)
    requires Sound(s) && LogOk(s.q) && Enabled(s, t) && b in QueuesAfter(s, t).requests
    ensures b in s.q.requests ==> QueuesAfter(s, t).requests[b] == s.q.requests[b]
    ensures b !in s.q.requests ==> t.Submit? && b == |s.q.status| && !WasStarted(s.q, b)
  {
    NotYetLive(s.q);
  }

  lemma StepTurn(s: Sys, t: Step, a: nat, b: nat, c: nat)
    requires SysInv(s) && TimelineInv(s) && LogOk(s.q) && InTurn(s) && Enabled(s, t)
    ensures !OutOfTurn(Apply(s, t), a, b, c)
  {
    var s' := Apply(s, t);
    if OutOfTurn(s', a, b, c) {
      QueuesAre(s, t);
      StepStreams(s, t, a, c);
      SubmitKnown(s, t, b);
      assert !OutOfTurn(s, a, b, c);
      StartedBy(s, t, b);
      if t.Go? {
        StreamHeadAlone(s, t.e, a);
      }
    }
  }

  // ------------------------------------------------------------------------
  // Any run
  // ------------------------------------------------------------------------

  lemma AlikeStreams(a: Sys, b: Sys)
    requires Alike(a, b) && TimelineInv(a)
    ensures TimelineInv(b)
  {
    AlikeParts(a, b);
    AlikeHeld(a, b);
    forall id, c | InStream(b, id, c)
      ensures StreamCovered(b, id, c)
    {
      assert InStream(a, id, c) && StreamCovered(a, id, c);
      AlikeBehind(a, b, a.contexts[c].timeline, id);
    }
    forall x, y, c | CrossPair(b, x, y, c)
      ensures Held(b.q, x, y)
    {
      assert CrossPair(a, x, y, c);
    }
  }

  lemma AlikeTurns(a: Sys, b: Sys)
    requires Alike(a, b)
    ensures InTurn(a) <==> InTurn(b)
    ensures LogOk(a.q) <==> LogOk(b.q)
    ensures forall c {:trigger SparesStream(b, c)} :: SparesStream(a, c) <==> SparesStream(b, c)
  {
    AlikeParts(a, b);
    AlikeHeld(a, b);
    assert forall x, c {:trigger InStream(a, x, c)} {:trigger InStream(b, x, c)} :: InStream(a, x, c) <==> InStream(b, x, c);
    assert forall x, y, c {:trigger OutOfTurn(a, x, y, c)} {:trigger OutOfTurn(b, x, y, c)} :: OutOfTurn(a, x, y, c) <==> OutOfTurn(b, x, y, c);
  }

  /** All of it holds of a state as of the same with no objects listed. */
  ghost predicate StreamInv(s: Sys) {
    Lasting(s) && TimelineInv(s) && LogOk(s.q) && InTurn(s)
  }

  lemma BareStreamStep(s: Sys, t: Step)
    requires SysInv(s) && TimelineInv(s) && LogOk(s.q) && InTurn(s) && Enabled(s, t) && StreamStep(s, t)
    ensures TimelineInv(Apply(s, t)) && LogOk(Apply(s, t).q) && InTurn(Apply(s, t))
  {
    StepTimeline(s, t);
    StepLog(s, t);
    forall a, b, c
      ensures !OutOfTurn(Apply(s, t), a, b, c)
    {
      StepTurn(s, t, a, b, c);
    }
  }

  lemma StepStreamInv(s: Sys, t: Step)
    requires StreamInv(s) && Enabled(s, t) && StreamStep(s, t)
    ensures StreamInv(Apply(s, t))
  {
    var b := Bare(s);
    BareAlike(s);
    AlikeStreams(s, b);
    AlikeTurns(s, b);
    AlikeStep(s, b, t);
    BareStreamStep(b, t);
    AlikeStreams(Apply(b, t), Apply(s, t));
    AlikeTurns(Apply(b, t), Apply(s, t));
    StepLasts(s, t);
  }

  lemma {:induction false} RunTimeline(s: Sys, steps: seq<Step>, s': Sys)
    requires StreamInv(s) && StreamRun(s, steps, s')
    ensures StreamInv(s')
    decreases |steps|
  {
    if steps != [] {
      StepStreamInv(s, steps[0]);
      RunTimeline(Apply(s, steps[0]), steps[1..], s');
    }
  }

  lemma ReachedStreams(steps: seq<Step>, s: Sys)
    requires StreamRun(INIT, steps, s)
    ensures StreamInv(s)
  {
    InitLasts();
    EmptyInv();
    RunTimeline(INIT, steps, s);
  }

  /** In every state a run reaches, no request of a single-timeline context has been put on its engine while an
      earlier one of that context is unretired, whichever engine that one is on. */
  lemma TimelineStarts(steps: seq<Step>, s: Sys, a: nat, b: nat, c: nat)
    requires StreamRun(INIT, steps, s)
    ensures !OutOfTurn(s, a, b, c)
  {
    ReachedStreams(steps, s);
  }

  /** Nor can one be. */
  lemma TimelineSerialized(steps: seq<Step>, s: Sys, e: nat, a: nat)
    requires StreamRun(INIT, steps, s) && HeadReady(s.q, e)
    requires InStream(s, s.q.lanes[e].queue[0], s.q.requests[s.q.lanes[e].queue[0]].ctx)
    requires a in s.q.requests && a < s.q.lanes[e].queue[0]
    requires s.q.requests[a].ctx == s.q.requests[s.q.lanes[e].queue[0]].ctx
    ensures !s.q.Live(a)
  {
    ReachedStreams(steps, s);
    LastsSound(s);
    StreamHeadAlone(s, e, a);
  }

  lemma StreamHeadAlone(s: Sys, e: nat, a: nat)
    requires QueueInv(s.q) && TimelineInv(s) && HeadReady(s.q, e)
    requires InStream(s, s.q.lanes[e].queue[0], s.q.requests[s.q.lanes[e].queue[0]].ctx)
    requires a in s.q.requests && a < s.q.lanes[e].queue[0]
    requires s.q.requests[a].ctx == s.q.requests[s.q.lanes[e].queue[0]].ctx
    ensures !s.q.Live(a)
  {
    var b := s.q.lanes[e].queue[0];
    HeadNotHeld(s.q, e, a);
    assert s.q.lanes[e].Ids() == s.q.lanes[e].queue;
    IncreasingHead(s.q.lanes[e].Ids());
    assert !CrossPair(s, a, b, s.q.requests[b].ctx);
    if s.q.Live(a) {
      LiveInOneLane(s.q, a);
    }
  }
}
