/** Runs that keep conflicting requests, and the requests of one timeline, in order. */
module GpuOrder {
  import opened RequestQueue
  import opened ImplicitFencing
  import opened Lifetimes
  import opened GpuSystem
  import opened GpuSafety
  import opened GpuRuns

  /** Submissions without `EXEC_OBJECT_ASYNC`, or whose other dependencies order them anyway; and
      no refused one whose signaled fence lets later requests past an unretired one. */
  ghost predicate OrderedStep(s: Sys, t: Step)
    requires Enabled(s, t)
  {
    match t
    case Submit(p) => NoAsync(p.uses) || SafeSubmit(s.q, RequestOf(s, p))
    case Refused(p, code) => SparesOrder(s.q, s.slots, p.engine, p.uses)
    case _ => true
  }

  ghost predicate OrderedRun(s: Sys, steps: seq<Step>, s': Sys)
    decreases |steps|
  {
    if steps == [] then s' == s
    else Enabled(s, steps[0]) && OrderedStep(s, steps[0]) && OrderedRun(Apply(s, steps[0]), steps[1..], s')
  }

  lemma NewObjectFencing(q: Queues, t: Table, o: nat)
    requires FencingInv(q, t) && o !in t
    ensures FencingInv(q, t[o := NO_FENCES])
  {
  }

  lemma ClaimFencing(q: Queues, t: Table, claimed: bool)
    requires FencingInv(q, t)
    ensures FencingInv(q.(claimed := claimed), t)
  {
    ClaimCarries(q, claimed);
    LinedCarried(q, q.(claimed := claimed), t);
  }

  lemma SubmitOrdered(s: Sys, p: Submission)
    requires Sound(s) && FencingInv(s.q, s.slots) && CanSubmit(s, p)
    requires NoAsync(p.uses) || SafeSubmit(s.q, RequestOf(s, p))
    ensures FencingInv(Submitted(s, p).q, Submitted(s, p).slots)
  {
    SubmitDeps(s, p);
    SubmitHeeds(s, p);
    WantsFit(s, p);
    if NoAsync(p.uses) {
      NoAsyncIsSafe(s.q, s.slots, RequestOf(s, p));
    }
    SubmitFencing(s.q, s.slots, RequestOf(s, p));
  }

  /** Every ordered step keeps conflicting requests in order. */
  lemma StepFencing(s: Sys, t: Step)
    requires Sound(s) && FencingInv(s.q, s.slots) && Enabled(s, t) && OrderedStep(s, t)
    ensures FencingInv(Apply(s, t).q, Apply(s, t).slots)
  {
    match t
    case Submit(p) => SubmitOrdered(s, p);
    case Refused(p, code) =>
      WantsFit(s, p);
      RefusedFencing(s.q, s.slots, p.engine, p.uses, code);
    case Aborted(p, k) =>
    case Go(e) => DispatchFencing(s.q, s.slots, e);
    case Leave(e, code, hung) =>
      RetireFencing(s.q, s.slots, e, code);
      LeftFrame(s, e, code, hung);
    case Unbind(f, o) =>
    case Import(o, write, fence) => ImportFencing(s.q, s.slots, o, write, fence);
    case NewObject(size) => NewObjectFencing(s.q, s.slots, s.made);
    case Claim(on) => ClaimFencing(s.q, s.slots, on);
    case Life(l) => LifeFrame(s, l);
  }

  /** The `j`th event starts a request that conflicts with the earlier `a`. */
  ghost predicate StartedAgainst(q: Queues, j: nat, a: nat)
    requires j < |q.log|
  {
    && q.log[j].Started? && q.log[j].id in q.requests && a in q.requests && a < q.log[j].id
    && Conflict(q.requests[a], q.requests[q.log[j].id])
  }

  /** Whenever a request was started, every earlier one it conflicts with had retired. */
  ghost predicate Serialized(q: Queues) {
    forall j, a {:trigger HasRetired(q.log[..j], a)} :: 0 <= j < |q.log| && StartedAgainst(q, j, a) ==> HasRetired(q.log[..j], a)
  }

  lemma SerializedMore(q: Queues, q': Queues, ev: Event)
    requires Serialized(q) && q'.log == q.log + [ev]
    requires forall j :: 0 <= j < |q.log| ==> q.log[j].id in q.requests
    requires forall id :: id in q'.requests ==> id in q.requests || forall x :: x in q.requests ==> x < id
    requires forall id :: id in q.requests ==> id in q'.requests && q'.requests[id] == q.requests[id]
    requires ev.Started? && ev.id in q'.requests ==>
               forall a :: a in q'.requests && a < ev.id && Conflict(q'.requests[a], q'.requests[ev.id]) ==> HasRetired(q.log, a)
    ensures Serialized(q')
  {
    forall j, a | 0 <= j < |q'.log| && StartedAgainst(q', j, a)
      ensures HasRetired(q'.log[..j], a)
    {
      if j < |q.log| {
        assert q'.log[j] == q.log[j] && q'.log[..j] == q.log[..j];
        assert a in q.requests;
      } else {
        assert q'.log[..j] == q.log;
      }
    }
  }

  ghost predicate HistoryInv(q: Queues) {
    LogOk(q) && Serialized(q)
  }

  lemma EnqueueHistory(q: Queues, r: Request)
    requires QueueInv(q) && HistoryInv(q) && r.engine < 2
    ensures HistoryInv(Enqueue(q, r))
  {
    EnqueueLog(q, r);
    SerializedMore(q, Enqueue(q, r), Accepted(|q.status|));
  }

  lemma DispatchHistory(q: Queues, t: Table, e: nat)
    requires FencingInv(q, t) && HistoryInv(q) && HeadReady(q, e)
    ensures HistoryInv(Dispatch(q, e))
  {
    DispatchLog(q, e);
    var c := q.lanes[e].queue[0];
    forall a | a in q.requests && a < c && Conflict(q.requests[a], q.requests[c])
      ensures HasRetired(q.log, a)
    {
      NoConflictAtDispatch(q, t, e, a);
    }
    SerializedMore(q, Dispatch(q, e), Started(c));
  }

  lemma RetireHistory(q: Queues, e: nat, code: int)
    requires QueueInv(q) && HistoryInv(q) && CanRetire(q, e)
    ensures Leaving(q, e) < |q.status| && q.queuedCount > 0
    ensures HistoryInv(Retire(q, e, code))
  {
    RetireLog(q, e, code);
    SerializedMore(q, Retire(q, e, code), Retired(Leaving(q, e), code));
  }

  lemma SameHistory(q: Queues, q': Queues)
    requires HistoryInv(q) && q'.log == q.log && q'.requests == q.requests && q'.lanes == q.lanes
    ensures HistoryInv(q')
  {
  }

  lemma StepHistory(s: Sys, t: Step)
    requires Sound(s) && FencingInv(s.q, s.slots) && HistoryInv(s.q) && Enabled(s, t)
    ensures HistoryInv(Apply(s, t).q)
  {
    match t
    case Submit(p) => EnqueueHistory(s.q, RequestOf(s, p));
    case Go(e) => DispatchHistory(s.q, s.slots, e);
    case Leave(e, code, hung) =>
      RetireHistory(s.q, e, code);
      LeftFrame(s, e, code, hung);
    case Life(l) => LifeFrame(s, l);
    case _ => SameHistory(s.q, Apply(s, t).q);
  }

  ghost predicate OrderInv(s: Sys) {
    Sound(s) && FencingInv(s.q, s.slots) && HistoryInv(s.q)
  }

  lemma StepOrder(s: Sys, t: Step)
    requires OrderInv(s) && Enabled(s, t) && OrderedStep(s, t)
    ensures OrderInv(Apply(s, t))
  {
    StepSound(s, t);
    StepFencing(s, t);
    StepHistory(s, t);
  }

  lemma {:induction false} RunOrder(s: Sys, steps: seq<Step>, s': Sys)
    requires OrderInv(s) && OrderedRun(s, steps, s')
    ensures OrderInv(s')
    decreases |steps|
  {
    if steps != [] {
      StepOrder(s, steps[0]);
      RunOrder(Apply(s, steps[0]), steps[1..], s');
    }
  }

  /** Implicit fencing serializes conflicts: in every ordered run from the start, a request starts
      only after every earlier request it conflicts with has retired, on either engine. */
  lemma ConflictsSerialized(steps: seq<Step>, s': Sys)
    requires OrderedRun(INIT, steps, s')
    ensures Serialized(s'.q)
  {
    InitInv();
    EmptyInv();
    RunOrder(INIT, steps, s');
  }
}
