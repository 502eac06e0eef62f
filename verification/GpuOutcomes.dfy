/**
 How requests end, over whole runs: with success exactly when they were started and did not hang, and a request is
 started only after everything it waits for ended with success.
 */
module GpuOutcomes {
  import opened RequestQueue
  import opened Lifetimes
  import opened GpuSystem
  import opened GpuSafety
  import opened GpuRuns
  import opened GpuEarlyStart

  /** Who hangs in a step. */
  ghost function HungIn(s: Sys, t: Step): set<nat>
    requires Enabled(s, t)
  {
    if t.Leave? && t.hung then {Leaving(s.q, t.e)} else {}
  }

  /** Who hangs in a run. */
  ghost function Hung(s: Sys, steps: seq<Step>): set<nat>
    decreases |steps|
  {
    if steps == [] || !Enabled(s, steps[0]) then {}
    else HungIn(s, steps[0]) + Hung(Apply(s, steps[0]), steps[1..])
  }

  /** What is on an engine was started, what waits was not. */
  ghost predicate StartsOk(q: Queues) {
    && |q.lanes| == 2
    && (forall e | 0 <= e < 2 :: q.lanes[e].active.Some? ==> WasStarted(q, q.lanes[e].active.value))
    && (forall e, x | 0 <= e < 2 && x in q.lanes[e].queue :: !WasStarted(q, x))
  }

  /** A request that is over: 0 if it was started and did not hang, otherwise an error. */
  ghost predicate EndOk(q: Queues, hung: set<nat>, x: nat) {
    x < |q.status| && q.status[x].Done? ==>
      if WasStarted(q, x) then q.status[x].code == (if x in hung then -5 else 0) else q.status[x].code < 0 && x !in hung
  }

  /** A request that was started: everything it waits for ended with success. */
  ghost predicate StartOk(q: Queues, x: nat) {
    x in q.requests && WasStarted(q, x) ==>
      forall f, p {:trigger p in f, f in q.requests[x].deps} :: f in q.requests[x].deps && p in f ==> p < |q.status| && q.status[p] == Done(0)
  }

  ghost predicate History(q: Queues, hung: set<nat>) {
    && StartsOk(q)
    && (forall x {:trigger EndOk(q, hung, x)} :: x in q.requests ==> EndOk(q, hung, x))
    && (forall x {:trigger StartOk(q, x)} :: StartOk(q, x))
    && (forall x | x in hung :: x in q.requests && x < |q.status| && q.status[x].Done?)
  }

  // ------------------------------------------------------------------------
  // What every step keeps
  // ------------------------------------------------------------------------

  /** Nothing that is over changes, nothing is started or hangs, and whoever waits waited or is new. */
  ghost predicate Calmly(q: Queues, q': Queues)
    requires |q.lanes| == 2
  {
    && |q'.lanes| == 2 && |q.status| <= |q'.status| && q'.status[..|q.status|] == q.status
    && (forall x :: WasStarted(q', x) <==> WasStarted(q, x))
    && (forall e | 0 <= e < 2 :: q'.lanes[e].active == q.lanes[e].active)
    && (forall e, x | 0 <= e < 2 && x in q'.lanes[e].queue :: x in q.lanes[e].queue || !WasStarted(q, x))
    && (forall x :: x in q'.requests ==> if x in q.requests then q'.requests[x] == q.requests[x]
                                         else x >= |q.status| && !WasStarted(q, x) && x < |q'.status| && q'.status[x] == Pending)
    && (forall x :: x in q.requests ==> x in q'.requests && x < |q.status|)
  }

  lemma CalmHistory(q: Queues, q': Queues, hung: set<nat>)
    requires |q.lanes| == 2 && History(q, hung) && Calmly(q, q')
    ensures History(q', hung)
  {
    forall x | x in q'.requests
      ensures EndOk(q', hung, x)
    {
      if x in q.requests {
        assert EndOk(q, hung, x);
        assert q'.status[..|q.status|][x] == q.status[x];
      }
    }
    forall x
      ensures StartOk(q', x)
    {
      assert StartOk(q, x);
      if x in q'.requests && WasStarted(q', x) {
        forall f, p | f in q'.requests[x].deps && p in f
          ensures p < |q'.status| && q'.status[p] == Done(0)
        {
          assert f in q.requests[x].deps;
          assert q'.status[..|q.status|][p] == q.status[p];
        }
      }
    }
    forall x | x in hung
      ensures x in q'.requests && x < |q'.status| && q'.status[x].Done?
    {
      assert q'.status[..|q.status|][x] == q.status[x];
    }
  }

  lemma KnownIds(q: Queues)
    requires QueueInv(q) && LogOk(q)
    ensures forall x :: x in q.requests ==> x < |q.status|
    ensures !WasStarted(q, |q.status|) && |q.status| !in q.requests
  {
    NotYetLive(q);
  }

  lemma QueuedCalmly(q: Queues, r: Request)
    requires QueueInv(q) && LogOk(q) && r.engine < 2
    ensures Calmly(q, Enqueue(q, r))
  {
    KnownIds(q);
  }

  lemma RefusedCalmly(q: Queues, code: int)
    requires QueueInv(q) && LogOk(q)
    ensures Calmly(q, Refuse(q, code))
  {
    KnownIds(q);
  }

  lemma ClaimedCalmly(q: Queues, on: bool)
    requires QueueInv(q) && LogOk(q)
    ensures Calmly(q, q.(claimed := on)) && Calmly(q, q)
  {
    KnownIds(q);
  }

  /** With no error among them, everything it waits for ended with success. */
  lemma NoError(q: Queues, deps: seq<Fence>, f: Fence, p: nat)
    requires CodesOk(q) && Ready(q.status, deps) && DepError(q.status, deps) == 0 && f in deps && p in f
    ensures p < |q.status| && q.status[p] == Done(0)
  {
    assert Signaled(q.status, p);
    if q.status[p].code != 0 {
      DepErrorFound(q.status, deps, f, p);
    }
  }

  lemma GoStarts(q: Queues, e: nat, hung: set<nat>)
    requires QueueInv(q) && HeadReady(q, e) && History(q, hung)
    ensures StartsOk(Dispatch(q, e))
  {
    var q', id := Dispatch(q, e), q.lanes[e].queue[0];
    assert forall x :: WasStarted(q', x) <==> WasStarted(q, x) || x == id;
    forall d, x | 0 <= d < 2 && x in q'.lanes[d].queue
      ensures !WasStarted(q', x)
    {
      HeadOnce(q, e, d, x);
    }
  }

  /** The head of a queue is nowhere else. */
  lemma HeadOnce(q: Queues, e: nat, d: nat, x: nat)
    requires QueueInv(q) && HeadReady(q, e) && d < 2 && x in Dispatch(q, e).lanes[d].queue
    ensures x != q.lanes[e].queue[0] && x in q.lanes[d].queue
  {
    var id := q.lanes[e].queue[0];
    assert q.lanes[e].Ids() == q.lanes[e].queue;
    IncreasingHead(q.lanes[e].Ids());
    if d != e {
      assert x in q.lanes[d].Ids() && id in q.lanes[e].Ids();
    }
  }

  lemma GoHistory(s: Sys, e: nat, hung: set<nat>)
    requires Sound(s) && CodesOk(s.q) && CanGo(s, e) && History(s.q, hung)
    ensures History(Dispatch(s.q, e), hung)
  {
    var q, q', id := s.q, Dispatch(s.q, e), s.q.lanes[e].queue[0];
    GoStarts(q, e, hung);
    assert q.Live(id) && !Signaled(q.status, id);
    forall x | x in q'.requests
      ensures EndOk(q', hung, x)
    {
      assert EndOk(q, hung, x);
    }
    forall x
      ensures StartOk(q', x)
    {
      assert StartOk(q, x);
      if x == id {
        forall f, p | f in q.requests[id].deps && p in f
          ensures p < |q.status| && q.status[p] == Done(0)
        {
          NoError(q, q.requests[id].deps, f, p);
        }
      }
    }
  }

  lemma LeaveStarts(q: Queues, e: nat, code: int)
    requires QueueInv(q) && CanRetire(q, e) && Leaving(q, e) < |q.status| && q.queuedCount > 0 && StartsOk(q)
    ensures StartsOk(Retire(q, e, code)) && (WasStarted(q, Leaving(q, e)) <==> q.lanes[e].active.Some?)
  {
    assert forall x :: WasStarted(Retire(q, e, code), x) <==> WasStarted(q, x);
  }

  lemma LeaveHistory(s: Sys, e: nat, code: int, hung: bool, was: set<nat>, now: set<nat>)
    requires Sound(s) && CodesOk(s.q) && CanLeave(s, e, code, hung) && History(s.q, was)
    requires now == was + if hung then {Leaving(s.q, e)} else {}
    ensures History(Retire(s.q, e, code), now)
  {
    var q, q', id := s.q, Retire(s.q, e, code), Leaving(s.q, e);
    LeaveSign(s, e, code, hung);
    LeaveStarts(q, e, code);
    LeavingLive(q, e);
    assert forall x :: WasStarted(q', x) <==> WasStarted(q, x);
    forall x | x in q'.requests
      ensures EndOk(q', now, x)
    {
      assert EndOk(q, was, x);
    }
    forall x
      ensures StartOk(q', x)
    {
      assert StartOk(q, x);
    }
  }

  lemma LeavingLive(q: Queues, e: nat)
    requires QueueInv(q) && CanRetire(q, e)
    ensures Leaving(q, e) in q.requests && Leaving(q, e) < |q.status| && !Signaled(q.status, Leaving(q, e))
  {
    assert Leaving(q, e) in q.lanes[e].Ids() && q.Live(Leaving(q, e));
  }

  lemma StepHistory(s: Sys, t: Step, hung: set<nat>, now: set<nat>)
    requires Sound(s) && LogOk(s.q) && CodesOk(s.q) && Enabled(s, t) && History(s.q, hung) && now == hung + HungIn(s, t)
    ensures History(Apply(s, t).q, now)
  {
    QueuesAre(s, t);
    if t.Leave? {
      LeaveHistory(s, t.e, t.code, t.hung, hung, now);
    } else {
      assert now == hung;
      if t.Go? {
        GoHistory(s, t.e, hung);
      } else {
        OtherHistory(s, t, hung);
      }
    }
  }

  lemma OtherHistory(s: Sys, t: Step, hung: set<nat>)
    requires Sound(s) && LogOk(s.q) && Enabled(s, t) && !t.Go? && !t.Leave? && History(s.q, hung)
    ensures History(QueuesAfter(s, t), hung)
  {
    match t {
      case Submit(p) => QueuedCalmly(s.q, RequestOf(s, p));
      case Refused(_, code) => RefusedCalmly(s.q, code);
      case Claim(on) => ClaimedCalmly(s.q, on);
      case _ => ClaimedCalmly(s.q, true);
    }
    CalmHistory(s.q, QueuesAfter(s, t), hung);
  }

  ghost predicate Told(s: Sys, hung: set<nat>) {
    Lasting(s) && LogOk(s.q) && CodesOk(s.q) && History(s.q, hung)
  }

  lemma StepTold(s: Sys, t: Step, hung: set<nat>, now: set<nat>)
    requires Told(s, hung) && Enabled(s, t) && now == hung + HungIn(s, t)
    ensures Told(Apply(s, t), now)
  {
    LastsSound(s);
    StepLasts(s, t);
    StepCodes(s, t);
    StepLog(s, t);
    StepHistory(s, t, hung, now);
  }

  lemma HungNext(s: Sys, steps: seq<Step>, hung: set<nat>) returns (now: set<nat>)
    requires steps != [] && Enabled(s, steps[0])
    ensures now == hung + HungIn(s, steps[0]) && hung + Hung(s, steps) == now + Hung(Apply(s, steps[0]), steps[1..])
  {
    now := hung + HungIn(s, steps[0]);
  }

  lemma {:induction false} RunTold(s: Sys, steps: seq<Step>, s': Sys, hung: set<nat>, all: set<nat>)
    requires Told(s, hung) && Run(s, steps, s') && all == hung + Hung(s, steps)
    ensures Told(s', all)
    decreases |steps|
  {
    if steps == [] {
      assert all == hung;
    } else {
      var now := HungNext(s, steps, hung);
      StepTold(s, steps[0], hung, now);
      RunTold(Apply(s, steps[0]), steps[1..], s', now, all);
    }
  }

  lemma InitTold()
    ensures Told(INIT, {})
  {
    InitLasts();
    EmptyInv();
  }

  lemma ReachedTold(steps: seq<Step>, s: Sys)
    requires Run(INIT, steps, s)
    ensures Told(s, Hung(INIT, steps))
  {
    InitTold();
    RunTold(INIT, steps, s, {}, Hung(INIT, steps));
  }

  // ------------------------------------------------------------------------
  // The theorems
  // ------------------------------------------------------------------------

  /** In any run: a request that is over ended with 0 if it was started and did not hang, with -EIO if it hung, and with
      an error if it was never started; and one that was started waited for nothing that did not end with 0. */
  lemma Outcomes(steps: seq<Step>, s: Sys, x: nat)
    requires Run(INIT, steps, s) && x in s.q.requests && x < |s.q.status|
    ensures s.q.status[x].Done? ==>
              && (s.q.status[x].code == 0 <==> WasStarted(s.q, x) && x !in Hung(INIT, steps))
              && (x in Hung(INIT, steps) ==> s.q.status[x].code == -5) && s.q.status[x].code <= 0
    ensures x in Hung(INIT, steps) ==> s.q.status[x].Done? && WasStarted(s.q, x)
    ensures WasStarted(s.q, x) ==>
              forall f, p {:trigger p in f, f in s.q.requests[x].deps} :: f in s.q.requests[x].deps && p in f ==>
                p < |s.q.status| && s.q.status[p] == Done(0)
  {
    ReachedTold(steps, s);
    assert EndOk(s.q, Hung(INIT, steps), x) && StartOk(s.q, x);
  }

  lemma {:induction false} HungMore(s: Sys, first: seq<Step>, mid: Sys, rest: seq<Step>)
    requires Run(s, first, mid)
    ensures Hung(s, first + rest) == Hung(s, first) + Hung(mid, rest)
    decreases |first|
  {
    if first == [] {
      assert first + rest == rest;
    } else {
      assert (first + rest)[0] == first[0] && (first + rest)[1..] == first[1..] + rest;
      HungMore(Apply(s, first[0]), first[1..], mid, rest);
    }
  }

  /** So after a hang the request's fence has the error for good, and no request that waits for it is ever started. */
  lemma HangSpreads(before: seq<Step>, s: Sys, e: nat, code: int, after: seq<Step>, s': Sys)
    requires Run(INIT, before, s) && Enabled(s, Leave(e, code, true)) && Run(Apply(s, Leave(e, code, true)), after, s')
    ensures var h := Leaving(s.q, e);
            && h < |s'.q.status| && s'.q.status[h] == Done(-5)
            && forall x, f :: x in s'.q.requests && f in s'.q.requests[x].deps && h in f ==> !WasStarted(s'.q, x)
  {
    var t, h := Leave(e, code, true), Leaving(s.q, e);
    var rest := [t] + after;
    assert rest[1..] == after;
    HungMore(INIT, before, s, rest);
    RunConcat(INIT, before, s, rest, s');
    ReachedTold(before + rest, s');
    assert h in Hung(s, rest);
    assert EndOk(s'.q, Hung(INIT, before + rest), h);
    forall x, f | x in s'.q.requests && f in s'.q.requests[x].deps && h in f
      ensures !WasStarted(s'.q, x)
    {
      assert StartOk(s'.q, x);
    }
  }

  /** A request is started only once everything its submission was to wait for has ended with success. */
  lemma WaitsFirst(before: seq<Step>, s: Sys, p: Submission, after: seq<Step>, s': Sys, f: Fence, x: nat)
    requires Run(INIT, before, s) && CanSubmit(s, p) && Run(Submitted(s, p), after, s')
    requires ToAwait(s, p, f) && x in f && Started(|s.q.status|) in s'.q.log
    ensures x < |s'.q.status| && s'.q.status[x] == Done(0)
  {
    var id, rest := |s.q.status|, [Submit(p)] + after;
    assert rest[1..] == after && Apply(s, Submit(p)) == Submitted(s, p);
    RunConcat(INIT, before, s, rest, s');
    ReachedTold(before + rest, s');
    AwaitsExactly(s, p);
    RunKeeps(Submitted(s, p), after, s', id);
    assert WasStarted(s'.q, id) && StartOk(s'.q, id);
  }

  /** The engines as gpu-test has them: claimed, with nothing on either. */
  ghost predicate Lent(q: Queues) {
    q.claimed && |q.lanes| == 2 && q.lanes[0].active.None? && q.lanes[1].active.None?
  }

  lemma LentStep(s: Sys, t: Step)
    requires Lent(s.q) && Enabled(s, t) && t != Claim(false)
    ensures Lent(Apply(s, t).q)
    ensures forall x :: WasStarted(Apply(s, t).q, x) ==> WasStarted(s.q, x)
  {
    QueuesAre(s, t);
  }

  lemma {:induction false} LentRun(s: Sys, steps: seq<Step>, s': Sys)
    requires Lent(s.q) && Run(s, steps, s') && Claim(false) !in steps
    ensures Lent(s'.q)
    ensures forall x :: WasStarted(s'.q, x) ==> WasStarted(s.q, x)
    decreases |steps|
  {
    if steps != [] {
      LentStep(s, steps[0]);
      LentRun(Apply(s, steps[0]), steps[1..], s');
    }
  }

  /**
   From the moment gpu-test is given the engines until it gives them back, no run puts a request on either of them,
   however many are queued meanwhile.
   */
  lemma ClaimedAlone(before: seq<Step>, s: Sys, steps: seq<Step>, s': Sys)
    requires Run(INIT, before, s) && Enabled(s, Claim(true))
    requires Run(Apply(s, Claim(true)), steps, s') && Claim(false) !in steps
    ensures |s'.q.lanes| == 2 && s'.q.lanes[0].active.None? && s'.q.lanes[1].active.None?
    ensures forall x :: Started(x) in s'.q.log ==> Started(x) in s.q.log
  {
    ReachedTold(before, s);
    LentRun(Apply(s, Claim(true)), steps, s');
    forall x | Started(x) in s'.q.log
      ensures Started(x) in s.q.log
    {
      assert WasStarted(s'.q, x);
    }
  }
}
