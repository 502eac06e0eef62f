/**
 What ends for good, over whole runs: which contexts are banned (`context_mark_guilty`) and what a ban stops, and what
 closing a file stops.
 */
module GpuBans {
  import opened RequestQueue
  import opened Lifetimes
  import opened GpuSystem
  import opened GpuSafety
  import opened GpuRuns

  /** A request of the context hangs in this step. */
  ghost predicate HangsFor(s: Sys, t: Step, c: nat)
    requires Enabled(s, t)
  {
    t.Leave? && t.hung && s.q.requests[Leaving(s.q, t.e)].ctx == c
  }

  /**
   One of its requests hangs while the context was last told not to recover and that it may be banned. `recoverable`
   and `bannable` are what it was told before these steps.
   */
  ghost predicate Guilty(s: Sys, steps: seq<Step>, c: nat, recoverable: bool, bannable: bool)
    decreases |steps|
  {
    steps != [] && Enabled(s, steps[0]) &&
    var t, s1 := steps[0], Apply(s, steps[0]);
    if t.Life? && t.l.Tune? && t.l.ctx == c then Guilty(s1, steps[1..], c, t.l.recoverable, t.l.bannable)
    else (HangsFor(s, t, c) && !recoverable && bannable) || Guilty(s1, steps[1..], c, recoverable, bannable)
  }

  /** Contexts are named in order. */
  ghost predicate Numbered(s: Sys) {
    forall c :: c in s.contexts ==> c < s.made
  }

  ghost predicate SameFlags(a: Context, b: Context) {
    a.file == b.file && a.recoverable == b.recoverable && a.bannable == b.bannable && a.banned == b.banned
  }

  /** What becomes of a context in one step: it is told something, banned, or left as it is; it is new; or it is gone. */
  ghost predicate ContextAfter(s: Sys, t: Step, s': Sys, c: nat)
    requires Enabled(s, t)
  {
    && s.made <= s'.made
    && (c !in s.contexts && c < s.made ==> c !in s'.contexts)
    && (c in s'.contexts && c !in s.contexts ==>
          && s'.contexts[c].recoverable && s'.contexts[c].bannable && !s'.contexts[c].banned)
    && (c in s'.contexts && c in s.contexts ==>
          && (if t.Life? && t.l.Tune? && t.l.ctx == c then
                s'.contexts[c].recoverable == t.l.recoverable && s'.contexts[c].bannable == t.l.bannable
              else
                s'.contexts[c].recoverable == s.contexts[c].recoverable && s'.contexts[c].bannable == s.contexts[c].bannable)
          && (s'.contexts[c].banned <==>
                s.contexts[c].banned || (HangsFor(s, t, c) && !s.contexts[c].recoverable && s.contexts[c].bannable)))
  }

  lemma StepContext(s: Sys, t: Step, c: nat)
    requires Enabled(s, t) && Numbered(s)
    ensures Numbered(Apply(s, t)) && ContextAfter(s, t, Apply(s, t), c)
  {
    match t
    case Submit(_) => SubmitContext(s, t, c);
    case Refused(_, _) => SubmitContext(s, t, c);
    case Leave(e, code, hung) => LeftContext(s, e, code, hung, c);
    case Life(l) => LifeContext(s, l, c);
    case _ =>
  }

  lemma SubmitContext(s: Sys, t: Step, c: nat)
    requires Enabled(s, t) && Numbered(s) && (t.Submit? || t.Refused?)
    ensures Numbered(Apply(s, t)) && ContextAfter(s, t, Apply(s, t), c)
  {
  }

  lemma LeftContext(s: Sys, e: nat, code: int, hung: bool, c: nat)
    requires Enabled(s, Leave(e, code, hung)) && Numbered(s)
    ensures Numbered(Left(s, e, code, hung)) && ContextAfter(s, Leave(e, code, hung), Left(s, e, code, hung), c)
  {
    var r := s.q.requests[Leaving(s.q, e)];
    LettingGo(Signal(s, e, code, hung), r.ctx, r.file);
  }

  /** Letting go of a context and a file frees, and changes no flag. */
  lemma LettingGo(s: Sys, c: nat, f: nat)
    requires c in s.contexts && s.contexts[c].pending > 0 && s.contexts[c].vm in s.vms && s.vms[s.contexts[c].vm].refs > 0
    requires f in s.files && s.files[f].inflight > 0
    ensures f in DropContext(s, c).files && DropContext(s, c).files[f].inflight > 0
    ensures var s' := DropFile(DropContext(s, c), f);
            && s'.made == s.made
            && (forall d :: d in s'.contexts ==> d in s.contexts && SameFlags(s'.contexts[d], s.contexts[d]))
            && (forall g :: g in s'.files ==> g in s.files && s'.files[g].closed == s.files[g].closed)
  {
    ContextGone(s, c);
    FileGone(DropContext(s, c), f);
  }

  lemma ContextGone(s: Sys, c: nat)
    requires c in s.contexts && s.contexts[c].pending > 0 && s.contexts[c].vm in s.vms && s.vms[s.contexts[c].vm].refs > 0
    ensures var s' := DropContext(s, c);
            && s'.made == s.made && s'.files == s.files
            && forall d :: d in s'.contexts ==> d in s.contexts && SameFlags(s'.contexts[d], s.contexts[d])
  {
  }

  lemma FileGone(s: Sys, f: nat)
    requires f in s.files && s.files[f].inflight > 0
    ensures var s' := DropFile(s, f);
            && s'.made == s.made && (forall d :: d in s'.contexts ==> d in s.contexts && s'.contexts[d] == s.contexts[d])
            && (forall g :: g in s'.files ==> g in s.files && s'.files[g].closed == s.files[g].closed)
  {
  }

  lemma LifeContext(s: Sys, l: LifeStep, c: nat)
    requires LifeEnabled(s, l) && Numbered(s)
    ensures Numbered(LifeApply(s, l)) && ContextAfter(s, Life(l), LifeApply(s, l), c)
  {
  }

  /** What is known of a context, if it is there or yet to come. */
  ghost predicate Tracks(s: Sys, c: nat, recoverable: bool, bannable: bool, banned: bool) {
    && Numbered(s)
    && (c in s.contexts ==>
          && s.contexts[c].recoverable == recoverable && s.contexts[c].bannable == bannable && s.contexts[c].banned == banned)
    && (c !in s.contexts && c >= s.made ==> recoverable && bannable && !banned)
  }

  lemma {:induction false} GoneForGood(s: Sys, steps: seq<Step>, s': Sys, c: nat)
    requires Run(s, steps, s') && Numbered(s) && c !in s.contexts && c < s.made
    ensures c !in s'.contexts
    decreases |steps|
  {
    if steps != [] {
      StepContext(s, steps[0], c);
      GoneForGood(Apply(s, steps[0]), steps[1..], s', c);
    }
  }

  lemma {:induction false} RunBans(s: Sys, steps: seq<Step>, s': Sys, c: nat, recoverable: bool, bannable: bool, banned: bool)
    requires Run(s, steps, s') && Tracks(s, c, recoverable, bannable, banned)
    ensures c in s'.contexts ==> (s'.contexts[c].banned <==> banned || Guilty(s, steps, c, recoverable, bannable))
    decreases |steps|
  {
    if steps != [] {
      var t, s1 := steps[0], Apply(s, steps[0]);
      StepContext(s, t, c);
      if c !in s1.contexts && c < s1.made {
        GoneForGood(s1, steps[1..], s', c);
      } else if t.Life? && t.l.Tune? && t.l.ctx == c {
        RunBans(s1, steps[1..], s', c, t.l.recoverable, t.l.bannable, banned);
      } else {
        RunBans(s1, steps[1..], s', c, recoverable, bannable, banned || (HangsFor(s, t, c) && !recoverable && bannable));
      }
    }
  }

  // ------------------------------------------------------------------------
  // What a ban stops
  // ------------------------------------------------------------------------

  lemma LiveContext(s: Sys, id: nat)
    requires Lasting(s) && s.q.Live(id)
    ensures id in s.q.requests && s.q.requests[id].ctx in s.contexts
  {
    assert Bare(s).q.Live(id);
    InvKeepsAlive(Bare(s), id);
  }

  /** A context that is banned, or was and is gone. */
  ghost predicate Barred(s: Sys, c: nat) {
    Lasting(s) && Numbered(s) && c < s.made && (c in s.contexts ==> s.contexts[c].banned)
  }

  /** No request of the context is accepted or started between the two. */
  ghost predicate NothingNew(q: Queues, q': Queues, c: nat) {
    forall x {:trigger x in q'.requests} :: x in q'.requests && q'.requests[x].ctx == c ==>
      x in q.requests && q.requests[x].ctx == c && (WasStarted(q', x) ==> WasStarted(q, x))
  }

  lemma BarredHead(s: Sys, e: nat, c: nat)
    requires Barred(s, c) && HeadReady(s.q, e) && s.q.requests[s.q.lanes[e].queue[0]].ctx == c
    ensures HeadBanned(s, e)
  {
    LastsSound(s);
    var m := s.q.lanes[e].queue[0];
    assert m in s.q.lanes[e].Ids() && s.q.Live(m);
    LiveContext(s, m);
  }

  lemma BarredQueues(s: Sys, t: Step, c: nat)
    requires Barred(s, c) && Enabled(s, t)
    ensures NothingNew(s.q, QueuesAfter(s, t), c)
  {
    LastsSound(s);
    if t.Go? && s.q.requests[s.q.lanes[t.e].queue[0]].ctx == c {
      BarredHead(s, t.e, c);
      assert false;
    }
  }

  lemma {:induction false} BarredRun(s: Sys, steps: seq<Step>, s': Sys, c: nat)
    requires Barred(s, c) && Run(s, steps, s')
    ensures Barred(s', c) && NothingNew(s.q, s'.q, c)
    decreases |steps|
  {
    if steps != [] {
      var s1 := Apply(s, steps[0]);
      BarredQueues(s, steps[0], c);
      QueuesAre(s, steps[0]);
      StepContext(s, steps[0], c);
      StepLasts(s, steps[0]);
      BarredRun(s1, steps[1..], s', c);
    }
  }

  lemma {:induction false} RunNumbered(s: Sys, steps: seq<Step>, s': Sys)
    requires Numbered(s) && Run(s, steps, s')
    ensures Numbered(s')
    decreases |steps|
  {
    if steps != [] {
      StepContext(s, steps[0], 0);
      RunNumbered(Apply(s, steps[0]), steps[1..], s');
    }
  }

  // ------------------------------------------------------------------------
  // What closing a file stops
  // ------------------------------------------------------------------------

  /** A file that is closed, or was and is gone. */
  ghost predicate Shut(s: Sys, f: nat) {
    f < s.made && (f in s.files ==> s.files[f].closed)
  }

  /** Nothing of the file is made between the two: no context, no request. */
  ghost predicate NothingOf(s: Sys, s': Sys, f: nat) {
    && (forall c {:trigger c in s'.contexts} :: c in s'.contexts && s'.contexts[c].file == f ==> c in s.contexts && s.contexts[c].file == f)
    && (forall x {:trigger x in s'.q.requests} :: x in s'.q.requests && s'.q.requests[x].file == f ==>
          x in s.q.requests && s.q.requests[x].file == f)
  }

  lemma FileNamed(s: Sys, f: nat)
    requires Lasting(s) && f in s.files
    ensures f < s.made
  {
    assert Present(s.contexts, s.files, s.vms, AFile(f)) && AFile(f) in s.born;
  }

  /** A closed file is there for its requests alone. */
  lemma ClosedHeld(s: Sys, f: nat)
    requires Lasting(s) && Shut(s, f)
    ensures f in s.files <==> exists x :: s.q.Live(x) && x in s.q.requests && s.q.requests[x].file == f
  {
    var b := Bare(s);
    assert b.q.LiveIds() == s.q.LiveIds();
    assert RequestFiles(b.files, b.q.requests, b.q.LiveIds());
    if f in s.files {
      assert |OfFile(b.q.requests, b.q.LiveIds(), f)| > 0;
      var x :| x in OfFile(b.q.requests, b.q.LiveIds(), f);
      assert s.q.Live(x);
    }
    forall x | s.q.Live(x) && x in s.q.requests && s.q.requests[x].file == f
      ensures f in s.files
    {
      assert x in b.q.LiveIds();
    }
  }

  lemma ShutStep(s: Sys, t: Step, f: nat)
    requires Shut(s, f) && Enabled(s, t)
    ensures Shut(Apply(s, t), f) && NothingOf(s, Apply(s, t), f)
  {
    match t
    case Submit(p) => ShutSubmit(s, p, f);
    case Leave(e, code, hung) => ShutLeave(s, e, code, hung, f);
    case Life(l) => ShutLife(s, l, f);
    case _ =>
  }

  lemma ShutSubmit(s: Sys, p: Submission, f: nat)
    requires Shut(s, f) && CanSubmit(s, p)
    ensures Shut(Submitted(s, p), f) && NothingOf(s, Submitted(s, p), f)
  {
  }

  lemma ShutLeave(s: Sys, e: nat, code: int, hung: bool, f: nat)
    requires Shut(s, f) && CanLeave(s, e, code, hung) && CanLetGo(s, e)
    ensures Shut(Left(s, e, code, hung), f) && NothingOf(s, Left(s, e, code, hung), f)
  {
    LeftFrame(s, e, code, hung);
    var r := s.q.requests[Leaving(s.q, e)];
    LettingGo(Signal(s, e, code, hung), r.ctx, r.file);
  }

  lemma ShutLife(s: Sys, l: LifeStep, f: nat)
    requires Shut(s, f) && LifeEnabled(s, l)
    ensures Shut(LifeApply(s, l), f) && NothingOf(s, LifeApply(s, l), f)
  {
    if l.CloseFile? || l.DestroyContext? || l.DropVm? || l.SetVm? {
      ShutRelease(s, l, f);
    }
  }

  lemma ShutRelease(s: Sys, l: LifeStep, f: nat)
    requires Shut(s, f) && LifeEnabled(s, l) && (l.CloseFile? || l.DestroyContext? || l.DropVm? || l.SetVm?)
    ensures Shut(LifeApply(s, l), f) && NothingOf(s, LifeApply(s, l), f)
  {
  }

  lemma {:induction false} ShutRun(s: Sys, steps: seq<Step>, s': Sys, f: nat)
    requires Shut(s, f) && Run(s, steps, s')
    ensures Shut(s', f) && NothingOf(s, s', f)
    decreases |steps|
  {
    if steps != [] {
      ShutStep(s, steps[0], f);
      ShutRun(Apply(s, steps[0]), steps[1..], s', f);
    }
  }

  // ------------------------------------------------------------------------
  // The theorems
  // ------------------------------------------------------------------------

  /**
   In any run, a context is banned exactly if one of its requests hung while the context was not to recover and could
   be banned; every context starts out recovering and bannable.
   */
  lemma BannedExactly(steps: seq<Step>, s: Sys, c: nat)
    requires Run(INIT, steps, s) && c in s.contexts
    ensures s.contexts[c].banned <==> Guilty(INIT, steps, c, true, true)
  {
    RunBans(INIT, steps, s, c, true, true, false);
  }

  /** Once a context is banned, no request of it is ever accepted or started again, and a ban is for good. */
  lemma BannedStops(before: seq<Step>, s: Sys, c: nat, steps: seq<Step>, s': Sys)
    requires Run(INIT, before, s) && c in s.contexts && s.contexts[c].banned && Run(s, steps, s')
    ensures c in s'.contexts ==> s'.contexts[c].banned
    ensures forall x :: x in s'.q.requests && s'.q.requests[x].ctx == c ==> x in s.q.requests
    ensures forall x :: Started(x) in s'.q.log && x in s'.q.requests && s'.q.requests[x].ctx == c ==> Started(x) in s.q.log
  {
    InitLasts();
    RunLasts(INIT, before, s);
    RunNumbered(INIT, before, s);
    BarredRun(s, steps, s', c);
    forall x | Started(x) in s'.q.log && x in s'.q.requests && s'.q.requests[x].ctx == c
      ensures Started(x) in s.q.log
    {
      assert WasStarted(s'.q, x);
    }
  }

  /**
   Once a file is closed, no context is made for it and no request of it is accepted any more, and it is gone as soon
   as the last of those it had has retired.
   */
  lemma ClosedDrains(before: seq<Step>, s: Sys, f: nat, steps: seq<Step>, s': Sys)
    requires Run(INIT, before, s) && f in s.files && s.files[f].closed && Run(s, steps, s')
    ensures forall c :: c in s'.contexts && s'.contexts[c].file == f ==> c in s.contexts
    ensures forall x :: x in s'.q.requests && s'.q.requests[x].file == f ==> x in s.q.requests
    ensures f in s'.files <==> exists x :: s'.q.Live(x) && x in s'.q.requests && s'.q.requests[x].file == f
  {
    InitLasts();
    RunLasts(INIT, before, s);
    RunLasts(s, steps, s');
    FileNamed(s, f);
    ShutRun(s, steps, s', f);
    ClosedHeld(s', f);
  }
}
