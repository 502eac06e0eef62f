/**
 Whole runs of the driver: what holds in every state a run can reach, which runs keep
 conflicting requests apart, and why no run gets stuck.
 */
module GpuRuns {
  import opened Bindings
  import opened RequestQueue
  import opened ImplicitFencing
  import opened Lifetimes
  import opened GpuSystem
  import opened GpuSafety
  import opened GpuIoctls

  /** The steps that can go wrong: a refused submission whose signaled fence hides another request's, and where no
      submission is to skip the fences of its objects, one that does. */
  ghost predicate Calm(s: Sys, t: Step, wild: bool := true)
    requires Enabled(s, t)
  {
    match t
    case Submit(p) => wild || NoAsync(p.uses)
    case Refused(p, code) => Spares(s.q, s.slots, p.engine, p.uses, wild)
    case _ => true
  }

  lemma InitInv(wild: bool := true)
    ensures SysInv(INIT, wild)
  {
    assert INIT.q.LiveIds() == {};
    assert forall id :: !INIT.q.Live(id);
  }

  /** Claiming the engines concerns no fence and no lifetime. */
  lemma ClaimCarries(q: Queues, claimed: bool)
    ensures Carried(q, q.(claimed := claimed))
  {
    var q' := q.(claimed := claimed);
    assert forall a, c, y, z {:trigger HeldBy(q', a, c, y, z)} {:trigger HeldBy(q, a, c, y, z)} ::
        HeldBy(q', a, c, y, z) <==> HeldBy(q, a, c, y, z);
    assert forall a, c {:trigger Held(q', a, c)} {:trigger Held(q, a, c)} :: Held(q', a, c) <==> Held(q, a, c);
  }

  lemma ClaimCore(s: Sys, claimed: bool)
    requires Core(s)
    ensures Core(s.(q := s.q.(claimed := claimed)))
  {
    assert s.q.(claimed := claimed).LiveIds() == s.q.LiveIds();
  }

  lemma AbortedCore(s: Sys, p: Submission, k: nat)
    requires Core(s) && CanSubmit(s, p) && k <= |p.uses|
    ensures Core(AbortedSys(s, p, k))
  {
    PlaceLife(s, p, k);
  }

  lemma LifeStepCore(s: Sys, l: LifeStep)
    requires Core(s) && LifeEnabled(s, l)
    ensures Core(LifeApply(s, l))
  {
    match l
    case Open => OpenCore(s);
    case CloseFile(f) => CloseCore(s, f);
    case NewContext(f, single) => NewContextCore(s, f, single);
    case DestroyContext(c) => DestroyContextCore(s, c);
    case Tune(c, r, b) => TuneCore(s, c, r, b);
    case NewVm(f, slot) => NewVmCore(s, f, slot);
    case DropVm(f, slot) => DropVmCore(s, f, slot);
    case NameVm(c, slot) => NameVmCore(s, c, slot);
    case SetVm(c, slot) => SetVmCore(s, c, slot);
  }

  /** Whatever the fences say, every step but an unbinding leaves lifetimes and bindings in order. */
  lemma StepCore(s: Sys, t: Step)
    requires Core(s) && Enabled(s, t) && !t.Unbind?
    ensures Core(Apply(s, t))
  {
    match t
    case Submit(p) =>
      SubmitSound(s, p);
      SubmitLife(s, p);
    case Refused(p, code) =>
      RefusedSound(s, p, code);
      RefusedLife(s, p, code);
    case Aborted(p, k) => AbortedCore(s, p, k);
    case Go(e) => GoCore(s, e);
    case Leave(e, code, hung) =>
      LeaveSound(s, e, code, hung);
      LeftLife(s, e, code, hung);
    case Import(o, write, fence) => ImportCore(s, o, write, fence);
    case NewObject(size) => NewObjectCore(s, size);
    case Claim(on) => ClaimCore(s, on);
    case Life(l) => LifeStepCore(s, l);
  }

  /** Queues, slots and names stay in order whatever is done. */
  lemma StepSound(s: Sys, t: Step)
    requires Sound(s) && Enabled(s, t)
    ensures Sound(Apply(s, t))
  {
    match t
    case Submit(p) => SubmitSound(s, p);
    case Refused(p, code) => RefusedSound(s, p, code);
    case Life(l) => LifeSound(s, l);
    case _ => OtherSound(s, t);
  }

  lemma OtherSound(s: Sys, t: Step)
    requires Sound(s) && Enabled(s, t) && !t.Submit? && !t.Refused? && !t.Life?
    ensures Sound(Apply(s, t))
  {
    match t
    case Go(e) => GoSound(s, e);
    case Leave(e, code, hung) => LeaveSound(s, e, code, hung);
    case Import(o, write, fence) => ImportSound(s, o, write, fence);
    case NewObject(size) => NewObjectSound(s, size);
    case Claim(on) => ClaimSound(s, on);
    case Aborted(_, _) => VmsSound(s, Apply(s, t).vms);
    case Unbind(_, _) => VmsSound(s, Apply(s, t).vms);
    case _ =>
  }

  lemma GoSound(s: Sys, e: nat)
    requires Sound(s) && CanGo(s, e)
    ensures Sound(Apply(s, Go(e)))
  {
    DispatchInv(s.q, e);
  }

  lemma ImportSound(s: Sys, o: nat, write: bool, fence: Fence)
    requires Sound(s) && Enabled(s, Import(o, write, fence))
    ensures Sound(Apply(s, Import(o, write, fence)))
  {
    ImportSlots(s.q, s.slots, o, write, fence);
  }

  lemma VmsSound(s: Sys, vms: Vms)
    requires Sound(s)
    ensures Sound(s.(vms := vms))
  {
  }

  lemma ClaimSound(s: Sys, on: bool)
    requires Sound(s)
    ensures Sound(s.(q := s.q.(claimed := on)))
  {
    assert forall id {:trigger s.q.(claimed := on).Live(id)} :: s.q.(claimed := on).Live(id) <==> s.q.Live(id);
  }

  lemma LifeSound(s: Sys, l: LifeStep)
    requires Sound(s) && LifeEnabled(s, l)
    ensures Sound(LifeApply(s, l))
  {
    LifeFrame(s, l);
  }

  /** What guards the users of objects. */
  lemma StepUsage(s: Sys, t: Step, wild: bool)
    requires SysInv(s, wild) && Enabled(s, t) && Calm(s, t, wild)
    ensures UsersCovered(Apply(s, t).q, Apply(s, t).slots, wild)
  {
    match t
    case Submit(p) => SubmittedUsage(s, p, wild);
    case Refused(p, code) => RefusedInv(s, p, code, wild);
    case Go(e) => DispatchUsage(s.q, s.slots, e, wild);
    case Leave(e, code, hung) =>
      RetireUsage(s.q, s.slots, e, code, wild);
      LeftFrame(s, e, code, hung);
    case Import(o, write, fence) => ImportUsage(s.q, s.slots, o, write, fence, wild);
    case NewObject(size) => NewObjectUsage(s.q, s.slots, s.made, wild);
    case Claim(on) =>
      ClaimCarries(s.q, on);
      CoveredCarried(s.q, Apply(s, t).q, s.slots, wild);
    case Life(l) => LifeFrame(s, l);
    case _ =>
  }

  lemma NewObjectUsage(q: Queues, t: Table, o: nat, wild: bool)
    requires UsersCovered(q, t, wild) && o !in t
    ensures UsersCovered(q, t[o := NO_FENCES], wild)
  {
  }

  lemma StepInv(s: Sys, t: Step, wild: bool := true)
    requires SysInv(s, wild) && Enabled(s, t) && Calm(s, t, wild)
    ensures SysInv(Apply(s, t), wild)
  {
    match t
    case Unbind(f, o) => UnbindInv(s, f, o, wild);
    case Leave(e, code, hung) => LeaveInv(s, e, code, hung, wild);
    case _ => OtherInv(s, t, wild);
  }

  lemma OtherInv(s: Sys, t: Step, wild: bool)
    requires SysInv(s, wild) && Enabled(s, t) && Calm(s, t, wild) && !t.Unbind? && !t.Leave?
    ensures SysInv(Apply(s, t), wild)
  {
    StepCore(s, t);
    StepUsage(s, t, wild);
  }

  ghost predicate CalmRun(s: Sys, steps: seq<Step>, s': Sys, wild: bool := true)
    decreases |steps|
  {
    if steps == [] then s' == s
    else Enabled(s, steps[0]) && Calm(s, steps[0], wild) && CalmRun(Apply(s, steps[0]), steps[1..], s', wild)
  }

  /** The invariant holds in every state of every calm run. */
  lemma {:induction false} RunInv(s: Sys, steps: seq<Step>, s': Sys, wild: bool := true)
    requires SysInv(s, wild) && CalmRun(s, steps, s', wild)
    ensures SysInv(s', wild)
    decreases |steps|
  {
    if steps != [] {
      StepInv(s, steps[0], wild);
      RunInv(Apply(s, steps[0]), steps[1..], s', wild);
    }
  }

  lemma {:induction false} CalmIsRun(s: Sys, steps: seq<Step>, s': Sys, wild: bool := true)
    requires CalmRun(s, steps, s', wild)
    ensures Run(s, steps, s')
    decreases |steps|
  {
    if steps != [] {
      CalmIsRun(Apply(s, steps[0]), steps[1..], s', wild);
    }
  }

  lemma {:induction false} RunConcat(s: Sys, first: seq<Step>, mid: Sys, rest: seq<Step>, s': Sys)
    requires Run(s, first, mid) && Run(mid, rest, s')
    ensures Run(s, first + rest, s')
    decreases |first|
  {
    if first == [] {
      assert first + rest == rest;
    } else {
      assert (first + rest)[0] == first[0] && (first + rest)[1..] == first[1..] + rest;
      RunConcat(Apply(s, first[0]), first[1..], mid, rest, s');
    }
  }

  // ------------------------------------------------------------------------
  // Whatever becomes of bindings
  // ------------------------------------------------------------------------

  /** The state as it would be if requests listed no objects. Steps do not look at those lists once a request is
      queued, so what the invariant says of queues, fences and lifetimes holds in every run, calm or not. */
  ghost function Bare(s: Sys): Sys {
    s.(q := s.q.(requests := BareRequests(s.q.requests)))
  }

  ghost function BareRequests(requests: Requests): Requests {
    map id | id in requests :: requests[id].(uses := [])
  }

  ghost predicate Alike(a: Sys, b: Sys) {
    Bare(a) == Bare(b)
  }

  lemma BareTwice(s: Sys)
    ensures Bare(Bare(s)) == Bare(s)
  {
    assert BareRequests(BareRequests(s.q.requests)) == BareRequests(s.q.requests);
  }

  /** What states that are alike share. */
  lemma AlikeParts(a: Sys, b: Sys)
    requires Alike(a, b)
    ensures b == a.(q := a.q.(requests := b.q.requests)) && b.q.requests.Keys == a.q.requests.Keys
    ensures forall id :: id in a.q.requests ==> b.q.requests[id] == a.q.requests[id].(uses := b.q.requests[id].uses)
  {
    var x, y := Bare(a), Bare(b);
    assert x.q.requests.Keys == a.q.requests.Keys && y.q.requests.Keys == b.q.requests.Keys;
    forall id | id in a.q.requests
      ensures b.q.requests[id] == a.q.requests[id].(uses := b.q.requests[id].uses)
    {
      assert x.q.requests[id] == a.q.requests[id].(uses := []) && y.q.requests[id] == b.q.requests[id].(uses := []);
    }
  }

  lemma AlikeQueues(a: Sys, b: Sys)
    requires Alike(a, b) && QueueInv(a.q)
    ensures QueueInv(b.q)
  {
    AlikeParts(a, b);
    assert forall id {:trigger b.q.Live(id)} :: b.q.Live(id) <==> a.q.Live(id);
  }

  lemma AlikeSound(a: Sys, b: Sys)
    requires Alike(a, b) && Sound(a)
    ensures Sound(b)
  {
    AlikeParts(a, b);
    AlikeQueues(a, b);
  }

  lemma AlikeHeld(a: Sys, b: Sys)
    requires Alike(a, b)
    ensures forall x, y {:trigger Held(b.q, x, y)} :: Held(b.q, x, y) <==> Held(a.q, x, y)
    ensures forall x {:trigger Blocks(b.q, x)} :: Blocks(b.q, x) <==> Blocks(a.q, x)
    ensures forall x {:trigger b.q.Live(x)} :: b.q.Live(x) <==> a.q.Live(x)
  {
    AlikeParts(a, b);
    assert forall x, c, y, z {:trigger HeldBy(b.q, x, c, y, z)} {:trigger HeldBy(a.q, x, c, y, z)} ::
        HeldBy(b.q, x, c, y, z) <==> HeldBy(a.q, x, c, y, z);
  }

  lemma AlikeBehind(a: Sys, b: Sys, f: Fence, id: nat)
    requires Alike(a, b)
    ensures Behind(b.q, f, id) <==> Behind(a.q, f, id)
  {
    AlikeParts(a, b);
    AlikeHeld(a, b);
    assert forall x {:trigger Follows(b.q, id, x)} {:trigger Follows(a.q, id, x)} :: Follows(b.q, id, x) <==> Follows(a.q, id, x);
  }

  lemma AlikeEnabled(a: Sys, b: Sys, t: Step)
    requires Alike(a, b) && Enabled(a, t)
    ensures Enabled(b, t)
  {
    AlikeParts(a, b);
  }

  lemma MadeAlike(a: Sys, b: Sys)
    requires b == a.(q := a.q.(requests := b.q.requests)) && b.q.requests.Keys == a.q.requests.Keys
    requires forall id :: id in a.q.requests ==> b.q.requests[id] == a.q.requests[id].(uses := b.q.requests[id].uses)
    ensures Alike(a, b)
  {
    assert BareRequests(a.q.requests) == BareRequests(b.q.requests);
  }

  lemma AlikeSubmit(a: Sys, b: Sys, p: Submission)
    requires Alike(a, b) && CanSubmit(a, p) && CanSubmit(b, p)
    ensures Alike(Submitted(a, p), Submitted(b, p))
  {
    AlikeParts(a, b);
    assert RequestOf(b, p) == RequestOf(a, p);
    AlikeEnqueue(a.q, b.q, RequestOf(a, p));
    MadeAlike(Submitted(a, p), Submitted(b, p));
  }

  lemma AlikeEnqueue(q: Queues, q': Queues, r: Request)
    requires |q.lanes| == 2 && r.engine < 2 && q' == q.(requests := q'.requests) && q'.requests.Keys == q.requests.Keys
    requires forall id :: id in q.requests ==> q'.requests[id] == q.requests[id].(uses := q'.requests[id].uses)
    ensures var x, y := Enqueue(q, r), Enqueue(q', r);
            && y == x.(requests := y.requests) && y.requests.Keys == x.requests.Keys
            && forall id :: id in x.requests ==> y.requests[id] == x.requests[id].(uses := y.requests[id].uses)
  {
  }

  lemma AlikeRefused(a: Sys, b: Sys, p: Submission, code: int)
    requires Alike(a, b) && CanSubmit(a, p) && CanSubmit(b, p)
    ensures Alike(RefusedSys(a, p, code), RefusedSys(b, p, code))
  {
    AlikeParts(a, b);
    MadeAlike(RefusedSys(a, p, code), RefusedSys(b, p, code));
  }

  /** Files, contexts and address spaces come and go without a look at the queues. */
  lemma LifeApart(s: Sys, q: Queues, l: LifeStep)
    requires LifeEnabled(s, l) && LifeEnabled(s.(q := q), l)
    ensures LifeApply(s.(q := q), l) == LifeApply(s, l).(q := q)
  {
  }

  lemma DropContextApart(s: Sys, q: Queues, c: nat)
    requires c in s.contexts && s.contexts[c].pending > 0 && s.contexts[c].vm in s.vms && s.vms[s.contexts[c].vm].refs > 0
    ensures DropContext(s.(q := q), c) == DropContext(s, c).(q := q) && DropContext(s, c).q == s.q
    ensures DropContext(s, c).files == s.files
  {
  }

  lemma DropFileApart(s: Sys, q: Queues, f: nat)
    requires f in s.files && s.files[f].inflight > 0
    ensures DropFile(s.(q := q), f) == DropFile(s, f).(q := q) && DropFile(s, f).q == s.q
  {
  }

  lemma AlikeLife(a: Sys, b: Sys, l: LifeStep)
    requires Alike(a, b) && LifeEnabled(a, l) && LifeEnabled(b, l)
    ensures Alike(LifeApply(a, l), LifeApply(b, l))
  {
    AlikeParts(a, b);
    LifeApart(a, b.q, l);
    LifeFrame(a, l);
    MadeAlike(LifeApply(a, l), LifeApply(b, l));
  }

  lemma AlikeLeave(a: Sys, b: Sys, e: nat, code: int, hung: bool)
    requires Alike(a, b) && CanLeave(a, e, code, hung) && CanLetGo(a, e) && CanLeave(b, e, code, hung) && CanLetGo(b, e)
    ensures Alike(Left(a, e, code, hung), Left(b, e, code, hung))
  {
    AlikeParts(a, b);
    var r, x, y := a.q.requests[Leaving(a.q, e)], Signal(a, e, code, hung), Signal(b, e, code, hung);
    assert y == x.(q := y.q);
    DropContextApart(x, y.q, r.ctx);
    DropFileApart(DropContext(x, r.ctx), y.q, r.file);
    MadeAlike(Left(a, e, code, hung), Left(b, e, code, hung));
  }

  lemma AlikeStep(a: Sys, b: Sys, t: Step)
    requires Alike(a, b) && Enabled(a, t)
    ensures Enabled(b, t) && Alike(Apply(a, t), Apply(b, t))
  {
    AlikeEnabled(a, b, t);
    match t
    case Submit(p) => AlikeSubmit(a, b, p);
    case Refused(p, code) => AlikeRefused(a, b, p, code);
    case Leave(e, code, hung) => AlikeLeave(a, b, e, code, hung);
    case Life(l) => AlikeLife(a, b, l);
    case _ => AlikeOther(a, b, t);
  }

  lemma AlikeOther(a: Sys, b: Sys, t: Step)
    requires Alike(a, b) && Enabled(a, t) && Enabled(b, t)
    requires t.Aborted? || t.Go? || t.Unbind? || t.Import? || t.NewObject? || t.Claim?
    ensures Alike(Apply(a, t), Apply(b, t))
  {
    AlikeParts(a, b);
    MadeAlike(Apply(a, t), Apply(b, t));
  }

  lemma {:induction false} AlikeRun(a: Sys, steps: seq<Step>, a': Sys, b: Sys) returns (b': Sys)
    requires Alike(a, b) && Run(a, steps, a')
    ensures Run(b, steps, b') && Alike(a', b')
    decreases |steps|
  {
    if steps == [] {
      b' := b;
    } else {
      AlikeStep(a, b, steps[0]);
      b' := AlikeRun(Apply(a, steps[0]), steps[1..], a', Apply(b, steps[0]));
    }
  }

  /** Queues, fences and lifetimes are in order. */
  ghost predicate Lasting(s: Sys) {
    SysInv(Bare(s))
  }

  /** Nobody is left uncovered where nobody lists anything. */
  lemma BareInv(s: Sys)
    requires Core(s)
    ensures Lasting(s)
  {
    BareQueues(s.q);
    BareLife(s);
  }

  lemma BareQueues(q: Queues)
    requires QueueInv(q)
    ensures QueueInv(q.(requests := BareRequests(q.requests)))
  {
    var q' := q.(requests := BareRequests(q.requests));
    assert forall id {:trigger q'.Live(id)} :: q'.Live(id) <==> q.Live(id);
  }

  lemma BareLife(s: Sys)
    requires Alive(s)
    ensures Alive(Bare(s))
  {
    var b, live := Bare(s), s.q.LiveIds();
    var before, after := s.q.requests, b.q.requests;
    assert b.q.LiveIds() == live;
    forall c | c in s.contexts
      ensures OfContext(after, live, c) == OfContext(before, live, c)
    {
    }
    forall f | f in s.files
      ensures OfFile(after, live, f) == OfFile(before, live, f)
    {
    }
    forall id | id in live
      ensures RequestOk(s.contexts, after, id) && BoundAt(s.vms, after, id)
    {
      assert RequestOk(s.contexts, before, id) && BoundAt(s.vms, before, id);
    }
  }

  lemma BareAlike(s: Sys)
    ensures Alike(s, Bare(s))
  {
    BareTwice(s);
  }

  lemma BareCalm(s: Sys, t: Step)
    requires Enabled(Bare(s), t)
    ensures Calm(Bare(s), t)
  {
    assert forall id :: id in Bare(s).q.requests ==> Bare(s).q.requests[id].uses == [];
  }

  /** Every step keeps them so, refusals and unbindings whatever they spoil. */
  lemma StepLasts(s: Sys, t: Step)
    requires Lasting(s) && Enabled(s, t)
    ensures Lasting(Apply(s, t))
  {
    BareAlike(s);
    AlikeStep(s, Bare(s), t);
    BareCalm(s, t);
    StepInv(Bare(s), t);
    BareInv(Apply(Bare(s), t));
  }

  lemma LastsSound(s: Sys)
    requires Lasting(s)
    ensures Sound(s)
  {
    BareAlike(s);
    AlikeSound(Bare(s), s);
  }

  lemma {:induction false} RunLasts(s: Sys, steps: seq<Step>, s': Sys)
    requires Lasting(s) && Run(s, steps, s')
    ensures Lasting(s')
    decreases |steps|
  {
    if steps != [] {
      StepLasts(s, steps[0]);
      RunLasts(Apply(s, steps[0]), steps[1..], s');
    }
  }

  lemma InitLasts()
    ensures Lasting(INIT)
  {
    InitInv();
    BareInv(INIT);
  }

  // ------------------------------------------------------------------------
  // What follows for a request, from its queueing to its retirement
  // ------------------------------------------------------------------------

  /** Whatever else a calm run does, as long as a request is unretired its context and its
      address space are there, and every object it lists is bound where it asked, apart from
      everything else bound there. */
  lemma StaysBound(s: Sys, steps: seq<Step>, s': Sys, id: nat, wild: bool := true)
    requires SysInv(s, wild) && CalmRun(s, steps, s', wild) && s'.q.Live(id)
    ensures KeptAlive(s', id)
  {
    RunInv(s, steps, s', wild);
    InvKeepsAlive(s', id);
  }

  ghost predicate KeptAlive(s: Sys, id: nat) {
    && id in s.q.requests
    && var r := s.q.requests[id];
       && r.ctx in s.contexts && s.contexts[r.ctx].vm == r.vm && s.contexts[r.ctx].file == r.file
       && r.file in s.files && r.vm in s.vms
       && Apart(s.vms[r.vm].bindings)
       && forall u :: u in r.uses ==> Want(u) in s.vms[r.vm].bindings
  }

  lemma InvKeepsAlive(s: Sys, id: nat)
    requires QueueInv(s.q) && Alive(s) && s.q.Live(id)
    ensures KeptAlive(s, id)
  {
    assert id in s.q.LiveIds();
    assert RequestOk(s.contexts, s.q.requests, id);
    assert BoundAt(s.vms, s.q.requests, id);
    assert Fits(s.vms[s.q.requests[id].vm].bindings, s.sizes);
  }

  /** A request's record never changes once it is accepted. */
  lemma StepKeepsRequests(s: Sys, t: Step, id: nat)
    requires Enabled(s, t) && id in s.q.requests && id < |s.q.status|
    ensures var q := QueuesAfter(s, t); id in q.requests && q.requests[id] == s.q.requests[id] && id < |q.status|
  {
  }

  lemma LogAfter(s: Sys, t: Step)
    requires Sound(s) && LogOk(s.q) && Enabled(s, t)
    ensures LogOk(QueuesAfter(s, t))
  {
    match t
    case Submit(p) => EnqueueLog(s.q, RequestOf(s, p));
    case Go(e) => DispatchLog(s.q, e);
    case Leave(e, code, hung) => RetireLog(s.q, e, code);
    case _ =>
  }

  lemma StepLog(s: Sys, t: Step)
    requires Sound(s) && LogOk(s.q) && Enabled(s, t)
    ensures LogOk(Apply(s, t).q)
  {
    QueuesAre(s, t);
    LogAfter(s, t);
  }

  lemma {:induction false} RunKeeps(s: Sys, steps: seq<Step>, s': Sys, id: nat)
    requires Run(s, steps, s') && id in s.q.requests && id < |s.q.status|
    ensures id in s'.q.requests && s'.q.requests[id] == s.q.requests[id]
    decreases |steps|
  {
    if steps != [] {
      StepKeepsRequests(s, steps[0], id);
      QueuesAre(s, steps[0]);
      RunKeeps(Apply(s, steps[0]), steps[1..], s', id);
    }
  }

  /** What a step does to the queues. */
  ghost function QueuesAfter(s: Sys, t: Step): Queues
    requires Enabled(s, t)
  {
    match t
    case Submit(p) => Enqueue(s.q, RequestOf(s, p))
    case Refused(_, code) => Refuse(s.q, code)
    case Go(e) => Dispatch(s.q, e)
    case Leave(e, code, _) => Retire(s.q, e, code)
    case Claim(on) => s.q.(claimed := on)
    case _ => s.q
  }

  lemma QueuesAre(s: Sys, t: Step)
    requires Enabled(s, t)
    ensures Apply(s, t).q == QueuesAfter(s, t)
  {
    match t
    case Leave(e, code, hung) => LeftFrame(s, e, code, hung);
    case Life(l) => LifeFrame(s, l);
    case _ =>
  }

  lemma LifeFrame(s: Sys, l: LifeStep)
    requires LifeEnabled(s, l)
    ensures LifeApply(s, l).q == s.q && LifeApply(s, l).slots == s.slots && LifeApply(s, l).sizes == s.sizes
  {
    if l.CloseFile? || l.DestroyContext? || l.DropVm? || l.SetVm? {
      ReleaseFrame(s, l);
    }
  }

  lemma ReleaseFrame(s: Sys, l: LifeStep)
    requires LifeEnabled(s, l) && (l.CloseFile? || l.DestroyContext? || l.DropVm? || l.SetVm?)
    ensures LifeApply(s, l).q == s.q && LifeApply(s, l).slots == s.slots && LifeApply(s, l).sizes == s.sizes
  {
  }

  /** Nothing is freed twice, nothing is lost, and no context, file or address space goes while an unretired request
      counts on it, in any run at all. */
  lemma FreedOnce(s: Sys, steps: seq<Step>, s': Sys, t: Thing)
    requires Lasting(s) && Run(s, steps, s') && t in s'.born
    ensures s'.freed[t] == if Present(s'.contexts, s'.files, s'.vms, t) then 0 else 1
    ensures (exists id :: s'.q.Live(id) && id in s'.q.requests &&
                          (t == AContext(s'.q.requests[id].ctx) || t == AFile(s'.q.requests[id].file) || t == AVm(s'.q.requests[id].vm)))
            ==> s'.freed[t] == 0
  {
    RunLasts(s, steps, s');
    if id :| s'.q.Live(id) && id in s'.q.requests &&
             (t == AContext(s'.q.requests[id].ctx) || t == AFile(s'.q.requests[id].file) || t == AVm(s'.q.requests[id].vm)) {
      InvKeepsAlive(Bare(s'), id);
    }
  }

  // ------------------------------------------------------------------------
  // Progress
  // ------------------------------------------------------------------------

  /** While a request is unretired and the engines are not claimed, some engine can move. */
  lemma CanMoveOn(s: Sys) returns (t: Step)
    requires Core(s) && !s.q.claimed && s.q.queuedCount > 0
    ensures (t.Go? || t.Leave?) && Enabled(s, t)
  {
    var id := OldestLive(s.q);
    OldestCanMove(s.q, id);
    var e := s.q.requests[id].engine;
    if s.q.lanes[e].active.Some? {
      t := Leave(e, 0, false);
      LetGoDefined(s, e);
    } else if CanGo(s, e) {
      t := Go(e);
    } else {
      t := Leave(e, if HeadError(s, e) != 0 then HeadError(s, e) else -EIO, false);
      LetGoDefined(s, e);
    }
  }

  /** From every reachable state the engines alone can retire everything, in no more steps than
      twice the requests waiting plus those running. */
  lemma {:induction false} DrainRun(s: Sys) returns (steps: seq<Step>, s': Sys)
    requires Lasting(s) && !s.q.claimed
    ensures CalmRun(s, steps, s') && CalmRun(s, steps, s', false) && Lasting(s') && s'.q.queuedCount == 0
    ensures |steps| <= Work(s.q)
    ensures forall t :: t in steps ==> t.Go? || t.Leave?
    decreases Work(s.q)
  {
    if s.q.queuedCount == 0 {
      return [], s;
    }
    var t, next := MoveOn(s);
    var rest;
    rest, s' := DrainRun(next);
    steps := [t] + rest;
    assert steps[1..] == rest;
  }

  lemma MoveOn(s: Sys) returns (t: Step, next: Sys)
    requires Lasting(s) && !s.q.claimed && s.q.queuedCount > 0
    ensures (t.Go? || t.Leave?) && Enabled(s, t) && next == Apply(s, t)
    ensures Lasting(next) && !next.q.claimed && Work(next.q) < Work(s.q)
  {
    t := CanMoveOn(Bare(s));
    BareAlike(s);
    AlikeStep(Bare(s), s, t);
    next := Apply(s, t);
    MovedAlike(Bare(s), s, t);
    StepLasts(s, t);
  }

  lemma AlikeLanes(a: Sys, b: Sys)
    requires Alike(a, b)
    ensures b.q.lanes == a.q.lanes && b.q.claimed == a.q.claimed
  {
    AlikeParts(a, b);
  }

  lemma MovedAlike(b: Sys, s: Sys, t: Step)
    requires Core(b) && Alike(b, s) && (t.Go? || t.Leave?) && Enabled(b, t) && Enabled(s, t) && Alike(Apply(b, t), Apply(s, t))
    ensures |s.q.lanes| == |Apply(s, t).q.lanes| == 2
    ensures Work(Apply(s, t).q) < Work(s.q) && Apply(s, t).q.claimed == s.q.claimed
  {
    MoveShrinks(b, t);
    AlikeLanes(b, s);
    AlikeLanes(Apply(b, t), Apply(s, t));
  }

  lemma MoveShrinks(s: Sys, t: Step)
    requires Core(s) && (t.Go? || t.Leave?) && Enabled(s, t)
    ensures |Apply(s, t).q.lanes| == 2 && Work(Apply(s, t).q) < Work(s.q) && Apply(s, t).q.claimed == s.q.claimed
  {
    match t
    case Go(e) => DispatchWork(s.q, e);
    case Leave(e, code, hung) =>
      LeftFrame(s, e, code, hung);
      RetireWork(s.q, e, code);
  }
}
