/**
 Where implicit fencing does not hold: what an object marked `EXEC_OBJECT_ASYNC` does to requests that never asked
 for it, and what a refused submission hides. Each is a run from the start, all its users in files of their own.
 */
module GpuLimits {
  import opened Basics
  import opened RequestQueue
  import opened ImplicitFencing
  import opened Lifetimes
  import opened GpuSystem
  import opened GpuSafety
  import opened GpuRuns
  import opened GpuOrder
  import opened GpuOvertaking
  import opened GpuEarlyStart
  import opened GpuExact

  // ------------------------------------------------------------------------
  // Building runs
  // ------------------------------------------------------------------------

  /** Reached from the start by steps of which only submissions may be asynchronous. */
  ghost predicate Reached(s: Sys, wild: bool) {
    exists steps :: PlainRun(INIT, steps, s, wild)
  }

  lemma ReachStep(s: Sys, t: Step, wild: bool)
    requires Reached(s, wild) && Plain(t, wild) && Enabled(s, t)
    ensures Reached(Apply(s, t), wild)
  {
    var steps :| PlainRun(INIT, steps, s, wild);
    PlainOne(s, t, wild);
    var all := PlainThen(INIT, steps, s, [t], Apply(s, t), wild);
  }

  lemma ReachedInv(s: Sys, wild: bool)
    requires Reached(s, wild)
    ensures SysInv(s, wild)
  {
    var steps :| PlainRun(INIT, steps, s, wild);
    PlainIsCalm(INIT, steps, s, wild);
    InitInv(wild);
    RunInv(INIT, steps, s, wild);
  }

  lemma ReachedLog(s: Sys, wild: bool)
    requires Reached(s, wild)
    ensures LogOk(s.q)
  {
    var steps :| PlainRun(INIT, steps, s, wild);
    InitInv(wild);
    EmptyInv();
    PlainLog(INIT, steps, s, wild);
  }

  /** One more user of the object 0, in a new file. */
  ghost function Joined(s: Sys, e: nat, write: bool, async: bool): Sys
    requires Room(s, e, 0)
  {
    CanIntrude(s, e, 0, write, async);
    Submitted(Opened(s), Intruder(s, e, 0, write, async))
  }

  lemma ReachJoined(s: Sys, e: nat, write: bool, async: bool, wild: bool)
    requires Reached(s, wild) && Room(s, e, 0) && (async ==> wild)
    ensures Reached(Joined(s, e, write, async), wild)
  {
    CanIntrude(s, e, 0, write, async);
    ReachStep(s, Life(Open), wild);
    ReachStep(Opened(s), Submit(Intruder(s, e, 0, write, async)), wild);
  }

  // ------------------------------------------------------------------------
  // One writer
  // ------------------------------------------------------------------------

  ghost function Start(): Sys {
    Apply(INIT, NewObject(PAGE))
  }

  ghost function User(write: bool, async: bool): Use {
    Use(0, 0, PAGE, write, async)
  }

  ghost predicate NobodyBanned(s: Sys) {
    forall c :: c in s.contexts ==> !s.contexts[c].banned
  }

  /** Request 0 writes the object on the render engine. */
  ghost predicate OneWriter(s: Sys) {
    && NobodyBanned(s)
    && s.q.status == [Pending] && s.q.lanes == [Lane(None, [0]), Lane(None, [])] && s.q.queuedCount == 1
    && 0 in s.q.requests && s.q.requests[0].engine == RENDER && s.q.requests[0].uses == [User(true, false)]
    && 0 in s.slots && s.slots[0] == Slots([[0], []], [0]) && 0 in s.sizes && s.sizes[0] == PAGE
  }

  /** What joining adds. */
  lemma JoinedIs(s: Sys, e: nat, write: bool, async: bool) returns (r: Request)
    requires Room(s, e, 0)
    ensures r.engine == e && r.uses == [Use(0, 0, s.sizes[0], write, async)]
    ensures var s' := Joined(s, e, write, async);
            && s'.q == Enqueue(s.q, r) && s'.sizes == s.sizes
            && s'.slots == s.slots[0 := PublishOne(s.slots[0], |s.q.status|, e, write)]
            && (NobodyBanned(s) ==> NobodyBanned(s'))
    ensures r.deps == UseDeps(s.q.status, [], s.slots[0], r.uses[0])
  {
    IntruderWaits(s, e, 0, write, async);
    IntruderPublishes(s, e, 0, write, async);
    r := RequestOf(Opened(s), Intruder(s, e, 0, write, async));
  }

  lemma FirstWriter(wild: bool) returns (s: Sys)
    ensures OneWriter(s) && Reached(s, wild)
  {
    var s0 := Start();
    assert PlainRun(INIT, [], INIT, wild);
    ReachStep(INIT, NewObject(PAGE), wild);
    assert Room(s0, RENDER, 0);
    s := Joined(s0, RENDER, true, false);
    ReachJoined(s0, RENDER, true, false, wild);
    var r := JoinedIs(s0, RENDER, true, false);
    EnqueueFirst(r);
    assert s.slots[0].users == [[0], []];
  }

  lemma EnqueueFirst(r: Request)
    requires r.engine == RENDER
    ensures var q := Enqueue(EMPTY, r);
            q.status == [Pending] && q.lanes == [Lane(None, [0]), Lane(None, [])] && q.queuedCount == 1 && q.requests == map[0 := r]
  {
    var q := Enqueue(EMPTY, r);
    assert q.lanes[0].queue == [0] && q.lanes[1] == Lane(None, []);
    assert q.status == [Pending];
  }

  // ------------------------------------------------------------------------
  // Asynchronous objects
  // ------------------------------------------------------------------------

  /** Then request 1 writes it on the blitter, waiting for nothing. */
  ghost predicate TwoWriters(s: Sys) {
    && NobodyBanned(s)
    && s.q.status == [Pending, Pending] && s.q.lanes == [Lane(None, [0]), Lane(None, [1])] && s.q.queuedCount == 2
    && 0 in s.q.requests && s.q.requests[0].engine == RENDER && s.q.requests[0].uses == [User(true, false)]
    && 1 in s.q.requests && s.q.requests[1].engine == BLITTER && s.q.requests[1].deps == []
    && 0 in s.slots && s.slots[0] == Slots([[0], [1]], [1]) && 0 in s.sizes && s.sizes[0] == PAGE
  }

  lemma SecondWriter() returns (s: Sys)
    ensures TwoWriters(s) && Reached(s, true)
  {
    var s1 := FirstWriter(true);
    s := Joined(s1, BLITTER, true, true);
    ReachJoined(s1, BLITTER, true, true, true);
    var r := JoinedIs(s1, BLITTER, true, true);
    assert s.q.lanes[1].queue == [1] && s.q.lanes[0] == Lane(None, [0]);
    assert s.q.lanes == [Lane(None, [0]), Lane(None, [1])];
    assert s.q.status == [Pending, Pending];
    assert s.slots[0].users == [[0], [1]];
  }

  /** The reader that comes next waits for the second writer alone. */
  lemma ThirdReads(s: Sys)
    requires TwoWriters(s)
    ensures CanSubmit(Opened(s), Intruder(s, BLITTER, 0, false, false))
    ensures var r := RequestOf(Opened(s), Intruder(s, BLITTER, 0, false, false));
            r.deps == [[1]] && r.uses == [User(false, false)] && r.engine == BLITTER && !Orders(s.q, r, 0)
  {
    IntruderWaits(s, BLITTER, 0, false, false);
    assert 1 in [1] && !Signaled(s.q.status, 1);
    assert !Polled(s.q.status, [1]);
    assert s.q.lanes[RENDER].Ids() == [0];
  }

  ghost function WithReader(s: Sys): Sys
    requires TwoWriters(s)
  {
    CanIntrude(s, BLITTER, 0, false, false);
    Submitted(Opened(s), Intruder(s, BLITTER, 0, false, false))
  }

  lemma ReaderIs(s: Sys)
    requires TwoWriters(s)
    ensures var s' := WithReader(s);
            && NobodyBanned(s') && s'.q.status == [Pending, Pending, Pending]
            && s'.q.requests.Keys == s.q.requests.Keys + {2} && s'.q.requests[2].deps == [[1]]
            && s'.q.requests[2].uses == [User(false, false)]
            && 0 in s'.q.requests && s'.q.requests[0] == s.q.requests[0] && 1 in s'.q.requests && s'.q.requests[1] == s.q.requests[1]
  {
    ThirdReads(s);
    var r := JoinedIs(s, BLITTER, false, false);
  }

  lemma ReaderRuns(s: Sys)
    requires NobodyBanned(s) && s.q.status == [Pending, Pending, Pending]
    requires 1 in s.q.requests && s.q.requests[1].deps == [] && 2 in s.q.requests && s.q.requests[2].deps == [[1]]
    ensures !Doomed(s, 2)
  {
    assert !Doomed(s, 1);
  }

  lemma ReaderPasses(s: Sys) returns (rest: seq<Step>, s': Sys)
    requires TwoWriters(s) && Lasting(Opened(s))
    ensures Overtakes(WithReader(s), 2, 0, rest, s')
  {
    ThirdReads(s);
    ReaderIs(s);
    ReaderRuns(WithReader(s));
    assert s.q.lanes[RENDER].Ids() == [0];
    rest, s' := CanOvertake(Opened(s), Intruder(s, BLITTER, 0, false, false), 0);
  }

  /** `c` has been started although the earlier `a`, with which it conflicts, is unretired, and neither lists an
      asynchronous object. */
  ghost predicate Overtook(q: Queues, a: nat, c: nat) {
    && a < c && a in q.requests && c in q.requests && q.Live(a) && WasStarted(q, c)
    && Conflict(q.requests[a], q.requests[c]) && NoAsync(q.requests[a].uses) && NoAsync(q.requests[c].uses)
  }

  /** A writes on the render engine; B writes the same object on the blitter, asynchronously; C then reads it there.
      C waits for B alone, so it can run while A still writes: A and C conflict, and neither is asynchronous. */
  lemma AsyncUncoversOthers()
    ensures exists steps, s, a, c :: Run(INIT, steps, s) && Overtook(s.q, a, c)
  {
    var s2 := SecondWriter();
    ReachStep(s2, Life(Open), true);
    ReachedInv(Opened(s2), true);
    BareInv(Opened(s2));
    var rest, s := ReaderPasses(s2);
    ReachJoined(s2, BLITTER, false, false, true);
    ReaderIs(s2);
    OvertookAtEnd(WithReader(s2), rest, s);
  }

  lemma OvertookAtEnd(mid: Sys, rest: seq<Step>, s: Sys)
    requires Reached(mid, true) && Overtakes(mid, 2, 0, rest, s) && |mid.q.status| == 3
    requires 0 in mid.q.requests && mid.q.requests[0].uses == [User(true, false)]
    requires 2 in mid.q.requests && mid.q.requests[2].uses == [User(false, false)]
    ensures exists steps, s, a, c :: Run(INIT, steps, s) && Overtook(s.q, a, c)
  {
    var first :| PlainRun(INIT, first, mid, true);
    PlainIsCalm(INIT, first, mid, true);
    CalmIsRun(INIT, first, mid);
    RunConcat(INIT, first, mid, rest, s);
    RunKeeps(mid, rest, s, 0);
    RunKeeps(mid, rest, s, 2);
    assert User(true, false) in s.q.requests[0].uses && User(false, false) in s.q.requests[2].uses;
    assert Overtook(s.q, 0, 2);
  }

  // ------------------------------------------------------------------------
  // Refused submissions
  // ------------------------------------------------------------------------

  /** The writer is unretired when another submission that writes the object there is refused. */
  lemma HiddenWriter(s: Sys)
    requires OneWriter(s)
    ensures Room(s, RENDER, 0) && CanSubmit(Opened(s), Intruder(s, RENDER, 0, true, false))
    ensures var p := Intruder(s, RENDER, 0, true, false);
            && !Spares(s.q, s.slots, RENDER, p.uses, false) && !SparesOrder(s.q, s.slots, RENDER, p.uses)
  {
    CanIntrude(s, RENDER, 0, true, false);
    var p := Intruder(s, RENDER, 0, true, false);
    var u, v := User(true, false), p.uses[0];
    assert s.q.lanes[RENDER].Ids() == [0] && s.q.Live(0);
    assert u in s.q.requests[0].uses && v in p.uses;
    var left := Spent(s.slots[0], RENDER, true);
    assert left.users == [[], []] && left.write == [];
    assert !Behind(s.q, [], 0);
    assert s.q.lanes[BLITTER].queue == [];
    assert !Blocks(s.q, 0);
    assert !Guarded(s.q, left, 0, false) && !Lined(s.q, left, 0, true);
  }

  lemma RefusedEnd(s: Sys, p: Submission, steps: seq<Step>, s': Sys, wild: bool) returns (all: seq<Step>)
    requires Reached(s, wild) && CanSubmit(s, p) && PlainRun(RefusedSys(s, p, -EIO), steps, s', wild)
    ensures Run(INIT, all, s')
  {
    var first :| PlainRun(INIT, first, s, wild);
    PlainIsCalm(INIT, first, s, wild);
    CalmIsRun(INIT, first, s, wild);
    PlainIsCalm(RefusedSys(s, p, -EIO), steps, s', wild);
    CalmIsRun(RefusedSys(s, p, -EIO), steps, s', wild);
    var t := Refused(p, -EIO);
    var last := [t] + steps;
    assert last[1..] == steps && Apply(s, t) == RefusedSys(s, p, -EIO);
    RunConcat(INIT, first, s, last, s');
    all := first + last;
  }

  /** The object then looks idle, its binding may go, and the writer is still to run. */
  lemma RefusalHidesUser()
    ensures exists steps, s, id :: Run(INIT, steps, s) && s.q.Live(id) && !KeptAlive(s, id)
  {
    var s1 := FirstWriter(false);
    ReachStep(s1, Life(Open), false);
    var s, p := Opened(s1), Intruder(s1, RENDER, 0, true, false);
    ReachedInv(s, false);
    HiddenWriter(s1);
    UnsparedLoses(s, p, -EIO, false);
    var steps, s', id :| PlainRun(RefusedSys(s, p, -EIO), steps, s', false) && s'.q.Live(id) && !KeptAlive(s', id);
    var all := RefusedEnd(s, p, steps, s', false);
  }

  /** And a conflicting request may run before it. */
  lemma RefusalMisorders()
    ensures exists steps, s :: Run(INIT, steps, s) && !Serialized(s.q)
  {
    var s1 := FirstWriter(false);
    ReachStep(s1, Life(Open), false);
    HiddenWriter(s1);
    MisorderedAfter(Opened(s1), Intruder(s1, RENDER, 0, true, false));
  }

  lemma MisorderedAfter(s: Sys, p: Submission)
    requires Reached(s, false) && CanSubmit(s, p) && !SparesOrder(s.q, s.slots, p.engine, p.uses)
    ensures exists steps, s :: Run(INIT, steps, s) && !Serialized(s.q)
  {
    ReachedInv(s, false);
    BareInv(s);
    ReachedLog(s, false);
    UnlinedOvertaken(s, p, -EIO);
    var steps, s' :| PlainRun(RefusedSys(s, p, -EIO), steps, s', false) && !Serialized(s'.q);
    var all := RefusedEnd(s, p, steps, s', false);
  }

  /** A refused submission that only reads the object leaves the writer's fence in place: harmless as long as
      nothing asynchronous is submitted, and not otherwise. */
  lemma RefusedReader(s: Sys)
    requires OneWriter(s) && QueueInv(s.q)
    ensures Room(s, RENDER, 0) && CanSubmit(Opened(s), Intruder(s, RENDER, 0, false, false))
    ensures var p := Intruder(s, RENDER, 0, false, false);
            && Spares(s.q, s.slots, RENDER, p.uses, false) && SparesOrder(s.q, s.slots, RENDER, p.uses)
            && !Spares(s.q, s.slots, RENDER, p.uses, true)
  {
    CanIntrude(s, RENDER, 0, false, false);
    var p := Intruder(s, RENDER, 0, false, false);
    var u, v := User(true, false), p.uses[0];
    assert u in s.q.requests[0].uses && v in p.uses;
    StillLined(s.q, s.slots[0]);
  }

  lemma StillLined(q: Queues, slots: Slots)
    requires QueueInv(q) && q.lanes == [Lane(None, [0]), Lane(None, [])] && slots == Slots([[0], []], [0])
    ensures q.Live(0) && 0 in q.requests && q.requests[0].engine == RENDER && forall id :: q.Live(id) ==> id == 0
    ensures var left := Spent(slots, RENDER, false);
            Guarded(q, left, 0, false) && Lined(q, left, 0, true) && !Guarded(q, left, 0, true)
  {
    assert q.lanes[RENDER].Ids() == [0] && q.lanes[BLITTER].Ids() == [];
    var left := Spent(slots, RENDER, false);
    assert left.users == [[], []] && left.write == [0];
    assert 0 in [0] && Follows(q, 0, 0);
    assert Behind(q, [0], 0) && !Behind(q, [], 0);
    assert !Blocks(q, 0);
  }
}
