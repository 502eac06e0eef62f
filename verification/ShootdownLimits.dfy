/** What the shootdown relies on: for each of its three provisos, a run that goes wrong without it. */
module ShootdownLimits {
  import opened Basics
  import opened TlbFlush
  import opened Shootdown
  import opened ShootdownSafety
  import opened LockWaits

  // --------------------------------------------------------------------------------------------------------------
  // Following a run.

  lemma {:induction false} RunsThen(s: State, moves: seq<Move>, t: State, m: Move)
    requires Runs(s, moves, t) && CanMove(t, m)
    ensures Runs(s, moves + [m], Next(t, m))
    decreases |moves|
  {
    var longer := moves + [m];
    if moves == [] {
      assert longer[1..] == [];
    } else {
      assert longer[0] == moves[0] && longer[1..] == moves[1..] + [m];
      RunsThen(Next(s, moves[0]), moves[1..], t, m);
    }
  }

  ghost predicate Reaches(s: State, t: State) {
    exists moves :: Runs(s, moves, t)
  }

  lemma Stays(s: State)
    ensures Reaches(s, s)
  {
    assert Runs(s, [], s);
  }

  lemma Onto(s: State, t: State, m: Move)
    requires Reaches(s, t) && CanMove(t, m)
    ensures Reaches(s, Next(t, m))
  {
    var moves :| Runs(s, moves, t);
    RunsThen(s, moves, t, m);
  }

  const PARKED := Cpu(None, KERNEL, {}, false, 0, 0, None, false, Run)

  /** Two CPUs, interrupts off. */
  function Two(active: bool, polling: bool): State {
    State(0, active, polling, [PARKED, PARKED], map[])
  }

  // --------------------------------------------------------------------------------------------------------------
  // Spins that do not serve the mailbox.

  /** CPU 0 has the big kernel lock and waits for CPU 1, which spins for it with interrupts off. */
  predicate Locked(s: State) {
    && |s.cpus| == 2 && !s.polling && Has(s, 0, Kernel)
    && s.cpus[1].work == Seek(Kernel) && s.cpus[1].pending && s.cpus[1].serving == None && !s.cpus[1].irqs
    && s.cpus[0].work.Await? && s.cpus[0].work.targets == [1] && s.cpus[0].work.seen == 0
  }

  const ALL := Request(None, 0, 0)

  function Pair(now: nat, active: bool, polling: bool, a: Cpu, b: Cpu, holder: map<Lock, nat>): State {
    State(now, active, polling, [a, b], holder)
  }

  function At0(work: Work): Cpu { PARKED.(work := work) }

  /** CPU 0 takes the big kernel lock. */
  lemma Enters() returns (s: State)
    ensures Reaches(Two(true, false), s) && s == Pair(2, true, false, PARKED, PARKED, map[Kernel := 0])
  {
    var s0 := Two(true, false);
    Stays(s0);
    Onto(s0, s0, Want(0, Kernel));
    var s1 := Next(s0, Want(0, Kernel));
    assert s1 == Pair(1, true, false, At0(Seek(Kernel)), PARKED, map[]);
    Onto(s0, s1, Step(0));
    s := Next(s1, Step(0));
  }

  /** CPU 1 starts to spin for it, and CPU 0 begins a shootdown of everything. */
  lemma Opens() returns (s: State)
    ensures Reaches(Two(true, false), s)
    ensures s == Pair(4, true, false, At0(Local(ALL, 3, 0)), At0(Seek(Kernel)), map[Kernel := 0])
  {
    var s0 := Two(true, false);
    var s2 := Enters();
    Onto(s0, s2, Want(1, Kernel));
    var s3 := Next(s2, Want(1, Kernel));
    assert s3 == Pair(3, true, false, PARKED, At0(Seek(Kernel)), map[Kernel := 0]);
    Onto(s0, s3, Shoot(0, ALL));
    s := Next(s3, Shoot(0, ALL));
  }

  /** It flushes its own TLB and takes the mailbox lock. */
  lemma Flushes(s0: State, s: State) returns (t: State)
    requires Reaches(s0, s) && s == Pair(4, true, false, At0(Local(ALL, 3, 0)), At0(Seek(Kernel)), map[Kernel := 0])
    ensures Reaches(s0, t)
    ensures t == Pair(7, true, false, At0(Post(ALL, 3, 0, [])), At0(Seek(Kernel)), LOCKS)
  {
    Onto(s0, s, Step(0));
    var s1 := Next(s, Step(0));
    assert FlushRound({}, 0, 0, 0) == {};
    assert s1 == Pair(5, true, false, At0(Local(ALL, 3, 1)), At0(Seek(Kernel)), map[Kernel := 0]);
    Onto(s0, s1, Step(0));
    var s2 := Next(s1, Step(0));
    assert s2 == Pair(6, true, false, At0(Hail(ALL, 3)), At0(Seek(Kernel)), map[Kernel := 0]);
    Onto(s0, s2, Step(0));
    t := Next(s2, Step(0));
  }

  const LOCKS: map<Lock, nat> := map[Kernel := 0, Mail := 0]

  /** It fills CPU 1's mailbox. */
  lemma Fills(s0: State, s: State) returns (t: State)
    requires Reaches(s0, s) && s == Pair(7, true, false, At0(Post(ALL, 3, 0, [])), At0(Seek(Kernel)), LOCKS)
    ensures Reaches(s0, t) && t == Pair(10, true, false, At0(Raise(ALL, 3, 1, [])), At0(Seek(Kernel)), LOCKS)
  {
    Onto(s0, s, Step(0));
    var s1 := Next(s, Step(0));
    assert s1 == Pair(8, true, false, At0(Post(ALL, 3, 1, [])), At0(Seek(Kernel)), LOCKS);
    Onto(s0, s1, Step(0));
    var s2 := Next(s1, Step(0));
    assert s2 == Pair(9, true, false, At0(Write(ALL, 3, 1, [])), At0(Seek(Kernel)), LOCKS);
    Onto(s0, s2, Step(0));
    t := Next(s2, Step(0));
  }

  /** It sets the flag and waits. */
  lemma Posts(s0: State, s: State) returns (t: State)
    requires Reaches(s0, s) && s == Pair(10, true, false, At0(Raise(ALL, 3, 1, [])), At0(Seek(Kernel)), LOCKS)
    ensures Reaches(s0, t)
    ensures t == Pair(12, true, false, At0(Await(ALL, 3, 0, [1])), At0(Seek(Kernel)).(pending := true), LOCKS)
  {
    Onto(s0, s, Step(0));
    var s1 := Next(s, Step(0));
    assert [] + [1] == [1];
    assert s1 == Pair(11, true, false, At0(Post(ALL, 3, 2, [1])), At0(Seek(Kernel)).(pending := true), LOCKS);
    Onto(s0, s1, Step(0));
    t := Next(s1, Step(0));
  }

  lemma LockedStep(s: State, m: Move)
    requires Locked(s) && CanMove(s, m)
    ensures Locked(Next(s, m))
  {
  }

  lemma {:induction false} LockedForever(s: State, moves: seq<Move>, t: State)
    requires Locked(s) && Runs(s, moves, t)
    ensures Locked(t)
    decreases |moves|
  {
    if moves != [] {
      LockedStep(s, moves[0]);
      LockedForever(Next(s, moves[0]), moves[1..], t);
    }
  }

  lemma ReachLocked() returns (s: State)
    ensures Reaches(Two(true, false), s) && Locked(s)
  {
    s := Opens();
    s := Flushes(Two(true, false), s);
    s := Fills(Two(true, false), s);
    s := Posts(Two(true, false), s);
  }

  predicate EachOther(s: State) {
    WaitsFor(s, 0, 1) && WaitsFor(s, 1, 0)
  }

  lemma LockedWaits(s: State)
    requires Locked(s)
    ensures EachOther(s)
  {
  }

  /** If spins did not serve the spinner's mailbox, two CPUs could reach a state in which each waits for the other,
      and nothing that can happen afterwards would ever end it. */
  lemma PollingNeeded()
    ensures Initial(Two(true, false))
    ensures exists s :: Reaches(Two(true, false), s) && forall moves, t :: Runs(s, moves, t) ==> EachOther(t)
  {
    var s := ReachLocked();
    forall moves, t | Runs(s, moves, t)
      ensures EachOther(t)
    {
      LockedForever(s, moves, t);
      LockedWaits(t);
    }
  }

  // --------------------------------------------------------------------------------------------------------------
  // Before the scheduler is active.

  const TOP_PAGE := Request(None, KERNEL_HALF, 1)

  /** The shootdown returns with the other CPU untouched. */
  ghost predicate LeftStale(s0: State, s: State) {
    && Initial(s0) && Reaches(s0, s) && Returning(s, 0)
    && !NoneStale(Stepped(s, 0), s.cpus[0].work.req, s.cpus[0].work.start)
  }

  lemma Parked() returns (s: State)
    ensures Reaches(Two(false, true), s)
    ensures s == Pair(5, false, true, At0(Local(TOP_PAGE, 3, 1)), PARKED.(tlb := {Entry(KERNEL, KERNEL_PAGE, 0)}),
                      map[Kernel := 0])
  {
    var s0, old_ := Two(false, true), PARKED.(tlb := {Entry(KERNEL, KERNEL_PAGE, 0)});
    Stays(s0);
    Onto(s0, s0, Fill(1, KERNEL_PAGE));
    var s1 := Next(s0, Fill(1, KERNEL_PAGE));
    assert {} + {Entry(KERNEL, KERNEL_PAGE, 0)} == {Entry(KERNEL, KERNEL_PAGE, 0)};
    assert s1 == Pair(1, false, true, PARKED, old_, map[]);
    Onto(s0, s1, Want(0, Kernel));
    var s2 := Next(s1, Want(0, Kernel));
    assert s2 == Pair(2, false, true, At0(Seek(Kernel)), old_, map[]);
    Onto(s0, s2, Step(0));
    var s3 := Next(s2, Step(0));
    assert s3 == Pair(3, false, true, PARKED, old_, map[Kernel := 0]);
    s := ParkedShot(s0, s3);
  }

  lemma ParkedShot(s0: State, s: State) returns (t: State)
    requires Reaches(s0, s)
    requires s == Pair(3, false, true, PARKED, PARKED.(tlb := {Entry(KERNEL, KERNEL_PAGE, 0)}), map[Kernel := 0])
    ensures Reaches(s0, t)
    ensures t == Pair(5, false, true, At0(Local(TOP_PAGE, 3, 1)), PARKED.(tlb := {Entry(KERNEL, KERNEL_PAGE, 0)}),
                      map[Kernel := 0])
  {
    var old_ := PARKED.(tlb := {Entry(KERNEL, KERNEL_PAGE, 0)});
    Onto(s0, s, Shoot(0, TOP_PAGE));
    var s1 := Next(s, Shoot(0, TOP_PAGE));
    assert s1 == Pair(4, false, true, At0(Local(TOP_PAGE, 3, 0)), old_, map[Kernel := 0]);
    Onto(s0, s1, Step(0));
    t := Next(s1, Step(0));
    assert FlushRound({}, KERNEL_HALF, 1, 0) == {};
  }

  /** With the scheduler not yet active a shootdown under the big kernel lock returns while a parked CPU still holds
      an older kernel translation. */
  lemma ActiveNeeded()
    ensures exists s :: LeftStale(Two(false, true), s) && Has(s, 0, Kernel) && !s.active
  {
    var s := Parked();
    var e := Entry(KERNEL, KERNEL_PAGE, 0);
    assert e in Stepped(s, 0).cpus[1].tlb && Old(e, TOP_PAGE, 3);
    OffsetOf(KERNEL_HALF, KERNEL_PAGE, 0);
    assert Gone(KERNEL_HALF, 1, 1, KERNEL_PAGE);
    assert !Clean(Stepped(s, 0), 1, TOP_PAGE, 3);
    assert LeftStale(Two(false, true), s);
  }

  // --------------------------------------------------------------------------------------------------------------
  // Without the big kernel lock.

  const USER_PAGE := Request(Some(7), 5 * PAGE, 1)

  // CPU 1 is halfway through a context switch: the process is gone, its tables are still loaded.
  const SWITCHING := PARKED.(loaded := 7, tlb := {Entry(7, 5, 4)})

  lemma Switches() returns (s: State)
    ensures Reaches(Two(true, true), s) && s == Pair(6, true, true, PARKED, SWITCHING, map[Kernel := 1])
  {
    var s0 := Two(true, true);
    Stays(s0);
    Onto(s0, s0, Want(1, Kernel));
    var s1 := Next(s0, Want(1, Kernel));
    assert s1 == Pair(1, true, true, PARKED, At0(Seek(Kernel)), map[]);
    Onto(s0, s1, Step(1));
    var s2 := Next(s1, Step(1));
    assert s2 == Pair(2, true, true, PARKED, PARKED, map[Kernel := 1]);
    Onto(s0, s2, Current(1, Some(7)));
    var s3 := Next(s2, Current(1, Some(7)));
    assert s3 == Pair(3, true, true, PARKED, PARKED.(current := Some(7)), map[Kernel := 1]);
    s := Leaves(s0, s3);
  }

  lemma Leaves(s0: State, s: State) returns (t: State)
    requires Reaches(s0, s) && s == Pair(3, true, true, PARKED, PARKED.(current := Some(7)), map[Kernel := 1])
    ensures Reaches(s0, t) && t == Pair(6, true, true, PARKED, SWITCHING, map[Kernel := 1])
  {
    Onto(s0, s, Load(1, 7, {}));
    var s1 := Next(s, Load(1, 7, {}));
    assert s1 == Pair(4, true, true, PARKED, PARKED.(current := Some(7), loaded := 7), map[Kernel := 1]);
    Onto(s0, s1, Fill(1, 5));
    var s2 := Next(s1, Fill(1, 5));
    assert {} + {Entry(7, 5, 4)} == {Entry(7, 5, 4)};
    assert s2 == Pair(5, true, true, PARKED, SWITCHING.(current := Some(7)), map[Kernel := 1]);
    Onto(s0, s2, Current(1, None));
    t := Next(s2, Current(1, None));
  }

  const BOTH: map<Lock, nat> := map[Kernel := 1, Mail := 0]

  lemma Asks(s0: State, s: State) returns (t: State)
    requires Reaches(s0, s) && s == Pair(6, true, true, PARKED, SWITCHING, map[Kernel := 1])
    ensures Reaches(s0, t) && t == Pair(9, true, true, At0(Post(USER_PAGE, 6, 0, [])), SWITCHING, BOTH)
  {
    Onto(s0, s, Shoot(0, USER_PAGE));
    var s1 := Next(s, Shoot(0, USER_PAGE));
    assert s1 == Pair(7, true, true, At0(Local(USER_PAGE, 6, 1)), SWITCHING, map[Kernel := 1]);
    Onto(s0, s1, Step(0));
    var s2 := Next(s1, Step(0));
    assert s2 == Pair(8, true, true, At0(Hail(USER_PAGE, 6)), SWITCHING, map[Kernel := 1]);
    Onto(s0, s2, Step(0));
    t := Next(s2, Step(0));
  }

  lemma Skips(s0: State, s: State) returns (t: State)
    requires Reaches(s0, s) && s == Pair(9, true, true, At0(Post(USER_PAGE, 6, 0, [])), SWITCHING, BOTH)
    ensures Reaches(s0, t) && t == Pair(12, true, true, At0(Await(USER_PAGE, 6, 0, [])), SWITCHING, BOTH)
  {
    Onto(s0, s, Step(0));
    var s1 := Next(s, Step(0));
    assert s1 == Pair(10, true, true, At0(Post(USER_PAGE, 6, 1, [])), SWITCHING, BOTH);
    Onto(s0, s1, Step(0));
    var s2 := Next(s1, Step(0));
    assert s2 == Pair(11, true, true, At0(Post(USER_PAGE, 6, 2, [])), SWITCHING, BOTH);
    Onto(s0, s2, Step(0));
    t := Next(s2, Step(0));
  }

  /** Without the big kernel lock a sender can pass over a CPU that is between two processes, and return while that
      CPU, whose tables are still loaded, holds an older translation. */
  lemma KernelLockNeeded()
    ensures exists s :: LeftStale(Two(true, true), s) && s.active && !Has(s, 0, Kernel)
  {
    var s := Switches();
    s := Asks(Two(true, true), s);
    s := Skips(Two(true, true), s);
    var e := Entry(7, 5, 4);
    assert e in Stepped(s, 0).cpus[1].tlb && Old(e, USER_PAGE, 6);
    assert Gone(5 * PAGE, 1, 1, 5);
    assert !Clean(Stepped(s, 0), 1, USER_PAGE, 6);
    assert LeftStale(Two(true, true), s);
  }
}
