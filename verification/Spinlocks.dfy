/** The interrupt-saving spinlock, one atomic access a step, for any number of CPUs. */
module Spinlocks {
  /** Where a CPU stands; `saved` are the flags it will restore. */
  datatype Pc =
    | Out
    | Begin(try: bool, saved: bool)    // interrupts are off; about to test and set the word
    | Spin(saved: bool)                // it was set: watching it
    | Test(saved: bool)                // it was seen clear: about to test and set it again
    | Own(saved: bool)                 // the word is this CPU's; about to write the owner
    | In(saved: bool)
    | Drop(saved: bool)                // unlock(): about to clear the owner
    | Clear(saved: bool)               // about to clear the word and restore the flags

  /** `flags` is whether interrupts are on as far as the code around the lock is concerned. */
  datatype Cpu = Cpu(pc: Pc, irqs: bool, flags: bool)

  datatype State = State(locked: bool, owner: nat, cpus: seq<Cpu>)

  datatype Move =
    | Flags(cpu: nat, on: bool)        // sti, cli outside the lock
    | Lock(cpu: nat, try: bool)        // lock() or tryLock() is called
    | Unlock(cpu: nat)
    | Act(cpu: nat)                    // the next access

  function At(s: State, c: nat, pc: Pc): State
    requires c < |s.cpus|
  {
    s.(cpus := s.cpus[c := s.cpus[c].(pc := pc)])
  }

  /** The call is over: the flags are as they were saved. */
  function Restored(s: State, c: nat, saved: bool): State
    requires c < |s.cpus|
  {
    s.(cpus := s.cpus[c := s.cpus[c].(pc := Out, irqs := saved)])
  }

  function Advance(s: State, c: nat): State
    requires c < |s.cpus|
  {
    match s.cpus[c].pc
    case Begin(try, saved) =>
      if !s.locked then At(s.(locked := true), c, Own(saved))
      else if try then Restored(s, c, saved)
      else At(s, c, Spin(saved))
    case Spin(saved) => if s.locked then s else At(s, c, Test(saved))
    case Test(saved) => if s.locked then At(s, c, Spin(saved)) else At(s.(locked := true), c, Own(saved))
    case Own(saved) => At(s.(owner := c + 1), c, In(saved))
    case Drop(saved) => At(s.(owner := 0), c, Clear(saved))
    case Clear(saved) => Restored(s.(locked := false), c, saved)
    case _ => s
  }

  predicate CanMove(s: State, m: Move) {
    m.cpu < |s.cpus| &&
    match m
    case Flags(c, _) => s.cpus[c].pc == Out
    case Lock(c, _) => s.cpus[c].pc == Out
    case Unlock(c) => s.cpus[c].pc.In?
    case Act(c) => !s.cpus[c].pc.Out? && !s.cpus[c].pc.In?
  }

  function Next(s: State, m: Move): State
    requires CanMove(s, m)
  {
    match m
    case Flags(c, on) => s.(cpus := s.cpus[c := s.cpus[c].(irqs := on, flags := on)])
    case Lock(c, try) => s.(cpus := s.cpus[c := s.cpus[c].(pc := Begin(try, s.cpus[c].irqs), irqs := false)])
    case Unlock(c) => At(s, c, Drop(s.cpus[c].pc.saved))
    case Act(c) => Advance(s, c)
  }

  // --------------------------------------------------------------------------------------------------------------
  // What every step keeps.

  /** From the test-and-set that took the lock to the clear that frees it. */
  predicate Holds(s: State, c: nat)
    requires c < |s.cpus|
  {
    var pc := s.cpus[c].pc;
    pc.Own? || pc.In? || pc.Drop? || pc.Clear?
  }

  predicate CpuOk(s: State, c: nat)
    requires c < |s.cpus|
  {
    var cpu := s.cpus[c];
    && (s.owner == c + 1 <==> cpu.pc.In? || cpu.pc.Drop?)
    && (if cpu.pc.Out? then cpu.irqs == cpu.flags else !cpu.irqs && cpu.pc.saved == cpu.flags)
  }

  ghost predicate Inv(s: State) {
    && (forall c: nat | c < |s.cpus| :: CpuOk(s, c))
    && (forall c: nat, d: nat | c < |s.cpus| && d < |s.cpus| && Holds(s, c) && Holds(s, d) :: c == d)
    && (s.locked <==> exists c: nat :: c < |s.cpus| && Holds(s, c))
  }

  /** Only a CPU that finds the lock free comes to hold it. */
  lemma TakesFree(s: State, m: Move)
    requires CanMove(s, m)
    ensures |Next(s, m).cpus| == |s.cpus|
    ensures forall d: nat | d < |s.cpus| && d != m.cpu :: Holds(Next(s, m), d) == Holds(s, d)
    ensures Holds(Next(s, m), m.cpu) && !Holds(s, m.cpu) ==> !s.locked && Next(s, m).locked
    ensures Holds(Next(s, m), m.cpu) && Holds(s, m.cpu) ==> Next(s, m).locked == s.locked
    ensures !Holds(Next(s, m), m.cpu) ==> Next(s, m).locked == (s.locked && !Holds(s, m.cpu))
  {
  }

  lemma StepOwner(s: State, m: Move, d: nat)
    requires Inv(s) && CanMove(s, m) && d < |s.cpus|
    ensures d < |Next(s, m).cpus| && CpuOk(Next(s, m), d)
  {
    assert CpuOk(s, m.cpu) && CpuOk(s, d);
    assert Holds(s, m.cpu) && Holds(s, d) ==> m.cpu == d;
  }

  lemma StepInv(s: State, m: Move)
    requires Inv(s) && CanMove(s, m)
    ensures Inv(Next(s, m))
  {
    var t, c := Next(s, m), m.cpu;
    TakesFree(s, m);
    forall d: nat | d < |t.cpus|
      ensures CpuOk(t, d)
    {
      StepOwner(s, m, d);
    }
    forall d: nat, e: nat | d < |t.cpus| && e < |t.cpus| && Holds(t, d) && Holds(t, e)
      ensures d == e
    {
      assert d != c ==> Holds(s, d);
      assert e != c ==> Holds(s, e);
    }
    if t.locked && !Holds(t, c) {
      var d: nat :| d < |s.cpus| && Holds(s, d);
      assert Holds(t, d);
    }
    if d: nat :| d < |t.cpus| && Holds(t, d) && d != c {
      assert Holds(s, d);
    }
  }

  ghost predicate Runs(s: State, moves: seq<Move>, t: State)
    decreases |moves|
  {
    if moves == [] then s == t else CanMove(s, moves[0]) && Runs(Next(s, moves[0]), moves[1..], t)
  }

  ghost predicate Initial(s: State) {
    !s.locked && s.owner == 0 && forall c: nat | c < |s.cpus| :: s.cpus[c].pc == Out && s.cpus[c].irqs == s.cpus[c].flags
  }

  lemma {:induction false} RunInv(s: State, moves: seq<Move>, t: State)
    requires Inv(s) && Runs(s, moves, t)
    ensures Inv(t)
    decreases |moves|
  {
    if moves != [] {
      StepInv(s, moves[0]);
      RunInv(Next(s, moves[0]), moves[1..], t);
    }
  }

  /** In every interleaving: at most one CPU is past the test-and-set; a CPU outside the lock's functions is told by
      heldByThisCpu() exactly whether it is in; interrupts are off from the call to the end of unlock() and are then
      what they were, also after a tryLock() that failed. */
  lemma Exclusive(s: State, moves: seq<Move>, t: State)
    requires Initial(s) && Runs(s, moves, t)
    ensures forall c: nat, d: nat | c < |t.cpus| && d < |t.cpus| && Holds(t, c) && Holds(t, d) :: c == d
    ensures forall c: nat | c < |t.cpus| && (t.cpus[c].pc.Out? || t.cpus[c].pc.In?) ::
              (t.locked && t.owner == c + 1) == t.cpus[c].pc.In?
    ensures forall c: nat | c < |t.cpus| :: t.cpus[c].irqs == (t.cpus[c].pc.Out? && t.cpus[c].flags)
  {
    assert Inv(s);
    RunInv(s, moves, t);
    forall c: nat | c < |t.cpus|
      ensures t.cpus[c].irqs == (t.cpus[c].pc.Out? && t.cpus[c].flags)
      ensures t.cpus[c].pc.Out? || t.cpus[c].pc.In? ==> (t.locked && t.owner == c + 1) == t.cpus[c].pc.In?
    {
      assert CpuOk(t, c) && (Holds(t, c) ==> t.locked);
    }
  }

  // --------------------------------------------------------------------------------------------------------------
  // When a call must succeed.

  /** Asked for, the lock is given exactly when nobody has it, and tryLock() is refused exactly when somebody does. */
  lemma GivenWhenFree(s: State, c: nat)
    requires Inv(s) && CanMove(s, Act(c)) && (s.cpus[c].pc.Begin? || s.cpus[c].pc.Test?)
    ensures var free, t := forall d: nat | d < |s.cpus| :: !Holds(s, d), Next(s, Act(c));
            && (Holds(t, c) <==> free)
            && (s.cpus[c].pc.Begin? && s.cpus[c].pc.try ==> (t.cpus[c].pc == Out <==> !free))
            && (t.cpus[c].pc.Spin? <==> !free && !(s.cpus[c].pc.Begin? && s.cpus[c].pc.try))
  {
  }

  /** Left alone, lock() and tryLock() of a free lock are through after two accesses, and so is unlock(). */
  lemma Uncontended(s: State, c: nat)
    requires Inv(s) && CanMove(s, Act(c))
    ensures var t := Advance(s, c);
            && c < |t.cpus|
            && (s.cpus[c].pc.Begin? && !s.locked ==> Advance(t, c).cpus[c].pc == In(s.cpus[c].pc.saved) && Advance(t, c).owner == c + 1)
            && (s.cpus[c].pc.Drop? ==> Advance(t, c).cpus[c].pc == Out && !Advance(t, c).locked && Advance(t, c).owner == 0
                                       && Advance(t, c).cpus[c].irqs == s.cpus[c].pc.saved)
            && (s.cpus[c].pc.Spin? && !s.locked ==> Advance(t, c).cpus[c].pc == Own(s.cpus[c].pc.saved))
  {
  }
}
