/** The big kernel lock: a test-and-set word, the owning CPU and a nesting depth, shared by any number of CPUs.
    Every atomic access is one step, so two CPUs may be anywhere inside the lock's functions at once.  The nesting
    belongs to a context (a process or an idle loop): a context switch leaves the lock with the CPU and gives the
    resumed context its own depth back. */
module KernelLock {
  // s_depth is a uint32_t.
  const WORD: nat := 0x1_0000_0000

  datatype Op =
    | Enter
    | TryEnter
    | Leave
    | ReleaseAll
    | Depth
    | Suspend
    | Resume(depth: nat)
    | SetDepth(depth: nat)

  /** What a context has seen of the lock: each finished call with its answer, and the depth it was started with. */
  datatype Event =
    | Entered
    | Tried(ok: bool)
    | Left(held: bool)
    | Released(held: bool)
    | Told(depth: nat)
    | Suspended(depth: nat)
    | Resumed(depth: nat)
    | Handed(depth: nat)
    | Born(depth: nat)

  /** Where a CPU stands. */
  datatype Pc =
    | Rest                  // outside the lock's functions
    | Start(op: Op)         // about to read s_owner
    | Test(op: Op)          // about to test and set s_locked
    | Spin(op: Op)          // s_locked was set: watching it
    | Peek                  // tryEnter() reads s_locked first
    | Own(op: Op)           // s_locked is set by this CPU; about to write s_owner
    | Count(op: Op)         // about to write the first s_depth
    | Put(depth: nat)       // resume() is past enter(); about to write the saved depth
    | Inside(op: Op)        // s_owner was this CPU; about to use s_depth
    | Drop(end: Event)      // unlock(): about to clear s_owner
    | Zero(end: Event)      // about to clear s_depth
    | Clear(end: Event)     // about to clear s_locked

  datatype Cpu = Cpu(context: nat, pc: Pc)

  /** `logs` has an entry for every context that may run again, `saved` one for every context switched away. */
  datatype State = State(locked: bool, owner: nat, depth: nat, cpus: seq<Cpu>,
                         logs: map<nat, seq<Event>>, saved: map<nat, nat>)

  datatype Move =
    | Call(cpu: nat, op: Op)
    | Act(cpu: nat)
    | Switch(cpu: nat, next: nat, keep: bool)

  // --------------------------------------------------------------------------------------------------------------
  // The reference: a context's nesting is what counting its own calls gives.

  function After(n: nat, e: Event): nat {
    match e
    case Entered => n + 1
    case Tried(ok) => if ok then n + 1 else n
    case Left(_) => if n == 0 then 0 else n - 1
    case Released(_) => 0
    case Told(_) => n
    case Suspended(_) => 0
    case Resumed(d) => if d == 0 then n else d
    case Handed(d) => if n == 0 then 0 else d
    case Born(d) => d
  }

  /** The answer of a call is the one the nesting before it calls for. */
  predicate Right(n: nat, e: Event) {
    match e
    case Tried(ok) => n > 0 ==> ok
    case Left(held) => held == (n > 0)
    case Released(held) => held == (n > 0)
    case Told(d) => d == n
    case Suspended(d) => d == n
    case _ => true
  }

  function Nesting(log: seq<Event>): nat {
    if log == [] then 0 else After(Nesting(log[..|log| - 1]), log[|log| - 1])
  }

  predicate Truthful(log: seq<Event>) {
    log != [] ==> Truthful(log[..|log| - 1]) && Right(Nesting(log[..|log| - 1]), log[|log| - 1])
  }

  lemma Logged(log: seq<Event>, e: Event)
    ensures Nesting(log + [e]) == After(Nesting(log), e)
    ensures Truthful(log + [e]) == (Truthful(log) && Right(Nesting(log), e))
  {
    var longer := log + [e];
    assert longer[..|longer| - 1] == log && longer[|longer| - 1] == e;
  }

  lemma BornWith(depth: nat)
    ensures Nesting([Born(depth)]) == depth && Truthful([Born(depth)])
  {
    Logged([], Born(depth));
    assert [] + [Born(depth)] == [Born(depth)];
  }

  // --------------------------------------------------------------------------------------------------------------
  // The steps.

  function Up(depth: nat): nat { (depth + 1) % WORD }

  function Down(depth: nat): nat { (depth + WORD - 1) % WORD }

  predicate Known(s: State, c: nat) {
    c < |s.cpus| && s.cpus[c].context in s.logs
  }

  function Log(s: State, c: nat): seq<Event>
    requires Known(s, c)
  {
    s.logs[s.cpus[c].context]
  }

  function Nest(s: State, c: nat): nat
    requires Known(s, c)
  {
    Nesting(Log(s, c))
  }

  function At(s: State, c: nat, pc: Pc): State
    requires c < |s.cpus|
  {
    s.(cpus := s.cpus[c := s.cpus[c].(pc := pc)])
  }

  /** The call of CPU `c` is over. */
  function Return(s: State, c: nat, e: Event): State
    requires Known(s, c)
  {
    var x := s.cpus[c].context;
    At(s, c, Rest).(logs := s.logs[x := s.logs[x] + [e]])
  }

  /** A call by a CPU that found another owner, or none. */
  function Outside(s: State, c: nat, op: Op): State
    requires Known(s, c)
  {
    match op
    case Enter => At(s, c, Test(op))
    case Resume(_) => At(s, c, Test(op))
    case TryEnter => At(s, c, Peek)
    case Leave => Return(s, c, Left(false))
    case ReleaseAll => Return(s, c, Released(false))
    case Depth => Return(s, c, Told(0))
    case Suspend => Return(s, c, Suspended(0))
    case SetDepth(d) => Return(s, c, Handed(d))
  }

  /** A call by the owner. */
  function Within(s: State, c: nat, op: Op): State
    requires Known(s, c)
  {
    match op
    case Enter => Return(s.(depth := Up(s.depth)), c, Entered)
    case TryEnter => Return(s.(depth := Up(s.depth)), c, Tried(true))
    case Resume(d) => At(s.(depth := Up(s.depth)), c, Put(d))
    case Leave =>
      var t := s.(depth := Down(s.depth));
      if t.depth == 0 then At(t, c, Drop(Left(true))) else Return(t, c, Left(true))
    case ReleaseAll => At(s, c, Drop(Released(true)))
    case Depth => Return(s, c, Told(s.depth))
    case Suspend => if s.depth != 0 then At(s, c, Drop(Suspended(s.depth))) else Return(s, c, Suspended(0))
    case SetDepth(d) => if d == 0 then At(s, c, Drop(Handed(0))) else Return(s.(depth := d), c, Handed(d))
  }

  /** The lock is this CPU's and both words are written. */
  function Taken(s: State, c: nat, op: Op): State
    requires Known(s, c)
  {
    match op
    case Resume(d) => At(s, c, Put(d))
    case TryEnter => Return(s, c, Tried(true))
    case _ => Return(s, c, Entered)
  }

  /** The next atomic access of CPU `c`. */
  function Advance(s: State, c: nat): State
    requires Known(s, c)
  {
    match s.cpus[c].pc
    case Rest => s
    case Start(op) =>
      if op == Resume(0) then Return(s, c, Resumed(0))
      else if s.owner == c + 1 then At(s, c, Inside(op))
      else Outside(s, c, op)
    case Test(op) =>
      if !s.locked then At(s.(locked := true), c, Own(op))
      else if op == TryEnter then Return(s, c, Tried(false))
      else At(s, c, Spin(op))
    case Spin(op) => if s.locked then s else At(s, c, Test(op))
    case Peek => if s.locked then Return(s, c, Tried(false)) else At(s, c, Test(TryEnter))
    case Own(op) => At(s.(owner := c + 1), c, Count(op))
    case Count(op) => Taken(s.(depth := 1), c, op)
    case Put(d) => Return(s.(depth := d), c, Resumed(d))
    case Inside(op) => Within(s, c, op)
    case Drop(e) => At(s.(owner := 0), c, Zero(e))
    case Zero(e) => At(s.(depth := 0), c, Clear(e))
    case Clear(e) => Return(s.(locked := false), c, e)
  }

  /** The running context is put away with its depth, or dropped if nothing comes back to it. */
  function PutAway(s: State, c: nat, keep: bool): State
    requires Known(s, c)
  {
    var x := s.cpus[c].context;
    if keep then s.(saved := s.saved[x := s.depth]) else s.(logs := s.logs - {x})
  }

  /** A context switched away before goes on by restoring its depth; a new one starts with the depth it finds. */
  function BringIn(s: State, c: nat, next: nat): State
    requires c < |s.cpus|
  {
    if next in s.saved then
      s.(cpus := s.cpus[c := Cpu(next, Start(SetDepth(s.saved[next])))], saved := s.saved - {next})
    else
      s.(cpus := s.cpus[c := Cpu(next, Rest)], logs := s.logs[next := [Born(s.depth)]])
  }

  predicate OpOk(op: Op) {
    match op
    case Resume(d) => d < WORD
    case SetDepth(d) => d < WORD
    case _ => true
  }

  predicate CanMove(s: State, m: Move) {
    match m
    case Call(c, op) => Known(s, c) && s.cpus[c].pc == Rest && OpOk(op)
    case Act(c) => Known(s, c) && s.cpus[c].pc != Rest
    case Switch(c, next, _) =>
      Known(s, c) && s.cpus[c].pc == Rest && s.owner == c + 1 && (next in s.saved || next !in s.logs)
  }

  function Next(s: State, m: Move): State
    requires CanMove(s, m)
  {
    match m
    case Call(c, op) => At(s, c, Start(op))
    case Act(c) => Advance(s, c)
    case Switch(c, next, keep) => BringIn(PutAway(s, c, keep), c, next)
  }

  // --------------------------------------------------------------------------------------------------------------
  // What every step keeps.

  /** CPU `c` has the lock, from the test-and-set that took it to the clear that frees it. */
  predicate Holds(s: State, c: nat)
    requires c < |s.cpus|
  {
    match s.cpus[c].pc
    case Rest => s.owner == c + 1
    case Start(_) => s.owner == c + 1
    case Test(_) => false
    case Spin(_) => false
    case Peek => false
    case _ => true
  }

  predicate Taking(op: Op) {
    op == Enter || op == TryEnter || (op.Resume? && 0 < op.depth < WORD)
  }

  predicate DepthRight(s: State, n: nat, op: Op) {
    n > 0 && (op.SetDepth? || s.depth == n)
  }

  predicate CpuOk(s: State, c: nat)
    requires c < |s.cpus|
  {
    Known(s, c) &&
    var n := Nest(s, c);
    match s.cpus[c].pc
    case Rest => if s.owner == c + 1 then n > 0 && s.depth == n else n == 0
    case Start(op) => OpOk(op) && if s.owner == c + 1 then DepthRight(s, n, op) else n == 0
    case Test(op) => s.owner != c + 1 && n == 0 && Taking(op)
    case Spin(op) => s.owner != c + 1 && n == 0 && Taking(op)
    case Peek => s.owner != c + 1 && n == 0
    case Own(op) => s.owner == 0 && n == 0 && Taking(op)
    case Count(op) => s.owner == c + 1 && n == 0 && Taking(op)
    case Put(d) => s.owner == c + 1 && 0 < d < WORD
    case Inside(op) => s.owner == c + 1 && OpOk(op) && op != Resume(0) && DepthRight(s, n, op)
    case Drop(e) => s.owner == c + 1 && Right(n, e) && After(n, e) == 0
    case Zero(e) => s.owner == 0 && Right(n, e) && After(n, e) == 0
    case Clear(e) => s.owner == 0 && Right(n, e) && After(n, e) == 0
  }

  ghost predicate CpusOk(s: State) {
    forall c | 0 <= c < |s.cpus| :: CpuOk(s, c)
  }

  ghost predicate OneHolder(s: State) {
    && (forall c, d | 0 <= c < |s.cpus| && 0 <= d < |s.cpus| && Holds(s, c) && Holds(s, d) :: c == d)
    && (s.locked <==> exists c :: 0 <= c < |s.cpus| && Holds(s, c))
    && s.owner <= |s.cpus|
  }

  ghost predicate Apart(s: State) {
    && (forall c, d | 0 <= c < d < |s.cpus| :: s.cpus[c].context != s.cpus[d].context)
    && (forall c | 0 <= c < |s.cpus| :: s.cpus[c].context !in s.saved)
  }

  ghost predicate SavedOk(s: State) {
    forall x | x in s.saved :: x in s.logs && s.saved[x] == Nesting(s.logs[x]) && 0 < s.saved[x] < WORD
  }

  ghost predicate LogsOk(s: State) {
    forall x | x in s.logs :: Truthful(s.logs[x])
  }

  ghost predicate ContextsOk(s: State) {
    Apart(s) && SavedOk(s) && LogsOk(s)
  }

  /** No context nests 2^32 deep (every level is a frame on its kernel stack). */
  ghost predicate Shallow(s: State) {
    forall x | x in s.logs :: Nesting(s.logs[x]) < WORD
  }

  ghost predicate Inv(s: State) {
    CpusOk(s) && OneHolder(s) && ContextsOk(s) && Shallow(s)
  }

  /** What a step of CPU `c` can do to the rest: without the lock it changes neither owner nor depth, with it the
      owner stays `c` or nobody; it takes the lock only when it is free; its own context's log alone may grow. */
  ghost predicate ByOne(s: State, t: State, c: nat)
    requires CpusOk(s) && c < |s.cpus|
  {
    && |t.cpus| == |s.cpus| && t.cpus == s.cpus[c := t.cpus[c]] && t.cpus[c].context == s.cpus[c].context
    && t.saved == s.saved
    && (t.logs == s.logs || exists e :: Grown(s, t, c, e))
    && (if Holds(s, c) then t.owner == 0 || t.owner == c + 1 else t.owner == s.owner && t.depth == s.depth)
    && (Holds(t, c) == Holds(s, c) ==> t.locked == s.locked)
    && (Holds(t, c) && !Holds(s, c) ==> t.locked && !s.locked)
    && (Holds(s, c) && !Holds(t, c) ==> !t.locked)
  }

  ghost predicate Grown(s: State, t: State, c: nat, e: Event)
    requires c < |s.cpus| && CpuOk(s, c)
  {
    t.logs == s.logs[s.cpus[c].context := Log(s, c) + [e]] && Right(Nest(s, c), e)
  }

  lemma OthersOk(s: State, t: State, c: nat)
    requires CpusOk(s) && OneHolder(s) && ContextsOk(s) && c < |s.cpus| && ByOne(s, t, c)
    ensures forall d | 0 <= d < |s.cpus| && d != c :: CpuOk(t, d) && Holds(t, d) == Holds(s, d)
  {
    forall d | 0 <= d < |s.cpus| && d != c
      ensures CpuOk(t, d) && Holds(t, d) == Holds(s, d)
    {
      assert CpuOk(s, d) && t.cpus[d] == s.cpus[d];
      assert Known(t, d) && Log(t, d) == Log(s, d);
      assert Holds(s, c) ==> !Holds(s, d);
    }
  }

  lemma OneHolderKept(s: State, t: State, c: nat)
    requires CpusOk(s) && OneHolder(s) && c < |s.cpus| && ByOne(s, t, c)
    requires forall d | 0 <= d < |s.cpus| && d != c :: Holds(t, d) == Holds(s, d)
    ensures OneHolder(t)
  {
    forall d, e | 0 <= d < |t.cpus| && 0 <= e < |t.cpus| && Holds(t, d) && Holds(t, e)
      ensures d == e
    {
      assert d != c ==> Holds(s, d);
      assert e != c ==> Holds(s, e);
    }
    if t.locked && !Holds(t, c) {
      var d :| 0 <= d < |s.cpus| && Holds(s, d);
      assert Holds(t, d);
    }
    if d :| 0 <= d < |t.cpus| && Holds(t, d) {
      assert d != c ==> Holds(s, d);
      assert d != c && Holds(s, c) ==> c == d;
    }
  }

  lemma ContextsKept(s: State, t: State, c: nat)
    requires CpusOk(s) && ContextsOk(s) && c < |s.cpus| && ByOne(s, t, c)
    ensures ContextsOk(t)
  {
    forall x | x in t.logs
      ensures Truthful(t.logs[x])
    {
      if t.logs != s.logs {
        assert CpuOk(s, c);
        var e :| Grown(s, t, c, e);
        Logged(Log(s, c), e);
      }
    }
  }

  // --------------------------------------------------------------------------------------------------------------
  // Each step does no more than that, and leaves its own CPU in order.

  ghost predicate StepOk(s: State, t: State, c: nat)
    requires CpusOk(s) && c < |s.cpus|
  {
    ByOne(s, t, c) && CpuOk(t, c)
  }

  lemma ReturnOk(s: State, u: State, c: nat, e: Event)
    requires CpusOk(s) && c < |s.cpus| && CpuOk(s, c) && u.cpus == s.cpus && u.logs == s.logs && u.saved == s.saved
    requires Right(Nest(s, c), e)
    requires if Holds(s, c) then u.owner == 0 || u.owner == c + 1 else u.owner == s.owner && u.depth == s.depth
    requires (u.owner == c + 1) == Holds(s, c) ==> u.locked == s.locked
    requires u.owner == c + 1 ==> Holds(s, c)
    requires Holds(s, c) && u.owner == 0 ==> !u.locked
    requires if u.owner == c + 1 then After(Nest(s, c), e) == u.depth && u.depth > 0 else After(Nest(s, c), e) == 0
    ensures StepOk(s, Return(u, c, e), c)
  {
    Logged(Log(s, c), e);
    var t := Return(u, c, e);
    assert Log(t, c) == Log(s, c) + [e];
    assert Grown(s, t, c, e);
  }

  lemma AtOk(s: State, u: State, c: nat, pc: Pc)
    requires CpusOk(s) && c < |s.cpus| && u.cpus == s.cpus && u.logs == s.logs && u.saved == s.saved
    requires if Holds(s, c) then u.owner == 0 || u.owner == c + 1 else u.owner == s.owner && u.depth == s.depth
    requires CpuOk(At(u, c, pc), c)
    requires if Holds(At(u, c, pc), c) == Holds(s, c) then u.locked == s.locked else Holds(At(u, c, pc), c) && u.locked && !s.locked
    ensures StepOk(s, At(u, c, pc), c)
  {
  }

  lemma OutsideOk(s: State, c: nat, op: Op)
    requires CpusOk(s) && c < |s.cpus| && CpuOk(s, c)
    requires s.cpus[c].pc == Start(op) && op != Resume(0) && s.owner != c + 1
    ensures StepOk(s, Outside(s, c, op), c)
  {
    match op
    case Leave => ReturnOk(s, s, c, Left(false));
    case ReleaseAll => ReturnOk(s, s, c, Released(false));
    case Depth => ReturnOk(s, s, c, Told(0));
    case Suspend => ReturnOk(s, s, c, Suspended(0));
    case SetDepth(d) => ReturnOk(s, s, c, Handed(d));
    case TryEnter => AtOk(s, s, c, Peek);
    case _ => AtOk(s, s, c, Test(op));
  }

  /** A nested call of the owner. */
  lemma DeeperOk(s: State, c: nat, op: Op)
    requires Inv(s) && c < |s.cpus| && CpuOk(s, c) && s.cpus[c].pc == Inside(op) && Shallow(Within(s, c, op))
    requires op.Enter? || op.TryEnter? || op.Resume?
    ensures StepOk(s, Within(s, c, op), c)
  {
    var up := s.(depth := Up(s.depth));
    if op.Resume? {
      AtOk(s, up, c, Put(op.depth));
    } else {
      var e := if op.Enter? then Entered else Tried(true);
      Logged(Log(s, c), e);
      assert Log(Within(s, c, op), c) == Log(s, c) + [e];
      ReturnOk(s, up, c, e);
    }
  }

  lemma ShallowerOk(s: State, c: nat, op: Op)
    requires Inv(s) && c < |s.cpus| && CpuOk(s, c) && s.cpus[c].pc == Inside(op)
    requires op.Leave? || op.SetDepth?
    ensures StepOk(s, Within(s, c, op), c)
  {
    assert Nest(s, c) < WORD;
    var down := s.(depth := Down(s.depth));
    match op
    case Leave =>
      if down.depth == 0 { AtOk(s, down, c, Drop(Left(true))); } else { ReturnOk(s, down, c, Left(true)); }
    case SetDepth(d) =>
      if d == 0 { AtOk(s, s, c, Drop(Handed(0))); } else { ReturnOk(s, s.(depth := d), c, Handed(d)); }
  }

  lemma WithinOk(s: State, c: nat, op: Op)
    requires Inv(s) && c < |s.cpus| && CpuOk(s, c) && s.cpus[c].pc == Inside(op) && Shallow(Within(s, c, op))
    ensures StepOk(s, Within(s, c, op), c)
  {
    match op
    case Leave => ShallowerOk(s, c, op);
    case SetDepth(_) => ShallowerOk(s, c, op);
    case Depth => ReturnOk(s, s, c, Told(s.depth));
    case ReleaseAll => AtOk(s, s, c, Drop(Released(true)));
    case Suspend => AtOk(s, s, c, Drop(Suspended(s.depth)));
    case _ => DeeperOk(s, c, op);
  }

  /** The steps of a CPU that has not taken the lock. */
  lemma SeekingOk(s: State, c: nat)
    requires Inv(s) && c < |s.cpus| && CpuOk(s, c)
    requires var pc := s.cpus[c].pc; pc.Test? || pc.Spin? || pc.Peek?
    ensures StepOk(s, Advance(s, c), c)
  {
    match s.cpus[c].pc
    case Test(op) =>
      if !s.locked {
        OwnerHolds(s);
        AtOk(s, s.(locked := true), c, Own(op));
      } else if op == TryEnter {
        ReturnOk(s, s, c, Tried(false));
      } else {
        AtOk(s, s, c, Spin(op));
      }
    case Spin(op) => if !s.locked { AtOk(s, s, c, Test(op)); }
    case Peek => if s.locked { ReturnOk(s, s, c, Tried(false)); } else { AtOk(s, s, c, Test(TryEnter)); }
  }

  /** The steps that write the lock's words. */
  lemma WritingOk(s: State, c: nat)
    requires Inv(s) && c < |s.cpus| && CpuOk(s, c)
    requires var pc := s.cpus[c].pc; pc.Own? || pc.Count? || pc.Put? || pc.Drop? || pc.Zero? || pc.Clear?
    ensures StepOk(s, Advance(s, c), c)
  {
    match s.cpus[c].pc
    case Own(op) => AtOk(s, s.(owner := c + 1), c, Count(op));
    case Count(op) => TakenOk(s, c, op);
    case Put(d) => ReturnOk(s, s.(depth := d), c, Resumed(d));
    case Drop(e) => AtOk(s, s.(owner := 0), c, Zero(e));
    case Zero(e) => AtOk(s, s.(depth := 0), c, Clear(e));
    case Clear(e) => ReturnOk(s, s.(locked := false), c, e);
  }

  lemma StartOk(s: State, c: nat, op: Op)
    requires Inv(s) && c < |s.cpus| && CpuOk(s, c) && s.cpus[c].pc == Start(op)
    ensures StepOk(s, Advance(s, c), c)
  {
    if op == Resume(0) {
      ReturnOk(s, s, c, Resumed(0));
    } else if s.owner == c + 1 {
      AtOk(s, s, c, Inside(op));
    } else {
      OutsideOk(s, c, op);
    }
  }

  lemma AdvanceOk(s: State, c: nat)
    requires Inv(s) && CanMove(s, Act(c)) && Shallow(Advance(s, c))
    ensures StepOk(s, Advance(s, c), c)
  {
    assert CpuOk(s, c);
    match s.cpus[c].pc
    case Start(op) => StartOk(s, c, op);
    case Inside(op) => WithinOk(s, c, op);
    case Test(_) => SeekingOk(s, c);
    case Spin(_) => SeekingOk(s, c);
    case Peek => SeekingOk(s, c);
    case _ => WritingOk(s, c);
  }

  lemma OwnerHolds(s: State)
    requires CpusOk(s) && OneHolder(s)
    ensures s.owner != 0 ==> Holds(s, s.owner - 1)
    ensures !s.locked ==> s.owner == 0
  {
    if s.owner != 0 {
      assert CpuOk(s, s.owner - 1);
      assert Holds(s, s.owner - 1);
    }
  }

  lemma TakenOk(s: State, c: nat, op: Op)
    requires CpusOk(s) && c < |s.cpus| && CpuOk(s, c) && s.cpus[c].pc == Count(op)
    ensures StepOk(s, Taken(s.(depth := 1), c, op), c)
  {
    var u := s.(depth := 1);
    match op
    case Enter => ReturnOk(s, u, c, Entered);
    case TryEnter => ReturnOk(s, u, c, Tried(true));
    case _ =>
  }

  // --------------------------------------------------------------------------------------------------------------
  // Runs.

  lemma ActInv(s: State, c: nat)
    requires Inv(s) && CanMove(s, Act(c)) && Shallow(Advance(s, c))
    ensures Inv(Advance(s, c))
  {
    var t := Advance(s, c);
    AdvanceOk(s, c);
    OthersOk(s, t, c);
    OneHolderKept(s, t, c);
    ContextsKept(s, t, c);
  }

  lemma CallInv(s: State, c: nat, op: Op)
    requires Inv(s) && CanMove(s, Call(c, op))
    ensures Inv(At(s, c, Start(op)))
  {
    var t := At(s, c, Start(op));
    assert CpuOk(s, c);
    assert StepOk(s, t, c);
    OthersOk(s, t, c);
    OneHolderKept(s, t, c);
    ContextsKept(s, t, c);
  }

  lemma SwitchOthers(s: State, c: nat, next: nat, keep: bool, d: nat)
    requires Inv(s) && CanMove(s, Switch(c, next, keep)) && d < |s.cpus| && d != c
    ensures CpuOk(Next(s, Switch(c, next, keep)), d)
    ensures Holds(Next(s, Switch(c, next, keep)), d) == Holds(s, d)
  {
    var t := Next(s, Switch(c, next, keep));
    assert CpuOk(s, d) && t.cpus[d] == s.cpus[d];
    assert Known(t, d) && Log(t, d) == Log(s, d);
  }

  lemma SwitchSelf(s: State, c: nat, next: nat, keep: bool)
    requires Inv(s) && CanMove(s, Switch(c, next, keep))
    ensures CpuOk(Next(s, Switch(c, next, keep)), c) && Holds(Next(s, Switch(c, next, keep)), c)
  {
    var t := Next(s, Switch(c, next, keep));
    assert CpuOk(s, c);
    BornWith(s.depth);
  }

  lemma SwitchLogs(s: State, c: nat, next: nat, keep: bool)
    requires Inv(s) && CanMove(s, Switch(c, next, keep))
    ensures LogsOk(Next(s, Switch(c, next, keep))) && Shallow(Next(s, Switch(c, next, keep)))
  {
    var t := Next(s, Switch(c, next, keep));
    assert CpuOk(s, c) && Nest(s, c) < WORD;
    BornWith(s.depth);
    forall x | x in t.logs
      ensures Truthful(t.logs[x]) && Nesting(t.logs[x]) < WORD
    {
      assert t.logs[x] == [Born(s.depth)] || (x in s.logs && t.logs[x] == s.logs[x]);
    }
  }

  lemma SwitchSaved(s: State, c: nat, next: nat, keep: bool)
    requires Inv(s) && CanMove(s, Switch(c, next, keep))
    ensures SavedOk(Next(s, Switch(c, next, keep)))
  {
    var t := Next(s, Switch(c, next, keep));
    assert CpuOk(s, c) && Nest(s, c) < WORD;
    forall x | x in t.saved
      ensures x in t.logs && t.saved[x] == Nesting(t.logs[x]) && 0 < t.saved[x] < WORD
    {
      assert x != next && (x in s.saved || x == s.cpus[c].context);
    }
  }

  lemma SwitchApart(s: State, c: nat, next: nat, keep: bool)
    requires Inv(s) && CanMove(s, Switch(c, next, keep))
    ensures Apart(Next(s, Switch(c, next, keep)))
  {
    var t := Next(s, Switch(c, next, keep));
    assert t.cpus[c].context == next && next !in t.saved;
    forall d | 0 <= d < |t.cpus| && d != c
      ensures t.cpus[d].context == s.cpus[d].context && t.cpus[d].context !in t.saved && t.cpus[d].context != next
    {
      assert CpuOk(s, d);
    }
  }

  /** The lock stays with the CPU; the context that comes in has its own nesting, or starts with what it finds. */
  lemma SwitchInv(s: State, c: nat, next: nat, keep: bool)
    requires Inv(s) && CanMove(s, Switch(c, next, keep))
    ensures Inv(Next(s, Switch(c, next, keep)))
  {
    SwitchSelf(s, c, next, keep);
    SwitchLogs(s, c, next, keep);
    SwitchSaved(s, c, next, keep);
    SwitchApart(s, c, next, keep);
    var t := Next(s, Switch(c, next, keep));
    forall d | 0 <= d < |s.cpus| && d != c
      ensures CpuOk(t, d) && Holds(t, d) == Holds(s, d)
    {
      SwitchOthers(s, c, next, keep, d);
    }
    assert Holds(s, c) && Holds(t, c);
  }

  ghost predicate Runs(s: State, moves: seq<Move>, t: State)
    decreases |moves|
  {
    if moves == [] then s == t
    else CanMove(s, moves[0]) && Shallow(Next(s, moves[0])) && Runs(Next(s, moves[0]), moves[1..], t)
  }

  /** Lock free, every CPU outside it with a context of its own. */
  ghost predicate Initial(s: State) {
    && !s.locked && s.owner == 0 && s.saved == map[]
    && (forall c | 0 <= c < |s.cpus| :: s.cpus[c].pc == Rest && s.cpus[c].context in s.logs)
    && (forall c, d | 0 <= c < d < |s.cpus| :: s.cpus[c].context != s.cpus[d].context)
    && (forall x | x in s.logs :: s.logs[x] == [])
  }

  lemma StepInv(s: State, m: Move)
    requires Inv(s) && CanMove(s, m) && Shallow(Next(s, m))
    ensures Inv(Next(s, m))
  {
    match m
    case Call(c, op) => CallInv(s, c, op);
    case Act(c) => ActInv(s, c);
    case Switch(c, next, keep) => SwitchInv(s, c, next, keep);
  }

  lemma {:induction false} RunInv(s: State, moves: seq<Move>, t: State)
    requires Inv(s) && Runs(s, moves, t)
    ensures Inv(t)
    decreases |moves|
  {
    if moves != [] {
      StepInv(s, moves[0]);
      RunInv(Next(s, moves[0]), moves[1..], t);
    }
  }

  /** In every state any interleaving of the CPUs reaches: at most one CPU has the lock; a CPU between calls has it
      exactly when its context's calls leave a positive nesting, and that nesting is the depth; and every answer a
      context ever got from the lock is the one its own calls determine. */
  lemma Exclusive(s: State, moves: seq<Move>, t: State)
    requires Initial(s) && Runs(s, moves, t)
    ensures forall c, d | 0 <= c < |t.cpus| && 0 <= d < |t.cpus| && Holds(t, c) && Holds(t, d) :: c == d
    ensures t.locked <==> exists c :: 0 <= c < |t.cpus| && Holds(t, c)
    ensures forall c | 0 <= c < |t.cpus| && t.cpus[c].pc == Rest ::
              && Known(t, c)
              && (t.owner == c + 1 <==> Nest(t, c) > 0) && (t.owner == c + 1 ==> t.depth == Nest(t, c))
    ensures forall x | x in t.saved :: x in t.logs && t.saved[x] == Nesting(t.logs[x])
    ensures forall x | x in t.logs :: Truthful(t.logs[x])
  {
    assert Inv(s);
    RunInv(s, moves, t);
    forall c | 0 <= c < |t.cpus| && t.cpus[c].pc == Rest
      ensures Known(t, c) && (t.owner == c + 1 <==> Nest(t, c) > 0) && (t.owner == c + 1 ==> t.depth == Nest(t, c))
    {
      assert CpuOk(t, c);
    }
  }

  function Mover(m: Move): nat { m.cpu }

  /** Seen as a whole the lock is one atomic lock: a step changes who has it for the moving CPU alone, and gives it
      to that CPU only when nobody has it. */
  lemma Atomic(s: State, m: Move)
    requires Inv(s) && CanMove(s, m) && Shallow(Next(s, m))
    ensures |Next(s, m).cpus| == |s.cpus|
    ensures forall d | 0 <= d < |s.cpus| && d != Mover(m) :: Holds(Next(s, m), d) == Holds(s, d)
    ensures Holds(Next(s, m), Mover(m)) && !Holds(s, Mover(m)) ==> forall d | 0 <= d < |s.cpus| :: !Holds(s, d)
  {
    match m
    case Call(c, op) =>
      assert CpuOk(s, c);
      assert StepOk(s, Next(s, m), c);
      OthersOk(s, Next(s, m), c);
    case Act(c) =>
      AdvanceOk(s, c);
      OthersOk(s, Next(s, m), c);
    case Switch(c, next, keep) =>
      forall d | 0 <= d < |s.cpus| && d != c
        ensures Holds(Next(s, m), d) == Holds(s, d)
      {
        SwitchOthers(s, c, next, keep, d);
      }
  }

  lemma {:induction false} TruthfulPrefix(log: seq<Event>, rest: seq<Event>)
    requires Truthful(log + rest)
    ensures Truthful(log)
    decreases |rest|
  {
    if rest == [] {
      assert log + rest == log;
    } else {
      var most, last := rest[..|rest| - 1], rest[|rest| - 1];
      assert log + rest == (log + most) + [last];
      Logged(log + most, last);
      TruthfulPrefix(log, most);
    }
  }

  /** Dropping the lock with suspend() and handing its answer to resume() gives a context its nesting back, whatever
      it did in between. */
  lemma SuspendResume(log: seq<Event>, depth: nat, between: seq<Event>)
    requires Truthful(log + [Suspended(depth)] + between + [Resumed(depth)])
    ensures Nesting(log) == depth && Nesting(log + [Suspended(depth)]) == 0
    ensures Nesting(log + [Suspended(depth)] + between + [Resumed(depth)])
         == if depth == 0 then Nesting(log + [Suspended(0)] + between) else Nesting(log)
  {
    var asleep := log + [Suspended(depth)];
    Logged(log, Suspended(depth));
    Logged(asleep + between, Resumed(depth));
    TruthfulPrefix(asleep, between);
  }

  // --------------------------------------------------------------------------------------------------------------
  // However deep.

  /** What the owner's word says of a CPU, whatever the depth. */
  predicate Stands(s: State, c: nat)
    requires c < |s.cpus|
  {
    match s.cpus[c].pc
    case Rest => true
    case Start(_) => true
    case Test(_) => s.owner != c + 1
    case Spin(_) => s.owner != c + 1
    case Peek => s.owner != c + 1
    case Own(_) => s.owner == 0
    case Zero(_) => s.owner == 0
    case Clear(_) => s.owner == 0
    case _ => s.owner == c + 1
  }

  ghost predicate AllStand(s: State) {
    OneHolder(s) && forall c | 0 <= c < |s.cpus| :: Stands(s, c)
  }

  ghost predicate Takes(s: State, t: State, c: nat)
    requires c < |s.cpus|
  {
    && |t.cpus| == |s.cpus| && t.cpus == s.cpus[c := t.cpus[c]]
    && (if Holds(s, c) then t.owner == 0 || t.owner == c + 1 else t.owner == s.owner)
    && (Holds(t, c) == Holds(s, c) ==> t.locked == s.locked)
    && (Holds(t, c) && !Holds(s, c) ==> t.locked && !s.locked)
    && (Holds(s, c) && !Holds(t, c) ==> !t.locked)
  }

  lemma StandsKept(s: State, t: State, c: nat)
    requires AllStand(s) && c < |s.cpus| && Takes(s, t, c) && Stands(t, c)
    ensures AllStand(t)
  {
    forall d | 0 <= d < |s.cpus| && d != c
      ensures Stands(t, d) && Holds(t, d) == Holds(s, d)
    {
      assert Stands(s, d) && t.cpus[d] == s.cpus[d];
      assert Holds(s, c) ==> !Holds(s, d);
    }
    forall d, e | 0 <= d < |t.cpus| && 0 <= e < |t.cpus| && Holds(t, d) && Holds(t, e)
      ensures d == e
    {
      assert d != c ==> Holds(s, d);
      assert e != c ==> Holds(s, e);
    }
    if t.locked && !Holds(t, c) {
      var d :| 0 <= d < |s.cpus| && Holds(s, d);
      assert Holds(t, d);
    }
    if d :| 0 <= d < |t.cpus| && Holds(t, d) {
      assert d != c ==> Holds(s, d);
      assert d != c && Holds(s, c) ==> c == d;
    }
  }

  lemma FreeOwner(s: State)
    requires AllStand(s) && !s.locked
    ensures s.owner == 0
  {
    if s.owner != 0 {
      assert Stands(s, s.owner - 1);
      assert Holds(s, s.owner - 1);
    }
  }

  lemma StepStands(s: State, m: Move)
    requires AllStand(s) && CanMove(s, m)
    ensures AllStand(Next(s, m))
  {
    var c := Mover(m);
    assert Stands(s, c);
    if !s.locked {
      FreeOwner(s);
    }
    StandsKept(s, Next(s, m), c);
  }

  ghost predicate Goes(s: State, moves: seq<Move>, t: State)
    decreases |moves|
  {
    if moves == [] then s == t else CanMove(s, moves[0]) && Goes(Next(s, moves[0]), moves[1..], t)
  }

  lemma {:induction false} GoesStands(s: State, moves: seq<Move>, t: State)
    requires AllStand(s) && Goes(s, moves, t)
    ensures AllStand(t)
    decreases |moves|
  {
    if moves != [] {
      StepStands(s, moves[0]);
      GoesStands(Next(s, moves[0]), moves[1..], t);
    }
  }

  /** At most one CPU has the lock, in every state of every run, even where the depth has wrapped round. */
  lemma ExclusiveAlways(s: State, moves: seq<Move>, t: State)
    requires Initial(s) && Goes(s, moves, t)
    ensures forall c, d | 0 <= c < |t.cpus| && 0 <= d < |t.cpus| && Holds(t, c) && Holds(t, d) :: c == d
    ensures t.locked <==> exists c :: 0 <= c < |t.cpus| && Holds(t, c)
  {
    GoesStands(s, moves, t);
  }

  /** The depth is the nesting of the context whose CPU has the lock, between calls. */
  ghost predicate Counted(s: State) {
    forall c | 0 <= c < |s.cpus| && s.cpus[c].pc == Rest && s.owner == c + 1 :: Known(s, c) && s.depth == Nest(s, c)
  }

  ghost predicate CountedRun(s: State, moves: seq<Move>, t: State)
    decreases |moves|
  {
    if moves == [] then s == t
    else CanMove(s, moves[0]) && Counted(Next(s, moves[0])) && CountedRun(Next(s, moves[0]), moves[1..], t)
  }

  lemma LogEnd(s: State, u: State, c: nat, e: Event)
    requires Known(s, c) && Shallow(s) && u.cpus == s.cpus && u.logs == s.logs
    ensures Shallow(Return(u, c, e)) <==> After(Nest(s, c), e) < WORD
    ensures Known(Return(u, c, e), c) && Nest(Return(u, c, e), c) == After(Nest(s, c), e)
  {
    Logged(Log(s, c), e);
    var t := Return(u, c, e);
    assert Log(t, c) == Log(s, c) + [e];
  }

  lemma EndShallow(s: State, u: State, c: nat, e: Event)
    requires Known(s, c) && Shallow(s) && u.cpus == s.cpus && u.logs == s.logs && After(Nest(s, c), e) < WORD
    ensures Shallow(Return(u, c, e))
  {
    LogEnd(s, u, c, e);
  }

  lemma AtShallow(s: State, u: State, c: nat, pc: Pc)
    requires c < |s.cpus| && Shallow(s) && u.cpus == s.cpus && u.logs == s.logs
    ensures Shallow(At(u, c, pc))
  {
  }

  /** A context gets 2^32 deep by a nested entry alone, and is then not counted. */
  lemma DeepestInside(s: State, c: nat, op: Op)
    requires Inv(s) && c < |s.cpus| && CpuOk(s, c) && s.cpus[c].pc == Inside(op)
    ensures Shallow(Within(s, c, op)) || !Counted(Within(s, c, op))
  {
    assert Nest(s, c) < WORD;
    match op
    case Enter => LogEnd(s, s.(depth := Up(s.depth)), c, Entered);
    case TryEnter => LogEnd(s, s.(depth := Up(s.depth)), c, Tried(true));
    case Leave => LogEnd(s, s.(depth := Down(s.depth)), c, Left(true));
    case Depth => LogEnd(s, s, c, Told(s.depth));
    case Suspend => LogEnd(s, s, c, Suspended(0));
    case SetDepth(d) => LogEnd(s, s.(depth := d), c, Handed(d));
    case _ =>
  }

  lemma ShallowStart(s: State, c: nat, op: Op)
    requires Inv(s) && c < |s.cpus| && CpuOk(s, c) && s.cpus[c].pc == Start(op)
    ensures Shallow(Advance(s, c))
  {
    if op == Resume(0) {
      LogEnd(s, s, c, Resumed(0));
    } else if s.owner != c + 1 {
      ShallowOutside(s, c, op);
    }
  }

  /** A call that does nothing leaves the nesting at 0. */
  lemma ShallowOutside(s: State, c: nat, op: Op)
    requires Shallow(s) && Known(s, c) && Nest(s, c) == 0
    ensures Shallow(Outside(s, c, op))
  {
    match op
    case Enter => AtShallow(s, s, c, Test(op));
    case Resume(_) => AtShallow(s, s, c, Test(op));
    case TryEnter => AtShallow(s, s, c, Peek);
    case Leave => EndShallow(s, s, c, Left(false));
    case ReleaseAll => EndShallow(s, s, c, Released(false));
    case Depth => EndShallow(s, s, c, Told(0));
    case Suspend => EndShallow(s, s, c, Suspended(0));
    case SetDepth(d) => EndShallow(s, s, c, Handed(d));
  }

  lemma ShallowWriting(s: State, c: nat)
    requires Inv(s) && c < |s.cpus| && CpuOk(s, c)
    requires var pc := s.cpus[c].pc; !pc.Inside? && !pc.Start?
    ensures Shallow(Advance(s, c))
  {
    match s.cpus[c].pc
    case Rest =>
    case Test(op) => ShallowTest(s, c, op);
    case Spin(op) => AtShallow(s, s, c, Test(op));
    case Peek => EndShallow(s, s, c, Tried(false)); AtShallow(s, s, c, Test(TryEnter));
    case Own(op) => AtShallow(s, s.(owner := c + 1), c, Count(op));
    case Count(op) => ShallowCount(s, c, op);
    case Put(d) => EndShallow(s, s.(depth := d), c, Resumed(d));
    case Drop(e) => AtShallow(s, s.(owner := 0), c, Zero(e));
    case Zero(e) => AtShallow(s, s.(depth := 0), c, Clear(e));
    case Clear(e) => EndShallow(s, s.(locked := false), c, e);
  }

  lemma ShallowTest(s: State, c: nat, op: Op)
    requires Shallow(s) && Known(s, c) && Nest(s, c) == 0 && s.cpus[c].pc == Test(op)
    ensures Shallow(Advance(s, c))
  {
    AtShallow(s, s.(locked := true), c, Own(op));
    AtShallow(s, s, c, Spin(op));
    EndShallow(s, s, c, Tried(false));
  }

  lemma ShallowCount(s: State, c: nat, op: Op)
    requires Shallow(s) && Known(s, c) && Nest(s, c) == 0
    ensures Shallow(Taken(s.(depth := 1), c, op))
  {
    var u := s.(depth := 1);
    match op
    case Resume(d) => AtShallow(s, u, c, Put(d));
    case TryEnter => EndShallow(s, u, c, Tried(true));
    case _ => EndShallow(s, u, c, Entered);
  }

  lemma DeepestMove(s: State, m: Move)
    requires Inv(s) && CanMove(s, m)
    ensures Shallow(Next(s, m)) || !Counted(Next(s, m))
  {
    assert CpuOk(s, m.cpu);
    match m
    case Call(_, _) =>
    case Act(c) =>
      match s.cpus[c].pc {
        case Inside(op) => DeepestInside(s, c, op);
        case Start(op) => ShallowStart(s, c, op);
        case _ => ShallowWriting(s, c);
      }
    case Switch(c, next, keep) => SwitchLogs(s, c, next, keep);
  }

  lemma ShallowMove(s: State, m: Move)
    requires Inv(s) && CanMove(s, m) && Shallow(Next(s, m))
    ensures Inv(Next(s, m)) && Counted(Next(s, m))
  {
    StepInv(s, m);
    forall c | 0 <= c < |Next(s, m).cpus| && Next(s, m).cpus[c].pc == Rest && Next(s, m).owner == c + 1
      ensures Known(Next(s, m), c) && Next(s, m).depth == Nest(Next(s, m), c)
    {
      assert CpuOk(Next(s, m), c);
    }
  }

  lemma {:induction false} CountsFrom(s: State, moves: seq<Move>, t: State)
    requires Inv(s) && Goes(s, moves, t)
    ensures CountedRun(s, moves, t) <==> Runs(s, moves, t)
    decreases |moves|
  {
    if moves != [] {
      if Shallow(Next(s, moves[0])) {
        ShallowMove(s, moves[0]);
        CountsFrom(Next(s, moves[0]), moves[1..], t);
      } else {
        DeepestMove(s, moves[0]);
      }
    }
  }

  /** The depth is a 32-bit word. Whichever calls count on it, it is the nesting throughout a run if and only if no
      context ever nests 2^32 deep. */
  lemma CountsExactly(s: State, moves: seq<Move>, t: State)
    requires Initial(s) && Goes(s, moves, t)
    ensures CountedRun(s, moves, t) <==> Runs(s, moves, t)
  {
    assert Inv(s);
    CountsFrom(s, moves, t);
  }

  /** A nested entry, of `enter` or `tryEnter`, is counted exactly when the nesting stays below 2^32. */
  lemma DeepestEnter(s: State, c: nat, op: Op)
    requires Inv(s) && CanMove(s, Act(c)) && s.cpus[c].pc == Inside(op) && (op.Enter? || op.TryEnter?)
    ensures var t := Advance(s, c); Known(t, c) && (t.depth == Nest(t, c) <==> Nest(s, c) + 1 < WORD)
  {
    assert CpuOk(s, c) && Nest(s, c) < WORD;
    LogEnd(s, s.(depth := Up(s.depth)), c, if op.Enter? then Entered else Tried(true));
  }

  /** What `resume` counts on its way in is written over: its depth is right however deep the nesting was. */
  lemma DeepestResume(s: State, c: nat, depth: nat)
    requires Inv(s) && CanMove(s, Act(c)) && s.cpus[c].pc == Put(depth)
    ensures var t := Advance(s, c); Known(t, c) && t.depth == Nest(t, c) == depth
  {
    assert CpuOk(s, c);
    LogEnd(s, s.(depth := depth), c, Resumed(depth));
  }

  // --------------------------------------------------------------------------------------------------------------
  // When a call must succeed, and that it returns.

  ghost predicate Nobody(s: State) {
    forall d: nat | d < |s.cpus| :: !Holds(s, d)
  }

  lemma NobodyIs(s: State)
    requires AllStand(s)
    ensures Nobody(s) <==> !s.locked
  {
  }

  /** Asked for, the lock is given exactly when nobody has it; a spinning CPU asks again exactly then, and tryEnter() is
      refused exactly otherwise. */
  lemma GivenWhenFree(s: State, c: nat)
    requires AllStand(s) && CanMove(s, Act(c))
    ensures var pc, t := s.cpus[c].pc, Advance(s, c);
            && c < |t.cpus|
            && (pc.Test? ==> (Holds(t, c) <==> Nobody(s)))
            && (pc.Spin? ==> t.cpus[c].pc == if Nobody(s) then Test(pc.op) else pc)
            && (pc.Peek? ==> if Nobody(s) then t.cpus[c].pc == Test(TryEnter) else Known(t, c) && Log(t, c) == Log(s, c) + [Tried(false)])
            && (pc == Test(TryEnter) && !Nobody(s) ==> Known(t, c) && Log(t, c) == Log(s, c) + [Tried(false)])
  {
    NobodyIs(s);
    assert Stands(s, c);
  }

  /** How many accesses a call still takes if no other CPU has the lock. */
  function ToGo(pc: Pc): nat {
    match pc
    case Rest => 0
    case Start(_) => 6
    case Peek => 5
    case Spin(_) => 5
    case Test(_) => 4
    case Inside(_) => 4
    case Own(_) => 3
    case Drop(_) => 3
    case Count(_) => 2
    case Zero(_) => 2
    case Put(_) => 1
    case Clear(_) => 1
  }

  ghost predicate Undisturbed(s: State, c: nat) {
    AllStand(s) && Known(s, c) && forall d: nat | d < |s.cpus| && d != c :: !Holds(s, d)
  }

  lemma ComesNearer(s: State, c: nat)
    requires Undisturbed(s, c) && s.cpus[c].pc != Rest
    ensures Undisturbed(Advance(s, c), c) && ToGo(Advance(s, c).cpus[c].pc) < ToGo(s.cpus[c].pc)
  {
    var t := Advance(s, c);
    StepStands(s, Act(c));
    NobodyIs(s);
    assert Stands(s, c);
    forall d: nat | d < |t.cpus| && d != c
      ensures !Holds(t, d)
    {
      OthersHold(s, c, d);
    }
  }

  lemma OthersHold(s: State, c: nat, d: nat)
    requires Undisturbed(s, c) && d < |s.cpus| && d != c && s.cpus[c].pc != Rest
    ensures |Advance(s, c).cpus| == |s.cpus| && !Holds(Advance(s, c), d)
  {
    assert Advance(s, c).cpus[d] == s.cpus[d] && !Holds(s, d) && Stands(s, c);
    StepStands(s, Act(c));
  }

  ghost function Accesses(s: State, c: nat, n: nat): State
    decreases n
  {
    if n == 0 || !Known(s, c) then s else Accesses(Advance(s, c), c, n - 1)
  }

  /** Every call returns: with no other CPU in the way, after at most six accesses. */
  lemma {:induction false} Returns(s: State, c: nat) returns (n: nat)
    requires Undisturbed(s, c)
    ensures n <= ToGo(s.cpus[c].pc) && c < |Accesses(s, c, n).cpus| && Accesses(s, c, n).cpus[c].pc == Rest
    decreases ToGo(s.cpus[c].pc)
  {
    if s.cpus[c].pc == Rest {
      n := 0;
    } else {
      ComesNearer(s, c);
      var m := Returns(Advance(s, c), c);
      n := m + 1;
    }
  }

  /** What a call may be logged as. */
  predicate Answers(op: Op, e: Event) {
    match op
    case Enter => e == Entered
    case TryEnter => e.Tried?
    case Leave => e.Left?
    case ReleaseAll => e.Released?
    case Depth => e.Told?
    case Suspend => e.Suspended?
    case Resume(d) => e == Resumed(d)
    case SetDepth(d) => e == Handed(d)
  }

  /** The CPU is in this call. */
  predicate Serves(pc: Pc, op: Op) {
    match pc
    case Rest => false
    case Peek => op == TryEnter
    case Put(d) => op == Resume(d)
    case Drop(e) => Answers(op, e)
    case Zero(e) => Answers(op, e)
    case Clear(e) => Answers(op, e)
    case _ => pc.op == op
  }

  ghost predicate KeptOrLogged(s: State, t: State, c: nat, op: Op)
    requires Known(s, c)
  {
    && Known(t, c)
    && (Serves(t.cpus[c].pc, op) || (t.cpus[c].pc == Rest && exists e :: Answers(op, e) && Log(t, c) == Log(s, c) + [e]))
  }

  lemma LoggedAs(s: State, u: State, c: nat, op: Op, e: Event)
    requires Known(s, c) && u.cpus == s.cpus && u.logs == s.logs && Answers(op, e)
    ensures KeptOrLogged(s, Return(u, c, e), c, op)
  {
    assert Log(Return(u, c, e), c) == Log(s, c) + [e];
  }

  lemma InsideKept(s: State, c: nat, op: Op)
    requires CanMove(s, Act(c)) && s.cpus[c].pc == Inside(op)
    ensures KeptOrLogged(s, Advance(s, c), c, op)
  {
    var up, down := s.(depth := Up(s.depth)), s.(depth := Down(s.depth));
    match op
    case Enter => LoggedAs(s, up, c, op, Entered);
    case TryEnter => LoggedAs(s, up, c, op, Tried(true));
    case Leave => LoggedAs(s, down, c, op, Left(true));
    case Depth => LoggedAs(s, s, c, op, Told(s.depth));
    case Suspend => LoggedAs(s, s, c, op, Suspended(0));
    case SetDepth(d) => LoggedAs(s, s.(depth := d), c, op, Handed(d));
    case _ =>
  }

  lemma StartKept(s: State, c: nat, op: Op)
    requires CanMove(s, Act(c)) && s.cpus[c].pc == Start(op)
    ensures KeptOrLogged(s, Advance(s, c), c, op)
  {
    match op
    case Leave => LoggedAs(s, s, c, op, Left(false));
    case ReleaseAll => LoggedAs(s, s, c, op, Released(false));
    case Depth => LoggedAs(s, s, c, op, Told(0));
    case Suspend => LoggedAs(s, s, c, op, Suspended(0));
    case SetDepth(d) => LoggedAs(s, s, c, op, Handed(d));
    case Resume(d) => LoggedAs(s, s, c, op, Resumed(d));
    case _ =>
  }

  /** A call stays what it is until it returns, and is then logged as that. */
  lemma CallKept(s: State, c: nat, op: Op)
    requires CanMove(s, Act(c)) && Serves(s.cpus[c].pc, op)
    requires s.cpus[c].pc.Count? || s.cpus[c].pc.Test? || s.cpus[c].pc.Spin? || s.cpus[c].pc.Own? ==> Taking(op)
    ensures KeptOrLogged(s, Advance(s, c), c, op)
  {
    match s.cpus[c].pc
    case Start(_) => StartKept(s, c, op);
    case Inside(_) => InsideKept(s, c, op);
    case Test(_) => if op == TryEnter { LoggedAs(s, s, c, op, Tried(false)); }
    case Peek => LoggedAs(s, s, c, op, Tried(false));
    case Count(_) => LoggedAs(s, s.(depth := 1), c, op, if op.TryEnter? then Tried(true) else if op.Enter? then Entered else Resumed(op.depth));
    case Put(d) => LoggedAs(s, s.(depth := d), c, op, Resumed(d));
    case Clear(e) => LoggedAs(s, s.(locked := false), c, op, e);
    case _ =>
  }
}
