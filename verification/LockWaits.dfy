/** Who waits for whom.  CPUs spin for the big kernel lock, for spinlocks, for the mailbox lock and for
    acknowledgements; since every spin serves the spinner's own mailbox, and locks are taken in one order, no CPUs
    wait for each other in a circle. */
module LockWaits {
  import opened Shootdown
  import opened ShootdownSafety

  /** A CPU spinning for a lock has only locks that come before it. */
  ghost predicate InOrder(s: State) {
    forall c: nat | c < |s.cpus| && s.cpus[c].work.Seek? :: Orderly(s, c, s.cpus[c].work.lock)
  }

  lemma StepInOrder(s: State, m: Move)
    requires Inv(s) && InOrder(s) && CanMove(s, m)
    ensures InOrder(Next(s, m))
  {
    if !m.Activate? {
      var t := Next(s, m);
      forall c: nat | c < |t.cpus| && t.cpus[c].work.Seek?
        ensures Orderly(t, c, t.cpus[c].work.lock)
      {
        StepSeeker(s, m, c);
      }
    }
  }

  lemma StepSeeker(s: State, m: Move, c: nat)
    requires Inv(s) && InOrder(s) && CanMove(s, m) && !m.Activate?
    requires |Next(s, m).cpus| == |s.cpus| && c < |s.cpus| && Next(s, m).cpus[c].work.Seek?
    ensures Orderly(Next(s, m), c, Next(s, m).cpus[c].work.lock)
  {
    if m.Step? {
      StepSeekerStep(s, m.cpu, c);
    }
  }

  /** A step of CPU `b` leaves the places of the others, and takes or frees locks for `b` alone. */
  lemma StepOfOne(s: State, b: nat, c: nat)
    requires b < |s.cpus| && c < |s.cpus| && c != b
    ensures |Stepped(s, b).cpus| == |s.cpus| && Stepped(s, b).cpus[c].work == s.cpus[c].work
  {
    match s.cpus[b].work
    case Write(r, start, d, targets) =>
      if d < |s.cpus| {
        DoingKeeps(s.(cpus := s.cpus[d := s.cpus[d].(va := r.va, pages := r.pages)]), b, c, Raise(r, start, d, targets));
      }
    case Raise(r, start, d, targets) =>
      if d < |s.cpus| {
        DoingKeeps(s.(cpus := s.cpus[d := s.cpus[d].(pending := true)]), b, c, Post(r, start, d + 1, targets + [d]));
      }
    case _ =>
  }

  lemma DoingKeeps(s: State, b: nat, c: nat, work: Work)
    requires b < |s.cpus| && c < |s.cpus| && c != b
    ensures |Doing(s, b, work).cpus| == |s.cpus| && Doing(s, b, work).cpus[c] == s.cpus[c]
  {
  }

  lemma StepLocks(s: State, b: nat, c: nat, l: Lock)
    requires b < |s.cpus| && c != b && Has(Stepped(s, b), c, l)
    ensures Has(s, c, l)
  {
  }

  lemma SpinAgain(s: State, b: nat)
    requires b < |s.cpus|
    ensures |Stepped(s, b).cpus| == |s.cpus| && (Stepped(s, b).cpus[b].work.Seek? ==> Stepped(s, b) == s)
  {
    match s.cpus[b].work
    case Run =>
    case Seek(_) =>
    case Local(_, _, _) =>
    case Hail(_, _) =>
    case Post(_, _, _, _) =>
    case Write(r, start, d, targets) =>
      assert d < |s.cpus| ==> Stepped(s, b).cpus[b].work == Raise(r, start, d, targets);
    case Raise(r, start, d, targets) =>
      assert d < |s.cpus| ==> Stepped(s, b).cpus[b].work == Post(r, start, d + 1, targets + [d]);
    case Await(_, _, _, _) =>
  }

  lemma SeekerKept(s: State, t: State, c: nat)
    requires InOrder(s) && c < |s.cpus| == |t.cpus| && t.cpus[c].work == s.cpus[c].work && t.cpus[c].work.Seek?
    requires forall l | Has(t, c, l) :: Has(s, c, l)
    ensures Orderly(t, c, t.cpus[c].work.lock)
  {
    assert Orderly(s, c, s.cpus[c].work.lock);
    forall l | l in t.holder && t.holder[l] == c
      ensures Below(l, t.cpus[c].work.lock)
    {
      assert Has(t, c, l) && Has(s, c, l);
    }
  }

  lemma StepSeekerStep(s: State, b: nat, c: nat)
    requires InOrder(s) && CanMove(s, Step(b))
    requires |Stepped(s, b).cpus| == |s.cpus| && c < |s.cpus| && Stepped(s, b).cpus[c].work.Seek?
    ensures Orderly(Stepped(s, b), c, Stepped(s, b).cpus[c].work.lock)
  {
    if c == b {
      SpinAgain(s, b);
    } else {
      StepOfOne(s, b, c);
      forall l | Has(Stepped(s, b), c, l)
        ensures Has(s, c, l)
      {
        StepLocks(s, b, c, l);
      }
      SeekerKept(s, Stepped(s, b), c);
    }
  }

  lemma {:induction false} RunInOrder(s: State, moves: seq<Move>, t: State)
    requires Inv(s) && InOrder(s) && Runs(s, moves, t)
    ensures Inv(t) && InOrder(t) && t.polling == s.polling
    decreases |moves|
  {
    if moves != [] {
      StepInv(s, moves[0]);
      StepInOrder(s, moves[0]);
      RunInOrder(Next(s, moves[0]), moves[1..], t);
    }
  }

  // --------------------------------------------------------------------------------------------------------------
  // Waiting.

  /** The spin of CPU `c` goes round again. */
  predicate Waits(s: State, c: nat) {
    c < |s.cpus| &&
    match s.cpus[c].work
    case Seek(l) => l in s.holder
    case Hail(_, _) => Mail in s.holder
    case Await(_, _, k, targets) => k < |targets| && targets[k] < |s.cpus| && s.cpus[targets[k]].pending
    case _ => false
  }

  /** What CPU `c` waits for is in the hands of CPU `d`: a lock `d` has, or an acknowledgement it is in no position
      to give. */
  predicate WaitsFor(s: State, c: nat, d: nat) {
    Waits(s, c) && d < |s.cpus| &&
    match s.cpus[c].work
    case Seek(l) => Has(s, d, l)
    case Hail(_, _) => Has(s, d, Mail)
    case Await(_, _, k, targets) => targets[k] == d && !CanServe(s, d)
    case _ => false
  }

  function Top(cpus: seq<Cpu>): (top: nat)
    ensures forall c | 0 <= c < |cpus| && cpus[c].work.Seek? && cpus[c].work.lock.Spin? ::
              cpus[c].work.lock.rank + 1 < top
    ensures top > 0
  {
    if cpus == [] then 1
    else
      var rest, w := Top(cpus[..|cpus| - 1]), cpus[|cpus| - 1].work;
      if w.Seek? && w.lock.Spin? && w.lock.rank + 2 > rest then w.lock.rank + 2 else rest
  }

  /** How far up the order a waiting CPU is. */
  function Level(s: State, c: nat): nat
    requires c < |s.cpus|
  {
    match s.cpus[c].work
    case Seek(Spin(r)) => r + 1
    case Hail(_, _) => Top(s.cpus)
    case Await(_, _, _, _) => Top(s.cpus) + 1
    case _ => 0
  }

  /** Along a chain of waits the level goes up. */
  lemma Rises(s: State, c: nat, d: nat, e: nat)
    requires Inv(s) && InOrder(s) && s.polling && WaitsFor(s, c, d) && WaitsFor(s, d, e)
    ensures Level(s, c) < Level(s, d)
  {
    assert CpuOk(s, c) && CpuOk(s, d);
    var w := s.cpus[c].work;
    if w.Seek? && s.cpus[d].work.Seek? {
      assert Below(w.lock, s.cpus[d].work.lock);
    }
  }

  ghost predicate Chain(s: State, path: seq<nat>) {
    forall i | 0 <= i < |path| - 1 :: WaitsFor(s, path[i], path[i + 1])
  }

  lemma {:induction false} Climbs(s: State, path: seq<nat>, i: nat)
    requires Inv(s) && InOrder(s) && s.polling && Chain(s, path)
    requires 0 < i < |path| && path[0] == path[|path| - 1]
    ensures path[0] < |s.cpus| && path[i] < |s.cpus| && Level(s, path[0]) < Level(s, path[i])
  {
    assert WaitsFor(s, path[i - 1], path[i]) && WaitsFor(s, path[0], path[1]);
    var next := if i + 1 < |path| then path[i + 1] else path[1];
    assert WaitsFor(s, path[i], next);
    Rises(s, path[i - 1], path[i], next);
    if i > 1 {
      Climbs(s, path, i - 1);
    }
  }

  /** In no reachable state do CPUs wait for each other in a circle. */
  lemma NoCircle(s0: State, moves: seq<Move>, s: State, path: seq<nat>)
    requires Initial(s0) && s0.polling && Runs(s0, moves, s)
    requires |path| >= 2 && Chain(s, path)
    ensures path[0] != path[|path| - 1]
  {
    InitialInv(s0);
    RunInOrder(s0, moves, s);
    if path[0] == path[|path| - 1] {
      Climbs(s, path, |path| - 1);
    }
  }

  /** So somebody can always go on: from any CPU, following the waits leads to one whose mailbox is about to be
      served, or to one that is not waiting. */
  lemma SomeoneMoves(s: State, c: nat) returns (d: nat)
    requires Inv(s) && InOrder(s) && s.polling && c < |s.cpus|
    ensures d < |s.cpus| && (CanServe(s, d) || !Waits(s, d))
    decreases if Waits(s, c) then Top(s.cpus) + 2 - Level(s, c) else 0
  {
    d := c;
    assert CpuOk(s, c);
    if Waits(s, c) {
      var w := s.cpus[c].work;
      var h := if w.Seek? then s.holder[w.lock] else if w.Hail? then s.holder[Mail] else w.targets[w.seen];
      assert CpuOk(s, h);
      d := h;
      if !CanServe(s, h) && Waits(s, h) {
        assert WaitsFor(s, c, h);
        var e := Ahead(s, h);
        if WaitsFor(s, h, e) {
          Rises(s, c, h, e);
          d := SomeoneMoves(s, h);
        } else {
          d := e;
        }
      }
    }
  }

  /** A waiting CPU waits for some CPU, or for one about to answer. */
  lemma Ahead(s: State, c: nat) returns (d: nat)
    requires Inv(s) && Waits(s, c)
    ensures d < |s.cpus| && (WaitsFor(s, c, d) || CanServe(s, d))
  {
    assert CpuOk(s, c);
    var w := s.cpus[c].work;
    d := if w.Seek? then s.holder[w.lock] else if w.Hail? then s.holder[Mail] else w.targets[w.seen];
  }
}
