/** TLB shootdown between any number of CPUs: each has a one-slot mailbox, a set of cached translations that the
    hardware fills whenever it likes, and a place in its own program.  Every access to shared memory is one step.
    Locks are atomic here; KernelLock.Atomic shows the big kernel lock behaves as one. */
module Shootdown {
  import opened Basics
  import opened TlbFlush

  const KERNEL_HALF: nat := 0xFFFF_8000_0000_0000
  const KERNEL_PAGE: nat := 0xF_FFF8_0000_0000

  // The kernel's own address space.
  const KERNEL: nat := 0

  /** The arguments of shootdown(); no space is a null page table. */
  datatype Request = Request(space: Option<nat>, va: nat, pages: nat)

  /** A mailbox request being served: the fields as read, and the flush instructions done. */
  datatype Service = Service(va: nat, pages: nat, done: nat)

  datatype Lock = Kernel | Spin(rank: nat) | Mail

  /** Where a CPU stands.  `start` is when its shootdown() began. */
  datatype Work =
    | Run                                                                    // any other code
    | Seek(lock: Lock)                                                       // spinning for a lock
    | Local(req: Request, start: nat, done: nat)                             // flushing its own TLB
    | Hail(req: Request, start: nat)                                         // spinning for the mailbox lock
    | Post(req: Request, start: nat, next: nat, targets: seq<nat>)           // looking at CPU `next`
    | Write(req: Request, start: nat, next: nat, targets: seq<nat>)          // filling its mailbox
    | Raise(req: Request, start: nat, next: nat, targets: seq<nat>)          // setting its pending flag
    | Await(req: Request, start: nat, seen: nat, targets: seq<nat>)          // waiting for the targets in turn

  /** `current` is the page table of the process the CPU runs, `loaded` the one in its CR3. */
  datatype Cpu = Cpu(current: Option<nat>, loaded: nat, tlb: set<Entry>,
                     pending: bool, va: nat, pages: nat,
                     serving: Option<Service>, irqs: bool, work: Work)

  /** `active` is SMP::schedulingActive().  `polling` says the kernel's spin loops serve the spinner's mailbox: true of
      the code, and a parameter so that what it is for can be stated. */
  datatype State = State(now: nat, active: bool, polling: bool, cpus: seq<Cpu>, holder: map<Lock, nat>)

  datatype Move =
    | Fill(cpu: nat, page: nat)                             // the hardware walks a page table
    | Evict(cpu: nat, entry: Entry)                         // or forgets a translation
    | Serve(cpu: nat)                                       // one step of pollPending(), polled or from the IPI
    | Irqs(cpu: nat, on: bool)
    | Want(cpu: nat, lock: Lock)
    | Release(cpu: nat, lock: Lock)
    | Load(cpu: nat, space: nat, keep: set<Entry>)          // mov cr3; global kernel translations may stay
    | Current(cpu: nat, current: Option<nat>)
    | Shoot(cpu: nat, req: Request)
    | Step(cpu: nat)                                        // the next step of a spin or of shootdown()
    | Activate

  // --------------------------------------------------------------------------------------------------------------
  // The steps.

  predicate Covers(r: Request) {
    r.space == None || r.space == Some(KERNEL) || r.va >= KERNEL_HALF
  }

  predicate MayCache(cpu: Cpu, r: Request) {
    Covers(r) || (cpu.current.Some? && r.space == cpu.current)
  }

  predicate Spinning(w: Work) {
    w.Seek? || w.Hail? || w.Await?
  }

  predicate Has(s: State, c: nat, lock: Lock) {
    lock in s.holder && s.holder[lock] == c
  }

  /** The CPU is on the page table of its process, or on the kernel's. */
  predicate Settled(cpu: Cpu) {
    cpu.loaded == KERNEL || cpu.current == Some(cpu.loaded)
  }

  function At(s: State, c: nat, cpu: Cpu): State
    requires c < |s.cpus|
  {
    s.(cpus := s.cpus[c := cpu], now := s.now + 1)
  }

  function Doing(s: State, c: nat, work: Work): State
    requires c < |s.cpus|
  {
    At(s, c, s.cpus[c].(work := work))
  }

  /** One step of serving the mailbox: read it, flush, flush, ..., clear the flag. */
  function Served(cpu: Cpu): Cpu
    requires cpu.pending
  {
    if cpu.serving == None then cpu.(serving := Some(Service(cpu.va, cpu.pages, 0)))
    else
      var v := cpu.serving.value;
      if v.done < Rounds(v.pages) then
        cpu.(tlb := FlushRound(cpu.tlb, v.va, v.pages, v.done), serving := Some(v.(done := v.done + 1)))
      else
        cpu.(pending := false, serving := None)
  }

  predicate CanServe(s: State, c: nat)
    requires c < |s.cpus|
  {
    var cpu := s.cpus[c];
    cpu.pending && (cpu.serving.Some? || cpu.irqs || (s.polling && Spinning(cpu.work)))
  }

  /** shootdown() begins with this CPU's own translations. */
  function Shot(s: State, c: nat, r: Request): Work
    requires c < |s.cpus|
  {
    var cpu := s.cpus[c];
    if MayCache(cpu, r) || r.space == Some(cpu.loaded) then Local(r, s.now, 0) else Local(r, s.now, Rounds(r.pages))
  }

  function Posting(s: State, c: nat, r: Request, start: nat, next: nat, targets: seq<nat>): State
    requires c < |s.cpus|
  {
    if next >= |s.cpus| then Doing(s, c, Await(r, start, 0, targets))
    else if next == c || !MayCache(s.cpus[next], r) then Doing(s, c, Post(r, start, next + 1, targets))
    else Doing(s, c, Write(r, start, next, targets))
  }

  function Stepped(s: State, c: nat): State
    requires c < |s.cpus|
  {
    var cpu := s.cpus[c];
    match cpu.work
    case Run => s
    case Seek(l) => if l in s.holder then s else Doing(s.(holder := s.holder[l := c]), c, Run)
    case Local(r, start, done) =>
      if done < Rounds(r.pages) then
        At(s, c, cpu.(tlb := FlushRound(cpu.tlb, r.va, r.pages, done), work := Local(r, start, done + 1)))
      else if !s.active || |s.cpus| <= 1 then Doing(s, c, Run)
      else Doing(s, c, Hail(r, start))
    case Hail(r, start) =>
      if Mail in s.holder then s else Doing(s.(holder := s.holder[Mail := c]), c, Post(r, start, 0, []))
    case Post(r, start, next, targets) => Posting(s, c, r, start, next, targets)
    case Write(r, start, d, targets) =>
      if d >= |s.cpus| then s
      else Doing(s.(cpus := s.cpus[d := s.cpus[d].(va := r.va, pages := r.pages)]), c, Raise(r, start, d, targets))
    case Raise(r, start, d, targets) =>
      if d >= |s.cpus| then s
      else Doing(s.(cpus := s.cpus[d := s.cpus[d].(pending := true)]), c, Post(r, start, d + 1, targets + [d]))
    case Await(r, start, k, targets) =>
      if k >= |targets| then Doing(s.(holder := s.holder - {Mail}), c, Run)
      else if targets[k] < |s.cpus| && s.cpus[targets[k]].pending then s
      else Doing(s, c, Await(r, start, k + 1, targets))
  }

  /** The order locks are taken in: the big kernel lock, then spinlocks by rank, then the mailbox lock. */
  predicate Below(a: Lock, b: Lock) {
    match b
    case Kernel => false
    case Spin(r) => a.Kernel? || (a.Spin? && a.rank < r)
    case Mail => !a.Mail?
  }

  predicate Orderly(s: State, c: nat, lock: Lock) {
    forall l | l in s.holder && s.holder[l] == c :: Below(l, lock)
  }

  predicate Idle(s: State, c: nat) {
    c < |s.cpus| && s.cpus[c].serving == None && s.cpus[c].work == Run
  }

  predicate CanMove(s: State, m: Move) {
    match m
    case Fill(c, page) => c < |s.cpus| && page < PAGES
    case Evict(c, _) => c < |s.cpus|
    case Serve(c) => c < |s.cpus| && CanServe(s, c)
    case Irqs(c, _) => Idle(s, c)
    case Want(c, lock) => Idle(s, c) && lock != Mail && Orderly(s, c, lock)
    case Release(c, lock) => Idle(s, c) && lock != Mail && Has(s, c, lock) && (lock == Kernel ==> Settled(s.cpus[c]))
    case Load(c, _, keep) =>
      Idle(s, c) && Has(s, c, Kernel) && keep <= s.cpus[c].tlb && forall e | e in keep :: e.page >= KERNEL_PAGE
    case Current(c, _) => Idle(s, c) && Has(s, c, Kernel)
    case Shoot(c, r) => Idle(s, c) && r.va < SPACE && r.pages < SPACE
    case Step(c) => c < |s.cpus| && s.cpus[c].serving == None && s.cpus[c].work != Run
    case Activate => true
  }

  function Next(s: State, m: Move): State
    requires CanMove(s, m)
  {
    match m
    case Fill(c, page) =>
      At(s, c, s.cpus[c].(tlb := s.cpus[c].tlb + {Entry(s.cpus[c].loaded, page, s.now)}))
    case Evict(c, e) => At(s, c, s.cpus[c].(tlb := s.cpus[c].tlb - {e}))
    case Serve(c) => At(s, c, Served(s.cpus[c]))
    case Irqs(c, on) => At(s, c, s.cpus[c].(irqs := on))
    case Want(c, lock) => Doing(s, c, Seek(lock))
    case Release(c, lock) => Doing(s.(holder := s.holder - {lock}), c, Run)
    case Load(c, space, keep) => At(s, c, s.cpus[c].(loaded := space, tlb := keep))
    case Current(c, current) => At(s, c, s.cpus[c].(current := current))
    case Shoot(c, r) => Doing(s, c, Shot(s, c, r))
    case Step(c) => Stepped(s, c)
    case Activate => s.(active := true)
  }
}
