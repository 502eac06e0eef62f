/** What every interleaving of senders, polls, interrupts and page walks keeps, and what a shootdown has achieved when
    it returns. */
module ShootdownSafety {
  import opened Basics
  import opened TlbFlush
  import opened Shootdown

  // --------------------------------------------------------------------------------------------------------------
  // Stale translations.

  /** A translation of the address space of the request, or any if it covers them all. */
  predicate About(r: Request, e: Entry) {
    Covers(r) || (e.page < KERNEL_PAGE && r.space == Some(e.space))
  }

  /** Walked before the shootdown began, from tables it is about. */
  predicate Old(e: Entry, r: Request, start: nat) {
    e.time < start && About(r, e)
  }

  /** The first `k` flush instructions of the request have had their effect on this TLB. */
  ghost predicate Flushed(tlb: set<Entry>, r: Request, start: nat, k: nat)
    requires r.va < SPACE
  {
    forall e | e in tlb :: Old(e, r, start) ==> !Gone(r.va, r.pages, k, e.page)
  }

  ghost predicate Clean(s: State, d: nat, r: Request, start: nat)
    requires d < |s.cpus| && r.va < SPACE
  {
    Flushed(s.cpus[d].tlb, r, start, Rounds(r.pages))
  }

  /** Nothing walked before `now` comes back. */
  ghost predicate Aged(old_: set<Entry>, new_: set<Entry>, now: nat) {
    forall e | e in new_ :: e in old_ || e.time == now
  }

  lemma FlushedKept(tlb: set<Entry>, tlb': set<Entry>, now: nat, r: Request, start: nat, k: nat)
    requires r.va < SPACE && Flushed(tlb, r, start, k) && Aged(tlb, tlb', now) && start <= now
    ensures Flushed(tlb', r, start, k)
  {
  }

  lemma FlushedMore(tlb: set<Entry>, r: Request, start: nat, k: nat)
    requires r.va < SPACE && Flushed(tlb, r, start, k) && k < Rounds(r.pages) && forall e | e in tlb :: e.page < PAGES
    ensures Flushed(FlushRound(tlb, r.va, r.pages, k), r, start, k + 1)
  {
    forall e | e in FlushRound(tlb, r.va, r.pages, k) && Old(e, r, start)
      ensures !Gone(r.va, r.pages, k + 1, e.page)
    {
      RoundGone(r.va, r.pages, k, e.page);
    }
  }

  // --------------------------------------------------------------------------------------------------------------
  // The invariant.

  ghost predicate TlbOk(s: State, d: nat)
    requires d < |s.cpus|
  {
    forall e | e in s.cpus[d].tlb ::
      e.page < PAGES && e.time < s.now && (e.page < KERNEL_PAGE ==> e.space == s.cpus[d].loaded)
  }

  predicate Sending(w: Work) {
    w.Post? || w.Write? || w.Raise? || w.Await?
  }

  /** How far a sender has looked for targets. */
  function Looked(w: Work, n: nat): nat
    requires Sending(w)
  {
    if w.Await? then n else w.next
  }

  /** The targets still to be acknowledged. */
  function Open(w: Work): seq<nat>
    requires Sending(w)
  {
    if w.Await? && w.seen <= |w.targets| then w.targets[w.seen..] else w.targets
  }

  /** A CPU that does not have the big kernel lock is on its own tables. */
  predicate SettledOk(s: State, d: nat)
    requires d < |s.cpus|
  {
    Has(s, d, Kernel) || Settled(s.cpus[d])
  }

  /** A pending mailbox is an open target of the one sender, with that sender's request in it. */
  ghost predicate MailboxOk(s: State, d: nat)
    requires d < |s.cpus|
  {
    var cpu := s.cpus[d];
    && (cpu.pending ==>
          && Mail in s.holder && s.holder[Mail] < |s.cpus|
          && var w := s.cpus[s.holder[Mail]].work;
             Sending(w) && d in Open(w) && cpu.va == w.req.va && cpu.pages == w.req.pages)
    && (cpu.serving.Some? ==>
          && cpu.pending && cpu.serving.value.va == cpu.va && cpu.serving.value.pages == cpu.pages
          && cpu.serving.value.done <= Rounds(cpu.pages))
  }

  /** A posted target is served, being served, or about to be. */
  ghost predicate TargetOk(s: State, d: nat, r: Request, start: nat)
    requires d < |s.cpus| && r.va < SPACE
  {
    var cpu := s.cpus[d];
    if !cpu.pending then Clean(s, d, r, start)
    else cpu.serving.Some? ==> Flushed(cpu.tlb, r, start, cpu.serving.value.done)
  }

  ghost predicate TargetsOk(s: State, c: nat)
    requires c < |s.cpus|
  {
    var w := s.cpus[c].work;
    Sending(w) && w.req.va < SPACE ==>
      forall d | d in w.targets :: d < Looked(w, |s.cpus|) && d < |s.cpus| && d != c && TargetOk(s, d, w.req, w.start)
  }

  /** Under the big kernel lock, a CPU passed over holds nothing of the space. */
  ghost predicate PassedOk(s: State, c: nat)
    requires c < |s.cpus|
  {
    var w := s.cpus[c].work;
    Sending(w) && w.req.va < SPACE && Has(s, c, Kernel) ==>
      forall d: nat | d < Looked(w, |s.cpus|) && d < |s.cpus| && d != c && d !in w.targets :: Clean(s, d, w.req, w.start)
  }

  ghost predicate WorkOk(s: State, c: nat)
    requires c < |s.cpus|
  {
    var w := s.cpus[c].work;
    && (Sending(w) <==> Has(s, c, Mail))
    && (!w.Run? && !w.Seek? ==> w.req.va < SPACE && w.start <= s.now)
    && (w.Local? ==> w.done <= Rounds(w.req.pages) && Flushed(s.cpus[c].tlb, w.req, w.start, w.done))
    && (w.Hail? || Sending(w) ==> Clean(s, c, w.req, w.start))
    && (w.Write? || w.Raise? ==> w.next < |s.cpus| && w.next != c)
    && (w.Raise? ==> s.cpus[w.next].va == w.req.va && s.cpus[w.next].pages == w.req.pages)
    && (w.Post? ==> w.next <= |s.cpus|)
    && (w.Await? ==> w.seen <= |w.targets|)
    && (w.Seek? ==> w.lock != Mail)
  }

  ghost predicate CpuOk(s: State, d: nat)
    requires d < |s.cpus|
  {
    TlbOk(s, d) && SettledOk(s, d) && MailboxOk(s, d) && WorkOk(s, d) && TargetsOk(s, d) && PassedOk(s, d)
  }

  ghost predicate Inv(s: State) {
    && (forall l | l in s.holder :: s.holder[l] < |s.cpus|)
    && (forall d: nat | d < |s.cpus| :: CpuOk(s, d))
  }

  // --------------------------------------------------------------------------------------------------------------
  // Steps that leave every mailbox and every program counter alone.

  /** CPU `c` and the clock alone change, and of the CPU only what it has loaded and cached. */
  ghost predicate Aside(s: State, t: State, c: nat) {
    && c < |s.cpus| && |t.cpus| == |s.cpus| && t.cpus == s.cpus[c := t.cpus[c]]
    && t.holder == s.holder && t.now == s.now + 1
    && var a, b := s.cpus[c], t.cpus[c];
       && b.pending == a.pending && b.va == a.va && b.pages == a.pages && b.serving == a.serving && b.work == a.work
       && Aged(a.tlb, b.tlb, s.now)
  }

  lemma AsideCpu(s: State, t: State, c: nat, d: nat)
    requires Inv(s) && Aside(s, t, c) && d < |s.cpus|
    ensures d != c ==> TlbOk(t, d) && SettledOk(t, d)
    ensures MailboxOk(t, d) && WorkOk(t, d) && TargetsOk(t, d) && PassedOk(t, d)
  {
    assert CpuOk(s, d);
    var w := s.cpus[d].work;
    if !w.Run? && !w.Seek? {
      forall x: nat, k: nat | x < |s.cpus| && Flushed(s.cpus[x].tlb, w.req, w.start, k)
        ensures Flushed(t.cpus[x].tlb, w.req, w.start, k)
      {
        FlushedKept(s.cpus[x].tlb, t.cpus[x].tlb, s.now, w.req, w.start, k);
      }
    }
  }

  lemma AsideInv(s: State, t: State, c: nat)
    requires Inv(s) && Aside(s, t, c) && TlbOk(t, c) && SettledOk(t, c)
    ensures Inv(t)
  {
    forall d: nat | d < |t.cpus|
      ensures CpuOk(t, d)
    {
      AsideCpu(s, t, c, d);
    }
  }

  lemma QuietInv(s: State, m: Move)
    requires Inv(s) && CanMove(s, m) && (m.Fill? || m.Evict? || m.Irqs? || m.Load? || m.Current?)
    ensures Inv(Next(s, m))
  {
    assert CpuOk(s, m.cpu);
    AsideInv(s, Next(s, m), m.cpu);
  }

  // --------------------------------------------------------------------------------------------------------------
  // Serving a mailbox.

  lemma ServedAges(s: State, c: nat)
    requires c < |s.cpus| && CpuOk(s, c) && s.cpus[c].pending
    ensures Aged(s.cpus[c].tlb, Served(s.cpus[c]).tlb, s.now)
    ensures TlbOk(At(s, c, Served(s.cpus[c])), c)
  {
  }

  lemma ServedTarget(s: State, c: nat, d: nat)
    requires Inv(s) && c < |s.cpus| && d < |s.cpus| && s.cpus[c].pending && CpuOk(s, c) && CpuOk(s, d)
    requires Sending(s.cpus[d].work) && c in s.cpus[d].work.targets
    ensures TargetOk(At(s, c, Served(s.cpus[c])), c, s.cpus[d].work.req, s.cpus[d].work.start)
  {
    var cpu, w := s.cpus[c], s.cpus[d].work;
    assert s.holder[Mail] == d;
    if cpu.serving.Some? && cpu.serving.value.done < Rounds(cpu.pages) {
      FlushedMore(cpu.tlb, w.req, w.start, cpu.serving.value.done);
    }
  }

  lemma ServeCpu(s: State, c: nat, d: nat)
    requires Inv(s) && CanMove(s, Serve(c)) && d < |s.cpus|
    ensures CpuOk(Next(s, Serve(c)), d)
  {
    assert CpuOk(s, c) && CpuOk(s, d);
    ServedAges(s, c);
    ServedWork(s, c, d);
    ServedMailbox(s, c, d);
  }

  lemma ServedWork(s: State, c: nat, d: nat)
    requires Inv(s) && CanMove(s, Serve(c)) && d < |s.cpus|
    ensures WorkOk(Next(s, Serve(c)), d) && TargetsOk(Next(s, Serve(c)), d) && PassedOk(Next(s, Serve(c)), d)
  {
    var t := Next(s, Serve(c));
    assert CpuOk(s, c) && CpuOk(s, d);
    ServedAges(s, c);
    var w := s.cpus[d].work;
    if !w.Run? && !w.Seek? {
      forall x: nat, k: nat | x < |s.cpus| && Flushed(s.cpus[x].tlb, w.req, w.start, k)
        ensures Flushed(t.cpus[x].tlb, w.req, w.start, k)
      {
        FlushedKept(s.cpus[x].tlb, t.cpus[x].tlb, s.now, w.req, w.start, k);
      }
      if Sending(w) && c in w.targets {
        ServedTarget(s, c, d);
      }
    }
  }

  lemma ServedMailbox(s: State, c: nat, d: nat)
    requires Inv(s) && CanMove(s, Serve(c)) && d < |s.cpus| && CpuOk(s, c) && CpuOk(s, d)
    ensures MailboxOk(Next(s, Serve(c)), d)
  {
  }

  lemma ServeInv(s: State, c: nat)
    requires Inv(s) && CanMove(s, Serve(c))
    ensures Inv(Next(s, Serve(c)))
  {
    forall d: nat | d < |s.cpus|
      ensures CpuOk(Next(s, Serve(c)), d)
    {
      ServeCpu(s, c, d);
    }
  }

  // --------------------------------------------------------------------------------------------------------------
  // Steps of a CPU that is not sending.

  /** CPU `c` goes from one place outside the mailboxes to another; the mailbox lock stays where it is. */
  ghost predicate Private(s: State, t: State, c: nat) {
    && c < |s.cpus| && |t.cpus| == |s.cpus| && t.cpus == s.cpus[c := t.cpus[c]] && t.now == s.now + 1
    && (forall l | l in t.holder :: t.holder[l] < |t.cpus|)
    && (forall d: nat, l | d != c || l == Mail :: Has(t, d, l) == Has(s, d, l))
    && var a, b := s.cpus[c], t.cpus[c];
       && b.pending == a.pending && b.va == a.va && b.pages == a.pages && b.serving == a.serving
       && !Sending(a.work) && !Sending(b.work)
       && Aged(a.tlb, b.tlb, s.now)
  }

  lemma PrivateCpu(s: State, t: State, c: nat, d: nat)
    requires Inv(s) && Private(s, t, c) && d < |s.cpus|
    requires TlbOk(t, c) && SettledOk(t, c) && WorkOk(t, c)
    ensures CpuOk(t, d)
  {
    assert CpuOk(s, d) && CpuOk(s, c);
    PrivateMailbox(s, t, c, d);
    var w := s.cpus[d].work;
    if d != c && !w.Run? && !w.Seek? {
      forall x: nat, k: nat | x < |s.cpus| && Flushed(s.cpus[x].tlb, w.req, w.start, k)
        ensures Flushed(t.cpus[x].tlb, w.req, w.start, k)
      {
        FlushedKept(s.cpus[x].tlb, t.cpus[x].tlb, s.now, w.req, w.start, k);
      }
    }
  }

  lemma PrivateMailbox(s: State, t: State, c: nat, d: nat)
    requires Inv(s) && Private(s, t, c) && d < |s.cpus|
    ensures MailboxOk(t, d)
  {
    assert CpuOk(s, d);
    if s.cpus[d].pending {
      var m := s.holder[Mail];
      assert Has(s, m, Mail) && Has(t, m, Mail);
      assert m != c;
    }
  }

  lemma PrivateInv(s: State, t: State, c: nat)
    requires Inv(s) && Private(s, t, c) && TlbOk(t, c) && SettledOk(t, c) && WorkOk(t, c)
    ensures Inv(t)
  {
    forall d: nat | d < |t.cpus|
      ensures CpuOk(t, d)
    {
      PrivateCpu(s, t, c, d);
    }
  }

  /** A shootdown that skips the local flush has nothing to flush. */
  lemma ShotClean(s: State, c: nat, r: Request)
    requires Inv(s) && CanMove(s, Shoot(c, r))
    ensures Shot(s, c, r).done <= Rounds(r.pages)
    ensures Flushed(s.cpus[c].tlb, r, s.now, Shot(s, c, r).done)
  {
    assert CpuOk(s, c);
  }

  lemma RunningInv(s: State, m: Move)
    requires Inv(s) && CanMove(s, m) && (m.Want? || m.Release? || m.Shoot?)
    ensures Inv(Next(s, m))
  {
    var c, t := m.cpu, Next(s, m);
    assert CpuOk(s, c);
    if m.Shoot? {
      ShotClean(s, c, m.req);
    }
    PrivateInv(s, t, c);
  }

  lemma SeekInv(s: State, c: nat)
    requires Inv(s) && CanMove(s, Step(c)) && s.cpus[c].work.Seek?
    ensures Inv(Stepped(s, c))
  {
    var t := Stepped(s, c);
    assert CpuOk(s, c);
    if s.cpus[c].work.lock !in s.holder {
      PrivateInv(s, t, c);
    }
  }

  lemma LocalInv(s: State, c: nat)
    requires Inv(s) && CanMove(s, Step(c)) && s.cpus[c].work.Local?
    ensures Inv(Stepped(s, c))
  {
    var t, w := Stepped(s, c), s.cpus[c].work;
    assert CpuOk(s, c);
    if w.done < Rounds(w.req.pages) {
      FlushedMore(s.cpus[c].tlb, w.req, w.start, w.done);
    }
    PrivateInv(s, t, c);
  }

  // --------------------------------------------------------------------------------------------------------------
  // Steps of the sender.

  /** The sender `c` changes its place and mailboxes; no CPU's tables or translations change. */
  ghost predicate Sends(s: State, t: State, c: nat) {
    && c < |s.cpus| && |t.cpus| == |s.cpus| && t.now == s.now + 1
    && (forall l | l in t.holder :: t.holder[l] < |t.cpus|)
    && (forall d: nat, l | l != Mail :: Has(t, d, l) == Has(s, d, l))
    && (forall d: nat | d != c :: !Has(s, d, Mail) && !Has(t, d, Mail))
    && (forall d: nat | d < |s.cpus| :: SameTables(s.cpus[d], t.cpus[d]) && (d != c ==> t.cpus[d].work == s.cpus[d].work))
  }

  predicate SameTables(a: Cpu, b: Cpu) {
    b.tlb == a.tlb && b.loaded == a.loaded && b.current == a.current && b.serving == a.serving
  }

  lemma SendsCpu(s: State, t: State, c: nat, d: nat)
    requires Inv(s) && Sends(s, t, c) && d < |s.cpus|
    ensures TlbOk(t, d) && SettledOk(t, d)
    ensures d != c ==> WorkOk(t, d) && TargetsOk(t, d) && PassedOk(t, d)
  {
    assert CpuOk(s, d);
    assert SameTables(s.cpus[d], t.cpus[d]);
    assert Has(t, d, Kernel) == Has(s, d, Kernel);
  }

  lemma SendsInv(s: State, t: State, c: nat)
    requires Inv(s) && Sends(s, t, c)
    requires WorkOk(t, c) && TargetsOk(t, c) && PassedOk(t, c)
    requires forall d: nat | d < |t.cpus| :: MailboxOk(t, d)
    ensures Inv(t)
  {
    forall d: nat | d < |t.cpus|
      ensures CpuOk(t, d)
    {
      SendsCpu(s, t, c, d);
    }
  }

  /** Nobody else is sending while one CPU has the mailbox lock. */
  lemma OneSender(s: State, c: nat)
    requires Inv(s) && c < |s.cpus| && (Sending(s.cpus[c].work) || Mail !in s.holder)
    ensures forall d: nat | d != c :: !Has(s, d, Mail)
    ensures Mail !in s.holder ==> forall d: nat | d < |s.cpus| :: !s.cpus[d].pending && !s.cpus[d].serving.Some?
  {
    assert CpuOk(s, c);
    forall d: nat | d < |s.cpus| && Mail !in s.holder
      ensures !s.cpus[d].pending && !s.cpus[d].serving.Some?
    {
      assert CpuOk(s, d);
    }
  }

  lemma HailInv(s: State, c: nat)
    requires Inv(s) && CanMove(s, Step(c)) && s.cpus[c].work.Hail?
    ensures Inv(Stepped(s, c))
  {
    var t := Stepped(s, c);
    assert CpuOk(s, c);
    if Mail !in s.holder {
      OneSender(s, c);
      SendsInv(s, t, c);
    }
  }

  /** A CPU that is passed over while the sender has the big kernel lock holds nothing of the space. */
  lemma PassOver(s: State, c: nat, d: nat, r: Request, start: nat)
    requires Inv(s) && c < |s.cpus| && d < |s.cpus| && Has(s, c, Kernel) && d != c && r.va < SPACE
    requires !MayCache(s.cpus[d], r)
    ensures Clean(s, d, r, start)
  {
    assert CpuOk(s, d);
    assert Settled(s.cpus[d]);
  }

  /** The sender goes on with the same request and targets, having looked at one more CPU or waited for one. */
  ghost predicate Onward(s: State, t: State, c: nat) {
    && c < |s.cpus| && Sends(s, t, c) && Sending(s.cpus[c].work) && Sending(t.cpus[c].work) && t.holder == s.holder
    && (forall d: nat | d < |s.cpus| :: t.cpus[d].pending == s.cpus[d].pending)
    && var v, w := s.cpus[c].work, t.cpus[c].work;
       && w.req == v.req && w.start == v.start && w.targets == v.targets
       && Looked(v, |s.cpus|) <= Looked(w, |s.cpus|)
  }

  lemma OnwardTargets(s: State, t: State, c: nat)
    requires Inv(s) && Onward(s, t, c)
    ensures TargetsOk(t, c)
  {
    assert CpuOk(s, c);
    var w := t.cpus[c].work;
    forall d | d in w.targets
      ensures d < Looked(w, |t.cpus|) && d < |t.cpus| && d != c && TargetOk(t, d, w.req, w.start)
    {
      assert TargetOk(s, d, w.req, w.start) && SameTables(s.cpus[d], t.cpus[d]);
    }
  }

  lemma OnwardPassed(s: State, t: State, c: nat)
    requires Inv(s) && Onward(s, t, c)
    requires var v, w := s.cpus[c].work, t.cpus[c].work;
             v.req.va < SPACE && Has(s, c, Kernel) ==> forall d: nat |
               Looked(v, |s.cpus|) <= d < Looked(w, |s.cpus|) && d < |s.cpus| && d != c :: Clean(s, d, v.req, v.start)
    ensures PassedOk(t, c)
  {
    assert CpuOk(s, c);
    var w := t.cpus[c].work;
    if Has(s, c, Kernel) {
      forall d: nat | d < Looked(w, |t.cpus|) && d < |t.cpus| && d != c && d !in w.targets
        ensures Clean(t, d, w.req, w.start)
      {
        assert Clean(s, d, w.req, w.start) && SameTables(s.cpus[d], t.cpus[d]);
      }
    }
  }

  /** Pending requests stay open and keep their contents. */
  ghost predicate StillOpen(s: State, t: State, c: nat, d: nat)
    requires Onward(s, t, c) && d < |s.cpus|
  {
    && (s.cpus[d].pending && d in Open(s.cpus[c].work) ==> d in Open(t.cpus[c].work))
    && (s.cpus[d].pending || s.cpus[d].serving.Some? ==>
          t.cpus[d].va == s.cpus[d].va && t.cpus[d].pages == s.cpus[d].pages)
  }

  lemma OnwardMailbox(s: State, t: State, c: nat, d: nat)
    requires Inv(s) && Onward(s, t, c) && d < |s.cpus| && StillOpen(s, t, c, d)
    ensures MailboxOk(t, d)
  {
    assert CpuOk(s, c) && CpuOk(s, d);
    assert SameTables(s.cpus[d], t.cpus[d]);
  }

  lemma OnwardInv(s: State, t: State, c: nat)
    requires Inv(s) && Onward(s, t, c) && WorkOk(t, c) && PassedOk(t, c)
    requires forall d: nat | d < |s.cpus| :: StillOpen(s, t, c, d)
    ensures Inv(t)
  {
    OnwardTargets(s, t, c);
    forall d: nat | d < |t.cpus|
      ensures MailboxOk(t, d)
    {
      OnwardMailbox(s, t, c, d);
    }
    SendsInv(s, t, c);
  }

  lemma DoingOnward(s: State, c: nat, w: Work)
    requires Inv(s) && c < |s.cpus| && CpuOk(s, c)
    requires Sending(s.cpus[c].work) && Sending(w) && w.req == s.cpus[c].work.req && w.start == s.cpus[c].work.start
    requires w.targets == s.cpus[c].work.targets && Looked(s.cpus[c].work, |s.cpus|) <= Looked(w, |s.cpus|)
    requires (w.Write? ==> w.next < |s.cpus| && w.next != c) && !w.Raise?
    requires (w.Await? ==> w.seen <= |w.targets|) && (w.Post? ==> w.next <= |s.cpus|)
    ensures Onward(s, Doing(s, c, w), c) && WorkOk(Doing(s, c, w), c)
  {
  }

  lemma DoingInv(s: State, c: nat, w: Work)
    requires Inv(s) && c < |s.cpus| && CpuOk(s, c) && s.cpus[c].work.Post?
    requires Sending(w) && w.req == s.cpus[c].work.req && w.start == s.cpus[c].work.start
    requires w.targets == s.cpus[c].work.targets && Looked(s.cpus[c].work, |s.cpus|) <= Looked(w, |s.cpus|)
    requires (w.Write? ==> w.next < |s.cpus| && w.next != c) && !w.Raise?
    requires (w.Await? ==> w.seen == 0) && (w.Post? ==> w.next <= |s.cpus|)
    requires Has(s, c, Kernel) ==> forall d: nat |
               s.cpus[c].work.next <= d < Looked(w, |s.cpus|) && d < |s.cpus| && d != c :: Clean(s, d, w.req, w.start)
    ensures Inv(Doing(s, c, w))
  {
    var t := Doing(s, c, w);
    DoingOnward(s, c, w);
    OnwardPassed(s, t, c);
    OnwardInv(s, t, c);
  }

  lemma PostInv(s: State, c: nat)
    requires Inv(s) && CanMove(s, Step(c)) && s.cpus[c].work.Post?
    ensures Inv(Stepped(s, c))
  {
    var w := s.cpus[c].work;
    assert CpuOk(s, c);
    if w.next >= |s.cpus| {
      DoingInv(s, c, Await(w.req, w.start, 0, w.targets));
    } else if w.next == c || !MayCache(s.cpus[w.next], w.req) {
      if w.next != c && Has(s, c, Kernel) {
        PassOver(s, c, w.next, w.req, w.start);
      }
      DoingInv(s, c, Post(w.req, w.start, w.next + 1, w.targets));
    } else {
      DoingInv(s, c, Write(w.req, w.start, w.next, w.targets));
    }
  }

  /** A CPU not posted to yet has no request pending. */
  lemma NotPending(s: State, c: nat)
    requires Inv(s) && c < |s.cpus| && (s.cpus[c].work.Write? || s.cpus[c].work.Raise?)
    ensures var d := s.cpus[c].work.next; d < |s.cpus| && !s.cpus[d].pending && s.cpus[d].serving == None
  {
    assert CpuOk(s, c);
    assert CpuOk(s, s.cpus[c].work.next);
  }

  lemma WriteInv(s: State, c: nat)
    requires Inv(s) && CanMove(s, Step(c)) && s.cpus[c].work.Write?
    ensures Inv(Stepped(s, c))
  {
    var t, w := Stepped(s, c), s.cpus[c].work;
    assert CpuOk(s, c);
    NotPending(s, c);
    OneSender(s, c);
    assert Onward(s, t, c);
    OnwardPassed(s, t, c);
    OnwardInv(s, t, c);
  }

  lemma RaiseTargets(s: State, c: nat)
    requires Inv(s) && CanMove(s, Step(c)) && s.cpus[c].work.Raise?
    ensures TargetsOk(Stepped(s, c), c)
  {
    var t, v := Stepped(s, c), s.cpus[c].work;
    var w := t.cpus[c].work;
    assert CpuOk(s, c);
    NotPending(s, c);
    forall d | d in w.targets
      ensures d < Looked(w, |t.cpus|) && d < |t.cpus| && d != c && TargetOk(t, d, w.req, w.start)
    {
      if d != v.next {
        assert d in v.targets;
        assert TargetOk(s, d, w.req, w.start) && t.cpus[d] == s.cpus[d];
      }
    }
  }

  lemma RaisePassed(s: State, c: nat)
    requires Inv(s) && CanMove(s, Step(c)) && s.cpus[c].work.Raise?
    ensures PassedOk(Stepped(s, c), c)
  {
    var t, v := Stepped(s, c), s.cpus[c].work;
    var w := t.cpus[c].work;
    assert CpuOk(s, c);
    if Has(s, c, Kernel) {
      forall d: nat | d < Looked(w, |t.cpus|) && d < |t.cpus| && d != c && d !in w.targets
        ensures Clean(t, d, w.req, w.start)
      {
        assert v.next in w.targets && d !in v.targets;
        assert Clean(s, d, w.req, w.start);
      }
    }
  }

  lemma RaiseMailbox(s: State, c: nat, d: nat)
    requires Inv(s) && CanMove(s, Step(c)) && s.cpus[c].work.Raise? && d < |s.cpus|
    ensures MailboxOk(Stepped(s, c), d)
  {
    assert CpuOk(s, c) && CpuOk(s, d);
    NotPending(s, c);
  }

  lemma RaiseInv(s: State, c: nat)
    requires Inv(s) && CanMove(s, Step(c)) && s.cpus[c].work.Raise?
    ensures Inv(Stepped(s, c))
  {
    var t := Stepped(s, c);
    assert CpuOk(s, c);
    OneSender(s, c);
    RaiseTargets(s, c);
    RaisePassed(s, c);
    forall d: nat | d < |t.cpus|
      ensures MailboxOk(t, d)
    {
      RaiseMailbox(s, c, d);
    }
    SendsInv(s, t, c);
  }

  /** One target has answered. */
  lemma SeenInv(s: State, c: nat)
    requires Inv(s) && CanMove(s, Step(c)) && s.cpus[c].work.Await? && s.cpus[c].work.seen < |s.cpus[c].work.targets|
    ensures Inv(Stepped(s, c))
  {
    var t, w := Stepped(s, c), s.cpus[c].work;
    assert CpuOk(s, c);
    OneSender(s, c);
    if t != s {
      assert Onward(s, t, c);
      OnwardPassed(s, t, c);
      OnwardInv(s, t, c);
    }
  }

  /** All have, and the mailbox lock is let go. */
  lemma AllSeen(s: State, c: nat)
    requires Inv(s) && CanMove(s, Step(c)) && s.cpus[c].work.Await? && s.cpus[c].work.seen >= |s.cpus[c].work.targets|
    ensures forall d: nat | d < |s.cpus| :: !s.cpus[d].pending && s.cpus[d].serving == None
    ensures Inv(Stepped(s, c))
  {
    var t := Stepped(s, c);
    assert CpuOk(s, c);
    OneSender(s, c);
    forall d: nat | d < |s.cpus|
      ensures !s.cpus[d].pending && s.cpus[d].serving == None
    {
      assert CpuOk(s, d);
    }
    SendsInv(s, t, c);
  }

  // --------------------------------------------------------------------------------------------------------------
  // Runs.

  lemma StepInv(s: State, m: Move)
    requires Inv(s) && CanMove(s, m)
    ensures Inv(Next(s, m))
  {
    match m
    case Serve(c) => ServeInv(s, c);
    case Want(_, _) => RunningInv(s, m);
    case Release(_, _) => RunningInv(s, m);
    case Shoot(_, _) => RunningInv(s, m);
    case Step(c) => SteppedInv(s, c);
    case Activate => ActivateInv(s);
    case _ => QuietInv(s, m);
  }

  lemma SteppedInv(s: State, c: nat)
    requires Inv(s) && CanMove(s, Step(c))
    ensures Inv(Stepped(s, c))
  {
    var w := s.cpus[c].work;
    if w.Seek? {
      SeekInv(s, c);
    } else if w.Local? {
      LocalInv(s, c);
    } else if w.Hail? {
      HailInv(s, c);
    } else if w.Post? {
      PostInv(s, c);
    } else if w.Write? {
      WriteInv(s, c);
    } else if w.Raise? {
      RaiseInv(s, c);
    } else if w.seen < |w.targets| {
      SeenInv(s, c);
    } else {
      AllSeen(s, c);
    }
  }

  lemma ActivateInv(s: State)
    requires Inv(s)
    ensures Inv(s.(active := true))
  {
    forall d: nat | d < |s.cpus|
      ensures CpuOk(s.(active := true), d)
    {
      assert CpuOk(s, d);
    }
  }

  ghost predicate Runs(s: State, moves: seq<Move>, t: State)
    decreases |moves|
  {
    if moves == [] then s == t
    else CanMove(s, moves[0]) && Runs(Next(s, moves[0]), moves[1..], t)
  }

  /** Nothing cached, nothing pending, no lock held, every CPU on the kernel's tables. */
  ghost predicate Initial(s: State) {
    && s.holder == map[]
    && forall c: nat | c < |s.cpus| ::
         var cpu := s.cpus[c];
         cpu.loaded == KERNEL && cpu.tlb == {} && !cpu.pending && cpu.serving == None && cpu.work == Run
  }

  lemma InitialInv(s: State)
    requires Initial(s)
    ensures Inv(s)
  {
  }

  lemma {:induction false} RunInv(s: State, moves: seq<Move>, t: State)
    requires Inv(s) && Runs(s, moves, t)
    ensures Inv(t)
    decreases |moves|
  {
    if moves != [] {
      StepInv(s, moves[0]);
      RunInv(Next(s, moves[0]), moves[1..], t);
    }
  }

  // --------------------------------------------------------------------------------------------------------------
  // The guarantee.

  /** CPU `c` is about to return from shootdown(). */
  predicate Returning(s: State, c: nat) {
    && CanMove(s, Step(c))
    && var w := s.cpus[c].work;
       || (w.Local? && w.done >= Rounds(w.req.pages) && (!s.active || |s.cpus| <= 1))
       || (w.Await? && w.seen >= |w.targets|)
  }

  /** No CPU holds a translation in the range that is older than the call. */
  ghost predicate NoneStale(s: State, r: Request, start: nat) {
    r.va < SPACE && forall d: nat | d < |s.cpus| :: Clean(s, d, r, start)
  }

  lemma TargetsClean(s: State, c: nat)
    requires Inv(s) && CanMove(s, Step(c)) && s.cpus[c].work.Await? && s.cpus[c].work.seen >= |s.cpus[c].work.targets|
    requires Has(s, c, Kernel)
    ensures NoneStale(s, s.cpus[c].work.req, s.cpus[c].work.start)
  {
    var w := s.cpus[c].work;
    assert CpuOk(s, c);
    AllSeen(s, c);
    forall d: nat | d < |s.cpus|
      ensures Clean(s, d, w.req, w.start)
    {
      if d in w.targets {
        assert TargetOk(s, d, w.req, w.start);
      }
    }
  }

  /** When shootdown() returns to a CPU with the big kernel lock, no CPU at all holds a stale translation -- provided
      the scheduler is active or there is one CPU.  Before that only the caller has flushed, and the guarantee is as
      good as the other CPUs' TLBs were. */
  lemma ReturnClean(s: State, c: nat)
    requires Inv(s) && Returning(s, c) && Has(s, c, Kernel)
    ensures var w := s.cpus[c].work;
            && Stepped(s, c).cpus[c].work == Run && w.req.va < SPACE && Clean(Stepped(s, c), c, w.req, w.start)
            && (s.active || |s.cpus| <= 1 || w.Await? ==> NoneStale(Stepped(s, c), w.req, w.start))
            && |Stepped(s, c).cpus| == |s.cpus| && forall d: nat | d < |s.cpus| :: Stepped(s, c).cpus[d].tlb == s.cpus[d].tlb
  {
    var w, t := s.cpus[c].work, Stepped(s, c);
    assert CpuOk(s, c);
    if w.Await? {
      TargetsClean(s, c);
    }
    assert forall d: nat | d < |s.cpus| :: t.cpus[d].tlb == s.cpus[d].tlb;
    assert forall d: nat | d < |s.cpus| :: Clean(t, d, w.req, w.start) == Clean(s, d, w.req, w.start);
  }

  lemma StepAges(s: State, m: Move, d: nat)
    requires CanMove(s, m) && d < |s.cpus|
    ensures |Next(s, m).cpus| == |s.cpus| && s.now <= Next(s, m).now
    ensures Aged(s.cpus[d].tlb, Next(s, m).cpus[d].tlb, s.now)
  {
    if m.Step? {
      SteppedAges(s, m.cpu, d);
    }
  }

  lemma SteppedAges(s: State, c: nat, d: nat)
    requires c < |s.cpus| && d < |s.cpus|
    ensures |Stepped(s, c).cpus| == |s.cpus| && s.now <= Stepped(s, c).now
    ensures Stepped(s, c).cpus[d].tlb <= s.cpus[d].tlb
  {
    match s.cpus[c].work
    case Local(r, _, done) =>
      assert FlushRound(s.cpus[c].tlb, r.va, r.pages, done) <= s.cpus[c].tlb;
    case _ =>
      assert Stepped(s, c).cpus[d].tlb == s.cpus[d].tlb;
  }

  /** A CPU that is clean stays clean: nothing brings an old translation back. */
  lemma {:induction false} CleanForever(s: State, moves: seq<Move>, t: State, d: nat, r: Request, start: nat)
    requires Runs(s, moves, t) && d < |s.cpus| && r.va < SPACE && start <= s.now && Clean(s, d, r, start)
    ensures d < |t.cpus| && Clean(t, d, r, start)
    decreases |moves|
  {
    if moves != [] {
      var u := Next(s, moves[0]);
      StepAges(s, moves[0], d);
      FlushedKept(s.cpus[d].tlb, u.cpus[d].tlb, s.now, r, start, Rounds(r.pages));
      CleanForever(u, moves[1..], t, d, r, start);
    }
  }

  /** What a call is for, in numbers: the translations of its space, or of all of them, on its pages, or on all. */
  predicate Asked(r: Request, e: Entry) {
    && (|| r.space == None || r.space == Some(0) || r.va >= 0xFFFF_8000_0000_0000
        || (e.page < 0xF_FFF8_0000_0000 && r.space == Some(e.space)))
    && (r.pages == 0 || r.pages > 32 || (e.page - r.va / 4096) % 0x10_0000_0000_0000 < r.pages)
  }

  lemma AskedIs(r: Request, e: Entry)
    requires r.va < SPACE && e.page < PAGES
    ensures Asked(r, e) <==> About(r, e) && InRange(r.va, r.pages, e.page)
  {
    InRangeMeans(r.va, r.pages, e.page);
  }

  /** From the call on: CPU `c` has not returned in any state. */
  ghost predicate CallRuns(s: State, moves: seq<Move>, t: State, c: nat)
    decreases |moves|
  {
    && c < |s.cpus| && !s.cpus[c].work.Run?
    && if moves == [] then s == t else CanMove(s, moves[0]) && CallRuns(Next(s, moves[0]), moves[1..], t, c)
  }

  predicate InCall(s: State, c: nat) {
    c < |s.cpus| && !s.cpus[c].work.Run? && !s.cpus[c].work.Seek?
  }

  ghost predicate SameOrOver(s: State, c: nat, w: Work)
    requires InCall(s, c)
  {
    if w.Run? then Returning(s, c) else !w.Seek? && w.req == s.cpus[c].work.req && w.start == s.cpus[c].work.start
  }

  lemma FlushingOn(s: State, c: nat)
    requires InCall(s, c) && s.cpus[c].serving == None && (s.cpus[c].work.Local? || s.cpus[c].work.Hail?)
    ensures c < |Stepped(s, c).cpus| && SameOrOver(s, c, Stepped(s, c).cpus[c].work)
  {
  }

  lemma PostingOn(s: State, c: nat)
    requires InCall(s, c) && s.cpus[c].serving == None && s.cpus[c].work.Post?
    ensures c < |Stepped(s, c).cpus| && SameOrOver(s, c, Stepped(s, c).cpus[c].work)
  {
  }

  lemma WritingOn(s: State, c: nat)
    requires InCall(s, c) && s.cpus[c].serving == None && (s.cpus[c].work.Write? || s.cpus[c].work.Raise?)
    ensures c < |Stepped(s, c).cpus| && SameOrOver(s, c, Stepped(s, c).cpus[c].work)
  {
  }

  lemma AwaitingOn(s: State, c: nat)
    requires InCall(s, c) && s.cpus[c].serving == None && s.cpus[c].work.Await?
    ensures c < |Stepped(s, c).cpus| && SameOrOver(s, c, Stepped(s, c).cpus[c].work)
  {
  }

  lemma CallStepped(s: State, c: nat)
    requires InCall(s, c) && s.cpus[c].serving == None
    ensures c < |Stepped(s, c).cpus| && SameOrOver(s, c, Stepped(s, c).cpus[c].work)
  {
    match s.cpus[c].work
    case Post(_, _, _, _) => PostingOn(s, c);
    case Write(_, _, _, _) => WritingOn(s, c);
    case Raise(_, _, _, _) => WritingOn(s, c);
    case Await(_, _, _, _) => AwaitingOn(s, c);
    case _ => FlushingOn(s, c);
  }

  lemma SteppedWork(s: State, b: nat, c: nat)
    requires b < |s.cpus| && c < |s.cpus| && b != c
    ensures c < |Stepped(s, b).cpus| && Stepped(s, b).cpus[c].work == s.cpus[c].work
  {
    match s.cpus[b].work
    case Post(_, _, _, _) =>
    case Write(_, _, d, _) =>
    case Raise(_, _, d, _) =>
    case _ =>
  }

  lemma OthersWork(s: State, m: Move, c: nat)
    requires CanMove(s, m) && InCall(s, c) && m != Step(c)
    ensures c < |Next(s, m).cpus| && Next(s, m).cpus[c].work == s.cpus[c].work
  {
    match m
    case Step(b) => SteppedWork(s, b, c);
    case _ =>
  }

  lemma CallStep(s: State, m: Move, c: nat)
    requires CanMove(s, m) && InCall(s, c)
    ensures c < |Next(s, m).cpus|
    ensures var w, w' := s.cpus[c].work, Next(s, m).cpus[c].work;
            w'.Run? || (!w'.Seek? && w'.req == w.req && w'.start == w.start)
  {
    if m == Step(c) {
      CallStepped(s, c);
    } else {
      OthersWork(s, m, c);
    }
  }

  /** The call a CPU is in stays the same. */
  lemma {:induction false} SameCall(s: State, moves: seq<Move>, t: State, c: nat)
    requires CallRuns(s, moves, t, c) && !s.cpus[c].work.Seek?
    ensures Runs(s, moves, t) && c < |t.cpus| && !t.cpus[c].work.Run? && !t.cpus[c].work.Seek?
    ensures t.cpus[c].work.req == s.cpus[c].work.req && t.cpus[c].work.start == s.cpus[c].work.start
    decreases |moves|
  {
    if moves != [] {
      CallStep(s, moves[0], c);
      SameCall(Next(s, moves[0]), moves[1..], t, c);
    }
  }

  lemma {:induction false} RunsOn(s: State, first: seq<Move>, mid: State, rest: seq<Move>, t: State)
    requires Runs(s, first, mid) && Runs(mid, rest, t)
    ensures Runs(s, first + rest, t)
    decreases |first|
  {
    if first == [] {
      assert first + rest == rest;
    } else {
      assert (first + rest)[0] == first[0] && (first + rest)[1..] == first[1..] + rest;
      RunsOn(Next(s, first[0]), first[1..], mid, rest, t);
    }
  }

  lemma StaleNoMore(s0: State, before: seq<Move>, s: State, c: nat, after: seq<Move>, t: State)
    requires Initial(s0) && Runs(s0, before, s)
    requires Returning(s, c) && Has(s, c, Kernel) && (s.active || |s.cpus| <= 1)
    requires Runs(Stepped(s, c), after, t)
    ensures Inv(s) && s.cpus[c].work.req.va < SPACE
    ensures forall d: nat | d < |t.cpus| :: Clean(t, d, s.cpus[c].work.req, s.cpus[c].work.start)
  {
    InitialInv(s0);
    RunInv(s0, before, s);
    ReturnClean(s, c);
    assert CpuOk(s, c);
    var w, u := s.cpus[c].work, Stepped(s, c);
    RunCount(u, after, t);
    forall d: nat | d < |t.cpus|
      ensures Clean(t, d, w.req, w.start)
    {
      CleanForever(u, after, t, d, w.req, w.start);
    }
  }

  lemma PagesBounded(s0: State, moves: seq<Move>, t: State, d: nat, e: Entry)
    requires Initial(s0) && Runs(s0, moves, t) && d < |t.cpus| && e in t.cpus[d].tlb
    ensures e.page < PAGES && e.time < t.now
  {
    InitialInv(s0);
    RunInv(s0, moves, t);
    assert CpuOk(t, d);
  }

  /** The next step of CPU `c` is the return of its call. */
  predicate Returns(s: State, c: nat) {
    CanMove(s, Step(c)) && c < |Stepped(s, c).cpus| && Stepped(s, c).cpus[c].work.Run?
  }

  lemma CallReaches(s0: State, before: seq<Move>, s1: State, c: nat, r: Request, during: seq<Move>, s: State)
    requires Initial(s0) && Runs(s0, before, s1) && CanMove(s1, Shoot(c, r))
    requires CallRuns(Next(s1, Shoot(c, r)), during, s, c)
    ensures c < |s.cpus| && !s.cpus[c].work.Run? && !s.cpus[c].work.Seek?
    ensures s.cpus[c].work.req == r && s.cpus[c].work.start == s1.now
    ensures Runs(s0, before + ([Shoot(c, r)] + during), s) && (Returns(s, c) ==> Returning(s, c))
  {
    var u, rest := Next(s1, Shoot(c, r)), [Shoot(c, r)] + during;
    SameCall(u, during, s, c);
    assert rest[1..] == during;
    RunsOn(s0, before, s1, rest, s);
    if Returns(s, c) {
      CallStepped(s, c);
    }
  }

  /** The whole of it: however the CPUs' steps interleave up to the call, up to its return and after that, from the
      return on no CPU ever again holds a translation the call was about that is older than the call. */
  lemma NeverStaleAgain(s0: State, before: seq<Move>, s1: State, c: nat, r: Request, during: seq<Move>, s: State,
                        after: seq<Move>, t: State, d: nat, e: Entry)
    requires Initial(s0) && Runs(s0, before, s1) && CanMove(s1, Shoot(c, r))
    requires CallRuns(Next(s1, Shoot(c, r)), during, s, c)
    requires Returns(s, c) && Has(s, c, Kernel) && (s.active || |s.cpus| <= 1)
    requires Runs(Stepped(s, c), after, t) && d < |t.cpus| && e in t.cpus[d].tlb && Asked(r, e)
    ensures e.time >= s1.now
  {
    CallReaches(s0, before, s1, c, r, during, s);
    var all := before + ([Shoot(c, r)] + during);
    StaleNoMore(s0, all, s, c, after, t);
    OnceReturned(s0, all, s, c, after, t);
    PagesBounded(s0, (all + [Step(c)]) + after, t, d, e);
    AskedIs(r, e);
    assert Clean(t, d, r, s1.now);
  }

  lemma OnceReturned(s0: State, moves: seq<Move>, s: State, c: nat, after: seq<Move>, t: State)
    requires Runs(s0, moves, s) && CanMove(s, Step(c)) && Runs(Stepped(s, c), after, t)
    ensures Runs(s0, (moves + [Step(c)]) + after, t)
  {
    assert [Step(c)][1..] == [];
    RunsOn(s0, moves, s, [Step(c)], Stepped(s, c));
    RunsOn(s0, moves + [Step(c)], Stepped(s, c), after, t);
  }

  /** So what any CPU had cached when the call was made is gone for good. */
  lemma CachedIsGone(s0: State, before: seq<Move>, s1: State, c: nat, r: Request, during: seq<Move>, s: State,
                     after: seq<Move>, t: State, b: nat, d: nat, e: Entry)
    requires Initial(s0) && Runs(s0, before, s1) && CanMove(s1, Shoot(c, r))
    requires CallRuns(Next(s1, Shoot(c, r)), during, s, c)
    requires Returns(s, c) && Has(s, c, Kernel) && (s.active || |s.cpus| <= 1)
    requires Runs(Stepped(s, c), after, t) && b < |s1.cpus| && e in s1.cpus[b].tlb && d < |t.cpus| && Asked(r, e)
    ensures e !in t.cpus[d].tlb
  {
    PagesBounded(s0, before, s1, b, e);
    if e in t.cpus[d].tlb {
      NeverStaleAgain(s0, before, s1, c, r, during, s, after, t, d, e);
    }
  }

  lemma {:induction false} RunCount(s: State, moves: seq<Move>, t: State)
    requires Runs(s, moves, t)
    ensures |t.cpus| == |s.cpus|
    decreases |moves|
  {
    if moves != [] && s.cpus != [] {
      StepAges(s, moves[0], 0);
      RunCount(Next(s, moves[0]), moves[1..], t);
    } else if moves != [] {
      RunCount(Next(s, moves[0]), moves[1..], t);
    }
  }
}
