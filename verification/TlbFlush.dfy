/** Flushing cached translations on one CPU. */
module TlbFlush {
  const PAGE: nat := 4096
  const SPACE: nat := 0x1_0000_0000_0000_0000   // addresses
  const PAGES: nat := 0x10_0000_0000_0000       // pages of them
  const MAX_INVLPG: nat := 32

  /** A cached translation: the address space it was walked from, its page, and when. */
  datatype Entry = Entry(space: nat, page: nat, time: nat)

  predicate Everything(pages: nat) {
    pages == 0 || pages > MAX_INVLPG
  }

  /** The page of the `i`th invlpg. */
  function Nth(va: nat, i: nat): nat {
    (va / PAGE + i) % PAGES
  }

  /** How many flush instructions one request takes. */
  function Rounds(pages: nat): nat {
    if Everything(pages) then 1 else pages
  }

  function Offset(va: nat, page: nat): nat
    requires va < SPACE
  {
    (page + PAGES - va / PAGE) % PAGES
  }

  /** The first `k` flush instructions drop this page. */
  predicate Gone(va: nat, pages: nat, k: nat, page: nat)
    requires va < SPACE
  {
    if Everything(pages) then k > 0 else Offset(va, page) < k
  }

  predicate InRange(va: nat, pages: nat, page: nat)
    requires va < SPACE
  {
    Gone(va, pages, Rounds(pages), page)
  }

  function FlushRound(tlb: set<Entry>, va: nat, pages: nat, k: nat): set<Entry> {
    set e | e in tlb && !Everything(pages) && e.page != Nth(va, k)
  }

  lemma OffsetOf(va: nat, page: nat, k: nat)
    requires va < SPACE && page < PAGES && k < PAGES
    ensures Nth(va, k) == page <==> Offset(va, page) == k
  {
  }

  lemma RoundGone(va: nat, pages: nat, k: nat, page: nat)
    requires va < SPACE && page < PAGES && k < Rounds(pages)
    ensures Gone(va, pages, k + 1, page) <==> Gone(va, pages, k, page) || Everything(pages) || page == Nth(va, k)
  {
  }

  /** The range of a request, page by page: none given, or more than 32, is every page. */
  lemma InRangeMeans(va: nat, pages: nat, page: nat)
    requires va < SPACE && page < PAGES
    ensures InRange(va, pages, page) <==>
              || pages == 0 || pages > 32
              || exists i: nat {:trigger Nth(va, i)} :: i < pages && page == (va / 4096 + i) % 0x10_0000_0000_0000
    ensures InRange(va, pages, page) <==> pages == 0 || pages > 32 || (page - va / 4096) % 0x10_0000_0000_0000 < pages
  {
    if !Everything(pages) {
      if InRange(va, pages, page) {
        OffsetOf(va, page, Offset(va, page));
        assert Nth(va, Offset(va, page)) == page;
      }
      forall i: nat | i < pages && Nth(va, i) == page
        ensures InRange(va, pages, page)
      {
        OffsetOf(va, page, i);
      }
    }
  }

  /** flushLocal(): exactly the translations of the range go. */
  method FlushLocal(tlb: set<Entry>, va: nat, pages: nat) returns (left: set<Entry>)
    requires va < SPACE && forall e | e in tlb :: e.page < PAGES
    ensures pages == 0 || pages > 32 ==> left == {}
    ensures 0 < pages <= 32 ==>
              forall e :: e in left <==> e in tlb && (e.page - va / 4096) % 0x10_0000_0000_0000 >= pages
  {
    if pages == 0 || pages > MAX_INVLPG {
      return {};
    }
    var base := va - va % PAGE;
    left := tlb;
    var i := 0;
    while i < pages
      invariant 0 <= i <= pages
      invariant forall e :: e in left <==> e in tlb && !Gone(va, pages, i, e.page)
    {
      var address := (base + i * PAGE) % SPACE;
      InvlpgPage(va, i);
      forall e | e in tlb
        ensures Gone(va, pages, i + 1, e.page) <==> Gone(va, pages, i, e.page) || e.page == Nth(va, i)
      {
        RoundGone(va, pages, i, e.page);
      }
      left := set e | e in left && e.page != address / PAGE;
      i := i + 1;
    }
    forall e | e in tlb
      ensures Gone(va, pages, pages, e.page) <==> (e.page - va / 4096) % 0x10_0000_0000_0000 < pages
    {
      InRangeMeans(va, pages, e.page);
    }
  }

  /** What the first `k` flush instructions of a request leave. */
  function FlushFirst(tlb: set<Entry>, va: nat, pages: nat, k: nat): set<Entry> {
    if k == 0 then tlb else FlushRound(FlushFirst(tlb, va, pages, k - 1), va, pages, k - 1)
  }

  /** Flushed one instruction at a time, exactly the range goes too. */
  lemma {:induction false} FlushFirstIs(tlb: set<Entry>, va: nat, pages: nat, k: nat, e: Entry)
    requires va < SPACE && k <= Rounds(pages) && e.page < PAGES
    ensures e in FlushFirst(tlb, va, pages, k) <==> e in tlb && !Gone(va, pages, k, e.page)
  {
    if k > 0 {
      FlushFirstIs(tlb, va, pages, k - 1, e);
      RoundGone(va, pages, k - 1, e.page);
    }
  }

  lemma FlushedInRounds(tlb: set<Entry>, va: nat, pages: nat, e: Entry)
    requires va < SPACE && e.page < PAGES
    ensures e in FlushFirst(tlb, va, pages, Rounds(pages)) <==>
              e in tlb && 0 < pages <= 32 && (e.page - va / 4096) % 0x10_0000_0000_0000 >= pages
  {
    FlushFirstIs(tlb, va, pages, Rounds(pages), e);
    InRangeMeans(va, pages, e.page);
  }

  lemma InvlpgPage(va: nat, i: nat)
    requires va < SPACE
    ensures (va - va % PAGE + i * PAGE) % SPACE / PAGE == Nth(va, i)
  {
  }
}
