/** Whole histories of the page allocator: who has which pages. */
module GttRuns {
  import opened Basics
  import opened GttAllocator

  datatype Range = Range(start: nat, pages: nat)

  /** The bitmap, the ranges handed out and not given back, and the pages reserved. */
  datatype Ledger = Ledger(taken: seq<bool>, live: set<Range>, reserved: set<nat>)

  /** A call and its answer. */
  datatype Call =
    | Reserve(start: nat, pages: nat)
    | Alloc(pages: nat, align: nat, limit: nat, result: nat)
    | Free(start: nat, pages: nat)

  predicate In(r: Range, p: nat) {
    r.start <= p < r.start + r.pages
  }

  /** The free pages of a range. */
  function FreeOf(m: seq<bool>, start: nat, end: nat): set<nat> {
    set p | start <= p < end && p < |m| && !m[p]
  }

  /** alloc() answers as Allocator.Alloc promises; anything may be passed to the others. */
  ghost predicate CanCall(l: Ledger, c: Call) {
    match c
    case Reserve(_, _) => true
    case Alloc(pages, align, limit, r) =>
      if r == NONE then pages == 0 || forall q: nat :: !Suits(l.taken, q, pages, align, limit)
      else pages > 0 && Lowest(l.taken, r, pages, align, limit)
    case Free(_, _) => true
  }

  /** What is given back is a range that was handed out, or nothing, or is turned down. */
  ghost predicate GivesBack(l: Ledger, c: Call) {
    c.Free? ==> Range(c.start, c.pages) in l.live || c.pages == 0 || !AllTaken(l.taken, c.start, c.start + c.pages)
  }

  ghost function Called(l: Ledger, c: Call): Ledger
    requires CanCall(l, c)
  {
    match c
    case Reserve(start, pages) =>
      l.(taken := Fill(l.taken, start, start + pages, true),
         reserved := l.reserved + FreeOf(l.taken, start, start + pages))
    case Alloc(pages, _, _, r) =>
      if r == NONE then l
      else l.(taken := Fill(l.taken, r, r + pages, true), live := l.live + {Range(r, pages)})
    case Free(start, pages) =>
      if !AllTaken(l.taken, start, start + pages) then l
      else l.(taken := Fill(l.taken, start, start + pages, false), live := l.live - {Range(start, pages)})
  }

  // --------------------------------------------------------------------------------------------------------------
  // What every history keeps.

  ghost predicate Owned(l: Ledger, p: nat) {
    exists r :: r in l.live && In(r, p)
  }

  /** A page is taken exactly when somebody has it. */
  ghost predicate Accounted(l: Ledger) {
    forall p: nat | p < |l.taken| :: l.taken[p] == (p in l.reserved || Owned(l, p))
  }

  /** And then only one does. */
  ghost predicate Disjoint(l: Ledger) {
    && (forall r | r in l.live :: r.pages > 0)
    && (forall r, p: nat | r in l.live && In(r, p) :: p < |l.taken| && p !in l.reserved)
    && (forall q, r, p: nat | q in l.live && r in l.live && In(q, p) && In(r, p) :: q == r)
    && (forall p | p in l.reserved :: p < |l.taken|)
  }

  ghost predicate Inv(l: Ledger) {
    Accounted(l) && Disjoint(l)
  }

  lemma ReserveInv(l: Ledger, start: nat, pages: nat)
    requires Inv(l)
    ensures Inv(Called(l, Reserve(start, pages)))
  {
  }

  /** A new range touches no page anybody has. */
  lemma AllocInv(l: Ledger, c: Call)
    requires Inv(l) && c.Alloc? && CanCall(l, c)
    ensures Inv(Called(l, c))
    ensures c.result != NONE ==> forall p: nat | In(Range(c.result, c.pages), p) :: p !in l.reserved && !Owned(l, p)
  {
  }

  /** Giving back a range that was handed out always succeeds. */
  lemma FreeInv(l: Ledger, start: nat, pages: nat)
    requires Inv(l) && GivesBack(l, Free(start, pages))
    ensures Range(start, pages) in l.live ==> AllTaken(l.taken, start, start + pages)
    ensures Inv(Called(l, Free(start, pages)))
  {
    var t, r := Called(l, Free(start, pages)), Range(start, pages);
    forall p: nat | r in l.live && In(r, p)
      ensures p < |l.taken| && l.taken[p]
    {
      assert Owned(l, p);
    }
    if r in l.live {
      assert In(r, start + pages - 1);
    }
    if t != l {
      forall p: nat | p < |l.taken|
        ensures t.taken[p] == (p in t.reserved || Owned(t, p))
      {
        if Owned(l, p) && !In(r, p) {
          var q :| q in l.live && In(q, p);
          assert q in t.live;
        }
        if q :| q in t.live && In(q, p) {
          assert q in l.live;
        }
      }
    }
  }

  /** free() takes pages that are taken, whoever has them: the books stay right exactly when it is passed one of the
      ranges handed out or no pages, or refuses. */
  lemma FreeExact(l: Ledger, start: nat, pages: nat)
    requires Inv(l)
    ensures Inv(Called(l, Free(start, pages))) <==> GivesBack(l, Free(start, pages))
  {
    var t, r := Called(l, Free(start, pages)), Range(start, pages);
    if GivesBack(l, Free(start, pages)) {
      FreeInv(l, start, pages);
    } else {
      assert l.taken[start] && !t.taken[start];
      if start !in l.reserved {
        var q :| q in l.live && In(q, start);
        assert q in t.live && Owned(t, start);
      }
    }
  }

  ghost predicate Runs(l: Ledger, calls: seq<Call>, t: Ledger)
    decreases |calls|
  {
    if calls == [] then l == t else CanCall(l, calls[0]) && Runs(Called(l, calls[0]), calls[1..], t)
  }

  ghost predicate GivenBack(l: Ledger, calls: seq<Call>)
    decreases |calls|
  {
    calls == [] || (CanCall(l, calls[0]) && GivesBack(l, calls[0]) && GivenBack(Called(l, calls[0]), calls[1..]))
  }

  lemma CallInv(l: Ledger, call: Call)
    requires Inv(l) && CanCall(l, call) && GivesBack(l, call)
    ensures Inv(Called(l, call))
  {
    match call
    case Reserve(start, pages) => ReserveInv(l, start, pages);
    case Alloc(_, _, _, _) => AllocInv(l, call);
    case Free(start, pages) => FreeInv(l, start, pages);
  }

  lemma {:induction false} RunInv(l: Ledger, calls: seq<Call>, t: Ledger)
    requires Inv(l) && Runs(l, calls, t) && GivenBack(l, calls)
    ensures Inv(t)
    decreases |calls|
  {
    if calls != [] {
      CallInv(l, calls[0]);
      RunInv(Called(l, calls[0]), calls[1..], t);
    }
  }

  /** The books are right after every call. */
  ghost predicate RightThroughout(l: Ledger, calls: seq<Call>)
    decreases |calls|
  {
    calls == [] || (CanCall(l, calls[0]) && Inv(Called(l, calls[0])) && RightThroughout(Called(l, calls[0]), calls[1..]))
  }

  /** A history keeps the books right throughout if and only if each of its frees does what `FreeExact` asks. */
  lemma {:induction false} HistoryExact(l: Ledger, calls: seq<Call>, t: Ledger)
    requires Inv(l) && Runs(l, calls, t)
    ensures RightThroughout(l, calls) <==> GivenBack(l, calls)
    decreases |calls|
  {
    if calls != [] {
      if GivesBack(l, calls[0]) {
        CallInv(l, calls[0]);
        HistoryExact(Called(l, calls[0]), calls[1..], t);
      } else {
        FreeExact(l, calls[0].start, calls[0].pages);
      }
    }
  }

  // --------------------------------------------------------------------------------------------------------------
  // Counting.

  ghost function LivePages(l: Ledger): set<nat> {
    set p: nat | p < |l.taken| && Owned(l, p)
  }

  function TakenPages(m: seq<bool>): set<nat> {
    set p | 0 <= p < |m| && m[p]
  }

  lemma {:induction false} FreePlusTaken(m: seq<bool>)
    ensures FreeIn(m) + |TakenPages(m)| == |m|
  {
    if m != [] {
      var most, last := m[..|m| - 1], |m| - 1;
      FreePlusTaken(most);
      if m[last] {
        CardinalityOfInsert(TakenPages(most), TakenPages(m), last);
      } else {
        assert TakenPages(m) == TakenPages(most);
      }
    } else {
      assert TakenPages(m) == {};
    }
  }

  lemma {:induction false} UnionSize(a: set<nat>, b: set<nat>)
    requires a !! b
    ensures |a + b| == |a| + |b|
  {
  }

  /** Part of a range given back, and handed out again: two ranges then share a page. */
  lemma HandedTwice()
    ensures exists l: Ledger, calls: seq<Call>, t: Ledger, q: Range, r: Range, p: nat ::
              && AllFree(l.taken, 0, |l.taken|) && l.live == {} && l.reserved == {} && Runs(l, calls, t)
              && q in t.live && r in t.live && q != r && In(q, p) && In(r, p)
  {
    var l0 := Ledger([false, false], {}, {});
    var l1 := Ledger([true, true], {Range(0, 2)}, {});
    var l2 := Ledger([true, false], {Range(0, 2)}, {});
    var l3 := Ledger([true, true], {Range(0, 2), Range(1, 1)}, {});
    var calls := [Alloc(2, 0, 0, 0), Free(1, 1), Alloc(1, 0, 0, 1)];
    assert CanCall(l0, calls[0]) && Called(l0, calls[0]) == l1 by { assert Fill([false, false], 0, 2, true) == [true, true]; }
    assert Called(l1, calls[1]) == l2 by { assert Fill([true, true], 1, 2, false) == [true, false]; }
    assert !AllFree(l2.taken, 0, 1) by { assert l2.taken[0]; }
    assert CanCall(l2, calls[2]) && Called(l2, calls[2]) == l3 by { assert Fill([true, false], 1, 2, true) == [true, true]; }
    assert calls[1..] == [Free(1, 1), Alloc(1, 0, 0, 1)] && calls[1..][1..] == [Alloc(1, 0, 0, 1)] && calls[1..][1..][1..] == [];
    assert Runs(l2, [Alloc(1, 0, 0, 1)], l3);
    assert Runs(l1, calls[1..], l3);
    assert Runs(l0, calls, l3);
    assert In(Range(0, 2), 1) && In(Range(1, 1), 1);
  }

  /** Over any history from an empty allocator in which only ranges handed out are given back: every taken page is
      reserved or part of exactly one live range, and the free pages, the reserved pages and the live pages add up to
      all of them. */
  lemma EveryPageOnce(l: Ledger, calls: seq<Call>, t: Ledger)
    requires AllFree(l.taken, 0, |l.taken|) && l.live == {} && l.reserved == {} && Runs(l, calls, t) && GivenBack(l, calls)
    ensures Inv(t) && FreeIn(t.taken) + |t.reserved| + |LivePages(t)| == |t.taken|
  {
    RunInv(l, calls, t);
    FreePlusTaken(t.taken);
    forall p | p in LivePages(t)
      ensures p !in t.reserved
    {
      var r :| r in t.live && In(r, p);
    }
    UnionSize(t.reserved, LivePages(t));
    assert TakenPages(t.taken) == t.reserved + LivePages(t);
  }
}
