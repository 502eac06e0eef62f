/** The allocator of global GTT pages: one bit a page in an array of 64-bit words, searched a word at a time. */
module GttAllocator {
  import opened Basics
  import opened Bits

  const NONE: nat := 0xFFFF_FFFF
  const NO_BIT: nat := 0xFFFF_FFFF_FFFF_FFFF

  function WordsFor(pages: nat): nat {
    (pages + 63) / 64
  }

  // --------------------------------------------------------------------------------------------------------------
  // The bitmap as a sequence of pages, true when taken.

  function FreeIn(m: seq<bool>): nat {
    if m == [] then 0 else FreeIn(m[..|m| - 1]) + (if m[|m| - 1] then 0 else 1)
  }

  function Fill(m: seq<bool>, from: nat, to: nat, v: bool): seq<bool> {
    seq(|m|, p requires 0 <= p < |m| => if from <= p < to then v else m[p])
  }

  predicate AllFree(m: seq<bool>, from: nat, to: nat) {
    to <= |m| && forall p | from <= p < to :: !m[p]
  }

  predicate AllTaken(m: seq<bool>, from: nat, to: nat) {
    to <= |m| && forall p | from <= p < to :: m[p]
  }

  /** Where a run of `pages` may go. */
  predicate Fits(m: seq<bool>, start: nat, pages: nat, align: nat, limit: nat)
    requires align > 0
  {
    start % align == 0 && start + pages <= limit && AllFree(m, start, start + pages)
  }

  lemma {:induction false} FreeInFlip(m: seq<bool>, p: nat, v: bool)
    requires p < |m|
    ensures FreeIn(m[p := v]) == FreeIn(m) + (if m[p] == v then 0 else if v then -1 else 1)
  {
    var most, last := m[..|m| - 1], m[|m| - 1];
    var n := m[p := v];
    if p == |m| - 1 {
      assert n[..|n| - 1] == most;
    } else {
      assert n[..|n| - 1] == most[p := v];
      FreeInFlip(most, p, v);
    }
  }

  lemma {:induction false} FreeInClear(m: seq<bool>)
    requires forall p | 0 <= p < |m| :: !m[p]
    ensures FreeIn(m) == |m|
  {
    if m != [] {
      FreeInClear(m[..|m| - 1]);
    }
  }

  /** A run that fits is that many free pages. */
  lemma {:induction false} FreeRun(m: seq<bool>, start: nat, pages: nat)
    requires AllFree(m, start, start + pages)
    ensures FreeIn(m) >= pages
    ensures FreeIn(Fill(m, start, start + pages, true)) == FreeIn(m) - pages
    decreases pages
  {
    if pages == 0 {
      assert Fill(m, start, start, true) == m;
    } else {
      var n := m[start := true];
      FreeInFlip(m, start, true);
      FreeRun(n, start + 1, pages - 1);
      assert Fill(n, start + 1, start + pages, true) == Fill(m, start, start + pages, true);
    }
  }

  lemma {:induction false} TakenRun(m: seq<bool>, start: nat, pages: nat)
    requires AllTaken(m, start, start + pages)
    ensures FreeIn(Fill(m, start, start + pages, false)) == FreeIn(m) + pages
    decreases pages
  {
    if pages == 0 {
      assert Fill(m, start, start, false) == m;
    } else {
      var n := m[start := false];
      FreeInFlip(m, start, false);
      TakenRun(n, start + 1, pages - 1);
      assert Fill(n, start + 1, start + pages, false) == Fill(m, start, start + pages, false);
    }
  }

  // --------------------------------------------------------------------------------------------------------------
  // The words.

  predicate WordsOk(ws: seq<nat>, total: nat) {
    |ws| == WordsFor(total) && forall i | 0 <= i < |ws| :: Narrow(ws[i], WORD_BITS)
  }

  function Pages(ws: seq<nat>, total: nat): (m: seq<bool>)
    requires WordsOk(ws, total)
    ensures |m| == total && forall p | 0 <= p < total :: m[p] == Bit(ws[p / 64], p % 64)
  {
    seq(total, p requires 0 <= p < total => Bit(ws[p / 64], p % 64))
  }

  lemma PutPage(ws: seq<nat>, total: nat, page: nat, v: bool)
    requires WordsOk(ws, total) && page < total
    ensures var us := ws[page / 64 := Put(ws[page / 64], page % 64, v)];
            WordsOk(us, total) && Pages(us, total) == Pages(ws, total)[page := v]
  {
    var w := ws[page / 64];
    var us := ws[page / 64 := Put(w, page % 64, v)];
    PutFits(w, page % 64, v, WORD_BITS);
    forall p | 0 <= p < total
      ensures Pages(us, total)[p] == Pages(ws, total)[page := v][p]
    {
      BitOfPut(w, page % 64, v, p % 64);
    }
  }

  /** What one word says of the pages from `page` to its end. */
  lemma WordSays(ws: seq<nat>, total: nat, page: nat)
    requires WordsOk(ws, total) && page < total
    ensures var bits := Shr(ws[page / 64], page % 64);
            if bits == 0 then forall p: nat | page <= p < page + 64 - page % 64 && p < total :: !Pages(ws, total)[p]
            else
              && page + Ctz(bits) < page + 64 - page % 64
              && (page + Ctz(bits) < total ==> Pages(ws, total)[page + Ctz(bits)])
              && forall p: nat | page <= p < page + Ctz(bits) && p < total :: !Pages(ws, total)[p]
  {
    var w, shift := ws[page / 64], page % 64;
    var bits := Shr(w, shift);
    ShrFits(w, shift, WORD_BITS);
    if bits != 0 {
      CtzIsLowest(bits, WORD_BITS - shift);
      BitOfShr(w, shift, Ctz(bits));
    }
    forall p: nat | page <= p < page + 64 - shift && p < total
      ensures p / 64 == page / 64 && Pages(ws, total)[p] == Bit(bits, p - page)
    {
      BitOfShr(w, shift, p - page);
    }
    if bits == 0 {
      forall p: nat | page <= p < page + 64 - shift && p < total
        ensures !Pages(ws, total)[p]
      {
        NoBits(p - page);
      }
    }
  }

  // --------------------------------------------------------------------------------------------------------------
  // First fit.

  function RoundUp(start: nat, align: nat): nat
    requires align > 0
  {
    (start + align - 1) / align * align
  }

  lemma RoundsUp(start: nat, align: nat)
    requires align > 0
    ensures RoundUp(start, align) >= start && RoundUp(start, align) % align == 0
    ensures forall q: nat | start <= q < RoundUp(start, align) :: q % align != 0
  {
    var k := (start + align - 1) / align;
    DivMod(start + align - 1, align);
    Quotient(align * k, align, k, 0);
    assert RoundUp(start, align) == align * k;
    forall q: nat | start <= q < RoundUp(start, align)
      ensures q % align != 0
    {
      DivMod(q, align);
      if q % align == 0 {
        var j := q / align;
        assert align * (j + 1) == align * j + align;
        if j < k {
          MulMono(align, j + 1, k);
        } else {
          MulMono(align, k, j);
        }
      }
    }
  }

  ghost predicate NoFitBelow(m: seq<bool>, start: nat, pages: nat, align: nat, limit: nat)
    requires align > 0
  {
    forall q: nat | q < start :: !Fits(m, q, pages, align, limit)
  }

  ghost predicate NoFit(m: seq<bool>, pages: nat, align: nat, limit: nat)
    requires align > 0
  {
    forall q: nat :: !Fits(m, q, pages, align, limit)
  }

  lemma SkipUp(m: seq<bool>, start: nat, pages: nat, align: nat, limit: nat)
    requires align > 0 && NoFitBelow(m, start, pages, align, limit)
    ensures NoFitBelow(m, RoundUp(start, align), pages, align, limit)
  {
    RoundsUp(start, align);
  }

  /** A taken page rules out every start it would be part of. */
  lemma SkipTaken(m: seq<bool>, start: nat, taken: nat, pages: nat, align: nat, limit: nat)
    requires align > 0 && NoFitBelow(m, start, pages, align, limit)
    requires start <= taken < start + pages && taken < |m| && m[taken]
    ensures NoFitBelow(m, taken + 1, pages, align, limit)
  {
  }

  /** The limit of a request: none is the whole space. */
  function Limit(limitPages: nat, total: nat): nat {
    if limitPages != 0 && limitPages < total then limitPages else total
  }

  function Align(alignPages: nat): (a: nat)
    ensures a > 0
  {
    if alignPages == 0 then 1 else alignPages
  }

  /** A start that a caller could be given: on its alignment if it has one, the run free, in the space and below its
      limit if it has one. */
  predicate Suits(m: seq<bool>, start: nat, pages: nat, alignPages: nat, limitPages: nat) {
    && (alignPages != 0 ==> start % alignPages == 0)
    && start + pages <= |m| && (limitPages != 0 ==> start + pages <= limitPages)
    && forall p | start <= p < start + pages :: !m[p]
  }

  /** The lowest such start. */
  ghost predicate Lowest(m: seq<bool>, start: nat, pages: nat, alignPages: nat, limitPages: nat) {
    Suits(m, start, pages, alignPages, limitPages) && forall q: nat | q < start :: !Suits(m, q, pages, alignPages, limitPages)
  }

  lemma SuitsIs(m: seq<bool>, start: nat, pages: nat, alignPages: nat, limitPages: nat)
    ensures Suits(m, start, pages, alignPages, limitPages) <==> Fits(m, start, pages, Align(alignPages), Limit(limitPages, |m|))
  {
  }

  /** More pages than are free fit nowhere. */
  lemma TooMany(m: seq<bool>, pages: nat, align: nat, limit: nat)
    requires align > 0 && pages > FreeIn(m)
    ensures NoFit(m, pages, align, limit)
  {
    forall q: nat
      ensures !Fits(m, q, pages, align, limit)
    {
      if Fits(m, q, pages, align, limit) {
        FreeRun(m, q, pages);
      }
    }
  }

  /** The allocator. */
  class Allocator {
    var words: array<nat>
    var total: nat
    var freeCount: nat

    ghost predicate Valid()
      reads this, words
    {
      && total <= NONE && WordsOk(words[..], total)
      && freeCount == FreeIn(Map())
    }

    ghost function Map(): seq<bool>
      requires WordsOk(words[..], total)
      reads this, words
    {
      Pages(words[..], total)
    }

    /** init(): all pages free; without storage there are none. */
    constructor (totalPages: nat, storage: bool)
      requires totalPages <= NONE
      ensures Valid() && fresh(words) && total == (if storage then totalPages else 0)
      ensures AllFree(Map(), 0, total) && freeCount == total
    {
      total := if storage then totalPages else 0;
      freeCount := if storage then totalPages else 0;
      words := new nat[WordsFor(if storage then totalPages else 0)];
      new;
      var i := 0;
      while i < WordsFor(total)
        modifies words
        invariant 0 <= i <= WordsFor(total) == words.Length
        invariant forall k | 0 <= k < i :: words[k] == 0
      {
        words[i] := 0;
        i := i + 1;
      }
      NarrowZero(WORD_BITS);
      forall p | 0 <= p < total
        ensures !Map()[p]
      {
        NoBits(p % 64);
      }
      FreeInClear(Map());
    }

    method Used(page: nat) returns (taken: bool)
      requires Valid() && page < total
      ensures taken == Map()[page]
    {
      taken := Bit(words[page / 64], page % 64);
    }

    method Set(page: nat, v: bool)
      requires WordsOk(words[..], total) && page < total
      modifies words
      ensures WordsOk(words[..], total) && Map() == old(Map())[page := v]
    {
      ghost var ws := words[..];
      PutPage(ws, total, page, v);
      words[page / 64] := Put(words[page / 64], page % 64, v);
      assert words[..] == ws[page / 64 := Put(ws[page / 64], page % 64, v)];
    }

    /** The first taken page of a range, a word at a time. */
    method FirstUsed(from: nat, end: nat) returns (found: nat)
      requires WordsOk(words[..], total) && end <= total && total <= NONE
      ensures if found == NO_BIT then from <= end ==> AllFree(Map(), from, end)
              else from <= found < end && Map()[found] && AllFree(Map(), from, found)
    {
      var page := from;
      while page < end
        invariant from <= page
        invariant AllFree(Map(), from, if page < end then page else end)
        decreases end - page
      {
        var shift := page % 64;
        var bits := Shr(words[page / 64], shift);
        WordSays(words[..], total, page);
        if bits != 0 {
          found := page + Ctz(bits);
          return if found < end then found else NO_BIT;
        }
        page := page + 64 - shift;
      }
      return NO_BIT;
    }

    method TakePage(page: nat)
      requires Valid() && page < total
      modifies this`freeCount, words
      ensures Valid() && Map() == old(Map())[page := true]
    {
      var taken := Used(page);
      FreeInFlip(Map(), page, true);
      if taken {
        assert Map()[page := true] == Map();
      } else {
        Set(page, true);
        freeCount := freeCount - 1;
      }
    }

    /** Takes what is in range and not taken yet. */
    method Reserve(start: nat, pages: nat)
      requires Valid()
      modifies this`freeCount, words
      ensures Valid() && Map() == Fill(old(Map()), start, start + pages, true)
    {
      var end := start + pages;
      if end > total {
        end := total;
      }
      ghost var m := Map();
      var page := start;
      assert Fill(m, start, start, true) == m;
      while page < end
        invariant start <= page && (start <= end ==> page <= end)
        invariant Valid() && Map() == Fill(m, start, page, true)
      {
        assert Fill(m, start, page + 1, true) == Fill(m, start, page, true)[page := true];
        TakePage(page);
        page := page + 1;
      }
      assert Fill(m, start, start + pages, true) == Fill(m, start, page, true);
    }

    method Mark(start: nat, pages: nat, v: bool)
      requires WordsOk(words[..], total) && start + pages <= total
      modifies words
      ensures WordsOk(words[..], total) && Map() == Fill(old(Map()), start, start + pages, v)
    {
      ghost var m := Map();
      var page := start;
      assert Fill(m, start, start, v) == m;
      while page < start + pages
        invariant start <= page <= start + pages
        invariant WordsOk(words[..], total) && Map() == Fill(m, start, page, v)
      {
        assert Fill(m, start, page + 1, v) == Fill(m, start, page, v)[page := v];
        Set(page, v);
        page := page + 1;
      }
    }

    /** The lowest start that fits, searched word by word; nothing exactly when no start fits. */
    method FindFit(pages: nat, align: nat, limit: nat) returns (start: nat, found: bool)
      requires Valid() && pages > 0 && align > 0 && limit <= total
      ensures found ==> Fits(Map(), start, pages, align, limit) && NoFitBelow(Map(), start, pages, align, limit)
      ensures !found ==> NoFit(Map(), pages, align, limit)
    {
      start := 0;
      while true
        invariant start <= total
        invariant NoFitBelow(Map(), start, pages, align, limit)
        decreases total - start
      {
        RoundsUp(start, align);
        SkipUp(Map(), start, pages, align, limit);
        start := (start + align - 1) / align * align;
        if start + pages > limit {
          return start, false;
        }
        var taken := FirstUsed(start, start + pages);
        if taken == NO_BIT {
          return start, true;
        }
        SkipTaken(Map(), start, taken, pages, align, limit);
        start := taken + 1;
      }
    }

    method Alloc(pages: nat, alignPages: nat, limitPages: nat) returns (r: nat)
      requires Valid()
      modifies this`freeCount, words
      ensures Valid() && r <= NONE
      ensures var m := old(Map());
              if r == NONE then
                && Map() == m && freeCount == old(freeCount)
                && (pages == 0 || forall q: nat :: !Suits(m, q, pages, alignPages, limitPages))
              else
                && pages > 0 && Lowest(m, r, pages, alignPages, limitPages)
                && Map() == Fill(m, r, r + pages, true) && freeCount == old(freeCount) - pages
    {
      forall q: nat
        ensures Suits(Map(), q, pages, alignPages, limitPages) <==> Fits(Map(), q, pages, Align(alignPages), Limit(limitPages, total))
      {
        SuitsIs(Map(), q, pages, alignPages, limitPages);
      }
      if pages == 0 || pages > freeCount {
        if pages != 0 {
          TooMany(Map(), pages, Align(alignPages), Limit(limitPages, total));
        }
        return NONE;
      }
      var start, found := FindFit(pages, Align(alignPages), Limit(limitPages, total));
      if !found {
        return NONE;
      }
      FreeRun(Map(), start, pages);
      Mark(start, pages, true);
      freeCount := freeCount - pages;
      return start;
    }

    method AllUsed(start: nat, end: nat) returns (yes: bool)
      requires Valid() && end <= total
      ensures yes == AllTaken(Map(), start, end)
    {
      var page := start;
      while page < end
        invariant start <= page
        invariant AllTaken(Map(), start, if page < end then page else end)
      {
        var taken := Used(page);
        if !taken {
          return false;
        }
        page := page + 1;
      }
      return true;
    }

    /** A range any page of which is out of range or free is refused, and nothing changes. */
    method Free(start: nat, pages: nat) returns (ok: bool)
      requires Valid()
      modifies this`freeCount, words
      ensures Valid() && ok == AllTaken(old(Map()), start, start + pages)
      ensures if ok then Map() == Fill(old(Map()), start, start + pages, false) && freeCount == old(freeCount) + pages
              else Map() == old(Map()) && freeCount == old(freeCount)
    {
      if start + pages > total {
        return false;
      }
      ok := AllUsed(start, start + pages);
      if ok {
        TakenRun(Map(), start, pages);
        Mark(start, pages, false);
        freeCount := freeCount + pages;
      }
    }
  }
}
