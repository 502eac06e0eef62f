/**
 Fences and their joins (`Fence` in intel_gen9.hpp, `joinFences`). Fences live in a table and are
 named by their index. A join is signaled once all its parts are, and caches that when polled.
 */
module Fences {
  import opened Basics

  /** `parts` is empty for a request's own fence. */
  datatype Fence = Fence(signaled: bool, status: int, parts: seq<nat>)

  type Table = seq<Fence>

  // ------------------------------------------------------------------------
  // What a fence means
  // ------------------------------------------------------------------------

  predicate AllSignaled(t: Table, ids: seq<nat>) {
    forall p :: p in ids ==> p < |t| && t[p].signaled
  }

  /** The first error among some fences, 0 if there is none. */
  function FirstError(t: Table, ids: seq<nat>): int {
    if ids == [] then 0
    else if ids[0] < |t| && t[ids[0]].status != 0 then t[ids[0]].status
    else FirstError(t, ids[1..])
  }

  /** A fence is done: itself, or all its parts. */
  predicate Done(t: Table, f: nat)
    requires f < |t|
  {
    if t[f].parts == [] then t[f].signaled else AllSignaled(t, t[f].parts)
  }

  function Outcome(t: Table, f: nat): int
    requires f < |t|
  {
    if t[f].parts == [] then t[f].status else FirstError(t, t[f].parts)
  }

  /** A part of a fence: the fence itself, or one of the parts of a join. */
  function PartsOf(t: Table, f: nat): seq<nat>
    requires f < |t|
  {
    if t[f].parts == [] then [f] else t[f].parts
  }

  ghost predicate IsLeaf(t: Table, p: nat) {
    p < |t| && t[p].parts == []
  }

  ghost predicate FenceOk(t: Table, f: nat)
    requires f < |t|
  {
    if t[f].parts == [] then !t[f].signaled ==> t[f].status == 0
    else
      && (forall p :: p in t[f].parts ==> IsLeaf(t, p))
      && (t[f].signaled ==> AllSignaled(t, t[f].parts) && t[f].status == FirstError(t, t[f].parts))
      && (!t[f].signaled ==> t[f].status == 0)
  }

  /** Parts of a join are never joins, and what a join remembers is right. */
  ghost predicate TableOk(t: Table) {
    forall f {:trigger FenceOk(t, f)} :: 0 <= f < |t| ==> FenceOk(t, f)
  }

  /** How one fence may change: a request's fence is signaled once, with an outcome, for good. */
  ghost predicate LaterFence(a: Fence, b: Fence) {
    && b.parts == a.parts
    && (a.parts == [] && a.signaled ==> b == a)
  }

  /** A later state of the table. */
  ghost predicate Later(t: Table, t': Table) {
    && |t| <= |t'| && TableOk(t')
    && forall f {:trigger t'[f]} :: 0 <= f < |t| ==> LaterFence(t[f], t'[f])
  }

  lemma {:induction false} NoErrorIff(t: Table, ids: seq<nat>)
    ensures FirstError(t, ids) == 0 <==> forall p :: p in ids && p < |t| ==> t[p].status == 0
  {
    if ids != [] {
      NoErrorIff(t, ids[1..]);
    }
  }

  /** Done means all parts are done, and there is an error exactly if a part has one. */
  lemma ByParts(t: Table, f: nat)
    requires TableOk(t) && f < |t|
    ensures Done(t, f) <==> AllSignaled(t, PartsOf(t, f))
    ensures Outcome(t, f) != 0 <==> exists p :: p in PartsOf(t, f) && p < |t| && t[p].status != 0
    ensures forall p :: p in PartsOf(t, f) ==> IsLeaf(t, p)
  {
    assert FenceOk(t, f);
    NoErrorIff(t, t[f].parts);
    assert f in [f];
  }

  lemma LaterParts(t: Table, t': Table, f: nat)
    requires Later(t, t') && f < |t|
    ensures PartsOf(t', f) == PartsOf(t, f)
  {
    assert LaterFence(t[f], t'[f]);
  }

  // ------------------------------------------------------------------------
  // Joining
  // ------------------------------------------------------------------------

  /** A part that is done without an error has nothing left to say. */
  predicate Settled(t: Table, p: nat) {
    p < |t| && t[p].signaled && t[p].status == 0
  }

  function AddPart(t: Table, pending: seq<nat>, p: nat): seq<nat> {
    if Settled(t, p) || p in pending then pending else pending + [p]
  }

  function AddParts(t: Table, pending: seq<nat>, parts: seq<nat>): seq<nat>
    decreases |parts|
  {
    if parts == [] then pending else AddPart(t, AddParts(t, pending, parts[..|parts| - 1]), parts[|parts| - 1])
  }

  /** The parts of some fences that are not settled, each once; null fences are skipped. */
  function Pending(t: Table, fs: seq<Option<nat>>): seq<nat>
    requires forall f :: f in fs && f.Some? ==> f.value < |t|
    decreases |fs|
  {
    if fs == [] then []
    else
      var rest, last := Pending(t, fs[..|fs| - 1]), fs[|fs| - 1];
      if last.None? then rest else AddParts(t, rest, PartsOf(t, last.value))
  }

  lemma {:induction false} AddPartsMembers(t: Table, pending: seq<nat>, parts: seq<nat>)
    ensures forall p :: p in AddParts(t, pending, parts) <==> p in pending || (p in parts && !Settled(t, p))
    decreases |parts|
  {
    if parts != [] {
      AddPartsMembers(t, pending, parts[..|parts| - 1]);
      assert parts == parts[..|parts| - 1] + [parts[|parts| - 1]];
    }
  }

  ghost predicate PartOfSome(t: Table, fs: seq<Option<nat>>, p: nat) {
    exists f :: f in fs && f.Some? && f.value < |t| && p in PartsOf(t, f.value)
  }

  lemma {:induction false} PendingMembers(t: Table, fs: seq<Option<nat>>, p: nat)
    requires forall f :: f in fs && f.Some? ==> f.value < |t|
    ensures p in Pending(t, fs) <==> PartOfSome(t, fs, p) && !Settled(t, p)
    decreases |fs|
  {
    if fs != [] {
      var rest, last := fs[..|fs| - 1], fs[|fs| - 1];
      assert fs == rest + [last];
      PendingMembers(t, rest, p);
      if last.Some? {
        AddPartsMembers(t, Pending(t, rest), PartsOf(t, last.value));
        assert last in fs;
      }
      assert PartOfSome(t, rest, p) ==> PartOfSome(t, fs, p);
    }
  }

  /** Settled parts stay settled. */
  lemma SettledStays(t: Table, t': Table, p: nat)
    requires Later(t, t') && Settled(t, p) && IsLeaf(t, p)
    ensures t'[p] == t[p]
  {
    assert LaterFence(t[p], t'[p]);
  }

  /** At every later time the join is done exactly when all that was joined is, and then has an
      error exactly when some of that has. */
  lemma JoinMeans(t: Table, t1: Table, r: nat, fs: seq<Option<nat>>, t': Table)
    requires TableOk(t) && (forall f :: f in fs && f.Some? ==> f.value < |t|)
    requires r < |t1| && JoinedFrom(t, t1, r, fs) && Later(t1, t') && Later(t, t')
    ensures Done(t', r) <==> forall f :: f in fs && f.Some? ==> Done(t', f.value)
    ensures Done(t', r) ==> (Outcome(t', r) != 0 <==> exists f :: f in fs && f.Some? && Outcome(t', f.value) != 0)
  {
    JoinParts(t, t1, r, fs, t');
    GivenParts(t, fs, t');
  }

  // Every part of every fence given has signaled if all the fences given have, and the same of the errors.
  lemma GivenParts(t: Table, fs: seq<Option<nat>>, t': Table)
    requires TableOk(t) && (forall f :: f in fs && f.Some? ==> f.value < |t|) && Later(t, t')
    ensures (forall p: nat :: PartOfSome(t, fs, p) ==> p < |t'| && t'[p].signaled) <==>
            forall f :: f in fs && f.Some? ==> Done(t', f.value)
    ensures (exists p: nat :: PartOfSome(t, fs, p) && p < |t'| && t'[p].status != 0) <==>
            exists f :: f in fs && f.Some? && Outcome(t', f.value) != 0
  {
    forall f | f in fs && f.Some?
      ensures Done(t', f.value) <==> AllSignaled(t', PartsOf(t, f.value))
      ensures Outcome(t', f.value) != 0 <==> exists p :: p in PartsOf(t, f.value) && p < |t'| && t'[p].status != 0
    {
      ByParts(t', f.value);
      LaterParts(t, t', f.value);
    }
    forall p: nat, f | f in fs && f.Some? && p in PartsOf(t, f.value)
      ensures PartOfSome(t, fs, p)
    {
    }
  }

  /** The same, part by part. */
  lemma JoinParts(t: Table, t1: Table, r: nat, fs: seq<Option<nat>>, t': Table)
    requires TableOk(t) && (forall f :: f in fs && f.Some? ==> f.value < |t|)
    requires r < |t1| && JoinedFrom(t, t1, r, fs) && Later(t1, t') && Later(t, t')
    ensures Done(t', r) <==> forall p: nat :: PartOfSome(t, fs, p) ==> p < |t'| && t'[p].signaled
    ensures Outcome(t', r) != 0 <==> exists p: nat :: PartOfSome(t, fs, p) && p < |t'| && t'[p].status != 0
  {
    ByParts(t', r);
    LaterParts(t1, t', r);
    forall p: nat
      ensures p in Pending(t, fs) <==> PartOfSome(t, fs, p) && !Settled(t, p)
      ensures PartOfSome(t, fs, p) && Settled(t, p) ==> p < |t'| && t'[p].signaled && t'[p].status == 0
    {
      PendingMembers(t, fs, p);
      if PartOfSome(t, fs, p) && Settled(t, p) {
        var f :| f in fs && f.Some? && f.value < |t| && p in PartsOf(t, f.value);
        ByParts(t, f.value);
        SettledStays(t, t', p);
      }
    }
    if Pending(t, fs) == [] {
      assert LaterFence(t1[r], t'[r]);
    }
  }

  // ------------------------------------------------------------------------
  // The table
  // ------------------------------------------------------------------------

  /** Remembering that a join is done changes nothing about what any fence means. */
  lemma Remembered(t: Table, f: nat)
    requires TableOk(t) && f < |t| && t[f].parts != [] && Done(t, f)
    ensures var t' := t[f := t[f].(signaled := true, status := Outcome(t, f))];
            Later(t, t') && SameMeaning(t, t')
  {
    var t' := t[f := t[f].(signaled := true, status := Outcome(t, f))];
    assert FenceOk(t, f);
    forall x | 0 <= x < |t|
      ensures FenceOk(t', x) && Done(t', x) == Done(t, x) && Outcome(t', x) == Outcome(t, x)
    {
      assert FenceOk(t, x);
      SameParts(t, t', t[x].parts, f);
    }
  }

  lemma {:induction false} SameParts(t: Table, t': Table, parts: seq<nat>, f: nat)
    requires |t'| >= |t| && (forall p :: p in parts ==> IsLeaf(t, p) && t'[p] == t[p])
    ensures AllSignaled(t', parts) == AllSignaled(t, parts) && FirstError(t', parts) == FirstError(t, parts)
  {
    if parts != [] {
      SameParts(t, t', parts[1..], f);
      assert parts == [parts[0]] + parts[1..];
    }
  }

  /** No fence means anything else than before. */
  ghost predicate SameMeaning(t: Table, t': Table) {
    |t| <= |t'| && forall x {:trigger Done(t', x)} :: 0 <= x < |t| ==> Done(t', x) == Done(t, x) && Outcome(t', x) == Outcome(t, x)
  }

  lemma LaterItself(t: Table)
    requires TableOk(t)
    ensures Later(t, t)
  {
  }

  lemma LaterTwice(a: Table, b: Table, c: Table)
    requires Later(a, b) && Later(b, c)
    ensures Later(a, c)
  {
    forall f | 0 <= f < |a|
      ensures LaterFence(a[f], c[f])
    {
      assert LaterFence(a[f], b[f]) && LaterFence(b[f], c[f]);
    }
  }

  /** A new fence changes nothing about the others. */
  lemma AddFence(t: Table, n: Fence)
    requires TableOk(t) && !n.signaled && n.status == 0 && (forall p :: p in n.parts ==> IsLeaf(t, p))
    ensures Later(t, t + [n]) && SameMeaning(t, t + [n])
  {
    var t' := t + [n];
    forall x | 0 <= x < |t|
      ensures FenceOk(t', x) && Done(t', x) == Done(t, x) && Outcome(t', x) == Outcome(t, x)
    {
      assert FenceOk(t, x) && t'[x] == t[x];
      SameParts(t, t', t[x].parts, x);
    }
    assert FenceOk(t', |t|);
  }

  lemma AddSignaled(t: Table)
    requires TableOk(t)
    ensures var t' := t + [Fence(true, 0, [])];
            Later(t, t') && SameMeaning(t, t')
  {
    var t' := t + [Fence(true, 0, [])];
    forall x | 0 <= x < |t|
      ensures FenceOk(t', x) && Done(t', x) == Done(t, x) && Outcome(t', x) == Outcome(t, x)
    {
      assert FenceOk(t, x) && t'[x] == t[x];
      SameParts(t, t', t[x].parts, x);
    }
    assert FenceOk(t', |t|);
  }

  lemma PendingLeaf(t: Table, fs: seq<Option<nat>>, p: nat)
    requires TableOk(t) && (forall f :: f in fs && f.Some? ==> f.value < |t|) && p in Pending(t, fs)
    ensures IsLeaf(t, p)
  {
    PendingMembers(t, fs, p);
    var f :| f in fs && f.Some? && f.value < |t| && p in PartsOf(t, f.value);
    ByParts(t, f.value);
  }

  /** What `joinFences` made of `fs` in the table `t`. */
  ghost predicate JoinedFrom(t: Table, t': Table, r: nat, fs: seq<Option<nat>>)
    requires r < |t'| && forall f :: f in fs && f.Some? ==> f.value < |t|
  {
    if Pending(t, fs) == [] then t'[r] == Fence(true, 0, []) else PartsOf(t', r) == Pending(t, fs)
  }

  /** The fence `joinFences` returns means all of its arguments, at every time from then on. */
  lemma JoinKeepsMeaning(t: Table, t': Table, r: nat, fs: seq<Option<nat>>, t'': Table)
    requires TableOk(t) && Later(t, t') && Later(t', t'') && r < |t'|
    requires (forall f :: f in fs && f.Some? ==> f.value < |t|) && JoinedFrom(t, t', r, fs)
    ensures Done(t'', r) <==> forall f :: f in fs && f.Some? ==> Done(t'', f.value)
    ensures Done(t'', r) ==> (Outcome(t'', r) != 0 <==> exists f :: f in fs && f.Some? && Outcome(t'', f.value) != 0)
  {
    LaterTwice(t, t', t'');
    JoinMeans(t, t', r, fs, t'');
  }

  /** Whether there is memory for a list of points, for an array of parts, and for a fence. */
  datatype Memory = Memory(list: bool, parts: bool, fence: bool)

  class FenceTable {
    var fences: Table

    constructor ()
      ensures TableOk(fences) && fences == []
    {
      fences := [];
    }

    /** `poll`. */
    method Poll(f: nat) returns (signaled: bool)
      requires TableOk(fences) && f < |fences|
      modifies this
      ensures signaled == Done(old(fences), f) && Later(old(fences), fences) && |fences| == |old(fences)|
      ensures signaled ==> fences[f].signaled && fences[f].status == Outcome(old(fences), f)
      ensures SameMeaning(old(fences), fences)
    {
      ghost var t := fences;
      LaterItself(t);
      assert FenceOk(t, f);
      if fences[f].signaled || fences[f].parts == [] {
        return fences[f].signaled;
      }
      var parts := fences[f].parts;
      for i := 0 to |parts|
        invariant fences == t
        invariant AllSignaled(t, parts[..i])
      {
        assert parts[i] in parts;
        assert IsLeaf(t, parts[i]);
        if !fences[parts[i]].signaled {
          return false;
        }
        assert parts[..i + 1] == parts[..i] + [parts[i]];
      }
      assert parts[..|parts|] == parts;
      var status, i := 0, 0;
      assert parts[0..] == parts;
      while i < |parts| && status == 0
        invariant fences == t && 0 <= i <= |parts|
        invariant FirstError(t, parts) == if status != 0 then status else FirstError(t, parts[i..])
      {
        assert parts[i] in parts;
        assert IsLeaf(t, parts[i]);
        assert parts[i..][0] == parts[i] && parts[i..][1..] == parts[i + 1..];
        status := fences[parts[i]].status;
        i := i + 1;
      }
      assert status == Outcome(t, f);
      Remembered(t, f);
      fences := fences[f := fences[f].(signaled := true, status := status)];
      assert fences == t[f := t[f].(signaled := true, status := Outcome(t, f))];
      return true;
    }

    /** One part of a fence that is joined. Parts are requests' fences, so looking at one changes
        nothing. */
    method Consider(pending: seq<nat>, p: nat) returns (pending': seq<nat>)
      requires p < |fences|
      ensures pending' == AddPart(fences, pending, p)
    {
      if fences[p].signaled && fences[p].status == 0 {
        return pending;
      }
      for j := 0 to |pending|
        invariant p !in pending[..j]
      {
        if pending[j] == p {
          return pending;
        }
      }
      return pending + [p];
    }

    /** The parts of one fence that is joined. */
    method ConsiderAll(pending: seq<nat>, parts: seq<nat>) returns (pending': seq<nat>)
      requires forall p :: p in parts ==> p < |fences|
      ensures pending' == AddParts(fences, pending, parts)
    {
      pending' := pending;
      for k := 0 to |parts|
        invariant pending' == AddParts(fences, pending, parts[..k])
      {
        assert parts[..k + 1][..k] == parts[..k] && parts[..k + 1][k] == parts[k];
        assert parts[k] in parts;
        pending' := Consider(pending', parts[k]);
      }
      assert parts[..|parts|] == parts;
    }

    /** The pending parts of some fences. */
    method Gather(fs: seq<Option<nat>>) returns (pending: seq<nat>)
      requires TableOk(fences) && forall f :: f in fs && f.Some? ==> f.value < |fences|
      ensures pending == Pending(fences, fs)
    {
      pending := [];
      for i := 0 to |fs|
        invariant pending == Pending(fences, fs[..i])
      {
        assert fs[..i + 1][..i] == fs[..i] && fs[..i + 1][i] == fs[i];
        if fs[i].Some? {
          var f := fs[i].value;
          assert fs[i] in fs;
          ByParts(fences, f);
          pending := ConsiderAll(pending, if fences[f].parts == [] then [f] else fences[f].parts);
        }
      }
      assert fs[..|fs|] == fs;
    }

    /** `joinFences`. The parts are collected into an array, and unless exactly one of them is left a fence is made: there
        is no answer exactly when there is no memory for that. */
    method Join(fs: seq<Option<nat>>, memory: Memory) returns (r: Option<nat>)
      requires TableOk(fences) && forall f :: f in fs && f.Some? ==> f.value < |fences|
      modifies this
      ensures Later(old(fences), fences)
      ensures r.Some? ==> r.value < |fences| && JoinedFrom(old(fences), fences, r.value, fs)
      ensures r.None? <==> (!memory.parts && exists f :: f in fs && f.Some?) || (!memory.fence && |Pending(old(fences), fs)| != 1)
      ensures SameMeaning(old(fences), fences)
    {
      ghost var t := fences;
      LaterItself(t);
      var some := AnyGiven(fs);
      if some && !memory.parts {
        return None;
      }
      var pending := Gather(fs);
      if pending == [] {
        if !memory.fence {
          return None;
        }
        AddSignaled(fences);
        fences := fences + [Fence(true, 0, [])];
        return Some(|fences| - 1);
      }
      forall p | p in pending
        ensures IsLeaf(t, p)
      {
        PendingLeaf(t, fs, p);
      }
      if |pending| == 1 {
        assert pending[0] in pending && pending == [pending[0]];
        return Some(pending[0]);
      }
      if !memory.fence {
        return None;
      }
      AddFence(fences, Fence(false, 0, pending));
      fences := fences + [Fence(false, 0, pending)];
      return Some(|fences| - 1);
    }

    /** Whether there is anything to join: the parts are counted first. */
    method AnyGiven(fs: seq<Option<nat>>) returns (some: bool)
      ensures some <==> exists f :: f in fs && f.Some?
    {
      some := false;
      for i := 0 to |fs|
        invariant some <==> exists k :: 0 <= k < i && fs[k].Some?
      {
        some := some || fs[i].Some?;
      }
    }
  }
}
