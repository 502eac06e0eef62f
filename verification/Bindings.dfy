/**
 Where objects are bound in an address space: the `Binding` list of a `DrmVm`, what an
 execbuffer does to it, and what stays true of it.
 */
module Bindings {
  import opened Basics

  datatype Binding = Binding(va: nat, size: nat, obj: nat)

  predicate Overlap(a: Binding, b: Binding) {
    a.va < b.va + b.size && b.va < a.va + a.size
  }

  predicate InPlace(x: Binding, b: Binding) {
    x.obj == b.obj && x.va == b.va
  }

  /** What has to go before `b` can be bound: another object across its range, or the same
      object somewhere else. */
  predicate InTheWay(x: Binding, b: Binding) {
    !InPlace(x, b) && (Overlap(x, b) || x.obj == b.obj)
  }

  predicate AnyInPlace(bs: seq<Binding>, b: Binding) {
    exists x :: x in bs && InPlace(x, b)
  }

  /** Binding one object: what is in the way is dropped, a binding already there is kept, and
      otherwise a new one goes in front. */
  function Evict(bs: seq<Binding>, b: Binding): seq<Binding> {
    Filter((x: Binding) => !InTheWay(x, b), bs)
  }

  function Place(bs: seq<Binding>, b: Binding): seq<Binding> {
    if AnyInPlace(bs, b) then Evict(bs, b) else [b] + Evict(bs, b)
  }

  function PlaceAll(bs: seq<Binding>, wants: seq<Binding>): seq<Binding>
    decreases |wants|
  {
    if wants == [] then bs else Place(PlaceAll(bs, wants[..|wants| - 1]), wants[|wants| - 1])
  }

  /** A bind loop that failed part way: what came before it stays bound, what was in its way is gone. */
  function PlaceSome(bs: seq<Binding>, wants: seq<Binding>, k: nat): seq<Binding>
    requires k <= |wants|
  {
    if k < |wants| then Evict(PlaceAll(bs, wants[..k]), wants[k]) else PlaceAll(bs, wants)
  }

  function Without(bs: seq<Binding>, obj: nat): seq<Binding> {
    Filter((x: Binding) => x.obj != obj, bs)
  }

  /** Some binding would have to be dropped to bind `wants`. */
  predicate NeedsEviction(bs: seq<Binding>, wants: seq<Binding>) {
    exists x, w :: x in bs && w in wants && InTheWay(x, w)
  }

  /** Bindings never overlap, and an object is bound at most once. */
  predicate Apart(bs: seq<Binding>) {
    forall i, j :: 0 <= i < j < |bs| ==> !Overlap(bs[i], bs[j]) && bs[i].obj != bs[j].obj
  }

  lemma ApartMembers(bs: seq<Binding>, x: Binding, y: Binding)
    requires Apart(bs) && x in bs && y in bs && x != y
    ensures !Overlap(x, y) && x.obj != y.obj
  {
  }

  lemma ApartTail(bs: seq<Binding>)
    requires Apart(bs) && bs != []
    ensures Apart(bs[1..]) && forall y :: y in bs[1..] ==> !Overlap(bs[0], y) && bs[0].obj != y.obj
  {
    assert forall i :: 0 <= i < |bs[1..]| ==> bs[1..][i] == bs[i + 1];
  }

  lemma ApartMore(b: Binding, bs: seq<Binding>)
    requires Apart(bs) && forall y :: y in bs ==> !Overlap(b, y) && b.obj != y.obj
    ensures Apart([b] + bs)
  {
    assert forall j :: 0 <= j < |bs| ==> bs[j] in bs;
  }

  lemma {:induction false} FilterApart(keep: Binding -> bool, bs: seq<Binding>)
    requires Apart(bs)
    ensures Apart(Filter(keep, bs))
  {
    if bs != [] {
      ApartTail(bs);
      FilterApart(keep, bs[1..]);
      if keep(bs[0]) {
        ApartMore(bs[0], Filter(keep, bs[1..]));
      } else {
        assert Filter(keep, bs) == Filter(keep, bs[1..]);
      }
    }
  }

  lemma PlaceApart(bs: seq<Binding>, b: Binding)
    requires Apart(bs)
    ensures Apart(Place(bs, b))
  {
    FilterApart((x: Binding) => !InTheWay(x, b), bs);
    if !AnyInPlace(bs, b) {
      forall y | y in Evict(bs, b)
        ensures !Overlap(b, y) && b.obj != y.obj
      {
        assert !InTheWay(y, b) && !InPlace(y, b);
      }
      ApartMore(b, Evict(bs, b));
    }
  }

  /** `wants` as an execbuffer checks them: no two overlap, no object twice; and a binding of an
      object has that object's size. */
  predicate SizesAgree(bs: seq<Binding>, wants: seq<Binding>) {
    forall x, w :: x in bs && w in wants && x.obj == w.obj ==> x.size == w.size
  }

  lemma PlaceMembers(bs: seq<Binding>, b: Binding)
    requires forall x :: x in bs && x.obj == b.obj ==> x.size == b.size
    ensures forall x :: x in Place(bs, b) <==> x == b || (x in bs && !InTheWay(x, b))
  {
  }

  /** Everything an execbuffer asks for ends up bound, nothing else is added, and only what is in
      the way is dropped. */
  lemma {:induction false} PlaceAllMembers(bs: seq<Binding>, wants: seq<Binding>)
    requires Apart(wants) && SizesAgree(bs, wants)
    ensures forall x :: x in PlaceAll(bs, wants) <==>
              x in wants || (x in bs && forall w :: w in wants ==> !InTheWay(x, w))
    decreases |wants|
  {
    if wants != [] {
      var n := |wants| - 1;
      var before, b := wants[..n], wants[n];
      assert wants == before + [b];
      assert Apart(before);
      PlaceAllMembers(bs, before);
      var mid := PlaceAll(bs, before);
      forall x | x in mid && x.obj == b.obj
        ensures x.size == b.size
      {
        if x in before {
          ApartMembers(wants, x, b);
        }
      }
      PlaceMembers(mid, b);
      forall x | x in before
        ensures !InTheWay(x, b)
      {
        if x != b {
          ApartMembers(wants, x, b);
        }
      }
    }
  }

  /** After the bind loop the list holds what was asked for, and of the old bindings exactly those of other objects that
      lie wholly before or wholly after everything asked for. */
  lemma PlacedExactly(bs: seq<Binding>, wants: seq<Binding>)
    requires Apart(wants) && SizesAgree(bs, wants)
    ensures forall x :: x in PlaceAll(bs, wants) <==>
              || x in wants
              || (x in bs && forall w :: w in wants ==> x.obj != w.obj && (x.va + x.size <= w.va || w.va + w.size <= x.va))
  {
    PlaceAllMembers(bs, wants);
    forall x, w | x in bs && w in wants && x !in wants
      ensures !InTheWay(x, w) <==> x.obj != w.obj && (x.va + x.size <= w.va || w.va + w.size <= x.va)
    {
    }
  }

  lemma {:induction false} PlaceAllApart(bs: seq<Binding>, wants: seq<Binding>)
    requires Apart(bs)
    ensures Apart(PlaceAll(bs, wants))
    decreases |wants|
  {
    if wants != [] {
      PlaceAllApart(bs, wants[..|wants| - 1]);
      PlaceApart(PlaceAll(bs, wants[..|wants| - 1]), wants[|wants| - 1]);
    }
  }
}
