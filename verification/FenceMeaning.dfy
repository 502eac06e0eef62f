/**
 The two views of a fence are one: what the request queue takes a fence for, the requests it waits for, is what the
 table of fences makes of it.
 */
module FenceMeaning {
  import F = Fences
  import opened RequestQueue
  import opened ImplicitFencing

  /** Which request's own fence a fence of the table is. */
  type Names = map<nat, nat>

  /** A request's fence is signaled in the table as it is in the queue; any other that is no join was made signaled. */
  ghost predicate Mirrors(t: F.Table, status: seq<Status>, names: Names) {
    forall p: nat {:trigger F.IsLeaf(t, p)} :: F.IsLeaf(t, p) ==>
      if p in names then
        names[p] < |status| && (if t[p].signaled then status[names[p]] == Done(t[p].status) else status[names[p]] == Pending)
      else t[p].signaled && t[p].status == 0
  }

  /** The requests among some fences. */
  function Named(names: Names, ids: seq<nat>): Fence {
    if ids == [] then []
    else (if ids[0] in names then [names[ids[0]]] else []) + Named(names, ids[1..])
  }

  function Meaning(t: F.Table, names: Names, f: nat): Fence
    requires f < |t|
  {
    Named(names, F.PartsOf(t, f))
  }

  ghost predicate AllLeaves(t: F.Table, ids: seq<nat>) {
    forall p :: p in ids ==> F.IsLeaf(t, p)
  }

  lemma {:induction false} NamedMeans(t: F.Table, status: seq<Status>, names: Names, ids: seq<nat>)
    requires Mirrors(t, status, names) && AllLeaves(t, ids)
    ensures F.AllSignaled(t, ids) <==> Polled(status, Named(names, ids))
    ensures forall x :: x in Named(names, ids) ==> x < |status|
    ensures Polled(status, Named(names, ids)) ==> FenceError(status, Named(names, ids)) == F.FirstError(t, ids)
    decreases |ids|
  {
    if ids != [] {
      var rest, p := ids[1..], ids[0];
      assert F.IsLeaf(t, p) && ids == [p] + rest;
      NamedMeans(t, status, names, rest);
      assert F.AllSignaled(t, ids) <==> t[p].signaled && F.AllSignaled(t, rest);
      if p in names {
        var named := Named(names, ids);
        assert named == [names[p]] + Named(names, rest) && named[1..] == Named(names, rest);
        assert Polled(status, named) <==> Signaled(status, names[p]) && Polled(status, Named(names, rest));
      } else {
        assert Named(names, ids) == Named(names, rest);
      }
    }
  }

  /** Polling a fence of the table, and its error, are what the queue computes from its requests. */
  lemma MeaningAgrees(t: F.Table, status: seq<Status>, names: Names, f: nat)
    requires F.TableOk(t) && Mirrors(t, status, names) && f < |t|
    ensures F.Done(t, f) <==> Polled(status, Meaning(t, names, f))
    ensures F.Done(t, f) ==> F.Outcome(t, f) == FenceError(status, Meaning(t, names, f))
    ensures forall x :: x in Meaning(t, names, f) ==> x < |status|
  {
    F.ByParts(t, f);
    NamedMeans(t, status, names, F.PartsOf(t, f));
    assert F.FenceOk(t, f);
    if t[f].parts == [] {
      assert F.IsLeaf(t, f);
      assert F.FirstError(t, [f]) == t[f].status by { assert [f][1..] == []; }
    }
  }

  /** So the fences an execbuffer waits for explicitly, wherever they come from, may be given to the queue. */
  lemma ExplicitMeaning(t: F.Table, q: Queues, names: Names, fs: seq<nat>)
    requires F.TableOk(t) && Mirrors(t, q.status, names) && forall i :: 0 <= i < |fs| ==> fs[i] < |t|
    ensures Explicit(q, seq(|fs|, i requires 0 <= i < |fs| => Meaning(t, names, fs[i])))
  {
    forall i | 0 <= i < |fs|
      ensures forall x :: x in Meaning(t, names, fs[i]) ==> x < |q.status|
    {
      MeaningAgrees(t, q.status, names, fs[i]);
    }
  }
}
