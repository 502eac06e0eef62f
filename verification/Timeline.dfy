/**
 Timeline sync objects: fences recorded at points, a wait on a point waits for every point up to
 it, and points signaled without an error drop off the front.
 */
module Timeline {
  import opened Basics
  import opened Fences

  datatype Point = Point(point: nat, fence: nat)

  datatype Sync = Sync(points: seq<Point>, lastPoint: nat, signaledPoint: nat)

  const EMPTY := Sync([], 0, 0)

  /** Every point ever added and the fence it was last given, since the last reset. */
  type Record = map<nat, nat>

  ghost predicate Known(t: Table, points: seq<Point>) {
    forall i :: 0 <= i < |points| ==> points[i].fence < |t|
  }

  predicate Clean(t: Table, f: nat)
    requires f < |t|
  {
    Done(t, f) && Outcome(t, f) == 0
  }

  /** `prunePoints`. */
  ghost function Prune(t: Table, s: Sync): (s': Sync)
    requires Known(t, s.points)
    ensures Known(t, s'.points) && s'.lastPoint == s.lastPoint && |s'.points| <= |s.points|
    decreases |s.points|
  {
    if s.points != [] && Clean(t, s.points[0].fence) then
      Prune(t, s.(points := s.points[1..], signaledPoint := s.points[0].point))
    else s
  }

  /** Nothing at the front would be dropped. */
  ghost predicate Pruned(t: Table, s: Sync)
    requires Known(t, s.points)
  {
    s.points != [] ==> !Clean(t, s.points[0].fence)
  }

  /** The first entry at or past a point. */
  function UpTo(points: seq<Point>, p: nat): (u: nat)
    ensures u <= |points|
    ensures forall i :: 0 <= i < u ==> points[i].point < p
    ensures u < |points| ==> points[u].point >= p
  {
    if points != [] && points[0].point < p then
      var u := UpTo(points[1..], p) + 1;
      assert forall i :: 0 < i < u ==> points[i] == points[1..][i - 1];
      u
    else 0
  }

  function FencesOf(points: seq<Point>): (fs: seq<nat>)
    ensures |fs| == |points| && forall i :: 0 <= i < |points| ==> fs[i] == points[i].fence
  {
    seq(|points|, i requires 0 <= i < |points| => points[i].fence)
  }

  /** What `syncFenceFor` waits on: some fences, maybe none, or nothing to wait on yet. */
  ghost function WaitsFor(t: Table, s: Sync, p: nat): Option<seq<nat>>
    requires Known(t, s.points)
  {
    var s' := Prune(t, s);
    var u := UpTo(s'.points, p);
    if u < |s'.points| then Some(FencesOf(s'.points[..u + 1]))
    else if p <= s'.signaledPoint || p <= s'.lastPoint then Some([])
    else None
  }

  ghost predicate AllDone(t: Table, fs: seq<nat>) {
    forall f :: f in fs ==> f < |t| && Done(t, f)
  }

  /** A point's entry goes where it belongs; the same point again replaces its fence. */
  function Insert(points: seq<Point>, p: nat, f: nat): seq<Point> {
    PutAt(points, UpTo(points, p), p, f)
  }

  function PutAt(points: seq<Point>, at: nat, p: nat, f: nat): seq<Point>
    requires at <= |points|
  {
    if at < |points| && points[at].point == p then points[at := Point(p, f)]
    else points[..at] + [Point(p, f)] + points[at..]
  }

  function WithPoint(s: Sync, p: nat, f: nat): Sync {
    s.(points := Insert(s.points, p, f), lastPoint := if p > s.lastPoint then p else s.lastPoint)
  }

  /** The list with a new point, before it is pruned again. */
  ghost function Inserted(t: Table, s: Sync, p: nat, f: nat): Sync
    requires Known(t, s.points)
  {
    WithPoint(Prune(t, s), p, f)
  }

  lemma InsertMembers(points: seq<Point>, p: nat, f: nat)
    ensures forall e :: e in Insert(points, p, f) ==> e == Point(p, f) || e in points
    ensures Point(p, f) in Insert(points, p, f)
    ensures forall e :: e in points && e.point != p ==> e in Insert(points, p, f)
  {
    var at, points' := UpTo(points, p), Insert(points, p, f);
    assert points'[at] == Point(p, f);
    forall e | e in points && e.point != p
      ensures e in points'
    {
      var i :| 0 <= i < |points| && points[i] == e;
      assert points'[if |points'| == |points| || i < at then i else i + 1] == e;
    }
  }

  lemma InsertKnown(t: Table, points: seq<Point>, p: nat, f: nat)
    requires Known(t, points) && f < |t|
    ensures Known(t, Insert(points, p, f))
  {
  }

  /** `syncAddPoint`: it ends with another pruning. */
  ghost function Added(t: Table, s: Sync, p: nat, f: nat): Sync
    requires Known(t, s.points) && f < |t|
  {
    InsertKnown(t, Prune(t, s).points, p, f);
    Prune(t, Inserted(t, s, p, f))
  }

  ghost function Reach(t: Table, points: seq<Point>, reached: nat): nat
    requires Known(t, points)
  {
    if points != [] && Done(t, points[0].fence) then Reach(t, points[1..], points[0].point) else reached
  }

  /** `syncQuery`. */
  ghost function Query(t: Table, s: Sync): nat
    requires Known(t, s.points)
  {
    Reach(t, Prune(t, s).points, Prune(t, s).signaledPoint)
  }

  // ------------------------------------------------------------------------
  // What stays true
  // ------------------------------------------------------------------------

  ghost predicate Sorted(points: seq<Point>) {
    forall i, j :: 0 <= i < j < |points| ==> points[i].point < points[j].point
  }

  ghost predicate Listed(points: seq<Point>, x: nat, f: nat) {
    Point(x, f) in points
  }

  /** What was recorded is on the list, or is done without an error. */
  ghost predicate RecordOk(t: Table, s: Sync, rec: Record, x: nat)
    requires x in rec
  {
    x <= s.lastPoint && rec[x] < |t| && (Listed(s.points, x, rec[x]) || Clean(t, rec[x]))
  }

  ghost predicate EntryOk(rec: Record, e: Point) {
    e.point in rec && rec[e.point] == e.fence
  }

  /** What every call keeps, whatever points it is given. */
  ghost predicate SyncOk(t: Table, s: Sync, rec: Record) {
    && TableOk(t) && Known(t, s.points) && Sorted(s.points) && s.signaledPoint <= s.lastPoint
    && (forall i {:trigger s.points[i]} :: 0 <= i < |s.points| ==> EntryOk(rec, s.points[i]))
    && (forall x {:trigger RecordOk(t, s, rec, x)} :: x in rec ==> RecordOk(t, s, rec, x))
  }

  /** Done without an error stays so. */
  lemma CleanStays(t: Table, t': Table, f: nat)
    requires TableOk(t) && Later(t, t') && f < |t| && Clean(t, f)
    ensures Clean(t', f)
  {
    ByParts(t, f);
    ByParts(t', f);
    LaterParts(t, t', f);
    forall p | p in PartsOf(t, f)
      ensures t'[p] == t[p]
    {
      SettledStays(t, t', p);
    }
  }

  /** Done stays done. */
  lemma DoneStays(t: Table, t': Table, f: nat)
    requires TableOk(t) && Later(t, t') && f < |t| && Done(t, f)
    ensures Done(t', f)
  {
    ByParts(t, f);
    ByParts(t', f);
    LaterParts(t, t', f);
    forall p | p in PartsOf(t, f)
      ensures t'[p] == t[p]
    {
      assert LaterFence(t[p], t'[p]);
    }
  }

  /** Time passing. */
  lemma SyncLater(t: Table, t': Table, s: Sync, rec: Record)
    requires SyncOk(t, s, rec) && Later(t, t')
    ensures SyncOk(t', s, rec)
  {
    forall x | x in rec
      ensures RecordOk(t', s, rec, x)
    {
      assert RecordOk(t, s, rec, x);
      if Clean(t, rec[x]) {
        CleanStays(t, t', rec[x]);
      }
    }
  }

  /** Pruning. */
  lemma {:induction false} PruneOk(t: Table, s: Sync, rec: Record)
    requires SyncOk(t, s, rec)
    ensures SyncOk(t, Prune(t, s), rec)
    ensures Pruned(t, Prune(t, s))
    decreases |s.points|
  {
    if s.points != [] && Clean(t, s.points[0].fence) {
      var s' := s.(points := s.points[1..], signaledPoint := s.points[0].point);
      forall x | x in rec
        ensures RecordOk(t, s', rec, x)
      {
        assert RecordOk(t, s, rec, x);
        if Listed(s.points, x, rec[x]) {
          var i :| 0 <= i < |s.points| && s.points[i] == Point(x, rec[x]);
          assert i > 0 ==> s'.points[i - 1] == Point(x, rec[x]);
        }
      }
      assert RecordOk(t, s, rec, s.points[0].point);
      PruneOk(t, s', rec);
    }
  }

  lemma {:induction false} PruneTwice(t: Table, s: Sync)
    requires Known(t, s.points)
    ensures Prune(t, Prune(t, s)) == Prune(t, s)
    decreases |s.points|
  {
    if s.points != [] && Clean(t, s.points[0].fence) {
      PruneTwice(t, s.(points := s.points[1..], signaledPoint := s.points[0].point));
    }
  }

  lemma ListedBelow(t: Table, s: Sync, rec: Record)
    requires SyncOk(t, s, rec)
    ensures Below(s.points, s.lastPoint)
  {
    forall i | 0 <= i < |s.points|
      ensures s.points[i].point <= s.lastPoint
    {
      assert EntryOk(rec, s.points[i]);
      assert RecordOk(t, s, rec, s.points[i].point);
    }
  }

  // ------------------------------------------------------------------------
  // Waiting
  // ------------------------------------------------------------------------

  ghost predicate Below(points: seq<Point>, bound: nat) {
    forall i {:trigger points[i]} :: 0 <= i < |points| ==> points[i].point <= bound
  }

  /** The list ends with the last point there is. */
  ghost predicate EndsAtLast(s: Sync) {
    s.points != [] && s.points[|s.points| - 1].point == s.lastPoint
  }

  /** No wait for a point past the end of the list can miss anything on it. */
  ghost predicate Tight(t: Table, s: Sync)
    requires Known(t, s.points)
  {
    s.points == [] || EndsAtLast(s) || AllDone(t, FencesOf(s.points))
  }

  lemma FenceAt(points: seq<Point>, u: nat, i: nat)
    requires i <= u < |points|
    ensures points[i].fence in FencesOf(points[..u + 1])
  {
    assert FencesOf(points[..u + 1])[i] == points[i].fence;
  }

  lemma AllDoneAt(t: Table, points: seq<Point>)
    requires Known(t, points)
    ensures AllDone(t, FencesOf(points)) <==> forall i {:trigger points[i]} :: 0 <= i < |points| ==> Done(t, points[i].fence)
  {
    assert forall i :: 0 <= i < |points| ==> FencesOf(points)[i] in FencesOf(points);
  }

  /** Dropping what is done changes nothing of that. */
  lemma HeadTight(t: Table, s: Sync, point: nat)
    requires Known(t, s.points) && s.points != [] && Clean(t, s.points[0].fence)
    ensures Tight(t, s.(points := s.points[1..], signaledPoint := point)) <==> Tight(t, s)
  {
    var rest := s.points[1..];
    AllDoneAt(t, s.points);
    AllDoneAt(t, rest);
    assert forall i :: 0 < i < |s.points| ==> s.points[i] == rest[i - 1];
    assert forall i :: 0 <= i < |rest| ==> rest[i] == s.points[i + 1];
  }

  lemma {:induction false} PruneTight(t: Table, s: Sync)
    requires Known(t, s.points)
    ensures Tight(t, Prune(t, s)) <==> Tight(t, s)
    decreases |s.points|
  {
    if s.points != [] && Clean(t, s.points[0].fence) {
      HeadTight(t, s, s.points[0].point);
      PruneTight(t, s.(points := s.points[1..], signaledPoint := s.points[0].point));
    }
  }

  /** A listed point is waited for by every wait on a point past it. */
  lemma WaitedFor(t: Table, s: Sync, q: nat, x: nat, f: nat)
    requires Known(t, s.points) && Pruned(t, s) && Sorted(s.points) && EndsAtLast(s) && s.signaledPoint <= s.lastPoint
    requires WaitsFor(t, s, q).Some? && Listed(s.points, x, f) && x <= q
    ensures f in WaitsFor(t, s, q).value
  {
    var i :| 0 <= i < |s.points| && s.points[i] == Point(x, f);
    var u := UpTo(s.points, q);
    if u < |s.points| {
      FenceAt(s.points, u, i);
    }
  }

  /** Never early: once the fence for a point is done, every recorded point up to it is, pruned or not, and not only
      now. */
  lemma NeverEarly(t: Table, s: Sync, rec: Record, p: nat, t': Table, x: nat)
    requires SyncOk(t, s, rec) && Tight(t, s) && p > 0 && Later(t, t')
    requires WaitsFor(t, s, p).Some? && AllDone(t', WaitsFor(t, s, p).value)
    requires x in rec && x <= p
    ensures rec[x] < |t'| && Done(t', rec[x])
  {
    PruneOk(t, s, rec);
    PruneTwice(t, s);
    PruneTight(t, s);
    var s' := Prune(t, s);
    assert RecordOk(t, s', rec, x);
    if !Listed(s'.points, x, rec[x]) {
      CleanStays(t, t', rec[x]);
    } else if EndsAtLast(s') {
      WaitedFor(t, s', p, x, rec[x]);
    } else {
      AllDoneAt(t, s'.points);
      DoneStays(t, t', rec[x]);
    }
  }

  /** Not early, as things are now. */
  ghost predicate NotEarly(t: Table, s: Sync, rec: Record)
    requires Known(t, s.points)
  {
    forall q, x {:trigger WaitsFor(t, s, q), rec[x]} ::
      q > 0 && WaitsFor(t, s, q).Some? && AllDone(t, WaitsFor(t, s, q).value) && x in rec && x <= q ==> rec[x] < |t| && Done(t, rec[x])
  }

  /** A wait for the last point is over at once, and a point that was recorded is pending. */
  ghost predicate Misses(t: Table, s: Sync, rec: Record, x: nat)
    requires Known(t, s.points)
  {
    && s.lastPoint > 0 && WaitsFor(t, s, s.lastPoint) == Some([])
    && x in rec && x <= s.lastPoint && rec[x] < |t| && !Done(t, rec[x])
  }

  /** A list that ends before the last point, with something pending on it. */
  lemma LooseMisses(t: Table, s: Sync, rec: Record) returns (x: nat)
    requires SyncOk(t, s, rec) && !Tight(t, s)
    ensures Misses(t, s, rec, x)
  {
    PruneOk(t, s, rec);
    PruneTight(t, s);
    var s' := Prune(t, s);
    PastEnd(t, s', rec);
    x := SomePending(t, s', rec);
    assert RecordOk(t, s', rec, x);
  }

  lemma SomePending(t: Table, s: Sync, rec: Record) returns (x: nat)
    requires SyncOk(t, s, rec) && !AllDone(t, FencesOf(s.points))
    ensures x in rec && rec[x] < |t| && !Done(t, rec[x])
  {
    AllDoneAt(t, s.points);
    var i :| 0 <= i < |s.points| && !Done(t, s.points[i].fence);
    assert EntryOk(rec, s.points[i]);
    x := s.points[i].point;
  }

  lemma PastEnd(t: Table, s: Sync, rec: Record)
    requires SyncOk(t, s, rec) && s.points != [] && !EndsAtLast(s)
    ensures s.lastPoint > 0 && UpTo(s.points, s.lastPoint) == |s.points|
  {
    ListedBelow(t, s, rec);
    assert s.points[|s.points| - 1].point < s.lastPoint;
  }

  /** Waits are not early exactly when the list is empty, or ends with the last point, or is all done. */
  lemma NotEarlyIs(t: Table, s: Sync, rec: Record)
    requires SyncOk(t, s, rec)
    ensures NotEarly(t, s, rec) <==> Tight(t, s)
  {
    if Tight(t, s) {
      LaterItself(t);
      forall q, x | q > 0 && WaitsFor(t, s, q).Some? && AllDone(t, WaitsFor(t, s, q).value) && x in rec && x <= q
        ensures rec[x] < |t| && Done(t, rec[x])
      {
        NeverEarly(t, s, rec, q, t, x);
      }
    } else {
      var x := LooseMisses(t, s, rec);
      assert AllDone(t, []);
    }
  }

  /** Exact: a wait for a point the list reaches is over as soon as every point recorded up to the first at or past it
      is done; one for a point it does not reach is over at once, unless no such point was ever added. */
  lemma Exact(t: Table, s: Sync, rec: Record, p: nat, t': Table)
    requires SyncOk(t, s, rec) && p > 0 && Later(t, t')
    ensures WaitsFor(t, s, p).None? <==> p > s.lastPoint
    ensures p <= s.lastPoint ==>
              var points := Prune(t, s).points;
              var u := UpTo(points, p);
              && (u < |points| <==> points != [] && p <= points[|points| - 1].point)
              && (if u < |points| then
                    AllDone(t', WaitsFor(t, s, p).value) <==>
                      forall x :: x in rec && x <= points[u].point ==> rec[x] < |t'| && Done(t', rec[x])
                  else WaitsFor(t, s, p) == Some([]))
  {
    PruneOk(t, s, rec);
    WaitsWhen(t, s, rec, p);
    var s' := Prune(t, s);
    var u := UpTo(s'.points, p);
    if u < |s'.points| {
      ExactUpTo(t, s', rec, u, t');
    }
  }

  // A wait is refused past the highest point ever added, and has something to wait for up to the highest listed.
  lemma WaitsWhen(t: Table, s: Sync, rec: Record, p: nat)
    requires SyncOk(t, s, rec) && SyncOk(t, Prune(t, s), rec) && p > 0
    ensures WaitsFor(t, s, p).None? <==> p > s.lastPoint
    ensures var points := Prune(t, s).points;
            UpTo(points, p) < |points| <==> points != [] && p <= points[|points| - 1].point
  {
    ListedBelow(t, Prune(t, s), rec);
  }

  lemma ExactUpTo(t: Table, s: Sync, rec: Record, u: nat, t': Table)
    requires SyncOk(t, s, rec) && u < |s.points| && Later(t, t')
    ensures AllDone(t', FencesOf(s.points[..u + 1])) <==>
              forall x :: x in rec && x <= s.points[u].point ==> rec[x] < |t'| && Done(t', rec[x])
  {
    var fs := FencesOf(s.points[..u + 1]);
    if AllDone(t', fs) {
      forall x | x in rec && x <= s.points[u].point
        ensures rec[x] < |t'| && Done(t', rec[x])
      {
        assert RecordOk(t, s, rec, x);
        if Listed(s.points, x, rec[x]) {
          var i :| 0 <= i < |s.points| && s.points[i] == Point(x, rec[x]);
          FenceAt(s.points, u, i);
        } else {
          CleanStays(t, t', rec[x]);
        }
      }
    }
    if forall x :: x in rec && x <= s.points[u].point ==> rec[x] < |t'| && Done(t', rec[x]) {
      forall f | f in fs
        ensures f < |t'| && Done(t', f)
      {
        var i :| 0 <= i < |fs| && fs[i] == f;
        assert EntryOk(rec, s.points[i]) && s.points[i].point <= s.points[u].point;
      }
    }
  }

  // ------------------------------------------------------------------------
  // Adding a point
  // ------------------------------------------------------------------------

  lemma InsertSorted(points: seq<Point>, p: nat, f: nat)
    requires Sorted(points)
    ensures Sorted(Insert(points, p, f))
  {
    var at, points' := UpTo(points, p), Insert(points, p, f);
    if !(at < |points| && points[at].point == p) {
      forall i, j | 0 <= i < j < |points'|
        ensures points'[i].point < points'[j].point
      {
        assert i > at ==> points'[i] == points[i - 1];
        assert j > at ==> points'[j] == points[j - 1];
        assert i < at ==> points'[i] == points[i];
        assert j < at ==> points'[j] == points[j];
      }
    }
  }

  /** Any point keeps everything in order. */
  lemma InsertOk(t: Table, s: Sync, rec: Record, p: nat, f: nat)
    requires SyncOk(t, s, rec) && f < |t|
    ensures SyncOk(t, WithPoint(s, p, f), rec[p := f])
  {
    var s', rec' := WithPoint(s, p, f), rec[p := f];
    InsertSorted(s.points, p, f);
    InsertMembers(s.points, p, f);
    InsertKnown(t, s.points, p, f);
    forall i | 0 <= i < |s'.points|
      ensures EntryOk(rec', s'.points[i])
    {
      InsertEntry(s.points, p, f, i);
    }
    forall x | x in rec'
      ensures RecordOk(t, s', rec', x)
    {
      if x != p {
        assert RecordOk(t, s, rec, x);
      }
    }
  }

  lemma InsertEntry(points: seq<Point>, p: nat, f: nat, i: nat)
    requires Sorted(points) && i < |Insert(points, p, f)|
    ensures var e := Insert(points, p, f)[i]; e == Point(p, f) || (e.point != p && e in points)
  {
    InsertSorted(points, p, f);
    InsertMembers(points, p, f);
    var points' := Insert(points, p, f);
    var j :| 0 <= j < |points'| && points'[j] == Point(p, f);
    assert points'[i] in points';
  }

  lemma AddOk(t: Table, s: Sync, rec: Record, p: nat, f: nat)
    requires SyncOk(t, s, rec) && f < |t|
    ensures SyncOk(t, Added(t, s, p, f), rec[p := f])
  {
    PruneOk(t, s, rec);
    InsertOk(t, Prune(t, s), rec, p, f);
    PruneOk(t, Inserted(t, s, p, f), rec[p := f]);
  }

  /** What is in front of everything that is left. */
  lemma InsertBelow(points: seq<Point>, p: nat, f: nat)
    requires forall i :: 0 <= i < |points| ==> points[i].point > p
    ensures Insert(points, p, f) == [Point(p, f)] + points
  {
  }

  lemma InsertEnds(s: Sync, p: nat, f: nat)
    requires Sorted(s.points) && Below(s.points, s.lastPoint)
    ensures EndsAtLast(WithPoint(s, p, f)) <==> p >= s.lastPoint || EndsAtLast(s)
  {
    var at, n := UpTo(s.points, p), |s.points|;
    var points' := Insert(s.points, p, f);
    if at < n {
      assert points'[|points'| - 1].point == s.points[n - 1].point;
    } else {
      assert points'[|points'| - 1] == Point(p, f);
    }
  }

  /** The new point is the last, or the list reaches the last, or nothing on it but that point was pending and the
      new fence is done. */
  ghost predicate AddsTight(t: Table, s: Sync, p: nat, f: nat)
    requires Known(t, s.points) && f < |t|
  {
    var s1 := Prune(t, s);
    || p >= s1.lastPoint
    || EndsAtLast(s1)
    || (Done(t, f) && forall e :: e in s1.points && e.point != p ==> Done(t, e.fence))
  }

  lemma InsertDone(t: Table, points: seq<Point>, p: nat, f: nat)
    requires Known(t, points) && Sorted(points) && f < |t|
    ensures Known(t, Insert(points, p, f))
    ensures AllDone(t, FencesOf(Insert(points, p, f))) <==> Done(t, f) && forall e :: e in points && e.point != p ==> Done(t, e.fence)
  {
    var points' := Insert(points, p, f);
    InsertKnown(t, points, p, f);
    InsertMembers(points, p, f);
    AllDoneAt(t, points');
    if AllDone(t, FencesOf(points')) {
      forall e | e in points'
        ensures Done(t, e.fence)
      {
        var i :| 0 <= i < |points'| && points'[i] == e;
      }
    } else {
      var i :| 0 <= i < |points'| && !Done(t, points'[i].fence);
      InsertEntry(points, p, f, i);
    }
  }

  lemma AddTight(t: Table, s: Sync, rec: Record, p: nat, f: nat)
    requires SyncOk(t, s, rec) && f < |t|
    ensures Known(t, Added(t, s, p, f).points) && (Tight(t, Added(t, s, p, f)) <==> AddsTight(t, s, p, f))
  {
    PruneOk(t, s, rec);
    var s1, s2 := Prune(t, s), Inserted(t, s, p, f);
    ListedBelow(t, s1, rec);
    InsertEnds(s1, p, f);
    InsertDone(t, s1.points, p, f);
    PruneTight(t, s2);
    InsertMembers(s1.points, p, f);
  }

  /** Whatever came before, after an addition waits are not early if and only if the new point is the last, or the list
      reached the last point, or the new fence and all others on the list are done. */
  lemma AddNotEarly(t: Table, s: Sync, rec: Record, p: nat, f: nat)
    requires SyncOk(t, s, rec) && f < |t| && p > 0
    ensures NotEarly(t, Added(t, s, p, f), rec[p := f]) <==> AddsTight(t, s, p, f)
  {
    AddOk(t, s, rec, p, f);
    AddTight(t, s, rec, p, f);
    NotEarlyIs(t, Added(t, s, p, f), rec[p := f]);
  }

  /** Otherwise the fence for the last point is done at once while a recorded point is pending. */
  lemma Hidden(t: Table, s: Sync, rec: Record, p: nat, f: nat) returns (x: nat)
    requires SyncOk(t, s, rec) && f < |t| && p > 0 && !AddsTight(t, s, p, f)
    ensures Misses(t, Added(t, s, p, f), rec[p := f], x)
  {
    AddOk(t, s, rec, p, f);
    AddTight(t, s, rec, p, f);
    x := LooseMisses(t, Added(t, s, p, f), rec[p := f]);
  }

  // ------------------------------------------------------------------------
  // Querying
  // ------------------------------------------------------------------------

  /** Dropping signaled points from the front does not change how far a timeline has come. */
  lemma {:induction false} ReachIsQuery(t: Table, s: Sync)
    requires Known(t, s.points)
    ensures Query(t, s) == Reach(t, s.points, s.signaledPoint)
    decreases |s.points|
  {
    if s.points != [] && Clean(t, s.points[0].fence) {
      ReachIsQuery(t, s.(points := s.points[1..], signaledPoint := s.points[0].point));
    }
  }

  ghost predicate From(points: seq<Point>, r: nat) {
    Sorted(points) && forall i :: 0 <= i < |points| ==> points[i].point >= r
  }

  lemma FromTail(points: seq<Point>, r: nat)
    requires From(points, r) && points != []
    ensures From(points[1..], points[0].point)
  {
  }

  lemma {:induction false} ReachPast(t: Table, points: seq<Point>, r: nat)
    requires Known(t, points) && From(points, r)
    ensures Reach(t, points, r) >= r
    ensures points != [] && Done(t, points[0].fence) ==> Reach(t, points, r) >= points[0].point
  {
    if points != [] && Done(t, points[0].fence) {
      FromTail(points, r);
      ReachPast(t, points[1..], points[0].point);
    }
  }

  lemma {:induction false} ReachLater(t: Table, t': Table, points: seq<Point>, r: nat)
    requires TableOk(t) && Known(t, points) && From(points, r) && Later(t, t')
    ensures Reach(t', points, r) >= Reach(t, points, r)
  {
    if points != [] && Done(t, points[0].fence) {
      DoneStays(t, t', points[0].fence);
      FromTail(points, r);
      ReachLater(t, t', points[1..], points[0].point);
    } else {
      ReachPast(t', points, r);
    }
  }

  /** The least that has to happen for a fence to be done: its parts are signaled, without an error. */
  ghost function Finished(t: Table, f: nat): (t': Table)
    requires f < |t|
    ensures |t'| == |t|
  {
    seq(|t|, i requires 0 <= i < |t| => if i in PartsOf(t, f) && !t[i].signaled then t[i].(signaled := true) else t[i])
  }

  lemma FinishedFence(t: Table, f: nat, g: nat)
    requires TableOk(t) && f < |t| && g < |t|
    ensures FenceOk(Finished(t, f), g) && LaterFence(t[g], Finished(t, f)[g])
  {
    var t' := Finished(t, f);
    ByParts(t, f);
    assert FenceOk(t, g);
    if t[g].parts != [] {
      assert g !in PartsOf(t, f);
      if t[g].signaled {
        SameParts(t, t', t[g].parts, g);
      }
    }
  }

  lemma FinishedOk(t: Table, f: nat)
    requires TableOk(t) && f < |t|
    ensures Later(t, Finished(t, f)) && Done(Finished(t, f), f)
  {
    var t' := Finished(t, f);
    forall g | 0 <= g < |t|
      ensures FenceOk(t', g) && LaterFence(t[g], t'[g])
    {
      FinishedFence(t, f, g);
    }
    LaterParts(t, t', f);
    ByParts(t, f);
    ByParts(t', f);
  }

  /** Nothing more than that is done. */
  lemma FinishedLeast(t: Table, f: nat, t': Table, g: nat)
    requires TableOk(t) && f < |t| && g < |t| && Later(t, t') && Done(t', f) && Done(Finished(t, f), g)
    ensures Done(t', g)
  {
    var mid := Finished(t, f);
    FinishedOk(t, f);
    ByParts(mid, g);
    ByParts(t', g);
    ByParts(t', f);
    LaterParts(t, mid, g);
    LaterParts(t, t', g);
    LaterParts(t, t', f);
    ByParts(t, g);
    forall p | p in PartsOf(t, g)
      ensures t'[p].signaled
    {
      assert IsLeaf(t, p) && mid[p].signaled && LaterFence(t[p], t'[p]);
    }
  }

  lemma {:induction false} ReachMore(t: Table, t': Table, points: seq<Point>, r: nat)
    requires Known(t, points) && Known(t', points) && From(points, r)
    requires forall i {:trigger points[i]} :: 0 <= i < |points| && Done(t, points[i].fence) ==> Done(t', points[i].fence)
    ensures Reach(t', points, r) >= Reach(t, points, r)
  {
    if points != [] && Done(t, points[0].fence) {
      FromTail(points, r);
      assert forall i :: 0 <= i < |points[1..]| ==> points[1..][i] == points[i + 1];
      ReachMore(t, t', points[1..], points[0].point);
    } else {
      ReachPast(t', points, r);
    }
  }

  /** What the list reaches once its head is done is not below what was dropped. */
  ghost predicate HeadKeeps(t: Table, s: Sync)
    requires Known(t, s.points)
  {
    s.points == [] || Done(t, s.points[0].fence) || Reach(Finished(t, s.points[0].fence), s.points, s.signaledPoint) >= s.signaledPoint
  }

  ghost predicate NeverBack(t: Table, s: Sync)
    requires Known(t, s.points)
  {
    forall t' {:trigger Later(t, t')} :: Later(t, t') ==> Query(t', s) >= Query(t, s)
  }

  lemma QueryKept(t: Table, t': Table, s: Sync)
    requires TableOk(t) && Known(t, s.points) && Sorted(s.points) && Later(t, t') && HeadKeeps(t, s)
    ensures Query(t', s) >= Query(t, s)
  {
    ReachIsQuery(t, s);
    ReachIsQuery(t', s);
    if s.points != [] {
      var head, tail := s.points[0], s.points[1..];
      assert From(tail, head.point);
      if Done(t, head.fence) {
        DoneStays(t, t', head.fence);
        ReachLater(t, t', tail, head.point);
      } else if Done(t', head.fence) {
        var mid := Finished(t, head.fence);
        FinishedOk(t, head.fence);
        forall i | 0 <= i < |tail| && Done(mid, tail[i].fence)
          ensures Done(t', tail[i].fence)
        {
          assert tail[i] == s.points[i + 1];
          FinishedLeast(t, head.fence, t', tail[i].fence);
        }
        ReachMore(mid, t', tail, head.point);
      }
    }
  }

  /** As fences signal a query never goes back if and only if the list is empty, or its head is done, or what it reaches
      once its head is done is not below the last point dropped. */
  lemma QueryLater(t: Table, s: Sync, rec: Record)
    requires SyncOk(t, s, rec)
    ensures NeverBack(t, s) <==> HeadKeeps(t, s)
  {
    if HeadKeeps(t, s) {
      forall t' | Later(t, t')
        ensures Query(t', s) >= Query(t, s)
      {
        QueryKept(t, t', s);
      }
    } else {
      var mid := Finished(t, s.points[0].fence);
      FinishedOk(t, s.points[0].fence);
      ReachIsQuery(t, s);
      ReachIsQuery(mid, s);
      assert Query(mid, s) < Query(t, s);
    }
  }

  /** A new point sets a query back exactly when it is pending, lies within what was reached, and
      more than the dropped points had been reached. */
  lemma {:induction false} InsertReach(t: Table, points: seq<Point>, r: nat, p: nat, f: nat)
    requires Known(t, points) && From(points, r) && f < |t| && p >= r
    ensures Known(t, Insert(points, p, f))
    ensures var q := Reach(t, points, r);
            Reach(t, Insert(points, p, f), r) >= q <==> p > q || Done(t, f) || q == r
  {
    InsertKnown(t, points, p, f);
    ReachPast(t, points, r);
    if points == [] {
      InsertBelow(points, p, f);
      assert ([Point(p, f)] + points)[1..] == points;
    } else {
      FromTail(points, r);
      ReachPast(t, points[1..], points[0].point);
      InsertShape(points, p, f);
      if p < points[0].point {
        assert ([Point(p, f)] + points)[1..] == points;
        ReachPast(t, points, p);
      } else if p > points[0].point {
        InsertReach(t, points[1..], points[0].point, p, f);
      }
    }
  }

  lemma InsertShape(points: seq<Point>, p: nat, f: nat)
    requires points != [] && Sorted(points)
    ensures var points', e := Insert(points, p, f), points[0];
            if p < e.point then points' == [Point(p, f)] + points
            else points' != [] && (if p == e.point then points'[0] == Point(p, f) && points'[1..] == points[1..]
                                   else points'[0] == e && points'[1..] == Insert(points[1..], p, f))
  {
    if p > points[0].point {
      InsertPast(points, p, f);
    } else {
      assert UpTo(points, p) == 0;
    }
  }

  lemma InsertPast(points: seq<Point>, p: nat, f: nat)
    requires points != [] && p > points[0].point
    ensures var points' := Insert(points, p, f);
            points' != [] && points'[0] == points[0] && points'[1..] == Insert(points[1..], p, f)
  {
    PutPast(points, UpTo(points[1..], p), p, f);
  }

  lemma PutPast(points: seq<Point>, at: nat, p: nat, f: nat)
    requires points != [] && at < |points|
    ensures PutAt(points, at + 1, p, f) == [points[0]] + PutAt(points[1..], at, p, f)
  {
    var tail := points[1..];
    if !(at < |tail| && tail[at].point == p) {
      assert points[..at + 1] == [points[0]] + tail[..at] && points[at + 1..] == tail[at..];
    }
  }

  /** The new point takes nothing back from what the list reaches. */
  ghost predicate AddKeeps(t: Table, s: Sync, p: nat, f: nat)
    requires Known(t, s.points) && f < |t|
  {
    var points, r := s.points, s.signaledPoint;
    var q := Reach(t, points, r);
    if points != [] && Done(t, points[0].fence) then
      Done(t, f) || p > q || (if p > points[0].point then q == points[0].point else r >= q)
    else
      || !Done(t, f)
      || p >= r
      || (points != [] && (p > points[0].point || (p == points[0].point && Reach(t, points[1..], p) >= r)))
  }

  lemma InsertKeeps(t: Table, s: Sync, p: nat, f: nat)
    requires Known(t, s.points) && Sorted(s.points) && f < |t|
    ensures Known(t, Insert(s.points, p, f))
    ensures Reach(t, Insert(s.points, p, f), s.signaledPoint) >= Reach(t, s.points, s.signaledPoint) <==> AddKeeps(t, s, p, f)
  {
    InsertKnown(t, s.points, p, f);
    if s.points == [] || p < s.points[0].point {
      InsertKeepsFirst(t, s, p, f);
    } else {
      InsertKeepsLater(t, s, p, f);
    }
  }

  // The new point comes before every other.
  lemma InsertKeepsFirst(t: Table, s: Sync, p: nat, f: nat)
    requires Known(t, s.points) && Sorted(s.points) && f < |t| && Known(t, Insert(s.points, p, f))
    requires s.points == [] || p < s.points[0].point
    ensures Reach(t, Insert(s.points, p, f), s.signaledPoint) >= Reach(t, s.points, s.signaledPoint) <==> AddKeeps(t, s, p, f)
  {
    var points := s.points;
    InsertBelow(points, p, f);
    assert ([Point(p, f)] + points)[1..] == points;
    if points != [] {
      assert From(points[1..], points[0].point);
      ReachPast(t, points[1..], points[0].point);
    }
  }

  lemma InsertKeepsLater(t: Table, s: Sync, p: nat, f: nat)
    requires Known(t, s.points) && Sorted(s.points) && f < |t| && Known(t, Insert(s.points, p, f))
    requires s.points != [] && p >= s.points[0].point
    ensures Reach(t, Insert(s.points, p, f), s.signaledPoint) >= Reach(t, s.points, s.signaledPoint) <==> AddKeeps(t, s, p, f)
  {
    var points := s.points;
    var e, tail := points[0], points[1..];
    assert From(tail, e.point);
    ReachPast(t, tail, e.point);
    InsertShape(points, p, f);
    if p > e.point {
      InsertReach(t, tail, e.point, p, f);
    }
  }

  /** When adding a point sets a query back. */
  lemma AddQuery(t: Table, s: Sync, rec: Record, p: nat, f: nat)
    requires SyncOk(t, s, rec) && f < |t| && p > 0
    ensures Query(t, Added(t, s, p, f)) >= Query(t, s) <==> AddKeeps(t, Prune(t, s), p, f)
  {
    PruneOk(t, s, rec);
    var s1, s2 := Prune(t, s), Inserted(t, s, p, f);
    InsertKeeps(t, s1, p, f);
    ReachIsQuery(t, s2);
    PruneTwice(t, s2);
  }

  /** With points added in increasing order a query never goes back. */
  lemma IncreasingQuery(t: Table, s: Sync, rec: Record, p: nat, f: nat)
    requires SyncOk(t, s, rec) && f < |t| && p > s.lastPoint
    ensures Query(t, Added(t, s, p, f)) >= Query(t, s)
  {
    PruneOk(t, s, rec);
    AddQuery(t, s, rec, p, f);
    var s1 := Prune(t, s);
    ListedBelow(t, s1, rec);
    ReachBelow(t, s1.points, s1.signaledPoint, s1.lastPoint);
  }

  lemma {:induction false} ReachBelow(t: Table, points: seq<Point>, r: nat, bound: nat)
    requires Known(t, points) && r <= bound && Below(points, bound)
    ensures Reach(t, points, r) <= bound
  {
    if points != [] && Done(t, points[0].fence) {
      ReachBelow(t, points[1..], points[0].point, bound);
    }
  }

  // ------------------------------------------------------------------------
  // The sync object
  // ------------------------------------------------------------------------

  lemma {:induction false} PruneSame(t: Table, t': Table, s: Sync)
    requires Known(t, s.points) && SameMeaning(t, t')
    ensures Known(t', s.points) && Prune(t', s) == Prune(t, s)
    decreases |s.points|
  {
    if s.points != [] {
      assert Done(t', s.points[0].fence) == Done(t, s.points[0].fence);
      if Clean(t, s.points[0].fence) {
        PruneSame(t, t', s.(points := s.points[1..], signaledPoint := s.points[0].point));
      }
    }
  }

  lemma SameTwice(a: Table, b: Table, c: Table)
    requires SameMeaning(a, b) && SameMeaning(b, c)
    ensures SameMeaning(a, c)
  {
    forall x | 0 <= x < |a|
      ensures Done(c, x) == Done(a, x) && Outcome(c, x) == Outcome(a, x)
    {
      assert Done(b, x) == Done(a, x);
    }
  }

  /** Nothing but what polls remember has changed. */
  ghost predicate Quiet(t: Table, t': Table) {
    Later(t, t') && SameMeaning(t, t')
  }

  lemma QuietTwice(a: Table, b: Table, c: Table)
    requires Quiet(a, b) && Quiet(b, c)
    ensures Quiet(a, c)
  {
    LaterTwice(a, b, c);
    SameTwice(a, b, c);
  }

  // ------------------------------------------------------------------------
  // Whole runs
  // ------------------------------------------------------------------------

  datatype Move =
    | Pass(t: Table)             // requests retire, fences are made and polled
    | Add(p: nat, f: nat)
    | Look                       // a wait or a query prunes
    | Reset

  datatype World = World(t: Table, s: Sync, rec: Record)

  ghost predicate CanMove(w: World, m: Move) {
    && Known(w.t, w.s.points)
    && match m
       case Pass(t) => Later(w.t, t)
       case Add(p, f) => p > 0 && f < |w.t|
       case Look => true
       case Reset => true
  }

  ghost function Moved(w: World, m: Move): World
    requires CanMove(w, m)
  {
    match m
    case Pass(t) => w.(t := t)
    case Add(p, f) => w.(s := Added(w.t, w.s, p, f), rec := w.rec[p := f])
    case Look => w.(s := Prune(w.t, w.s))
    case Reset => w.(s := EMPTY, rec := map[])
  }

  ghost predicate Run(w: World, moves: seq<Move>, w': World)
    decreases |moves|
  {
    if moves == [] then w' == w else CanMove(w, moves[0]) && Run(Moved(w, moves[0]), moves[1..], w')
  }

  lemma MoveOk(w: World, m: Move)
    requires SyncOk(w.t, w.s, w.rec) && CanMove(w, m)
    ensures var w' := Moved(w, m); SyncOk(w'.t, w'.s, w'.rec)
  {
    match m
    case Pass(t) => SyncLater(w.t, t, w.s, w.rec);
    case Add(p, f) => AddOk(w.t, w.s, w.rec, p, f);
    case Look => PruneOk(w.t, w.s, w.rec);
    case Reset =>
  }

  lemma {:induction false} RunOk(w: World, moves: seq<Move>, w': World)
    requires SyncOk(w.t, w.s, w.rec) && Run(w, moves, w')
    ensures SyncOk(w'.t, w'.s, w'.rec)
    decreases |moves|
  {
    if moves != [] {
      MoveOk(w, moves[0]);
      RunOk(Moved(w, moves[0]), moves[1..], w');
    }
  }

  /** In every state a run reaches: no wait is early now if and only if the list is empty, ends with the last point or is
      all done. */
  lemma RunExact(t: Table, moves: seq<Move>, w: World)
    requires TableOk(t) && Run(World(t, EMPTY, map[]), moves, w)
    ensures SyncOk(w.t, w.s, w.rec) && (NotEarly(w.t, w.s, w.rec) <==> Tight(w.t, w.s))
  {
    RunOk(World(t, EMPTY, map[]), moves, w);
    NotEarlyIs(w.t, w.s, w.rec);
  }

  /** Every addition meets its condition. */
  ghost predicate Careful(w: World, moves: seq<Move>)
    decreases |moves|
  {
    moves == [] || (CanMove(w, moves[0])
                    && (moves[0].Add? ==> AddsTight(w.t, w.s, moves[0].p, moves[0].f))
                    && Careful(Moved(w, moves[0]), moves[1..]))
  }

  /** No wait is early in any state. */
  ghost predicate NowhereEarly(w: World, moves: seq<Move>)
    decreases |moves|
  {
    && Known(w.t, w.s.points) && NotEarly(w.t, w.s, w.rec)
    && (moves == [] || (CanMove(w, moves[0]) && NowhereEarly(Moved(w, moves[0]), moves[1..])))
  }

  lemma TightLater(t: Table, t': Table, s: Sync)
    requires TableOk(t) && Known(t, s.points) && Later(t, t') && Tight(t, s)
    ensures Tight(t', s)
  {
    if AllDone(t, FencesOf(s.points)) {
      forall f | f in FencesOf(s.points)
        ensures f < |t'| && Done(t', f)
      {
        DoneStays(t, t', f);
      }
    }
  }

  lemma MoveTight(w: World, m: Move)
    requires SyncOk(w.t, w.s, w.rec) && CanMove(w, m) && Tight(w.t, w.s)
    ensures Known(Moved(w, m).t, Moved(w, m).s.points)
    ensures Tight(Moved(w, m).t, Moved(w, m).s) <==> (m.Add? ==> AddsTight(w.t, w.s, m.p, m.f))
  {
    match m
    case Pass(t) => TightLater(w.t, t, w.s);
    case Add(p, f) => AddTight(w.t, w.s, w.rec, p, f);
    case Look => PruneTight(w.t, w.s);
    case Reset =>
  }

  /** Nowhere in a run is a wait early if and only if every addition meets the condition. */
  lemma {:induction false} RunsNowhereEarly(w: World, moves: seq<Move>, w': World)
    requires SyncOk(w.t, w.s, w.rec) && Tight(w.t, w.s) && Run(w, moves, w')
    ensures NowhereEarly(w, moves) <==> Careful(w, moves)
    decreases |moves|
  {
    NotEarlyIs(w.t, w.s, w.rec);
    if moves != [] {
      var next := Moved(w, moves[0]);
      MoveOk(w, moves[0]);
      MoveTight(w, moves[0]);
      NotEarlyIs(next.t, next.s, next.rec);
      if Tight(next.t, next.s) {
        RunsNowhereEarly(next, moves[1..], w');
      }
    }
  }

  lemma {:induction false} CarefulTight(w: World, moves: seq<Move>, w': World)
    requires SyncOk(w.t, w.s, w.rec) && Tight(w.t, w.s) && Run(w, moves, w') && Careful(w, moves)
    ensures SyncOk(w'.t, w'.s, w'.rec) && Tight(w'.t, w'.s)
    decreases |moves|
  {
    if moves != [] {
      MoveOk(w, moves[0]);
      MoveTight(w, moves[0]);
      CarefulTight(Moved(w, moves[0]), moves[1..], w');
    }
  }

  /** Whatever such a run did, and whenever the wait ends: the fence for a point is never done before every point
      recorded up to it. */
  lemma RunNeverEarly(t: Table, moves: seq<Move>, w: World, p: nat, later: Table, x: nat)
    requires TableOk(t) && Run(World(t, EMPTY, map[]), moves, w) && Careful(World(t, EMPTY, map[]), moves)
    requires Known(w.t, w.s.points) && p > 0 && WaitsFor(w.t, w.s, p).Some? && Later(w.t, later)
    requires AllDone(later, WaitsFor(w.t, w.s, p).value) && x in w.rec && x <= p
    ensures w.rec[x] < |later| && Done(later, w.rec[x])
  {
    CarefulTight(World(t, EMPTY, map[]), moves, w);
    NeverEarly(w.t, w.s, w.rec, p, later, x);
  }

  /** No point is added below one already dropped. */
  ghost predicate Forward(w: World, moves: seq<Move>)
    decreases |moves|
  {
    moves == [] || (CanMove(w, moves[0])
                    && (moves[0].Add? ==> moves[0].p >= Prune(w.t, w.s).signaledPoint)
                    && Forward(Moved(w, moves[0]), moves[1..]))
  }

  /** What is left on the list, or else what was dropped, ends with the last point. */
  ghost predicate Level(s: Sync) {
    if s.points == [] then s.signaledPoint == s.lastPoint else EndsAtLast(s)
  }

  lemma {:induction false} PruneLevel(t: Table, s: Sync)
    requires Known(t, s.points) && Level(s)
    ensures Level(Prune(t, s))
    decreases |s.points|
  {
    if s.points != [] && Clean(t, s.points[0].fence) {
      PruneLevel(t, s.(points := s.points[1..], signaledPoint := s.points[0].point));
    }
  }

  lemma AddLevel(t: Table, s: Sync, rec: Record, p: nat, f: nat)
    requires SyncOk(t, s, rec) && f < |t| && Level(s) && p >= Prune(t, s).signaledPoint
    ensures AddsTight(t, s, p, f) && Level(Added(t, s, p, f))
  {
    PruneOk(t, s, rec);
    PruneLevel(t, s);
    var s1 := Prune(t, s);
    ListedBelow(t, s1, rec);
    InsertEnds(s1, p, f);
    InsertKnown(t, s1.points, p, f);
    PruneLevel(t, Inserted(t, s, p, f));
  }

  /** A run that adds no point below one dropped meets the condition everywhere. */
  lemma {:induction false} ForwardIsCareful(w: World, moves: seq<Move>, w': World)
    requires SyncOk(w.t, w.s, w.rec) && Level(w.s) && Run(w, moves, w') && Forward(w, moves)
    ensures Careful(w, moves)
    decreases |moves|
  {
    if moves != [] {
      MoveOk(w, moves[0]);
      match moves[0] {
        case Pass(_) =>
        case Add(p, f) => AddLevel(w.t, w.s, w.rec, p, f);
        case Look => PruneLevel(w.t, w.s);
        case Reset =>
      }
      ForwardIsCareful(Moved(w, moves[0]), moves[1..], w');
    }
  }

  /** Points come in increasing order, and the timeline is not reset. */
  ghost predicate Increasing(w: World, moves: seq<Move>)
    decreases |moves|
  {
    moves == [] || (CanMove(w, moves[0]) && !moves[0].Reset?
                    && (moves[0].Add? ==> moves[0].p > w.s.lastPoint)
                    && Increasing(Moved(w, moves[0]), moves[1..]))
  }

  /** The list is past what was dropped. */
  ghost predicate Ahead(s: Sync) {
    From(s.points, s.signaledPoint)
  }

  lemma {:induction false} PruneAhead(t: Table, s: Sync)
    requires Known(t, s.points) && Ahead(s)
    ensures Ahead(Prune(t, s))
    decreases |s.points|
  {
    if s.points != [] && Clean(t, s.points[0].fence) {
      FromTail(s.points, s.signaledPoint);
      PruneAhead(t, s.(points := s.points[1..], signaledPoint := s.points[0].point));
    }
  }

  lemma AddAhead(t: Table, s: Sync, rec: Record, p: nat, f: nat)
    requires SyncOk(t, s, rec) && f < |t| && Ahead(s) && p > s.lastPoint
    ensures Ahead(Added(t, s, p, f))
  {
    PruneOk(t, s, rec);
    PruneAhead(t, s);
    var s1, s2 := Prune(t, s), Inserted(t, s, p, f);
    InsertSorted(s1.points, p, f);
    InsertKnown(t, s1.points, p, f);
    forall i | 0 <= i < |s2.points|
      ensures s2.points[i].point >= s2.signaledPoint
    {
      InsertEntry(s1.points, p, f, i);
    }
    PruneAhead(t, s2);
  }

  lemma AheadKeeps(t: Table, s: Sync)
    requires TableOk(t) && Known(t, s.points) && Ahead(s)
    ensures HeadKeeps(t, s)
  {
    if s.points != [] {
      ReachPast(Finished(t, s.points[0].fence), s.points, s.signaledPoint);
    }
  }

  /** Between resets, with points in increasing order, a query never goes back. */
  lemma {:induction false} RunQuery(w: World, moves: seq<Move>, w': World)
    requires SyncOk(w.t, w.s, w.rec) && Ahead(w.s) && Run(w, moves, w') && Increasing(w, moves)
    ensures SyncOk(w'.t, w'.s, w'.rec) && Ahead(w'.s) && Query(w'.t, w'.s) >= Query(w.t, w.s)
    decreases |moves|
  {
    if moves != [] {
      MoveQuery(w, moves[0]);
      RunQuery(Moved(w, moves[0]), moves[1..], w');
    }
  }

  lemma MoveQuery(w: World, m: Move)
    requires SyncOk(w.t, w.s, w.rec) && Ahead(w.s) && CanMove(w, m) && !m.Reset? && (m.Add? ==> m.p > w.s.lastPoint)
    ensures var w' := Moved(w, m); SyncOk(w'.t, w'.s, w'.rec) && Ahead(w'.s) && Query(w'.t, w'.s) >= Query(w.t, w.s)
  {
    MoveOk(w, m);
    match m
    case Pass(t) =>
      AheadKeeps(w.t, w.s);
      QueryKept(w.t, t, w.s);
    case Add(p, f) =>
      IncreasingQuery(w.t, w.s, w.rec, p, f);
      AddAhead(w.t, w.s, w.rec, p, f);
    case Look =>
      PruneTwice(w.t, w.s);
      PruneAhead(w.t, w.s);
    case Reset =>
  }

  // ------------------------------------------------------------------------
  // Runs that go wrong
  // ------------------------------------------------------------------------

  const DONE := Fence(true, 0, [])
  const OPEN := Fence(false, 0, [])

  lemma TwoLeaves()
    ensures TableOk([DONE, OPEN]) && TableOk([DONE, DONE]) && Later([DONE, OPEN], [DONE, DONE])
  {
    forall f | 0 <= f < 2
      ensures FenceOk([DONE, OPEN], f) && FenceOk([DONE, DONE], f)
    {
    }
  }

  /** Adding to a list with nothing left on it. */
  lemma AddToNone(t: Table, last: nat, dropped: nat, p: nat, f: nat)
    requires f < |t|
    ensures var last' := if p > last then p else last;
            Added(t, Sync([], last, dropped), p, f) ==
            if Clean(t, f) then Sync([], last', p) else Sync([Point(p, f)], last', dropped)
  {
    var s, one := Sync([], last, dropped), [Point(p, f)];
    assert Insert([], p, f) == one && one[1..] == [];
    var s2 := Inserted(t, s, p, f);
    assert s2 == Sync(one, if p > last then p else last, dropped);
    if Clean(t, f) {
      assert Prune(t, s2) == Prune(t, s2.(points := [], signaledPoint := p));
    }
  }

  lemma TwoAdds(a: Move, b: Move, w: World, w1: World, w2: World)
    requires CanMove(w, a) && w1 == Moved(w, a) && CanMove(w1, b) && w2 == Moved(w1, b)
    ensures Run(w, [a, b], w2)
  {
    assert [a, b][1..] == [b] && [b][1..] == [];
  }

  /** 5 is added done, then 3, also done, then 4, pending: the wait for 5 is over at once. */
  lemma BackwardHides()
    ensures TableOk([DONE, OPEN])
    ensures exists w :: Run(World([DONE, OPEN], EMPTY, map[]), [Add(5, 0), Add(3, 0), Add(4, 1)], w)
                        && Known(w.t, w.s.points) && Misses(w.t, w.s, w.rec, 4)
  {
    TwoLeaves();
    var t := [DONE, OPEN];
    AddToNone(t, 0, 0, 5, 0);
    AddToNone(t, 5, 5, 3, 0);
    AddToNone(t, 5, 3, 4, 1);
    var w0 := World(t, EMPTY, map[]);
    var w1, w2 := World(t, Sync([], 5, 5), map[5 := 0]), World(t, Sync([], 5, 3), map[5 := 0, 3 := 0]);
    var w3 := World(t, Sync([Point(4, 1)], 5, 3), map[5 := 0, 3 := 0, 4 := 1]);
    var moves := [Add(5, 0), Add(3, 0), Add(4, 1)];
    assert moves[1..] == [Add(3, 0), Add(4, 1)];
    TwoAdds(Add(3, 0), Add(4, 1), w1, w2, w3);
    assert Run(w0, moves, w3);
    assert UpTo(w3.s.points, 5) == 1;
    assert Misses(w3.t, w3.s, w3.rec, 4);
  }

  /** 5 is added done, then 3, pending: when 3 is done the query falls from 5 to 3 with nothing added. */
  lemma QueryFalls()
    ensures TableOk([DONE, OPEN])
    ensures exists w :: Run(World([DONE, OPEN], EMPTY, map[]), [Add(5, 0), Add(3, 1)], w)
                        && Known(w.t, w.s.points) && !NeverBack(w.t, w.s)
  {
    TwoLeaves();
    var t, t' := [DONE, OPEN], [DONE, DONE];
    AddToNone(t, 0, 0, 5, 0);
    AddToNone(t, 5, 5, 3, 1);
    var w0, w1 := World(t, EMPTY, map[]), World(t, Sync([], 5, 5), map[5 := 0]);
    var w2 := World(t, Sync([Point(3, 1)], 5, 5), map[5 := 0, 3 := 1]);
    TwoAdds(Add(5, 0), Add(3, 1), w0, w1, w2);
    ReachIsQuery(t, w2.s);
    ReachIsQuery(t', w2.s);
    assert w2.s.points[1..] == [];
    assert Query(t, w2.s) == 5 && Query(t', w2.s) == 3;
  }

  /** At every time from now on the fence `r` is done exactly when all of `fs` are. */
  ghost predicate Means(t: Table, r: nat, fs: seq<nat>) {
    r < |t| && forall t' {:trigger Later(t, t')} :: Later(t, t') ==> (Done(t', r) <==> AllDone(t', fs))
  }

  // The newest point waits for the same fences before and after the list is pruned and joins are made.
  lemma HeadAfter(t: Table, t1: Table, s: Sync)
    requires Known(t, s.points) && Quiet(t, t1)
    ensures Known(t, Prune(t, s).points) && Known(t1, s.points) && Prune(t1, s) == Prune(t, s)
    ensures WaitsFor(t1, s, s.lastPoint) == WaitsFor(t, Prune(t, s), s.lastPoint)
  {
    PruneSame(t, t1, s);
    PruneTwice(t, s);
    WaitsSame(t, t1, s, s.lastPoint);
  }

  function Wrapped(list: seq<Point>): (ws: seq<Option<nat>>)
    ensures |ws| == |list| && forall i :: 0 <= i < |list| ==> ws[i] == Some(list[i].fence)
  {
    seq(|list|, i requires 0 <= i < |list| => Some(list[i].fence))
  }

  lemma JoinMeansAll(t: Table, t': Table, r: nat, list: seq<Point>)
    requires TableOk(t) && Later(t, t') && r < |t'| && Known(t, list)
    requires (forall f :: f in Wrapped(list) && f.Some? ==> f.value < |t|) && JoinedFrom(t, t', r, Wrapped(list))
    ensures Means(t', r, FencesOf(list))
  {
    var ws, fs := Wrapped(list), FencesOf(list);
    assert forall f :: f in fs <==> Some(f) in ws;
    forall t'' | Later(t', t'')
      ensures Done(t'', r) <==> AllDone(t'', fs)
    {
      JoinKeepsMeaning(t, t', r, ws, t'');
      LaterTwice(t, t', t'');
      assert forall f :: f in fs ==> f < |t|;
    }
  }

  lemma WaitsSame(t: Table, t': Table, s: Sync, p: nat)
    requires Known(t, s.points) && SameMeaning(t, t')
    ensures Known(t', s.points) && WaitsFor(t', s, p) == WaitsFor(t, s, p)
    ensures WaitsFor(t, Prune(t, s), p) == WaitsFor(t, s, p)
  {
    PruneSame(t, t', s);
    PruneTwice(t, s);
  }

  class Syncobj {
    const table: FenceTable
    var payload: Option<nat>
    var points: seq<Point>
    var lastPoint: nat
    var signaledPoint: nat

    constructor (table: FenceTable)
      ensures this.table == table && Snap() == EMPTY && payload == None
    {
      this.table, payload, points, lastPoint, signaledPoint := table, None, [], 0, 0;
    }

    ghost function Snap(): Sync
      reads this
    {
      Sync(points, lastPoint, signaledPoint)
    }

    ghost predicate Sound()
      reads this, table
    {
      TableOk(table.fences) && Known(table.fences, points) && (payload.Some? ==> payload.value < |table.fences|)
    }

    /** `prunePoints`. */
    method PrunePoints()
      requires Sound()
      modifies this`points, this`signaledPoint, table
      ensures Sound() && Quiet(old(table.fences), table.fences)
      ensures Snap() == Prune(old(table.fences), old(Snap()))
    {
      ghost var t, s := table.fences, Snap();
      LaterItself(t);
      var more := true;
      while more && points != []
        invariant Sound() && Quiet(t, table.fences) && lastPoint == s.lastPoint && Known(t, points)
        invariant Prune(t, s) == Prune(t, Snap())
        invariant !more ==> Snap() == Prune(t, s)
        decreases |points|, more
      {
        ghost var mid := table.fences;
        var f := points[0].fence;
        assert Done(mid, f) == Done(t, f);
        var done := table.Poll(f);
        QuietTwice(t, mid, table.fences);
        if done && table.fences[f].status == 0 {
          signaledPoint := points[0].point;
          points := points[1..];
        } else {
          more := false;
        }
      }
    }

    /** `syncQuery`. */
    method QueryPoint() returns (reached: nat)
      requires Sound()
      modifies this`points, this`signaledPoint, table
      ensures Sound() && Quiet(old(table.fences), table.fences)
      ensures reached == Query(old(table.fences), old(Snap())) && Snap() == Prune(old(table.fences), old(Snap()))
    {
      ghost var t := table.fences;
      PrunePoints();
      reached := signaledPoint;
      var i := 0;
      ghost var start := Snap();
      assert points[0..] == points;
      while i < |points|
        invariant 0 <= i <= |points| && Snap() == start && Sound() && Quiet(t, table.fences) && Known(t, points)
        invariant Reach(t, points, signaledPoint) == Reach(t, points[i..], reached)
      {
        ghost var mid := table.fences;
        assert points[i..][0] == points[i] && points[i..][1..] == points[i + 1..];
        assert Done(mid, points[i].fence) == Done(t, points[i].fence);
        var done := table.Poll(points[i].fence);
        QuietTwice(t, mid, table.fences);
        if !done {
          return;
        }
        reached := points[i].point;
        i := i + 1;
      }
    }

    /** `syncFenceFor`. Nothing comes back when there is nothing to wait on yet, or when memory
        runs out. */
    method FenceFor(p: nat, memory: Memory) returns (r: Option<nat>)
      requires Sound()
      modifies this`points, this`signaledPoint, table
      ensures Sound() && Quiet(old(table.fences), table.fences)
      ensures p == 0 ==> r == payload && Snap() == old(Snap())
      ensures p > 0 ==> Snap() == Prune(old(table.fences), old(Snap()))
      ensures p > 0 && r.Some? ==> var w := WaitsFor(old(table.fences), old(Snap()), p);
                                   w.Some? && Means(table.fences, r.value, w.value)
      ensures p > 0 && WaitsFor(old(table.fences), old(Snap()), p).None? ==> r == None
      ensures p > 0 && memory == Memory(true, true, true) && WaitsFor(old(table.fences), old(Snap()), p).Some? ==> r.Some?
    {
      ghost var t, s := table.fences, Snap();
      LaterItself(t);
      if p == 0 {
        return payload;
      }
      PrunePoints();
      PruneTwice(t, s);
      var upTo := FindUpTo(p);
      if upTo == |points| && !(p <= signaledPoint || p <= lastPoint) {
        return None;
      }
      if upTo < |points| && !memory.list {
        return None;
      }
      var list := if upTo == |points| then [] else points[..upTo + 1];
      ghost var t1 := table.fences;
      r := JoinPoints(list, memory);
      QuietTwice(t, t1, table.fences);
    }

    // One fence for all the points of a list.
    method JoinPoints(list: seq<Point>, memory: Memory) returns (r: Option<nat>)
      requires Sound() && Known(table.fences, list)
      modifies table
      ensures Sound() && Quiet(old(table.fences), table.fences)
      ensures r.Some? ==> Means(table.fences, r.value, FencesOf(list))
      ensures memory.parts && memory.fence ==> r.Some?
    {
      ghost var t := table.fences;
      r := table.Join(Wrapped(list), memory);
      if r.Some? {
        JoinMeansAll(t, table.fences, r.value, list);
      }
    }

    method FindUpTo(p: nat) returns (u: nat)
      ensures u == UpTo(points, p)
    {
      u := 0;
      assert points[0..] == points;
      while u < |points| && points[u].point < p
        invariant 0 <= u <= |points| && UpTo(points, p) == u + UpTo(points[u..], p)
      {
        assert points[u..][0] == points[u] && points[u..][1..] == points[u + 1..];
        u := u + 1;
      }
    }

    /** The payload becomes the fence for the newest point, unless there is no memory for one. */
    method Renew(memory: Memory) returns (ghost head: Option<nat>)
      requires Sound() && lastPoint > 0
      modifies this`payload, this`points, this`signaledPoint, table
      ensures Sound() && Quiet(old(table.fences), table.fences) && Snap() == Prune(old(table.fences), old(Snap()))
      ensures payload == if head.Some? then head else old(payload)
      ensures head.Some? ==> WaitsFor(old(table.fences), old(Snap()), lastPoint).Some? &&
                             Means(table.fences, head.value, WaitsFor(old(table.fences), old(Snap()), lastPoint).value)
      ensures memory == Memory(true, true, true) ==> head.Some?
    {
      var newest := FenceFor(lastPoint, memory);
      if newest.Some? {
        payload := newest;
      }
      return newest;
    }

    /** `syncAddPoint`; `room` says whether the array has room for one more, or could be made larger. */
    method AddPoint(p: nat, f: nat, room: bool, memory: Memory) returns (ok: bool, ghost head: Option<nat>)
      requires Sound() && f < |table.fences| && p > 0
      modifies this, table
      ensures Sound() && Quiet(old(table.fences), table.fences)
      ensures Snap() == if ok then Added(old(table.fences), old(Snap()), p, f) else Prune(old(table.fences), old(Snap()))
      ensures payload == if ok && head.Some? then head else old(payload)
      ensures ok && head.Some? ==> WaitsFor(old(table.fences), Snap(), lastPoint).Some? &&
                                   Means(table.fences, head.value, WaitsFor(old(table.fences), Snap(), lastPoint).value)
      ensures var points := Prune(old(table.fences), old(Snap())).points;
              ok <==> room || (UpTo(points, p) < |points| && points[UpTo(points, p)].point == p)
      ensures ok && memory == Memory(true, true, true) ==> head.Some?
    {
      ghost var t := table.fences;
      ok := EnterPoint(p, f, room);
      if !ok {
        return false, None;
      }
      ghost var t1 := table.fences;
      HeadAfter(t, t1, Snap());
      head := Renew(memory);
      QuietTwice(t, t1, table.fences);
    }

    /** The list is pruned, and the point entered if it is there already or there is room. */
    method EnterPoint(p: nat, f: nat, room: bool) returns (ok: bool)
      requires Sound() && f < |table.fences|
      modifies this`points, this`signaledPoint, this`lastPoint, table
      ensures Sound() && Quiet(old(table.fences), table.fences)
      ensures Snap() == if ok then Inserted(old(table.fences), old(Snap()), p, f) else Prune(old(table.fences), old(Snap()))
      ensures var points := Prune(old(table.fences), old(Snap())).points;
              ok <==> room || (UpTo(points, p) < |points| && points[UpTo(points, p)].point == p)
    {
      PrunePoints();
      var at := FindUpTo(p);
      ok := room || (at < |points| && points[at].point == p);
      if ok {
        InsertPoint(p, f);
      }
    }

    method InsertPoint(p: nat, f: nat)
      requires Sound() && f < |table.fences|
      modifies this`points, this`lastPoint
      ensures Sound() && points == Insert(old(points), p, f) && lastPoint == if p > old(lastPoint) then p else old(lastPoint)
    {
      var at := FindUpTo(p);
      InsertKnown(table.fences, points, p, f);
      if at < |points| && points[at].point == p {
        points := points[at := Point(p, f)];
      } else {
        points := points[..at] + [Point(p, f)] + points[at..];
      }
      if p > lastPoint {
        lastPoint := p;
      }
    }

    /** `syncSetPayload`: the timeline starts over. */
    method SetPayload(f: Option<nat>)
      requires Sound() && (f.Some? ==> f.value < |table.fences|)
      modifies this
      ensures Sound() && Snap() == EMPTY && payload == f
    {
      payload, points, lastPoint, signaledPoint := f, [], 0, 0;
    }
  }
}
