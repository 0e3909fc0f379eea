/**
  The scan filters of scan2cloud. Point arithmetic and the float Tukey
  weight are abstract: a WeightModel says how one neighbour's term is added
  and when a total weight passes the threshold, and SegmentTests holds the
  distance tests of the segment filter.
 */
module ScanFilters {

  function Max(a: int, b: int): int { if a < b then b else a }
  function Min(a: int, b: int): int { if a < b then a else b }

  /**
    How GetWeight accumulates: `add(sum, neighbour, centre)` adds one
    neighbour's Tukey term to the running sum, and `passes(w)` is
    `w > threshold`. NoiseFilter scales k by the centre's range in the
    distance variant; since the centre is an argument of `add`, one model
    covers both variants.
   */
  datatype WeightModel<-P, !W> = WeightModel(zero: W, add: (W, P, P) -> W, passes: W -> bool)

  /** First neighbour GetWeight reads. */
  function WindowStart(idx: int, windowSize: int): int
  {
    Max(0, idx - windowSize)
  }

  /** One past the last neighbour GetWeight reads: never beyond the second-to-last point. */
  function WindowEnd(size: int, idx: int, windowSize: int): int
  {
    Min(size - 1, idx + windowSize + 1)
  }

  /** The terms for neighbours lo .. hi-1 relative to centre pc, added in index order. */
  function WeightOver<P, W>(m: WeightModel<P, W>, points: seq<P>, pc: P, lo: int, hi: int): W
    requires 0 <= lo && (lo < hi ==> hi <= |points|)
    decreases hi - lo
  {
    if hi <= lo then m.zero else m.add(WeightOver(m, points, pc, lo, hi - 1), points[hi - 1], pc)
  }

  /** The weight of point idx: its window's terms in order. */
  function Weight<P, W>(m: WeightModel<P, W>, points: seq<P>, windowSize: int, idx: int): W
    requires 0 <= idx < |points|
  {
    WeightOver(m, points, points[idx], WindowStart(idx, windowSize), WindowEnd(|points|, idx, windowSize))
  }

  /**
    GetWeight. `visited` lists the neighbours read, in order: every one is
    within windowSize of idx and inside the scan. The last point is never
    read as a neighbour, although the first one is.
   */
  method GetWeight<P, W>(m: WeightModel<P, W>, points: seq<P>, windowSize: int, idx: int)
    returns (w: W, visited: seq<int>)
    requires 0 <= idx < |points|
    ensures w == Weight(m, points, windowSize, idx)
    ensures forall j :: j in visited <==>
      WindowStart(idx, windowSize) <= j < WindowEnd(|points|, idx, windowSize)
    ensures forall k | 0 <= k < |visited| ::
      visited[k] == WindowStart(idx, windowSize) + k
    ensures forall k | 0 <= k < |visited| ::
      0 <= visited[k] < |points| - 1 && idx - windowSize <= visited[k] <= idx + windowSize
  {
    var start := Max(0, idx - windowSize);
    var end := Min(|points| - 1, idx + windowSize + 1);
    assert 0 <= start && end <= |points| - 1;
    var pc := points[idx];
    w := m.zero;
    visited := [];
    var i := start;
    while i < end
      invariant start <= i <= Max(start, end)
      invariant w == WeightOver(m, points, pc, start, i)
      invariant |visited| == i - start
      invariant forall k | 0 <= k < |visited| :: visited[k] == start + k
    {
      w := m.add(w, points[i], pc);
      visited := visited + [i];
      i := i + 1;
    }
    assert start <= end ==> i == end;
    assert start > end ==> visited == [];
    forall j ensures j in visited <==> start <= j < end {
      if start <= j < end {
        assert visited[j - start] == j;
      }
    }
  }

  lemma {:induction false} WeightOverLocal<P, W>(m: WeightModel<P, W>, a: seq<P>, b: seq<P>, pc: P, lo: int, hi: int)
    requires 0 <= lo && hi <= |a| && hi <= |b|
    requires forall j | lo <= j < hi :: a[j] == b[j]
    ensures WeightOver(m, a, pc, lo, hi) == WeightOver(m, b, pc, lo, hi)
    decreases hi - lo
  {
    if lo < hi {
      WeightOverLocal(m, a, b, pc, lo, hi - 1);
    }
  }

  /**
    A point's weight depends only on itself and on the points within
    windowSize of it, the last point of the scan excepted.
   */
  lemma WeightIsLocal<P, W>(m: WeightModel<P, W>, a: seq<P>, b: seq<P>, windowSize: int, idx: int)
    requires |a| == |b| && 0 <= idx < |a|
    requires a[idx] == b[idx]
    requires forall j | 0 <= j < |a| - 1 && idx - windowSize <= j <= idx + windowSize :: a[j] == b[j]
    ensures Weight(m, a, windowSize, idx) == Weight(m, b, windowSize, idx)
  {
    WeightOverLocal(m, a, b, a[idx], WindowStart(idx, windowSize), WindowEnd(|a|, idx, windowSize));
  }

  predicate Kept<P, W>(m: WeightModel<P, W>, points: seq<P>, windowSize: int, i: int)
    requires 0 <= i < |points|
  {
    m.passes(Weight(m, points, windowSize, i))
  }

  /** The indices below n whose weight passes, in increasing order. */
  function KeptIndices<P, W>(m: WeightModel<P, W>, points: seq<P>, windowSize: int, n: nat): seq<nat>
    requires n <= |points|
  {
    if n == 0 then []
    else KeptIndices(m, points, windowSize, n - 1) + (if Kept(m, points, windowSize, n - 1) then [n - 1] else [])
  }

  /** KeptIndices lists, in increasing order, exactly the indices whose weight passes. */
  lemma {:induction false} KeptIndicesSpec<P, W>(m: WeightModel<P, W>, points: seq<P>, windowSize: int, n: nat)
    requires n <= |points|
    ensures var ks := KeptIndices(m, points, windowSize, n);
      (forall k | 0 <= k < |ks| :: ks[k] < n) &&
      (forall k, l | 0 <= k < l < |ks| :: ks[k] < ks[l]) &&
      (forall j | 0 <= j < n :: j in ks <==> Kept(m, points, windowSize, j))
  {
    if n > 0 {
      KeptIndicesSpec(m, points, windowSize, n - 1);
    }
  }

  /** The points NoiseFilter keeps among the first n, in order. */
  function KeptPoints<P, W>(m: WeightModel<P, W>, points: seq<P>, windowSize: int, n: nat): seq<P>
    requires n <= |points|
  {
    if n == 0 then []
    else KeptPoints(m, points, windowSize, n - 1) + (if Kept(m, points, windowSize, n - 1) then [points[n - 1]] else [])
  }

  /** The kept points are the points at the kept indices. */
  lemma {:induction false} KeptPointsAtKeptIndices<P, W>(m: WeightModel<P, W>, points: seq<P>, windowSize: int, n: nat)
    requires n <= |points|
    ensures var ks := KeptIndices(m, points, windowSize, n);
      var out := KeptPoints(m, points, windowSize, n);
      |out| == |ks| <= n &&
      forall k | 0 <= k < |ks| :: ks[k] < n && out[k] == points[ks[k]]
  {
    if n > 0 {
      KeptPointsAtKeptIndices(m, points, windowSize, n - 1);
    }
  }

  /**
    NoiseFilter and NoiseFilterDist: the output is, in input order, exactly
    the points whose weight passes the threshold.
   */
  method NoiseFilter<P, W>(m: WeightModel<P, W>, points: seq<P>, windowSize: int) returns (out: seq<P>)
    ensures var ks := KeptIndices(m, points, windowSize, |points|);
      |out| == |ks| <= |points| &&
      forall k | 0 <= k < |ks| :: ks[k] < |points| && out[k] == points[ks[k]]
  {
    out := [];
    var i := 0;
    while i < |points|
      invariant 0 <= i <= |points|
      invariant out == KeptPoints(m, points, windowSize, i)
    {
      var w, visited := GetWeight(m, points, windowSize, i);
      if m.passes(w) {
        out := out + [points[i]];
      }
      i := i + 1;
    }
    KeptPointsAtKeptIndices(m, points, windowSize, |points|);
  }

  /**
    The segment filter's tests: `close(back, p)` is TestSegmentDist of the
    segment's last point and the next one, `wide(front, back)` is the
    segment's extent exceeding minSegmentSize.
   */
  datatype SegmentTests<-P> = SegmentTests(close: (P, P) -> bool, wide: (P, P) -> bool)

  const SizeTModulus: int := 0x1_0000_0000_0000_0000

  /** `n > minPoints` with minPoints converted to size_t, as the comparison with curSegment.size() does. */
  predicate LongerThan(n: nat, minPoints: int)
  {
    n > minPoints % SizeTModulus
  }

  /** A negative minPoints becomes a huge size_t: no segment is ever long enough. */
  lemma NegativeMinPointsRejectsAll(n: nat, minPoints: int)
    requires minPoints < 0 && n < SizeTModulus + minPoints
    ensures !LongerThan(n, minPoints)
  {
  }

  /** Point i joins the segment of point i-1. */
  predicate Linked<P>(t: SegmentTests<P>, windowSize: int, points: seq<P>, i: int)
    requires 1 <= i < |points|
  {
    windowSize > 0 && t.close(points[i - 1], points[i])
  }

  /** A finished segment is published when it has more than minPoints points and is wide enough. */
  predicate Accepted<P>(t: SegmentTests<P>, minPoints: int, seg: seq<P>)
  {
    LongerThan(|seg|, minPoints) && t.wide(seg[0], seg[|seg| - 1])
  }

  /** One more point: it extends the last run when linked, else starts a new run. */
  function Extend<P>(rs: seq<seq<P>>, p: P, linked: bool): (rs': seq<seq<P>>)
    requires |rs| >= 1
    ensures |rs'| >= 1 && |rs'[|rs'| - 1]| >= 1 && rs'[|rs'| - 1][|rs'[|rs'| - 1]| - 1] == p
  {
    if linked then rs[..|rs| - 1] + [rs[|rs| - 1] + [p]] else rs + [[p]]
  }

  /** The maximal runs of linked points among the first n points. */
  function Runs<P>(t: SegmentTests<P>, windowSize: int, points: seq<P>, n: nat): (rs: seq<seq<P>>)
    requires 1 <= n <= |points|
    ensures |rs| >= 1 && |rs[|rs| - 1]| >= 1
    ensures rs[|rs| - 1][|rs[|rs| - 1]| - 1] == points[n - 1]
  {
    if n == 1 then [[points[0]]]
    else Extend(Runs(t, windowSize, points, n - 1), points[n - 1], Linked(t, windowSize, points, n - 1))
  }

  /** Where each run starts: point 0 and every point not linked to its predecessor. */
  function Starts<P>(t: SegmentTests<P>, windowSize: int, points: seq<P>, n: nat): seq<nat>
    requires 1 <= n <= |points|
  {
    if n == 1 then [0]
    else Starts(t, windowSize, points, n - 1) + (if Linked(t, windowSize, points, n - 1) then [] else [n - 1])
  }

  /** The run starts are 0 and then, in increasing order, exactly the points not linked to their predecessor. */
  lemma {:induction false} StartsSpec<P>(t: SegmentTests<P>, windowSize: int, points: seq<P>, n: nat)
    requires 1 <= n <= |points|
    ensures var ss := Starts(t, windowSize, points, n);
      |ss| >= 1 && ss[0] == 0 &&
      (forall k | 0 <= k < |ss| :: ss[k] < n) &&
      (forall k, l | 0 <= k < l < |ss| :: ss[k] < ss[l]) &&
      (forall j | 1 <= j < n :: j in ss <==> !Linked(t, windowSize, points, j))
  {
    if n > 1 {
      StartsSpec(t, windowSize, points, n - 1);
    }
  }

  /** Where run k of a run-start list ends. */
  function RunEnd(ss: seq<nat>, k: nat, n: nat): nat
    requires k < |ss|
  {
    if k + 1 < |ss| then ss[k + 1] else n
  }

  /** Every run k is the slice of `points` from ss[k] to where it ends. */
  ghost predicate SlicedAt<P>(rs: seq<seq<P>>, ss: seq<nat>, points: seq<P>, n: nat)
  {
    |rs| == |ss| && n <= |points| &&
    forall k | 0 <= k < |rs| :: ss[k] <= RunEnd(ss, k, n) <= n && rs[k] == points[ss[k] .. RunEnd(ss, k, n)]
  }

  lemma ExtendSlicedLinked<P>(rs: seq<seq<P>>, ss: seq<nat>, points: seq<P>, n: nat)
    requires |rs| >= 1 && n < |points| && SlicedAt(rs, ss, points, n)
    ensures SlicedAt(Extend(rs, points[n], true), ss, points, n + 1)
  {
    var rs' := Extend(rs, points[n], true);
    var last := |rs| - 1;
    forall k | 0 <= k < |rs'|
      ensures ss[k] <= RunEnd(ss, k, n + 1) <= n + 1
      ensures rs'[k] == points[ss[k] .. RunEnd(ss, k, n + 1)]
    {
      if k == last {
        assert points[ss[k] .. n + 1] == points[ss[k] .. n] + [points[n]];
      } else {
        assert rs'[k] == rs[k];
      }
    }
  }

  lemma ExtendSlicedNew<P>(rs: seq<seq<P>>, ss: seq<nat>, points: seq<P>, n: nat)
    requires |rs| >= 1 && n < |points| && SlicedAt(rs, ss, points, n)
    ensures SlicedAt(Extend(rs, points[n], false), ss + [n], points, n + 1)
  {
    var rs' := Extend(rs, points[n], false);
    var ss' := ss + [n];
    forall k | 0 <= k < |rs'|
      ensures ss'[k] <= RunEnd(ss', k, n + 1) <= n + 1
      ensures rs'[k] == points[ss'[k] .. RunEnd(ss', k, n + 1)]
    {
      if k < |rs| {
        assert rs'[k] == rs[k];
        assert RunEnd(ss', k, n + 1) == RunEnd(ss, k, n);
      }
    }
  }

  /** Run k is exactly the points from its start up to the next run's start. */
  lemma {:induction false} RunsBetweenStarts<P>(t: SegmentTests<P>, windowSize: int, points: seq<P>, n: nat)
    requires 1 <= n <= |points|
    ensures SlicedAt(Runs(t, windowSize, points, n), Starts(t, windowSize, points, n), points, n)
  {
    if n > 1 {
      RunsBetweenStarts(t, windowSize, points, n - 1);
      var rs0 := Runs(t, windowSize, points, n - 1);
      var ss0 := Starts(t, windowSize, points, n - 1);
      if Linked(t, windowSize, points, n - 1) {
        ExtendSlicedLinked(rs0, ss0, points, n - 1);
        assert Starts(t, windowSize, points, n) == ss0;
        assert Runs(t, windowSize, points, n) == Extend(rs0, points[n - 1], true);
      } else {
        ExtendSlicedNew(rs0, ss0, points, n - 1);
        assert Starts(t, windowSize, points, n) == ss0 + [n - 1];
        assert Runs(t, windowSize, points, n) == Extend(rs0, points[n - 1], false);
      }
    }
  }

  /** The runs, in order. */
  function Concat<P>(ss: seq<seq<P>>): seq<P>
  {
    if |ss| == 0 then [] else Concat(ss[..|ss| - 1]) + ss[|ss| - 1]
  }

  lemma ExtendConcat<P>(rs: seq<seq<P>>, p: P, linked: bool)
    requires |rs| >= 1
    ensures Concat(Extend(rs, p, linked)) == Concat(rs) + [p]
  {
    var rs' := Extend(rs, p, linked);
    var init := rs[..|rs| - 1];
    var last := rs[|rs| - 1];
    assert Concat(rs) == Concat(init) + last;
    if linked {
      assert rs'[..|rs'| - 1] == init;
      assert rs'[|rs'| - 1] == last + [p];
      assert Concat(rs') == Concat(init) + (last + [p]);
    } else {
      assert rs'[..|rs'| - 1] == rs;
      assert rs'[|rs'| - 1] == [p];
    }
  }

  /** Extending runs that lay out points[..n] with points[n] lays out points[..n + 1]. */
  lemma ExtendPrefix<P>(rs: seq<seq<P>>, points: seq<P>, n: nat, linked: bool)
    requires |rs| >= 1 && n < |points| && Concat(rs) == points[..n]
    ensures Concat(Extend(rs, points[n], linked)) == points[..n + 1]
  {
    ExtendConcat(rs, points[n], linked);
    assert points[..n + 1] == points[..n] + [points[n]];
  }

  lemma RunsOne<P>(t: SegmentTests<P>, windowSize: int, points: seq<P>)
    requires 1 <= |points|
    ensures Concat(Runs(t, windowSize, points, 1)) == points[..1]
  {
    var rs := Runs(t, windowSize, points, 1);
    assert rs[..0] == [];
  }

  /** The runs partition the points: laid end to end they give the input back. */
  lemma {:induction false} RunsPartition<P>(t: SegmentTests<P>, windowSize: int, points: seq<P>, n: nat)
    requires 1 <= n <= |points|
    ensures Concat(Runs(t, windowSize, points, n)) == points[..n]
  {
    if n == 1 {
      RunsOne(t, windowSize, points);
    } else {
      RunsPartition(t, windowSize, points, n - 1);
      ExtendPrefix(Runs(t, windowSize, points, n - 1), points, n - 1, Linked(t, windowSize, points, n - 1));
    }
  }

  /** The published segments, in order. */
  function AcceptedConcat<P>(t: SegmentTests<P>, minPoints: int, rs: seq<seq<P>>): seq<P>
  {
    if |rs| == 0 then []
    else
      AcceptedConcat(t, minPoints, rs[..|rs| - 1]) +
      (if Accepted(t, minPoints, rs[|rs| - 1]) then rs[|rs| - 1] else [])
  }

  lemma AcceptedConcatSnoc<P>(t: SegmentTests<P>, minPoints: int, done: seq<seq<P>>, cur: seq<P>)
    ensures AcceptedConcat(t, minPoints, done + [cur]) ==
      AcceptedConcat(t, minPoints, done) + (if Accepted(t, minPoints, cur) then cur else [])
  {
    assert (done + [cur])[..|done|] == done;
  }

  lemma {:induction false} AcceptedConcatBound<P>(t: SegmentTests<P>, minPoints: int, rs: seq<seq<P>>)
    ensures |AcceptedConcat(t, minPoints, rs)| <= |Concat(rs)|
  {
    if |rs| > 0 {
      AcceptedConcatBound(t, minPoints, rs[..|rs| - 1]);
    }
  }

  /** Extending the finished runs `done` followed by the open run `cur`. */
  lemma ExtendOpenRun<P>(done: seq<seq<P>>, cur: seq<P>, p: P, linked: bool)
    ensures linked ==> Extend(done + [cur], p, linked) == done + [cur + [p]]
    ensures !linked ==> Extend(done + [cur], p, linked) == (done + [cur]) + [[p]]
  {
    assert (done + [cur])[..|done|] == done;
  }

  /** The open run ends with the latest point. */
  lemma OpenRunLast<P>(t: SegmentTests<P>, windowSize: int, points: seq<P>, i: nat, done: seq<seq<P>>, cur: seq<P>)
    requires 1 <= i <= |points| && Runs(t, windowSize, points, i) == done + [cur]
    ensures |cur| >= 1 && cur[|cur| - 1] == points[i - 1]
  {
    assert cur == Runs(t, windowSize, points, i)[|done|];
  }

  /** Point i joins the open run when linked, else closes it and opens its own. */
  lemma RunsStep<P>(t: SegmentTests<P>, windowSize: int, points: seq<P>, i: nat, done: seq<seq<P>>, cur: seq<P>)
    requires 1 <= i < |points| && Runs(t, windowSize, points, i) == done + [cur]
    ensures Linked(t, windowSize, points, i) ==>
      Runs(t, windowSize, points, i + 1) == done + [cur + [points[i]]]
    ensures !Linked(t, windowSize, points, i) ==>
      Runs(t, windowSize, points, i + 1) == (done + [cur]) + [[points[i]]]
  {
    ExtendOpenRun(done, cur, points[i], Linked(t, windowSize, points, i));
  }

  /**
    The search loop of SegmentFilter. The test does not depend on the loop
    counter, so the loop finds a match exactly when it runs at all and the
    test holds.
   */
  method SearchWindow<P>(t: SegmentTests<P>, back: P, curP: P, i: int, windowSize: int, size: int)
    returns (found: bool)
    requires 0 <= i < size
    ensures found <==> windowSize > 0 && t.close(back, curP)
  {
    found := false;
    var k := i;
    while k < i + windowSize && k < size
      invariant i <= k
      invariant k > i ==> !t.close(back, curP)
      decreases size - k
    {
      if t.close(back, curP) {
        found := true;
        break;
      }
      k := k + 1;
    }
  }

  /**
    SegmentFilter: the output is the concatenation, in order, of the
    maximal runs of linked points that are long and wide enough.
   */
  method SegmentFilter<P>(t: SegmentTests<P>, points: seq<P>, windowSize: int, minPoints: int)
    returns (out: seq<P>)
    ensures |points| == 0 ==> out == []
    ensures |points| > 0 ==> out == AcceptedConcat(t, minPoints, Runs(t, windowSize, points, |points|))
    ensures |out| <= |points|
  {
    out := [];
    if |points| == 0 {
      return;
    }
    var cur := [points[0]];
    ghost var done: seq<seq<P>> := [];
    var i := 1;
    while i < |points|
      invariant 1 <= i <= |points|
      invariant Runs(t, windowSize, points, i) == done + [cur]
      invariant out == AcceptedConcat(t, minPoints, done)
    {
      OpenRunLast(t, windowSize, points, i, done, cur);
      var found := SearchWindow(t, cur[|cur| - 1], points[i], i, windowSize, |points|);
      RunsStep(t, windowSize, points, i, done, cur);
      if found {
        cur := cur + [points[i]];
      } else {
        AcceptedConcatSnoc(t, minPoints, done, cur);
        if Accepted(t, minPoints, cur) {
          out := out + cur;
        }
        done := done + [cur];
        cur := [points[i]];
      }
      i := i + 1;
    }
    AcceptedConcatSnoc(t, minPoints, done, cur);
    if Accepted(t, minPoints, cur) {
      out := out + cur;
    }
    AcceptedConcatBound(t, minPoints, done + [cur]);
    RunsPartition(t, windowSize, points, i);
  }
}
