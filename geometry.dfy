/**
 * Bounding boxes of building elements (GeometryUtils.get_bbox).
 *
 * Each spatial element contributes the origin points of the elements located
 * in it; the element query and the placement matrices are taken as given.
 * The loop keeps two lists, `bbox_min` and `bbox_max`, that start empty: the
 * first accepted point fills `bbox_min`, the second fills `bbox_max`, and only
 * later points move them componentwise.
 */
module Geometry {
  import opened Wrappers

  datatype Point3 = Point3(x: real, y: real, z: real)

  function Coord(p: Point3, k: nat): real
    requires k < 3
  {
    if k == 0 then p.x else if k == 1 then p.y else p.z
  }

  function Components(p: Point3): seq<real> {
    [p.x, p.y, p.z]
  }

  /** Python `min(a, b)` */
  function Min(a: real, b: real): real {
    if b < a then b else a
  }

  /** Python `max(a, b)` */
  function Max(a: real, b: real): real {
    if b > a then b else a
  }

  /** Points with an x or y coordinate exactly 0 are passed over. */
  predicate Skipped(p: Point3) {
    p.x == 0.0 || p.y == 0.0
  }

  /** The points the loop does not pass over, in order. */
  function Accepted(pts: seq<Point3>): (a: seq<Point3>)
    ensures |a| <= |pts|
    ensures forall i :: 0 <= i < |a| ==> !Skipped(a[i])
  {
    if pts == [] then []
    else
      var last := pts[|pts| - 1];
      Accepted(pts[..|pts| - 1]) + (if Skipped(last) then [] else [last])
  }

  /** All points of all spatial elements, in loop order. */
  function Flatten(groups: seq<seq<Point3>>): seq<Point3> {
    if groups == [] then [] else Flatten(groups[..|groups| - 1]) + groups[|groups| - 1]
  }

  /** The two lists of get_bbox: empty, or holding three coordinates. */
  datatype Bounds = Bounds(lo: seq<real>, hi: seq<real>)

  ghost predicate Shaped(b: Bounds) {
    && (|b.lo| == 0 || |b.lo| == 3)
    && (|b.hi| == 0 || |b.hi| == 3)
    && (|b.hi| == 3 ==> |b.lo| == 3)
  }

  /** One iteration of the inner loop. */
  function Update(b: Bounds, p: Point3): (r: Bounds)
    requires Shaped(b)
    ensures Shaped(r)
  {
    if Skipped(p) then b
    else if |b.lo| == 0 then Bounds(Components(p), b.hi)
    else if |b.hi| == 0 then Bounds(b.lo, Components(p))
    else Bounds([Min(b.lo[0], p.x), Min(b.lo[1], p.y), Min(b.lo[2], p.z)],
                [Max(b.hi[0], p.x), Max(b.hi[1], p.y), Max(b.hi[2], p.z)])
  }

  /** The two lists after the loop has seen `pts`. */
  function Scan(pts: seq<Point3>): (r: Bounds)
    ensures Shaped(r)
  {
    if pts == [] then Bounds([], []) else Update(Scan(pts[..|pts| - 1]), pts[|pts| - 1])
  }

  /** (min, mid, max) as returned by get_bbox. */
  datatype BBox = BBox(min: Point3, mid: Point3, max: Point3)

  /** Indexing an empty list when computing the mid-point. */
  datatype BBoxError = IndexError

  /** The mid-point computation after the loop. */
  function Finish(b: Bounds): Result<BBox, BBoxError>
    requires Shaped(b)
  {
    if |b.lo| == 0 || |b.hi| == 0 then Failure(IndexError)
    else
      Success(BBox(Point3(b.lo[0], b.lo[1], b.lo[2]),
                   Point3((b.lo[0] + b.hi[0]) / 2.0, (b.lo[1] + b.hi[1]) / 2.0, (b.lo[2] + b.hi[2]) / 2.0),
                   Point3(b.hi[0], b.hi[1], b.hi[2])))
  }

  function BBoxOfPoints(pts: seq<Point3>): Result<BBox, BBoxError> {
    Finish(Scan(pts))
  }

  /** What get_bbox returns for the given element points of each spatial element. */
  function BBoxOf(groups: seq<seq<Point3>>): Result<BBox, BBoxError> {
    BBoxOfPoints(Flatten(groups))
  }

  /** GeometryUtils.get_bbox */
  method GetBBox(elementPoints: seq<seq<Point3>>) returns (r: Result<BBox, BBoxError>)
    ensures r == BBoxOf(elementPoints)
  {
    var bboxMin: seq<real> := [];
    var bboxMax: seq<real> := [];
    for i := 0 to |elementPoints|
      invariant Bounds(bboxMin, bboxMax) == Scan(Flatten(elementPoints[..i]))
    {
      var items := elementPoints[i];
      ghost var before := Flatten(elementPoints[..i]);
      assert before + items[..0] == before;
      for j := 0 to |items|
        invariant Bounds(bboxMin, bboxMax) == Scan(before + items[..j])
      {
        var p := items[j];
        ScanStep(before, items, j);
        if p.x == 0.0 || p.y == 0.0 {
          // an element without a real placement
        } else if |bboxMin| == 0 {
          bboxMin := [p.x, p.y, p.z];
        } else if |bboxMax| == 0 {
          bboxMax := [p.x, p.y, p.z];
        } else {
          UpdateInPlace(bboxMin, bboxMax, p);
          bboxMin := bboxMin[0 := Min(bboxMin[0], p.x)];
          bboxMin := bboxMin[1 := Min(bboxMin[1], p.y)];
          bboxMin := bboxMin[2 := Min(bboxMin[2], p.z)];
          bboxMax := bboxMax[0 := Max(bboxMax[0], p.x)];
          bboxMax := bboxMax[1 := Max(bboxMax[1], p.y)];
          bboxMax := bboxMax[2 := Max(bboxMax[2], p.z)];
        }
      }
      FlattenStep(elementPoints, i);
    }
    assert elementPoints[..|elementPoints|] == elementPoints;
    if |bboxMin| == 0 || |bboxMax| == 0 {
      return Failure(IndexError);
    }
    var bboxMid := [(bboxMin[0] + bboxMax[0]) / 2.0, (bboxMin[1] + bboxMax[1]) / 2.0, (bboxMin[2] + bboxMax[2]) / 2.0];
    r := Success(BBox(Point3(bboxMin[0], bboxMin[1], bboxMin[2]),
                      Point3(bboxMid[0], bboxMid[1], bboxMid[2]),
                      Point3(bboxMax[0], bboxMax[1], bboxMax[2])));
  }

  lemma ScanStep(before: seq<Point3>, items: seq<Point3>, j: nat)
    requires j < |items|
    ensures Scan(before + items[..j + 1]) == Update(Scan(before + items[..j]), items[j])
  {
    assert before + items[..j + 1] == (before + items[..j]) + [items[j]];
    ScanAppend(before + items[..j], items[j]);
  }

  /** The componentwise case of Update, written as the three in-place element assignments per list. */
  lemma UpdateInPlace(lo: seq<real>, hi: seq<real>, p: Point3)
    requires |lo| == 3 && |hi| == 3 && !Skipped(p)
    ensures Update(Bounds(lo, hi), p)
         == Bounds(lo[0 := Min(lo[0], p.x)][1 := Min(lo[1], p.y)][2 := Min(lo[2], p.z)],
                   hi[0 := Max(hi[0], p.x)][1 := Max(hi[1], p.y)][2 := Max(hi[2], p.z)])
  {
  }

  lemma FlattenStep(groups: seq<seq<Point3>>, i: nat)
    requires i < |groups|
    ensures Flatten(groups[..i + 1]) == Flatten(groups[..i]) + groups[i][..|groups[i]|]
  {
    assert groups[i][..|groups[i]|] == groups[i];
    assert groups[..i + 1][..i] == groups[..i];
  }

  lemma ScanAppend(s: seq<Point3>, p: Point3)
    ensures Scan(s + [p]) == Update(Scan(s), p)
  {
    assert (s + [p])[..|s|] == s;
  }

  /** The accepted points are exactly the points with x and y both non-zero. */
  lemma {:induction false} AcceptedMembers(pts: seq<Point3>)
    ensures forall p :: p in Accepted(pts) <==> p in pts && !Skipped(p)
  {
    if pts != [] {
      var init, last := pts[..|pts| - 1], pts[|pts| - 1];
      AcceptedMembers(init);
      assert pts == init + [last];
    }
  }

  /** A single point is kept exactly when it is not skipped. */
  lemma AcceptedSingleton(p: Point3)
    ensures Accepted([p]) == if Skipped(p) then [] else [p]
  {
    assert [p][..0] == [];
  }

  /** The accepted points of a concatenation are those of each part, in order. */
  lemma {:induction false} AcceptedAppend(s: seq<Point3>, t: seq<Point3>)
    ensures Accepted(s + t) == Accepted(s) + Accepted(t)
  {
    if t == [] {
      assert s + t == s;
    } else {
      var last := t[|t| - 1];
      AcceptedAppend(s, t[..|t| - 1]);
      assert (s + t)[..|s + t| - 1] == s + t[..|t| - 1];
    }
  }

  /** The loop over all points ends in the same state as the loop over the accepted points only. */
  lemma {:induction false} ScanIgnoresSkipped(pts: seq<Point3>)
    ensures Scan(pts) == Scan(Accepted(pts))
  {
    if pts != [] {
      var init, last := pts[..|pts| - 1], pts[|pts| - 1];
      ScanIgnoresSkipped(init);
      assert Scan(pts) == Update(Scan(init), last);
      if Skipped(last) {
        assert Accepted(pts) == Accepted(init);
        assert Scan(pts) == Scan(init);
      } else {
        assert Accepted(pts) == Accepted(init) + [last];
        ScanAppend(Accepted(init), last);
      }
    }
  }

  /** A point with x == 0 or y == 0, wherever it occurs, changes nothing in the result. */
  lemma SkippedPointIgnored(before: seq<Point3>, p: Point3, after: seq<Point3>)
    requires Skipped(p)
    ensures BBoxOfPoints(before + [p] + after) == BBoxOfPoints(before + after)
  {
    assert [p][..0] == [];
    assert Accepted([p]) == [];
    AcceptedAppend(before, [p]);
    assert Accepted(before + [p]) == Accepted(before);
    AcceptedAppend(before + [p], after);
    AcceptedAppend(before, after);
    ghost var a := Accepted(before + [p] + after);
    assert a == Accepted(before + after);
    ScanIgnoresSkipped(before + [p] + after);
    ScanIgnoresSkipped(before + after);
  }

  /** Over accepted points only, `bbox_min` is filled by the first point and `bbox_max` by the second. */
  lemma {:induction false} ScanFills(a: seq<Point3>)
    requires forall i :: 0 <= i < |a| ==> !Skipped(a[i])
    ensures |Scan(a).lo| == 3 <==> |a| >= 1
    ensures |Scan(a).hi| == 3 <==> |a| >= 2
  {
    if a != [] {
      ScanFills(a[..|a| - 1]);
    }
  }

  /** get_bbox fails exactly when fewer than two points are accepted. */
  lemma BBoxFailsIff(pts: seq<Point3>)
    ensures BBoxOfPoints(pts).Failure? <==> |Accepted(pts)| < 2
  {
    ScanIgnoresSkipped(pts);
    ScanFills(Accepted(pts));
  }

  /** Least `k`-th coordinate over a non-empty sequence of points. */
  function MinCoord(s: seq<Point3>, k: nat): real
    requires |s| > 0 && k < 3
  {
    if |s| == 1 then Coord(s[0], k) else Min(MinCoord(s[..|s| - 1], k), Coord(s[|s| - 1], k))
  }

  /** Greatest `k`-th coordinate over a non-empty sequence of points. */
  function MaxCoord(s: seq<Point3>, k: nat): real
    requires |s| > 0 && k < 3
  {
    if |s| == 1 then Coord(s[0], k) else Max(MaxCoord(s[..|s| - 1], k), Coord(s[|s| - 1], k))
  }

  /** MinCoord is the least coordinate and MaxCoord the greatest, and both are attained. */
  lemma {:induction false} ExtremesOfCoord(s: seq<Point3>, k: nat)
    requires |s| > 0 && k < 3
    ensures forall i :: 0 <= i < |s| ==> MinCoord(s, k) <= Coord(s[i], k) <= MaxCoord(s, k)
    ensures exists i :: 0 <= i < |s| && Coord(s[i], k) == MinCoord(s, k)
    ensures exists j :: 0 <= j < |s| && Coord(s[j], k) == MaxCoord(s, k)
  {
    if |s| > 1 {
      var init := s[..|s| - 1];
      ExtremesOfCoord(init, k);
      var i :| 0 <= i < |init| && Coord(init[i], k) == MinCoord(init, k);
      var j :| 0 <= j < |init| && Coord(init[j], k) == MaxCoord(init, k);
      assert init[i] == s[i] && init[j] == s[j];
      var n := |s| - 1;
      assert MinCoord(s, k) == Min(MinCoord(init, k), Coord(s[n], k));
      assert MaxCoord(s, k) == Max(MaxCoord(init, k), Coord(s[n], k));
      var iMin := if Coord(s[n], k) < MinCoord(init, k) then n else i;
      var jMax := if Coord(s[n], k) > MaxCoord(init, k) then n else j;
      assert 0 <= iMin < |s| && Coord(s[iMin], k) == MinCoord(s, k);
      assert 0 <= jMax < |s| && Coord(s[jMax], k) == MaxCoord(s, k);
      forall m | 0 <= m < |s| - 1
        ensures MinCoord(s, k) <= Coord(s[m], k) <= MaxCoord(s, k)
      {
        assert init[m] == s[m];
      }
    } else {
      assert Coord(s[0], k) == MinCoord(s, k) == MaxCoord(s, k);
    }
  }

  /** All accepted points except the second one. */
  function WithoutSecond(a: seq<Point3>): seq<Point3>
    requires |a| >= 2
  {
    a[..1] + a[2..]
  }

  lemma {:induction false} ScanSeeds(a: seq<Point3>)
    requires |a| >= 2
    requires forall i :: 0 <= i < |a| ==> !Skipped(a[i])
    ensures |Scan(a).lo| == 3 && |Scan(a).hi| == 3
    ensures forall k :: 0 <= k < 3 ==>
              Scan(a).lo[k] == MinCoord(WithoutSecond(a), k) && Scan(a).hi[k] == MaxCoord(a[1..], k)
  {
    ScanFills(a);
    var init, last := a[..|a| - 1], a[|a| - 1];
    if |a| == 2 {
      assert init[..0] == [];
      assert init == [a[0]];
      assert Scan(init) == Bounds(Components(a[0]), []);
      assert WithoutSecond(a) == [a[0]];
      assert a[1..] == [a[1]];
    } else {
      ScanSeeds(init);
      assert WithoutSecond(a)[..|WithoutSecond(a)| - 1] == WithoutSecond(init);
      assert a[1..][..|a| - 2] == init[1..];
    }
  }

  /**
   * The box get_bbox returns: with A the accepted points, `min` is the
   * componentwise least over A without its second point and `max` the
   * componentwise greatest over A without its first point; with exactly two
   * accepted points they are those points verbatim.
   */
  lemma BBoxSeeding(pts: seq<Point3>)
    requires |Accepted(pts)| >= 2
    ensures var a := Accepted(pts); var r := BBoxOfPoints(pts);
      && r.Success?
      && (forall k :: 0 <= k < 3 ==>
            Coord(r.value.min, k) == MinCoord(WithoutSecond(a), k)
            && Coord(r.value.max, k) == MaxCoord(a[1..], k))
      && (|a| == 2 ==> r.value.min == a[0] && r.value.max == a[1])
  {
    ScanIgnoresSkipped(pts);
    ScanSeeds(Accepted(pts));
  }

  /** The mid-point is the componentwise average of min and max. */
  lemma BBoxMidpoint(pts: seq<Point3>)
    requires BBoxOfPoints(pts).Success?
    ensures var b := BBoxOfPoints(pts).value;
      forall k :: 0 <= k < 3 ==> Coord(b.mid, k) - Coord(b.min, k) == Coord(b.max, k) - Coord(b.mid, k)
  {
  }

  /** Two accepted points give the first as `min` and the second as `max`, whichever is lower. */
  lemma TwoPointBox(p: Point3, q: Point3)
    requires !Skipped(p) && !Skipped(q)
    ensures BBoxOfPoints([p, q])
         == Success(BBox(p, Point3((p.x + q.x) / 2.0, (p.y + q.y) / 2.0, (p.z + q.z) / 2.0), q))
  {
    var pts := [p, q];
    assert pts[..1] == [p];
    assert pts[..1][..0] == [];
    assert Scan(pts[..1]) == Bounds(Components(p), []);
    assert Scan(pts) == Bounds(Components(p), Components(q));
  }

  /** `min <= max` is not guaranteed: a second point below the first is never folded into `min`. */
  lemma MinMaxNotOrdered()
    ensures var r := BBoxOfPoints([Point3(2.0, 2.0, 2.0), Point3(1.0, 1.0, 1.0)]);
      r.Success? && r.value.min.x > r.value.max.x
  {
    TwoPointBox(Point3(2.0, 2.0, 2.0), Point3(1.0, 1.0, 1.0));
  }
}
