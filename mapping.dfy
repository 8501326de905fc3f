/**
 * The point cloud SonarVisionMappingSystem.plot_3d_mapping (svms/main.py:109-136) builds
 * before handing it to matplotlib: one Cartesian point per distance, flattened in sample
 * order and then distance order. np.sin and np.cos are parameters.
 */
module Mapping {
  import opened Scanning

  datatype Point = Point(x: real, y: real, z: real)

  /** x = d cos v cos h, y = d cos v sin h, z = d sin v. */
  function ToCartesian(d: real, h: real, v: real, sin: real -> real, cos: real -> real): Point
  {
    Point(d * cos(v) * cos(h), d * cos(v) * sin(h), d * sin(v))
  }

  /** Wherever sin^2 + cos^2 = 1 holds at both angles, the point lies at distance d from the origin. */
  lemma NormIsRange(d: real, h: real, v: real, sin: real -> real, cos: real -> real)
    requires sin(h) * sin(h) + cos(h) * cos(h) == 1.0
    requires sin(v) * sin(v) + cos(v) * cos(v) == 1.0
    ensures var p := ToCartesian(d, h, v, sin, cos);
      p.x * p.x + p.y * p.y + p.z * p.z == d * d
  {
    var p := ToCartesian(d, h, v, sin, cos);
    var r := d * cos(v);
    assert p.x * p.x + p.y * p.y == r * r * (cos(h) * cos(h) + sin(h) * sin(h));
    assert p.x * p.x + p.y * p.y == r * r;
    assert r * r == d * d * (cos(v) * cos(v));
    assert p.z * p.z == d * d * (sin(v) * sin(v));
    assert d * d * (cos(v) * cos(v)) + d * d * (sin(v) * sin(v)) == d * d * (cos(v) * cos(v) + sin(v) * sin(v));
  }

  /** The points of the first |ranges| distances of one sample, in distance order. */
  function ProjectRanges(ranges: seq<real>, h: real, v: real, sin: real -> real, cos: real -> real): (ps: seq<Point>)
    ensures |ps| == |ranges|
    ensures forall j :: 0 <= j < |ps| ==> ps[j] == ToCartesian(ranges[j], h, v, sin, cos)
  {
    if ranges == [] then []
    else ProjectRanges(ranges[..|ranges| - 1], h, v, sin, cos)
         + [ToCartesian(ranges[|ranges| - 1], h, v, sin, cos)]
  }

  /** Appending one distance appends its point. */
  lemma ProjectRangesSnoc(ranges: seq<real>, j: nat, h: real, v: real, sin: real -> real, cos: real -> real)
    requires j < |ranges|
    ensures ProjectRanges(ranges[..j + 1], h, v, sin, cos)
         == ProjectRanges(ranges[..j], h, v, sin, cos) + [ToCartesian(ranges[j], h, v, sin, cos)]
  {
    assert ranges[..j + 1][..j] == ranges[..j];
  }

  /** The flattened points of all samples, in sample order. */
  function PointCloud(samples: seq<ScanSample>, sin: real -> real, cos: real -> real): seq<Point>
  {
    if samples == [] then []
    else
      var last := samples[|samples| - 1];
      PointCloud(samples[..|samples| - 1], sin, cos) + ProjectRanges(last.ranges, last.hAngle, last.vAngle, sin, cos)
  }

  /** Appending one sample appends its points. */
  lemma PointCloudSnoc(samples: seq<ScanSample>, i: nat, sin: real -> real, cos: real -> real)
    requires i < |samples|
    ensures PointCloud(samples[..i + 1], sin, cos) == PointCloud(samples[..i], sin, cos)
      + ProjectRanges(samples[i].ranges, samples[i].hAngle, samples[i].vAngle, sin, cos)
  {
    assert samples[..i + 1][..i] == samples[..i];
  }

  /** The x, y and z lists of a sequence of points. */
  function Xs(points: seq<Point>): (r: seq<real>)
    ensures |r| == |points| && forall k :: 0 <= k < |r| ==> r[k] == points[k].x
  {
    seq(|points|, k requires 0 <= k < |points| => points[k].x)
  }

  function Ys(points: seq<Point>): (r: seq<real>)
    ensures |r| == |points| && forall k :: 0 <= k < |r| ==> r[k] == points[k].y
  {
    seq(|points|, k requires 0 <= k < |points| => points[k].y)
  }

  function Zs(points: seq<Point>): (r: seq<real>)
    ensures |r| == |points| && forall k :: 0 <= k < |r| ==> r[k] == points[k].z
  {
    seq(|points|, k requires 0 <= k < |points| => points[k].z)
  }

  /** Appending a point appends its coordinates to each list. */
  lemma CoordinatesSnoc(points: seq<Point>, p: Point)
    ensures Xs(points + [p]) == Xs(points) + [p.x]
    ensures Ys(points + [p]) == Ys(points) + [p.y]
    ensures Zs(points + [p]) == Zs(points) + [p.z]
  {
  }

  /** How many distances the samples carry in all. */
  function TotalRanges(samples: seq<ScanSample>): nat
  {
    if samples == [] then 0 else TotalRanges(samples[..|samples| - 1]) + |samples[|samples| - 1].ranges|
  }

  /** There is one point per distance. */
  lemma {:induction false} PointCloudSize(samples: seq<ScanSample>, sin: real -> real, cos: real -> real)
    ensures |PointCloud(samples, sin, cos)| == TotalRanges(samples)
    decreases |samples|
  {
    if samples != [] {
      PointCloudSize(samples[..|samples| - 1], sin, cos);
    }
  }

  /** The cloud of the first n samples is a prefix of the whole cloud. */
  lemma {:induction false} PointCloudPrefix(samples: seq<ScanSample>, n: nat, k: nat, sin: real -> real, cos: real -> real)
    requires n <= |samples| && k < |PointCloud(samples[..n], sin, cos)|
    ensures k < |PointCloud(samples, sin, cos)|
    ensures PointCloud(samples, sin, cos)[k] == PointCloud(samples[..n], sin, cos)[k]
    decreases |samples| - n
  {
    if n < |samples| {
      PointCloudSnoc(samples, n, sin, cos);
      PointCloudPrefix(samples, n + 1, k, sin, cos);
    } else {
      assert samples[..n] == samples;
    }
  }

  /**
   * Distance j of sample i becomes the point at position TotalRanges(samples[..i]) + j,
   * projected with that sample's own angles.
   */
  lemma PointCloudAt(samples: seq<ScanSample>, sin: real -> real, cos: real -> real, i: nat, j: nat)
    requires i < |samples| && j < |samples[i].ranges|
    ensures TotalRanges(samples[..i]) + j < |PointCloud(samples, sin, cos)|
    ensures PointCloud(samples, sin, cos)[TotalRanges(samples[..i]) + j] ==
      ToCartesian(samples[i].ranges[j], samples[i].hAngle, samples[i].vAngle, sin, cos)
  {
    var front := PointCloud(samples[..i], sin, cos);
    var tail := ProjectRanges(samples[i].ranges, samples[i].hAngle, samples[i].vAngle, sin, cos);
    var s := samples[i];
    var k := |front| + j;
    PointCloudSnoc(samples, i, sin, cos);
    PointCloudSize(samples[..i], sin, cos);
    assert k == TotalRanges(samples[..i]) + j;
    assert PointCloud(samples[..i + 1], sin, cos)[k] == tail[j];
    assert tail[j] == ToCartesian(s.ranges[j], s.hAngle, s.vAngle, sin, cos);
    PointCloudPrefix(samples, i + 1, k, sin, cos);
  }

  /** Samples whose distance arrays are all empty give no points (and no error). */
  lemma {:induction false} NoRangesNoPoints(samples: seq<ScanSample>, sin: real -> real, cos: real -> real)
    requires forall i :: 0 <= i < |samples| ==> samples[i].ranges == []
    ensures PointCloud(samples, sin, cos) == []
    decreases |samples|
  {
    if samples != [] {
      NoRangesNoPoints(samples[..|samples| - 1], sin, cos);
    }
  }
}
