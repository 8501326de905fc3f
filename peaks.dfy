/**
 * scipy.signal.find_peaks(x, height=h) as svms/main.py calls it: scipy's local-maxima scan
 * (a sample is a peak when its left neighbour is strictly lower and the next different
 * value to its right is strictly lower; a flat top reports its middle index, rounded down;
 * the first and last samples are never peaks), followed by the inclusive height test
 * x[p] >= h, keeping the ascending order of the scan.
 */
module FindPeaks {

  /**
   * The index where scipy's look-ahead from a candidate i stops: the first j (starting at
   * from) that is the last index of x or holds a value different from x[i].
   */
  function PlateauEnd(x: seq<real>, i: nat, from: nat): (e: nat)
    requires i < from <= |x| - 1
    ensures from <= e <= |x| - 1
    ensures forall k :: from <= k < e ==> x[k] == x[i]
    ensures e == |x| - 1 || x[e] != x[i]
    decreases |x| - from
  {
    if from < |x| - 1 && x[from] == x[i] then PlateauEnd(x, i, from + 1) else from
  }

  /** The candidate's plateau ends at End(x, i) - 1. */
  function End(x: seq<real>, i: nat): nat
    requires i + 1 < |x|
  {
    PlateauEnd(x, i, i + 1)
  }

  /** The index scipy reports for the plateau that starts at i: its middle, rounded down. */
  function Midpoint(x: seq<real>, i: nat): nat
    requires i + 1 < |x|
  {
    (i + End(x, i) - 1) / 2
  }

  /** x[p] is an interior sample no neighbour exceeds. */
  predicate IsLocalMax(x: seq<real>, p: nat)
  {
    1 <= p && p + 1 < |x| && x[p - 1] <= x[p] && x[p + 1] <= x[p]
  }

  predicate StrictlyIncreasing(s: seq<nat>)
  {
    forall k, l :: 0 <= k < l < |s| ==> s[k] < s[l]
  }

  /**
   * The loop of scipy's _local_maxima_1d from loop position i: a rising step at i whose
   * plateau drops afterwards reports its midpoint and resumes after the drop; every
   * other position moves on by one.
   */
  function ScanMaxima(x: seq<real>, i: nat): seq<nat>
    requires i >= 1
    decreases |x| - i
  {
    if i + 1 >= |x| then []
    else if x[i - 1] < x[i] then
      var e := End(x, i);
      if x[e] < x[i] then [Midpoint(x, i)] + ScanMaxima(x, e + 1)
      else ScanMaxima(x, i + 1)
    else ScanMaxima(x, i + 1)
  }

  /** The midpoint of a plateau that rises at i and later drops is a local maximum at or after i. */
  lemma MidpointIsLocalMax(x: seq<real>, i: nat)
    requires 1 <= i && i + 1 < |x| && x[i - 1] < x[i] && x[End(x, i)] < x[i]
    ensures i <= Midpoint(x, i) < End(x, i) && IsLocalMax(x, Midpoint(x, i))
  {
    var m := Midpoint(x, i);
    assert x[m] == x[i];
    assert m == i || x[m - 1] == x[i];
    assert x[m + 1] <= x[i];
  }

  /** Every index the scan reports from i on is a local maximum at or after i, and they ascend strictly. */
  lemma {:induction false} ScanMaximaSound(x: seq<real>, i: nat)
    requires i >= 1
    ensures forall k :: 0 <= k < |ScanMaxima(x, i)| ==>
      i <= ScanMaxima(x, i)[k] && IsLocalMax(x, ScanMaxima(x, i)[k])
    ensures StrictlyIncreasing(ScanMaxima(x, i))
    decreases |x| - i
  {
    var r := ScanMaxima(x, i);
    if i + 1 >= |x| {
      assert r == [];
    } else if x[i - 1] < x[i] && x[End(x, i)] < x[i] {
      var e := End(x, i);
      var m := Midpoint(x, i);
      MidpointIsLocalMax(x, i);
      ScanMaximaSound(x, e + 1);
      var rest := ScanMaxima(x, e + 1);
      assert r == [m] + rest;
      forall k | 0 <= k < |r|
        ensures i <= r[k] && IsLocalMax(x, r[k])
      {
        if k == 0 {
          assert r[k] == m;
        } else {
          assert r[k] == rest[k - 1];
        }
      }
      forall k, l | 0 <= k < l < |r|
        ensures r[k] < r[l]
      {
        assert r[l] == rest[l - 1];
        if k > 0 {
          assert r[k] == rest[k - 1];
        }
      }
    } else {
      ScanMaximaSound(x, i + 1);
      assert r == ScanMaxima(x, i + 1);
    }
  }

  /** An index where a plateau rises from its left neighbour and later drops again. */
  predicate IsPeakEdge(x: seq<real>, l: nat)
  {
    1 <= l && l + 1 < |x| && x[l - 1] < x[l] && x[End(x, l)] < x[l]
  }

  /**
   * Reference definition independent of the scan's jumps: the midpoints of every peak
   * edge at or after l, in ascending order of the edge.
   */
  function PeakMidpoints(x: seq<real>, l: nat): (r: seq<nat>)
    requires l >= 1
    ensures forall k :: 0 <= k < |r| ==> l <= r[k] && r[k] + 1 < |x|
    decreases |x| - l
  {
    if l + 1 >= |x| then []
    else (if IsPeakEdge(x, l) then [Midpoint(x, l)] else []) + PeakMidpoints(x, l + 1)
  }

  /** The scan misses no edge and reports nothing else: it equals the reference filter. */
  lemma {:induction false} ScanMatchesReference(x: seq<real>, i: nat)
    requires i >= 1
    ensures ScanMaxima(x, i) == PeakMidpoints(x, i)
    decreases |x| - i
  {
    if i + 1 >= |x| {
    } else if IsPeakEdge(x, i) {
      var e := End(x, i);
      assert ScanMaxima(x, i) == [Midpoint(x, i)] + ScanMaxima(x, e + 1);
      assert PeakMidpoints(x, i) == [Midpoint(x, i)] + PeakMidpoints(x, i + 1);
      NoEdgeInsidePlateau(x, i, i + 1);
      ScanMatchesReference(x, e + 1);
    } else {
      assert ScanMaxima(x, i) == ScanMaxima(x, i + 1);
      assert PeakMidpoints(x, i) == PeakMidpoints(x, i + 1);
      ScanMatchesReference(x, i + 1);
    }
  }

  /** No position after a peak edge i, up to and including the drop, is itself a peak edge. */
  lemma {:induction false} NoEdgeInsidePlateau(x: seq<real>, i: nat, l: nat)
    requires IsPeakEdge(x, i)
    requires i < l <= End(x, i)
    ensures PeakMidpoints(x, l) == PeakMidpoints(x, End(x, i) + 1)
    decreases End(x, i) - l
  {
    var e := End(x, i);
    if l + 1 >= |x| {
    } else {
      assert x[l - 1] == x[i];
      assert !IsPeakEdge(x, l);
      if l < e {
        NoEdgeInsidePlateau(x, i, l + 1);
      }
    }
  }

  /** The height test, keeping the order: the peaks p with x[p] >= height. */
  function AtLeast(x: seq<real>, ps: seq<nat>, height: real): seq<nat>
    requires forall k :: 0 <= k < |ps| ==> ps[k] < |x|
  {
    if ps == [] then []
    else
      var rest := AtLeast(x, ps[1..], height);
      if x[ps[0]] >= height then [ps[0]] + rest else rest
  }

  /** The filter keeps only candidates that reach the height. */
  lemma {:induction false} AtLeastSound(x: seq<real>, ps: seq<nat>, height: real)
    requires forall k :: 0 <= k < |ps| ==> ps[k] < |x|
    ensures forall k :: 0 <= k < |AtLeast(x, ps, height)| ==>
      AtLeast(x, ps, height)[k] in ps && x[AtLeast(x, ps, height)[k]] >= height
    decreases |ps|
  {
    if ps != [] {
      AtLeastSound(x, ps[1..], height);
      assert forall p :: p in ps[1..] ==> p in ps;
    }
  }

  /** The filter drops no candidate that reaches the height. */
  lemma {:induction false} AtLeastComplete(x: seq<real>, ps: seq<nat>, height: real)
    requires forall k :: 0 <= k < |ps| ==> ps[k] < |x|
    ensures forall k :: 0 <= k < |ps| && x[ps[k]] >= height ==> ps[k] in AtLeast(x, ps, height)
    decreases |ps|
  {
    if ps != [] {
      AtLeastComplete(x, ps[1..], height);
      assert forall k :: 1 <= k < |ps| ==> ps[k] == ps[1..][k - 1];
    }
  }

  /** The filter keeps ascending candidates ascending. */
  lemma {:induction false} AtLeastOrdered(x: seq<real>, ps: seq<nat>, height: real)
    requires forall k :: 0 <= k < |ps| ==> ps[k] < |x|
    requires StrictlyIncreasing(ps)
    ensures StrictlyIncreasing(AtLeast(x, ps, height))
    decreases |ps|
  {
    if ps != [] {
      var rest := AtLeast(x, ps[1..], height);
      AtLeastOrdered(x, ps[1..], height);
      AtLeastSound(x, ps[1..], height);
      if x[ps[0]] >= height {
        forall k | 0 <= k < |rest|
          ensures ps[0] < rest[k]
        {
          var j :| 0 <= j < |ps[1..]| && ps[1..][j] == rest[k];
          assert ps[0] < ps[j + 1];
        }
      }
    }
  }

  /**
   * find_peaks(x, height=height)[0]: every reported index is an interior local maximum
   * reaching the height, and the indices ascend strictly.
   */
  function Peaks(x: seq<real>, height: real): (peaks: seq<nat>)
    ensures forall k :: 0 <= k < |peaks| ==> IsLocalMax(x, peaks[k]) && x[peaks[k]] >= height
    ensures StrictlyIncreasing(peaks)
  {
    var candidates := ScanMaxima(x, 1);
    ScanMaximaSound(x, 1);
    var r := AtLeast(x, candidates, height);
    AtLeastSound(x, candidates, height);
    AtLeastOrdered(x, candidates, height);
    assert forall k :: 0 <= k < |r| ==> IsLocalMax(x, r[k]) by {
      forall k | 0 <= k < |r|
        ensures IsLocalMax(x, r[k])
      {
        var j :| 0 <= j < |candidates| && candidates[j] == r[k];
      }
    }
    r
  }

  /** Peaks is the height filter of the reference definition. */
  lemma PeaksMatchReference(x: seq<real>, height: real)
    ensures Peaks(x, height) == AtLeast(x, PeakMidpoints(x, 1), height)
  {
    ScanMatchesReference(x, 1);
  }

  /** Every strict interior local maximum reaching the height is reported. */
  lemma StrictMaximumReported(x: seq<real>, height: real, p: nat)
    requires 1 <= p && p + 1 < |x|
    requires x[p - 1] < x[p] && x[p + 1] < x[p] && x[p] >= height
    ensures p in Peaks(x, height)
  {
    assert End(x, p) == p + 1;
    assert IsPeakEdge(x, p) && Midpoint(x, p) == p;
    EdgeMidpointListed(x, 1, p);
    ScanMatchesReference(x, 1);
    var candidates := ScanMaxima(x, 1);
    ScanMaximaSound(x, 1);
    AtLeastComplete(x, candidates, height);
    var j :| 0 <= j < |candidates| && candidates[j] == p;
  }

  lemma {:induction false} EdgeMidpointListed(x: seq<real>, l: nat, p: nat)
    requires 1 <= l <= p && IsPeakEdge(x, p)
    ensures Midpoint(x, p) in PeakMidpoints(x, l)
    decreases p - l
  {
    if l < p {
      EdgeMidpointListed(x, l + 1, p);
    }
  }

  /** A constant sequence (an all-zero correlation, say) has no peaks at all. */
  lemma FlatHasNoPeaks(x: seq<real>, height: real)
    requires forall k :: 0 <= k < |x| ==> x[k] == x[0]
    ensures Peaks(x, height) == []
  {
    FlatHasNoMaxima(x, 1);
  }

  lemma {:induction false} FlatHasNoMaxima(x: seq<real>, i: nat)
    requires i >= 1
    requires forall k :: 0 <= k < |x| ==> x[k] == x[0]
    ensures ScanMaxima(x, i) == []
    decreases |x| - i
  {
    if i + 1 < |x| {
      assert x[i - 1] == x[i];
      FlatHasNoMaxima(x, i + 1);
    }
  }
}
