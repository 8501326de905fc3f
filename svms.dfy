/**
 * The class SonarVisionMappingSystem of svms/main.py: its configuration and angle grids,
 * the angular scan that fills self.responses and self.distances, and the point cloud
 * plot_3d_mapping builds from them.
 */
module Svms {
  import opened Results
  import opened NumPy
  import opened Ranging
  import opened Scanning
  import opened Mapping

  /** The exceptions __init__ can raise, in the order it would raise them. */
  datatype InitError =
    | NegativeSampleCount  // np.linspace(0, duration, num_samples) raises ValueError
    | ZeroDuration         // scipy's chirp divides by t1 = duration: ZeroDivisionError
    | NegativeDirections   // np.linspace(0, 2*pi, num_directions, ...) raises ValueError
    | NegativeElevations   // np.linspace(-pi/4, pi/4, elevation_angles) raises ValueError

  /** plot_3d_mapping's ValueError("No distances calculated. Please collect data first."). */
  datatype PlotError = NoDistances

  /** The three coordinate lists handed to the scatter plot. */
  datatype Coordinates = Coordinates(xs: seq<real>, ys: seq<real>, zs: seq<real>)

  /** The exception __init__ raises for this configuration, if any. */
  function InitFailure(fs: int, duration: real, numDirections: int, elevationAngles: int): Option<InitError>
  {
    if Trunc(fs as real * duration) < 0 then Some(NegativeSampleCount)
    else if duration == 0.0 then Some(ZeroDuration)
    else if numDirections < 0 then Some(NegativeDirections)
    else if elevationAngles < 0 then Some(NegativeElevations)
    else None
  }

  /**
   * generate_chirp_signal: the chirp curve (scipy's chirp for the configured f0, f1 and
   * t1 = duration, whose values are not modelled) sampled at np.linspace(0, duration, n).
   */
  function ChirpSignal(duration: real, n: nat, chirp: real -> real): (s: seq<real>)
    ensures |s| == n
    ensures n > 0 ==> s[0] == chirp(0.0)
    ensures n > 1 ==> s[n - 1] == chirp(duration)
  {
    var t := Linspace(0.0, duration, n, true);
    assert n > 0 ==> t[0] == 0.0;
    seq(n, i requires 0 <= i < n => chirp(t[i]))
  }

  /**
   * The default arguments of __init__ (fs 44100, duration 0.5, f0 = f1 = 20000, 36
   * directions, 9 elevation angles): __init__ raises nothing, the chirp has 22050
   * samples, and collect_data visits 36 * 9 = 324 directions.
   */
  lemma DefaultConfiguration()
    ensures InitFailure(44100, 0.5, 36, 9).None?
    ensures Trunc(44100 as real * 0.5) == 22050
    ensures |Plan(VerticalGrid(9), HorizontalGrid(36))| == 324
  {
    assert Trunc(44100 as real * 0.5) == 22050;
    CellsIsProduct(9, 36);
  }

  class SonarVisionMappingSystem {
    const fs: int
    const duration: real
    const f0: int
    const f1: int
    const numSamples: nat
    const numDirections: nat
    const elevationAngles: nat
    const signal: seq<real>
    const horizontalAngles: seq<real>
    const verticalAngles: seq<real>
    var responses: seq<seq<real>>
    var distances: seq<ScanSample>

    /**
     * The configuration __init__ establishes; it holds of const fields only, so no
     * update of the two lists can disturb it.
     */
    ghost predicate Configuration()
      ensures Configuration() ==> (|signal| > 0 ==> fs != 0)
    {
      && numSamples == Trunc(fs as real * duration)
      && |signal| == numSamples
      && horizontalAngles == HorizontalGrid(numDirections)
      && verticalAngles == VerticalGrid(elevationAngles)
    }

    /** The configuration, and the two lists growing in lockstep. */
    ghost predicate Valid()
      reads this
      ensures Valid() ==> (|signal| > 0 ==> fs != 0)
    {
      Configuration() && |responses| == |distances|
    }

    /** The fields __init__ stores for these arguments. */
    ghost predicate Configured(fs: int, duration: real, f0: int, f1: int, numDirections: int,
                               elevationAngles: int, chirp: real -> real)
      reads this
    {
      && this.fs == fs && this.duration == duration && this.f0 == f0 && this.f1 == f1
      && this.numDirections == numDirections && this.elevationAngles == elevationAngles
      && numSamples == Trunc(fs as real * duration)
      && signal == ChirpSignal(duration, numSamples, chirp)
      && responses == [] && distances == []
    }

    /** __init__ for a configuration it accepts. */
    constructor (fs: int, duration: real, f0: int, f1: int, numDirections: int,
                 elevationAngles: int, chirp: real -> real)
      requires InitFailure(fs, duration, numDirections, elevationAngles).None?
      ensures Valid()
      ensures Configured(fs, duration, f0, f1, numDirections, elevationAngles, chirp)
    {
      this.fs := fs;
      this.duration := duration;
      this.f0 := f0;
      this.f1 := f1;
      var n := Trunc(fs as real * duration);
      numSamples := n;
      this.numDirections := numDirections;
      this.elevationAngles := elevationAngles;
      signal := ChirpSignal(duration, n, chirp);
      responses := [];
      distances := [];
      horizontalAngles := HorizontalGrid(numDirections);
      verticalAngles := VerticalGrid(elevationAngles);
    }

    /** __init__ for any arguments: the exception it raises, or the configured object. */
    static method Create(fs: int, duration: real, f0: int, f1: int, numDirections: int,
                         elevationAngles: int, chirp: real -> real)
      returns (r: Result<SonarVisionMappingSystem, InitError>)
      ensures r.Failure? <==> InitFailure(fs, duration, numDirections, elevationAngles).Some?
      ensures r.Failure? ==> r.error == InitFailure(fs, duration, numDirections, elevationAngles).value
      ensures r.Success? ==> fresh(r.value) && r.value.Valid()
      ensures r.Success? ==> r.value.Configured(fs, duration, f0, f1, numDirections, elevationAngles, chirp)
    {
      var failure := InitFailure(fs, duration, numDirections, elevationAngles);
      if failure.Some? {
        return Failure(failure.value);
      }
      var system := new SonarVisionMappingSystem(fs, duration, f0, f1, numDirections, elevationAngles, chirp);
      return Success(system);
    }

    /**
     * collect_data: for each vertical angle, for each horizontal angle, record a response
     * (record(n) answers the n-th call), process it, and append to both lists. The lists
     * end as the old lists followed by the scan's entries; an exception ends the scan
     * with the entries appended before it.
     */
    method CollectData(record: nat -> Capture) returns (outcome: Outcome<ScanError>)
      requires Valid()
      modifies this
      ensures Valid()
      ensures var run := ScanFrom(Plan(verticalAngles, horizontalAngles), Outcomes(record, signal, fs), 0);
        && responses == old(responses) + run.responses
        && distances == old(distances) + run.samples
        && outcome == (if run.fault.None? then Pass else Fail(run.fault.value))
    {
      outcome := ScanGrid(record);
    }

    /**
     * The two nested loops of collect_data, outer loop here: row vi runs pass numbers
     * Cells(vi, N) onwards, and the lists always hold the old lists followed by the
     * entries of the passes made so far.
     */
    method ScanGrid(record: nat -> Capture) returns (outcome: Outcome<ScanError>)
      requires |signal| > 0 ==> fs != 0
      modifies this
      ensures var run := ScanFrom(Plan(verticalAngles, horizontalAngles), Outcomes(record, signal, fs), 0);
        && responses == old(responses) + run.responses
        && distances == old(distances) + run.samples
        && outcome == (if run.fault.None? then Pass else Fail(run.fault.value))
    {
      ghost var plan := Plan(verticalAngles, horizontalAngles);
      ghost var outcomeOf := AnswerKey(plan, record, signal, fs);
      ScanUpToIsScan(plan, outcomeOf);
      var calls := 0;
      for vi := 0 to |verticalAngles|
        invariant calls == Cells(vi, |horizontalAngles|) && calls <= |plan|
        invariant ScanUpTo(plan, outcomeOf, calls).fault.None?
        invariant responses == old(responses) + ScanUpTo(plan, outcomeOf, calls).responses
        invariant distances == old(distances) + ScanUpTo(plan, outcomeOf, calls).samples
      {
        var fault;
        fault, calls := ScanRow(record, vi, calls, plan, outcomeOf, old(responses), old(distances));
        if fault.Some? {
          ScanUpToHalted(plan, outcomeOf, calls, |plan|);
          return Fail(fault.value);
        }
      }
      outcome := Pass;
    }

    /**
     * collect_data's inner loop over the horizontal angles at verticalAngles[vi], starting
     * at pass number start: the lists grow by the row's entries, up to and including the
     * first exception, which is returned; calls counts the passes made.
     */
    method ScanRow(record: nat -> Capture, vi: nat, start: nat, ghost plan: seq<(real, real)>,
                    ghost outcomeOf: nat -> Result<(seq<real>, seq<real>), ScanError>,
                    ghost baseResponses: seq<seq<real>>, ghost baseDistances: seq<ScanSample>)
      returns (fault: Option<ScanError>, calls: nat)
      requires |signal| > 0 ==> fs != 0
      requires plan == Plan(verticalAngles, horizontalAngles) && AnswersAll(outcomeOf, record, signal, fs)
      requires vi < |verticalAngles| && start == Cells(vi, |horizontalAngles|) && start <= |plan|
      requires ScanUpTo(plan, outcomeOf, start).fault.None?
      requires responses == baseResponses + ScanUpTo(plan, outcomeOf, start).responses
      requires distances == baseDistances + ScanUpTo(plan, outcomeOf, start).samples
      modifies this
      ensures start <= calls <= Cells(vi + 1, |horizontalAngles|) <= |plan|
      ensures fault == ScanUpTo(plan, outcomeOf, calls).fault
      ensures fault.None? ==> calls == Cells(vi + 1, |horizontalAngles|)
      ensures responses == baseResponses + ScanUpTo(plan, outcomeOf, calls).responses
      ensures distances == baseDistances + ScanUpTo(plan, outcomeOf, calls).samples
    {
      ghost var stop := Cells(vi + 1, |horizontalAngles|);
      assert stop == start + |horizontalAngles|;
      CellsMonotonic(vi + 1, |verticalAngles|, |horizontalAngles|);
      calls := start;
      for hi := 0 to |horizontalAngles|
        invariant calls == start + hi && calls <= stop <= |plan|
        invariant ScanUpTo(plan, outcomeOf, calls).fault.None?
        invariant responses == baseResponses + ScanUpTo(plan, outcomeOf, calls).responses
        invariant distances == baseDistances + ScanUpTo(plan, outcomeOf, calls).samples
      {
        fault := ScanDirection(record, vi, hi, calls, plan, outcomeOf, baseResponses, baseDistances);
        calls := calls + 1;
        if fault.Some? {
          return;
        }
      }
      fault := None;
    }

    /**
     * The body of collect_data's inner loop for its calls-th pass, at angles
     * (horizontalAngles[hi], verticalAngles[vi]): the lists grow by that call's entry, or
     * the exception it raises is returned with the lists untouched.
     */
    method ScanDirection(record: nat -> Capture, vi: nat, hi: nat, calls: nat, ghost plan: seq<(real, real)>,
                 ghost outcomeOf: nat -> Result<(seq<real>, seq<real>), ScanError>,
                 ghost baseResponses: seq<seq<real>>, ghost baseDistances: seq<ScanSample>)
      returns (fault: Option<ScanError>)
      requires |signal| > 0 ==> fs != 0
      requires plan == Plan(verticalAngles, horizontalAngles) && AnswersAll(outcomeOf, record, signal, fs)
      requires vi < |verticalAngles| && hi < |horizontalAngles| && calls == Cells(vi, |horizontalAngles|) + hi
      requires calls < |plan| && ScanUpTo(plan, outcomeOf, calls).fault.None?
      requires responses == baseResponses + ScanUpTo(plan, outcomeOf, calls).responses
      requires distances == baseDistances + ScanUpTo(plan, outcomeOf, calls).samples
      modifies this
      ensures fault == ScanUpTo(plan, outcomeOf, calls + 1).fault
      ensures responses == baseResponses + ScanUpTo(plan, outcomeOf, calls + 1).responses
      ensures distances == baseDistances + ScanUpTo(plan, outcomeOf, calls + 1).samples
    {
      var hAngle := horizontalAngles[hi];
      var vAngle := verticalAngles[vi];
      PlanAt(verticalAngles, horizontalAngles, vi, hi);
      var capture := record(calls);
      if capture.DeviceFault? {
        ScanUpToRaises(outcomeOf, record, signal, fs, plan, calls, RecordFault);
        return Some(RecordFault);
      }
      var response := capture.samples;
      var processed := ProcessSignal(response, signal, fs);
      if processed.Failure? {
        ScanUpToRaises(outcomeOf, record, signal, fs, plan, calls, ProcessFault(processed.error));
        return Some(ProcessFault(processed.error));
      }
      var sample := ScanSample(processed.value, hAngle, vAngle);
      ghost var done := ScanUpTo(plan, outcomeOf, calls);
      ScanUpToAppends(outcomeOf, record, signal, fs, plan, calls, processed.value);
      assert (baseResponses + done.responses) + [response] == baseResponses + (done.responses + [response]);
      assert (baseDistances + done.samples) + [sample] == baseDistances + (done.samples + [sample]);
      responses := responses + [response];
      distances := distances + [sample];
      fault := None;
    }

    /**
     * The computation of plot_3d_mapping: ValueError exactly when no scan entry was
     * collected; otherwise the x, y and z lists of the flattened point cloud.
     */
    method Plot3DMapping(sin: real -> real, cos: real -> real) returns (r: Result<Coordinates, PlotError>)
      ensures r.Failure? <==> distances == []
      ensures r.Success? ==> var cloud := PointCloud(distances, sin, cos);
        r.value == Coordinates(Xs(cloud), Ys(cloud), Zs(cloud))
    {
      if distances == [] {
        return Failure(NoDistances);
      }
      var xs, ys, zs := [], [], [];
      ghost var points: seq<Point> := [];
      for i := 0 to |distances|
        invariant points == PointCloud(distances[..i], sin, cos)
        invariant xs == Xs(points) && ys == Ys(points) && zs == Zs(points)
      {
        var sample := distances[i];
        ghost var before := points;
        for j := 0 to |sample.ranges|
          invariant points == before + ProjectRanges(sample.ranges[..j], sample.hAngle, sample.vAngle, sin, cos)
          invariant xs == Xs(points) && ys == Ys(points) && zs == Zs(points)
        {
          var point := ToCartesian(sample.ranges[j], sample.hAngle, sample.vAngle, sin, cos);
          CoordinatesSnoc(points, point);
          ProjectRangesSnoc(sample.ranges, j, sample.hAngle, sample.vAngle, sin, cos);
          xs := xs + [point.x];
          ys := ys + [point.y];
          zs := zs + [point.z];
          points := points + [point];
        }
        assert sample.ranges[..|sample.ranges|] == sample.ranges;
        PointCloudSnoc(distances, i, sin, cos);
      }
      assert distances[..|distances|] == distances;
      return Success(Coordinates(xs, ys, zs));
    }
  }
}
