/**
 * What SonarVisionMappingSystem.collect_data (svms/main.py:97-107) computes: the angle
 * pairs in visiting order (vertical outer, horizontal inner), and the entries the scan
 * appends until the pairs run out or a recording or processing step raises.
 */
module Scanning {
  import opened Results
  import opened Ranging

  /** One entry of self.distances: (distances, h_angle, v_angle). */
  datatype ScanSample = ScanSample(ranges: seq<real>, hAngle: real, vAngle: real)

  /**
   * What record_response returns on its n-th call: the flattened recording, or a fault
   * raised by the audio device (sounddevice's playrec or wait).
   */
  datatype Capture = Recorded(samples: seq<real>) | DeviceFault

  /** The exception that ends collect_data early. */
  datatype ScanError = RecordFault | ProcessFault(cause: RangingError)

  /**
   * rows * width, counted as rows of width cells, so that the scan's bookkeeping needs
   * no multiplication; CellsIsProduct relates the two.
   */
  function Cells(rows: nat, width: nat): nat
  {
    if rows == 0 then 0 else Cells(rows - 1, width) + width
  }

  lemma {:induction false} CellsIsProduct(rows: nat, width: nat)
    ensures Cells(rows, width) == rows * width
  {
    if rows > 0 {
      CellsIsProduct(rows - 1, width);
      assert (rows - 1) * width + width == rows * width;
    }
  }

  lemma {:induction false} CellsMonotonic(a: nat, b: nat, width: nat)
    requires a <= b
    ensures Cells(a, width) <= Cells(b, width)
    decreases b - a
  {
    if a < b {
      CellsMonotonic(a, b - 1, width);
    }
  }

  /** The (h, v) pairs of the nested loops, in the order they are visited: N per vertical angle. */
  function Plan(vertical: seq<real>, horizontal: seq<real>): (p: seq<(real, real)>)
    ensures |p| == Cells(|vertical|, |horizontal|)
  {
    if vertical == [] then []
    else
      var row := seq(|horizontal|, j requires 0 <= j < |horizontal| => (horizontal[j], vertical[0]));
      row + Plan(vertical[1..], horizontal)
  }

  /** Pair number a * N + b is (horizontal[b], vertical[a]), N being the horizontal count. */
  lemma {:induction false} PlanAt(vertical: seq<real>, horizontal: seq<real>, a: nat, b: nat)
    requires a < |vertical| && b < |horizontal|
    ensures Cells(a, |horizontal|) + b < |Plan(vertical, horizontal)|
    ensures Plan(vertical, horizontal)[Cells(a, |horizontal|) + b] == (horizontal[b], vertical[a])
  {
    if a > 0 {
      PlanAt(vertical[1..], horizontal, a - 1, b);
    }
  }

  /** Euclidean division, stated apart so that PlanOrder's context stays free of it. */
  lemma DivMod(i: nat, n: nat)
    requires n > 0
    ensures i == (i / n) * n + i % n && 0 <= i % n < n && i / n >= 0
  {
  }

  /**
   * The scan visits |vertical| * |horizontal| pairs, and pair number i carries the
   * horizontal angle i mod N and the vertical angle i div N.
   */
  lemma PlanOrder(vertical: seq<real>, horizontal: seq<real>, i: nat)
    requires i < |Plan(vertical, horizontal)|
    ensures |Plan(vertical, horizontal)| == |vertical| * |horizontal|
    ensures |horizontal| > 0 && i / |horizontal| < |vertical|
    ensures Plan(vertical, horizontal)[i] == (horizontal[i % |horizontal|], vertical[i / |horizontal|])
  {
    var n := |horizontal|;
    CellsIsProduct(|vertical|, n);
    assert n > 0;
    var a, b := i / n, i % n;
    DivMod(i, n);
    CellsIsProduct(a, n);
    assert Cells(a, n) + b == i;
    if a >= |vertical| {
      CellsMonotonic(|vertical|, a, n);
      assert false;
    }
    PlanAt(vertical, horizontal, a, b);
  }

  /**
   * One iteration of the loop body: record a response, process it, and yield the pair
   * that would be appended, or the exception either call raises.
   */
  function Step(capture: Capture, signal: seq<real>, fs: int): Result<(seq<real>, seq<real>), ScanError>
    requires |signal| > 0 ==> fs != 0
  {
    match capture
    case DeviceFault => Failure(RecordFault)
    case Recorded(response) =>
      match ProcessSignal(response, signal, fs)
      case Failure(e) => Failure(ProcessFault(e))
      case Success(ranges) => Success((response, ranges))
  }

  /**
   * What one call of the loop body yields: a device fault is raised as it is; a recording
   * is accepted exactly when neither it nor the chirp is empty (np.correlate raises
   * otherwise, naming the empty one), and then yields the recording with one distance per
   * accepted peak, each converting back to that peak's lag.
   */
  lemma StepCases(capture: Capture, signal: seq<real>, fs: int)
    requires |signal| > 0 ==> fs != 0
    ensures capture.DeviceFault? ==> Step(capture, signal, fs) == Failure(RecordFault)
    ensures Step(capture, signal, fs).Success? <==> capture.Recorded? && |capture.samples| > 0 && |signal| > 0
    ensures capture.Recorded? && |capture.samples| == 0 ==>
      Step(capture, signal, fs) == Failure(ProcessFault(EmptyResponse))
    ensures capture.Recorded? && |capture.samples| > 0 && |signal| == 0 ==>
      Step(capture, signal, fs) == Failure(ProcessFault(EmptySignal))
    ensures Step(capture, signal, fs).Success? ==>
      var ranges := Step(capture, signal, fs).value.1;
      Step(capture, signal, fs).value.0 == capture.samples &&
      |ranges| == |PeakLags(capture.samples, signal)| &&
      forall i :: 0 <= i < |ranges| ==> LagOfRange(ranges[i], fs) == PeakLags(capture.samples, signal)[i] as real
  {
  }

  /**
   * The answer of each call of the loop body, by call number: the step of the n-th
   * recording.
   */
  function Outcomes(record: nat -> Capture, signal: seq<real>, fs: int): (outcome: nat -> Result<(seq<real>, seq<real>), ScanError>)
    requires |signal| > 0 ==> fs != 0
  {
    (n: nat) => Step(record(n), signal, fs)
  }

  /** outcome answers call n as the loop body does. */
  ghost predicate Answers(outcome: nat -> Result<(seq<real>, seq<real>), ScanError>, record: nat -> Capture,
                          signal: seq<real>, fs: int, n: nat)
    requires |signal| > 0 ==> fs != 0
  {
    outcome(n) == Step(record(n), signal, fs)
  }

  /** outcome answers every call as the loop body does. */
  ghost predicate AnswersAll(outcome: nat -> Result<(seq<real>, seq<real>), ScanError>, record: nat -> Capture,
                             signal: seq<real>, fs: int)
    requires |signal| > 0 ==> fs != 0
  {
    forall n: nat :: Answers(outcome, record, signal, fs, n)
  }

  /**
   * Proof helper: Outcomes(record, signal, fs) under a name the proofs about the loop see
   * only through AnswersAll, which keeps the lambda out of their reasoning.
   */
  lemma AnswerKey(plan: seq<(real, real)>, record: nat -> Capture, signal: seq<real>, fs: int)
    returns (outcome: nat -> Result<(seq<real>, seq<real>), ScanError>)
    requires |signal| > 0 ==> fs != 0
    ensures AnswersAll(outcome, record, signal, fs)
    ensures ScanFrom(plan, outcome, 0) == ScanFrom(plan, Outcomes(record, signal, fs), 0)
  {
    outcome := Outcomes(record, signal, fs);
  }

  /**
   * Any answer function that answers every call as the loop body does gives the same
   * scan as the recordings themselves: the scan depends on the recordings alone.
   */
  lemma {:induction false} AnswersDetermineScan(plan: seq<(real, real)>, outcome: nat -> Result<(seq<real>, seq<real>), ScanError>,
                                                record: nat -> Capture, signal: seq<real>, fs: int, k: nat)
    requires |signal| > 0 ==> fs != 0
    requires k <= |plan| && AnswersAll(outcome, record, signal, fs)
    ensures ScanFrom(plan, outcome, k) == ScanFrom(plan, Outcomes(record, signal, fs), k)
    decreases |plan| - k
  {
    if k < |plan| {
      assert Answers(outcome, record, signal, fs, k);
      AnswersDetermineScan(plan, outcome, record, signal, fs, k + 1);
    }
  }

  /** The lists the scan appends and the exception that ended it, if any. */
  datatype ScanRun = ScanRun(responses: seq<seq<real>>, samples: seq<ScanSample>, fault: Option<ScanError>)

  /**
   * The scan from pair number k on, the loop body's n-th call answering outcome(n):
   * both lists grow in lockstep, by at most one entry per remaining pair, and the scan
   * ends without fault exactly when every remaining pair was appended.
   */
  function ScanFrom(plan: seq<(real, real)>, outcome: nat -> Result<(seq<real>, seq<real>), ScanError>, k: nat): (run: ScanRun)
    requires k <= |plan|
    ensures |run.responses| == |run.samples| <= |plan| - k
    ensures run.fault.None? <==> |run.samples| == |plan| - k
    decreases |plan| - k
  {
    if k == |plan| then ScanRun([], [], None)
    else
      match outcome(k)
      case Failure(e) => ScanRun([], [], Some(e))
      case Success(acquired) =>
        var rest := ScanFrom(plan, outcome, k + 1);
        ScanRun([acquired.0] + rest.responses,
                 [ScanSample(acquired.1, plan[k].0, plan[k].1)] + rest.samples,
                 rest.fault)
  }

  /**
   * The lists after the first k calls of the loop body, as the loop builds them: each
   * successful call appends one entry to each list, and after a call raises nothing
   * changes any more.
   */
  function ScanUpTo(plan: seq<(real, real)>, outcome: nat -> Result<(seq<real>, seq<real>), ScanError>, k: nat): (run: ScanRun)
    requires k <= |plan|
    ensures |run.responses| == |run.samples| <= k
    ensures run.fault.None? ==> |run.samples| == k
  {
    if k == 0 then ScanRun([], [], None)
    else
      var before := ScanUpTo(plan, outcome, k - 1);
      if before.fault.Some? then before
      else
        match outcome(k - 1)
        case Failure(e) => ScanRun(before.responses, before.samples, Some(e))
        case Success(acquired) =>
          ScanRun(before.responses + [acquired.0],
                  before.samples + [ScanSample(acquired.1, plan[k - 1].0, plan[k - 1].1)], None)
  }

  /**
   * The lists of a scan cut in two: done's lists followed by rest's, unless done already
   * ended with an exception.
   */
  function Join(done: ScanRun, rest: ScanRun): ScanRun
  {
    if done.fault.Some? then done
    else ScanRun(done.responses + rest.responses, done.samples + rest.samples, rest.fault)
  }

  /** Moving the cut from pair k to pair k + 1 leaves the joined scan unchanged. */
  lemma JoinStep(plan: seq<(real, real)>, outcome: nat -> Result<(seq<real>, seq<real>), ScanError>, k: nat)
    requires k < |plan|
    ensures Join(ScanUpTo(plan, outcome, k), ScanFrom(plan, outcome, k))
         == Join(ScanUpTo(plan, outcome, k + 1), ScanFrom(plan, outcome, k + 1))
  {
    var done := ScanUpTo(plan, outcome, k);
    var rest := ScanFrom(plan, outcome, k + 1);
    if done.fault.None? {
      match outcome(k)
      case Failure(e) =>
        assert done.responses + [] == done.responses && done.samples + [] == done.samples;
      case Success(acquired) =>
        var sample := ScanSample(acquired.1, plan[k].0, plan[k].1);
        assert done.responses + ([acquired.0] + rest.responses) == (done.responses + [acquired.0]) + rest.responses;
        assert done.samples + ([sample] + rest.samples) == (done.samples + [sample]) + rest.samples;
    }
  }

  /** Cutting the scan from pair 0 at any pair k and joining the halves gives it back. */
  lemma {:induction false} ScanJoin(plan: seq<(real, real)>, outcome: nat -> Result<(seq<real>, seq<real>), ScanError>, k: nat)
    requires k <= |plan|
    ensures ScanFrom(plan, outcome, 0) == Join(ScanUpTo(plan, outcome, k), ScanFrom(plan, outcome, k))
  {
    if k == 0 {
      var rest := ScanFrom(plan, outcome, 0);
      assert [] + rest.responses == rest.responses && [] + rest.samples == rest.samples;
    } else {
      ScanJoin(plan, outcome, k - 1);
      JoinStep(plan, outcome, k - 1);
    }
  }

  /** After all pairs, the lists the loop built are the scan from pair 0. */
  lemma ScanUpToIsScan(plan: seq<(real, real)>, outcome: nat -> Result<(seq<real>, seq<real>), ScanError>)
    ensures ScanUpTo(plan, outcome, |plan|) == ScanFrom(plan, outcome, 0)
  {
    ScanJoin(plan, outcome, |plan|);
    var done := ScanUpTo(plan, outcome, |plan|);
    assert done.responses + [] == done.responses && done.samples + [] == done.samples;
  }

  /** Once a call has raised, further calls change nothing: the lists are final. */
  lemma {:induction false} ScanUpToHalted(plan: seq<(real, real)>, outcome: nat -> Result<(seq<real>, seq<real>), ScanError>, j: nat, k: nat)
    requires j <= k <= |plan|
    requires ScanUpTo(plan, outcome, j).fault.Some?
    ensures ScanUpTo(plan, outcome, k) == ScanUpTo(plan, outcome, j)
    decreases k - j
  {
    if j < k {
      ScanUpToHalted(plan, outcome, j, k - 1);
    }
  }

  /** A call k that records a response and processes it to ranges appends one entry to each list. */
  lemma ScanUpToAppends(outcome: nat -> Result<(seq<real>, seq<real>), ScanError>, record: nat -> Capture,
                        signal: seq<real>, fs: int, plan: seq<(real, real)>, k: nat, ranges: seq<real>)
    requires |signal| > 0 ==> fs != 0
    requires AnswersAll(outcome, record, signal, fs)
    requires k < |plan| && ScanUpTo(plan, outcome, k).fault.None?
    requires record(k).Recorded? && ProcessSignal(record(k).samples, signal, fs) == Success(ranges)
    ensures var before := ScanUpTo(plan, outcome, k);
      ScanUpTo(plan, outcome, k + 1) == ScanRun(before.responses + [record(k).samples],
        before.samples + [ScanSample(ranges, plan[k].0, plan[k].1)], None)
  {
    assert Answers(outcome, record, signal, fs, k);
  }

  /**
   * A call k that raises e (a recording fault, or a processing error) leaves the lists
   * of the first k calls, with e as the fault.
   */
  lemma ScanUpToRaises(outcome: nat -> Result<(seq<real>, seq<real>), ScanError>, record: nat -> Capture,
                       signal: seq<real>, fs: int, plan: seq<(real, real)>, k: nat, e: ScanError)
    requires |signal| > 0 ==> fs != 0
    requires AnswersAll(outcome, record, signal, fs)
    requires k < |plan| && ScanUpTo(plan, outcome, k).fault.None?
    requires match record(k)
      case DeviceFault => e == RecordFault
      case Recorded(response) =>
        var processed := ProcessSignal(response, signal, fs);
        processed.Failure? && e == ProcessFault(processed.error)
    ensures var before := ScanUpTo(plan, outcome, k);
      ScanUpTo(plan, outcome, k + 1) == ScanRun(before.responses, before.samples, Some(e))
  {
    assert Answers(outcome, record, signal, fs, k);
  }

  /**
   * Entry i of a scan from pair k is what the (k + i)-th call recorded and processed,
   * tagged with that pair's angles.
   */
  lemma {:induction false} ScanEntry(plan: seq<(real, real)>, outcome: nat -> Result<(seq<real>, seq<real>), ScanError>, k: nat, i: nat)
    requires k <= |plan|
    requires i < |ScanFrom(plan, outcome, k).samples|
    ensures k + i < |plan|
    ensures outcome(k + i).Success?
    ensures var run := ScanFrom(plan, outcome, k);
      run.responses[i] == outcome(k + i).value.0 &&
      run.samples[i] == ScanSample(outcome(k + i).value.1, plan[k + i].0, plan[k + i].1)
    decreases i
  {
    if i > 0 {
      ScanEntry(plan, outcome, k + 1, i - 1);
    }
  }

  /** A scan that stopped early stopped at the first call that raised, with that call's exception. */
  lemma {:induction false} ScanFault(plan: seq<(real, real)>, outcome: nat -> Result<(seq<real>, seq<real>), ScanError>, k: nat)
    requires k <= |plan|
    requires ScanFrom(plan, outcome, k).fault.Some?
    ensures var run := ScanFrom(plan, outcome, k);
      k + |run.samples| < |plan| && outcome(k + |run.samples|) == Failure(run.fault.value)
    decreases |plan| - k
  {
    if outcome(k).Success? {
      ScanFault(plan, outcome, k + 1);
    }
  }

  /**
   * Starting from empty lists, entry i of a scan over the grids carries the vertical
   * angle i div N and the horizontal angle i mod N.
   */
  lemma ScanOrder(vertical: seq<real>, horizontal: seq<real>, outcome: nat -> Result<(seq<real>, seq<real>), ScanError>, i: nat)
    requires i < |ScanFrom(Plan(vertical, horizontal), outcome, 0).samples|
    ensures var s := ScanFrom(Plan(vertical, horizontal), outcome, 0).samples[i];
      |horizontal| > 0 && i / |horizontal| < |vertical| &&
      s.hAngle == horizontal[i % |horizontal|] && s.vAngle == vertical[i / |horizontal|]
  {
    var plan := Plan(vertical, horizontal);
    var s := ScanFrom(plan, outcome, 0).samples[i];
    ScanEntry(plan, outcome, 0, i);
    assert s.hAngle == plan[i].0 && s.vAngle == plan[i].1;
    PlanOrder(vertical, horizontal, i);
  }

  /**
   * When calls k .. j - 1 succeed and call j raises, the scan holds exactly j - k entries
   * in each list and ends with call j's exception.
   */
  lemma {:induction false} FirstFaultStopsScan(plan: seq<(real, real)>, outcome: nat -> Result<(seq<real>, seq<real>), ScanError>, k: nat, j: nat)
    requires k <= j < |plan|
    requires forall n :: k <= n < j ==> outcome(n).Success?
    requires outcome(j).Failure?
    ensures var run := ScanFrom(plan, outcome, k);
      |run.samples| == |run.responses| == j - k && run.fault == Some(outcome(j).error)
    decreases j - k
  {
    if k < j {
      FirstFaultStopsScan(plan, outcome, k + 1, j);
    }
  }
  /**
   * Entry i of collect_data's lists is the i-th recording, and the distances process_signal
   * computed from it, tagged with pair i's angles: both calls succeeded before the append.
   */
  lemma RecordedEntry(plan: seq<(real, real)>, record: nat -> Capture, signal: seq<real>, fs: int, i: nat)
    requires |signal| > 0 ==> fs != 0
    requires i < |ScanFrom(plan, Outcomes(record, signal, fs), 0).samples|
    ensures i < |plan| && record(i).Recorded?
    ensures ProcessSignal(record(i).samples, signal, fs).Success?
    ensures var run := ScanFrom(plan, Outcomes(record, signal, fs), 0);
      run.responses[i] == record(i).samples &&
      run.samples[i] == ScanSample(ProcessSignal(record(i).samples, signal, fs).value, plan[i].0, plan[i].1)
  {
    var outcome := Outcomes(record, signal, fs);
    ScanEntry(plan, outcome, 0, i);
    assert outcome(i) == Step(record(i), signal, fs);
  }

  /** A scan over the grids that raises nothing appends exactly M * N entries to each list. */
  lemma ScanSize(vertical: seq<real>, horizontal: seq<real>, outcome: nat -> Result<(seq<real>, seq<real>), ScanError>)
    ensures var run := ScanFrom(Plan(vertical, horizontal), outcome, 0);
      run.fault.None? <==> |run.samples| == |run.responses| == |vertical| * |horizontal|
  {
    CellsIsProduct(|vertical|, |horizontal|);
  }
}
