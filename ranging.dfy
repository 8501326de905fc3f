/**
 * SonarVisionMappingSystem.process_signal (svms/main.py:78-95): matched filtering of one
 * recording against the reference chirp, peak picking, and conversion of each peak's
 * lag to a one-way distance at 343 m/s.
 */
module Ranging {
  import opened Results
  import opened NumPy
  import opened FindPeaks

  /** Speed of sound in m/s used by the distance conversion. */
  const SPEED_OF_SOUND: real := 343.0

  /** Peaks must reach this fraction of the largest retained correlation value. */
  const HEIGHT_FRACTION: real := 0.1

  /** np.correlate raises ValueError when either argument is empty. */
  datatype RangingError = EmptyResponse | EmptySignal

  /**
   * corr[len(corr) // 2:] for corr = np.correlate(response, signal, "full"): retained
   * index j holds the correlation at lag j + L // 2 - (|signal| - 1), where L = |corr|;
   * when the two lengths are equal (as playrec returns them) index j is lag j.
   */
  function Retained(response: seq<real>, signal: seq<real>): (c: seq<real>)
    requires |response| > 0 && |signal| > 0
    ensures var full := |response| + |signal| - 1; |c| == full - full / 2 && |c| >= 1
    ensures forall j :: 0 <= j < |c| ==>
      c[j] == Lag(response, signal, j + (|response| + |signal| - 1) / 2 - (|signal| - 1))
    ensures |response| == |signal| ==> forall j :: 0 <= j < |c| ==> c[j] == Lag(response, signal, j)
  {
    var corr := Correlate(response, signal);
    corr[|corr| / 2..]
  }

  /** The first retained value is lag 0 exactly when the recording is as long as the chirp or one shorter. */
  lemma RetainedStartsAtLagZero(response: seq<real>, signal: seq<real>)
    requires |response| > 0 && |signal| > 0
    ensures Retained(response, signal)[0] == Lag(response, signal, 0) <==
      (|response| == |signal| || |response| + 1 == |signal|)
    ensures (|response| + |signal| - 1) / 2 - (|signal| - 1) == 0 <==>
      (|response| == |signal| || |response| + 1 == |signal|)
  {
  }

  /**
   * The `peaks` of process_signal: indices of the retained correlation that are interior
   * local maxima reaching a tenth of its maximum, in strictly ascending order.
   */
  function PeakLags(response: seq<real>, signal: seq<real>): (ks: seq<nat>)
    requires |response| > 0 && |signal| > 0
    ensures forall i :: 0 <= i < |ks| ==>
      var c := Retained(response, signal);
      IsLocalMax(c, ks[i]) && c[ks[i]] >= HEIGHT_FRACTION * Max(c)
    ensures StrictlyIncreasing(ks)
  {
    var c := Retained(response, signal);
    Peaks(c, HEIGHT_FRACTION * Max(c))
  }

  /** (k / fs) * 343 / 2: the one-way distance of an echo arriving k samples late. */
  function Range(k: nat, fs: int): real
    requires fs != 0
  {
    (k as real / fs as real) * SPEED_OF_SOUND / 2.0
  }

  /** The inverse conversion: the sample lag an echo at distance d arrives with. */
  function LagOfRange(d: real, fs: int): real
    requires fs != 0
  {
    d * 2.0 / SPEED_OF_SOUND * fs as real
  }

  lemma RangeRoundTrip(k: nat, fs: int)
    requires fs != 0
    ensures LagOfRange(Range(k, fs), fs) == k as real
  {
    var q := k as real / fs as real;
    assert Range(k, fs) * 2.0 / SPEED_OF_SOUND == q;
    assert q * fs as real == k as real;
  }

  /** With a positive sample rate, later lags give strictly larger distances, and lag 1 onward is positive. */
  lemma RangeMonotonic(k: nat, l: nat, fs: int)
    requires fs > 0 && k < l
    ensures Range(k, fs) < Range(l, fs)
    ensures Range(k, fs) >= 0.0
  {
    var f := fs as real;
    assert l as real / f - k as real / f == (l - k) as real / f;
    assert (l - k) as real / f > 0.0;
  }

  /** The distances array, one per lag, each converting back to its lag. */
  function Ranges(ks: seq<nat>, fs: int): (d: seq<real>)
    requires fs != 0
    ensures |d| == |ks|
    ensures forall i :: 0 <= i < |d| ==> LagOfRange(d[i], fs) == ks[i] as real
  {
    var d := seq(|ks|, i requires 0 <= i < |ks| => Range(ks[i], fs));
    assert forall i :: 0 <= i < |d| ==> LagOfRange(d[i], fs) == ks[i] as real by {
      forall i | 0 <= i < |d|
        ensures LagOfRange(d[i], fs) == ks[i] as real
      {
        RangeRoundTrip(ks[i], fs);
      }
    }
    d
  }

  /**
   * process_signal(response) with self.signal and self.fs: fails exactly when np.correlate
   * is given an empty array; otherwise each distance converts back to the lag of the
   * matching accepted peak, in the peaks' order.
   */
  function ProcessSignal(response: seq<real>, signal: seq<real>, fs: int): (r: Result<seq<real>, RangingError>)
    requires |signal| > 0 ==> fs != 0
    ensures r.Failure? <==> |response| == 0 || |signal| == 0
    ensures r.Success? ==> |r.value| == |PeakLags(response, signal)|
    ensures r.Success? ==> forall i :: 0 <= i < |r.value| ==>
      LagOfRange(r.value[i], fs) == PeakLags(response, signal)[i] as real
  {
    if |response| == 0 then Failure(EmptyResponse)
    else if |signal| == 0 then Failure(EmptySignal)
    else Success(Ranges(PeakLags(response, signal), fs))
  }

  /** With a positive sample rate every reported distance is positive and they ascend strictly. */
  lemma RangesPositiveAndIncreasing(response: seq<real>, signal: seq<real>, fs: int)
    requires |response| > 0 && |signal| > 0 && fs > 0
    ensures ProcessSignal(response, signal, fs).Success?
    ensures var d := ProcessSignal(response, signal, fs).value;
      (forall i :: 0 <= i < |d| ==> d[i] > 0.0) &&
      (forall i, j :: 0 <= i < j < |d| ==> d[i] < d[j])
  {
    var ks := PeakLags(response, signal);
    var d := ProcessSignal(response, signal, fs).value;
    assert d == Ranges(ks, fs);
    forall i | 0 <= i < |d|
      ensures d[i] > 0.0
    {
      RangeMonotonic(0, ks[i], fs);
    }
    forall i, j | 0 <= i < j < |d|
      ensures d[i] < d[j]
    {
      RangeMonotonic(ks[i], ks[j], fs);
    }
  }

  /** A constant retained correlation yields an empty distance array, not an error. */
  lemma FlatCorrelationNoRanges(response: seq<real>, signal: seq<real>, fs: int)
    requires |response| > 0 && |signal| > 0 && fs != 0
    requires var c := Retained(response, signal); forall j :: 0 <= j < |c| ==> c[j] == c[0]
    ensures ProcessSignal(response, signal, fs) == Success([])
  {
    var c := Retained(response, signal);
    FlatHasNoPeaks(c, HEIGHT_FRACTION * Max(c));
  }

  /** A silent (all-zero) recording yields an empty distance array, not an error. */
  lemma SilentResponseNoRanges(response: seq<real>, signal: seq<real>, fs: int)
    requires |response| > 0 && |signal| > 0 && fs != 0
    requires forall n :: 0 <= n < |response| ==> response[n] == 0.0
    ensures ProcessSignal(response, signal, fs) == Success([])
  {
    var c := Retained(response, signal);
    forall j | 0 <= j < |c|
      ensures c[j] == 0.0
    {
      SilentLagSum(response, signal, j + (|response| + |signal| - 1) / 2 - (|signal| - 1), |signal|);
    }
    FlatCorrelationNoRanges(response, signal, fs);
  }
}
