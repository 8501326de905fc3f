/**
 * The numpy routines svms/main.py relies on, over exact reals:
 * Python's int() of a float, np.linspace, np.correlate in "full" mode and np.max.
 */
module NumPy {

  /** np.pi, the double nearest to pi; the proofs only use that it is positive. */
  const PI: real := 3.141592653589793

  /** Python's int() applied to a float: truncation toward zero. */
  function Trunc(r: real): (t: int)
    ensures r >= 0.0 ==> 0 <= t && t as real <= r < t as real + 1.0
    ensures r < 0.0 ==> t <= 0 && t as real - 1.0 < r <= t as real
  {
    if r >= 0.0 then r.Floor else -((-r).Floor)
  }

  /**
   * Element i of np.linspace(start, stop, num, endpoint): start plus i steps of
   * (stop - start) / div, where div is num - 1 with the endpoint and num without it;
   * with the endpoint and num > 1 numpy overwrites the last element with stop itself.
   */
  function LinspaceAt(start: real, stop: real, num: nat, endpoint: bool, i: nat): real
  {
    var div := if endpoint then num - 1 else num;
    if endpoint && num > 1 && i == num - 1 then stop
    else if div > 0 then start + (i as real) * ((stop - start) / (div as real))
    else start + (i as real) * (stop - start)
  }

  /** np.linspace for a non-negative count (a negative one raises ValueError, see the callers). */
  function Linspace(start: real, stop: real, num: nat, endpoint: bool): (s: seq<real>)
    ensures |s| == num
  {
    seq(num, i requires 0 <= i < num => LinspaceAt(start, stop, num, endpoint, i))
  }

  /** The horizontal look angles: np.linspace(0, 2*pi, n, endpoint=False). */
  function HorizontalGrid(n: nat): seq<real>
  {
    Linspace(0.0, 2.0 * PI, n, false)
  }

  /** The vertical look angles: np.linspace(-pi/4, pi/4, m), both ends included. */
  function VerticalGrid(m: nat): seq<real>
  {
    Linspace(-PI / 4.0, PI / 4.0, m, true)
  }

  /** The horizontal grid holds n angles 2*pi*i/n: it starts at 0, rises strictly and stays below 2*pi. */
  lemma HorizontalGridShape(n: nat)
    ensures |HorizontalGrid(n)| == n
    ensures forall i :: 0 <= i < n ==> HorizontalGrid(n)[i] == 2.0 * PI * (i as real) / (n as real)
    ensures n > 0 ==> HorizontalGrid(n)[0] == 0.0
    ensures forall i :: 0 <= i < n ==> 0.0 <= HorizontalGrid(n)[i] < 2.0 * PI
    ensures forall i, j :: 0 <= i < j < n ==> HorizontalGrid(n)[i] < HorizontalGrid(n)[j]
  {
    forall i | 0 <= i < n
      ensures HorizontalGrid(n)[i] == 2.0 * PI * (i as real) / (n as real)
      ensures 0.0 <= HorizontalGrid(n)[i] < 2.0 * PI
    {
      HorizontalAngle(n, i);
    }
    forall i, j | 0 <= i < j < n
      ensures HorizontalGrid(n)[i] < HorizontalGrid(n)[j]
    {
      HorizontalAngle(n, i);
      HorizontalAngle(n, j);
    }
  }

  lemma HorizontalAngle(n: nat, i: nat)
    requires i < n
    ensures HorizontalGrid(n)[i] == (i as real) * (2.0 * PI / (n as real))
    ensures HorizontalGrid(n)[i] == 2.0 * PI * (i as real) / (n as real)
    ensures 0.0 <= HorizontalGrid(n)[i] < 2.0 * PI
  {
    var step := 2.0 * PI / (n as real);
    assert step > 0.0;
    assert HorizontalGrid(n)[i] == LinspaceAt(0.0, 2.0 * PI, n, false, i);
    assert HorizontalGrid(n)[i] == 0.0 + (i as real) * ((2.0 * PI - 0.0) / (n as real));
    assert (i as real) * step <= (n as real - 1.0) * step;
    assert (n as real) * step == 2.0 * PI;
  }

  /**
   * The vertical grid holds m evenly spaced angles from -pi/4; with two or more
   * of them the last is exactly pi/4.
   */
  lemma VerticalGridShape(m: nat)
    ensures |VerticalGrid(m)| == m
    ensures m > 0 ==> VerticalGrid(m)[0] == -PI / 4.0
    ensures m > 1 ==> VerticalGrid(m)[m - 1] == PI / 4.0
    ensures m > 1 ==> forall i :: 0 <= i < m - 1 ==>
      VerticalGrid(m)[i + 1] - VerticalGrid(m)[i] == (PI / 2.0) / ((m - 1) as real)
    ensures m > 1 ==> forall i :: 0 <= i < m ==>
      VerticalGrid(m)[i] == -PI / 4.0 + (i as real) * ((PI / 2.0) / ((m - 1) as real))
  {
    if m > 0 {
      assert VerticalGrid(m)[0] == LinspaceAt(-PI / 4.0, PI / 4.0, m, true, 0);
    }
    if m > 1 {
      forall i | 0 <= i < m
        ensures VerticalGrid(m)[i] == -PI / 4.0 + (i as real) * ((PI / 2.0) / ((m - 1) as real))
      {
        VerticalAngle(m, i);
      }
      forall i | 0 <= i < m - 1
        ensures VerticalGrid(m)[i + 1] - VerticalGrid(m)[i] == (PI / 2.0) / ((m - 1) as real)
      {
        VerticalStep(m, i);
      }
    }
  }

  /** Consecutive vertical angles are one step of (pi/2) / (m - 1) apart. */
  lemma VerticalStep(m: nat, i: nat)
    requires 1 < m && i + 1 < m
    ensures VerticalGrid(m)[i + 1] - VerticalGrid(m)[i] == (PI / 2.0) / ((m - 1) as real)
  {
    var step := (PI / 2.0) / ((m - 1) as real);
    VerticalAngle(m, i);
    VerticalAngle(m, i + 1);
    assert ((i + 1) as real) * step == (i as real) * step + step;
  }

  /** Vertical angle i is -pi/4 plus i steps of (pi/2) / (m - 1); numpy's overwrite of the last one agrees. */
  lemma VerticalAngle(m: nat, i: nat)
    requires 1 < m && i < m
    ensures VerticalGrid(m)[i] == -PI / 4.0 + (i as real) * ((PI / 2.0) / ((m - 1) as real))
  {
    var step := (PI / 2.0) / ((m - 1) as real);
    assert PI / 4.0 - -PI / 4.0 == PI / 2.0;
    if i < m - 1 {
      assert VerticalGrid(m)[i] == LinspaceAt(-PI / 4.0, PI / 4.0, m, true, i);
    } else {
      assert ((m - 1) as real) * step == PI / 2.0;
      assert VerticalGrid(m)[i] == PI / 4.0;
    }
  }

  /** Sum over n in [0, j) of a[n + k] * v[n], where a term whose index n + k falls outside a is zero. */
  function LagSum(a: seq<real>, v: seq<real>, k: int, j: nat): real
    requires j <= |v|
  {
    if j == 0 then 0.0
    else LagSum(a, v, k, j - 1) + (if 0 <= j - 1 + k < |a| then a[j - 1 + k] * v[j - 1] else 0.0)
  }

  /** The cross-correlation of a against v at lag k, as np.correlate defines it: sum of a[n + k] * v[n]. */
  function Lag(a: seq<real>, v: seq<real>, k: int): real
  {
    LagSum(a, v, k, |v|)
  }

  /**
   * np.correlate(a, v, mode="full"): one value per lag from -(|v| - 1) to |a| - 1, in that order.
   * numpy raises ValueError on an empty argument; the callers check that first.
   */
  function Correlate(a: seq<real>, v: seq<real>): (c: seq<real>)
    requires |a| > 0 && |v| > 0
    ensures |c| == |a| + |v| - 1
  {
    seq(|a| + |v| - 1, i requires 0 <= i < |a| + |v| - 1 => Lag(a, v, i - (|v| - 1)))
  }

  /** Only one product overlaps at each end of the full correlation. */
  lemma CorrelateEnds(a: seq<real>, v: seq<real>)
    requires |a| > 0 && |v| > 0
    ensures Correlate(a, v)[0] == a[0] * v[|v| - 1]
    ensures Correlate(a, v)[|a| + |v| - 2] == a[|a| - 1] * v[0]
  {
    var c := Correlate(a, v);
    LagSumFirstTermsVanish(a, v, -(|v| - 1), |v| - 1);
    assert c[0] == Lag(a, v, 0 - (|v| - 1));
    LagSumLastTermsVanish(a, v, |a| - 1, |v|);
    assert c[|a| + |v| - 2] == Lag(a, v, (|a| + |v| - 2) - (|v| - 1));
  }

  lemma {:induction false} LagSumFirstTermsVanish(a: seq<real>, v: seq<real>, k: int, j: nat)
    requires j <= |v| && j + k <= 0
    ensures LagSum(a, v, k, j) == 0.0
  {
    if j > 0 {
      LagSumFirstTermsVanish(a, v, k, j - 1);
    }
  }

  lemma {:induction false} LagSumLastTermsVanish(a: seq<real>, v: seq<real>, k: int, j: nat)
    requires 0 <= k < |a| && 1 <= j <= |v| && k + 1 == |a|
    ensures LagSum(a, v, k, j) == a[k] * v[0]
  {
    if j > 1 {
      LagSumLastTermsVanish(a, v, k, j - 1);
    }
  }

  /** Correlating a silent (all-zero) recording gives zero at every lag. */
  lemma {:induction false} SilentLagSum(a: seq<real>, v: seq<real>, k: int, j: nat)
    requires j <= |v|
    requires forall n :: 0 <= n < |a| ==> a[n] == 0.0
    ensures LagSum(a, v, k, j) == 0.0
  {
    if j > 0 {
      SilentLagSum(a, v, k, j - 1);
    }
  }

  /** np.max of a non-empty array: an element that no element exceeds. */
  function Max(s: seq<real>): (m: real)
    requires |s| > 0
    ensures m in s
    ensures forall i :: 0 <= i < |s| ==> s[i] <= m
  {
    if |s| == 1 then s[0]
    else
      var rest := Max(s[1..]);
      if s[0] >= rest then s[0] else rest
  }
}
