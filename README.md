# SVMS sonar mapping core in Dafny

This project models the computational core of `SonarVisionMappingSystem` (svms/main.py). The
system sends an audio chirp, records the echo for every direction of an angular grid, turns
each echo into distances by matched filtering and peak picking, and plots the resulting points
in 3D. The model covers:

- configuration and the two angle grids (`__init__`);
- the ranging pipeline (`process_signal`): full cross-correlation, keeping its second half,
  scipy's `find_peaks` with a height of a tenth of the maximum, and conversion of peak lags to
  metres at 343 m/s;
- the angular scan (`collect_data`): two nested loops appending to `self.responses` and
  `self.distances`, including what the lists hold when a call raises;
- the emptiness guard and point-building loops of `plot_3d_mapping`.

All arithmetic is over exact `real`. `np.pi` is the constant 3.141592653589793. `np.sin` and
`np.cos` are function parameters. The audio device is an oracle `record: nat -> Capture`:
`record(n)` is what the n-th recording of one `collect_data` run returns, either a flattened
recording or a device fault. The chirp curve is a parameter `chirp: real -> real`, sampled on
the model's `np.linspace`.

Files, one module each:

- `results.dfy`: Option, Result and Outcome values that stand for raised exceptions.
- `numpy.dfy`: `int()` truncation, `np.linspace`, the two grids, `np.correlate` in "full" mode
  and `np.max`.
- `peaks.dfy`: `scipy.signal.find_peaks(x, height=h)` as scipy's local-maxima scan plus an
  inclusive height filter. It is checked against an independent reference definition.
- `ranging.dfy`: `process_signal`.
- `scanning.dfy`: the visiting order of `collect_data` and the lists it builds, as functions of
  the recordings.
- `mapping.dfy`: the point cloud of `plot_3d_mapping`.
- `svms.dfy`: the class, with `responses` and `distances` as fields its methods update.

`collect_data` is one Python method. In the model it is four methods:

- `CollectData` keeps the class invariant.
- `ScanGrid` runs the outer loop over vertical angles.
- `ScanRow` runs the inner loop over horizontal angles.
- `ScanDirection` runs the loop body once.

Each of them is proved against the same specification functions, `ScanFrom` and `ScanUpTo`.

Behaviour of svms/main.py the model keeps:

- num_samples is truncated toward zero by int(), not rounded.
- find_peaks also reports flat-topped peaks, at the middle of the plateau (rounded down).
- The height test is inclusive: a peak exactly at a tenth of the maximum is kept.
- plot_3d_mapping raises only when the list of samples is empty. A non-empty list whose
  distance arrays are all empty gives an empty plot.
- np.correlate raises for an empty recording as well as for an empty chirp.
- A negative num_directions or elevation_angles raises, and zero is accepted.
- The retained half of the correlation starts at lag 0 when the recording is as long as the
  chirp, which is what playrec returns, and also when it is one sample shorter.

## Model

| member | source | states |
|---|---|---|
| NumPy.Trunc | svms/main.py:35 | num_samples = int(fs * duration) truncates toward zero: for positive products it is the largest integer not above, for negative ones the smallest not below |
| NumPy.LinspaceAt | svms/main.py:41-46 | defines element i of np.linspace: start plus i steps of (stop − start)/div, with div = num − 1 when the endpoint is included and num otherwise; with the endpoint and num > 1 the last element is stop itself |
| NumPy.Linspace | svms/main.py:41-46 | np.linspace for a count num ≥ 0 has exactly num elements, element i being LinspaceAt's |
| NumPy.HorizontalGrid | svms/main.py:41-43 | defines self.horizontal_angles as np.linspace(0, 2π, num_directions, endpoint=False) |
| NumPy.VerticalGrid | svms/main.py:44-46 | defines self.vertical_angles as np.linspace(−π/4, π/4, elevation_angles), endpoint included |
| NumPy.HorizontalGridShape | svms/main.py:41-43 | the horizontal grid has num_directions angles; angle i is 2πi/N; it starts at 0, rises strictly and stays below 2π |
| NumPy.VerticalGridShape | svms/main.py:44-46 | the vertical grid has elevation_angles angles, evenly spaced by (π/2)/(M−1) from −π/4; with two or more angles the last is exactly π/4 |
| NumPy.VerticalAngle | svms/main.py:44-46 | vertical angle i is −π/4 plus i steps, including the last one, which numpy sets to the endpoint |
| NumPy.LagSum | svms/main.py:88 | defines the partial correlation sum of a[n + k]·v[n] over n < j, a term whose index falls outside a counting as zero |
| NumPy.Lag | svms/main.py:88 | defines the correlation of the recording against the chirp at lag k, the sum over every chirp index |
| NumPy.Correlate | svms/main.py:88 | np.correlate(response, signal, "full") has \|a\| + \|v\| − 1 values, value i being the correlation at lag i − (\|v\| − 1) |
| NumPy.CorrelateEnds | svms/main.py:88 | the full correlation starts with a[0]·v[last] (lag −(\|v\|−1)) and ends with a[last]·v[0] (lag \|a\|−1) |
| NumPy.SilentLagSum | svms/main.py:88 | a silent recording correlates to zero at every lag |
| NumPy.Max | svms/main.py:91 | np.max returns an element that no element exceeds |
| Ranging.Retained | svms/main.py:88-89 | corr[len(corr)//2:] has L − L//2 ≥ 1 values for L = \|response\| + \|signal\| − 1; index j is the correlation at lag j + L//2 − (\|signal\|−1), so it is lag j when the lengths are equal |
| Ranging.RetainedStartsAtLagZero | svms/main.py:88-89 | the retained suffix starts at lag 0 exactly when the recording is as long as the chirp or one sample shorter |
| Ranging.PeakLags | svms/main.py:88-91 | every peak index is an interior local maximum of the retained correlation reaching 0.1 × its maximum; the indices ascend strictly |
| Ranging.Range | svms/main.py:92-94 | defines the distance of a peak at lag k as (k / fs) · 343 / 2 |
| Ranging.RangeRoundTrip | svms/main.py:92-94 | the distance (k/fs)·343/2 converts back to the lag k |
| Ranging.RangeMonotonic | svms/main.py:92-94 | with fs > 0, later lags give strictly larger distances, none negative |
| Ranging.Ranges | svms/main.py:92-94 | one distance per peak, in the peaks' order, each converting back to its peak's lag |
| Ranging.ProcessSignal | svms/main.py:78-95 | fails exactly when np.correlate gets an empty array; otherwise returns one distance per accepted peak, each converting back to that peak's lag |
| Ranging.RangesPositiveAndIncreasing | svms/main.py:91-94 | with fs > 0 every returned distance is strictly positive and the distances strictly increase |
| Ranging.FlatCorrelationNoRanges | svms/main.py:91-95 | a constant retained correlation gives an empty distance array, not an error |
| Ranging.SilentResponseNoRanges | svms/main.py:88-95 | an all-zero recording gives an empty distance array, not an error |
| FindPeaks.PlateauEnd | svms/main.py:91 | scipy's look-ahead stops at the first later sample that differs from the candidate, or at the last sample |
| FindPeaks.End | svms/main.py:91 | defines the index after a candidate's plateau, where scipy's look-ahead from i + 1 stops |
| FindPeaks.Midpoint | svms/main.py:91 | defines the index scipy reports for a plateau starting at i: (i + last index of the plateau) div 2 |
| FindPeaks.ScanMaxima | svms/main.py:91 | defines the loop of scipy's _local_maxima_1d: a rise whose plateau later drops reports the midpoint and resumes after the drop; any other position moves on by one |
| FindPeaks.MidpointIsLocalMax | svms/main.py:91 | the middle (rounded down) of a plateau that rises and then falls is a local maximum inside the plateau |
| FindPeaks.ScanMaximaSound | svms/main.py:91 | scipy's scan reports only interior local maxima, in strictly ascending order |
| FindPeaks.PeakMidpoints | svms/main.py:91 | the reference definition lists only interior indices |
| FindPeaks.ScanMatchesReference | svms/main.py:91 | scipy's jumping scan equals the reference list of the midpoints of all rising-then-falling plateaus |
| FindPeaks.NoEdgeInsidePlateau | svms/main.py:91 | no position inside a peak's plateau, or at its drop, starts another peak, so the scan may skip them |
| FindPeaks.AtLeast | svms/main.py:91 | defines find_peaks' height test: keeps, in order, the candidates p with x[p] ≥ height |
| FindPeaks.AtLeastSound | svms/main.py:91 | the height filter keeps only candidates whose value is ≥ the height |
| FindPeaks.AtLeastComplete | svms/main.py:91 | the height filter drops no candidate whose value is ≥ the height |
| FindPeaks.AtLeastOrdered | svms/main.py:91 | the height filter keeps ascending candidates ascending |
| FindPeaks.Peaks | svms/main.py:91 | find_peaks returns interior local maxima reaching the height, strictly ascending |
| FindPeaks.PeaksMatchReference | svms/main.py:91 | find_peaks equals the height filter applied to the reference list |
| FindPeaks.StrictMaximumReported | svms/main.py:91 | every strict interior local maximum that reaches the height is reported |
| FindPeaks.EdgeMidpointListed | svms/main.py:91 | the reference list contains the midpoint of every peak plateau at or after its start |
| FindPeaks.FlatHasNoPeaks | svms/main.py:91 | a constant sequence has no peaks |
| FindPeaks.FlatHasNoMaxima | svms/main.py:91 | scipy's scan finds nothing in a constant sequence |
| Scanning.CellsIsProduct | svms/main.py:101-102 | M rows of N directions make M·N visits |
| Scanning.Plan | svms/main.py:101-102 | the nested loops visit one (h, v) pair per cell of the grid |
| Scanning.PlanAt | svms/main.py:101-102 | visit number a·N + b is (H[b], V[a]): vertical outer, horizontal inner |
| Scanning.PlanOrder | svms/main.py:101-102 | there are M·N visits, and visit i is (H[i mod N], V[i div N]) |
| Scanning.Step | svms/main.py:103-104 | defines one loop body: record_response's outcome, then process_signal's, as an exception or as the pair (response, distances) to append |
| Scanning.StepCases | svms/main.py:103-104 | a device fault is raised unchanged; a recording is accepted exactly when neither it nor the chirp is empty, otherwise the error names the empty one; an accepted body yields the recording itself and one distance per peak, each converting back to its peak's lag |
| Scanning.AnswersDetermineScan | svms/main.py:101-106 | any answer function that agrees with the loop body on every call gives the same scan as the recordings themselves: the lists depend on the recordings alone |
| Scanning.ScanFrom | svms/main.py:101-106 | from visit k on, both lists grow in lockstep by at most one entry per visit, and no exception is raised exactly when every visit appended |
| Scanning.ScanUpTo | svms/main.py:101-106 | after k loop bodies both lists hold the same number of entries, at most k, and exactly k when none raised |
| Scanning.JoinStep | svms/main.py:101-106 | moving the cut between the finished and the remaining visits by one visit leaves the scan unchanged |
| Scanning.ScanJoin | svms/main.py:101-106 | the whole scan is the lists of the first k bodies followed by the scan from visit k, unless one of those bodies raised |
| Scanning.ScanUpToIsScan | svms/main.py:101-106 | after the last visit, the lists the loop built are the whole scan |
| Scanning.ScanUpToHalted | svms/main.py:103-106 | once a body has raised, later visits do not happen and the lists stay as they were |
| Scanning.ScanUpToAppends | svms/main.py:103-106 | a body whose recording and processing succeed appends exactly one response and one (distances, h, v) entry |
| Scanning.ScanUpToRaises | svms/main.py:103-106 | a body that raises appends nothing and ends the scan with that exception |
| Scanning.ScanEntry | svms/main.py:103-106 | entry i of a scan from visit k is what visit k + i recorded and computed, tagged with that visit's angles |
| Scanning.ScanFault | svms/main.py:103-106 | a scan that stopped early stopped at the visit right after its last entry, with that visit's exception |
| Scanning.ScanOrder | svms/main.py:101-106 | entry i carries v = V[i div N] and h = H[i mod N] |
| Scanning.FirstFaultStopsScan | svms/main.py:103-106 | if visits k..j−1 succeed and visit j raises, each list holds exactly j − k new entries and the scan ends with visit j's exception |
| Scanning.RecordedEntry | svms/main.py:103-106 | entry i is the i-th recording and the distances process_signal computed from it, so both calls succeeded before the append |
| Scanning.ScanSize | svms/main.py:101-106 | a scan that raises nothing appends exactly M·N entries to each list |
| Mapping.ToCartesian | svms/main.py:124-126 | defines the point of a distance d at angles (h, v): x = d·cos v·cos h, y = d·cos v·sin h, z = d·sin v |
| Mapping.NormIsRange | svms/main.py:124-126 | wherever sin² + cos² = 1 at both angles, the point lies at distance d from the origin |
| Mapping.ProjectRanges | svms/main.py:123-126 | one point per distance of a sample, in order, each from x = d·cos v·cos h, y = d·cos v·sin h, z = d·sin v |
| Mapping.PointCloud | svms/main.py:121-129 | defines the flattened points of all samples: each sample's ProjectRanges, in sample order |
| Mapping.PointCloudSize | svms/main.py:121-129 | there is one point per distance |
| Mapping.PointCloudPrefix | svms/main.py:121-129 | the points of the first n samples come first, unchanged, in the full list |
| Mapping.PointCloudAt | svms/main.py:121-129 | distance j of sample i becomes the point after all distances of earlier samples, projected with that sample's angles |
| Mapping.NoRangesNoPoints | svms/main.py:121-129 | samples whose distance arrays are all empty give no points |
| Svms.InitFailure | svms/main.py:31-46 | defines the exception __init__ raises: ValueError from np.linspace for a negative int(fs·duration), ZeroDivisionError from chirp for duration 0, ValueError from np.linspace for a negative num_directions, then for a negative elevation_angles, in that order |
| Svms.DefaultConfiguration | svms/main.py:22-30 | the default arguments are accepted by __init__, give 22050 chirp samples, and make collect_data visit 36 · 9 = 324 directions |
| Svms.ChirpSignal | svms/main.py:48-63 | the reference signal has num_samples values, sampled at t = 0 first and at t = duration last |
| Svms.SonarVisionMappingSystem.constructor | svms/main.py:22-46 | for an accepted configuration, the arguments are stored unchanged, num_samples is truncated, the chirp has num_samples values, both lists are empty, and the grids are as numpy builds them |
| Svms.SonarVisionMappingSystem.Create | svms/main.py:22-46 | raises exactly for a negative sample count, a zero duration or a negative grid size, in that order; otherwise returns a fresh, configured object |
| Svms.SonarVisionMappingSystem.CollectData | svms/main.py:97-107 | keeps the lists in lockstep; they end as the old lists followed by the scan's entries; the scan's exception, if any, is the method's exception |
| Svms.SonarVisionMappingSystem.ScanGrid | svms/main.py:101-106 | the outer loop leaves the old lists followed by the scan's entries, and reports the scan's exception |
| Svms.SonarVisionMappingSystem.ScanRow | svms/main.py:102-106 | one pass of the inner loop appends the row's entries up to the first exception, which it returns |
| Svms.SonarVisionMappingSystem.ScanDirection | svms/main.py:103-106 | one loop body appends that visit's entry to both lists, or returns its exception and leaves both lists unchanged |
| Svms.SonarVisionMappingSystem.Plot3DMapping | svms/main.py:109-129 | raises ValueError exactly when self.distances is empty; otherwise returns xs, ys, zs, the coordinates of the point cloud in sample order, then distance order |

## Left out

- record_response (svms/main.py:65-76) is sounddevice audio I/O. It is the oracle `record`, and a device fault stands for any exception playrec or wait raises.
- The chirp waveform (svms/main.py:56-62) is trigonometry over floats. Its curve is the parameter `chirp`; only the sample times and the count are modelled.
- Matplotlib (figure, scatter, labels, show) and loguru logging have no effect on the lists. They are not modelled.
- run() only calls collect_data and then plot_3d_mapping. It is not modelled.
- Floating-point rounding, overflow and NaN are not modelled: every value is an exact real.
- np.sin and np.cos are parameters. Mapping.NormIsRange assumes sin² + cos² = 1 at the two angles it uses.
- Svms.SonarVisionMappingSystem.Plot3DMapping returns the coordinate lists instead of drawing them. The lines after the loop (svms/main.py:131-136) only draw.
- Default arguments of __init__ (svms/main.py:24-29) are not part of the constructor's signature: callers pass every argument, and Svms.DefaultConfiguration states what the defaults give.
