# los_calculator in Dafny

This project models the two computational cores of `los_calculator`. The
system decides whether two mountain summits can see each other over the
terrain between them, and builds the list of summit pairs worth asking about.

- **Line of sight** (`calculate_los.py`, class `LOSCalculator`). The calculator
  is built for two peaks. On its first query it:
  - computes the great-circle distance D and the theoretical visibility limit
    `3.57 (sqrt h1 + sqrt h2)`;
  - samples `NUM_SAMPLES = 200` stations evenly along the path;
  - looks each station up in the elevation cache: first the grid-snapped key,
    then the exact key, else 0.0;
  - pins the first and last station to the two summit elevations;
  - draws the sight line: the straight line between the summits plus the
    earth-bulge term for an effective radius of `4/3 * 6371 km`;
  - records the midpoint curvature drop;
  - sets the verdict: clear exactly when no station's terrain rises above the
    sight line.

  The results are memoised: later queries reuse them unchanged.
- **Pair search** (`peak_pair_finder.py`, class `PeakPairFinder`). It loads the
  peak list once. `get_peak_pairs` then returns every pair `(peaks[i], peaks[j])`
  with `i < j` whose distance lies in `[min_distance_km, max_distance_km]`, both
  ends included, in the order of the double loop.

Modules:
- `Peaks` (`peak.dfy`): the shared `Peak` record and the distance between two
  peaks.
- `RealArith` (`real_arith.dfy`): small facts about real fractions and
  products, used by the proofs.
- `SightLine` (`sight_line.dfy`):
  - the numeric pieces of the sight line: `Linspace`, `Straight`, `Bulge`,
    `LosAt`, `CurvatureDrop`, `ComputeLosLine`;
  - a `Num` type that carries the NaN numpy produces for 0/0.
- `ElevationLookup` (`elevation_lookup.dfy`): the three-step cache lookup.
- `LineOfSight` (`line_of_sight.dfy`):
  - `Evaluate`, a pure reference evaluation, with the lemmas about the verdict;
  - the imperative `LosCalculator` class. Its fields follow `LOSCalculator`; the
    terrain profile is an `array<real>` written in place, like the numpy array;
  - `Calculate` is proved to leave the fields equal to the reference
    evaluation, and to change nothing once `calculated` is set.
- `PairSearch` (`peak_pair_finder.dfy`):
  - `SelectedPairs`, a recursive specification of the pairs the double loop
    emits;
  - `FindPairs`, the loop itself, proved against that specification;
  - the class `PeakPairFinder`, with its load-once cache of peaks.

Given functions, taken as parameters so the model assumes nothing about them:
- the geodesic distance (`geopy.distance.geodesic`);
- the two cache-key formatters: float rounding plus `:.6f` formatting;
- the square root in the visibility limit.

Behaviours of the code that are easy to misread:
- A zero-length path does not raise an error. numpy evaluates
  `distances / 0.0` to NaN with only a warning, so every sight-line sample is
  NaN. Every comparison with NaN is false, so the verdict is "blocked". The model
  proves this (`LineOfSight.VerdictMeaning`).
- An inverted band (`min_distance_km > max_distance_km`) is not an error. Every
  distance fails the chained comparison, so the result is the empty list
  (`PairSearch.InvertedBandSelectsNothing`).
- The cache is typed `Dict[str, List[float]]`. `prefetch_elevations.py:95-96`
  stores one float per key, so the model maps keys to `real`.
- `elevation_cache or self._load_cache()` treats a passed empty dictionary like
  `None`: both fall back to the stored cache. The constructor models both cases.
- `min_elevation_feet` and `min_elevation_m` are stored but never used to filter
  pairs. The model keeps them as constants and filters by distance only.

## Model

| member | source | states |
|---|---|---|
| `SightLine.Linspace` | calculate_los.py:95-96 | `num` samples, the first equal to `start`, the last forced to `stop` (numpy's `linspace` endpoint rule) |
| `SightLine.LinspaceAffine` | calculate_los.py:95-96 | sample k is `start + k (stop - start) / (num - 1)`, including the forced last one |
| `SightLine.LinspaceReversed` | calculate_los.py:95-96 | sampling from `stop` to `start` gives the same points in reverse order |
| `SightLine.DistanceStationBounds` | calculate_los.py:143 | for D >= 0 every distance station lies in [0, D] |
| `SightLine.StationFraction` | calculate_los.py:143-147 | the fraction `distances / D` at station k is `k / (N - 1)`, so it lies in [0, 1] |
| `SightLine.DistanceStationMirror` | calculate_los.py:143 | the distance at station N-1-k is D minus the distance at station k |
| `SightLine.ComputeLosLine` | calculate_los.py:139-157 | both profiles have 200 samples; the distances are the linspace over [0, D]; for D = 0 every sight-line sample is NaN; otherwise the line meets both summits and never rises above the straight line |
| `SightLine.StationsBelowStraight` | calculate_los.py:145-155 | at every station the earth bulge is non-positive, so the sight line is at or below the straight chord |
| `SightLine.LosEndpoints` | calculate_los.py:145-155 | at distance 0 the sight line is at the first summit, at D at the second |
| `SightLine.BulgeNonPositive` | calculate_los.py:149-155 | between the summits the bulge is non-positive and the sight line lies under the chord |
| `SightLine.StationBulgeNonPositive` | calculate_los.py:143-153 | at every linspace station the bulge is non-positive, for any sign of D |
| `SightLine.MidpointDropIsBulge` | calculate_los.py:106-110 | the recorded curvature drop equals the depth of the bulge at the midpoint D/2 |
| `SightLine.BulgeDeepestAtMidpoint` | calculate_los.py:106-110 | no point of the path is lowered by the bulge more than the midpoint curvature drop |
| `SightLine.LosReversed` | calculate_los.py:145-155 | the sight line from the second summit at D - d equals the one from the first at d |
| `SightLine.StraightMonotone` | calculate_los.py:145-147 | raising either summit never lowers the chord between the summits |
| `SightLine.StraightAboveLowerSummit` | calculate_los.py:145-147 | between the summits the chord is never below the lower summit |
| `SightLine.Straight` | calculate_los.py:145-147 | the straight chord between the summits at distance d, `e1 + (e2 - e1) (d / D)`, defined for D != 0 |
| `SightLine.Bulge` | calculate_los.py:149-153 | the earth-bulge offset at distance d, in metres, for the refraction-adjusted radius |
| `SightLine.LosAt` | calculate_los.py:155 | the sight line at distance d: chord plus bulge |
| `SightLine.CurvatureDrop` | calculate_los.py:106-110 | the midpoint curvature drop `(D/2 * 1000)^2 / (2 R_eff * 1000)` |
| `ElevationLookup.LookupElevation` | calculate_los.py:121-135 | a station reads a value stored in the cache or the default 0.0, and always 0.0 from an empty cache |
| `ElevationLookup.Elevations` | calculate_los.py:116-137 | one elevation per `zip` pair, so min(len lats, len lons) values; index i reads the grid key's value if present, else the exact key's, else 0.0 |
| `ElevationLookup.EmptyCacheReadsZero` | calculate_los.py:116-137 | with an empty cache every station reads 0.0 |
| `Peaks.DistanceKm` | calculate_los.py:87-89 | the distance of two peaks is the given geodesic applied to their coordinates only; `_calculate_distance_km` (peak_pair_finder.py:43-47) is the same computation |
| `LineOfSight.LosLimit` | calculate_los.py:91-93 | the theoretical visibility limit `3.57 (sqrt h1 + sqrt h2)` |
| `LineOfSight.StationLats` | calculate_los.py:95 | the 200 station latitudes, a linspace from the first peak's to the second's |
| `LineOfSight.StationLons` | calculate_los.py:96 | the 200 station longitudes, a linspace from the first peak's to the second's |
| `LineOfSight.Clear` | calculate_los.py:112 | `np.all(terrain <= los_line)`: every terrain sample is at or below a finite sight-line sample |
| `LineOfSight.Evaluate` | calculate_los.py:82-114 | the reference calculation: distance, limit, terrain profile, sight line, curvature drop and verdict for one pair |
| `LineOfSight.TerrainProfile` | calculate_los.py:95-102 | 200 samples; the first and last are the summit elevations; every interior station is the cache lookup at the station's interpolated coordinates |
| `LineOfSight.VerdictMeaning` | calculate_los.py:112 | the verdict is clear if and only if D is not zero and every station's terrain is at or below the sight line; for D = 0 it is blocked |
| `LineOfSight.EvaluationEndpoints` | calculate_los.py:82-114 | the stored distances run from 0 to D; the terrain starts and ends at the summits; for D != 0 the sight line meets both summits; the drop is the midpoint bulge depth |
| `LineOfSight.EmptyCacheFlatProfile` | calculate_los.py:98-102 | with an empty cache every interior station reads 0.0 |
| `LineOfSight.ClearOverLowTerrain` | calculate_los.py:112 | for a path of non-zero length, if the midpoint curvature drop is at most the lower summit (so the 0.0 read for a missing key is low enough) and every cached elevation is at least that drop below the lower summit, the verdict is clear |
| `LineOfSight.WorkedExampleClear` | calculate_los.py:82-114 | summits of 4300 m and 4400 m, 50 km apart, over 2000 m terrain are in clear sight |
| `LineOfSight.RaisingPeaksKeepsClear` | calculate_los.py:101-112 | raising either summit in place never turns a clear verdict into a blocked one |
| `LineOfSight.TerrainReversed` | calculate_los.py:95-102 | evaluating from the second peak reads the same terrain in reverse station order |
| `LineOfSight.SightLineReversed` | calculate_los.py:139-157 | evaluating from the second peak gives the forward sight line in reverse station order |
| `LineOfSight.ReversedPathSameVerdict` | calculate_los.py:82-114 | with a symmetric distance, swapping the two peaks reverses the terrain profile and keeps the verdict |
| `LineOfSight.LosCalculator.constructor` | calculate_los.py:48-72 | holds the given peaks; the cache is the given one unless it is missing or empty, in which case it is the stored cache; the placeholders are 0.0, empty and false, and nothing is calculated yet |
| `LineOfSight.LosCalculator.GetElevations` | calculate_los.py:116-137 | the loop over `zip(latitudes, longitudes)` returns exactly `Elevations` of the calculator's cache |
| `LineOfSight.LosCalculator.BuildTerrain` | calculate_los.py:99-102 | a fresh array holding the elevations with the first and last entries overwritten in place by the summit elevations |
| `LineOfSight.LosCalculator.Calculate` | calculate_los.py:82-114 | afterwards `calculated` holds and every stored field equals the reference evaluation for the calculator's peaks and cache; if it was already calculated nothing changes |
| `LineOfSight.LosCalculator.IsLineOfSightClear` | calculate_los.py:159-168 | calculates at most once and returns the reference verdict |
| `LineOfSight.LosCalculator.GetStatistics` | calculate_los.py:170-196 | calculates at most once and reports the peaks, distance, visibility limit, curvature drop and verdict of the reference evaluation |
| `LineOfSight.RepeatedQueriesAgree` | calculate_los.py:159-168 | two successive verdict queries on one calculator return the same answer |
| `PairSearch.InBand` | peak_pair_finder.py:71-73 | the pair (i, j) passes the filter: `min <= distance <= max`, both ends included |
| `PairSearch.RowPairs` | peak_pair_finder.py:67-74 | every pair of row i has first index i and second index in (i, j) |
| `PairSearch.PairsBefore` | peak_pair_finder.py:66-74 | every pair emitted before row i has first index below i and below its second index, and both indices in range |
| `PairSearch.SelectedPairs` | peak_pair_finder.py:64-76 | every selected index pair (i, j) has i < j < number of peaks |
| `PairSearch.PairsOfExtend` | peak_pair_finder.py:74 | appending one index pair and the peaks it points at keeps the result in step with the index pairs |
| `PairSearch.TakeStep` | peak_pair_finder.py:73-74 | an in-band pair (i, j) extends both the emitted index pairs and the result by that pair |
| `PairSearch.SkipStep` | peak_pair_finder.py:73 | an out-of-band pair (i, j) advances the inner loop and leaves the result unchanged |
| `PairSearch.FindPairs` | peak_pair_finder.py:64-76 | the double loop returns, in order, exactly the peaks at the selected index pairs |
| `PairSearch.RowPairsMembership` | peak_pair_finder.py:67-74 | row i emits (i, k) if and only if i < k < j and the distance is in the band |
| `PairSearch.PairsBeforeMembership` | peak_pair_finder.py:66-74 | before row i, (a, b) is emitted if and only if a < i, a < b < n and the distance is in the band |
| `PairSearch.SelectedExactly` | peak_pair_finder.py:66-74 | (a, b) is selected if and only if a < b < n and min <= distance <= max, both ends included |
| `PairSearch.RowPairsIncreasing` | peak_pair_finder.py:67 | a row lists its pairs in increasing order of the second index |
| `PairSearch.PairsBeforeIncreasing` | peak_pair_finder.py:66-67 | the pairs emitted so far are in strictly increasing lexicographic order |
| `PairSearch.ConcatIncreasing` | peak_pair_finder.py:66-67 | appending row r to increasing earlier rows keeps the order strictly increasing |
| `PairSearch.SelectedOrdered` | peak_pair_finder.py:64-76 | the result is in strictly increasing lexicographic order of (i, j), so no pair appears twice |
| `PairSearch.RowPairsCount` | peak_pair_finder.py:67 | row i emits at most n - 1 - i pairs |
| `PairSearch.PairsBeforeCount` | peak_pair_finder.py:66-67 | the first i rows emit at most the number of slots with a < i and a < b < n |
| `PairSearch.SlotsClosedForm` | peak_pair_finder.py:66-67 | the slots of all n rows number n (n - 1) / 2 |
| `PairSearch.SelectedCount` | peak_pair_finder.py:64-76 | at most n (n - 1) / 2 pairs are returned |
| `PairSearch.InvertedBandSelectsNothing` | peak_pair_finder.py:73 | when min > max nothing is selected, and there is no error |
| `PairSearch.RowPairsCoordinatesOnly` | peak_pair_finder.py:43-47 | a row's pairs depend only on the peaks' coordinates |
| `PairSearch.PairsBeforeCoordinatesOnly` | peak_pair_finder.py:43-47 | the pairs of the first i rows depend only on the peaks' coordinates |
| `PairSearch.SelectionUsesCoordinatesOnly` | peak_pair_finder.py:43-47 | which index pairs are selected depends only on latitude and longitude, not on names or elevations |
| `PairSearch.PeakPairFinder.constructor` | peak_pair_finder.py:16-26 | stores the foot threshold and its metre conversion (times 0.3048); no peaks are loaded |
| `PairSearch.PeakPairFinder.LoadPeaks` | peak_pair_finder.py:37-41 | the first call installs the stored peak list; later calls keep the loaded list |
| `PairSearch.PeakPairFinder.GetPeakPairs` | peak_pair_finder.py:49-76 | loads the peaks if needed, then returns exactly the peaks at the selected index pairs of the loaded list, in loop order |

## Left out

- Geodesic distance: `geopy.distance.geodesic` is a given total function, and
  nothing is assumed about it. Only `ReversedPathSameVerdict` asks it to be
  symmetric, as a precondition. geopy raises `ValueError` for a latitude outside
  [-90, 90] (calculate_los.py:89, peak_pair_finder.py:47). That error is not
  modelled: in the program `_calculate` would then stop part way with
  `_calculated` still false, and `get_peak_pairs` would stop with no result.
- Cache keys: the grid snapping (`round(x / 0.01) * 0.01`) and the `:.6f`
  formatting are given functions, because float rounding and formatting are not
  modelled.
- Square root: `np.sqrt` in the visibility limit is a given function. The limit
  is computed and reported, never compared with anything, so no property is
  stated about it.
- Floating point: all arithmetic is exact over `real`. The only float effect
  modelled is the NaN of `0 / 0` for a zero-length path. Rounding, overflow,
  `sqrt` of a negative elevation, and a NaN or infinite elevation read from the
  cache are not modelled.
- File input: the model takes the contents of `elevation_cache.json`
  (`_load_cache`) and of `peaks_cache.json` (`_load_peaks_from_cache`) as
  parameters. The `FileNotFoundError` for a missing peak file is not modelled.
- `get_statistics` text: the formatting of the statistics string, with its
  number precision, is not modelled. `GetStatistics` returns the values the
  string is built from.
- `generate_elevation_profile`: it plots with matplotlib and writes an image
  file, and it is not part of this model.
- Other files: the prefetch scripts (`prefetch_elevations.py`,
  `prefetch_peaks.py`) and the drivers (`main.py`, `example.py`,
  `example_peak_finder.py`) call network services or print. They are not part
  of this model.
- Default arguments: the defaults (`elevation_cache=None`,
  `min_elevation_feet=13000`, `min_distance_km=300`, `max_distance_km=600`) are
  not modelled. Callers pass every value.
- LineOfSight.TerrainProfile: assumes the terrain array is float64. numpy takes
  the dtype of `np.array(terrain_elevations)` (calculate_los.py:99) from the
  values: when every lookup hits and the cache holds JSON integers, the array is
  int64, and the summit assignments at lines 101-102 truncate a fractional
  summit elevation toward zero. The model stores the summit elevations exactly.
- LineOfSight.LosCalculator.BuildTerrain: the same float64 assumption; the
  int64 truncation of the pinned summit entries is not modelled.
- Cache sharing: the calculator keeps a reference to the caller's dictionary
  (calculate_los.py:64), and one dictionary may be shared by many calculators.
  The model takes the cache as an immutable value when the calculator is built,
  so a change to the dictionary before the first query is not seen.
- Dictionary records: peaks are Python dictionaries, which are modelled as the
  `Peak` datatype. A peak missing a key (a `KeyError`) is not modelled.
