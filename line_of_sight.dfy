/**
 * The line-of-sight engine for one pair of peaks: it samples 200 stations between
 * them, reads the terrain at each station from the elevation cache, builds the
 * refraction-adjusted sight line, and says whether every station's terrain lies on
 * or below it. The calculator computes all of this once, on first use, and keeps it.
 */
module LineOfSight {

  import opened Peaks
  import opened SightLine
  import opened ElevationLookup

  datatype Option<T> = None | Some(value: T)

  /** A square root, given from outside (it is a floating-point library call). */
  type SquareRoot = real -> real

  /** Everything `_calculate` stores on the calculator. */
  datatype Evaluation = Evaluation(
    distanceKm: real,
    losLimitKm: real,
    terrain: seq<real>,
    distances: seq<real>,
    losLine: seq<Num>,
    curvatureDropM: real,
    isClear: bool)

  /** The values the statistics report shows, for the peaks it names. */
  datatype Statistics = Statistics(
    peak1: Peak,
    peak2: Peak,
    distanceKm: real,
    losLimitKm: real,
    curvatureDropM: real,
    isClear: bool)

  /** The theoretical optical-horizon limit `3.57 * (sqrt(e1) + sqrt(e2))`, in km. */
  function LosLimit(sqrt: SquareRoot, e1: real, e2: real): real
  {
    3.57 * (sqrt(e1) + sqrt(e2))
  }

  /** The latitudes and longitudes of the stations along the path. */
  function StationLats(p1: Peak, p2: Peak): seq<real>
  {
    Linspace(p1.lat, p2.lat, NUM_SAMPLES)
  }

  function StationLons(p1: Peak, p2: Peak): seq<real>
  {
    Linspace(p1.lon, p2.lon, NUM_SAMPLES)
  }

  /**
   * The terrain profile: the looked-up elevation of every station, except that the
   * first and last stations take the peaks' own elevations, whatever the cache said.
   */
  function TerrainProfile(cache: ElevationCache, gridKey: KeyFormat, exactKey: KeyFormat,
                          p1: Peak, p2: Peak): (t: seq<real>)
    ensures |t| == NUM_SAMPLES
    ensures t[0] == p1.elevationM && t[NUM_SAMPLES - 1] == p2.elevationM
    ensures forall k :: 0 < k < NUM_SAMPLES - 1 ==>
      t[k] == LookupElevation(cache, gridKey, exactKey, StationLats(p1, p2)[k], StationLons(p1, p2)[k])
  {
    var looked := Elevations(cache, gridKey, exactKey, StationLats(p1, p2), StationLons(p1, p2));
    looked[0 := p1.elevationM][NUM_SAMPLES - 1 := p2.elevationM]
  }

  /** numpy's `all(terrain <= line)`: a NaN sample is never cleared. */
  predicate Clear(terrain: seq<real>, line: seq<Num>)
    requires |terrain| == |line|
  {
    forall i :: 0 <= i < |terrain| ==> AtOrBelow(terrain[i], line[i])
  }

  /** What one full calculation for the pair (p1, p2) produces. */
  function Evaluate(p1: Peak, p2: Peak, cache: ElevationCache, geodesic: Geodesic,
                    gridKey: KeyFormat, exactKey: KeyFormat, sqrt: SquareRoot): (e: Evaluation)
    ensures |e.terrain| == NUM_SAMPLES && |e.distances| == NUM_SAMPLES && |e.losLine| == NUM_SAMPLES
  {
    var d := DistanceKm(geodesic, p1, p2);
    var terrain := TerrainProfile(cache, gridKey, exactKey, p1, p2);
    var line := ComputeLosLine(p1.elevationM, p2.elevationM, d);
    Evaluation(d, LosLimit(sqrt, p1.elevationM, p2.elevationM), terrain, line.0, line.1,
               CurvatureDrop(d), Clear(terrain, line.1))
  }

  /**
   * The verdict is clear exactly when the path has a non-zero length and every
   * station's terrain lies on or below the sight line there (a tie is clear).
   * For a zero-length path the sight line is all NaN, so the verdict is blocked.
   */
  lemma VerdictMeaning(p1: Peak, p2: Peak, cache: ElevationCache, geodesic: Geodesic,
                       gridKey: KeyFormat, exactKey: KeyFormat, sqrt: SquareRoot)
    ensures var e := Evaluate(p1, p2, cache, geodesic, gridKey, exactKey, sqrt);
      e.isClear <==>
        e.distanceKm != 0.0 &&
        forall k :: 0 <= k < NUM_SAMPLES ==>
          e.terrain[k] <= LosAt(p1.elevationM, p2.elevationM, e.distanceKm, e.distances[k])
    ensures DistanceKm(geodesic, p1, p2) == 0.0 ==> !Evaluate(p1, p2, cache, geodesic, gridKey, exactKey, sqrt).isClear
  {
    var e := Evaluate(p1, p2, cache, geodesic, gridKey, exactKey, sqrt);
    if e.distanceKm == 0.0 {
      assert !AtOrBelow(e.terrain[0], e.losLine[0]);
    }
  }

  /**
   * The stored profiles: distances run from 0 to D, the terrain starts and ends at
   * the peaks' elevations, the sight line meets both peaks when D is not zero, and
   * the reported curvature drop is the bulge's depth at the midpoint.
   */
  lemma EvaluationEndpoints(p1: Peak, p2: Peak, cache: ElevationCache, geodesic: Geodesic,
                            gridKey: KeyFormat, exactKey: KeyFormat, sqrt: SquareRoot)
    ensures var e := Evaluate(p1, p2, cache, geodesic, gridKey, exactKey, sqrt);
      && e.distanceKm == geodesic(p1.lat, p1.lon, p2.lat, p2.lon)
      && e.distances[0] == 0.0 && e.distances[NUM_SAMPLES - 1] == e.distanceKm
      && e.terrain[0] == p1.elevationM && e.terrain[NUM_SAMPLES - 1] == p2.elevationM
      && (e.distanceKm != 0.0 ==>
            e.losLine[0] == Finite(p1.elevationM) && e.losLine[NUM_SAMPLES - 1] == Finite(p2.elevationM))
      && e.curvatureDropM == -Bulge(e.distanceKm, e.distanceKm / 2.0)
  {
    MidpointDropIsBulge(DistanceKm(geodesic, p1, p2));
  }

  /** With an empty cache every station between the two peaks reads 0.0. */
  lemma EmptyCacheFlatProfile(p1: Peak, p2: Peak, geodesic: Geodesic,
                              gridKey: KeyFormat, exactKey: KeyFormat, sqrt: SquareRoot)
    ensures var e := Evaluate(p1, p2, map[], geodesic, gridKey, exactKey, sqrt);
      forall k :: 0 < k < NUM_SAMPLES - 1 ==> e.terrain[k] == 0.0
  {
  }

  /** The lower of the two peak elevations. */
  function LowerSummit(p1: Peak, p2: Peak): real
  {
    if p1.elevationM <= p2.elevationM then p1.elevationM else p2.elevationM
  }

  /**
   * Terrain that stays at least the midpoint curvature drop below the lower peak
   * never blocks the line: then the verdict is clear.
   */
  lemma ClearOverLowTerrain(p1: Peak, p2: Peak, cache: ElevationCache, geodesic: Geodesic,
                            gridKey: KeyFormat, exactKey: KeyFormat, sqrt: SquareRoot)
    requires DistanceKm(geodesic, p1, p2) != 0.0
    requires 0.0 <= LowerSummit(p1, p2) - CurvatureDrop(DistanceKm(geodesic, p1, p2))
    requires forall v :: v in cache.Values ==>
      v <= LowerSummit(p1, p2) - CurvatureDrop(DistanceKm(geodesic, p1, p2))
    ensures Evaluate(p1, p2, cache, geodesic, gridKey, exactKey, sqrt).isClear
  {
    var e := Evaluate(p1, p2, cache, geodesic, gridKey, exactKey, sqrt);
    var d := e.distanceKm;
    var e1, e2 := p1.elevationM, p2.elevationM;
    var line := ComputeLosLine(e1, e2, d);
    LosEndpoints(e1, e2, d);
    forall k | 0 <= k < NUM_SAMPLES
      ensures AtOrBelow(e.terrain[k], e.losLine[k])
    {
      var x := e.distances[k];
      StationFraction(d, NUM_SAMPLES, k);
      if 0 < k < NUM_SAMPLES - 1 {
        StraightAboveLowerSummit(e1, e2, d, x);
        BulgeDeepestAtMidpoint(d, x);
        assert LowerSummit(p1, p2) - CurvatureDrop(d) <= LosAt(e1, e2, d, x);
      }
    }
  }

  /**
   * The worked example: two peaks 50 km apart at 4300 m and 4400 m over a cache that
   * holds 2000 m everywhere are in clear sight of each other.
   */
  lemma WorkedExampleClear(p1: Peak, p2: Peak, cache: ElevationCache, geodesic: Geodesic,
                           gridKey: KeyFormat, exactKey: KeyFormat, sqrt: SquareRoot)
    requires DistanceKm(geodesic, p1, p2) == 50.0
    requires p1.elevationM == 4300.0 && p2.elevationM == 4400.0
    requires forall v :: v in cache.Values ==> v == 2000.0
    ensures Evaluate(p1, p2, cache, geodesic, gridKey, exactKey, sqrt).isClear
  {
    assert CurvatureDrop(50.0) <= 100.0;
    ClearOverLowTerrain(p1, p2, cache, geodesic, gridKey, exactKey, sqrt);
  }

  /**
   * Raising either peak (same coordinates, higher elevation) never turns a clear
   * verdict into a blocked one.
   */
  lemma RaisingPeaksKeepsClear(p1: Peak, p2: Peak, q1: Peak, q2: Peak, cache: ElevationCache,
                               geodesic: Geodesic, gridKey: KeyFormat, exactKey: KeyFormat, sqrt: SquareRoot)
    requires q1.lat == p1.lat && q1.lon == p1.lon && p1.elevationM <= q1.elevationM
    requires q2.lat == p2.lat && q2.lon == p2.lon && p2.elevationM <= q2.elevationM
    requires Evaluate(p1, p2, cache, geodesic, gridKey, exactKey, sqrt).isClear
    ensures Evaluate(q1, q2, cache, geodesic, gridKey, exactKey, sqrt).isClear
  {
    var e := Evaluate(p1, p2, cache, geodesic, gridKey, exactKey, sqrt);
    var f := Evaluate(q1, q2, cache, geodesic, gridKey, exactKey, sqrt);
    var d := e.distanceKm;
    VerdictMeaning(p1, p2, cache, geodesic, gridKey, exactKey, sqrt);
    assert f.distanceKm == d && f.distances == e.distances;
    LosEndpoints(q1.elevationM, q2.elevationM, d);
    forall k | 0 <= k < NUM_SAMPLES
      ensures AtOrBelow(f.terrain[k], f.losLine[k])
    {
      if 0 < k < NUM_SAMPLES - 1 {
        var x := e.distances[k];
        StationFraction(d, NUM_SAMPLES, k);
        StraightMonotone(p1.elevationM, p2.elevationM, q1.elevationM, q2.elevationM, d, x);
        assert e.terrain[k] <= LosAt(p1.elevationM, p2.elevationM, d, x);
      }
    }
  }

  /** Walking the path backwards visits the same stations, so it reads the same terrain in reverse. */
  lemma TerrainReversed(p1: Peak, p2: Peak, cache: ElevationCache, gridKey: KeyFormat, exactKey: KeyFormat)
    ensures forall k :: 0 <= k < NUM_SAMPLES ==>
      TerrainProfile(cache, gridKey, exactKey, p2, p1)[k]
        == TerrainProfile(cache, gridKey, exactKey, p1, p2)[NUM_SAMPLES - 1 - k]
  {
    forall k | 0 < k < NUM_SAMPLES - 1
      ensures StationLats(p2, p1)[k] == StationLats(p1, p2)[NUM_SAMPLES - 1 - k]
      ensures StationLons(p2, p1)[k] == StationLons(p1, p2)[NUM_SAMPLES - 1 - k]
    {
      LinspaceReversed(p1.lat, p2.lat, NUM_SAMPLES, NUM_SAMPLES - 1 - k);
      LinspaceReversed(p1.lon, p2.lon, NUM_SAMPLES, NUM_SAMPLES - 1 - k);
    }
  }

  /** Walking the path backwards, the sight line over station k is the forward line over station N - 1 - k. */
  lemma SightLineReversed(e1: real, e2: real, distanceKm: real)
    requires distanceKm != 0.0
    ensures forall k :: 0 <= k < NUM_SAMPLES ==>
      LosAt(e2, e1, distanceKm, Linspace(0.0, distanceKm, NUM_SAMPLES)[k])
        == LosAt(e1, e2, distanceKm, Linspace(0.0, distanceKm, NUM_SAMPLES)[NUM_SAMPLES - 1 - k])
  {
    var ds := Linspace(0.0, distanceKm, NUM_SAMPLES);
    forall k | 0 <= k < NUM_SAMPLES
      ensures LosAt(e2, e1, distanceKm, ds[k]) == LosAt(e1, e2, distanceKm, ds[NUM_SAMPLES - 1 - k])
    {
      DistanceStationMirror(distanceKm, NUM_SAMPLES, NUM_SAMPLES - 1 - k);
      LosReversed(e1, e2, distanceKm, ds[NUM_SAMPLES - 1 - k]);
    }
  }

  /**
   * Evaluating the pair in the other direction, with a geodesic that gives the same
   * distance both ways, reverses the terrain profile and gives the same verdict.
   */
  lemma ReversedPathSameVerdict(p1: Peak, p2: Peak, cache: ElevationCache, geodesic: Geodesic,
                                gridKey: KeyFormat, exactKey: KeyFormat, sqrt: SquareRoot)
    requires DistanceKm(geodesic, p2, p1) == DistanceKm(geodesic, p1, p2)
    ensures var e := Evaluate(p1, p2, cache, geodesic, gridKey, exactKey, sqrt);
      var r := Evaluate(p2, p1, cache, geodesic, gridKey, exactKey, sqrt);
      && (forall k :: 0 <= k < NUM_SAMPLES ==> r.terrain[k] == e.terrain[NUM_SAMPLES - 1 - k])
      && r.isClear == e.isClear
  {
    var e := Evaluate(p1, p2, cache, geodesic, gridKey, exactKey, sqrt);
    var r := Evaluate(p2, p1, cache, geodesic, gridKey, exactKey, sqrt);
    var d := e.distanceKm;
    var e1, e2 := p1.elevationM, p2.elevationM;
    TerrainReversed(p1, p2, cache, gridKey, exactKey);
    VerdictMeaning(p1, p2, cache, geodesic, gridKey, exactKey, sqrt);
    VerdictMeaning(p2, p1, cache, geodesic, gridKey, exactKey, sqrt);
    if d != 0.0 {
      SightLineReversed(e1, e2, d);
      assert r.distances == e.distances;
      if r.isClear {
        forall k | 0 <= k < NUM_SAMPLES
          ensures e.terrain[k] <= LosAt(e1, e2, d, e.distances[k])
        {
          var j := NUM_SAMPLES - 1 - k;
          assert r.terrain[j] <= LosAt(e2, e1, d, r.distances[j]);
        }
      }
      if e.isClear {
        forall k | 0 <= k < NUM_SAMPLES
          ensures r.terrain[k] <= LosAt(e2, e1, d, r.distances[k])
        {
          var j := NUM_SAMPLES - 1 - k;
          assert e.terrain[j] <= LosAt(e1, e2, d, e.distances[j]);
        }
      }
    }
  }

  /**
   * The calculator for one pair of peaks. Until its first query it holds the
   * placeholder values of its constructor; the first query runs the calculation and
   * sets `calculated`, and from then on nothing about it changes.
   */
  class LosCalculator {
    const peak1: Peak
    const peak2: Peak
    const elevationCache: ElevationCache
    const geodesic: Geodesic
    const gridKey: KeyFormat
    const exactKey: KeyFormat
    const sqrt: SquareRoot

    var calculated: bool
    var distanceKm: real
    var losLimitKm: real
    var terrain: array<real>
    var distances: seq<real>
    var losLine: seq<Num>
    var curvatureDropM: real
    var isClear: bool

    /** The results the calculation produces for this calculator's inputs. */
    ghost function Expected(): Evaluation
    {
      Evaluate(peak1, peak2, elevationCache, geodesic, gridKey, exactKey, sqrt)
    }

    /** Once calculated, every field holds the value the calculation gives it. */
    ghost predicate Valid()
      reads this, terrain
    {
      calculated ==>
        && distanceKm == DistanceKm(geodesic, peak1, peak2)
        && losLimitKm == LosLimit(sqrt, peak1.elevationM, peak2.elevationM)
        && terrain[..] == TerrainProfile(elevationCache, gridKey, exactKey, peak1, peak2)
        && (distances, losLine) == ComputeLosLine(peak1.elevationM, peak2.elevationM, distanceKm)
        && curvatureDropM == CurvatureDrop(distanceKm)
        && isClear == Clear(terrain[..], losLine)
    }

    /**
     * A calculator for `peak1` and `peak2`. A cache that is missing or empty falls back
     * to `storedCache`, the cache file's contents (the empty map when there is no file).
     */
    constructor (peak1: Peak, peak2: Peak, elevationCache: Option<ElevationCache>,
                 storedCache: ElevationCache, geodesic: Geodesic, gridKey: KeyFormat,
                 exactKey: KeyFormat, sqrt: SquareRoot)
      ensures Valid() && !calculated
      ensures this.peak1 == peak1 && this.peak2 == peak2
      ensures this.elevationCache ==
        if elevationCache.Some? && elevationCache.value != map[] then elevationCache.value else storedCache
      ensures this.geodesic == geodesic && this.gridKey == gridKey
      ensures this.exactKey == exactKey && this.sqrt == sqrt
      ensures distanceKm == 0.0 && losLimitKm == 0.0 && curvatureDropM == 0.0 && !isClear
      ensures terrain.Length == 0 && distances == [] && losLine == []
    {
      this.peak1 := peak1;
      this.peak2 := peak2;
      this.elevationCache :=
        if elevationCache.Some? && elevationCache.value != map[] then elevationCache.value else storedCache;
      this.geodesic := geodesic;
      this.gridKey := gridKey;
      this.exactKey := exactKey;
      this.sqrt := sqrt;
      calculated := false;
      distanceKm := 0.0;
      losLimitKm := 0.0;
      terrain := new real[0];
      distances := [];
      losLine := [];
      curvatureDropM := 0.0;
      isClear := false;
    }

    /**
     * `_get_elevations`: one elevation per station of `zip(latitudes, longitudes)`,
     * in order, by the grid-key, exact-key, 0.0 fallback.
     */
    method GetElevations(latitudes: seq<real>, longitudes: seq<real>) returns (elevations: seq<real>)
      ensures elevations == Elevations(elevationCache, gridKey, exactKey, latitudes, longitudes)
    {
      elevations := [];
      var n := Min(|latitudes|, |longitudes|);
      var i := 0;
      while i < n
        invariant 0 <= i <= n
        invariant |elevations| == i
        invariant forall k :: 0 <= k < i ==>
          elevations[k] == LookupElevation(elevationCache, gridKey, exactKey, latitudes[k], longitudes[k])
      {
        var lat, lon := latitudes[i], longitudes[i];
        var coordKey := gridKey(lat, lon);
        if coordKey in elevationCache {
          elevations := elevations + [elevationCache[coordKey]];
        } else {
          var exact := exactKey(lat, lon);
          if exact in elevationCache {
            elevations := elevations + [elevationCache[exact]];
          } else {
            elevations := elevations + [0.0];
          }
        }
        i := i + 1;
      }
    }

    /**
     * Lines 99-102 of `_calculate`: a fresh array of the looked-up elevations whose
     * first and last entries are then overwritten with the peaks' own elevations.
     */
    method BuildTerrain(elevations: seq<real>) returns (t: array<real>)
      requires |elevations| > 0
      ensures fresh(t)
      ensures t[..] == elevations[0 := peak1.elevationM][|elevations| - 1 := peak2.elevationM]
    {
      t := new real[|elevations|](k requires 0 <= k < |elevations| => elevations[k]);
      assert t[..] == elevations;
      t[0] := peak1.elevationM;
      t[t.Length - 1] := peak2.elevationM;
    }

    /**
     * `_calculate`: the first call fills every field from the calculation and sets
     * `calculated`; a later call changes nothing.
     */
    method Calculate()
      requires Valid()
      modifies this
      ensures Valid() && calculated
      ensures old(calculated) ==> unchanged(this)
      ensures !old(calculated) ==> fresh(terrain)
    {
      if calculated {
        return;
      }
      distanceKm := DistanceKm(geodesic, peak1, peak2);
      losLimitKm := LosLimit(sqrt, peak1.elevationM, peak2.elevationM);
      var lats := Linspace(peak1.lat, peak2.lat, NUM_SAMPLES);
      var lons := Linspace(peak1.lon, peak2.lon, NUM_SAMPLES);
      var terrainElevations := GetElevations(lats, lons);
      terrain := BuildTerrain(terrainElevations);
      var line := ComputeLosLine(peak1.elevationM, peak2.elevationM, distanceKm);
      distances, losLine := line.0, line.1;
      curvatureDropM := CurvatureDrop(distanceKm);
      isClear := Clear(terrain[..], losLine);
      calculated := true;
    }

    /** `is_line_of_sight_clear`: calculates on first use and reports the verdict. */
    method IsLineOfSightClear() returns (clear: bool)
      requires Valid()
      modifies this
      ensures Valid() && calculated
      ensures old(calculated) ==> unchanged(this)
      ensures clear == Expected().isClear
    {
      if !calculated {
        Calculate();
      }
      clear := isClear;
    }

    /** The values `get_statistics` reports, after calculating on first use. */
    method GetStatistics() returns (stats: Statistics)
      requires Valid()
      modifies this
      ensures Valid() && calculated
      ensures old(calculated) ==> unchanged(this)
      ensures stats == Statistics(peak1, peak2, Expected().distanceKm, Expected().losLimitKm,
                                  Expected().curvatureDropM, Expected().isClear)
    {
      if !calculated {
        Calculate();
      }
      stats := Statistics(peak1, peak2, distanceKm, losLimitKm, curvatureDropM, isClear);
    }
  }

  /** Asking a calculator twice gives the same answer, and the second question changes nothing. */
  method RepeatedQueriesAgree(c: LosCalculator) returns (first: bool, second: bool)
    requires c.Valid()
    modifies c
    ensures first == second
    ensures c.Valid() && c.calculated
  {
    first := c.IsLineOfSightClear();
    second := c.IsLineOfSightClear();
  }
}
