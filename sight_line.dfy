/**
 * The sampling grid and the refraction-adjusted sight line of the line-of-sight
 * engine: a straight line between the two summit elevations, lowered by the
 * parabolic Earth bulge for an effective Earth radius of 4/3 times 6371 km.
 */
module SightLine {

  import opened RealArith

  const R_EARTH_KM: real := 6371.0
  const REFRACTION_FACTOR: real := 4.0 / 3.0
  /** The effective Earth radius under standard atmospheric refraction, in km. */
  const R_EFFECTIVE_KM: real := REFRACTION_FACTOR * R_EARTH_KM
  /** Number of stations sampled along every path. */
  const NUM_SAMPLES: nat := 200

  /**
   * A double-precision value as far as the engine can observe it: a real number,
   * or the NaN that numpy produces for 0/0. Every ordered comparison with NaN is false.
   */
  datatype Num = Finite(value: real) | NaN

  /** `t <= l` under IEEE comparison rules. */
  predicate AtOrBelow(t: real, l: Num)
  {
    l.Finite? && t <= l.value
  }

  /**
   * numpy's `linspace(start, stop, num)`: the stations `start + k * step` with
   * `step = (stop - start) / (num - 1)`, except that the last one is set to `stop`.
   */
  function Linspace(start: real, stop: real, num: nat): (r: seq<real>)
    ensures |r| == num
    ensures num >= 1 ==> r[0] == start
    ensures num >= 2 ==> r[num - 1] == stop
  {
    var step := if num > 1 then (stop - start) / ((num - 1) as real) else 0.0;
    seq(num, k => if num > 1 && k == num - 1 then stop else start + (k as real) * step)
  }

  /** Every station, the forced last one included, lies on the affine line from start to stop. */
  lemma LinspaceAffine(start: real, stop: real, num: nat, k: nat)
    requires num >= 2 && k < num
    ensures Linspace(start, stop, num)[k] == start + (k as real) * ((stop - start) / ((num - 1) as real))
  {
    var m := (num - 1) as real;
    if k == num - 1 {
      MulCancel(stop - start, m);
    }
  }

  /** Reversing the two ends reverses the stations. */
  lemma LinspaceReversed(start: real, stop: real, num: nat, k: nat)
    requires num >= 2 && k < num
    ensures Linspace(stop, start, num)[num - 1 - k] == Linspace(start, stop, num)[k]
  {
    var m := (num - 1) as real;
    var u := (stop - start) / m;
    var v := (start - stop) / m;
    LinspaceAffine(start, stop, num, k);
    LinspaceAffine(stop, start, num, num - 1 - k);
    NegatedFraction(stop, start, m);
    MulCancel(start - stop, m);
    SubMul(m, k as real, v);
    MulNegated(k as real, u);
    assert ((num - 1 - k) as real) == m - (k as real);
  }

  /** The distance stations `Linspace(0, D, N)` stay between 0 and D. */
  lemma DistanceStationBounds(distanceKm: real, num: nat, k: nat)
    requires num >= 2 && k < num && 0.0 <= distanceKm
    ensures 0.0 <= Linspace(0.0, distanceKm, num)[k] <= distanceKm
  {
    LinspaceAffine(0.0, distanceKm, num, k);
    var m := (num - 1) as real;
    var s := distanceKm / m;
    assert 0.0 <= s;
    assert m * s == distanceKm;
    assert (k as real) <= m;
    MulNonNeg(k as real, s);
    MulNonNeg(m - (k as real), s);
  }

  /**
   * The straight line from `e1` at distance 0 to `e2` at distance `D`,
   * evaluated at distance `d` (all distances in km, elevations in metres).
   */
  function Straight(e1: real, e2: real, distanceKm: real, d: real): real
    requires distanceKm != 0.0
  {
    e1 + (e2 - e1) * (d / distanceKm)
  }

  /**
   * The Earth bulge at distance `d` along a path of length `D`:
   * `-(d * 1000) * ((D - d) * 1000) / (2 * R_eff * 1000)`, in metres.
   */
  function Bulge(distanceKm: real, d: real): real
  {
    -(d * 1000.0) * ((distanceKm - d) * 1000.0) / (2.0 * R_EFFECTIVE_KM * 1000.0)
  }

  /** The sight line at distance `d`: the straight line plus the (non-positive) bulge. */
  function LosAt(e1: real, e2: real, distanceKm: real, d: real): real
    requires distanceKm != 0.0
  {
    Straight(e1, e2, distanceKm, d) + Bulge(distanceKm, d)
  }

  /** The reported curvature drop at the path's midpoint, in metres. */
  function CurvatureDrop(distanceKm: real): real
  {
    var midpointKm := distanceKm / 2.0;
    (midpointKm * 1000.0) * (midpointKm * 1000.0) / (2.0 * R_EFFECTIVE_KM * 1000.0)
  }

  /**
   * `_compute_los_line`: the sample distances `linspace(0, D, 200)` and the sight line
   * over them. When `D == 0` every `d / D` is `0 / 0`, so the whole line is NaN.
   */
  function ComputeLosLine(e1: real, e2: real, distanceKm: real): (r: (seq<real>, seq<Num>))
    ensures |r.0| == NUM_SAMPLES && |r.1| == NUM_SAMPLES
    ensures r.0 == Linspace(0.0, distanceKm, NUM_SAMPLES)
    ensures distanceKm == 0.0 ==> forall k :: 0 <= k < NUM_SAMPLES ==> r.1[k] == NaN
    ensures distanceKm != 0.0 ==> r.1[0] == Finite(e1) && r.1[NUM_SAMPLES - 1] == Finite(e2)
    ensures distanceKm != 0.0 ==>
      forall k :: 0 <= k < NUM_SAMPLES ==> r.1[k].Finite? && r.1[k].value <= Straight(e1, e2, distanceKm, r.0[k])
  {
    var ds := Linspace(0.0, distanceKm, NUM_SAMPLES);
    var line := seq(NUM_SAMPLES, k requires 0 <= k < NUM_SAMPLES =>
      if distanceKm == 0.0 then NaN else Finite(LosAt(e1, e2, distanceKm, ds[k])));
    StationsBelowStraight(e1, e2, distanceKm);
    (ds, line)
  }

  /** At every station of a non-degenerate path the sight line lies on or below the straight line. */
  lemma StationsBelowStraight(e1: real, e2: real, distanceKm: real)
    ensures distanceKm != 0.0 ==> forall k :: 0 <= k < NUM_SAMPLES ==>
      LosAt(e1, e2, distanceKm, Linspace(0.0, distanceKm, NUM_SAMPLES)[k])
        <= Straight(e1, e2, distanceKm, Linspace(0.0, distanceKm, NUM_SAMPLES)[k])
    ensures distanceKm != 0.0 ==>
      LosAt(e1, e2, distanceKm, 0.0) == e1 && LosAt(e1, e2, distanceKm, distanceKm) == e2
  {
    if distanceKm != 0.0 {
      LosEndpoints(e1, e2, distanceKm);
      forall k | 0 <= k < NUM_SAMPLES
        ensures Bulge(distanceKm, Linspace(0.0, distanceKm, NUM_SAMPLES)[k]) <= 0.0
      {
        StationBulgeNonPositive(distanceKm, NUM_SAMPLES, k);
      }
    }
  }

  /** The bulge vanishes at both ends, so the sight line meets both summits exactly. */
  lemma LosEndpoints(e1: real, e2: real, distanceKm: real)
    requires distanceKm != 0.0
    ensures LosAt(e1, e2, distanceKm, 0.0) == e1
    ensures LosAt(e1, e2, distanceKm, distanceKm) == e2
  {
  }

  /** Between the two summits the bulge never raises the line: `LosAt(d) <= Straight(d)`. */
  lemma BulgeNonPositive(e1: real, e2: real, distanceKm: real, d: real)
    requires 0.0 <= d <= distanceKm
    ensures Bulge(distanceKm, d) <= 0.0
    ensures distanceKm != 0.0 ==> LosAt(e1, e2, distanceKm, d) <= Straight(e1, e2, distanceKm, d)
  {
    assert 0.0 <= (d * 1000.0) * ((distanceKm - d) * 1000.0);
  }

  /**
   * At the sample stations the bulge is non-positive whatever the sign of `D`,
   * because station k sits at the fraction k / (N - 1) of the path.
   */
  lemma StationBulgeNonPositive(distanceKm: real, num: nat, k: nat)
    requires num >= 2 && k < num
    ensures Bulge(distanceKm, Linspace(0.0, distanceKm, num)[k]) <= 0.0
  {
    var m := (num - 1) as real;
    var s := distanceKm / m;
    var d := Linspace(0.0, distanceKm, num)[k];
    LinspaceAffine(0.0, distanceKm, num, k);
    assert d == (k as real) * s;
    assert m * s == distanceKm;
    assert distanceKm - d == (m - (k as real)) * s;
    assert (k as real) <= m;
    MulNonNeg(k as real, m - (k as real));
    assert d * (distanceKm - d) == ((k as real) * (m - (k as real))) * (s * s);
    assert 0.0 <= (d * 1000.0) * ((distanceKm - d) * 1000.0);
  }

  /** The reported midpoint drop is exactly the bulge's depth at `D / 2`. */
  lemma MidpointDropIsBulge(distanceKm: real)
    ensures CurvatureDrop(distanceKm) == -Bulge(distanceKm, distanceKm / 2.0)
  {
    assert distanceKm - distanceKm / 2.0 == distanceKm / 2.0;
  }

  /** The bulge is deepest at the midpoint: nowhere does it drop by more than `CurvatureDrop(D)`. */
  lemma BulgeDeepestAtMidpoint(distanceKm: real, d: real)
    ensures -Bulge(distanceKm, d) <= CurvatureDrop(distanceKm)
  {
    var h := distanceKm / 2.0;
    assert 0.0 <= (h - d) * (h - d);
    assert d * (distanceKm - d) <= h * h;
    assert (d * 1000.0) * ((distanceKm - d) * 1000.0) <= (h * 1000.0) * (h * 1000.0);
  }

  /** The sight line is symmetric: walking the path backwards swaps the two summits. */
  lemma LosReversed(e1: real, e2: real, distanceKm: real, d: real)
    requires distanceKm != 0.0
    ensures LosAt(e2, e1, distanceKm, distanceKm - d) == LosAt(e1, e2, distanceKm, d)
  {
    OneMinusFraction(d, distanceKm);
  }

  /** Distance station k sits at the fraction k / (N - 1) of the path, a value between 0 and 1. */
  lemma StationFraction(distanceKm: real, num: nat, k: nat)
    requires num >= 2 && k < num && distanceKm != 0.0
    ensures Linspace(0.0, distanceKm, num)[k] / distanceKm == (k as real) / ((num - 1) as real)
    ensures 0.0 <= Linspace(0.0, distanceKm, num)[k] / distanceKm <= 1.0
  {
    var m := (num - 1) as real;
    LinspaceAffine(0.0, distanceKm, num, k);
    ScaledFraction(k as real, distanceKm, m);
    assert (k as real) <= m;
    FractionInUnit(k as real, m);
  }

  /** Distance station N - 1 - k lies as far from the end as station k lies from the start. */
  lemma DistanceStationMirror(distanceKm: real, num: nat, k: nat)
    requires num >= 2 && k < num
    ensures Linspace(0.0, distanceKm, num)[num - 1 - k] == distanceKm - Linspace(0.0, distanceKm, num)[k]
  {
    var m := (num - 1) as real;
    var s := distanceKm / m;
    LinspaceAffine(0.0, distanceKm, num, k);
    LinspaceAffine(0.0, distanceKm, num, num - 1 - k);
    assert ((num - 1 - k) as real) == m - (k as real);
    MulCancel(distanceKm, m);
    SubMul(m, k as real, s);
  }

  /** Raising either summit never lowers the straight line anywhere between them. */
  lemma StraightMonotone(e1: real, e2: real, f1: real, f2: real, distanceKm: real, d: real)
    requires distanceKm != 0.0 && 0.0 <= d / distanceKm <= 1.0
    requires e1 <= f1 && e2 <= f2
    ensures Straight(e1, e2, distanceKm, d) <= Straight(f1, f2, distanceKm, d)
  {
    InterpolationMonotone(e1, e2, f1, f2, d / distanceKm);
  }

  /** Between the summits the straight line never drops below the lower summit. */
  lemma StraightAboveLowerSummit(e1: real, e2: real, distanceKm: real, d: real)
    requires distanceKm != 0.0 && 0.0 <= d / distanceKm <= 1.0
    ensures (if e1 <= e2 then e1 else e2) <= Straight(e1, e2, distanceKm, d)
  {
    var lo := if e1 <= e2 then e1 else e2;
    InterpolationMonotone(lo, lo, e1, e2, d / distanceKm);
  }
}
