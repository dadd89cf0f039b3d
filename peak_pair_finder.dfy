/**
 * The pair search: every pair of peaks (i, j) with i < j whose distance lies in an
 * inclusive band, in the order of the exhaustive double loop over the peak list.
 */
module PairSearch {

  import opened Peaks

  /** An index pair into the peak list. */
  type IndexPair = (nat, nat)

  /** Pair (i, j) passes the filter: `min_distance_km <= distance <= max_distance_km`. */
  predicate InBand(peaks: seq<Peak>, minKm: real, maxKm: real, geodesic: Geodesic, i: nat, j: nat)
    requires i < |peaks| && j < |peaks|
  {
    minKm <= DistanceKm(geodesic, peaks[i], peaks[j]) <= maxKm
  }

  /** The pairs (i, k) with i < k < j that pass the filter, in the order the inner loop meets them. */
  function RowPairs(peaks: seq<Peak>, minKm: real, maxKm: real, geodesic: Geodesic, i: nat, j: nat)
    : (r: seq<IndexPair>)
    requires i < |peaks| && j <= |peaks|
    ensures forall t :: 0 <= t < |r| ==> r[t].0 == i && i < r[t].1 < j
    decreases j
  {
    if j <= i + 1 then []
    else
      RowPairs(peaks, minKm, maxKm, geodesic, i, j - 1)
        + (if InBand(peaks, minKm, maxKm, geodesic, i, j - 1) then [(i, j - 1)] else [])
  }

  /** The pairs the outer loop has emitted before row i starts. */
  function PairsBefore(peaks: seq<Peak>, minKm: real, maxKm: real, geodesic: Geodesic, i: nat)
    : (r: seq<IndexPair>)
    requires i <= |peaks|
    ensures forall t :: 0 <= t < |r| ==> r[t].0 < i && r[t].0 < r[t].1 < |peaks|
  {
    if i == 0 then []
    else PairsBefore(peaks, minKm, maxKm, geodesic, i - 1) + RowPairs(peaks, minKm, maxKm, geodesic, i - 1, |peaks|)
  }

  /** The index pairs `get_peak_pairs` emits, in order. */
  function SelectedPairs(peaks: seq<Peak>, minKm: real, maxKm: real, geodesic: Geodesic): (r: seq<IndexPair>)
    ensures forall t :: 0 <= t < |r| ==> r[t].0 < r[t].1 < |peaks|
  {
    PairsBefore(peaks, minKm, maxKm, geodesic, |peaks|)
  }

  /** Lexicographic order on index pairs. */
  predicate LexLess(p: IndexPair, q: IndexPair)
  {
    p.0 < q.0 || (p.0 == q.0 && p.1 < q.1)
  }

  predicate StrictlyIncreasing(s: seq<IndexPair>)
  {
    forall a, b :: 0 <= a < b < |s| ==> LexLess(s[a], s[b])
  }

  /** `pairs` lists the peaks that the index pairs `sel` point at, one for one. */
  predicate PairsOf(peaks: seq<Peak>, sel: seq<IndexPair>, pairs: seq<(Peak, Peak)>)
  {
    && |pairs| == |sel|
    && forall t :: 0 <= t < |sel| ==>
         sel[t].0 < |peaks| && sel[t].1 < |peaks| && pairs[t] == (peaks[sel[t].0], peaks[sel[t].1])
  }

  lemma PairsOfExtend(peaks: seq<Peak>, sel: seq<IndexPair>, pairs: seq<(Peak, Peak)>, i: nat, j: nat)
    requires PairsOf(peaks, sel, pairs) && i < |peaks| && j < |peaks|
    ensures PairsOf(peaks, sel + [(i, j)], pairs + [(peaks[i], peaks[j])])
  {
  }

  /**
   * The double loop of `get_peak_pairs`: for each i, for each j > i, keep
   * `(peaks[i], peaks[j])` when their distance lies in [minKm, maxKm].
   */
  method FindPairs(peaks: seq<Peak>, minKm: real, maxKm: real, geodesic: Geodesic)
    returns (pairs: seq<(Peak, Peak)>)
    ensures PairsOf(peaks, SelectedPairs(peaks, minKm, maxKm, geodesic), pairs)
  {
    pairs := [];
    var n := |peaks|;
    var i := 0;
    while i < n
      invariant 0 <= i <= n
      invariant PairsOf(peaks, PairsBefore(peaks, minKm, maxKm, geodesic, i), pairs)
    {
      var j := i + 1;
      assert Emitted(peaks, minKm, maxKm, geodesic, i, j) == PairsBefore(peaks, minKm, maxKm, geodesic, i);
      while j < n
        invariant i + 1 <= j <= n
        invariant PairsOf(peaks, Emitted(peaks, minKm, maxKm, geodesic, i, j), pairs)
      {
        var peak1 := peaks[i];
        var peak2 := peaks[j];
        var distance := DistanceKm(geodesic, peak1, peak2);
        if minKm <= distance <= maxKm {
          TakeStep(peaks, minKm, maxKm, geodesic, i, j, pairs);
          pairs := pairs + [(peak1, peak2)];
        } else {
          SkipStep(peaks, minKm, maxKm, geodesic, i, j, pairs);
        }
        j := j + 1;
      }
      assert PairsBefore(peaks, minKm, maxKm, geodesic, i + 1) == Emitted(peaks, minKm, maxKm, geodesic, i, n);
      i := i + 1;
    }
  }

  /** Emitted so far at (i, j): the earlier rows, then row i up to j. */
  function Emitted(peaks: seq<Peak>, minKm: real, maxKm: real, geodesic: Geodesic, i: nat, j: nat)
    : seq<IndexPair>
    requires i < |peaks| && j <= |peaks|
  {
    PairsBefore(peaks, minKm, maxKm, geodesic, i) + RowPairs(peaks, minKm, maxKm, geodesic, i, j)
  }

  /** An inner-loop step that keeps the pair (i, j) extends the result by its peaks. */
  lemma TakeStep(peaks: seq<Peak>, minKm: real, maxKm: real, geodesic: Geodesic, i: nat, j: nat,
                 pairs: seq<(Peak, Peak)>)
    requires i < j < |peaks| && InBand(peaks, minKm, maxKm, geodesic, i, j)
    requires PairsOf(peaks, Emitted(peaks, minKm, maxKm, geodesic, i, j), pairs)
    ensures PairsOf(peaks, Emitted(peaks, minKm, maxKm, geodesic, i, j + 1), pairs + [(peaks[i], peaks[j])])
  {
    var before := PairsBefore(peaks, minKm, maxKm, geodesic, i);
    var row := RowPairs(peaks, minKm, maxKm, geodesic, i, j);
    assert RowPairs(peaks, minKm, maxKm, geodesic, i, j + 1) == row + [(i, j)];
    assert before + (row + [(i, j)]) == (before + row) + [(i, j)];
    PairsOfExtend(peaks, before + row, pairs, i, j);
  }

  /** An inner-loop step that drops the pair (i, j) leaves the result as it is. */
  lemma SkipStep(peaks: seq<Peak>, minKm: real, maxKm: real, geodesic: Geodesic, i: nat, j: nat,
                 pairs: seq<(Peak, Peak)>)
    requires i < j < |peaks| && !InBand(peaks, minKm, maxKm, geodesic, i, j)
    requires PairsOf(peaks, Emitted(peaks, minKm, maxKm, geodesic, i, j), pairs)
    ensures PairsOf(peaks, Emitted(peaks, minKm, maxKm, geodesic, i, j + 1), pairs)
  {
    var row := RowPairs(peaks, minKm, maxKm, geodesic, i, j);
    assert RowPairs(peaks, minKm, maxKm, geodesic, i, j + 1) == row + [];
    assert row + [] == row;
  }

  /** A row emits (i, k) exactly when i < k < j and the pair passes the filter. */
  lemma {:induction false} RowPairsMembership(peaks: seq<Peak>, minKm: real, maxKm: real, geodesic: Geodesic,
                                              i: nat, j: nat, k: nat)
    requires i < |peaks| && j <= |peaks|
    ensures (i, k) in RowPairs(peaks, minKm, maxKm, geodesic, i, j) <==>
      i < k < j && InBand(peaks, minKm, maxKm, geodesic, i, k)
    decreases j
  {
    if j > i + 1 {
      RowPairsMembership(peaks, minKm, maxKm, geodesic, i, j - 1, k);
    }
  }

  /** Before row i, the pair (a, b) has been emitted exactly when a < i, a < b and it passes the filter. */
  lemma {:induction false} PairsBeforeMembership(peaks: seq<Peak>, minKm: real, maxKm: real, geodesic: Geodesic,
                                                 i: nat, a: nat, b: nat)
    requires i <= |peaks|
    ensures (a, b) in PairsBefore(peaks, minKm, maxKm, geodesic, i) <==>
      a < i && a < b < |peaks| && InBand(peaks, minKm, maxKm, geodesic, a, b)
  {
    if i > 0 {
      PairsBeforeMembership(peaks, minKm, maxKm, geodesic, i - 1, a, b);
      if a == i - 1 {
        RowPairsMembership(peaks, minKm, maxKm, geodesic, i - 1, |peaks|, b);
      }
    }
  }

  /**
   * A pair is selected exactly when its first index is below its second and its
   * distance lies in the band, both ends included.
   */
  lemma SelectedExactly(peaks: seq<Peak>, minKm: real, maxKm: real, geodesic: Geodesic, a: nat, b: nat)
    ensures (a, b) in SelectedPairs(peaks, minKm, maxKm, geodesic) <==>
      a < b < |peaks| && minKm <= DistanceKm(geodesic, peaks[a], peaks[b]) <= maxKm
  {
    PairsBeforeMembership(peaks, minKm, maxKm, geodesic, |peaks|, a, b);
  }

  /** Each row lists its pairs in increasing order of the second index. */
  lemma {:induction false} RowPairsIncreasing(peaks: seq<Peak>, minKm: real, maxKm: real, geodesic: Geodesic,
                                              i: nat, j: nat)
    requires i < |peaks| && j <= |peaks|
    ensures StrictlyIncreasing(RowPairs(peaks, minKm, maxKm, geodesic, i, j))
    decreases j
  {
    if j > i + 1 {
      RowPairsIncreasing(peaks, minKm, maxKm, geodesic, i, j - 1);
    }
  }

  lemma {:induction false} PairsBeforeIncreasing(peaks: seq<Peak>, minKm: real, maxKm: real, geodesic: Geodesic,
                                                 i: nat)
    requires i <= |peaks|
    ensures StrictlyIncreasing(PairsBefore(peaks, minKm, maxKm, geodesic, i))
  {
    if i > 0 {
      var before := PairsBefore(peaks, minKm, maxKm, geodesic, i - 1);
      var row := RowPairs(peaks, minKm, maxKm, geodesic, i - 1, |peaks|);
      PairsBeforeIncreasing(peaks, minKm, maxKm, geodesic, i - 1);
      RowPairsIncreasing(peaks, minKm, maxKm, geodesic, i - 1, |peaks|);
      ConcatIncreasing(before, row, i - 1);
    }
  }

  /** Joining an increasing run of rows below r to an increasing run of row r keeps the order. */
  lemma ConcatIncreasing(s: seq<IndexPair>, u: seq<IndexPair>, r: nat)
    requires StrictlyIncreasing(s) && StrictlyIncreasing(u)
    requires forall t :: 0 <= t < |s| ==> s[t].0 < r
    requires forall t :: 0 <= t < |u| ==> u[t].0 == r
    ensures StrictlyIncreasing(s + u)
  {
    var w := s + u;
    forall a, b | 0 <= a < b < |w|
      ensures LexLess(w[a], w[b])
    {
      if b < |s| {
        assert w[a] == s[a] && w[b] == s[b];
      } else if a >= |s| {
        assert w[a] == u[a - |s|] && w[b] == u[b - |s|];
      } else {
        assert w[a] == s[a] && w[b] == u[b - |s|];
      }
    }
  }

  /** The selection is in strictly increasing lexicographic order of (i, j), so no pair appears twice. */
  lemma SelectedOrdered(peaks: seq<Peak>, minKm: real, maxKm: real, geodesic: Geodesic)
    ensures var sel := SelectedPairs(peaks, minKm, maxKm, geodesic);
      && StrictlyIncreasing(sel)
      && forall a, b :: 0 <= a < b < |sel| ==> sel[a] != sel[b]
  {
    PairsBeforeIncreasing(peaks, minKm, maxKm, geodesic, |peaks|);
  }

  /** A row starting at i has at most n - 1 - i pairs. */
  lemma {:induction false} RowPairsCount(peaks: seq<Peak>, minKm: real, maxKm: real, geodesic: Geodesic,
                                         i: nat, j: nat)
    requires i < |peaks| && j <= |peaks|
    ensures |RowPairs(peaks, minKm, maxKm, geodesic, i, j)| <= if j <= i + 1 then 0 else j - 1 - i
    decreases j
  {
    if j > i + 1 {
      RowPairsCount(peaks, minKm, maxKm, geodesic, i, j - 1);
    }
  }

  /** The number of slots (a, b) with a < i and a < b < n: rows of n - 1, n - 2, ... slots. */
  function Slots(n: nat, i: nat): nat
    requires i <= n
  {
    if i == 0 then 0 else Slots(n, i - 1) + (n - i)
  }

  /** The first i rows hold at most Slots(n, i) pairs. */
  lemma {:induction false} PairsBeforeCount(peaks: seq<Peak>, minKm: real, maxKm: real, geodesic: Geodesic,
                                            i: nat)
    requires i <= |peaks|
    ensures |PairsBefore(peaks, minKm, maxKm, geodesic, i)| <= Slots(|peaks|, i)
  {
    if i > 0 {
      PairsBeforeCount(peaks, minKm, maxKm, geodesic, i - 1);
      RowPairsCount(peaks, minKm, maxKm, geodesic, i - 1, |peaks|);
    }
  }

  lemma StepSquare(m: int)
    ensures 2 * m + m * (m - 1) == (m + 1) * m
  {
  }

  /** Slots(n, i) in closed form: 2 Slots(n, i) + (n - i)(n - i - 1) = n (n - 1). */
  lemma {:induction false} SlotsClosedForm(n: nat, i: nat)
    requires i <= n
    ensures 2 * Slots(n, i) + (n - i) * (n - i - 1) == n * (n - 1)
  {
    if i > 0 {
      SlotsClosedForm(n, i - 1);
      StepSquare(n - i);
    }
  }

  /** There are at most n (n - 1) / 2 selected pairs. */
  lemma SelectedCount(peaks: seq<Peak>, minKm: real, maxKm: real, geodesic: Geodesic)
    ensures 2 * |SelectedPairs(peaks, minKm, maxKm, geodesic)| <= |peaks| * (|peaks| - 1)
  {
    PairsBeforeCount(peaks, minKm, maxKm, geodesic, |peaks|);
    SlotsClosedForm(|peaks|, |peaks|);
  }

  /** An inverted band (minKm > maxKm) selects nothing; it is not an error. */
  lemma InvertedBandSelectsNothing(peaks: seq<Peak>, minKm: real, maxKm: real, geodesic: Geodesic)
    requires minKm > maxKm
    ensures SelectedPairs(peaks, minKm, maxKm, geodesic) == []
  {
    var sel := SelectedPairs(peaks, minKm, maxKm, geodesic);
    if sel != [] {
      SelectedExactly(peaks, minKm, maxKm, geodesic, sel[0].0, sel[0].1);
    }
  }

  /** Two peak lists with the same coordinates, position by position. */
  predicate SameCoordinates(ps: seq<Peak>, qs: seq<Peak>)
  {
    |ps| == |qs| && forall k :: 0 <= k < |ps| ==> ps[k].lat == qs[k].lat && ps[k].lon == qs[k].lon
  }

  lemma {:induction false} RowPairsCoordinatesOnly(ps: seq<Peak>, qs: seq<Peak>, minKm: real, maxKm: real,
                                                   geodesic: Geodesic, i: nat, j: nat)
    requires SameCoordinates(ps, qs) && i < |ps| && j <= |ps|
    ensures RowPairs(ps, minKm, maxKm, geodesic, i, j) == RowPairs(qs, minKm, maxKm, geodesic, i, j)
    decreases j
  {
    if j > i + 1 {
      RowPairsCoordinatesOnly(ps, qs, minKm, maxKm, geodesic, i, j - 1);
      assert DistanceKm(geodesic, ps[i], ps[j - 1]) == DistanceKm(geodesic, qs[i], qs[j - 1]);
    }
  }

  lemma {:induction false} PairsBeforeCoordinatesOnly(ps: seq<Peak>, qs: seq<Peak>, minKm: real, maxKm: real,
                                                      geodesic: Geodesic, i: nat)
    requires SameCoordinates(ps, qs) && i <= |ps|
    ensures PairsBefore(ps, minKm, maxKm, geodesic, i) == PairsBefore(qs, minKm, maxKm, geodesic, i)
  {
    if i > 0 {
      PairsBeforeCoordinatesOnly(ps, qs, minKm, maxKm, geodesic, i - 1);
      RowPairsCoordinatesOnly(ps, qs, minKm, maxKm, geodesic, i - 1, |ps|);
      var before := PairsBefore(ps, minKm, maxKm, geodesic, i - 1);
      var row := RowPairs(ps, minKm, maxKm, geodesic, i - 1, |ps|);
      assert PairsBefore(ps, minKm, maxKm, geodesic, i) == before + row;
      assert PairsBefore(qs, minKm, maxKm, geodesic, i) == before + row;
    }
  }

  /** Which index pairs are selected depends only on the peaks' coordinates, not on names or elevations. */
  lemma SelectionUsesCoordinatesOnly(ps: seq<Peak>, qs: seq<Peak>, minKm: real, maxKm: real, geodesic: Geodesic)
    requires SameCoordinates(ps, qs)
    ensures SelectedPairs(ps, minKm, maxKm, geodesic) == SelectedPairs(qs, minKm, maxKm, geodesic)
  {
    PairsBeforeCoordinatesOnly(ps, qs, minKm, maxKm, geodesic, |ps|);
  }

  /** The pair finder: it loads the peak list on first use and keeps it from then on. */
  class PeakPairFinder {
    const minElevationFeet: int
    const minElevationM: real

    var peaks: seq<Peak>
    var peaksLoaded: bool

    constructor (minElevationFeet: int)
      ensures this.minElevationFeet == minElevationFeet
      ensures minElevationM == (minElevationFeet as real) * 0.3048
      ensures peaks == [] && !peaksLoaded
    {
      this.minElevationFeet := minElevationFeet;
      minElevationM := (minElevationFeet as real) * 0.3048;
      peaks := [];
      peaksLoaded := false;
    }

    /**
     * `_load_peaks`: the first call takes `stored`, what the peak cache file holds;
     * once loaded, the list is never replaced.
     */
    method LoadPeaks(stored: seq<Peak>)
      modifies this
      ensures peaksLoaded
      ensures peaks == if old(peaksLoaded) then old(peaks) else stored
    {
      if !peaksLoaded {
        peaks := stored;
        peaksLoaded := true;
      }
    }

    /**
     * `get_peak_pairs`: loads the peaks if needed, then returns every in-band pair
     * of the list, in loop order. It does not change the loaded list.
     */
    method GetPeakPairs(stored: seq<Peak>, minKm: real, maxKm: real, geodesic: Geodesic)
      returns (pairs: seq<(Peak, Peak)>)
      modifies this
      ensures peaksLoaded
      ensures peaks == if old(peaksLoaded) then old(peaks) else stored
      ensures PairsOf(peaks, SelectedPairs(peaks, minKm, maxKm, geodesic), pairs)
    {
      LoadPeaks(stored);
      pairs := FindPairs(peaks, minKm, maxKm, geodesic);
    }
  }
}
