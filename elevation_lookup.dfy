/**
 * The terrain lookup behind the line-of-sight engine: each station is looked up
 * first under its grid-snapped key, then under its exact key, and defaults to 0.0.
 */
module ElevationLookup {

  /** Cache keys are strings; the cache maps them to elevations in metres. */
  type ElevationCache = map<string, real>

  /**
   * Turns a (lat, lon) pair into a cache key. The grid key snaps both coordinates to
   * the 0.01 degree grid before formatting them with six decimals; the exact key formats
   * them as they are. Both rest on float rounding and formatting, so they are given functions.
   */
  type KeyFormat = (real, real) -> string

  /** The elevation recorded for one station, by the three-step fallback. */
  function LookupElevation(cache: ElevationCache, gridKey: KeyFormat, exactKey: KeyFormat,
                           lat: real, lon: real): (r: real)
    ensures r == 0.0 || r in cache.Values
    ensures cache == map[] ==> r == 0.0
  {
    var snapped := gridKey(lat, lon);
    if snapped in cache then cache[snapped]
    else
      var exact := exactKey(lat, lon);
      if exact in cache then cache[exact] else 0.0
  }

  function Min(a: nat, b: nat): nat
  {
    if a < b then a else b
  }

  /**
   * The elevations of the stations `zip(lats, lons)`: one per pair, in order, so as
   * many as the shorter of the two coordinate sequences.
   */
  function Elevations(cache: ElevationCache, gridKey: KeyFormat, exactKey: KeyFormat,
                      lats: seq<real>, lons: seq<real>): (r: seq<real>)
    ensures |r| == Min(|lats|, |lons|)
    ensures forall i :: 0 <= i < |r| && gridKey(lats[i], lons[i]) in cache ==>
      r[i] == cache[gridKey(lats[i], lons[i])]
    ensures forall i :: 0 <= i < |r| && gridKey(lats[i], lons[i]) !in cache && exactKey(lats[i], lons[i]) in cache ==>
      r[i] == cache[exactKey(lats[i], lons[i])]
    ensures forall i :: 0 <= i < |r| && gridKey(lats[i], lons[i]) !in cache && exactKey(lats[i], lons[i]) !in cache ==>
      r[i] == 0.0
  {
    seq(Min(|lats|, |lons|), i requires 0 <= i < Min(|lats|, |lons|) =>
      LookupElevation(cache, gridKey, exactKey, lats[i], lons[i]))
  }

  /** With an empty cache every station reads 0.0, and the lookup never fails. */
  lemma EmptyCacheReadsZero(gridKey: KeyFormat, exactKey: KeyFormat, lats: seq<real>, lons: seq<real>)
    ensures forall i :: 0 <= i < Min(|lats|, |lons|) ==> Elevations(map[], gridKey, exactKey, lats, lons)[i] == 0.0
  {
  }
}
