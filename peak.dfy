/** The summit record shared by the line-of-sight engine and the pair search. */
module Peaks {

  /** A named summit: latitude and longitude in degrees, elevation in metres. */
  datatype Peak = Peak(name: string, lat: real, lon: real, elevationM: real)

  /**
   * The great-circle distance in kilometres between (lat1, lon1) and (lat2, lon2).
   * It comes from a geodesy library, so the model takes it as a given function
   * and states no property of it.
   */
  type Geodesic = (real, real, real, real) -> real

  /** The distance between two peaks, which only looks at their coordinates. */
  function DistanceKm(geodesic: Geodesic, p: Peak, q: Peak): real
  {
    geodesic(p.lat, p.lon, q.lat, q.lon)
  }
}
