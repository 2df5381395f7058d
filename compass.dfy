/** Bearing normalisation and the 16-point compass rose of
    `compute_bearing` and `compute_compass_direction`. */
module Compass {
  import opened Wrappers

  /** The compass labels, clockwise from north in 22.5 degree steps. */
  const Directions: seq<string> :=
    ["N", "NNE", "NE", "ENE", "E", "ESE", "SE", "SSE",
     "S", "SSW", "SW", "WSW", "W", "WNW", "NW", "NNW"]

  /** The value of `degrees(atan2(y, x))`: an angle in [-180, 180]. */
  type RawAngle = x: real | -180.0 <= x <= 180.0

  /** Python list indexing `xs[i]`: negative indices count from the end,
      anything else raises IndexError (None). */
  function PyIndex<T>(xs: seq<T>, i: int): (r: Option<T>)
    ensures r.Some? <==> -|xs| <= i < |xs|
    ensures r.Some? ==> r.value == xs[if i < 0 then |xs| + i else i]
  {
    if 0 <= i < |xs| then Some(xs[i])
    else if -|xs| <= i < 0 then Some(xs[|xs| + i])
    else None
  }

  /** `floor(bearing / 22.5)`, the index into the compass table. */
  function Sector(bearing: real): int
  {
    (bearing / 22.5).Floor
  }

  /** Sector k is the half-open arc [22.5k, 22.5k + 22.5): floor, not rounding. */
  lemma SectorArc(bearing: real, k: int)
    ensures Sector(bearing) == k <==> 22.5 * k as real <= bearing < 22.5 * k as real + 22.5
  {
    var q := bearing / 22.5;
    assert bearing == 22.5 * q;
    assert (22.5 * k as real <= bearing) == (k as real <= q);
    assert (bearing < 22.5 * k as real + 22.5) == (q < k as real + 1.0);
  }

  /** Every bearing in [0, 360) indexes the table inside its bounds. */
  lemma SectorInRange(bearing: real)
    requires 0.0 <= bearing < 360.0
    ensures 0 <= Sector(bearing) < |Directions|
  {
    SectorArc(bearing, Sector(bearing));
  }

  /** `compute_compass_direction`: the label of the sector holding `bearing`,
      with Python's indexing, so a bearing in [-360, 0) wraps round and any
      other bearing raises IndexError (None). */
  function CompassDirection(bearing: real): (r: Option<string>)
    ensures r.Some? <==> -360.0 <= bearing < 360.0
  {
    var k := Sector(bearing);
    assert -16 <= k < 16 <==> -360.0 <= bearing < 360.0 by {
      SectorArc(bearing, k);
    }
    PyIndex(Directions, k)
  }

  /** A bearing in [0, 360) gets the label of sector k exactly when it lies
      in [22.5k, 22.5k + 22.5). */
  lemma CompassSector(bearing: real, k: int)
    requires 0.0 <= bearing < 360.0 && 0 <= k < |Directions|
    requires 22.5 * k as real <= bearing < 22.5 * k as real + 22.5
    ensures CompassDirection(bearing) == Some(Directions[k])
  {
    SectorArc(bearing, k);
  }

  /** A negative bearing down to -360 names the same point as the bearing
      one full turn later: Python's negative indexing wraps the table. */
  lemma CompassWrapsNegative(bearing: real)
    requires -360.0 <= bearing < 0.0
    ensures CompassDirection(bearing) == CompassDirection(bearing + 360.0)
  {
    var k := Sector(bearing);
    SectorArc(bearing, k);
    SectorArc(bearing + 360.0, k + 16);
  }

  /** Boundary cases of the floor rule. */
  lemma CompassExamples()
    ensures CompassDirection(0.0) == Some("N")
    ensures CompassDirection(22.5) == Some("NNE")
    ensures CompassDirection(180.0) == Some("S")
    ensures CompassDirection(359.9) == Some("NNW")
    ensures CompassDirection(360.0) == None
  {
    CompassSector(0.0, 0);
    CompassSector(22.5, 1);
    CompassSector(180.0, 8);
    CompassSector(359.9, 15);
  }

  /** The normalisation `(bearing + 360) % 360` of `compute_bearing`.
      Python's `%` on floats with a positive divisor m is x - m * floor(x / m),
      so the remainder takes the sign of the divisor. */
  function NormaliseBearing(raw: real): (r: real)
    ensures 0.0 <= r < 360.0
  {
    var x := raw + 360.0;
    var q := (x / 360.0).Floor;
    x - 360.0 * q as real
  }

  /** For a raw angle in [-360, 360) (every atan2 angle in degrees is one),
      the normalised bearing is the angle itself when it is not negative and
      the angle plus a full turn when it is. */
  lemma NormaliseBearingValue(raw: real)
    requires -360.0 <= raw < 360.0
    ensures NormaliseBearing(raw) == if raw < 0.0 then raw + 360.0 else raw
  {
    var q := ((raw + 360.0) / 360.0).Floor;
    if raw < 0.0 {
      assert q == 0;
    } else {
      assert q == 1;
    }
  }

  /** `compute_bearing`: the bearing from point 1 to point 2, given the
      atan2 angle in degrees. Its value is always a valid compass bearing. */
  function ComputeBearing(lat1: real, lon1: real, lat2: real, lon2: real,
                          rawBearing: (real, real, real, real) -> RawAngle): (r: real)
    ensures 0.0 <= r < 360.0
    ensures CompassDirection(r).Some?
    ensures var raw := rawBearing(lat1, lon1, lat2, lon2);
            r == if raw < 0.0 then raw + 360.0 else raw
  {
    var raw := rawBearing(lat1, lon1, lat2, lon2);
    NormaliseBearingValue(raw);
    NormaliseBearing(raw)
  }
}
