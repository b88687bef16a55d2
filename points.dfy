/**
 * A point on a sphere of radius 10 given by latitude/longitude in degrees,
 * together with the Cartesian coordinates computed when it is built.
 */
module Points {
  import opened Outcomes
  import opened PyMath
  import NavCommon
  import GeoPosition

  const RADIUS: real := 10.0

  class Point {
    var lat: real
    var lon: real
    var x: real
    var y: real
    var z: real

    /**
     * `Point(lat, lon)`: stores the angles and computes
     * x = R cos(lon) cos(lat), y = R sin(lon) cos(lat), z = R sin(lat).
     */
    constructor (m: MathLib, aLat: real, aLon: real)
      requires Lawful(m)
      ensures lat == aLat && lon == aLon
      ensures z == RADIUS * m.sin(NavCommon.ToRadians(aLat))
      ensures x == RADIUS * (m.cos(NavCommon.ToRadians(aLon)) * m.cos(NavCommon.ToRadians(aLat)))
      ensures y == RADIUS * (m.sin(NavCommon.ToRadians(aLon)) * m.cos(NavCommon.ToRadians(aLat)))
      ensures -RADIUS <= x <= RADIUS && -RADIUS <= y <= RADIUS && -RADIUS <= z <= RADIUS
    {
      lat := aLat;
      lon := aLon;
      var cosLat := m.cos(NavCommon.ToRadians(aLat));
      var cosLon := m.cos(NavCommon.ToRadians(aLon));
      var sinLon := m.sin(NavCommon.ToRadians(aLon));
      ProductInUnit(cosLon, cosLat);
      ProductInUnit(sinLon, cosLat);
      x := RADIUS * (cosLon * cosLat);
      y := RADIUS * (sinLon * cosLat);
      z := RADIUS * m.sin(NavCommon.ToRadians(aLat));
    }

    /** The Cartesian fields of `Point(x, y, z)` before its angles are derived. */
    constructor Cartesian(aX: real, aY: real, aZ: real, aLat: real, aLon: real)
      ensures x == aX && y == aY && z == aZ && lat == aLat && lon == aLon
    {
      x, y, z, lat, lon := aX, aY, aZ, aLat, aLon;
    }

    /**
     * `normalize(aLon)`: adds or subtracts 360 until the value lies in
     * [-180, 180]; a value already there is returned unchanged.
     */
    method Normalize(aLon: real) returns (r: real)
      ensures -180.0 <= r <= 180.0
      ensures ((r - aLon) / 360.0).Floor as real == (r - aLon) / 360.0
      ensures -180.0 <= aLon <= 180.0 ==> r == aLon
    {
      r := aLon;
      ghost var turns := 0;
      while r < -180.0
        invariant r == aLon + 360.0 * turns as real
        invariant aLon < -180.0 || r == aLon
        decreases (-180.0 - r).Floor
      {
        r := r + 360.0;
        turns := turns + 1;
      }
      while r > 180.0
        invariant r == aLon + 360.0 * turns as real
        invariant -180.0 <= r
        invariant -180.0 <= aLon <= 180.0 ==> r == aLon
        decreases (r - 180.0).Floor
      {
        r := r - 360.0;
        turns := turns - 1;
      }
      assert (r - aLon) / 360.0 == turns as real;
    }

    /**
     * `__eq__` with another Point: the pole rule of GeographicPosition on the
     * stored lat and lon; the Cartesian coordinates are not compared.
     */
    function Equals(other: Point): (r: bool)
      reads this, other
      ensures r <==> lat == other.lat && (lon == other.lon || lat == 90.0 || lat == -90.0)
      ensures lat == other.lat && lon == other.lon ==> r
    {
      GeoPosition.SamePosition(lat, lon, other.lat, other.lon)
    }

    function GetLatitude(): (r: real)
      reads this
      ensures r == lat
    {
      lat
    }

    function GetLongitude(): (r: real)
      reads this
      ensures r == lon
    {
      lon
    }

    /** Changes only the latitude: x, y and z keep their old values and become stale. */
    method SetLatitude(aLat: real)
      modifies this
      ensures lat == aLat && GetLatitude() == aLat
      ensures lon == old(lon) && x == old(x) && y == old(y) && z == old(z)
    {
      lat := aLat;
    }

    /** Changes only the longitude: x, y and z keep their old values and become stale. */
    method SetLongitude(aLon: real)
      modifies this
      ensures lon == aLon && GetLongitude() == aLon
      ensures lat == old(lat) && x == old(x) && y == old(y) && z == old(z)
    {
      lon := aLon;
    }
  }

  lemma ProductInUnit(a: real, b: real)
    requires -1.0 <= a <= 1.0 && -1.0 <= b <= 1.0
    ensures -1.0 <= a * b <= 1.0
  {
    if 0.0 <= a {
      if 0.0 <= b { assert a * b <= 1.0 * b; } else { assert a * b >= a * -1.0; }
    } else {
      if 0.0 <= b { assert a * b >= -1.0 * b; } else { assert a * b <= -1.0 * a; }
    }
  }

  /**
   * `Point(x, y, z)`: latitude asin(z / R) and longitude atan2(y, x), in degrees;
   * raises the math domain error when |z| exceeds the radius.
   */
  method FromCartesian(m: MathLib, x: real, y: real, z: real) returns (r: Outcome<Point>)
    requires Lawful(m)
    ensures r.Raise? <==> z < -RADIUS || RADIUS < z
    ensures r.Ok? ==> fresh(r.value) && r.value.x == x && r.value.y == y && r.value.z == z
    ensures r.Ok? ==>
              && r.value.lat == NavCommon.ToDegrees(m.asin(z / RADIUS))
              && r.value.lon == NavCommon.ToDegrees(m.atan2(y, x))
    ensures r.Ok? ==> -90.0 <= r.value.lat <= 90.0
  {
    var a := Asin(m, z / RADIUS);
    if a.Raise? {
      return Raise(a.fault);
    }
    var p := new Point.Cartesian(x, y, z, NavCommon.ToDegrees(a.value), NavCommon.ToDegrees(m.atan2(y, x)));
    DegreesOfHalfPi(a.value);
    r := Ok(p);
  }

  lemma DegreesOfHalfPi(a: real)
    requires -PI / 2.0 <= a <= PI / 2.0
    ensures -90.0 <= NavCommon.ToDegrees(a) <= 90.0
  {
    var d := NavCommon.ToDegrees(a);
    assert NavCommon.PI_OVER_180 * d == a;
    assert NavCommon.PI_OVER_180 * 90.0 == PI / 2.0;
  }

  /** Equality of points follows the pole rule: reflexive, symmetric, longitudes ignored at a pole. */
  lemma PointEqualsCharacterized(a: Point, b: Point)
    ensures a.Equals(b) <==>
              || (a.lat == b.lat && a.lon == b.lon)
              || (a.lat == 90.0 && b.lat == 90.0)
              || (a.lat == -90.0 && b.lat == -90.0)
    ensures a.Equals(a) && (a.Equals(b) == b.Equals(a))
  {
  }
}
