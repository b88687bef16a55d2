/**
 * The navigation engine: bearings, great-circle range, position from course,
 * speed and time, closest point of approach, line of sight, and the nearest
 * pair of points of two routes.  Angles are in degrees at the interface and in
 * radians inside, as in the source.  The trigonometry is uninterpreted (see
 * PyMath); what is modelled is the branch structure, the wrap steps, the error
 * paths and how the results are assembled.
 */
module NavUtils {
  import opened Outcomes
  import opened PyMath
  import opened NavCommon
  import opened GeoPosition
  import opened CpaData
  import opened Points

  /** `BearingType`. */
  datatype BearingType = ABSOLUTE | RELATIVE

  /** A bearing in degrees and the messages the error dialog showed while computing it. */
  datatype Bearing = Bearing(degrees: real, report: seq<string>)

  /** A position as plain numbers, before it is wrapped in a GeographicPosition. */
  datatype LatLon = LatLon(lat: real, lon: real)

  const TRACK_ABOVE_85: string := "Track above or below 85 degrees latitude."
  const LAT_ERROR: real := 0.00005
  const LONG_ERROR: real := 0.000005
  const EFF_RAD_0: real := 0.000005
  const CPA_EPSILON: real := 0.000001
  /** `sys.float_info.max`. */
  const FLOAT_MAX: real := 1.7976931348623157e308

  // ---------------------------------------------------------------------------
  // Wrap steps

  /** The single +-2pi correction used on longitude differences and relative bearings. */
  function WrapDelta(d: real): (r: real)
    ensures r == d || r == d - RAD_360 || r == d + RAD_360
    ensures -RAD_180 <= d <= RAD_180 ==> r == d
    ensures -(RAD_180 + RAD_360) < d < RAD_180 + RAD_360 ==> -RAD_180 <= r <= RAD_180
  {
    if d > RAD_180 then d - RAD_360
    else if d < -RAD_180 then d + RAD_360
    else d
  }

  /** The correction is odd: wrapping the opposite difference gives the opposite result. */
  lemma WrapDeltaOdd(d: real)
    ensures WrapDelta(-d) == -WrapDelta(d)
  {
  }

  /** The final longitude step of GreatCircle: `if |x| >= pi: x -= 2pi * signum(x)`. */
  function WrapLongitude(x: real): (r: real)
    ensures r == x || r == x - RAD_360 || r == x + RAD_360
    ensures -RAD_180 < x < RAD_180 ==> r == x
    ensures -(RAD_180 + RAD_360) < x < RAD_180 + RAD_360 ==> -RAD_180 < r < RAD_180
  {
    var ax := Abs(x);
    if ax >= RAD_180 then x - RAD_360 * Signum(x) as real else x
  }

  /** Degrees and radians bound each other: [-pi, pi] is [-180, 180], open or closed. */
  lemma DegreesOfBounded(x: real)
    ensures -NavCommon.PI <= x <= NavCommon.PI <==> -180.0 <= ToDegrees(x) <= 180.0
    ensures -NavCommon.PI < x < NavCommon.PI <==> -180.0 < ToDegrees(x) < 180.0
  {
    var d := ToDegrees(x);
    assert PI_OVER_180 * d == x;
    assert PI_OVER_180 * 180.0 == NavCommon.PI;
  }

  // ---------------------------------------------------------------------------
  // Bearings

  /**
   * The absolute bearing in radians from (srcLat, srcLon) to (tgtLat, tgtLon),
   * shared by CalculateBearing and Geometry.calculateHeading: the +-90 degree
   * case for a tiny latitude change, the 0/180 case for a tiny longitude change,
   * otherwise the Mercator formula corrected by quadrant.  The result lies in
   * [-pi, pi].
   */
  function AbsoluteBearing(m: MathLib, srcLat: real, srcLon: real, tgtLat: real, tgtLon: real): (r: Outcome<real>)
    requires Lawful(m)
    ensures r.Ok? ==> -NavCommon.PI <= r.value <= NavCommon.PI
    ensures r.Raise? ==> r.fault == ZeroDivisionError || r.fault == MathDomainError
  {
    var delLat := tgtLat - srcLat;
    var delLong := WrapDelta(tgtLon - srcLon);
    if Abs(delLat) < LAT_ERROR then
      Ok(if delLong >= 0.0 then RAD_90 else -RAD_90)
    else if Abs(delLong) < LONG_ERROR then
      Ok(if tgtLat >= srcLat then 0.0 else RAD_180)
    else
      var tTerm :- Div(m.tan(RAD_45 + tgtLat / 2.0), m.tan(RAD_45 + srcLat / 2.0));
      var lnTerm :- Log(m, tTerm);
      var q :- Div(delLong, lnTerm);
      var b := m.atan(q);
      MercatorQuadrant(m, delLong, lnTerm, q);
      Ok(if lnTerm < 0.0 then (if delLong > 0.0 then b + RAD_180 else b - RAD_180) else b)
  }

  lemma MercatorQuadrant(m: MathLib, delLong: real, lnTerm: real, q: real)
    requires Lawful(m) && lnTerm != 0.0 && q * lnTerm == delLong
    ensures lnTerm < 0.0 && delLong > 0.0 ==> -NavCommon.PI <= m.atan(q) + RAD_180 <= NavCommon.PI
    ensures lnTerm < 0.0 && delLong <= 0.0 ==> -NavCommon.PI <= m.atan(q) - RAD_180 <= NavCommon.PI
    ensures lnTerm > 0.0 ==> -NavCommon.PI <= m.atan(q) <= NavCommon.PI
  {
    if lnTerm < 0.0 {
      if delLong > 0.0 {
        assert q < 0.0;
      } else {
        assert q >= 0.0;
      }
    }
  }

  /** True when either latitude (in degrees) is beyond 85 degrees, where the Mercator term is singular. */
  predicate Above85(srcLatDeg: real, tgtLatDeg: real) {
    var s := ToRadians(srcLatDeg);
    var t := ToRadians(tgtLatDeg);
    Abs(s) > RAD_85 || Abs(t) > RAD_85
  }

  /**
   * `CalculateBearing`: beyond 85 degrees the error dialog is shown and 0.0 is
   * returned; otherwise the absolute bearing in degrees, or for RELATIVE the
   * absolute bearing minus the heading with one +-360 degree correction.
   */
  function CalculateBearing(m: MathLib, heading: real, start: GeographicPosition, end: GeographicPosition,
                            kind: BearingType): (r: Outcome<Bearing>)
    requires Lawful(m)
    reads start, end
    ensures Above85(start.latitude, end.latitude) ==> r == Ok(Bearing(0.0, [TRACK_ABOVE_85]))
    ensures !Above85(start.latitude, end.latitude) && r.Ok? ==> r.value.report == []
    ensures !Above85(start.latitude, end.latitude) && r.Ok? && kind == ABSOLUTE ==>
              -180.0 <= r.value.degrees <= 180.0
    ensures r.Raise? ==> r.fault == ZeroDivisionError || r.fault == MathDomainError
  {
    var srcLat := ToRadians(start.latitude);
    var srcLon := ToRadians(start.longitude);
    var tgtLat := ToRadians(end.latitude);
    var tgtLon := ToRadians(end.longitude);
    if Above85(start.latitude, end.latitude) then
      Ok(Bearing(0.0, [TRACK_ABOVE_85]))
    else
      var abs :- AbsoluteBearing(m, srcLat, srcLon, tgtLat, tgtLon);
      Ok(Bearing(BearingDegrees(abs, heading, kind), []))
  }

  /**
   * The last step of CalculateBearing: the absolute bearing in degrees, or for
   * RELATIVE the absolute bearing minus the heading with one +-360 degree
   * correction.
   */
  function BearingDegrees(abs: real, heading: real, kind: BearingType): (r: real)
    requires -NavCommon.PI <= abs <= NavCommon.PI
    ensures kind == ABSOLUTE ==> ToRadians(r) == abs && -180.0 <= r <= 180.0
    ensures kind == RELATIVE ==>
              var d := abs - ToRadians(heading);
              && (ToRadians(r) == d || ToRadians(r) == d - RAD_360 || ToRadians(r) == d + RAD_360)
              && (-RAD_180 <= d <= RAD_180 ==> ToRadians(r) == d)
  {
    DegreesOfBounded(abs);
    var rad := if kind == RELATIVE then WrapDelta(abs - ToRadians(heading)) else abs;
    DegreesRadiansRoundTrip(0.0, rad);
    ToDegrees(rad)
  }

  /**
   * The special cases of the bearing: a latitude change under 5e-5 rad gives
   * +90 degrees (Mercator-free) when the wrapped longitude change is >= 0 and -90
   * otherwise; failing that, a longitude change under 5e-6 rad gives 0 or 180.
   */
  lemma BearingSpecialCases(m: MathLib, start: GeographicPosition, end: GeographicPosition)
    requires Lawful(m) && !Above85(start.latitude, end.latitude)
    ensures
      var delLat := ToRadians(end.latitude) - ToRadians(start.latitude);
      var delLong := WrapDelta(ToRadians(end.longitude) - ToRadians(start.longitude));
      var b := CalculateBearing(m, 0.0, start, end, ABSOLUTE);
      && (-LAT_ERROR < delLat < LAT_ERROR ==>
            b == Ok(Bearing(ToDegrees(if delLong >= 0.0 then RAD_90 else -RAD_90), [])))
      && (!(-LAT_ERROR < delLat < LAT_ERROR) && -LONG_ERROR < delLong < LONG_ERROR ==>
            b == Ok(Bearing(if end.latitude >= start.latitude then 0.0 else 180.0, [])))
  {
    var srcLat, tgtLat := ToRadians(start.latitude), ToRadians(end.latitude);
    var abs := AbsoluteBearing(m, srcLat, ToRadians(start.longitude), tgtLat, ToRadians(end.longitude));
    assert CalculateBearing(m, 0.0, start, end, ABSOLUTE)
        == if abs.Ok? then Ok(Bearing(BearingDegrees(abs.value, 0.0, ABSOLUTE), [])) else Raise(abs.fault);
    if abs.Ok? {
      DegreesRadiansRoundTrip(BearingDegrees(abs.value, 0.0, ABSOLUTE), abs.value);
    }
    if tgtLat < srcLat {
      DegreesRadiansRoundTrip(0.0, NavCommon.PI);
    }
  }

  /**
   * A relative bearing is the absolute bearing minus the heading, corrected
   * by at most one turn of RAD_360.
   */
  lemma RelativeIsAbsoluteMinusHeading(m: MathLib, heading: real, start: GeographicPosition, end: GeographicPosition)
    requires Lawful(m) && !Above85(start.latitude, end.latitude)
    requires CalculateBearing(m, heading, start, end, ABSOLUTE).Ok?
    ensures CalculateBearing(m, heading, start, end, RELATIVE).Ok?
    ensures
      var a := ToRadians(CalculateBearing(m, heading, start, end, ABSOLUTE).value.degrees);
      var rel := ToRadians(CalculateBearing(m, heading, start, end, RELATIVE).value.degrees);
      var d := a - ToRadians(heading);
      && (rel == d || rel == d - RAD_360 || rel == d + RAD_360)
      && (-RAD_180 <= d <= RAD_180 ==> rel == d)
  {
  }

  /** `CalculateAbsBearing`: the ABSOLUTE bearing with heading 0. */
  function CalculateAbsBearing(m: MathLib, start: GeographicPosition, end: GeographicPosition): (r: Outcome<Bearing>)
    requires Lawful(m)
    reads start, end
    ensures r == CalculateBearing(m, 0.0, start, end, ABSOLUTE)
    ensures r.Ok? && r.value.report == [] ==> -180.0 <= r.value.degrees <= 180.0
  {
    CalculateBearing(m, 0.0, start, end, ABSOLUTE)
  }

  // ---------------------------------------------------------------------------
  // Range

  /** The flat-earth distance in radians used below five nautical miles; raises if its square is negative. */
  function FlatRange(m: MathLib, deltaLat: real, deltaLong: real, srcLat: real, tgtLat: real): (r: Outcome<real>)
    requires Lawful(m)
    ensures r.Ok? ==> 0.0 <= r.value
    ensures r.Raise? ==> r.fault == MathDomainError
  {
    Sqrt(m, deltaLat * deltaLat + deltaLong * deltaLong * m.cos(srcLat) * m.cos(tgtLat))
  }

  /** The cosine of the central angle by the spherical law of cosines. */
  function CentralCosine(m: MathLib, deltaLat: real, deltaLong: real, srcLat: real, tgtLat: real): real {
    m.cos(deltaLat) - (1.0 - m.cos(deltaLong)) * m.cos(srcLat) * m.cos(tgtLat)
  }

  /**
   * The range in degrees from the two differences and the two latitudes (radians):
   * the central angle by the law of cosines, taken as 0 when the cosine term has
   * magnitude >= 1, replaced by the flat approximation when under five miles.
   */
  function RangeFromDeltas(m: MathLib, deltaLat: real, deltaLong: real, srcLat: real, tgtLat: real): (r: Outcome<real>)
    requires Lawful(m)
    ensures r.Ok? ==> 0.0 <= r.value
    ensures r.Raise? ==> r.fault == MathDomainError
  {
    ClampedRange(m, CentralCosine(m, deltaLat, deltaLong, srcLat, tgtLat), FlatRange(m, deltaLat, deltaLong, srcLat, tgtLat))
  }

  /**
   * The choice between the central angle acos(c) (0 when |c| >= 1) and the flat
   * approximation `flat`, which is only consulted under five miles.
   */
  function ClampedRange(m: MathLib, c: real, flat: Outcome<real>): (r: Outcome<real>)
    requires Lawful(m)
    requires flat.Ok? ==> 0.0 <= flat.value
    requires flat.Raise? ==> flat.fault == MathDomainError
    ensures r.Ok? ==> 0.0 <= r.value
    ensures r.Raise? ==> r.fault == MathDomainError
  {
    var arange := if Abs(c) >= 1.0 then 0.0 else Abs(m.acos(c));
    if arange < RAD_FIVE_MILES then
      var f :- flat;
      NonNegativeProduct(f, RAD_TO_DEGREE);
      Ok(f * RAD_TO_DEGREE)
    else
      NonNegativeProduct(arange, RAD_TO_DEGREE);
      Ok(arange * RAD_TO_DEGREE)
  }

  lemma NonNegativeQuotient(a: real, b: real)
    requires 0.0 <= a && 0.0 < b
    ensures 0.0 <= a / b
  {
  }

  lemma NonNegativeProduct(a: real, b: real)
    requires 0.0 <= a && 0.0 <= b
    ensures 0.0 <= a * b
  {
  }

  /** `GreatCircleRange`, in degrees: never negative. */
  function GreatCircleRange(m: MathLib, start: GeographicPosition, end: GeographicPosition): (r: Outcome<real>)
    requires Lawful(m)
    reads start, end
    ensures r.Ok? ==> 0.0 <= r.value
    ensures r.Raise? ==> r.fault == MathDomainError
  {
    RangeBetween(m, start.latitude, start.longitude, end.latitude, end.longitude)
  }

  /** The range in degrees between two positions given as coordinates in degrees. */
  function RangeBetween(m: MathLib, lat1: real, lon1: real, lat2: real, lon2: real): (r: Outcome<real>)
    requires Lawful(m)
    ensures r.Ok? ==> 0.0 <= r.value
    ensures r.Raise? ==> r.fault == MathDomainError
  {
    var srcLat := ToRadians(lat1);
    var tgtLat := ToRadians(lat2);
    RangeFromDeltas(m, srcLat - tgtLat, WrapDelta(ToRadians(lon1) - ToRadians(lon2)), srcLat, tgtLat)
  }

  /**
   * When the cosine term has magnitude >= 1 the range is clamped to 0, which is
   * below five miles, so the flat approximation is what is returned.
   */
  lemma ClampTakesFlat(m: MathLib, c: real, flat: Outcome<real>)
    requires Lawful(m) && (c <= -1.0 || 1.0 <= c)
    requires flat.Ok? ==> 0.0 <= flat.value
    requires flat.Raise? ==> flat.fault == MathDomainError
    ensures flat.Ok? ==> ClampedRange(m, c, flat) == Ok(flat.value * RAD_TO_DEGREE)
    ensures flat.Raise? ==> ClampedRange(m, c, flat) == Raise(MathDomainError)
  {
    assert 0.0 < RAD_FIVE_MILES;
  }

  /** The range from a position to itself is 0. */
  lemma RangeToSelfIsZero(m: MathLib, p: GeographicPosition)
    requires Lawful(m)
    ensures GreatCircleRange(m, p, p) == Ok(0.0)
  {
    var srcLat := ToRadians(p.latitude);
    assert WrapDelta(ToRadians(p.longitude) - ToRadians(p.longitude)) == 0.0;
    assert CentralCosine(m, 0.0, 0.0, srcLat, srcLat) == 1.0;
    assert FlatRange(m, 0.0, 0.0, srcLat, srcLat) == Ok(0.0);
    assert RangeBetween(m, p.latitude, p.longitude, p.latitude, p.longitude) == Ok(0.0);
  }

  /** Swapping the two positions negates both differences and swaps the latitudes; the range is unchanged. */
  lemma RangeFromDeltasSymmetric(m: MathLib, deltaLat: real, deltaLong: real, srcLat: real, tgtLat: real)
    requires Lawful(m) && EvenCosine(m)
    ensures RangeFromDeltas(m, -deltaLat, -deltaLong, tgtLat, srcLat) == RangeFromDeltas(m, deltaLat, deltaLong, srcLat, tgtLat)
  {
    CentralCosineSymmetric(m, deltaLat, deltaLong, srcLat, tgtLat);
    FlatRangeSymmetric(m, deltaLat, deltaLong, srcLat, tgtLat);
  }

  lemma CentralCosineSymmetric(m: MathLib, deltaLat: real, deltaLong: real, srcLat: real, tgtLat: real)
    requires Lawful(m) && EvenCosine(m)
    ensures CentralCosine(m, -deltaLat, -deltaLong, tgtLat, srcLat) == CentralCosine(m, deltaLat, deltaLong, srcLat, tgtLat)
  {
    assert m.cos(-deltaLat) == m.cos(deltaLat) && m.cos(-deltaLong) == m.cos(deltaLong);
    ProductCommutes(1.0 - m.cos(deltaLong), m.cos(srcLat), m.cos(tgtLat));
  }

  lemma FlatRangeSymmetric(m: MathLib, deltaLat: real, deltaLong: real, srcLat: real, tgtLat: real)
    requires Lawful(m)
    ensures FlatRange(m, -deltaLat, -deltaLong, tgtLat, srcLat) == FlatRange(m, deltaLat, deltaLong, srcLat, tgtLat)
  {
    NegatedSquare(deltaLat);
    NegatedSquare(deltaLong);
    ProductCommutes(deltaLong * deltaLong, m.cos(srcLat), m.cos(tgtLat));
  }

  lemma ProductCommutes(a: real, b: real, c: real)
    ensures a * c * b == a * b * c
  {
  }

  lemma NegatedSquare(a: real)
    ensures (-a) * (-a) == a * a
  {
  }

  /** The range does not depend on which position is the start. */
  lemma RangeSymmetric(m: MathLib, a: GeographicPosition, b: GeographicPosition)
    requires Lawful(m) && EvenCosine(m)
    ensures GreatCircleRange(m, a, b) == GreatCircleRange(m, b, a)
  {
    RangeBetweenSymmetric(m, a.latitude, a.longitude, b.latitude, b.longitude);
  }

  lemma RangeBetweenSymmetric(m: MathLib, lat1: real, lon1: real, lat2: real, lon2: real)
    requires Lawful(m) && EvenCosine(m)
    ensures RangeBetween(m, lat1, lon1, lat2, lon2) == RangeBetween(m, lat2, lon2, lat1, lon1)
  {
    var aLat := ToRadians(lat1);
    var bLat := ToRadians(lat2);
    var dLong := ToRadians(lon1) - ToRadians(lon2);
    var x, w := aLat - bLat, WrapDelta(dLong);
    WrapDeltaOdd(dLong);
    var y, v := bLat - aLat, WrapDelta(ToRadians(lon2) - ToRadians(lon1));
    assert ToRadians(lon2) - ToRadians(lon1) == -dLong;
    assert y == -x && v == -w;
    assert RangeBetween(m, lat1, lon1, lat2, lon2) == RangeFromDeltas(m, x, w, aLat, bLat);
    assert RangeBetween(m, lat2, lon2, lat1, lon1) == RangeFromDeltas(m, y, v, bLat, aLat);
    RangeFromDeltasSymmetric(m, x, w, aLat, bLat);
  }

  // ---------------------------------------------------------------------------
  // Line of sight

  /** `lineOfSightDistance`: 1.144 (sqrt h1 + sqrt h2) nautical miles; raises for a negative height. */
  function LineOfSightDistance(m: MathLib, eyeFt: real, objFt: real): (r: Outcome<real>)
    requires Lawful(m)
    ensures r.Ok? <==> 0.0 <= eyeFt && 0.0 <= objFt
    ensures r.Ok? ==> 0.0 <= r.value
    ensures r.Raise? ==> r.fault == MathDomainError
  {
    var se :- Sqrt(m, eyeFt);
    var so :- Sqrt(m, objFt);
    Ok(1.144 * (se + so))
  }

  /** `horizon`: the line-of-sight distance to an object at height 0. */
  function Horizon(m: MathLib, eyeFt: real): (r: Outcome<real>)
    requires Lawful(m)
    ensures r == LineOfSightDistance(m, eyeFt, 0.0)
    ensures r.Ok? <==> 0.0 <= eyeFt
    ensures eyeFt == 0.0 ==> r == Ok(0.0)
  {
    LineOfSightDistance(m, eyeFt, 0.0)
  }

  /** `isVisible`: the object is visible iff the distance is within the line-of-sight distance. */
  function IsVisible(m: MathLib, eyeFt: real, objFt: real, distance: real): (r: Outcome<bool>)
    requires Lawful(m)
    ensures r.Ok? <==> LineOfSightDistance(m, eyeFt, objFt).Ok?
    ensures r.Ok? ==> (r.value <==> distance <= LineOfSightDistance(m, eyeFt, objFt).value)
  {
    var arange :- LineOfSightDistance(m, eyeFt, objFt);
    Ok(distance <= arange)
  }

  /** Anything visible at some distance is visible when nearer; nothing is hidden at distance 0. */
  lemma VisibilityMonotone(m: MathLib, eyeFt: real, objFt: real, d1: real, d2: real)
    requires Lawful(m) && 0.0 <= eyeFt && 0.0 <= objFt && d1 <= d2
    ensures IsVisible(m, eyeFt, objFt, d2) == Ok(true) ==> IsVisible(m, eyeFt, objFt, d1) == Ok(true)
    ensures IsVisible(m, eyeFt, objFt, 0.0) == Ok(true)
  {
  }

  // ---------------------------------------------------------------------------
  // Position from course and distance

  /**
   * `GreatCircle`: the new position after `distance` nautical miles on `course`
   * from (lat, lon), all in degrees.  The latitude comes from asin and so lies in
   * [-90, 90]; a start longitude in [-180, 180] gives a result longitude strictly
   * inside (-180, 180) after the polar-crossing shift and the final wrap.
   */
  function GreatCircle(m: MathLib, lat: real, lon: real, course: real, distance: real): (r: Outcome<LatLon>)
    requires Lawful(m)
    ensures r.Ok? ==> -90.0 <= r.value.lat <= 90.0
    ensures r.Ok? && -180.0 <= lon <= 180.0 ==> -180.0 < r.value.lon < 180.0
    ensures r.Raise? ==> r.fault == MathDomainError || r.fault == ZeroDivisionError
  {
    var crs := ToRadians(course);
    var latRad := ToRadians(lat);
    var distRad := ToRadians(distance / NM_PER_DEGREE);
    var newLat :- Asin(m, NewLatitudeSine(m, latRad, crs, distRad));
    var deltaLong :- LongitudeChange(m, latRad, crs, distRad);
    var newCrs :- NewCourse(m, latRad, crs, distRad, newLat);
    Ok(ArrivalPosition(newLat, lon, crs, newCrs, deltaLong))
  }

  /** The arrival latitude and longitude in degrees, from the new latitude and the longitude change in radians. */
  function ArrivalPosition(newLat: real, lon: real, crs: real, newCrs: real, deltaLong: real): (r: LatLon)
    requires -NavCommon.PI / 2.0 <= newLat <= NavCommon.PI / 2.0
    requires -NavCommon.PI / 2.0 < deltaLong < NavCommon.PI / 2.0
    ensures -90.0 <= r.lat <= 90.0
    ensures -180.0 <= lon <= 180.0 ==> -180.0 < r.lon < 180.0
  {
    var newLong := FinalLongitude(ToRadians(lon), crs, newCrs, deltaLong);
    DegreesOfBounded(newLat);
    DegreesOfBounded(ToRadians(lon));
    DegreesOfBounded(newLong);
    LatLon(ToDegrees(newLat), ToDegrees(newLong))
  }

  /** The sine of the new latitude: cos d sin lat + cos crs sin d cos lat. */
  function NewLatitudeSine(m: MathLib, latRad: real, crs: real, distRad: real): real {
    m.cos(distRad) * m.sin(latRad) + m.cos(crs) * m.sin(distRad) * m.cos(latRad)
  }

  /** The longitude change atan(sin d sin crs / (cos d cos lat - sin d cos crs sin lat)), inside (-pi/2, pi/2). */
  function LongitudeChange(m: MathLib, latRad: real, crs: real, distRad: real): (r: Outcome<real>)
    requires Lawful(m)
    ensures r.Ok? ==> -NavCommon.PI / 2.0 < r.value < NavCommon.PI / 2.0
    ensures r.Raise? ==> r.fault == ZeroDivisionError
  {
    var q :- Div(m.sin(distRad) * m.sin(crs),
                 m.cos(distRad) * m.cos(latRad) - m.sin(distRad) * m.cos(crs) * m.sin(latRad));
    Ok(m.atan(q))
  }

  /**
   * The course on arrival: its sine clamped to 1 when |sin| > 1 (to +1 even for
   * a value below -1), the cosine's sign chosen by whether the latitude grew,
   * and the sign of the start course applied to the acos.  The clamp keeps the
   * sqrt and acos arguments in range, so only the division can raise.
   */
  function NewCourse(m: MathLib, latRad: real, crs: real, distRad: real, newLat: real): (r: Outcome<real>)
    requires Lawful(m)
    ensures r.Raise? <==> m.cos(newLat) == 0.0
    ensures r.Raise? ==> r.fault == ZeroDivisionError
    ensures r.Ok? ==> -NavCommon.PI <= r.value <= NavCommon.PI
  {
    var s :- Div(m.sin(crs) * m.cos(latRad), m.cos(newLat));
    var sinNewCrs := if Abs(s) > 1.0 then 1.0 else s;
    UnitSquare(sinNewCrs);
    var c := Sqrt(m, 1.0 - sinNewCrs * sinNewCrs).value;
    var cosNewCrs := if m.sin(newLat) * m.cos(distRad) - m.sin(latRad) < 0.0 then -c else c;
    var a := Acos(m, cosNewCrs).value;
    Ok(if crs < 0.0 then -a else a)
  }

  /** A value in [-1, 1] has 1 - x*x in [0, 1]. */
  lemma UnitSquare(x: real)
    requires -1.0 <= x <= 1.0
    ensures 0.0 <= 1.0 - x * x <= 1.0
  {
    if x < 0.0 {
      assert x * x <= -x;
    } else {
      assert x * x <= x;
    }
  }

  /**
   * The longitude step of GreatCircle: on a north or south course whose arrival
   * course turned by more than 90 degrees (the track crossed a pole) the start
   * longitude moves by 180 degrees towards zero; then the change is added and the
   * sum wrapped.  A start in [-pi, pi] gives a result strictly inside (-pi, pi).
   */
  function FinalLongitude(lon0: real, crs: real, newCrs: real, deltaLong: real): (r: real)
    requires -NavCommon.PI / 2.0 < deltaLong < NavCommon.PI / 2.0
    ensures -NavCommon.PI <= lon0 <= NavCommon.PI ==> -NavCommon.PI < r < NavCommon.PI
  {
    var polar := Abs(crs) < EFF_RAD_0
                 || Abs(crs - RAD_180) < EFF_RAD_0;
    var turned := Abs(newCrs - crs) > RAD_90;
    var lon1 := if polar && turned then lon0 + (if lon0 < 0.0 then RAD_180 else -RAD_180) else lon0;
    WrapLongitude(lon1 + deltaLong)
  }

  /** `p` holds the position `GreatCircle` gives for `distance` miles on `course` from `a`. */
  predicate ReachedBy(m: MathLib, a: GeographicPosition, course: real, distance: real, p: GeographicPosition)
    requires Lawful(m)
    reads a, p
  {
    var g := GreatCircle(m, a.latitude, a.longitude, course, distance);
    g.Ok? && p.latitude == g.value.lat && p.longitude == g.value.lon
  }

  /** The nautical miles run at `speed` knots in `time` hours. */
  function MilesRun(speed: real, time: real): real {
    speed * time
  }

  /**
   * `CalculatePositionCS`: with a speed of 0 or less the start object itself is
   * returned (the caller's object, not a copy); otherwise a fresh position
   * `speed * time` nautical miles along the heading.
   */
  method CalculatePositionCS(m: MathLib, start: GeographicPosition, speed: real, heading: real, time: real)
    returns (r: Outcome<GeographicPosition>)
    requires Lawful(m)
    ensures speed <= 0.0 ==> r == Ok(start)
    ensures speed > 0.0 ==> (r.Ok? <==> GreatCircle(m, start.latitude, start.longitude, heading, MilesRun(speed, time)).Ok?)
    ensures speed > 0.0 && r.Ok? ==> fresh(r.value) && ReachedBy(m, start, heading, MilesRun(speed, time), r.value)
    ensures speed > 0.0 && r.Raise? ==> r.fault == GreatCircle(m, start.latitude, start.longitude, heading, MilesRun(speed, time)).fault
  {
    if speed > 0.0 {
      var g := GreatCircle(m, start.latitude, start.longitude, heading, MilesRun(speed, time));
      if g.Raise? {
        return Raise(g.fault);
      }
      var p := new GeographicPosition(g.value.lat, g.value.lon);
      r := Ok(p);
    } else {
      r := Ok(start);
    }
  }

  // ---------------------------------------------------------------------------
  // Closest point of approach

  /** The approaching track's velocity resolved in the target's frame, and its magnitude. */
  datatype RelativeMotion = RelativeMotion(xRel: real, yRel: real, speed: real)

  function RelativeVelocity(m: MathLib, courseA: real, speedA: real, courseB: real, speedB: real): (r: RelativeMotion)
    requires Lawful(m)
    ensures 0.0 <= r.speed
  {
    var approachCourse := PI_OVER_2 - ToRadians(courseA);
    var targetCourse := PI_OVER_2 - ToRadians(courseB);
    var ax := speedA * m.cos(approachCourse);
    var ay := speedA * m.sin(approachCourse);
    var ts := m.sin(targetCourse);
    var tc := m.cos(targetCourse);
    var xr := ax * tc + ay * ts - speedB;
    var yr := ay * tc - ax * ts;
    SumOfSquaresNonNegative(xr, yr);
    RelativeMotion(xr, yr, m.sqrt(xr * xr + yr * yr))
  }

  lemma SumOfSquaresNonNegative(a: real, b: real)
    ensures 0.0 <= a * a + b * b
  {
  }

  /** The approaching track's course in the target's frame, resolved by quadrant (0 when there is no relative motion). */
  function ApproachCourseRel(m: MathLib, rm: RelativeMotion): real {
    var xr, yr := rm.xRel, rm.yRel;
    var xSmall := Abs(xr) <= CPA_EPSILON;
    var ySmall := Abs(yr) <= CPA_EPSILON;
    if rm.speed < CPA_EPSILON then 0.0
    else
      var c := if xSmall then (if ySmall then 0.0 else NavCommon.PI) else m.atan(yr / xr);
      if xr < 0.0 || xSmall then
        (if yr > 0.0 || ySmall then NavCommon.PI + c else c - NavCommon.PI)
      else c
  }

  /**
   * The classification in the order the code sets it: NO_RELATIVE_MOTION below
   * the speed epsilon, otherwise VALID, then RECEDING overriding either when the
   * relative bearing is at least 90 degrees off.
   */
  function Classify(relSpeed: real, rb: real): (s: CPAState)
    ensures s == RECEDING <==> (rb <= -PI_OVER_2 || PI_OVER_2 <= rb)
    ensures s == NO_RELATIVE_MOTION <==> relSpeed < CPA_EPSILON && -PI_OVER_2 < rb < PI_OVER_2
    ensures s == VALID <==> CPA_EPSILON <= relSpeed && -PI_OVER_2 < rb < PI_OVER_2
  {
    var code := if relSpeed < CPA_EPSILON then NO_RELATIVE_MOTION else VALID;
    if Abs(rb) >= PI_OVER_2 then RECEDING else code
  }

  /** What CalculateCPA derives before it fills the record: range (nm), relative speed, relative bearing (rad). */
  datatype Encounter = Encounter(range: real, relSpeed: real, rb: real, report: seq<string>)

  function AnalyzeEncounter(m: MathLib, a: GeographicPosition, courseA: real, speedA: real,
                            b: GeographicPosition, courseB: real, speedB: real): (r: Outcome<Encounter>)
    requires Lawful(m)
    reads a, b
    ensures r.Ok? ==> 0.0 <= r.value.range && 0.0 <= r.value.relSpeed
  {
    var rangeDeg :- GreatCircleRange(m, a, b);
    var rm := RelativeVelocity(m, courseA, speedA, courseB, speedB);
    var acr := ApproachCourseRel(m, rm);
    var bearing :- CalculateBearing(m, courseB - ToDegrees(acr), a, b, RELATIVE);
    Ok(Encounter(rangeDeg * NM_PER_DEGREE, rm.speed, ToRadians(bearing.degrees), bearing.report))
  }

  /** Hours until the closest point of approach: range |cos rb| / relative speed. */
  function CpaHours(m: MathLib, e: Encounter): real
    requires CPA_EPSILON <= e.relSpeed
  {
    e.range * Abs(m.cos(e.rb)) / e.relSpeed
  }

  /**
   * The numeric fields of the record `CalculateCPA` fills for the encounter `e`.
   * For VALID: range at CPA = range |sin rb|, elapsed time = 3600 hours (seconds),
   * distance to CPA = hours times the approach speed.  Otherwise: elapsed time 0
   * and range at CPA = distance to CPA = current range.
   */
  predicate RecordFields(m: MathLib, e: Encounter, speedA: real, out: CPAData)
    reads out
  {
    FieldValues(m, e, speedA, out.code, out.rangeAtCPA, out.elapsedTime, out.distToCPA)
  }

  /** RecordFields on the four values themselves. */
  predicate FieldValues(m: MathLib, e: Encounter, speedA: real, code: CPAState,
                        rangeAtCPA: real, elapsedTime: real, distToCPA: real)
  {
    && code == Classify(e.relSpeed, e.rb)
    && (code != VALID ==>
          && elapsedTime == 0.0
          && rangeAtCPA == e.range && distToCPA == e.range)
    && (code == VALID ==>
          && rangeAtCPA == e.range * Abs(m.sin(e.rb))
          && elapsedTime == 3600.0 * CpaHours(m, e)
          && distToCPA == CpaHours(m, e) * speedA)
  }

  /**
   * The whole record: its fields, and as CPA position the place the approach
   * track reaches after the hours to CPA when VALID with a positive speed;
   * otherwise the caller's approach-position object itself.
   */
  predicate DescribesEncounter(m: MathLib, a: GeographicPosition, courseA: real, speedA: real,
                               e: Encounter, out: CPAData)
    requires Lawful(m)
    reads a, out, out.cpaPosition
  {
    && RecordFields(m, e, speedA, out)
    && (out.code != VALID || speedA <= 0.0 ==> out.cpaPosition == a)
    && (out.code == VALID && speedA > 0.0 ==> ReachedBy(m, a, courseA, MilesRun(speedA, CpaHours(m, e)), out.cpaPosition))
  }

  /**
   * A record filled from an encounter with non-negative range and speed never
   * holds a negative range at CPA or a negative elapsed time.
   */
  lemma RecordFieldBounds(m: MathLib, e: Encounter, speedA: real, out: CPAData)
    requires Lawful(m) && 0.0 <= e.range && 0.0 <= e.relSpeed
    requires RecordFields(m, e, speedA, out)
    ensures 0.0 <= out.rangeAtCPA
    ensures 0.0 <= out.elapsedTime
  {
    if out.code == VALID {
      NonNegativeProduct(e.range, Abs(m.sin(e.rb)));
      NonNegativeProduct(e.range, Abs(m.cos(e.rb)));
      NonNegativeQuotient(e.range * Abs(m.cos(e.rb)), e.relSpeed);
    }
  }

  /** Fills the numeric fields of a fresh record through its setters, as `CalculateCPA` does. */
  method FillRecord(m: MathLib, e: Encounter, speedA: real) returns (out: CPAData)
    ensures fresh(out) && fresh(out.cpaPosition)
    ensures RecordFields(m, e, speedA, out)
  {
    var code := Classify(e.relSpeed, e.rb);
    out := new CPAData();
    if code == VALID {
      var hours := CpaHours(m, e);
      var rangeAtCPA := e.range * Abs(m.sin(e.rb));
      out.SetRangeAtCPA(rangeAtCPA);
      out.SetCode(code);
      out.SetElapsedTime(hours);
      out.SetDistToCPA(hours * speedA);
      out.SetElapsedTime(3600.0 * hours);
      assert FieldValues(m, e, speedA, code, rangeAtCPA, 3600.0 * hours, hours * speedA);
      assert out.code == code && out.rangeAtCPA == rangeAtCPA;
      assert out.elapsedTime == 3600.0 * hours && out.distToCPA == hours * speedA;
    } else {
      out.SetRangeAtCPA(e.range);
      out.SetDistToCPA(e.range);
      out.SetElapsedTime(0.0);
      out.SetCode(code);
      assert FieldValues(m, e, speedA, code, e.range, 0.0, e.range);
      assert out.code == code && out.rangeAtCPA == e.range;
      assert out.elapsedTime == 0.0 && out.distToCPA == e.range;
    }
  }

  /**
   * Whether filling the record for `e` raises: only a VALID encounter with a
   * positive own speed moves the approach position, and that move raises
   * exactly when the great-circle step does.
   */
  predicate ApproachFails(m: MathLib, a: GeographicPosition, courseA: real, speedA: real, e: Encounter)
    requires Lawful(m)
    reads a
  {
    && Classify(e.relSpeed, e.rb) == VALID && speedA > 0.0
    && GreatCircle(m, a.latitude, a.longitude, courseA, MilesRun(speedA, CpaHours(m, e))).Raise?
  }

  /** The second half of `CalculateCPA`: the CPA position, then the record. */
  method RecordEncounter(m: MathLib, a: GeographicPosition, courseA: real, speedA: real, e: Encounter)
    returns (r: Outcome<CPAData>)
    requires Lawful(m) && 0.0 <= e.range && 0.0 <= e.relSpeed
    ensures r.Raise? <==> ApproachFails(m, a, courseA, speedA, e)
    ensures r.Raise? ==>
              r.fault == GreatCircle(m, a.latitude, a.longitude, courseA, MilesRun(speedA, CpaHours(m, e))).fault
    ensures r.Ok? ==> fresh(r.value) && DescribesEncounter(m, a, courseA, speedA, e, r.value)
    ensures r.Ok? && r.value.code == VALID && speedA > 0.0 ==> fresh(r.value.cpaPosition)
    ensures r.Ok? ==> 0.0 <= r.value.rangeAtCPA && 0.0 <= r.value.elapsedTime
  {
    var output := FillRecord(m, e, speedA);
    RecordFieldBounds(m, e, speedA, output);
    var position := a;
    if output.code == VALID {
      var timeInterval := CpaHours(m, e);
      var approach := CalculatePositionCS(m, a, speedA, courseA, timeInterval);
      if approach.Raise? {
        return Raise(approach.fault);
      }
      position := approach.value;
    }
    output.SetCpaPosition(position);
    r := Ok(output);
  }

  /**
   * `CalculateCPA`: the range, relative speed and relative bearing of the
   * encounter, then the record they describe.  The range at CPA is never
   * negative, nor is the elapsed time.
   */
  method CalculateCPA(m: MathLib, a: GeographicPosition, courseA: real, speedA: real,
                      b: GeographicPosition, courseB: real, speedB: real)
    returns (r: Outcome<CPAData>, ghost report: seq<string>)
    requires Lawful(m)
    ensures AnalyzeEncounter(m, a, courseA, speedA, b, courseB, speedB).Raise? ==>
              r == Raise(AnalyzeEncounter(m, a, courseA, speedA, b, courseB, speedB).fault) && report == []
    ensures AnalyzeEncounter(m, a, courseA, speedA, b, courseB, speedB).Ok? ==>
              report == AnalyzeEncounter(m, a, courseA, speedA, b, courseB, speedB).value.report
    ensures AnalyzeEncounter(m, a, courseA, speedA, b, courseB, speedB).Ok? ==>
              var e := AnalyzeEncounter(m, a, courseA, speedA, b, courseB, speedB).value;
              && (r.Raise? <==> ApproachFails(m, a, courseA, speedA, e))
              && (r.Raise? ==>
                    r.fault == GreatCircle(m, a.latitude, a.longitude, courseA, MilesRun(speedA, CpaHours(m, e))).fault)
    ensures r.Ok? ==>
              var e := AnalyzeEncounter(m, a, courseA, speedA, b, courseB, speedB).value;
              && fresh(r.value)
              && report == e.report
              && DescribesEncounter(m, a, courseA, speedA, e, r.value)
    ensures r.Ok? && r.value.code == VALID && speedA > 0.0 ==> fresh(r.value.cpaPosition)
    ensures r.Ok? ==> 0.0 <= r.value.rangeAtCPA && 0.0 <= r.value.elapsedTime
  {
    report := [];
    var analysis := AnalyzeEncounter(m, a, courseA, speedA, b, courseB, speedB);
    if analysis.Raise? {
      return Raise(analysis.fault), report;
    }
    report := analysis.value.report;
    r := RecordEncounter(m, a, courseA, speedA, analysis.value);
  }

  /** The range at CPA a record of the encounter holds: the offset of the track when VALID, the present range otherwise. */
  function RangeAtCpa(m: MathLib, e: Encounter): real
  {
    if Classify(e.relSpeed, e.rb) == VALID then e.range * Abs(m.sin(e.rb)) else e.range
  }

  /** A record filled from an encounter holds its range at CPA. */
  lemma RecordHoldsRangeAtCpa(m: MathLib, e: Encounter, speedA: real, out: CPAData)
    requires RecordFields(m, e, speedA, out)
    ensures out.rangeAtCPA == RangeAtCpa(m, e)
  {
  }

  /**
   * `CalculatePerpendicularDistance`: the range at CPA of a 60-knot track from
   * the start of the great circle towards its stop, against the point held
   * still.  Never negative.  `report` holds the dialogs both calls show: the
   * bearing's, then those of the CPA analysis.
   */
  method CalculatePerpendicularDistance(m: MathLib, target: GeographicPosition,
                                        circleStart: GeographicPosition, circleStop: GeographicPosition)
    returns (r: Outcome<real>, ghost report: seq<string>)
    requires Lawful(m)
    ensures CalculateBearing(m, 0.0, circleStart, circleStop, ABSOLUTE).Raise? ==> report == []
    ensures CalculateBearing(m, 0.0, circleStart, circleStop, ABSOLUTE).Ok? ==>
              var course := CalculateBearing(m, 0.0, circleStart, circleStop, ABSOLUTE).value;
              var e := AnalyzeEncounter(m, circleStart, course.degrees, 60.0, target, 0.0, 0.0);
              && (e.Raise? ==> report == course.report)
              && (e.Ok? ==> report == course.report + e.value.report)
    ensures r.Ok? ==> 0.0 <= r.value
    ensures CalculateBearing(m, 0.0, circleStart, circleStop, ABSOLUTE).Raise? ==>
              r == Raise(CalculateBearing(m, 0.0, circleStart, circleStop, ABSOLUTE).fault)
    ensures CalculateBearing(m, 0.0, circleStart, circleStop, ABSOLUTE).Ok? ==>
              var e := AnalyzeEncounter(m, circleStart, CalculateBearing(m, 0.0, circleStart, circleStop, ABSOLUTE).value.degrees,
                                        60.0, target, 0.0, 0.0);
              && (e.Raise? ==> r == Raise(e.fault))
              && (r.Ok? ==> e.Ok? && r.value == RangeAtCpa(m, e.value))
              && (e.Ok? ==> (r.Ok? <==> !ApproachFails(m, circleStart, CalculateBearing(m, 0.0, circleStart, circleStop, ABSOLUTE).value.degrees, 60.0, e.value)))
  {
    var course := CalculateBearing(m, 0.0, circleStart, circleStop, ABSOLUTE);
    if course.Raise? {
      return Raise(course.fault), [];
    }
    ghost var e := AnalyzeEncounter(m, circleStart, course.value.degrees, 60.0, target, 0.0, 0.0);
    var cpa, cpaReport := CalculateCPA(m, circleStart, course.value.degrees, 60.0, target, 0.0, 0.0);
    report := course.value.report + cpaReport;
    if cpa.Raise? {
      return Raise(cpa.fault), report;
    }
    assert e.Ok? && RecordFields(m, e.value, 60.0, cpa.value);
    RecordHoldsRangeAtCpa(m, e.value, 60.0, cpa.value);
    r := Ok(cpa.value.GetRangeAtCPA());
  }

  // ---------------------------------------------------------------------------
  // Nearest pair of points of two routes

  /** The angular distance between two points by the law of cosines; raises if the cosine leaves [-1, 1]. */
  function CosineLawDistance(m: MathLib, latS: real, lonS: real, latE: real, lonE: real): (r: Outcome<real>)
    requires Lawful(m)
    ensures r.Ok? ==> 0.0 <= r.value <= NavCommon.PI
    ensures r.Raise? ==> r.fault == MathDomainError
  {
    var cosLatS := m.cos(ToRadians(latS));
    var cosLatE := m.cos(ToRadians(latE));
    var deltaL := m.cos(ToRadians(latS - latE));
    var deltal := m.cos(ToRadians(lonS - lonE));
    Acos(m, deltaL - (1.0 - deltal) * cosLatS * cosLatE)
  }

  /** The distance of the pair (s, e) at their current coordinates. */
  function PairDistance(m: MathLib, s: Point, e: Point): (r: Outcome<real>)
    requires Lawful(m)
    reads s, e
    ensures r.Ok? ==> 0.0 <= r.value <= NavCommon.PI
    ensures r.Raise? ==> r.fault == MathDomainError
  {
    CosineLawDistance(m, s.lat, s.lon, e.lat, e.lon)
  }

  ghost predicate AllPairsDefined(m: MathLib, starts: seq<Point>, ends: seq<Point>)
    requires Lawful(m)
    reads starts, ends
  {
    forall p, q :: 0 <= p < |starts| && 0 <= q < |ends| ==> PairDistance(m, starts[p], ends[q]).Ok?
  }

  /** Pair (p, q) comes before pair (i, j) in row-major order. */
  predicate Before(p: int, q: int, i: int, j: int) {
    p < i || (p == i && q < j)
  }

  /** `d` holds the distance of every pair (p, q) in row p and column q. */
  ghost predicate Tabulates(m: MathLib, starts: seq<Point>, ends: seq<Point>, d: seq<seq<Outcome<real>>>)
    requires Lawful(m)
    reads starts, ends
  {
    && |d| == |starts| && Rectangular(d, |ends|)
    && forall p, q :: 0 <= p < |starts| && 0 <= q < |ends| ==> d[p][q] == PairDistance(m, starts[p], ends[q])
  }

  /** The table of the distances of every pair. */
  ghost function DistanceTable(m: MathLib, starts: seq<Point>, ends: seq<Point>): (d: seq<seq<Outcome<real>>>)
    requires Lawful(m)
    reads starts, ends
    ensures Tabulates(m, starts, ends, d)
  {
    seq(|starts|, p requires 0 <= p < |starts| reads starts, ends =>
      seq(|ends|, q requires 0 <= q < |ends| reads starts, ends => PairDistance(m, starts[p], ends[q])))
  }

  ghost predicate Rectangular(d: seq<seq<Outcome<real>>>, cols: int) {
    forall p :: 0 <= p < |d| ==> |d[p]| == cols
  }

  /** Every distance in the table is below the initial minimum, the largest float. */
  ghost predicate BelowFloatMax(d: seq<seq<Outcome<real>>>) {
    forall p, q :: 0 <= p < |d| && 0 <= q < |d[p]| && d[p][q].Ok? ==> d[p][q].value < FLOAT_MAX
  }

  /** The distance of a pair that has one; 0.0 stands in for a raised error. */
  ghost function Value(o: Outcome<real>): real {
    if o.Ok? then o.value else 0.0
  }

  /** The search state: the indices and distance of the minimum so far, or the raised error. */
  datatype Search = Searching(bi: int, bj: int, minDistance: real) | Failed

  /** `indices = [-1, -1]` and `minDistance = sys.float_info.max`. */
  const INITIAL_SEARCH: Search := Searching(-1, -1, FLOAT_MAX)

  /** Visiting pair (i, j) with distance `o`: `acos` raising ends the search; a strictly smaller distance takes over. */
  function Visit(s: Search, o: Outcome<real>, i: int, j: int): Search {
    if s.Failed? || o.Raise? then Failed
    else if o.value < s.minDistance then Searching(i, j, o.value)
    else s
  }

  /** `findMinimumDistanceIndices` returns the indices held at the end, or raises when the search failed. */
  function SearchOutcome(s: Search): (r: Outcome<(int, int)>)
    ensures r.Raise? <==> s.Failed?
    ensures r.Raise? ==> r.fault == MathDomainError
    ensures r.Ok? ==> r.value == (s.bi, s.bj)
  {
    if s.Failed? then Raise(MathDomainError) else Ok((s.bi, s.bj))
  }

  /** The state of the nested loops of `findMinimumDistanceIndices` just before pair (i, j). */
  ghost function SearchBefore(d: seq<seq<Outcome<real>>>, cols: nat, i: nat, j: nat): Search
    requires Rectangular(d, cols) && i <= |d| && j <= cols && (j == 0 || i < |d|)
    decreases i, j
  {
    if j == 0 then
      if i == 0 || cols == 0 then INITIAL_SEARCH else SearchBefore(d, cols, i - 1, cols)
    else
      Visit(SearchBefore(d, cols, i, j - 1), d[i][j - 1], i, j - 1)
  }

  /** Every pair visited before (i, j) has a distance. */
  ghost predicate DefinedBefore(d: seq<seq<Outcome<real>>>, cols: int, i: int, j: int)
    requires Rectangular(d, cols)
  {
    forall p, q :: 0 <= p < |d| && 0 <= q < cols && Before(p, q, i, j) ==> d[p][q].Ok?
  }

  /**
   * Among the pairs visited before (i, j), (bi, bj) has the smallest distance,
   * and every pair visited before it has a strictly larger one.
   */
  ghost predicate FirstMinimumBefore(d: seq<seq<Outcome<real>>>, cols: int, i: int, j: int, bi: int, bj: int)
    requires Rectangular(d, cols)
  {
    && 0 <= bi < |d| && 0 <= bj < cols && Before(bi, bj, i, j)
    && (forall p, q :: 0 <= p < |d| && 0 <= q < cols && Before(p, q, i, j) ==>
          Value(d[bi][bj]) <= Value(d[p][q]))
    && (forall p, q :: 0 <= p < |d| && 0 <= q < cols && Before(p, q, bi, bj) ==>
          Value(d[bi][bj]) < Value(d[p][q]))
  }

  /** The search has failed exactly when some pair visited so far has no distance. */
  lemma {:induction false} SearchFailsIffUndefined(d: seq<seq<Outcome<real>>>, cols: nat, i: nat, j: nat)
    requires Rectangular(d, cols) && i <= |d| && j <= cols && (j == 0 || i < |d|)
    ensures SearchBefore(d, cols, i, j).Failed? <==> !DefinedBefore(d, cols, i, j)
    decreases i, j
  {
    if j == 0 {
      if i == 0 || cols == 0 {
      } else {
        SearchFailsIffUndefined(d, cols, i - 1, cols);
        assert DefinedBefore(d, cols, i, 0) == DefinedBefore(d, cols, i - 1, cols);
      }
    } else {
      SearchFailsIffUndefined(d, cols, i, j - 1);
      if DefinedBefore(d, cols, i, j - 1) && d[i][j - 1].Ok? {
        assert DefinedBefore(d, cols, i, j);
      }
    }
  }

  /**
   * While the search runs, it holds the first minimum of the pairs visited so
   * far and its distance; before any pair is visited it holds [-1, -1] and the
   * largest float.
   */
  lemma {:induction false} SearchFindsFirstMinimum(d: seq<seq<Outcome<real>>>, cols: nat, i: nat, j: nat)
    requires Rectangular(d, cols) && BelowFloatMax(d) && i <= |d| && j <= cols && (j == 0 || i < |d|)
    requires SearchBefore(d, cols, i, j).Searching?
    ensures (i == 0 && j == 0) || cols == 0 ==> SearchBefore(d, cols, i, j) == INITIAL_SEARCH
    ensures !((i == 0 && j == 0) || cols == 0) ==>
              var s := SearchBefore(d, cols, i, j);
              FirstMinimumBefore(d, cols, i, j, s.bi, s.bj) && s.minDistance == Value(d[s.bi][s.bj])
    decreases i, j
  {
    if j == 0 {
      if i == 0 || cols == 0 {
      } else {
        SearchFindsFirstMinimum(d, cols, i - 1, cols);
      }
    } else {
      var prev := SearchBefore(d, cols, i, j - 1);
      SearchFindsFirstMinimum(d, cols, i, j - 1);
      if i == 0 && j - 1 == 0 {
        assert d[0][0].value < FLOAT_MAX;
      } else {
        VisitKeepsFirstMinimum(d, cols, i, j - 1, prev);
      }
    }
  }

  /** One visit after the first: a strictly smaller distance takes over, otherwise the minimum stays. */
  lemma VisitKeepsFirstMinimum(d: seq<seq<Outcome<real>>>, cols: nat, i: nat, j: nat, s: Search)
    requires Rectangular(d, cols) && i < |d| && j < cols && s.Searching? && d[i][j].Ok?
    requires FirstMinimumBefore(d, cols, i, j, s.bi, s.bj) && s.minDistance == Value(d[s.bi][s.bj])
    ensures var t := Visit(s, d[i][j], i, j);
            FirstMinimumBefore(d, cols, i, j + 1, t.bi, t.bj) && t.minDistance == Value(d[t.bi][t.bj])
  {
  }

  /** All pairs have a distance exactly when the table has no raised entry; no distance reaches the largest float. */
  lemma TableDefined(m: MathLib, starts: seq<Point>, ends: seq<Point>, d: seq<seq<Outcome<real>>>)
    requires Lawful(m) && Tabulates(m, starts, ends, d)
    ensures DefinedBefore(d, |ends|, |starts|, 0) <==> AllPairsDefined(m, starts, ends)
    ensures BelowFloatMax(d)
  {
    if DefinedBefore(d, |ends|, |starts|, 0) {
      forall p, q | 0 <= p < |starts| && 0 <= q < |ends|
        ensures PairDistance(m, starts[p], ends[q]).Ok?
      {
        assert Before(p, q, |starts|, 0);
        assert d[p][q].Ok?;
      }
    }
    if AllPairsDefined(m, starts, ends) {
      forall p, q | 0 <= p < |starts| && 0 <= q < |ends| && Before(p, q, |starts|, 0)
        ensures d[p][q].Ok?
      {
        assert PairDistance(m, starts[p], ends[q]).Ok?;
      }
    }
    forall p, q | 0 <= p < |d| && 0 <= q < |d[p]| && d[p][q].Ok?
      ensures d[p][q].value < FLOAT_MAX
    {
      assert d[p][q] == PairDistance(m, starts[p], ends[q]);
    }
  }

  /**
   * `findMinimumDistanceIndices`: runs the nested loops over every (start, end)
   * pair and returns the indices held by the search after the last pair, or
   * raises the math domain error of the first pair whose cosine leaves [-1, 1].
   */
  method FindMinimumDistanceIndices(m: MathLib, starts: seq<Point>, ends: seq<Point>, ghost d: seq<seq<Outcome<real>>>)
    returns (r: Outcome<(int, int)>)
    requires Lawful(m) && Tabulates(m, starts, ends, d)
    ensures r == SearchOutcome(SearchBefore(d, |ends|, |starts|, 0))
  {
    var bi, bj := -1, -1;
    var minDistance := FLOAT_MAX;
    var i := 0;
    while i < |starts|
      invariant 0 <= i <= |starts|
      invariant SearchBefore(d, |ends|, i, 0) == Searching(bi, bj, minDistance)
    {
      var failed;
      failed, bi, bj, minDistance := ScanRow(m, starts, ends, d, i, bi, bj, minDistance);
      if failed {
        return Raise(MathDomainError);
      }
      SearchNextRow(d, |ends|, i);
      i := i + 1;
    }
    r := Ok((bi, bj));
  }

  /**
   * The inner loop of `findMinimumDistanceIndices` over the end points for
   * start point i: the search state after the row, or `failed` when a
   * distance of the row raised (and then the whole search has failed).
   */
  method ScanRow(m: MathLib, starts: seq<Point>, ends: seq<Point>, ghost d: seq<seq<Outcome<real>>>, i: nat,
                 bi0: int, bj0: int, min0: real)
    returns (failed: bool, bi: int, bj: int, minDistance: real)
    requires Lawful(m) && Tabulates(m, starts, ends, d) && i < |starts|
    requires SearchBefore(d, |ends|, i, 0) == Searching(bi0, bj0, min0)
    ensures failed ==> SearchBefore(d, |ends|, |starts|, 0).Failed?
    ensures !failed ==> SearchBefore(d, |ends|, i, |ends|) == Searching(bi, bj, minDistance)
  {
    bi, bj, minDistance := bi0, bj0, min0;
    var j := 0;
    while j < |ends|
      invariant 0 <= j <= |ends|
      invariant SearchBefore(d, |ends|, i, j) == Searching(bi, bj, minDistance)
    {
      var distance := CosineLawDistance(m, starts[i].GetLatitude(), starts[i].GetLongitude(),
                                        ends[j].GetLatitude(), ends[j].GetLongitude());
      assert distance == d[i][j];
      SearchAdvance(d, |ends|, i, j);
      if distance.Raise? {
        FailedStaysFailed(d, |ends|, i, j + 1);
        return true, bi, bj, minDistance;
      }
      if distance.value < minDistance {
        bi, bj := i, j;
        minDistance := distance.value;
      }
      j := j + 1;
    }
    failed := false;
  }

  lemma TableExists(m: MathLib, starts: seq<Point>, ends: seq<Point>)
    requires Lawful(m)
    ensures exists d :: Tabulates(m, starts, ends, d)
  {
    var d := DistanceTable(m, starts, ends);
  }

  /** Visiting pair (i, j) moves the search state from before (i, j) to before (i, j + 1). */
  lemma SearchAdvance(d: seq<seq<Outcome<real>>>, cols: nat, i: nat, j: nat)
    requires Rectangular(d, cols) && i < |d| && j < cols
    ensures SearchBefore(d, cols, i, j + 1) == Visit(SearchBefore(d, cols, i, j), d[i][j], i, j)
  {
  }

  /** The state at the end of row i is the state at the start of row i + 1. */
  lemma SearchNextRow(d: seq<seq<Outcome<real>>>, cols: nat, i: nat)
    requires Rectangular(d, cols) && i < |d|
    ensures SearchBefore(d, cols, i + 1, 0) == SearchBefore(d, cols, i, cols)
  {
  }

  /** Once the search has failed, it stays failed up to the end of the table. */
  lemma {:induction false} FailedStaysFailed(d: seq<seq<Outcome<real>>>, cols: nat, i: nat, j: nat)
    requires Rectangular(d, cols) && i < |d| && j <= cols
    requires SearchBefore(d, cols, i, j).Failed?
    ensures SearchBefore(d, cols, |d|, 0).Failed?
  {
    SearchFailsIffUndefined(d, cols, i, j);
    SearchFailsIffUndefined(d, cols, |d|, 0);
  }

  /** `findMinimumDistanceIndices` returns [-1, -1] when either list is empty. */
  lemma FindMinimumOfEmpty(m: MathLib, starts: seq<Point>, ends: seq<Point>, d: seq<seq<Outcome<real>>>)
    requires Lawful(m) && Tabulates(m, starts, ends, d) && (|starts| == 0 || |ends| == 0)
    ensures SearchOutcome(SearchBefore(d, |ends|, |starts|, 0)) == Ok((-1, -1))
  {
  }

  /** `findMinimumDistanceIndices` raises exactly when some pair has no distance. */
  lemma FindMinimumRaisesIffUndefined(m: MathLib, starts: seq<Point>, ends: seq<Point>, d: seq<seq<Outcome<real>>>)
    requires Lawful(m) && Tabulates(m, starts, ends, d)
    ensures SearchOutcome(SearchBefore(d, |ends|, |starts|, 0)).Ok? <==> AllPairsDefined(m, starts, ends)
  {
    TableDefined(m, starts, ends, d);
    SearchFailsIffUndefined(d, |ends|, |starts|, 0);
  }

  /**
   * On non-empty lists, `findMinimumDistanceIndices` returns indices in range
   * whose distance is at most that of every pair and strictly below that of
   * every pair before it in row-major order.
   */
  lemma FindMinimumIsFirstMinimum(m: MathLib, starts: seq<Point>, ends: seq<Point>, d: seq<seq<Outcome<real>>>)
    requires Lawful(m) && Tabulates(m, starts, ends, d) && 0 < |starts| && 0 < |ends|
    requires SearchOutcome(SearchBefore(d, |ends|, |starts|, 0)).Ok?
    ensures var (bi, bj) := SearchOutcome(SearchBefore(d, |ends|, |starts|, 0)).value;
            && 0 <= bi < |starts| && 0 <= bj < |ends|
            && PairDistance(m, starts[bi], ends[bj]).Ok?
            && (forall p, q :: 0 <= p < |starts| && 0 <= q < |ends| ==> PairDistance(m, starts[p], ends[q]).Ok?)
            && (forall p, q :: 0 <= p < |starts| && 0 <= q < |ends| ==>
                  PairDistance(m, starts[bi], ends[bj]).value <= PairDistance(m, starts[p], ends[q]).value)
            && (forall p, q :: 0 <= p < |starts| && 0 <= q < |ends| && Before(p, q, bi, bj) ==>
                  PairDistance(m, starts[bi], ends[bj]).value < PairDistance(m, starts[p], ends[q]).value)
  {
    FindMinimumRaisesIffUndefined(m, starts, ends, d);
    TableDefined(m, starts, ends, d);
    SearchFindsFirstMinimum(d, |ends|, |starts|, 0);
    var s := SearchBefore(d, |ends|, |starts|, 0);
    var bi, bj := s.bi, s.bj;
    assert d[bi][bj] == PairDistance(m, starts[bi], ends[bj]);
    forall p, q | 0 <= p < |starts| && 0 <= q < |ends|
      ensures PairDistance(m, starts[bi], ends[bj]).value <= PairDistance(m, starts[p], ends[q]).value
      ensures Before(p, q, bi, bj) ==>
                PairDistance(m, starts[bi], ends[bj]).value < PairDistance(m, starts[p], ends[q]).value
    {
      assert Before(p, q, |starts|, 0);
      assert d[p][q] == PairDistance(m, starts[p], ends[q]);
    }
  }

  /**
   * `findMinimumDistanceLocation` assigns into an empty list, so it always
   * raises: IndexError once the indices are found, or the math domain error
   * of the search itself.
   */
  method FindMinimumDistanceLocation(m: MathLib, starts: seq<Point>, ends: seq<Point>)
    returns (r: Outcome<(Point, Point)>)
    requires Lawful(m)
    ensures r.Raise?
    ensures r.fault == IndexError <==> AllPairsDefined(m, starts, ends)
  {
    TableExists(m, starts, ends);
    ghost var d :| Tabulates(m, starts, ends, d);
    var ixes := FindMinimumDistanceIndices(m, starts, ends, d);
    FindMinimumRaisesIffUndefined(m, starts, ends, d);
    if ixes.Raise? {
      return Raise(ixes.fault);
    }
    var positions: seq<Point> := [];
    r := Raise(IndexError);
  }
}
