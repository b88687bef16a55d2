/**
 * The shared constants and the angle and unit conversions of the navigation
 * package: degrees and radians, sign, truncation to n decimals, and
 * degree-minute-second (or hour-minute-second) triples.
 */
module NavCommon {
  import PyMath

  const C_MS_PER_NM: real := 6.177606
  const HR_PER_SEC: real := 0.0002777777778
  const INDEX_REF_SEA: real := 1.000338
  const LAT_TOLERANCE: real := 1.483529864
  const NM_PER_RADIAN: real := 3437.74677078
  const NM_PER_DEGREE: real := 60.0
  const FT_PER_NM: real := 6076.1
  const PI: real := PyMath.PI
  const PI_OVER_2: real := 1.570796327
  const PI_OVER_180: real := PI / 180.0
  const RAD_TO_DEGREE: real := 180.0 / PI
  const DEGREE_TO_RAD: real := PI_OVER_180
  const PI2: real := 6.283185307
  const RADIANS_PER_NM: real := 0.00029080
  const RAD_45: real := 0.785398163
  const RAD_85: real := 1.483529864
  const RAD_90: real := PI_OVER_2
  const RAD_180: real := PI
  const RAD_270: real := 4.712389
  const RAD_360: real := PI2
  const EARTH_RADIUS_NM: real := 3444.0
  const RAD_FIVE_MILES: real := 0.001455825

  /** A degree-minute-second (or hour-minute-second) list `[d, m, s]`. */
  datatype DMS = DMS(deg: real, min: real, sec: real)

  function ToRadians(deg: real): (r: real)
    ensures r / PI_OVER_180 == deg
    ensures (0.0 < r <==> 0.0 < deg) && (r < 0.0 <==> deg < 0.0)
  {
    PI_OVER_180 * deg
  }

  function ToDegrees(rad: real): (r: real)
    ensures PI_OVER_180 * r == rad
    ensures (0.0 < r <==> 0.0 < rad) && (r < 0.0 <==> rad < 0.0)
  {
    rad / PI_OVER_180
  }

  /** Both conversions are the linear scaling by pi/180 and undo each other. */
  lemma DegreesRadiansRoundTrip(d: real, a: real)
    ensures ToDegrees(ToRadians(d)) == d && ToRadians(ToDegrees(a)) == a
    ensures ToRadians(180.0) == PI && ToDegrees(PI) == 180.0
    ensures ToRadians(d + a) == ToRadians(d) + ToRadians(a)
  {
  }

  /** `(x > 0) - (x < 0)`. */
  function Signum(x: real): (r: int)
    ensures r == -1 || r == 0 || r == 1
    ensures (r == 1 <==> 0.0 < x) && (r == -1 <==> x < 0.0) && (r == 0 <==> x == 0.0)
    ensures r as real * x >= 0.0
  {
    (if x > 0.0 then 1 else 0) - (if x < 0.0 then 1 else 0)
  }

  /** Python's `abs` on a float. */
  function Abs(x: real): (r: real)
    ensures 0.0 <= r && (r == x || r == -x)
  {
    if x < 0.0 then -x else x
  }

  /** Python's `int(x)` on a float: truncation toward zero. */
  function Trunc(x: real): (r: int)
    ensures 0.0 <= x ==> r as real <= x < r as real + 1.0
    ensures x < 0.0 ==> r as real - 1.0 < x <= r as real
  {
    if 0.0 <= x then x.Floor else -((-x).Floor)
  }

  /** `10 ** n`. */
  function Pow10(n: nat): (r: real)
    ensures 1.0 <= r
  {
    if n == 0 then 1.0 else 10.0 * Pow10(n - 1)
  }

  /** r has at most n decimals: r * 10^n is a whole number. */
  ghost predicate HasDecimals(r: real, n: nat) {
    (r * Pow10(n)).Floor as real == r * Pow10(n)
  }

  /** `math.floor(f * 10 ** n) / 10 ** n`: rounds down to n decimals, never to nearest. */
  function Truncate(f: real, n: nat): (r: real)
    ensures r <= f < r + 1.0 / Pow10(n)
    ensures HasDecimals(r, n)
  {
    var p := Pow10(n);
    var k := (f * p).Floor;
    DivideFloor(f, p, k);
    WholeQuotient(k, n);
    k as real / p
  }

  lemma WholeQuotient(k: int, n: nat)
    ensures HasDecimals(k as real / Pow10(n), n)
  {
    var p := Pow10(n);
    var x := k as real / p;
    assert x * p == k as real;
  }

  lemma DivideFloor(f: real, p: real, k: int)
    requires 1.0 <= p && k == (f * p).Floor
    ensures k as real / p <= f < k as real / p + 1.0 / p
    ensures (k as real / p) * p == k as real
  {
    assert k as real <= f * p < k as real + 1.0;
    DivideMonotone(k as real, f * p, p);
    DivideMonotoneStrict(f * p, k as real + 1.0, p);
    assert (f * p) / p == f;
    assert (k as real + 1.0) / p == k as real / p + 1.0 / p;
  }

  lemma DivideMonotone(a: real, b: real, p: real)
    requires 0.0 < p && a <= b
    ensures a / p <= b / p
  {
    assert b / p - a / p == (b - a) / p;
  }

  lemma DivideMonotoneStrict(a: real, b: real, p: real)
    requires 0.0 < p && a < b
    ensures a / p < b / p
  {
    assert b / p - a / p == (b - a) / p;
  }

  /** `dms2dec`: degrees plus minutes/60 plus seconds/3600. */
  function Dms2Dec(dms: DMS): (r: real)
    ensures r - dms.deg == dms.min / 60.0 + dms.sec / 3600.0
  {
    dms.deg + dms.min / 60.0 + dms.sec / 3600.0
  }

  /**
   * The minutes and seconds are always added: the sign of the whole value comes
   * from the degrees alone, so [-74, 30, 0] is -73.5 and not -74.5.
   */
  lemma Dms2DecSignFromDegrees(d: real, m: real, s: real)
    requires 0.0 <= m && 0.0 <= s && (0.0 < m || 0.0 < s)
    ensures Dms2Dec(DMS(-d, m, s)) != -Dms2Dec(DMS(d, m, s))
    ensures Dms2Dec(DMS(d, m, s)) > d
  {
  }

  /** `hms2hrs`: an hour-minute-second list in decimal hours, the same arithmetic as `dms2dec`. */
  function Hms2Hrs(hms: DMS): (r: real)
    ensures r == Dms2Dec(hms)
    ensures 0.0 <= hms.min && 0.0 <= hms.sec ==> hms.deg <= r
  {
    Dms2Dec(hms)
  }

  /** The constant 5e-8 that `dec2dms` adds before truncating the seconds. */
  const SEC_BIAS: real := 0.00000005

  /**
   * `dec2dms`: whole degrees of |x| (the sign of x is dropped), whole minutes in
   * [0, 59] and seconds truncated to 7 decimals in [0, 60].  Reading the triple
   * back gives |x| to within 5e-8 seconds.
   */
  function Dec2Dms(x: real): (r: DMS)
    ensures r.deg == Abs(x).Floor as real && 0.0 <= r.deg
    ensures r.min.Floor as real == r.min && 0.0 <= r.min <= 59.0
    ensures 0.0 <= r.sec <= 60.0
    ensures -SEC_BIAS / 3600.0 < Dms2Dec(r) - Abs(x) <= SEC_BIAS / 3600.0
  {
    var decdeg := Abs(x);
    var ideg := Trunc(decdeg);
    var d := decdeg - ideg as real;
    var imin := Trunc(d * 60.0);
    var v := (d * 60.0 - imin as real) * 60.0;
    var sec := Truncate(v + SEC_BIAS, 7);
    SecondsInRange(v, sec);
    DMS(ideg as real, imin as real, sec)
  }

  lemma SecondsInRange(v: real, sec: real)
    requires 0.0 <= v < 60.0 && sec == Truncate(v + SEC_BIAS, 7)
    ensures 0.0 <= sec <= 60.0
  {
    var p := Pow10(7);
    assert p == 10000000.0;
    var k := ((v + SEC_BIAS) * p).Floor;
    assert sec == k as real / p;
    assert (v + SEC_BIAS) * p < 600000000.5;
    assert 0 <= k <= 600000000;
  }

  /**
   * `normalizeDMS`: whole seconds of 60 or more move into the minutes by true
   * division; minutes of 60 or more add their whole hours to |degrees| without
   * being reduced; the degrees get the sign of the input degrees, which makes
   * them |degrees| when there is no minute carry and 0 when they were 0.
   */
  function NormalizeDMS(dms: DMS): (r: DMS)
    ensures r.deg == 0.0 <==> dms.deg == 0.0
    ensures 0.0 <= dms.deg ==> 0.0 <= r.deg
    ensures r.sec <= dms.sec
    ensures 60.0 * r.min + r.sec == 60.0 * dms.min + dms.sec
  {
    var sgn := Signum(dms.deg);
    var isec := Trunc(dms.sec);
    var a1 := isec as real / 60.0;
    var imin := if isec >= 60 then dms.min + a1 else dms.min;
    var sec := if isec >= 60 then dms.sec - 60.0 * a1 else dms.sec;
    var ideg := if imin >= 60.0 then Abs(dms.deg) + Trunc(imin / 60.0) as real
                else dms.deg;
    DMS(ideg * sgn as real, imin, sec)
  }

  /** The minutes after the seconds carry of `NormalizeDMS`. */
  function CarriedMinutes(dms: DMS): real {
    var isec := Trunc(dms.sec);
    if isec >= 60 then dms.min + isec as real / 60.0 else dms.min
  }

  /**
   * Seconds carry: all whole seconds move into the minutes (true division, so the
   * minutes may become fractional) and only the fraction of a second remains.
   */
  lemma NormalizeSecondsCarry(dms: DMS)
    requires Trunc(dms.sec) >= 60
    ensures NormalizeDMS(dms).min == dms.min + Trunc(dms.sec) as real / 60.0
    ensures NormalizeDMS(dms).sec == dms.sec - Trunc(dms.sec) as real
    ensures 0.0 <= NormalizeDMS(dms).sec < 1.0
  {
  }

  /** Without a seconds carry the minutes and seconds are returned unchanged. */
  lemma NormalizeNoSecondsCarry(dms: DMS)
    requires Trunc(dms.sec) < 60
    ensures NormalizeDMS(dms).min == dms.min && NormalizeDMS(dms).sec == dms.sec
  {
  }

  /**
   * Minute carry: whole hours of minutes are added to |degrees|, the sign of the
   * input degrees is applied, and the minutes are NOT reduced below 60.
   */
  lemma NormalizeMinuteCarry(dms: DMS)
    requires CarriedMinutes(dms) >= 60.0
    ensures NormalizeDMS(dms).min == CarriedMinutes(dms) >= 60.0
    ensures NormalizeDMS(dms).deg
         == (Abs(dms.deg) + (CarriedMinutes(dms) / 60.0).Floor as real)
            * Signum(dms.deg) as real
  {
  }

  /** Without a minute carry the degrees become deg * signum(deg), that is |deg|: the sign is lost. */
  lemma NormalizeNoMinuteCarry(dms: DMS)
    requires CarriedMinutes(dms) < 60.0
    ensures NormalizeDMS(dms).deg == Abs(dms.deg)
    ensures dms.deg < 0.0 ==> NormalizeDMS(dms).deg == -dms.deg > 0.0
  {
  }

  /** `normalizeHMS`: the same normalisation applied to hours, minutes and seconds. */
  function NormalizeHMS(hms: DMS): (r: DMS)
    ensures r == NormalizeDMS(hms)
  {
    NormalizeDMS(hms)
  }
}
