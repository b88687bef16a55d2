/**
 * Planar algorithms on lists of Points, taking longitude as x and latitude as
 * y: the westmost point, the left-of-line and orientation tests, a stack-based
 * hull scan, ordering by bearing from the westmost point, and the in-place
 * reordering `angleSort`.  Geometry keeps no state of its own, so its
 * operations are module-level members.
 */
module Geometry {
  import opened Outcomes
  import opened PyMath
  import opened NavCommon
  import opened Points
  import opened PyLists
  import NavUtils

  // ---------------------------------------------------------------------------
  // Orientation of three points

  /** The `Orientation` enum. */
  datatype Orientation = CCW | CW | COLL {
    /** The member's `name`. */
    function Name(): (s: string)
      ensures s == "CCW" <==> this == CCW
      ensures s == "CW" <==> this == CW
      ensures s == "COLL" <==> this == COLL
    {
      match this
      case CCW => "CCW"
      case CW => "CW"
      case COLL => "COLL"
    }
  }

  /**
   * The Python values `angleSort` compares: a string, or a member of the
   * Orientation enum.  Python's `==` between them is their equality as values,
   * so a string never equals an enum member.
   */
  datatype PyValue = Str(s: string) | Member(o: Orientation)

  /**
   * The determinant `orientation` computes, with lon as x and lat as y: the
   * cross product `isLeft` computes, zero when two of the points coincide.
   */
  function Det(lat1: real, lon1: real, lat2: real, lon2: real, lat3: real, lon3: real): (r: real)
    ensures r == Cross(lat1, lon1, lat2, lon2, lat3, lon3)
    ensures (lat1 == lat2 && lon1 == lon2) || (lat2 == lat3 && lon2 == lon3) || (lat1 == lat3 && lon1 == lon3) ==> r == 0.0
  {
    lon1 * (lat2 - lat3) - lon2 * (lat1 - lat3) + lon3 * (lat1 - lat2)
  }

  /** The cross product `isLeft` computes: (e - s) x (p - s), with lon as x and lat as y. */
  function Cross(sLat: real, sLon: real, eLat: real, eLon: real, pLat: real, pLon: real): real {
    (eLon - sLon) * (pLat - sLat) - (pLon - sLon) * (eLat - sLat)
  }

  /** `isLeft(s, e, p)`: p lies strictly to the left of the directed line from s to e. */
  function IsLeft(s: Point, e: Point, p: Point): (r: bool)
    reads s, e, p
    ensures r <==> Det(s.lat, s.lon, e.lat, e.lon, p.lat, p.lon) > 0.0
    ensures r ==> !(s.lat == e.lat && s.lon == e.lon) && !(p.lat == s.lat && p.lon == s.lon)
  {
    Cross(s.lat, s.lon, e.lat, e.lon, p.lat, p.lon) > 0.0
  }

  /**
   * `orientation(a, b, c)`: the NAME of the enum member ("CW" for a negative
   * determinant, "CCW" for a positive one, "COLL" for zero), a string and not
   * the member itself.
   */
  function OrientationOf(a: Point, b: Point, c: Point): (s: string)
    reads a, b, c
    ensures s == "CW" <==> Det(a.lat, a.lon, b.lat, b.lon, c.lat, c.lon) < 0.0
    ensures s == "CCW" <==> Det(a.lat, a.lon, b.lat, b.lon, c.lat, c.lon) > 0.0
    ensures s == "COLL" <==> Det(a.lat, a.lon, b.lat, b.lon, c.lat, c.lon) == 0.0
  {
    var det := Det(a.lat, a.lon, b.lat, b.lon, c.lat, c.lon);
    if det < 0.0 then CW.Name()
    else if det > 0.0 then CCW.Name()
    else COLL.Name()
  }

  /** Swapping two vertices negates the determinant. */
  lemma DetSwap(lat1: real, lon1: real, lat2: real, lon2: real, lat3: real, lon3: real)
    ensures Det(lat1, lon1, lat3, lon3, lat2, lon2) == -Det(lat1, lon1, lat2, lon2, lat3, lon3)
    ensures Det(lat2, lon2, lat1, lon1, lat3, lon3) == -Det(lat1, lon1, lat2, lon2, lat3, lon3)
  {
    assert lon1 * (lat3 - lat2) == -(lon1 * (lat2 - lat3));
    assert lon3 * (lat1 - lat2) == -(lon3 * (lat2 - lat1));
    assert lon2 * (lat1 - lat3) == -(lon2 * (lat3 - lat1));
    assert lon1 * (lat2 - lat3) == -(lon1 * (lat3 - lat2));
    assert lon2 * (lat3 - lat1) == -(lon2 * (lat1 - lat3));
  }

  /** p is left of s -> e exactly when (s, e, p) is counter-clockwise. */
  lemma IsLeftIsCounterClockwise(s: Point, e: Point, p: Point)
    ensures IsLeft(s, e, p) <==> OrientationOf(s, e, p) == "CCW"
  {
  }

  /** Reversing the line moves a point from its left to its right: isLeft(s, e, p) excludes isLeft(e, s, p). */
  lemma IsLeftAntisymmetric(s: Point, e: Point, p: Point)
    ensures IsLeft(s, e, p) ==> !IsLeft(e, s, p)
    ensures !IsLeft(s, e, p) && Cross(s.lat, s.lon, e.lat, e.lon, p.lat, p.lon) != 0.0 ==> IsLeft(e, s, p)
  {
    DetSwap(s.lat, s.lon, e.lat, e.lon, p.lat, p.lon);
  }

  /** Swapping the second and third points exchanges "CW" and "CCW" and keeps "COLL". */
  lemma OrientationSwap(a: Point, b: Point, c: Point)
    ensures OrientationOf(a, b, c) == "CW" <==> OrientationOf(a, c, b) == "CCW"
    ensures OrientationOf(a, b, c) == "CCW" <==> OrientationOf(a, c, b) == "CW"
    ensures OrientationOf(a, b, c) == "COLL" <==> OrientationOf(a, c, b) == "COLL"
  {
    DetSwap(a.lat, a.lon, b.lat, b.lon, c.lat, c.lon);
  }

  /** The result of `orientation` compared with any enum member, as `angleSort` does, is always False. */
  lemma OrientationNeverEqualsMember(a: Point, b: Point, c: Point, o: Orientation)
    ensures Str(OrientationOf(a, b, c)) != Member(o)
    ensures OrientationOf(a, b, c) == o.Name() <==>
              || (o == CW && Det(a.lat, a.lon, b.lat, b.lon, c.lat, c.lon) < 0.0)
              || (o == CCW && Det(a.lat, a.lon, b.lat, b.lon, c.lat, c.lon) > 0.0)
              || (o == COLL && Det(a.lat, a.lon, b.lat, b.lon, c.lat, c.lon) == 0.0)
  {
  }

  // ---------------------------------------------------------------------------
  // Heading

  /**
   * `calculateHeading`: the Exception when either latitude is beyond 85
   * degrees; otherwise the absolute bearing, in degrees in [-180, 180], by the
   * same special cases and Mercator formula as the bearing of NavUtils.
   */
  function CalculateHeading(m: MathLib, a: Point, b: Point): (r: Outcome<real>)
    requires Lawful(m)
    reads a, b
    ensures r.Raise? && r.fault == TrackAbove85 <==> NavUtils.Above85(a.lat, b.lat)
    ensures r.Ok? ==> -180.0 <= r.value <= 180.0
  {
    if NavUtils.Above85(a.lat, b.lat) then
      Raise(TrackAbove85)
    else
      var abs :- NavUtils.AbsoluteBearing(m, ToRadians(a.lat), ToRadians(a.lon), ToRadians(b.lat), ToRadians(b.lon));
      NavUtils.DegreesOfBounded(abs);
      Ok(ToDegrees(abs))
  }

  /**
   * The special cases of the heading: a latitude change under 5e-5 rad gives
   * +-90 degrees by the sign of the wrapped longitude change; failing that, a
   * longitude change under 5e-6 rad gives 0 or 180 degrees.
   */
  lemma HeadingSpecialCases(m: MathLib, a: Point, b: Point)
    requires Lawful(m) && !NavUtils.Above85(a.lat, b.lat)
    ensures
      var delLat := ToRadians(b.lat) - ToRadians(a.lat);
      var delLong := NavUtils.WrapDelta(ToRadians(b.lon) - ToRadians(a.lon));
      && (-NavUtils.LAT_ERROR < delLat < NavUtils.LAT_ERROR ==>
            CalculateHeading(m, a, b) == Ok(ToDegrees(if delLong >= 0.0 then RAD_90 else -RAD_90)))
      && (!(-NavUtils.LAT_ERROR < delLat < NavUtils.LAT_ERROR) && -NavUtils.LONG_ERROR < delLong < NavUtils.LONG_ERROR ==>
            CalculateHeading(m, a, b) == Ok(if b.lat >= a.lat then 0.0 else 180.0))
  {
    if ToRadians(b.lat) < ToRadians(a.lat) {
      DegreesRadiansRoundTrip(0.0, NavCommon.PI);
    }
  }

  // ---------------------------------------------------------------------------
  // Westmost point

  /**
   * The state of `selectFirstPoint`'s scan once indices 1 .. i-1 are examined:
   * the index of the westmost point so far, or the IndexError raised when a
   * point ties the current westmost longitude (`westIx[count] = i` writes past
   * the end of the one-element list `westIx`).
   */
  function WestScan(points: seq<Point>, i: nat): (r: Outcome<nat>)
    requires 1 <= i <= |points|
    reads points
    ensures r.Ok? ==> r.value < i
    ensures r.Raise? ==> r.fault == IndexError
  {
    if i == 1 then Ok(0)
    else
      var ix :- WestScan(points, i - 1);
      if points[ix].lon > points[i - 1].lon then Ok(i - 1)
      else if points[ix].lon == points[i - 1].lon then Raise(IndexError)
      else Ok(ix)
  }

  /** Where the scan of `selectFirstPoint` stops: `range(1, n - 1)` never reaches the last point. */
  function ScanEnd(n: nat): (e: nat)
    requires 1 <= n
    ensures 1 <= e <= n && (n >= 2 ==> e == n - 1)
  {
    if n < 2 then 1 else n - 1
  }

  /** What `selectFirstPoint` returns or raises; an empty list raises at `thePoints[0]`. */
  function SelectFirst(points: seq<Point>): (r: Outcome<nat>)
    reads points
    ensures r.Ok? ==> r.value < |points|
  {
    if |points| == 0 then Raise(IndexError) else WestScan(points, ScanEnd(|points|))
  }

  /** Point j has the smallest longitude among points 0 .. j, shared with an earlier point. */
  predicate TiesWestmost(points: seq<Point>, j: nat)
    requires j < |points|
    reads points
  {
    && (forall k :: 0 <= k < j ==> points[j].lon <= points[k].lon)
    && (exists k :: 0 <= k < j && points[k].lon == points[j].lon)
  }

  /** ix is the first index of the smallest longitude among points 0 .. bound-1. */
  predicate FirstWestmost(points: seq<Point>, ix: nat, bound: nat)
    requires bound <= |points|
    reads points
  {
    && ix < bound
    && (forall k :: 0 <= k < bound ==> points[ix].lon <= points[k].lon)
    && (forall k :: 0 <= k < ix ==> points[ix].lon < points[k].lon)
  }

  /**
   * The scan up to i raises exactly when some point 1 <= j < i ties the
   * westmost longitude before it; otherwise it holds the first westmost index.
   */
  lemma {:induction false} WestScanMeaning(points: seq<Point>, i: nat)
    requires 1 <= i <= |points|
    ensures WestScan(points, i).Raise? <==> exists j :: 1 <= j < i && TiesWestmost(points, j)
    ensures WestScan(points, i).Ok? ==> FirstWestmost(points, WestScan(points, i).value, i)
  {
    if i > 1 {
      WestScanMeaning(points, i - 1);
      var prev := WestScan(points, i - 1);
      if prev.Ok? {
        var ix, p := prev.value, points[i - 1];
        if points[ix].lon > p.lon {
          assert !TiesWestmost(points, i - 1);
        } else if points[ix].lon == p.lon {
          assert TiesWestmost(points, i - 1);
        } else {
          assert !TiesWestmost(points, i - 1);
        }
      }
    }
  }

  /** Once the scan has raised it stays raised. */
  lemma {:induction false} WestScanStaysRaised(points: seq<Point>, i: nat, j: nat)
    requires 1 <= i <= j <= |points| && WestScan(points, i).Raise?
    ensures WestScan(points, j) == Raise(IndexError)
    decreases j - i
  {
    if i < j {
      assert WestScan(points, i + 1).Raise?;
      WestScanStaysRaised(points, i + 1, j);
    }
  }

  /**
   * `selectFirstPoint` raises IndexError for an empty list or when a point
   * 1 <= j < n - 1 ties the westmost longitude before it; otherwise it returns
   * the first index of the smallest longitude among points 0 .. n-2, so the
   * last point is never examined (and with two points the first is returned).
   */
  lemma SelectFirstMeaning(points: seq<Point>)
    ensures SelectFirst(points).Raise? <==>
              |points| == 0 || exists j :: 1 <= j < |points| - 1 && TiesWestmost(points, j)
    ensures SelectFirst(points).Raise? ==> SelectFirst(points).fault == IndexError
    ensures SelectFirst(points).Ok? ==> FirstWestmost(points, SelectFirst(points).value, ScanEnd(|points|))
  {
    if |points| > 0 {
      WestScanMeaning(points, ScanEnd(|points|));
    }
  }

  /**
   * `selectFirstPoint`.  The tie branch raises at once; so `count` never
   * becomes positive and the southernmost-of-the-ties pass after the loop
   * never runs, which is why neither appears here.
   */
  method SelectFirstPoint(points: seq<Point>) returns (r: Outcome<nat>)
    ensures r == SelectFirst(points)
  {
    if |points| == 0 {
      return Raise(IndexError);
    }
    var ix := 0;
    var p0 := points[0];
    var i := 1;
    while i < |points| - 1
      invariant 1 <= i <= ScanEnd(|points|)
      invariant WestScan(points, i) == Ok(ix) && p0 == points[ix]
    {
      var p := points[i];
      if p0.GetLongitude() > p.GetLongitude() {
        p0 := p;
        ix := i;
      } else if p0.GetLongitude() == p.GetLongitude() {
        WestScanStaysRaised(points, i + 1, ScanEnd(|points|));
        return Raise(IndexError);
      }
      i := i + 1;
    }
    r := Ok(ix);
  }

  // ---------------------------------------------------------------------------
  // Hull scan

  /** idx lists, in increasing order, the positions in t of the elements of s. */
  predicate Picks<T(==)>(s: seq<T>, t: seq<T>, idx: seq<nat>) {
    && |idx| == |s|
    && (forall k :: 0 <= k < |idx| ==> idx[k] < |t| && s[k] == t[idx[k]])
    && (forall k, l :: 0 <= k < l < |idx| ==> idx[k] < idx[l])
  }

  /** s is t with some elements left out, the rest in their original order. */
  ghost predicate IsSubsequence<T>(s: seq<T>, t: seq<T>) {
    exists idx :: Picks(s, t, idx)
  }

  /** `list.reverse()` on a value. */
  function Reversed<T>(s: seq<T>): (r: seq<T>)
    ensures |r| == |s|
    ensures forall k :: 0 <= k < |s| ==> r[k] == s[|s| - 1 - k]
  {
    if |s| == 0 then [] else [s[|s| - 1]] + Reversed(s[..|s| - 1])
  }

  /** Reversing twice gives the list back. */
  lemma ReversedTwice<T>(s: seq<T>)
    ensures Reversed(Reversed(s)) == s
  {
  }

  /**
   * `grahamScan`: the first two points start the stack; each further point
   * first pops the top when it lies left of the line from the top to the point
   * below it, then is pushed.  The stack, read bottom to top, is returned.  It
   * keeps at least two points, starts with the first input point, ends with
   * the last, and keeps the input order.  Fewer than two points raise at
   * `thePoints[1]` (or `thePoints[0]`).
   */
  method GrahamScan(points: seq<Point>) returns (r: Outcome<seq<Point>>)
    ensures |points| < 2 <==> r == Raise(IndexError)
    ensures r.Ok? ==> r.value == ScanStack(points, |points|)
    ensures r.Ok? ==>
              && 2 <= |r.value| <= |points|
              && r.value[0] == points[0]
              && r.value[|r.value| - 1] == points[|points| - 1]
              && IsSubsequence(r.value, points)
  {
    if |points| < 2 {
      return Raise(IndexError);
    }
    var stack := Scan(points);
    ScanStackShape(points, |points|);
    var hull := PopAll(stack);
    r := Ok(hull);
  }

  /** The scanning loop of `grahamScan`: one pass over the points after the first two. */
  method Scan(points: seq<Point>) returns (stack: seq<Point>)
    requires 2 <= |points|
    ensures stack == ScanStack(points, |points|)
  {
    stack := [points[0], points[1]];
    ghost var cs := Coords(points);
    ghost var t: seq<int> := [0, 1];
    var i := 2;
    while i < |points|
      invariant 2 <= i <= |points|
      invariant CoordsOf(points, cs) && ScanState(points, cs, i, t, stack)
    {
      ghost var prev := |stack|;
      // popping the top two and pushing them back leaves the stack as it was
      var pt1 := stack[|stack| - 1];
      var pt2 := stack[|stack| - 2];
      var pop := IsLeft(pt1, pt2, points[i]);
      ScanTurn(points, cs, i, t, stack);
      ScanStateStep(points, cs, i, t, stack, pop);
      if pop {
        stack := stack[..|stack| - 1];
      }
      stack := stack + [points[i]];
      t := ScanStep(t, i, pop);
      assert |stack| >= prev;  // at most one pop per push: the stack never shrinks
      i := i + 1;
    }
    ScanStateDone(points, cs, t, stack);
  }

  /** The loop state of `Scan` after points[..i]: the stack holds the points at the scan's indices. */
  ghost predicate ScanState(points: seq<Point>, cs: seq<Coord>, i: nat, t: seq<int>, stack: seq<Point>)
    requires 2 <= i <= |cs| == |points|
  {
    && t == ScanIndices(cs, i)
    && (forall k :: 0 <= k < |t| ==> 0 <= t[k] < i)
    && stack == Gather(points, t)
  }

  /** One pass of the loop body keeps the loop state. */
  lemma ScanStateStep(points: seq<Point>, cs: seq<Coord>, i: nat, t: seq<int>, stack: seq<Point>, pop: bool)
    requires 2 <= i < |points| == |cs| && ScanState(points, cs, i, t, stack)
    requires pop == LeftOf(cs[t[|t| - 1]], cs[t[|t| - 2]], cs[i])
    ensures ScanState(points, cs, i + 1, ScanStep(t, i, pop),
                      (if pop then stack[..|stack| - 1] else stack) + [points[i]])
  {
    ScanIndicesNext(cs, i, t, pop);
    StepInRange(t, i, pop);
    GatherStep(points, t, i, pop);
  }

  /** The scan's indices after point i are one step from those before it. */
  lemma ScanIndicesNext(cs: seq<Coord>, i: nat, t: seq<int>, pop: bool)
    requires 2 <= i < |cs| && t == ScanIndices(cs, i)
    requires pop == LeftOf(cs[t[|t| - 1]], cs[t[|t| - 2]], cs[i])
    ensures ScanStep(t, i, pop) == ScanIndices(cs, i + 1)
  {
  }

  /** Pushing index i onto a stack of indices below i leaves indices below i + 1. */
  lemma StepInRange(t: seq<int>, i: nat, pop: bool)
    requires 2 <= |t| && forall k :: 0 <= k < |t| ==> 0 <= t[k] < i
    ensures forall k :: 0 <= k < |ScanStep(t, i, pop)| ==> 0 <= ScanStep(t, i, pop)[k] < i + 1
  {
  }

  /** The loop's turn test on the stack's top two points is the scan's test on their coordinates. */
  lemma ScanTurn(points: seq<Point>, cs: seq<Coord>, i: nat, t: seq<int>, stack: seq<Point>)
    requires 2 <= i < |points| && CoordsOf(points, cs) && ScanState(points, cs, i, t, stack)
    ensures IsLeft(stack[|stack| - 1], stack[|stack| - 2], points[i]) ==
            LeftOf(cs[t[|t| - 1]], cs[t[|t| - 2]], cs[i])
  {
    var top, below := t[|t| - 1], t[|t| - 2];
    assert stack[|stack| - 1] == points[top] && stack[|stack| - 2] == points[below];
    assert cs[top] == (points[top].lat, points[top].lon);
    assert cs[below] == (points[below].lat, points[below].lon);
    assert cs[i] == (points[i].lat, points[i].lon);
  }

  lemma ScanStateDone(points: seq<Point>, cs: seq<Coord>, t: seq<int>, stack: seq<Point>)
    requires 2 <= |points| && CoordsOf(points, cs) && ScanState(points, cs, |points|, t, stack)
    ensures stack == ScanStack(points, |points|)
  {
    assert cs == Coords(points);
  }

  /**
   * The stack after the scan has seen points[..i], as the indices of the points
   * it holds: it starts as the first two points; each later point pops the top
   * once when it lies left of the line from the top to the point below it, and
   * is then pushed.
   */
  function ScanIndices(cs: seq<Coord>, i: nat): (r: seq<int>)
    requires 2 <= i <= |cs|
    ensures 2 <= |r| <= i
    ensures r[|r| - 1] == i - 1 && 0 <= r[|r| - 2] < r[|r| - 1]
  {
    if i == 2 then [0, 1]
    else
      var t := ScanIndices(cs, i - 1);
      ScanStep(t, i - 1, LeftOf(cs[t[|t| - 1]], cs[t[|t| - 2]], cs[i - 1]))
  }

  /** A point's (latitude, longitude). */
  type Coord = (real, real)

  /** The coordinates of the points, in order. */
  function Coords(points: seq<Point>): (r: seq<Coord>)
    reads points
    ensures CoordsOf(points, r)
  {
    if |points| == 0 then []
    else Coords(points[..|points| - 1]) + [(points[|points| - 1].lat, points[|points| - 1].lon)]
  }

  /** cs holds the coordinates of the points, in order. */
  predicate CoordsOf(points: seq<Point>, cs: seq<Coord>)
    reads points
  {
    |cs| == |points| && forall k :: 0 <= k < |points| ==> cs[k] == (points[k].lat, points[k].lon)
  }

  /** `isLeft` on coordinates. */
  predicate LeftOf(s: Coord, e: Coord, p: Coord) {
    Cross(s.0, s.1, e.0, e.1, p.0, p.1) > 0.0
  }

  /** One step of the scan on a stack: pop the top when `pop` holds, then push `p`. */
  function ScanStep<T>(s: seq<T>, p: T, pop: bool): (r: seq<T>)
    requires 2 <= |s|
    ensures |r| == (if pop then |s| else |s| + 1) && r[|r| - 1] == p
    ensures forall k :: 0 <= k < |r| - 1 ==> r[k] == s[k]
  {
    // a pop followed by a push replaces the top
    if pop then s[|s| - 1 := p] else s + [p]
  }

  /** The points at the given indices, in that order. */
  function Gather(points: seq<Point>, t: seq<int>): (r: seq<Point>)
    requires forall k :: 0 <= k < |t| ==> 0 <= t[k] < |points|
    ensures |r| == |t| && forall k :: 0 <= k < |t| ==> r[k] == points[t[k]]
  {
    if |t| == 0 then [] else Gather(points, t[..|t| - 1]) + [points[t[|t| - 1]]]
  }

  /** Gathering after a scan step is the same pop and push on the gathered points. */
  lemma GatherStep(points: seq<Point>, t: seq<int>, i: nat, pop: bool)
    requires 2 <= |t| && i < |points| && forall k :: 0 <= k < |t| ==> 0 <= t[k] < |points|
    ensures Gather(points, ScanStep(t, i, pop)) ==
              (if pop then Gather(points, t)[..|t| - 1] else Gather(points, t)) + [points[i]]
  {
  }

  /** The stack of points the scan holds after seeing points[..i]. */
  function ScanStack(points: seq<Point>, i: nat): (r: seq<Point>)
    requires 2 <= i <= |points|
    reads points
  {
    ScanIndicesInRange(Coords(points), i);
    Gather(points, ScanIndices(Coords(points), i))
  }

  /** Each index is above the one before it. */
  predicate Increasing(t: seq<int>) {
    forall k :: 0 < k < |t| ==> t[k - 1] < t[k]
  }

  /** Increasing step by step means increasing between any two positions. */
  lemma {:induction false} IncreasingOrdered(t: seq<int>, k: nat, l: nat)
    requires Increasing(t) && k < l < |t|
    ensures t[k] < t[l]
    decreases l - k
  {
    if k + 1 < l {
      IncreasingOrdered(t, k + 1, l);
    }
  }

  /** Pushing an index above the top onto an increasing stack, after a pop or not, keeps it increasing. */
  lemma StepKeepsIncreasing(t: seq<int>, p: int, pop: bool)
    requires 2 <= |t| && Increasing(t) && t[|t| - 1] < p
    ensures Increasing(ScanStep(t, p, pop)) && ScanStep(t, p, pop)[0] == t[0]
  {
  }

  /** The scan's indices increase from 0, the first point. */
  lemma {:induction false} ScanIndicesIncrease(cs: seq<Coord>, i: nat)
    requires 2 <= i <= |cs|
    ensures Increasing(ScanIndices(cs, i)) && ScanIndices(cs, i)[0] == 0
  {
    if i == 2 {
      ScanIndicesStart(cs);
    } else {
      ScanIndicesIncrease(cs, i - 1);
      ScanIndicesStep(cs, i);
    }
  }

  lemma ScanIndicesStart(cs: seq<Coord>)
    requires 2 <= |cs|
    ensures Increasing(ScanIndices(cs, 2)) && ScanIndices(cs, 2)[0] == 0
  {
  }

  lemma ScanIndicesStep(cs: seq<Coord>, i: nat)
    requires 2 < i <= |cs|
    requires Increasing(ScanIndices(cs, i - 1)) && ScanIndices(cs, i - 1)[0] == 0
    ensures Increasing(ScanIndices(cs, i)) && ScanIndices(cs, i)[0] == 0
  {
    var t := ScanIndices(cs, i - 1);
    var pop := LeftOf(cs[t[|t| - 1]], cs[t[|t| - 2]], cs[i - 1]);
    assert ScanIndices(cs, i) == ScanStep(t, i - 1, pop);
    StepKeepsIncreasing(t, i - 1, pop);
  }

  /** Every index on the scan stack names one of the points seen so far. */
  lemma ScanIndicesInRange(cs: seq<Coord>, i: nat)
    requires 2 <= i <= |cs|
    ensures forall k :: 0 <= k < |ScanIndices(cs, i)| ==> 0 <= ScanIndices(cs, i)[k] < i
  {
    var t := ScanIndices(cs, i);
    ScanIndicesIncrease(cs, i);
    forall k | 0 < k < |t| - 1
      ensures 0 < t[k] < i - 1
    {
      IncreasingOrdered(t, 0, k);
      IncreasingOrdered(t, k, |t| - 1);
    }
  }

  /**
   * The scan stack over points[..n] keeps the first point and point n - 1, and
   * the rest of the points it holds in their input order.
   */
  lemma ScanStackShape(points: seq<Point>, n: nat)
    requires 2 <= n <= |points|
    ensures 2 <= |ScanStack(points, n)| <= n
    ensures ScanStack(points, n)[0] == points[0]
    ensures ScanStack(points, n)[|ScanStack(points, n)| - 1] == points[n - 1]
    ensures IsSubsequence(ScanStack(points, n), points)
  {
    var t := ScanIndices(Coords(points), n);
    ScanIndicesIncrease(Coords(points), n);
    ScanIndicesInRange(Coords(points), n);
    forall k, l | 0 <= k < l < |t|
      ensures t[k] < t[l]
    {
      IncreasingOrdered(t, k, l);
    }
    assert Picks(ScanStack(points, n), points, t);
  }

  method PopAll(stack: seq<Point>) returns (hull: seq<Point>)
    ensures hull == stack
  {
    hull := [];
    var rest := stack;
    while |rest| > 0
      invariant |hull| + |rest| == |stack|
      invariant rest == stack[..|rest|]
      invariant forall k :: 0 <= k < |hull| ==> hull[k] == stack[|stack| - 1 - k]
    {
      hull := hull + [rest[|rest| - 1]];
      rest := rest[..|rest| - 1];
    }
    hull := Reversed(hull);
  }

  // ---------------------------------------------------------------------------
  // Ordering by bearing

  /** The key `orderByAngle` gives the westmost point so that it comes first. */
  const FIRST_KEY: real := 9999.9
  /** The value that marks a key already taken. */
  const TAKEN: real := -9999.9

  /**
   * The key of point i in `orderByAngle`: its heading from the westmost point
   * ix0, or FIRST_KEY for ix0 itself, less 360 when above 180.  Every key
   * exceeds TAKEN, and the westmost point's key exceeds every other.
   */
  function AngleKey(m: MathLib, points: seq<Point>, ix0: nat, i: nat): (r: Outcome<real>)
    requires Lawful(m) && ix0 < |points| && i < |points|
    reads points
    ensures r.Ok? ==> TAKEN < r.value
    ensures i == ix0 ==> r == Ok(FIRST_KEY - 360.0)
    ensures i != ix0 && r.Ok? ==> r.value <= 180.0
  {
    var b :- if i == ix0 then Ok(FIRST_KEY) else CalculateHeading(m, points[ix0], points[i]);
    Ok(if b > 180.0 then b - 360.0 else b)
  }

  /** Index a comes before index b: a larger key, or an equal key and a lower index. */
  predicate Precedes(keys: seq<real>, a: nat, b: nat)
    requires a < |keys| && b < |keys|
  {
    keys[a] > keys[b] || (keys[a] == keys[b] && a < b)
  }

  /** order lists each of 0 .. n-1 exactly once. */
  predicate IsPermutation(order: seq<nat>, n: nat) {
    && |order| == n
    && (forall k :: 0 <= k < n ==> order[k] < n)
    && (forall k, l :: 0 <= k < l < n ==> order[k] != order[l])
    && (forall j :: 0 <= j < n ==> j in order)
  }

  /** The number of entries not yet marked TAKEN. */
  function Untaken(b: seq<real>): (c: nat)
    ensures c <= |b|
  {
    if |b| == 0 then 0 else Untaken(b[..|b| - 1]) + (if b[|b| - 1] == TAKEN then 0 else 1)
  }

  /** Some entry is still untaken while the count is positive. */
  lemma {:induction false} UntakenWitness(b: seq<real>)
    requires Untaken(b) > 0
    ensures exists j :: 0 <= j < |b| && b[j] != TAKEN
  {
    if b[|b| - 1] == TAKEN {
      UntakenWitness(b[..|b| - 1]);
      var j :| 0 <= j < |b| - 1 && b[..|b| - 1][j] != TAKEN;
      assert b[j] != TAKEN;
    }
  }

  /** With every entry taken the count is 0, and taking an untaken entry lowers it by one. */
  lemma {:induction false} UntakenTake(b: seq<real>, ix: nat)
    requires ix < |b| && b[ix] != TAKEN
    ensures Untaken(b[ix := TAKEN]) == Untaken(b) - 1
  {
    var b' := b[ix := TAKEN];
    if ix < |b| - 1 {
      assert b'[..|b| - 1] == b[..|b| - 1][ix := TAKEN];
      UntakenTake(b[..|b| - 1], ix);
    } else {
      assert b'[..|b| - 1] == b[..|b| - 1];
    }
  }

  /** With no entry marked, the count is the length. */
  lemma {:induction false} AllUntaken(b: seq<real>)
    requires forall j :: 0 <= j < |b| ==> b[j] != TAKEN
    ensures Untaken(b) == |b|
  {
    if |b| > 0 {
      AllUntaken(b[..|b| - 1]);
    }
  }

  /** With no entry untaken, every entry is TAKEN. */
  lemma {:induction false} NoneUntaken(b: seq<real>)
    requires Untaken(b) == 0
    ensures forall j :: 0 <= j < |b| ==> b[j] == TAKEN
  {
    if |b| > 0 {
      NoneUntaken(b[..|b| - 1]);
      assert forall j :: 0 <= j < |b| - 1 ==> b[j] == b[..|b| - 1][j];
    }
  }

  /**
   * The selection loop's state after |order| picks: the picked indices come in
   * Precedes order, are exactly the entries marked TAKEN, precede every index
   * not yet picked, whose entries still hold their keys; count entries remain.
   */
  ghost predicate Selection(keys: seq<real>, bearings: seq<real>, order: seq<nat>, count: nat) {
    var n := |keys|;
    && |bearings| == n && count <= n && |order| == n - count
    && (forall j :: 0 <= j < n ==> TAKEN < keys[j])
    && (forall k :: 0 <= k < |order| ==> order[k] < n)
    && (forall k, l :: 0 <= k < l < |order| ==> Precedes(keys, order[k], order[l]))
    && (forall j :: 0 <= j < n ==> (bearings[j] == TAKEN <==> j in order))
    && (forall j :: 0 <= j < n && j !in order ==> bearings[j] == keys[j])
    && (forall k, j :: 0 <= k < |order| && 0 <= j < n && j !in order ==> Precedes(keys, order[k], j))
    && count == Untaken(bearings)
  }

  /** Taking the first largest entry extends the order by the first remaining index in Precedes order. */
  lemma SelectionStep(keys: seq<real>, bearings: seq<real>, order: seq<nat>, count: nat, ix: nat)
    requires Selection(keys, bearings, order, count) && 0 < count && ix < |bearings|
    requires forall j :: 0 <= j < |bearings| ==> bearings[j] <= bearings[ix]
    requires forall j :: 0 <= j < ix ==> bearings[j] < bearings[ix]
    ensures Selection(keys, bearings[ix := TAKEN], order + [ix], count - 1)
  {
    var n := |keys|;
    UntakenWitness(bearings);
    assert bearings[ix] != TAKEN;
    assert ix !in order && bearings[ix] == keys[ix];
    UntakenTake(bearings, ix);
    var order' := order + [ix];
    forall j | 0 <= j < n && j !in order'
      ensures Precedes(keys, ix, j)
    {
      assert bearings[j] == keys[j];
    }
  }

  /** Once nothing remains, the order lists every index exactly once. */
  lemma SelectionDone(keys: seq<real>, bearings: seq<real>, order: seq<nat>)
    requires Selection(keys, bearings, order, 0)
    ensures IsPermutation(order, |keys|)
    ensures forall k, l :: 0 <= k < l < |order| ==> Precedes(keys, order[k], order[l])
  {
    NoneUntaken(bearings);
  }

  /**
   * The selection loop of `orderByAngle`: n times, the first index of the
   * largest remaining key is marked TAKEN and its point appended.  The points
   * come out in the order of Precedes, each exactly once.
   */
  method SelectByKey(points: seq<Point>, keys: seq<real>) returns (temp: seq<Point>, ghost order: seq<nat>)
    requires |keys| == |points|
    requires forall j :: 0 <= j < |keys| ==> TAKEN < keys[j]
    ensures IsPermutation(order, |points|) && |temp| == |points|
    ensures forall k :: 0 <= k < |order| ==> temp[k] == points[order[k]]
    ensures forall k, l :: 0 <= k < l < |order| ==> Precedes(keys, order[k], order[l])
  {
    var bearings := keys;
    temp, order := [], [];
    var count: nat := |keys|;
    AllUntaken(keys);
    while count > 0
      invariant Selection(keys, bearings, order, count) && |temp| == |order|
      invariant forall k :: 0 <= k < |order| ==> temp[k] == points[order[k]]
    {
      var ix := FirstLargest(bearings);
      SelectionStep(keys, bearings, order, count, ix);
      bearings := bearings[ix := TAKEN];
      temp := temp + [points[ix]];
      order := order + [ix];
      count := count - 1;
    }
    SelectionDone(keys, bearings, order);
  }

  /** The scan for the first index of the largest value: `if bearings[ix] < bearings[i]: ix = i`. */
  method FirstLargest(b: seq<real>) returns (ix: nat)
    requires 0 < |b|
    ensures ix < |b|
    ensures forall j :: 0 <= j < |b| ==> b[j] <= b[ix]
    ensures forall j :: 0 <= j < ix ==> b[j] < b[ix]
  {
    ix := 0;
    var i := 0;
    while i < |b|
      invariant 0 <= i <= |b| && ix < |b| && (ix < i || ix == 0)
      invariant forall j :: 0 <= j < i ==> b[j] <= b[ix]
      invariant forall j :: 0 <= j < ix ==> b[j] < b[ix]
    {
      if b[ix] < b[i] {
        ix := i;
      }
      i := i + 1;
    }
  }

  /**
   * The westmost point's key exceeds every other key, so an order sorted by
   * Precedes starts with it.
   */
  lemma FirstKeyComesFirst(keys: seq<real>, order: seq<nat>, ix0: nat)
    requires IsPermutation(order, |keys|) && ix0 < |keys|
    requires forall k, l :: 0 <= k < l < |order| ==> Precedes(keys, order[k], order[l])
    requires keys[ix0] == FIRST_KEY - 360.0
    requires forall j :: 0 <= j < |keys| && j != ix0 ==> keys[j] <= 180.0
    ensures order[0] == ix0
  {
    assert ix0 in order;
    var p :| 0 <= p < |order| && order[p] == ix0;
  }

  /**
   * `orderByAngle`: the westmost point first, then the others by decreasing
   * heading from it, equal headings in input order; each point exactly once.
   * Raises what `selectFirstPoint` raises, or what the first failing heading
   * raises.  `keys` and `order` name the sort keys and the permutation.
   */
  method OrderByAngle(m: MathLib, points: seq<Point>) returns (r: Outcome<seq<Point>>, ghost keys: seq<real>, ghost order: seq<nat>)
    requires Lawful(m)
    ensures SelectFirst(points).Raise? ==> r == Raise(SelectFirst(points).fault)
    ensures SelectFirst(points).Ok? && r.Raise? ==>
              exists i :: && 0 <= i < |points|
                          && AngleKey(m, points, SelectFirst(points).value, i) == Raise(r.fault)
                          && forall j :: 0 <= j < i ==> AngleKey(m, points, SelectFirst(points).value, j).Ok?
    ensures r.Ok? ==>
              && SelectFirst(points).Ok?
              && |keys| == |points|
              && (forall i :: 0 <= i < |points| ==> AngleKey(m, points, SelectFirst(points).value, i) == Ok(keys[i]))
              && IsPermutation(order, |points|) && |r.value| == |points|
              && (forall k :: 0 <= k < |order| ==> r.value[k] == points[order[k]])
              && (forall k, l :: 0 <= k < l < |order| ==> Precedes(keys, order[k], order[l]))
              && order[0] == SelectFirst(points).value
  {
    keys, order := [], [];
    var first := SelectFirstPoint(points);
    if first.Raise? {
      return Raise(first.fault), keys, order;
    }
    var ix0 := first.value;
    var p0 := points[ix0];
    // `[None] * n`: every placeholder is overwritten below
    var bearings := seq(|points|, _ => 0.0);
    var i := 0;
    while i < |points|
      invariant 0 <= i <= |points| && |bearings| == |points|
      invariant forall j :: 0 <= j < i ==> AngleKey(m, points, ix0, j) == Ok(bearings[j])
    {
      var b: real;
      if i == ix0 {
        b := FIRST_KEY;
      } else {
        var h := CalculateHeading(m, p0, points[i]);
        if h.Raise? {
          assert AngleKey(m, points, ix0, i) == Raise(h.fault);
          return Raise(h.fault), keys, order;
        }
        b := h.value;
      }
      if b > 180.0 {
        b := b - 360.0;
      }
      bearings := bearings[i := b];
      i := i + 1;
    }
    keys := bearings;
    var temp;
    temp, order := SelectByKey(points, bearings);
    FirstKeyComesFirst(keys, order, ix0);
    r := Ok(temp);
  }

  // ---------------------------------------------------------------------------
  // angleSort

  /**
   * What `angleSort` leaves in the list: the westmost point, then the first
   * remaining point twice, then the remaining points in order without their
   * last one.
   */
  function AngleSorted(s: seq<Point>, ix0: nat): (r: seq<Point>)
    requires ix0 < |s| && 2 <= |s|
    ensures |r| == |s| && r[0] == s[ix0]
  {
    var rest := Removed(s, ix0);
    [s[ix0]] + [rest[0]] + rest[..|rest| - 1]
  }

  /**
   * The list keeps its length and starts with the westmost point, but it is
   * not a reordering: one copy of the last remaining point is replaced by a
   * second copy of the first remaining point.
   */
  lemma AngleSortedContents(s: seq<Point>, ix0: nat)
    requires ix0 < |s| && 2 <= |s|
    ensures var rest := Removed(s, ix0);
            multiset(AngleSorted(s, ix0)) + multiset{rest[|rest| - 1]} == multiset(s) + multiset{rest[0]}
    ensures 3 <= |s| ==> AngleSorted(s, ix0)[1] == AngleSorted(s, ix0)[2]
  {
    var rest := Removed(s, ix0);
    assert s == s[..ix0] + [s[ix0]] + s[ix0 + 1..];
    assert rest == rest[..|rest| - 1] + [rest[|rest| - 1]];
    calc {
      multiset(AngleSorted(s, ix0)) + multiset{rest[|rest| - 1]};
      multiset{s[ix0]} + multiset{rest[0]} + multiset(rest[..|rest| - 1]) + multiset{rest[|rest| - 1]};
      multiset{s[ix0]} + multiset{rest[0]} + multiset(rest);
      multiset{s[ix0]} + multiset{rest[0]} + multiset(s[..ix0]) + multiset(s[ix0 + 1..]);
    }
  }

  /**
   * The state of `angleSort`'s shifting loop after `outside` steps: the first
   * element is in place, the ones before `outside` have moved one to the right
   * and the rest are untouched.
   */
  predicate ShiftedTo<T(==)>(items: seq<T>, rest: seq<T>, outside: nat) {
    && 1 <= outside <= |rest| == |items|
    && items[0] == rest[0]
    && (forall j :: 1 <= j < outside ==> items[j] == rest[j - 1])
    && (forall j :: outside <= j < |rest| ==> items[j] == rest[j])
  }

  /** Writing the previous element at `outside` advances the shift by one. */
  lemma ShiftedStep<T>(items: seq<T>, rest: seq<T>, outside: nat)
    requires ShiftedTo(items, rest, outside) && outside < |rest|
    ensures ShiftedTo(items[outside := rest[outside - 1]], rest, outside + 1)
  {
  }

  /** A finished shift is the first element followed by all but the last. */
  lemma ShiftedDone<T>(items: seq<T>, rest: seq<T>)
    requires 1 <= |rest| && ShiftedTo(items, rest, |rest|)
    ensures items == [rest[0]] + rest[..|rest| - 1]
  {
  }

  /**
   * `angleSort`: changes the caller's list in place and returns it.  The
   * westmost point is removed; each later position takes the point before it
   * (the shifting loop guarded by `orient == Orientation.CW` compares a string
   * with an enum member, which is never true, so it never runs); the westmost
   * point is inserted at the front.  A raise in `selectFirstPoint` leaves the
   * list as it was; a one-point list is emptied before `alist[0]` raises.
   */
  method AngleSort(list: PyList<Point>) returns (r: Outcome<PyList<Point>>)
    modifies list
    ensures old(SelectFirst(list.items)).Raise? ==> r == Raise(IndexError) && list.items == old(list.items)
    ensures |old(list.items)| == 1 ==> r == Raise(IndexError) && list.items == []
    ensures 2 <= |old(list.items)| && old(SelectFirst(list.items)).Ok? ==>
              r == Ok(list) && list.items == AngleSorted(old(list.items), old(SelectFirst(list.items)).value)
  {
    SelectFirstMeaning(list.items);
    var first := SelectFirstPoint(list.items);
    if first.Raise? {
      return Raise(first.fault);
    }
    var ix0 := first.value;
    var p0 := list.Get(ix0);
    list.Delete(ix0);
    if list.Length() == 0 {
      return Raise(IndexError);
    }
    ghost var rest := list.items;
    var p1 := list.Get(0);
    var n := list.Length();
    var outside := 1;
    while outside < n
      invariant 1 <= outside <= n && p1 == rest[outside - 1]
      invariant ShiftedTo(list.items, rest, outside)
    {
      var p2 := list.Get(outside);
      var inside := outside;
      var orient := OrientationOf(p0, p1, p2);
      assert !(inside > 0 && Str(orient) == Member(CW));
      RemoveInsertIsUpdate(list.items, inside, p1);
      ShiftedStep(list.items, rest, outside);
      list.Delete(inside);
      list.Insert(inside, p1);
      p1 := p2;
      outside := outside + 1;
    }
    ShiftedDone(list.items, rest);
    list.Insert(0, p0);
    r := Ok(list);
  }
}
