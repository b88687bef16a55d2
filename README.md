# PyNavigate in Dafny

PyNavigate is a small marine-navigation toolkit. From positions given in degrees (or degrees, minutes and seconds) it computes:

- the bearing and the great-circle range between two positions;
- the position reached after running at a course and speed for a time;
- the closest point of approach (CPA) of two moving tracks;
- whether an object is within line of sight;
- the nearest pair of points of two routes.

A geometry module orders the points of a route around its westmost point and scans a hull out of them. A GTK window reads the user's entries, fills empty fields with defaults, and range-checks them.

This project models that core and proves properties of it:

- the unit conversions;
- the position, point and CPA record classes;
- the decision logic of the navigation engine, meaning its branches, wrap steps, error paths and how it assembles results;
- the point-list algorithms of the geometry module;
- the input checks of the window.

The trigonometry is not modelled numerically. `sin`, `cos`, `tan`, `atan`, `atan2`, `asin`, `acos`, `log` and `sqrt` are fields of a `MathLib` value, and `Lawful` states the only facts the proofs use: ranges, signs, `sqrt x <= 1` on [0, 1] and `cos 0 = 1`. `EvenCosine` adds that cosine is even; only range symmetry needs it. Python's float arithmetic is modelled by `real`.

The source's quirks are kept, not corrected:

- the westmost-point scan never looks at the last point, and it raises `IndexError` when one of points 1..n-2 ties the westmost longitude found before it (other ties, such as one with the last point, raise nothing);
- `orientation` returns a name string that `angleSort` compares with an enum member, so the shifting loop in `angleSort` never runs;
- `normalizeDMS` carries seconds by true division and loses the sign of the degrees when there is no minute carry (with a carry the sign is applied again);
- `findMinimumDistanceLocation` always raises.

Python exceptions are the `Raise` case of `Outcomes.Outcome`. The window's error dialog (`NavError`) is a message appended to `Navigate.errorLog`. A Python list that is changed in place and shared with the caller is a `PyLists.PyList` object.

Files:

- `outcomes.dfy`: exceptions.
- `pymath.dfy`: the uninterpreted math library.
- `navcommon.dfy`: conversions.
- `geoposition.dfy`, `points.dfy`, `cpadata.dfy`: the classes.
- `navutils.dfy`: the navigation engine.
- `pylists.dfy`: in-place lists.
- `geometry.dfy`: point-list algorithms.
- `navigate.dfy`: input checks.

## Model

| member | source | states |
|---|---|---|
| PyMath.Sqrt | NavUtils.py:246 | `math.sqrt` succeeds exactly on non-negative arguments and returns a non-negative root, at most 1 for an argument at most 1 |
| PyMath.Acos | NavUtils.py:171 | `math.acos` succeeds exactly on [-1, 1] and returns an angle in [0, pi] |
| PyMath.Asin | NavUtils.py:55 | `math.asin` succeeds exactly on [-1, 1] and returns an angle in [-pi/2, pi/2] |
| PyMath.Log | NavUtils.py:296 | `math.log` succeeds exactly on positive arguments |
| PyMath.Div | NavUtils.py:295 | float division succeeds exactly for a non-zero divisor, and the quotient times the divisor is the dividend |
| NavCommon.ToRadians | NavCommon.py:40-41 | the result divided by pi/180 is the argument; the sign is kept |
| NavCommon.ToDegrees | NavCommon.py:43-44 | pi/180 times the result is the argument; the sign is kept |
| NavCommon.DegreesRadiansRoundTrip | NavCommon.py:40-44 | degrees to radians and back is the identity, both ways; 180 degrees is pi; the conversion is additive |
| NavCommon.Signum | NavCommon.py:46-47 | the result is in {-1, 0, 1} and is 1, -1 or 0 exactly when x is positive, negative or zero |
| NavCommon.Trunc | NavCommon.py:61 | Python's `int()` truncates toward zero: within 1 of x, on the side of zero |
| NavCommon.Truncate | NavCommon.py:49-50 | `truncate(f, n) <= f < truncate(f, n) + 10^-n`, and the result has at most n decimals (rounds down, never to nearest) |
| NavCommon.Dms2Dec | NavCommon.py:52-56 | the value minus the degrees is minutes/60 + seconds/3600 |
| NavCommon.Dms2DecSignFromDegrees | NavCommon.py:52-56 | the minutes and seconds are always added, so negating the degrees does not negate the value |
| NavCommon.Hms2Hrs | NavCommon.py:75-77 | hours-minutes-seconds convert by exactly the dms2dec arithmetic; non-negative minutes and seconds never lower the hours |
| NavCommon.Dec2Dms | NavCommon.py:58-66 | degrees = floor(\|x\|) >= 0 (the sign is dropped), whole minutes in [0, 59], seconds in [0, 60], and reading the triple back gives \|x\| within 5e-8 seconds |
| NavCommon.SecondsInRange | NavCommon.py:64 | seconds truncated to 7 decimals after adding 5e-8 stay within [0, 60] |
| NavCommon.NormalizeDMS | NavCommon.py:79-94 | zero degrees stay zero; non-negative degrees stay non-negative; seconds never grow; 60 minutes + seconds is preserved |
| NavCommon.NormalizeSecondsCarry | NavCommon.py:82-86 | with 60 or more whole seconds, isec/60 (true division) is added to the minutes and only the fraction of a second remains |
| NavCommon.NormalizeNoSecondsCarry | NavCommon.py:82-86 | with fewer than 60 whole seconds, minutes and seconds are unchanged |
| NavCommon.NormalizeMinuteCarry | NavCommon.py:88-92 | with 60 or more minutes, floor(min/60) is added to \|deg\|, the sign of deg is applied, and the minutes are not reduced |
| NavCommon.NormalizeNoMinuteCarry | NavCommon.py:81-92 | without a minute carry the degrees become deg * signum(deg) = \|deg\|: a negative sign is lost |
| NavCommon.NormalizeHMS | NavCommon.py:96-97 | hours are normalised exactly as degrees |
| GeoPosition.GeographicPosition.Origin | GeographicPosition.py:19-21 | the no-argument constructor gives (0.0, 0.0) |
| GeoPosition.GeographicPosition.constructor | GeographicPosition.py:16-18 | the two-argument constructor stores exactly its arguments |
| GeoPosition.GeographicPosition.SetLatitude | GeographicPosition.py:23-24 | changes only the latitude; the getter returns the new value |
| GeoPosition.GeographicPosition.SetLongitude | GeographicPosition.py:26-27 | changes only the longitude; the getter returns the new value |
| GeoPosition.GeographicPosition.GetLatitude | GeographicPosition.py:29-30 | returns the stored latitude |
| GeoPosition.GeographicPosition.GetLongitude | GeographicPosition.py:32-33 | returns the stored longitude |
| GeoPosition.GeographicPosition.Equals | GeographicPosition.py:39-47 | `__eq__` holds iff the latitudes are equal and either the longitudes are equal or the latitude is a pole (90 or -90) |
| GeoPosition.EqualsCharacterized | GeographicPosition.py:45-46 | `__eq__` holds iff both coordinates are equal or both latitudes are 90 or both are -90; it is reflexive and symmetric |
| GeoPosition.PolesIgnoreLongitude | GeographicPosition.py:46 | at the same pole any two longitudes are equal; elsewhere different longitudes are different positions |
| Points.Point.constructor | Point.py:19-27 | stores lat and lon as given, z = RADIUS sin(lat) and x, y from the cosines, all within [-RADIUS, RADIUS] |
| Points.Point.Cartesian | Point.py:29-31 | the three-argument constructor stores x, y and z as given |
| Points.FromCartesian | Point.py:28-33 | the three-argument constructor raises exactly when \|z\| > RADIUS; otherwise lat = degrees(asin(z/RADIUS)) lies in [-90, 90], and lon = degrees(atan2(y, x)) |
| Points.Point.Normalize | Point.py:41-46 | the result is in [-180, 180], differs from the argument by a whole number of turns, and is the argument itself when already in range |
| Points.Point.GetLatitude | Point.py:68-69 | returns the stored latitude |
| Points.Point.GetLongitude | Point.py:71-72 | returns the stored longitude |
| Points.Point.SetLatitude | Point.py:74-75 | changes only lat; x, y and z keep their old, now stale, values |
| Points.Point.SetLongitude | Point.py:77-78 | changes only lon; x, y and z keep their old, now stale, values |
| Points.Point.Equals | Point.py:57-66 | `__eq__` holds iff the latitudes are equal and either the longitudes are equal or the latitude is a pole; x, y and z are not compared |
| Points.PointEqualsCharacterized | Point.py:63-65 | point equality follows the pole rule and is reflexive and symmetric |
| CpaData.CPAState.Name | CPA_Data.py:16-19 | each state's name is its own member name, and names identify states both ways |
| CpaData.NameInjective | CPA_Data.py:71-72 | distinct states have distinct status strings |
| CpaData.CPAData.constructor | CPA_Data.py:24-29 | a fresh record: a new position at (0, 0), distances and time 0.0, code VALID |
| CpaData.CPAData.SetCpaPosition | CPA_Data.py:38-39 | with one argument the record holds the caller's object; the other fields are unchanged |
| CpaData.CPAData.SetCpaPositionLatLon | CPA_Data.py:40-42 | with two arguments the position object already held is mutated in place; the record keeps the same object |
| CpaData.CPAData.GetCpaPosition | CPA_Data.py:44-45 | returns the held position object |
| CpaData.CPAData.SetDistToCPA | CPA_Data.py:47-48 | changes only distToCPA; the getter returns the value set |
| CpaData.CPAData.GetDistToCPA | CPA_Data.py:50-51 | returns the stored distance |
| CpaData.CPAData.SetElapsedTime | CPA_Data.py:53-54 | changes only elapsedTime; the getter returns the value set |
| CpaData.CPAData.GetElapsedTime | CPA_Data.py:56-57 | returns the stored time |
| CpaData.CPAData.SetRangeAtCPA | CPA_Data.py:59-60 | changes only rangeAtCPA; the getter returns the value set |
| CpaData.CPAData.GetRangeAtCPA | CPA_Data.py:62-63 | returns the stored range |
| CpaData.CPAData.SetCode | CPA_Data.py:65-66 | changes only the code; the getter returns the value set |
| CpaData.CPAData.GetCode | CPA_Data.py:68-69 | returns the stored code |
| CpaData.CPAData.GetStatus | CPA_Data.py:71-72 | the status is the name of the code, so each of "VALID", "RECEDING" and "NO_RELATIVE_MOTION" is returned exactly for its own code |
| CpaData.CPAData.Equals | CPA_Data.py:31-35 | `__equals__` holds exactly when the CPA positions have equal latitudes and equal longitudes (or share a pole), and the distances to CPA, ranges at CPA and codes agree; the elapsed time is not compared; a record equals itself |
| CpaData.EqualsIgnoresElapsedTime | CPA_Data.py:31-35 | records that differ only in elapsed time are equal; a record equals itself |
| CpaData.EqualsNeedsSameCode | CPA_Data.py:31-35 | records with different codes, distances to CPA or ranges at CPA are never equal |
| NavUtils.WrapDelta | NavUtils.py:276-279 | a single +-2pi correction: differences in [-pi, pi] are kept, and any difference within one turn of that range is brought into it |
| NavUtils.WrapDeltaOdd | NavUtils.py:160-163 | wrapping the opposite difference gives the opposite result |
| NavUtils.WrapLongitude | NavUtils.py:90-91 | the final longitude step subtracts 2pi signum(x) once when \|x\| >= pi, bringing any longitude within one turn strictly inside (-pi, pi) |
| NavUtils.DegreesOfBounded | NavUtils.py:306 | [-pi, pi] in radians is [-180, 180] in degrees, open or closed |
| NavUtils.AbsoluteBearing | NavUtils.py:271-304 | the absolute bearing is in [-pi, pi], or the Mercator formula raises ZeroDivisionError or a math domain error |
| NavUtils.MercatorQuadrant | NavUtils.py:300-304 | the quadrant correction keeps the Mercator bearing within [-pi, pi] |
| NavUtils.CalculateBearing | NavUtils.py:248-319 | beyond 85 degrees latitude the error dialog is shown and 0.0 returned; otherwise no dialog, and an ABSOLUTE bearing is the absolute bearing in degrees within [-180, 180] |
| NavUtils.BearingDegrees | NavUtils.py:306-317 | ABSOLUTE converts the bearing to degrees in [-180, 180]; RELATIVE subtracts the heading and applies one +-360 correction |
| NavUtils.BearingSpecialCases | NavUtils.py:282-292 | \|dlat\| < 5e-5 rad gives +90 or -90 by the sign of the wrapped dlon; failing that, \|dlon\| < 5e-6 gives 0 when the target is not south, else 180 |
| NavUtils.RelativeIsAbsoluteMinusHeading | NavUtils.py:308-317 | a relative bearing is the absolute bearing minus the heading, corrected by at most one turn |
| NavUtils.CalculateAbsBearing | NavUtils.py:321-323 | the ABSOLUTE bearing with heading 0, within [-180, 180] when no dialog is shown |
| NavUtils.FlatRange | NavUtils.py:175 | the flat approximation is non-negative or raises a math domain error |
| NavUtils.RangeFromDeltas | NavUtils.py:166-177 | the range from the differences is non-negative, or raises a math domain error |
| NavUtils.ClampedRange | NavUtils.py:168-177 | the clamp and small-distance switch give a non-negative range, or a math domain error |
| NavUtils.ClampTakesFlat | NavUtils.py:168-175 | a cosine term of magnitude >= 1 is clamped to 0, which is below five miles, so the flat approximation is returned |
| NavUtils.GreatCircleRange | NavUtils.py:145-177 | the range in degrees is never negative; only a math domain error can be raised |
| NavUtils.RangeBetween | NavUtils.py:150-177 | the range between coordinates is never negative; only a math domain error can be raised |
| NavUtils.RangeToSelfIsZero | NavUtils.py:145-177 | the range from a position to itself is 0 |
| NavUtils.RangeSymmetric | NavUtils.py:145-177 | the range does not depend on which position is the start |
| NavUtils.RangeBetweenSymmetric | NavUtils.py:150-177 | swapping the two coordinate pairs leaves the range unchanged |
| NavUtils.RangeFromDeltasSymmetric | NavUtils.py:166-177 | negated differences with swapped latitudes give the same range |
| NavUtils.CentralCosineSymmetric | NavUtils.py:166 | the law-of-cosines term is symmetric in the two positions |
| NavUtils.FlatRangeSymmetric | NavUtils.py:175 | the flat approximation is symmetric in the two positions |
| NavUtils.LineOfSightDistance | NavUtils.py:242-246 | 1.144 (sqrt h1 + sqrt h2) succeeds exactly for non-negative heights and is non-negative |
| NavUtils.Horizon | NavUtils.py:229-233 | the horizon is the line-of-sight distance to height 0; it is 0 at eye height 0 |
| NavUtils.IsVisible | NavUtils.py:235-240 | visible iff the distance is at most the line-of-sight distance; raises exactly when that does |
| NavUtils.VisibilityMonotone | NavUtils.py:235-240 | what is visible at some distance is visible nearer; distance 0 is always visible |
| NavUtils.GreatCircle | NavUtils.py:30-94 | the new latitude lies in [-90, 90]; a start longitude in [-180, 180] gives a new longitude strictly inside (-180, 180); the only faults are a math domain error (asin) and ZeroDivisionError |
| NavUtils.ArrivalPosition | NavUtils.py:76-93 | the arrival position assembled from radians lies within the latitude and longitude bounds |
| NavUtils.LongitudeChange | NavUtils.py:57 | the longitude change lies strictly inside (-pi/2, pi/2), or the division raises ZeroDivisionError |
| NavUtils.NewCourse | NavUtils.py:59-73 | the clamp keeps the sqrt and acos arguments in range, so the new course raises exactly when cos(new latitude) is 0 (ZeroDivisionError) and otherwise lies in [-pi, pi] |
| NavUtils.FinalLongitude | NavUtils.py:76-91 | after the polar-crossing shift and the final wrap, a start in [-pi, pi] ends strictly inside (-pi, pi) |
| NavUtils.CalculatePositionCS | NavUtils.py:354-368 | with speed <= 0 the caller's start object itself is returned; otherwise a fresh position is reached by `GreatCircle` over speed * time miles, or its error is raised |
| NavUtils.RelativeVelocity | NavUtils.py:388-403 | the relative speed is non-negative |
| NavUtils.Classify | NavUtils.py:380-432 | RECEDING iff \|rb\| >= pi/2, even when NO_RELATIVE_MOTION was set first; otherwise NO_RELATIVE_MOTION iff relative speed < 1e-6, else VALID |
| NavUtils.AnalyzeEncounter | NavUtils.py:379-432 | the range and relative speed of an encounter are non-negative |
| NavUtils.RecordFieldBounds | NavUtils.py:436-458 | a filled record never holds a negative range at CPA or elapsed time |
| NavUtils.FillRecord | NavUtils.py:435-458 | the setters leave, for VALID, range at CPA = range \|sin rb\|, elapsed time = 3600 h, distance = h times speed; otherwise time 0 and range at CPA = distance = range |
| NavUtils.RecordEncounter | NavUtils.py:434-461 | the record describes the encounter; for VALID with positive speed its position is the place reached after the hours to CPA, otherwise it is the caller's approach-position object; it raises exactly when the encounter is VALID, the speed positive and that great-circle step raises, and with that step's fault |
| NavUtils.CalculateCPA | NavUtils.py:371-461 | an analysis error propagates; otherwise the record returned describes the analysed encounter and never holds a negative range at CPA or elapsed time, and the call raises exactly when the encounter is VALID, the approach speed positive and the great-circle step to the CPA raises, with that step's fault |
| NavUtils.CalculatePerpendicularDistance | NavUtils.py:463-474 | the distance is the range at CPA of the encounter between a 60-knot track from the start towards the stop point and the target at rest; it is never negative; errors of the bearing or the analysis propagate, and once both succeed it raises exactly when the great-circle step to the CPA does; the dialogs shown are the bearing's followed by the analysis's |
| NavUtils.CosineLawDistance | NavUtils.py:485-490 | the pair distance lies in [0, pi] or raises a math domain error |
| NavUtils.PairDistance | NavUtils.py:485-490 | the distance of two points at their current coordinates lies in [0, pi] or raises a math domain error |
| NavUtils.DistanceTable | NavUtils.py:484-490 | there is a table holding the distance of every pair |
| NavUtils.SearchOutcome | NavUtils.py:495 | the search result is its indices, or a math domain error exactly when the search failed |
| NavUtils.SearchFailsIffUndefined | NavUtils.py:484-494 | the search has failed exactly when some pair visited so far has no distance |
| NavUtils.SearchFindsFirstMinimum | NavUtils.py:482-494 | the running search holds [-1, -1] and the largest float before any pair, then the first pair of least distance among those visited |
| NavUtils.VisitKeepsFirstMinimum | NavUtils.py:491-494 | one visit keeps the first minimum, because the comparison is strict |
| NavUtils.TableDefined | NavUtils.py:483-490 | all pairs have a distance iff no table entry is raised; no distance reaches the largest float |
| NavUtils.FindMinimumDistanceIndices | NavUtils.py:476-495 | the nested loops return the outcome of the row-major search over the table of distances |
| NavUtils.ScanRow | NavUtils.py:486-494 | the inner loop advances the search over one row, or reports that the whole search has failed |
| NavUtils.SearchAdvance | NavUtils.py:490-494 | visiting pair (i, j) moves the search from before (i, j) to before (i, j + 1) |
| NavUtils.SearchNextRow | NavUtils.py:484-486 | the end of row i is the start of row i + 1 |
| NavUtils.FailedStaysFailed | NavUtils.py:490 | once acos raises, the search ends failed |
| NavUtils.FindMinimumOfEmpty | NavUtils.py:482-484 | either list empty gives [-1, -1] |
| NavUtils.FindMinimumRaisesIffUndefined | NavUtils.py:484-495 | the search raises exactly when some pair has no distance |
| NavUtils.FindMinimumIsFirstMinimum | NavUtils.py:482-495 | on non-empty lists the indices are in range, their distance is at most every pair's, and strictly below every earlier pair's in row-major order |
| NavUtils.FindMinimumDistanceLocation | NavUtils.py:497-506 | it always raises: IndexError once the indices are found, or the search's own math domain error |
| NavUtils.TableExists | NavUtils.py:484-490 | a table of the pair distances exists |
| PyLists.PyList.constructor | Navigate.py:515-516 | a list built from the given items |
| PyLists.PyList.Length | Geometry.py:125 | `len` is the number of items |
| PyLists.PyList.Get | Geometry.py:122 | indexing returns the item at the index |
| PyLists.PyList.Set | Navigate.py:725-726 | item assignment replaces one item and nothing else |
| PyLists.PyList.Delete | Geometry.py:121 | `del l[i]` removes the item at i and shifts the later ones down |
| PyLists.PyList.Insert | Geometry.py:138 | `insert(i, x)` puts x at i and shifts the later ones up |
| PyLists.PyList.SetTail | Navigate.py:729-730 | slice assignment `l[i:] = xs` replaces everything from i on by xs |
| PyLists.Removed | Geometry.py:121 | deleting shortens by one, keeps the items before i and shifts the rest down |
| PyLists.Inserted | Geometry.py:138 | inserting lengthens by one, puts x at i, keeps the items before i and shifts the rest up |
| PyLists.RemoveInsertRoundTrip | Geometry.py:121 | `insert` is the inverse of `del l[i]`: deleting an item and inserting it back at the same place restores the list |
| PyLists.InsertRemoveRoundTrip | Geometry.py:138 | `del` is the inverse of `l.insert(i, x)`: inserting an item and deleting it again restores the list |
| PyLists.RemoveInsertIsUpdate | Geometry.py:137-138 | the live `del alist[inside]; alist.insert(inside, p1)` pair is the item assignment l[i] = x |
| Geometry.Orientation.Name | Orientation.py:17 | each orientation's name is its member name, and names identify members both ways |
| Geometry.Det | Geometry.py:197-200 | the determinant `orientation` computes equals the cross product `isLeft` computes, and is zero when two of the points coincide |
| Geometry.IsLeft | Geometry.py:51-54 | `isLeft` holds iff the determinant of `orientation` is positive; a degenerate line or p = s is never left |
| Geometry.OrientationOf | Geometry.py:197-207 | "CW" iff the determinant is negative, "CCW" iff positive, "COLL" iff zero |
| Geometry.DetSwap | Geometry.py:198-200 | swapping two of the points negates the determinant |
| Geometry.IsLeftIsCounterClockwise | Geometry.py:51-54 | `isLeft(s, e, p)` holds iff `orientation(s, e, p)` is "CCW" |
| Geometry.IsLeftAntisymmetric | Geometry.py:51-54 | a point left of s->e is not left of e->s, and a point off the line is left of exactly one of them |
| Geometry.OrientationSwap | Geometry.py:197-207 | swapping the last two points exchanges "CW" and "CCW" and keeps "COLL" |
| Geometry.OrientationNeverEqualsMember | Geometry.py:197-207 | the string `orientation` returns is never equal to an enum member, though it is that member's name |
| Geometry.CalculateHeading | Geometry.py:143-194 | it raises the 85-degree exception exactly when either latitude is beyond 85 degrees, and any heading returned lies in [-180, 180] |
| Geometry.HeadingSpecialCases | Geometry.py:170-179 | the same +-90 and 0/180 special cases as the bearing computation |
| Geometry.WestScan | Geometry.py:31-40 | the scan up to i returns an index below i, or raises IndexError |
| Geometry.ScanEnd | Geometry.py:33 | the scan covers indices below max(1, n - 1): the last point is never examined |
| Geometry.SelectFirst | Geometry.py:22-49 | the westmost index is within the list |
| Geometry.WestScanMeaning | Geometry.py:33-40 | the scan raises iff some scanned point ties the westmost longitude so far; otherwise it returns the first index of least longitude among those scanned |
| Geometry.WestScanStaysRaised | Geometry.py:38-40 | once a tie has raised, longer scans raise too |
| Geometry.SelectFirstMeaning | Geometry.py:22-49 | an empty list or a tie raises IndexError; otherwise the first index of least longitude among points 0..n-2 |
| Geometry.SelectFirstPoint | Geometry.py:22-49 | the loop computes exactly the westmost-point scan |
| Geometry.Reversed | Geometry.py:76 | reversal keeps the length and maps index k to index n-1-k |
| Geometry.ReversedTwice | Geometry.py:73-76 | reversing twice restores the sequence |
| Geometry.GrahamScan | Geometry.py:56-77 | raises iff fewer than 2 points; otherwise the hull is the scan stack over all the points (ScanStack), an order-preserving subsequence of 2..n points that starts with the first point and ends with the last |
| Geometry.Scan | Geometry.py:57-70 | the stack after the loop is the scan stack over all the points: each point pops the top once when it lies left of the line from the top to the point below, and is then pushed |
| Geometry.ScanIndices | Geometry.py:57-70 | the scan stack as indices: 2..i entries, the top is the last point seen and the entry below it a smaller index |
| Geometry.ScanIndicesIncrease | Geometry.py:57-70 | the scan stack's indices start at 0 and increase: the stack keeps the input order |
| Geometry.ScanIndicesInRange | Geometry.py:57-70 | every index on the scan stack names a point already seen |
| Geometry.ScanStackShape | Geometry.py:57-70 | the scan stack holds 2..n points, starts with the first point, ends with the last point seen and is an order-preserving subsequence of the input |
| Geometry.ScanStateStep | Geometry.py:63-69 | one pass of the loop body (read the top two, pop when the point is on the left, push) moves the stack from the scan state after point i to the one after point i + 1 |
| Geometry.ScanTurn | Geometry.py:67 | the loop's `isLeft` test on the top two stack points is the scan's turn test on their coordinates |
| Geometry.PopAll | Geometry.py:72-76 | popping into a list and reversing gives the stack bottom to top |
| Geometry.AngleKey | Geometry.py:88-96 | the westmost point's key is 9999.9 - 360 and every other key is at most 180; no key is the TAKEN mark |
| Geometry.Untaken | Geometry.py:98-109 | the number of keys not yet taken is at most the number of keys |
| Geometry.UntakenTake | Geometry.py:107 | taking an untaken key lowers the count by one |
| Geometry.SelectionStep | Geometry.py:99-109 | taking the first largest remaining key extends a sorted selection |
| Geometry.SelectionDone | Geometry.py:98-110 | when the count reaches 0 the selected indices are a permutation in key order |
| Geometry.SelectByKey | Geometry.py:98-110 | the selection loop outputs the points in a permutation ordered by decreasing key, ties by lower index |
| Geometry.FirstLargest | Geometry.py:100-103 | the inner loop finds the first index of the largest key |
| Geometry.FirstKeyComesFirst | Geometry.py:91 | the westmost point's key exceeds all others, so it comes first |
| Geometry.OrderByAngle | Geometry.py:79-110 | a permutation of the points that starts with the westmost point and lists the rest by non-increasing heading, ties by index; an error of the scan propagates, and a heading error is the fault of the first point whose heading raises |
| Geometry.AngleSorted | Geometry.py:117-141 | the list keeps its length and starts with the westmost point |
| Geometry.AngleSortedContents | Geometry.py:121-140 | the list is not a reordering: one copy of the last remaining point is replaced by a second copy of the first |
| Geometry.AngleSort | Geometry.py:112-141 | the caller's list is changed in place and returned; a scan error leaves it unchanged and a one-point list is emptied before IndexError |
| Geometry.ShiftedStep | Geometry.py:137-139 | one pass of the shifting loop (replace the element at `outside` by the previous one) advances the shift by one position |
| Geometry.ShiftedDone | Geometry.py:125-139 | after the loop the list is its first element followed by all but its last |
| Navigate.ParseAll | Navigate.py:744-745 | every field is read with `float()`; the result succeeds iff every field reads, and then holds the values in order |
| Navigate.FillEmpty | Navigate.py:732-743 | each empty field becomes "0.0" and every other field is kept |
| Navigate.FillEmptyIdempotent | Navigate.py:731-743 | filling twice is filling once; no field stays empty; non-empty fields are untouched |
| Navigate.DecimalFieldsShape | Navigate.py:724-730 | decimal mode leaves three non-empty fields: the degrees ("0.0" if empty), then "0.0" twice |
| Navigate.LatitudeMessages | Navigate.py:761-767 | at most three latitude dialogs |
| Navigate.LongitudeMessages | Navigate.py:769-775 | at most three longitude dialogs |
| Navigate.TimeMessages | Navigate.py:777-783 | at most three time dialogs |
| Navigate.LatitudeMessagesMeaning | Navigate.py:761-767 | no dialog iff \|deg\| <= 90 with minutes and seconds in [0, 60); each message is shown iff its rule is broken |
| Navigate.LongitudeMessagesMeaning | Navigate.py:769-775 | no dialog iff \|deg\| < 360 with minutes and seconds in [0, 60); each message is shown iff its rule is broken |
| Navigate.TimeMessagesMeaning | Navigate.py:777-783 | no dialog iff hours >= 0 with minutes and seconds in [0, 60); each message is shown iff its rule is broken |
| Navigate.ValidatedReportsButReturns | Navigate.py:744-748 | out-of-range values are returned as read, with no dialog iff both are in range; a field that does not read raises ValueError with no dialog |
| Navigate.EmptyFieldReadsAsZero | Navigate.py:733-745 | an empty field is read as 0.0 |
| Navigate.ValidatedTimeReportsButReturns | Navigate.py:757-759 | a running time is returned whatever its range; no dialog iff it is in range |
| Navigate.FillEmptyFields | Navigate.py:732-737 | the loop replaces each empty field of the caller's list by "0.0" in place |
| Navigate.Navigate.constructor | Navigate.py:45-46 | the window starts in degree-minute-second mode with no dialog shown |
| Navigate.Navigate.ShowError | NavError.py:19-24 | a dialog appends its message to the log |
| Navigate.Navigate.CheckLatitudeRange | Navigate.py:761-767 | appends the latitude dialogs in order; a missing entry raises IndexError |
| Navigate.Navigate.CheckLongitudeRange | Navigate.py:769-775 | appends the longitude dialogs in order; a missing entry raises IndexError |
| Navigate.Navigate.CheckTimeRange | Navigate.py:777-783 | appends the time dialogs in order; a missing entry raises IndexError |
| Navigate.Navigate.ApplyDefaults | Navigate.py:724-743 | decimal mode fills the degrees and overwrites minutes and seconds; DMS mode fills every empty field; an empty list in decimal mode raises IndexError after the changes already made |
| Navigate.Navigate.ReadAndCheck | Navigate.py:744-748 | reads both lists and range-checks them; the values are returned even when out of range |
| Navigate.Navigate.CheckInput | Navigate.py:723-748 | the caller's lists hold the filled fields, the result is the values read, and the dialogs are those of the range rules |
| Navigate.Navigate.CheckInputTime | Navigate.py:750-759 | the caller's list holds the filled fields, the result is the hours read, and the dialogs are those of the time rules |

## Left out

- The GTK window: widget wiring, page switching, the `process*` handlers, `toDecimal`/`toDMS`, `clear` and `bye_bye`. The dialog of `NavError.py` is reduced to its message.
- The accuracy of the floating-point trigonometry. The math functions are uninterpreted, with only range and sign facts, and `real` stands for Python floats. NaN, infinities and rounding are therefore not modelled.
- `rhumb_line`, `NewPositionLatitude`, `NewPositionLongitude`, `NewPositionFraction`, `CalculatePositionXY` and `CalculateXY`. These are spherical formulas outside the modelled decision logic.
- `hrs2hms`: it unpacks the single float that `dms2dec` returns into three names, so it always raises.
- `toString`, `showPoint`, `showPoints`, `showOrientationPoints`: string formatting for debugging.
- The `Stack` class is imported from a package that is not part of this model. It is modelled as a Dafny sequence used as a stack.
- The one-argument `GeographicPosition(x)`, which raises IndexError on `args[1]`, is not modelled.
- `__eq__` returning `NotImplemented` for a non-position argument is not modelled: the Dafny `Equals` takes only positions or points.
- Navigate.Navigate.CheckInput: `float()` is a parameter, and only its behaviour on "0.0" and "" and its ValueError are fixed. Which other texts parse is left open.
- NavUtils.CalculateBearing: the error dialog shown beyond 85 degrees is returned as a message in the result rather than shown.
- NavUtils.GreatCircle: only the bounds of the arrival position are stated. Its numeric accuracy is not.
- Geometry.AngleSort: the shifting loop body guarded by `orient == Orientation.CW` is unreachable, since a string never equals an enum member. The model asserts that the guard is false instead of writing the loop.
