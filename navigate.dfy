/**
 * The input handling of the navigation window: the text of the entry fields
 * is completed with defaults, read as numbers, and range-checked.  A failed
 * range check shows an error dialog and nothing more; the values are returned
 * all the same.  The window's widgets are not modelled: the dialogs it shows
 * become messages appended to `errorLog`, and Python's `float()` is a
 * parameter.
 */
module Navigate {
  import opened Outcomes
  import opened PyLists
  import NavCommon

  /** The text an empty entry field is replaced with. */
  const DEFAULT_FIELD: string := "0.0"

  const LAT_MSG: string := "Latitude out of range"
  const LAT_MIN_MSG: string := "Latitude Minutes out of range"
  const LAT_SEC_MSG: string := "Latitude Seconds out of range"
  const LON_MSG: string := "Longitude out of range"
  const LON_MIN_MSG: string := "Longitude Minutes out of range"
  const LON_SEC_MSG: string := "Longitude Seconds out of range"
  const TIME_MSG: string := "Time cannot be negative"
  const TIME_MIN_MSG: string := "Running Time Minutes out of range"
  const TIME_SEC_MSG: string := "Running Time Seconds out of range"

  /**
   * What the model needs of Python's `float()` on the text of a field: it
   * reads "0.0" as 0.0, rejects the empty text, and fails only with
   * ValueError.  Which other texts it accepts is left open.
   */
  ghost predicate FloatLike(float: string -> Outcome<real>) {
    && float(DEFAULT_FIELD) == Ok(0.0)
    && float("").Raise?
    && forall s :: float(s).Raise? ==> float(s).fault == ValueError
  }

  /** `[float(x) for x in fields]`: every field read in order; the first failure is raised. */
  function ParseAll(float: string -> Outcome<real>, fields: seq<string>): (r: Outcome<seq<real>>)
    ensures r.Ok? <==> forall i :: 0 <= i < |fields| ==> float(fields[i]).Ok?
    ensures r.Ok? ==> |r.value| == |fields| && forall i :: 0 <= i < |fields| ==> float(fields[i]) == Ok(r.value[i])
    ensures r.Raise? ==> exists i :: 0 <= i < |fields| && float(fields[i]) == Raise(r.fault)
  {
    if |fields| == 0 then Ok([])
    else
      var x :- float(fields[0]);
      var rest :- ParseAll(float, fields[1..]);
      Ok([x] + rest)
  }

  /** A field after the empty-text default. */
  function FillEntry(x: string): string {
    if x == "" then DEFAULT_FIELD else x
  }

  /** The fields after the degree-minute-second mode loop: each empty one becomes "0.0". */
  function FillEmpty(fields: seq<string>): (r: seq<string>)
    ensures |r| == |fields|
    ensures forall i :: 0 <= i < |fields| ==> r[i] == (if fields[i] == "" then DEFAULT_FIELD else fields[i])
  {
    if |fields| == 0 then [] else FillEmpty(fields[..|fields| - 1]) + [FillEntry(fields[|fields| - 1])]
  }

  /** Filling twice is filling once, no field is left empty, and filled text is kept. */
  lemma FillEmptyIdempotent(fields: seq<string>)
    ensures FillEmpty(FillEmpty(fields)) == FillEmpty(fields)
    ensures forall i :: 0 <= i < |fields| ==> FillEmpty(fields)[i] != ""
    ensures forall i :: 0 <= i < |fields| && fields[i] != "" ==> FillEmpty(fields)[i] == fields[i]
  {
  }

  /**
   * The fields after the decimal mode defaults: the first field, "0.0" if it
   * was empty, then "0.0" for the minutes and seconds whatever they held.
   */
  function DecimalFields(fields: seq<string>): seq<string>
    requires |fields| > 0
  {
    [FillEntry(fields[0])] + [DEFAULT_FIELD, DEFAULT_FIELD]
  }

  /**
   * Decimal mode leaves exactly three non-empty fields, keeps non-empty degree
   * text, ignores everything after the first field, and applying it twice is
   * applying it once.
   */
  lemma DecimalFieldsShape(fields: seq<string>)
    requires |fields| > 0
    ensures var r := DecimalFields(fields);
            && |r| == 3 && r[1] == r[2] == DEFAULT_FIELD
            && (fields[0] != "" ==> r[0] == fields[0])
            && (forall i :: 0 <= i < 3 ==> r[i] != "")
            && DecimalFields(r) == r
    ensures DecimalFields(fields) == DecimalFields(fields[..1])
  {
  }

  /** Whether the defaults can be applied without an index error. */
  predicate Fillable(dms: bool, lat: seq<string>, lon: seq<string>) {
    dms || (|lat| > 0 && |lon| > 0)
  }

  /** The fields after `checkInput` has applied the defaults of the mode. */
  function Filled(dms: bool, fields: seq<string>): seq<string>
    requires dms || |fields| > 0
  {
    if dms then FillEmpty(fields) else DecimalFields(fields)
  }

  /** A minutes or seconds entry outside [0, 60). */
  predicate OutsideSixty(v: real) {
    v < 0.0 || v >= 60.0
  }

  /**
   * The dialogs `checkLatitudeRange` shows, in order, for the entries that
   * exist (a missing entry raises IndexError once its rule is reached).
   */
  function LatitudeMessages(lat: seq<real>): (msgs: seq<string>)
    ensures |msgs| <= 3
  {
    (if |lat| > 0 && NavCommon.Abs(lat[0]) > 90.0 then [LAT_MSG] else [])
    + (if |lat| > 1 && OutsideSixty(lat[1]) then [LAT_MIN_MSG] else [])
    + (if |lat| > 2 && OutsideSixty(lat[2]) then [LAT_SEC_MSG] else [])
  }

  /** The dialogs `checkLongitudeRange` shows; longitude degrees may reach just below 360. */
  function LongitudeMessages(lon: seq<real>): (msgs: seq<string>)
    ensures |msgs| <= 3
  {
    (if |lon| > 0 && NavCommon.Abs(lon[0]) >= 360.0 then [LON_MSG] else [])
    + (if |lon| > 1 && OutsideSixty(lon[1]) then [LON_MIN_MSG] else [])
    + (if |lon| > 2 && OutsideSixty(lon[2]) then [LON_SEC_MSG] else [])
  }

  /** The dialogs `checkTimeRange` shows; the hours have no upper bound. */
  function TimeMessages(hours: seq<real>): (msgs: seq<string>)
    ensures |msgs| <= 3
  {
    (if |hours| > 0 && hours[0] < 0.0 then [TIME_MSG] else [])
    + (if |hours| > 1 && OutsideSixty(hours[1]) then [TIME_MIN_MSG] else [])
    + (if |hours| > 2 && OutsideSixty(hours[2]) then [TIME_SEC_MSG] else [])
  }

  /** A latitude in [-90, 90] degrees with minutes and seconds in [0, 60). */
  predicate LatitudeInRange(lat: seq<real>)
    requires |lat| >= 3
  {
    -90.0 <= lat[0] <= 90.0 && !OutsideSixty(lat[1]) && !OutsideSixty(lat[2])
  }

  /** A longitude strictly between -360 and 360 degrees with minutes and seconds in [0, 60). */
  predicate LongitudeInRange(lon: seq<real>)
    requires |lon| >= 3
  {
    -360.0 < lon[0] < 360.0 && !OutsideSixty(lon[1]) && !OutsideSixty(lon[2])
  }

  /** A running time of non-negative hours with minutes and seconds in [0, 60). */
  predicate TimeInRange(hours: seq<real>)
    requires |hours| >= 3
  {
    0.0 <= hours[0] && !OutsideSixty(hours[1]) && !OutsideSixty(hours[2])
  }

  /** No latitude dialog exactly when the latitude is in range; each dialog names the rule it breaks. */
  lemma LatitudeMessagesMeaning(lat: seq<real>)
    requires |lat| >= 3
    ensures LatitudeMessages(lat) == [] <==> LatitudeInRange(lat)
    ensures LAT_MSG in LatitudeMessages(lat) <==> !(-90.0 <= lat[0] <= 90.0)
    ensures LAT_MIN_MSG in LatitudeMessages(lat) <==> OutsideSixty(lat[1])
    ensures LAT_SEC_MSG in LatitudeMessages(lat) <==> OutsideSixty(lat[2])
  {
    var a := if NavCommon.Abs(lat[0]) > 90.0 then [LAT_MSG] else [];
    var b := if OutsideSixty(lat[1]) then [LAT_MIN_MSG] else [];
    var c := if OutsideSixty(lat[2]) then [LAT_SEC_MSG] else [];
    assert LatitudeMessages(lat) == a + b + c;
    assert LAT_MSG != LAT_MIN_MSG && LAT_MSG != LAT_SEC_MSG && LAT_MIN_MSG != LAT_SEC_MSG;
  }

  /** No longitude dialog exactly when the longitude is in range; each dialog names the rule it breaks. */
  lemma LongitudeMessagesMeaning(lon: seq<real>)
    requires |lon| >= 3
    ensures LongitudeMessages(lon) == [] <==> LongitudeInRange(lon)
    ensures LON_MSG in LongitudeMessages(lon) <==> !(-360.0 < lon[0] < 360.0)
    ensures LON_MIN_MSG in LongitudeMessages(lon) <==> OutsideSixty(lon[1])
    ensures LON_SEC_MSG in LongitudeMessages(lon) <==> OutsideSixty(lon[2])
  {
    var a := if NavCommon.Abs(lon[0]) >= 360.0 then [LON_MSG] else [];
    var b := if OutsideSixty(lon[1]) then [LON_MIN_MSG] else [];
    var c := if OutsideSixty(lon[2]) then [LON_SEC_MSG] else [];
    assert LongitudeMessages(lon) == a + b + c;
    assert LON_MSG != LON_MIN_MSG && LON_MSG != LON_SEC_MSG && LON_MIN_MSG != LON_SEC_MSG;
  }

  /** No time dialog exactly when the running time is in range; each dialog names the rule it breaks. */
  lemma TimeMessagesMeaning(hours: seq<real>)
    requires |hours| >= 3
    ensures TimeMessages(hours) == [] <==> TimeInRange(hours)
    ensures TIME_MSG in TimeMessages(hours) <==> hours[0] < 0.0
    ensures TIME_MIN_MSG in TimeMessages(hours) <==> OutsideSixty(hours[1])
    ensures TIME_SEC_MSG in TimeMessages(hours) <==> OutsideSixty(hours[2])
  {
    var a := if hours[0] < 0.0 then [TIME_MSG] else [];
    var b := if OutsideSixty(hours[1]) then [TIME_MIN_MSG] else [];
    var c := if OutsideSixty(hours[2]) then [TIME_SEC_MSG] else [];
    assert TimeMessages(hours) == a + b + c;
    assert TIME_MSG != TIME_MIN_MSG && TIME_MSG != TIME_SEC_MSG && TIME_MIN_MSG != TIME_SEC_MSG;
  }

  /**
   * What `checkInput` returns for filled fields: both lists read as numbers,
   * then an IndexError if either has fewer than three entries.  The range
   * checks never change the result.
   */
  function Validated(float: string -> Outcome<real>, lat: seq<string>, lon: seq<string>): Outcome<(seq<real>, seq<real>)> {
    var latitude :- ParseAll(float, lat);
    var longitude :- ParseAll(float, lon);
    if |latitude| < 3 || |longitude| < 3 then Raise(IndexError) else Ok((latitude, longitude))
  }

  /** The dialogs `checkInput` shows for filled fields: none unless both lists read as numbers. */
  function ValidationMessages(float: string -> Outcome<real>, lat: seq<string>, lon: seq<string>): seq<string> {
    match (ParseAll(float, lat), ParseAll(float, lon))
    case (Ok(latitude), Ok(longitude)) =>
      LatitudeMessages(latitude) + (if |latitude| < 3 then [] else LongitudeMessages(longitude))
    case _ => []
  }

  /**
   * Out-of-range values are reported, not rejected: three fields each that
   * read as numbers are returned as read, and there is no dialog exactly when
   * both positions are in range.  A field that does not read as a number
   * raises ValueError and shows no dialog.
   */
  lemma ValidatedReportsButReturns(float: string -> Outcome<real>, lat: seq<string>, lon: seq<string>)
    requires FloatLike(float)
    ensures ParseAll(float, lat).Raise? || ParseAll(float, lon).Raise? ==>
              Validated(float, lat, lon) == Raise(ValueError) && ValidationMessages(float, lat, lon) == []
    ensures ParseAll(float, lat).Ok? && ParseAll(float, lon).Ok? && |lat| >= 3 && |lon| >= 3 ==>
              var latitude, longitude := ParseAll(float, lat).value, ParseAll(float, lon).value;
              && Validated(float, lat, lon) == Ok((latitude, longitude))
              && (ValidationMessages(float, lat, lon) == [] <==> LatitudeInRange(latitude) && LongitudeInRange(longitude))
  {
    var pa, po := ParseAll(float, lat), ParseAll(float, lon);
    if pa.Ok? && po.Ok? && |lat| >= 3 && |lon| >= 3 {
      LatitudeMessagesMeaning(pa.value);
      LongitudeMessagesMeaning(po.value);
    }
  }

  /** In degree-minute-second mode an empty field counts as 0.0. */
  lemma EmptyFieldReadsAsZero(float: string -> Outcome<real>, fields: seq<string>, i: nat)
    requires FloatLike(float) && i < |fields| && fields[i] == ""
    requires ParseAll(float, FillEmpty(fields)).Ok?
    ensures ParseAll(float, FillEmpty(fields)).value[i] == 0.0
  {
  }

  /** What `checkInputTime` returns for filled fields. */
  function ValidatedTime(float: string -> Outcome<real>, fields: seq<string>): Outcome<seq<real>> {
    var hours :- ParseAll(float, fields);
    if |hours| < 3 then Raise(IndexError) else Ok(hours)
  }

  /** The dialogs `checkInputTime` shows for filled fields. */
  function TimeValidationMessages(float: string -> Outcome<real>, fields: seq<string>): seq<string> {
    match ParseAll(float, fields)
    case Ok(hours) => TimeMessages(hours)
    case Raise(_) => []
  }

  /** A running time is returned whatever its range; there is no dialog exactly when it is in range. */
  lemma ValidatedTimeReportsButReturns(float: string -> Outcome<real>, fields: seq<string>)
    requires FloatLike(float)
    ensures ParseAll(float, fields).Raise? ==>
              ValidatedTime(float, fields) == Raise(ValueError) && TimeValidationMessages(float, fields) == []
    ensures ParseAll(float, fields).Ok? && |fields| >= 3 ==>
              && ValidatedTime(float, fields) == ParseAll(float, fields)
              && (TimeValidationMessages(float, fields) == [] <==> TimeInRange(ParseAll(float, fields).value))
  {
    if ParseAll(float, fields).Ok? && |fields| >= 3 {
      TimeMessagesMeaning(ParseAll(float, fields).value);
    }
  }

  /**
   * The degree-minute-second mode loop of `checkInput` and `checkInputTime`:
   * every empty field of the caller's list is set to "0.0" in place.
   */
  method FillEmptyFields(fields: PyList<string>)
    modifies fields
    ensures fields.items == FillEmpty(old(fields.items))
  {
    var i := 0;
    while i < fields.Length()
      invariant 0 <= i <= |fields.items| == |old(fields.items)|
      invariant forall k :: 0 <= k < i ==> fields.items[k] == FillEntry(old(fields.items)[k])
      invariant forall k :: i <= k < |fields.items| ==> fields.items[k] == old(fields.items)[k]
    {
      if fields.Get(i) == "" {
        fields.Set(i, DEFAULT_FIELD);
      }
      i := i + 1;
    }
  }

  class Navigate {
    /** `dms_f`: degree-minute-second entry (true) or decimal degrees (false). */
    var dmsMode: bool
    /** The texts of the error dialogs shown so far, oldest first. */
    var errorLog: seq<string>

    /** The window starts in degree-minute-second mode with no dialog shown. */
    constructor ()
      ensures dmsMode && errorLog == []
    {
      dmsMode := true;
      errorLog := [];
    }

    /** `NavError(message)`: one error dialog. */
    method ShowError(message: string)
      modifies this
      ensures errorLog == old(errorLog) + [message] && dmsMode == old(dmsMode)
    {
      errorLog := errorLog + [message];
    }

    /** `checkLatitudeRange`: a dialog per broken rule; IndexError for a missing entry. */
    method CheckLatitudeRange(lat: seq<real>) returns (r: Outcome<()>)
      modifies this
      ensures errorLog == old(errorLog) + LatitudeMessages(lat) && dmsMode == old(dmsMode)
      ensures r == if |lat| < 3 then Raise(IndexError) else Ok(())
    {
      if |lat| == 0 {
        return Raise(IndexError);
      }
      if NavCommon.Abs(lat[0]) > 90.0 {
        ShowError(LAT_MSG);
      }
      if |lat| == 1 {
        return Raise(IndexError);
      }
      if OutsideSixty(lat[1]) {
        ShowError(LAT_MIN_MSG);
      }
      if |lat| == 2 {
        return Raise(IndexError);
      }
      if OutsideSixty(lat[2]) {
        ShowError(LAT_SEC_MSG);
      }
      r := Ok(());
    }

    /** `checkLongitudeRange`: a dialog per broken rule; IndexError for a missing entry. */
    method CheckLongitudeRange(lon: seq<real>) returns (r: Outcome<()>)
      modifies this
      ensures errorLog == old(errorLog) + LongitudeMessages(lon) && dmsMode == old(dmsMode)
      ensures r == if |lon| < 3 then Raise(IndexError) else Ok(())
    {
      if |lon| == 0 {
        return Raise(IndexError);
      }
      if NavCommon.Abs(lon[0]) >= 360.0 {
        ShowError(LON_MSG);
      }
      if |lon| == 1 {
        return Raise(IndexError);
      }
      if OutsideSixty(lon[1]) {
        ShowError(LON_MIN_MSG);
      }
      if |lon| == 2 {
        return Raise(IndexError);
      }
      if OutsideSixty(lon[2]) {
        ShowError(LON_SEC_MSG);
      }
      r := Ok(());
    }

    /** `checkTimeRange`: a dialog per broken rule; IndexError for a missing entry. */
    method CheckTimeRange(hours: seq<real>) returns (r: Outcome<()>)
      modifies this
      ensures errorLog == old(errorLog) + TimeMessages(hours) && dmsMode == old(dmsMode)
      ensures r == if |hours| < 3 then Raise(IndexError) else Ok(())
    {
      if |hours| == 0 {
        return Raise(IndexError);
      }
      if hours[0] < 0.0 {
        ShowError(TIME_MSG);
      }
      if |hours| == 1 {
        return Raise(IndexError);
      }
      if OutsideSixty(hours[1]) {
        ShowError(TIME_MIN_MSG);
      }
      if |hours| == 2 {
        return Raise(IndexError);
      }
      if OutsideSixty(hours[2]) {
        ShowError(TIME_SEC_MSG);
      }
      r := Ok(());
    }

    /**
     * The first half of `checkInput`: the defaults of the current mode,
     * applied to the caller's lists in place.  In decimal mode an empty list
     * raises IndexError when its first field is read, after any change
     * already made to the other list.
     */
    method ApplyDefaults(latStr: PyList<string>, lonStr: PyList<string>) returns (r: Outcome<()>)
      modifies latStr, lonStr
      ensures !dmsMode && |old(latStr.items)| == 0 ==>
                r == Raise(IndexError) && latStr.items == old(latStr.items) && lonStr.items == old(lonStr.items)
      ensures !dmsMode && |old(latStr.items)| > 0 && |old(lonStr.items)| == 0 ==>
                && r == Raise(IndexError)
                && latStr.items == old(latStr.items)[0 := FillEntry(old(latStr.items)[0])] && lonStr.items == []
      ensures Fillable(dmsMode, old(latStr.items), old(lonStr.items)) ==>
                && r == Ok(())
                && latStr.items == Filled(dmsMode, old(latStr.items))
                && lonStr.items == Filled(dmsMode, old(lonStr.items))
    {
      if !dmsMode {
        if latStr.Length() == 0 {
          return Raise(IndexError);
        }
        if latStr.Get(0) == "" {
          latStr.Set(0, DEFAULT_FIELD);
        }
        if lonStr.Length() == 0 {
          return Raise(IndexError);
        }
        if lonStr.Get(0) == "" {
          lonStr.Set(0, DEFAULT_FIELD);
        }
        latStr.SetTail(1, [DEFAULT_FIELD, DEFAULT_FIELD]);
        lonStr.SetTail(1, [DEFAULT_FIELD, DEFAULT_FIELD]);
        if latStr == lonStr {
          DecimalFieldsShape(old(latStr.items));
        }
      } else {
        FillEmptyFields(latStr);
        FillEmptyFields(lonStr);
        if latStr == lonStr {
          FillEmptyIdempotent(old(latStr.items));
        }
      }
      r := Ok(());
    }

    /**
     * The second half of `checkInput`: both lists read as numbers, then both
     * range-checked; out-of-range values are reported and still returned.
     */
    method ReadAndCheck(lat: seq<string>, lon: seq<string>, float: string -> Outcome<real>)
      returns (r: Outcome<(seq<real>, seq<real>)>)
      modifies this
      ensures dmsMode == old(dmsMode)
      ensures r == Validated(float, lat, lon)
      ensures errorLog == old(errorLog) + ValidationMessages(float, lat, lon)
    {
      var latitude :- ParseAll(float, lat);
      var longitude :- ParseAll(float, lon);
      var latChecked := CheckLatitudeRange(latitude);
      if latChecked.Raise? {
        return Raise(latChecked.fault);
      }
      var lonChecked := CheckLongitudeRange(longitude);
      if lonChecked.Raise? {
        return Raise(lonChecked.fault);
      }
      r := Ok((latitude, longitude));
    }

    /** `checkInput`: the defaults of the mode, then reading and range checks. */
    method CheckInput(latStr: PyList<string>, lonStr: PyList<string>, float: string -> Outcome<real>)
      returns (r: Outcome<(seq<real>, seq<real>)>)
      modifies this, latStr, lonStr
      ensures dmsMode == old(dmsMode)
      ensures !dmsMode && |old(latStr.items)| == 0 ==>
                && r == Raise(IndexError) && errorLog == old(errorLog)
                && latStr.items == old(latStr.items) && lonStr.items == old(lonStr.items)
      ensures !dmsMode && |old(latStr.items)| > 0 && |old(lonStr.items)| == 0 ==>
                && r == Raise(IndexError) && errorLog == old(errorLog)
                && latStr.items == old(latStr.items)[0 := FillEntry(old(latStr.items)[0])] && lonStr.items == []
      ensures Fillable(dmsMode, old(latStr.items), old(lonStr.items)) ==>
                && latStr.items == Filled(dmsMode, old(latStr.items))
                && lonStr.items == Filled(dmsMode, old(lonStr.items))
                && r == Validated(float, latStr.items, lonStr.items)
                && errorLog == old(errorLog) + ValidationMessages(float, latStr.items, lonStr.items)
    {
      var filled := ApplyDefaults(latStr, lonStr);
      if filled.Raise? {
        return Raise(filled.fault);
      }
      r := ReadAndCheck(latStr.items, lonStr.items, float);
    }

    /**
     * `checkInputTime`: every empty field of the caller's list becomes "0.0"
     * (whatever the mode), then the list is read as numbers and range-checked.
     */
    method CheckInputTime(timeS: PyList<string>, float: string -> Outcome<real>) returns (r: Outcome<seq<real>>)
      modifies this, timeS
      ensures dmsMode == old(dmsMode)
      ensures timeS.items == FillEmpty(old(timeS.items))
      ensures r == ValidatedTime(float, timeS.items)
      ensures errorLog == old(errorLog) + TimeValidationMessages(float, timeS.items)
    {
      FillEmptyFields(timeS);
      var hours :- ParseAll(float, timeS.items);
      var checked := CheckTimeRange(hours);
      if checked.Raise? {
        return Raise(checked.fault);
      }
      r := Ok(hours);
    }
  }
}
