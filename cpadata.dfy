/**
 * The record a closest-point-of-approach computation fills in: where the
 * approaching track will be, how far it travels and for how long, the range
 * between the two tracks at that moment, and how the encounter was classified.
 */
module CpaData {
  import opened GeoPosition

  /** `CPA_State`: approaching, moving apart, or no relative motion. */
  datatype CPAState = VALID | RECEDING | NO_RELATIVE_MOTION {
    /** The enum member's `name`. */
    function Name(): (s: string)
      ensures s == "VALID" <==> this == VALID
      ensures s == "RECEDING" <==> this == RECEDING
      ensures s == "NO_RELATIVE_MOTION" <==> this == NO_RELATIVE_MOTION
    {
      match this
      case VALID => "VALID"
      case RECEDING => "RECEDING"
      case NO_RELATIVE_MOTION => "NO_RELATIVE_MOTION"
    }
  }

  /** Distinct states have distinct names, so a status string identifies its state. */
  lemma NameInjective(a: CPAState, b: CPAState)
    ensures a.Name() == b.Name() ==> a == b
  {
  }

  class CPAData {
    var cpaPosition: GeographicPosition
    var distToCPA: real
    var elapsedTime: real
    var rangeAtCPA: real
    var code: CPAState

    /** A fresh record: position (0, 0), all distances and the time 0.0, code VALID. */
    constructor ()
      ensures fresh(cpaPosition)
      ensures cpaPosition.latitude == 0.0 && cpaPosition.longitude == 0.0
      ensures distToCPA == 0.0 && elapsedTime == 0.0 && rangeAtCPA == 0.0 && code == VALID
    {
      cpaPosition := new GeographicPosition.Origin();
      distToCPA, elapsedTime, rangeAtCPA := 0.0, 0.0, 0.0;
      code := VALID;
    }

    /**
     * `__equals__`: compares the positions by the pole rule, the distance to CPA,
     * the range at CPA and the code; the elapsed time is ignored.
     */
    function Equals(other: CPAData): (r: bool)
      reads this, other, cpaPosition, other.cpaPosition
      ensures r <==>
                && cpaPosition.latitude == other.cpaPosition.latitude
                && (|| cpaPosition.longitude == other.cpaPosition.longitude
                    || cpaPosition.latitude == 90.0 || cpaPosition.latitude == -90.0)
                && distToCPA == other.distToCPA
                && rangeAtCPA == other.rangeAtCPA
                && code == other.code
      ensures other == this ==> r
    {
      && cpaPosition.Equals(other.cpaPosition)
      && distToCPA == other.distToCPA
      && rangeAtCPA == other.rangeAtCPA
      && code == other.code
    }

    /** `setCpaPosition(p)`: the record now holds (shares) the caller's object. */
    method SetCpaPosition(p: GeographicPosition)
      modifies this
      ensures cpaPosition == p
      ensures distToCPA == old(distToCPA) && elapsedTime == old(elapsedTime)
      ensures rangeAtCPA == old(rangeAtCPA) && code == old(code)
    {
      cpaPosition := p;
    }

    /**
     * `setCpaPosition(lat, lon)`: mutates the position object already held, so
     * every other holder of that object sees the new coordinates.
     */
    method SetCpaPositionLatLon(lat: real, lon: real)
      modifies cpaPosition
      ensures cpaPosition == old(cpaPosition)
      ensures cpaPosition.latitude == lat && cpaPosition.longitude == lon
      ensures distToCPA == old(distToCPA) && elapsedTime == old(elapsedTime)
      ensures rangeAtCPA == old(rangeAtCPA) && code == old(code)
    {
      cpaPosition.SetLatitude(lat);
      cpaPosition.SetLongitude(lon);
    }

    function GetCpaPosition(): (p: GeographicPosition)
      reads this
      ensures p == cpaPosition
    {
      cpaPosition
    }

    method SetDistToCPA(d: real)
      modifies this
      ensures distToCPA == d && GetDistToCPA() == d
      ensures cpaPosition == old(cpaPosition) && elapsedTime == old(elapsedTime)
      ensures rangeAtCPA == old(rangeAtCPA) && code == old(code)
    {
      distToCPA := d;
    }

    function GetDistToCPA(): (d: real)
      reads this
      ensures d == distToCPA
    {
      distToCPA
    }

    method SetElapsedTime(t: real)
      modifies this
      ensures elapsedTime == t && GetElapsedTime() == t
      ensures cpaPosition == old(cpaPosition) && distToCPA == old(distToCPA)
      ensures rangeAtCPA == old(rangeAtCPA) && code == old(code)
    {
      elapsedTime := t;
    }

    function GetElapsedTime(): (t: real)
      reads this
      ensures t == elapsedTime
    {
      elapsedTime
    }

    method SetRangeAtCPA(rng: real)
      modifies this
      ensures rangeAtCPA == rng && GetRangeAtCPA() == rng
      ensures cpaPosition == old(cpaPosition) && distToCPA == old(distToCPA)
      ensures elapsedTime == old(elapsedTime) && code == old(code)
    {
      rangeAtCPA := rng;
    }

    function GetRangeAtCPA(): (rng: real)
      reads this
      ensures rng == rangeAtCPA
    {
      rangeAtCPA
    }

    method SetCode(c: CPAState)
      modifies this
      ensures code == c && GetCode() == c
      ensures cpaPosition == old(cpaPosition) && distToCPA == old(distToCPA)
      ensures elapsedTime == old(elapsedTime) && rangeAtCPA == old(rangeAtCPA)
    {
      code := c;
    }

    function GetCode(): (c: CPAState)
      reads this
      ensures c == code
    {
      code
    }

    /** `getStatus`: the name of the code. */
    function GetStatus(): (s: string)
      reads this
      ensures s in {"VALID", "RECEDING", "NO_RELATIVE_MOTION"}
      ensures s == "VALID" <==> code == VALID
      ensures s == code.Name()
    {
      code.Name()
    }
  }

  /**
   * `__equals__` ignores the elapsed time: records that differ only there are
   * equal, and a record equals itself.
   */
  lemma EqualsIgnoresElapsedTime(a: CPAData, b: CPAData)
    requires a.cpaPosition == b.cpaPosition
    requires a.distToCPA == b.distToCPA && a.rangeAtCPA == b.rangeAtCPA && a.code == b.code
    ensures a.Equals(b) && a.Equals(a)
  {
    EqualsCharacterized(a.cpaPosition, b.cpaPosition);
  }

  /** Records with different codes, distances to CPA or ranges at CPA are never equal. */
  lemma EqualsNeedsSameCode(a: CPAData, b: CPAData)
    requires a.code != b.code || a.distToCPA != b.distToCPA || a.rangeAtCPA != b.rangeAtCPA
    ensures !a.Equals(b)
  {
  }
}
