/**
 * A decimal-degree latitude/longitude whose fields the setters update in
 * place.  Two positions are equal when both coordinates agree, or when both
 * are at the same pole, where longitude has no meaning.
 */
module GeoPosition {

  /** The `__eq__` rule on bare coordinates. */
  predicate SamePosition(lat1: real, lon1: real, lat2: real, lon2: real) {
    (lat1 == lat2 && lon1 == lon2) || (lat1 == 90.0 && lat2 == 90.0) || (lat1 == -90.0 && lat2 == -90.0)
  }

  class GeographicPosition {
    var latitude: real
    var longitude: real

    /** `GeographicPosition()`: the origin (0.0, 0.0). */
    constructor Origin()
      ensures latitude == 0.0 && longitude == 0.0
    {
      latitude, longitude := 0.0, 0.0;
    }

    /** `GeographicPosition(lat, lon)`: stores exactly the two arguments. */
    constructor (lat: real, lon: real)
      ensures latitude == lat && longitude == lon
    {
      latitude, longitude := lat, lon;
    }

    method SetLatitude(newLat: real)
      modifies this
      ensures latitude == newLat && longitude == old(longitude)
      ensures GetLatitude() == newLat
    {
      latitude := newLat;
    }

    method SetLongitude(newLon: real)
      modifies this
      ensures longitude == newLon && latitude == old(latitude)
      ensures GetLongitude() == newLon
    {
      longitude := newLon;
    }

    function GetLatitude(): (r: real)
      reads this
      ensures r == latitude
    {
      latitude
    }

    function GetLongitude(): (r: real)
      reads this
      ensures r == longitude
    {
      longitude
    }

    /**
     * `__eq__` with another GeographicPosition: the latitudes agree, and so do
     * the longitudes unless both positions are at the same pole.
     */
    function Equals(other: GeographicPosition): (r: bool)
      reads this, other
      ensures r <==> latitude == other.latitude && (longitude == other.longitude || latitude == 90.0 || latitude == -90.0)
    {
      SamePosition(latitude, longitude, other.latitude, other.longitude)
    }
  }

  /**
   * Equality holds exactly when both coordinates are equal or both latitudes are
   * +90 or both are -90; it is reflexive and symmetric.
   */
  lemma EqualsCharacterized(a: GeographicPosition, b: GeographicPosition)
    ensures a.Equals(b) <==>
              || (a.latitude == b.latitude && a.longitude == b.longitude)
              || (a.latitude == 90.0 && b.latitude == 90.0)
              || (a.latitude == -90.0 && b.latitude == -90.0)
    ensures a.Equals(a)
    ensures a.Equals(b) == b.Equals(a)
  {
  }

  /** Two positions at the same pole are equal whatever their longitudes; elsewhere longitudes matter. */
  lemma PolesIgnoreLongitude(lat: real, lon1: real, lon2: real)
    ensures (lat == 90.0 || lat == -90.0) ==> SamePosition(lat, lon1, lat, lon2)
    ensures (lat != 90.0 && lat != -90.0 && lon1 != lon2) ==> !SamePosition(lat, lon1, lat, lon2)
  {
  }
}
