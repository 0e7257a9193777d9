/** Values shared by several screens of the dashboard: a nullable wrapper,
    the abstract outcome of a network request, and the place records that
    the address autocomplete hands to the forms. */
module Common {

  /** A value that may be absent (`null` or `undefined` in the front-end). */
  datatype Option<+T> = None | Some(value: T)

  /** What an awaited `fetch` produced: it threw (network failure, or the
      page's own `throw` on a non-ok status), or it answered with an HTTP
      status verdict `ok` and the body's `success` flag. */
  datatype Reply = Thrown | Received(ok: bool, success: bool)

  /** A latitude/longitude pair, as returned by the map service's
      `geometry.location.lat()` / `lng()`. */
  datatype LatLng = LatLng(lat: real, lng: real)

  /** The parts of an autocomplete place result that the forms read:
      `geometry.location` (possibly missing) and `name` (possibly missing). */
  datatype PlaceResult = PlaceResult(location: Option<LatLng>, name: Option<string>)

  /** A named location as held by the customer and order forms. */
  datatype GeoPoint = GeoPoint(name: string, longitude: real, latitude: real)

  /** The JavaScript truthiness test `place && place.geometry?.location && place.name`:
      a location must be present and the name must be a non-empty string. */
  predicate Usable(place: PlaceResult)
  {
    place.location.Some? && place.name.Some? && place.name.value != ""
  }

  /** The location a usable place resolves to. */
  function PointOf(place: PlaceResult): (p: GeoPoint)
    requires Usable(place)
    ensures p.name == place.name.value && p.name != ""
    ensures p.latitude == place.location.value.lat
    ensures p.longitude == place.location.value.lng
  {
    GeoPoint(place.name.value, place.location.value.lng, place.location.value.lat)
  }

  /** zod's `.min(-180).max(180)` on a longitude and `.min(-90).max(90)` on a latitude. */
  predicate InRange(p: GeoPoint)
  {
    -180.0 <= p.longitude <= 180.0 && -90.0 <= p.latitude <= 90.0
  }
}
