/** Coordinate guards and constructors (lib/types.ts). Coordinates are reals;
    the source's floating-point numbers (NaN, infinities) are not modelled. */
module Coordinates {
  import opened Wrappers

  const MinLatitude: real := -90.0
  const MaxLatitude: real := 90.0
  const MinLongitude: real := -180.0
  const MaxLongitude: real := 180.0

  /** isValidLatitude. */
  predicate IsValidLatitude(v: real) {
    MinLatitude <= v <= MaxLatitude
  }

  /** isValidLongitude. */
  predicate IsValidLongitude(v: real) {
    MinLongitude <= v <= MaxLongitude
  }

  datatype CoordinateError = InvalidLatitude(lat: real) | InvalidLongitude(lng: real)

  /** A latitude/longitude pair whose components passed the guards. */
  datatype Coordinates = Coordinates(lat: real, lng: real)

  /** createLatitude: the value itself when it lies in [-90, 90], else an error. */
  function CreateLatitude(v: real): (r: Result<real, CoordinateError>)
    ensures r.Success? <==> -90.0 <= v <= 90.0
    ensures r.Success? ==> r.value == v
    ensures r.Failure? ==> r.error == InvalidLatitude(v)
  {
    if !IsValidLatitude(v) then Failure(InvalidLatitude(v)) else Success(v)
  }

  /** createLongitude: the value itself when it lies in [-180, 180], else an error. */
  function CreateLongitude(v: real): (r: Result<real, CoordinateError>)
    ensures r.Success? <==> -180.0 <= v <= 180.0
    ensures r.Success? ==> r.value == v
    ensures r.Failure? ==> r.error == InvalidLongitude(v)
  {
    if !IsValidLongitude(v) then Failure(InvalidLongitude(v)) else Success(v)
  }

  /** createCoordinates: the latitude constructor runs first, so a pair with
      both components out of range reports the latitude. */
  function CreateCoordinates(lat: real, lng: real): (r: Result<Coordinates, CoordinateError>)
    ensures r.Success? <==> IsValidLatitude(lat) && IsValidLongitude(lng)
    ensures r.Success? ==> r.value == Coordinates(lat, lng)
    ensures !IsValidLatitude(lat) ==> r == Failure(InvalidLatitude(lat))
    ensures IsValidLatitude(lat) && !IsValidLongitude(lng) ==> r == Failure(InvalidLongitude(lng))
  {
    var la :- CreateLatitude(lat);
    var lo :- CreateLongitude(lng);
    Success(Coordinates(la, lo))
  }

  /** areCoordinatesValid: a missing (null or undefined) component makes the
      pair invalid; otherwise both range guards must hold. */
  function AreCoordinatesValid(lat: Option<real>, lng: Option<real>): (b: bool)
    ensures b <==> lat.Some? && lng.Some? && -90.0 <= lat.value <= 90.0 && -180.0 <= lng.value <= 180.0
  {
    if lat.None? || lng.None? then false
    else IsValidLatitude(lat.value) && IsValidLongitude(lng.value)
  }

  /** The guard and the constructor agree: a present pair is valid exactly
      when createCoordinates accepts it, and then it comes back unchanged. */
  lemma GuardAgreesWithConstructor(lat: real, lng: real)
    ensures AreCoordinatesValid(Some(lat), Some(lng)) <==> CreateCoordinates(lat, lng).Success?
    ensures AreCoordinatesValid(Some(lat), Some(lng)) ==> CreateCoordinates(lat, lng).value == Coordinates(lat, lng)
  {
  }
}
