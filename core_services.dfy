/**
 * The legacy doctor finder of backend-fastapi/core/services.py
 * (`find_nearby_doctors`): the choice of location, the specialty lookup and
 * the shaping of the doctor list.  The geocoder and the Overpass query are
 * parameters.
 */
module CoreServices {
  import opened Outcomes

  /** `DoctorFinderRequest`. */
  datatype FinderRequest = FinderRequest(condition: string, latitude: Option<real>, longitude: Option<real>,
                                         address: Option<string>)

  /** A `ValueError` (the endpoint answers 400) or any other exception (500). */
  datatype ServiceError = ValueError(message: string) | OtherError(message: string)

  /** Python truthiness of an optional float: `None` and `0.0` are false. */
  predicate PresentCoordinate(x: Option<real>) {
    x.Some? && x.value != 0.0
  }

  predicate PresentAddress(a: Option<string>) {
    a.Some? && a.value != ""
  }

  /**
   * The search location: the coordinates when both are truthy; otherwise
   * the first geocoder match for a non-empty address (`geocoded` is the
   * match list, or the HTTP failure); otherwise a `ValueError`.
   */
  function SelectLocation(req: FinderRequest, geocoded: Result<seq<(real, real)>, string>): (r: Result<(real, real), ServiceError>)
    ensures PresentCoordinate(req.latitude) && PresentCoordinate(req.longitude) ==> r == Ok((req.latitude.value, req.longitude.value))
    ensures !(PresentCoordinate(req.latitude) && PresentCoordinate(req.longitude)) && PresentAddress(req.address) ==>
              && (geocoded.Err? ==> r == Err(OtherError(geocoded.error)))
              && (geocoded == Ok([]) ==> r == Err(ValueError("Address not found")))
              && (geocoded.Ok? && geocoded.value != [] ==> r == Ok(geocoded.value[0]))
    ensures !(PresentCoordinate(req.latitude) && PresentCoordinate(req.longitude)) && !PresentAddress(req.address) ==>
              r == Err(ValueError("Location information required"))
  {
    if PresentCoordinate(req.latitude) && PresentCoordinate(req.longitude) then Ok((req.latitude.value, req.longitude.value))
    else if PresentAddress(req.address) then
      match geocoded
      case Err(e) => Err(OtherError(e))
      case Ok(matches) => if matches == [] then Err(ValueError("Address not found")) else Ok(matches[0])
    else Err(ValueError("Location information required"))
  }

  /** A zero latitude counts as missing: such a request falls through to its address. */
  lemma ZeroLatitudeUsesAddress(longitude: real, address: string, place: (real, real))
    requires address != ""
    ensures SelectLocation(FinderRequest("Fever", Some(0.0), Some(longitude), Some(address)), Ok([place])) == Ok(place)
    ensures SelectLocation(FinderRequest("Fever", Some(0.0), Some(longitude), None), Ok([place]))
         == Err(ValueError("Location information required"))
  {
  }

  /** `specialty_map.get(condition, "General Practitioner")`. */
  function SpecialtyFor(condition: string): (r: string)
    ensures r == "Dermatologist" <==> condition == "Skin Rash"
    ensures r == "General Practitioner" <==> condition != "Skin Rash"
  {
    if condition == "Skin Rash" then "Dermatologist" else "General Practitioner"
  }

  /** An Overpass element: its `tags`, `None` when the key is missing. */
  datatype Element = Element(tags: Option<map<string, string>>)

  datatype FoundDoctor = FoundDoctor(name: string, kind: string, address: string)

  /** `tags.get(key, "Unknown")`: the default applies only to a missing key, so an empty tag stays empty. */
  function TagOr(tags: map<string, string>, key: string): (r: string)
    ensures key in tags ==> r == tags[key]
    ensures key !in tags ==> r == "Unknown"
    ensures r == "" ==> key in tags && tags[key] == ""
  {
    if key in tags then tags[key] else "Unknown"
  }

  /**
   * One entry per element, of type `specialty`; an element without tags
   * raises a `KeyError`.
   */
  function ShapeDoctors(elements: seq<Element>, specialty: string): (r: Result<seq<FoundDoctor>, ServiceError>)
    ensures r.Ok? <==> forall i :: 0 <= i < |elements| ==> elements[i].tags.Some?
    ensures r.Ok? ==> |r.value| == |elements|
    ensures r.Ok? ==> forall i :: 0 <= i < |elements| ==>
              r.value[i] == FoundDoctor(TagOr(elements[i].tags.value, "name"), specialty, TagOr(elements[i].tags.value, "address"))
  {
    if elements == [] then Ok([])
    else if elements[0].tags.None? then Err(OtherError("'tags'"))
    else
      var tags := elements[0].tags.value;
      var rest := ShapeDoctors(elements[1..], specialty);
      if rest.Err? then rest
      else Ok([FoundDoctor(TagOr(tags, "name"), specialty, TagOr(tags, "address"))] + rest.value)
  }

  /**
   * `find_nearby_doctors`: the location, then the elements the Overpass
   * query returned (`overpass`, or its HTTP failure) as doctors of the
   * condition's specialty.
   */
  function FindNearbyDoctors(req: FinderRequest, geocoded: Result<seq<(real, real)>, string>,
                             overpass: Result<seq<Element>, string>): (r: Result<seq<FoundDoctor>, ServiceError>)
    ensures SelectLocation(req, geocoded).Err? ==> r == Err(SelectLocation(req, geocoded).error)
    ensures SelectLocation(req, geocoded).Ok? && overpass.Err? ==> r == Err(OtherError(overpass.error))
    ensures SelectLocation(req, geocoded).Ok? && overpass.Ok? ==> r == ShapeDoctors(overpass.value, SpecialtyFor(req.condition))
    ensures r.Ok? ==> forall d :: d in r.value ==> d.kind == SpecialtyFor(req.condition)
  {
    var location := SelectLocation(req, geocoded);
    if location.Err? then Err(location.error)
    else if overpass.Err? then Err(OtherError(overpass.error))
    else ShapeDoctors(overpass.value, SpecialtyFor(req.condition))
  }
}
