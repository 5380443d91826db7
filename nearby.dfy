/**
 * The nearby-doctor search of backend-fastapi/app/routers/nearby.py: request
 * validation, the choice of the search centre, the tag extractors, the
 * filtering of OpenStreetMap elements and the sort by distance.  The
 * geocoder, the Overpass mirrors and the haversine distance are parameters.
 */
module Nearby {
  import opened Outcomes
  import opened Text

  // ---------------------------------------------------------------------------
  // Request validation

  /** A request field as sent: left out, sent as `null`, or given. */
  datatype Raw<T> = Absent | Null | Given(v: T)

  /** A validated `NearbyRequest`. */
  datatype NearbyRequest = NearbyRequest(address: Option<string>, latitude: Option<real>, longitude: Option<real>,
                                         radiusKm: real, limit: int)

  /** Why validation rejected a request; every failing field is reported. */
  datatype ValidationError = OutOfRange(field: string) | NotNullable(field: string) | CoordinatesApart

  const DefaultRadiusKm: real := 5.0
  const DefaultLimit: int := 25

  predicate LatitudeInRange(x: real) { -90.0 <= x <= 90.0 }
  predicate LongitudeInRange(x: real) { -180.0 <= x <= 180.0 }
  predicate RadiusInRange(x: real) { 0.0 < x <= 50.0 }
  predicate LimitInRange(n: int) { 0 < n <= 100 }

  /** The bounds every validated request satisfies. */
  predicate InBounds(r: NearbyRequest) {
    && (r.latitude.Some? ==> LatitudeInRange(r.latitude.value))
    && (r.longitude.Some? ==> LongitudeInRange(r.longitude.value))
    && RadiusInRange(r.radiusKm)
    && LimitInRange(r.limit)
  }

  function OptionalText(raw: Raw<string>): Option<string> {
    if raw.Given? then Some(raw.v) else None
  }

  /** An optional bounded coordinate: `None` when left out or `null`. */
  function Coordinate(raw: Raw<real>, inRange: real -> bool): Option<real> {
    if raw.Given? && inRange(raw.v) then Some(raw.v) else None
  }

  function CoordinateErrors(raw: Raw<real>, inRange: real -> bool, field: string): seq<ValidationError> {
    if raw.Given? && !inRange(raw.v) then [OutOfRange(field)] else []
  }

  function RadiusErrors(raw: Raw<real>): seq<ValidationError> {
    match raw
    case Absent => []
    case Null => [NotNullable("radius_km")]
    case Given(x) => if RadiusInRange(x) then [] else [OutOfRange("radius_km")]
  }

  function LimitErrors(raw: Raw<int>): seq<ValidationError> {
    match raw
    case Absent => []
    case Null => [NotNullable("limit")]
    case Given(n) => if LimitInRange(n) then [] else [OutOfRange("limit")]
  }

  function RadiusOf(raw: Raw<real>): real {
    if raw.Given? then raw.v else DefaultRadiusKm
  }

  function LimitOf(raw: Raw<int>): int {
    if raw.Given? then raw.v else DefaultLimit
  }

  /**
   * The `longitude` validator: it sees the longitude and whatever latitude
   * passed its own validation, and fails when exactly one is missing.  As
   * written it runs only when `longitude` was sent.
   */
  function PairingErrors(latitude: Raw<real>, longitude: Raw<real>, runsWhenAbsent: bool): seq<ValidationError> {
    var lat := Coordinate(latitude, LatitudeInRange);
    var runs := (longitude.Given? && LongitudeInRange(longitude.v)) || longitude.Null? || (runsWhenAbsent && longitude.Absent?);
    var lon := Coordinate(longitude, LongitudeInRange);
    if runs && (lon.None? != lat.None?) then [CoordinatesApart] else []
  }

  function Validate(address: Raw<string>, latitude: Raw<real>, longitude: Raw<real>, radius: Raw<real>, limit: Raw<int>,
                    runsWhenAbsent: bool): Result<NearbyRequest, seq<ValidationError>>
  {
    var errors := CoordinateErrors(latitude, LatitudeInRange, "latitude")
                  + CoordinateErrors(longitude, LongitudeInRange, "longitude")
                  + PairingErrors(latitude, longitude, runsWhenAbsent)
                  + RadiusErrors(radius) + LimitErrors(limit);
    if errors == [] then
      Ok(NearbyRequest(OptionalText(address), Coordinate(latitude, LatitudeInRange), Coordinate(longitude, LongitudeInRange),
                       RadiusOf(radius), LimitOf(limit)))
    else Err(errors)
  }

  /**
   * `NearbyRequest` validation as declared: field bounds and defaults, and a
   * `longitude` validator that is skipped when `longitude` is left out, so a
   * request with only a latitude is accepted.
   */
  function ValidateRequestAsWritten(address: Raw<string>, latitude: Raw<real>, longitude: Raw<real>,
                                    radius: Raw<real>, limit: Raw<int>): (r: Result<NearbyRequest, seq<ValidationError>>)
    ensures r.Ok? ==> InBounds(r.value)
    ensures r.Ok? ==> (radius.Absent? ==> r.value.radiusKm == DefaultRadiusKm) && (limit.Absent? ==> r.value.limit == DefaultLimit)
    ensures r.Ok? ==> r.value == NearbyRequest(OptionalText(address), Coordinate(latitude, LatitudeInRange),
                                               Coordinate(longitude, LongitudeInRange), RadiusOf(radius), LimitOf(limit))
    ensures r.Ok? <==> && !(latitude.Given? && !LatitudeInRange(latitude.v))
                       && !(longitude.Given? && !LongitudeInRange(longitude.v))
                       && (longitude.Absent? || (latitude.Given? <==> longitude.Given?))
                       && RadiusErrors(radius) == [] && LimitErrors(limit) == []
    ensures r.Err? ==> r.error != []
  {
    Validate(address, latitude, longitude, radius, limit, false)
  }

  /**
   * `NearbyRequest` validation with the pairing rule applied whether or not
   * `longitude` was sent: an accepted request has both coordinates or neither.
   */
  function ValidateRequest(address: Raw<string>, latitude: Raw<real>, longitude: Raw<real>,
                           radius: Raw<real>, limit: Raw<int>): (r: Result<NearbyRequest, seq<ValidationError>>)
    ensures r.Ok? ==> InBounds(r.value)
    ensures r.Ok? ==> (r.value.latitude.Some? <==> r.value.longitude.Some?)
    ensures r.Ok? ==> (radius.Absent? ==> r.value.radiusKm == DefaultRadiusKm) && (limit.Absent? ==> r.value.limit == DefaultLimit)
    ensures r.Ok? <==> && !(latitude.Given? && !LatitudeInRange(latitude.v))
                       && !(longitude.Given? && !LongitudeInRange(longitude.v))
                       && (latitude.Given? <==> longitude.Given?)
                       && RadiusErrors(radius) == [] && LimitErrors(limit) == []
    ensures r.Ok? ==> r.value == NearbyRequest(OptionalText(address), Coordinate(latitude, LatitudeInRange),
                                               Coordinate(longitude, LongitudeInRange), RadiusOf(radius), LimitOf(limit))
    ensures r.Err? ==> r.error != []
  {
    Validate(address, latitude, longitude, radius, limit, true)
  }

  /** The two validations differ only on a request that sends a latitude and leaves the longitude out. */
  lemma ValidationsAgreeUnlessLongitudeAbsent(address: Raw<string>, latitude: Raw<real>, longitude: Raw<real>,
                                              radius: Raw<real>, limit: Raw<int>)
    requires !longitude.Absent? || !latitude.Given?
    ensures ValidateRequestAsWritten(address, latitude, longitude, radius, limit)
         == ValidateRequest(address, latitude, longitude, radius, limit)
  {
  }

  /**
   * As written, a latitude-only request is accepted with no longitude; the
   * search then ignores the latitude and, with no address, answers 400.
   */
  lemma LatitudeOnlyAccepted()
    ensures ValidateRequestAsWritten(Absent, Given(10.0), Absent, Absent, Absent)
         == Ok(NearbyRequest(None, Some(10.0), None, DefaultRadiusKm, DefaultLimit))
    ensures SelectCenter(NearbyRequest(None, Some(10.0), None, DefaultRadiusKm, DefaultLimit), Err(HttpError(404, "Address not found")))
         == Err(NoLocationError)
    ensures ValidateRequest(Absent, Given(10.0), Absent, Absent, Absent) == Err([CoordinatesApart])
  {
    assert LatitudeInRange(10.0);
    assert CoordinateErrors(Given(10.0), LatitudeInRange, "latitude") == [];
    assert CoordinateErrors(Absent, LongitudeInRange, "longitude") == [];
    assert PairingErrors(Given(10.0), Absent, true) == [CoordinatesApart];
    assert RadiusErrors(Absent) == [] && LimitErrors(Absent) == [];
    var errors := CoordinateErrors(Given(10.0), LatitudeInRange, "latitude")
                  + CoordinateErrors(Absent, LongitudeInRange, "longitude")
                  + PairingErrors(Given(10.0), Absent, true)
                  + RadiusErrors(Absent) + LimitErrors(Absent);
    assert errors == [CoordinatesApart];
    assert Validate(Absent, Given(10.0), Absent, Absent, Absent, true) == Err(errors);
  }

  // ---------------------------------------------------------------------------
  // The search centre

  datatype Coordinates = Coordinates(latitude: real, longitude: real)

  const NoLocationError := HttpError(400, "Provide either (latitude and longitude) or an address")

  /**
   * The coordinates when both are given; otherwise `geocoded`, what geocoding
   * the address gave, when there is a non-empty address; otherwise 400.
   */
  function SelectCenter(req: NearbyRequest, geocoded: Result<Coordinates, HttpError>): (r: Result<Coordinates, HttpError>)
    ensures req.latitude.Some? && req.longitude.Some? ==> r == Ok(Coordinates(req.latitude.value, req.longitude.value))
    ensures !(req.latitude.Some? && req.longitude.Some?) && req.address.Some? && req.address.value != "" ==> r == geocoded
    ensures !(req.latitude.Some? && req.longitude.Some?) && (req.address.None? || req.address.value == "") ==> r == Err(NoLocationError)
  {
    if req.latitude.Some? && req.longitude.Some? then Ok(Coordinates(req.latitude.value, req.longitude.value))
    else if req.address.Some? && req.address.value != "" then geocoded
    else Err(NoLocationError)
  }

  /** With both coordinates, the address and the geocoder play no part. */
  lemma CoordinatesOverrideAddress(req: NearbyRequest, g1: Result<Coordinates, HttpError>, g2: Result<Coordinates, HttpError>,
                                   address: Option<string>)
    requires req.latitude.Some? && req.longitude.Some?
    ensures SelectCenter(req, g1) == SelectCenter(req.(address := address), g2)
  {
  }

  // ---------------------------------------------------------------------------
  // Tag extractors

  /** OpenStreetMap tags of an element. */
  type Tags = map<string, string>

  /** `tags.get(key)`. */
  function Tag(tags: Tags, key: string): Option<string> {
    if key in tags then Some(tags[key]) else None
  }

  predicate Truthy(o: Option<string>) {
    o.Some? && o.value != ""
  }

  /** Python's `a or b` on optional strings. */
  function PyOr(a: Option<string>, b: Option<string>): (r: Option<string>)
    ensures r == a || r == b
    ensures Truthy(a) ==> r == a
    ensures !Truthy(a) ==> r == b
    ensures Truthy(r) <==> Truthy(a) || Truthy(b)
  {
    if Truthy(a) then a else b
  }

  /** The first non-empty of `name`, `operator` and `brand`, else "Unknown". */
  function ExtractName(tags: Tags): (r: string)
    ensures r != ""
    ensures Truthy(Tag(tags, "name")) ==> r == tags["name"]
    ensures !Truthy(Tag(tags, "name")) && Truthy(Tag(tags, "operator")) ==> r == tags["operator"]
    ensures !Truthy(Tag(tags, "name")) && !Truthy(Tag(tags, "operator")) && Truthy(Tag(tags, "brand")) ==> r == tags["brand"]
    ensures !Truthy(Tag(tags, "name")) && !Truthy(Tag(tags, "operator")) && !Truthy(Tag(tags, "brand")) ==> r == "Unknown"
  {
    PyOr(PyOr(PyOr(Tag(tags, "name"), Tag(tags, "operator")), Tag(tags, "brand")), Some("Unknown")).value
  }

  /** `healthcare:speciality`, falling back to `specialty`. */
  function ExtractSpecialty(tags: Tags): (r: Option<string>)
    ensures r == Tag(tags, "healthcare:speciality") || r == Tag(tags, "specialty")
    ensures Truthy(Tag(tags, "healthcare:speciality")) ==> r == Tag(tags, "healthcare:speciality")
    ensures !Truthy(Tag(tags, "healthcare:speciality")) ==> r == Tag(tags, "specialty")
    ensures Truthy(r) <==> Truthy(Tag(tags, "healthcare:speciality")) || Truthy(Tag(tags, "specialty"))
  {
    PyOr(Tag(tags, "healthcare:speciality"), Tag(tags, "specialty"))
  }

  /** `phone` falling back to `contact:phone`, and `website` falling back to `contact:website`. */
  function ExtractContact(tags: Tags): (r: (Option<string>, Option<string>))
    ensures r.0 == Tag(tags, "phone") || r.0 == Tag(tags, "contact:phone")
    ensures Truthy(Tag(tags, "phone")) ==> r.0 == Tag(tags, "phone")
    ensures !Truthy(Tag(tags, "phone")) ==> r.0 == Tag(tags, "contact:phone")
    ensures Truthy(r.0) <==> Truthy(Tag(tags, "phone")) || Truthy(Tag(tags, "contact:phone"))
    ensures r.1 == Tag(tags, "website") || r.1 == Tag(tags, "contact:website")
    ensures Truthy(Tag(tags, "website")) ==> r.1 == Tag(tags, "website")
    ensures !Truthy(Tag(tags, "website")) ==> r.1 == Tag(tags, "contact:website")
    ensures Truthy(r.1) <==> Truthy(Tag(tags, "website")) || Truthy(Tag(tags, "contact:website"))
  {
    (PyOr(Tag(tags, "phone"), Tag(tags, "contact:phone")), PyOr(Tag(tags, "website"), Tag(tags, "contact:website")))
  }

  /** The eight address parts in order, a missing tag as ""; the city falls back to town, then village. */
  function AddressParts(tags: Tags): (r: seq<string>)
    ensures |r| == 8
    ensures r[0] == Tag(tags, "addr:housenumber").GetOr("") && r[1] == Tag(tags, "addr:street").GetOr("")
    ensures r[2] == Tag(tags, "addr:neighbourhood").GetOr("") && r[3] == Tag(tags, "addr:suburb").GetOr("")
    ensures r[4] == if Truthy(Tag(tags, "addr:city")) then tags["addr:city"]
                    else if Truthy(Tag(tags, "addr:town")) then tags["addr:town"]
                    else Tag(tags, "addr:village").GetOr("")
    ensures r[5] == Tag(tags, "addr:state").GetOr("") && r[6] == Tag(tags, "addr:postcode").GetOr("")
    ensures r[7] == Tag(tags, "addr:country").GetOr("")
  {
    [Tag(tags, "addr:housenumber").GetOr(""), Tag(tags, "addr:street").GetOr(""),
     Tag(tags, "addr:neighbourhood").GetOr(""), Tag(tags, "addr:suburb").GetOr(""),
     PyOr(PyOr(Tag(tags, "addr:city"), Tag(tags, "addr:town")), Tag(tags, "addr:village")).GetOr(""),
     Tag(tags, "addr:state").GetOr(""), Tag(tags, "addr:postcode").GetOr(""), Tag(tags, "addr:country").GetOr("")]
  }

  /** The non-empty parts joined with ", ", or `None` when there are none. */
  function ExtractAddress(tags: Tags): (r: Option<string>)
    ensures r.None? <==> forall k :: 0 <= k < 8 ==> AddressParts(tags)[k] == ""
    ensures r.Some? ==> r.value != ""
    ensures r.Some? ==> forall k :: 0 <= k < 8 ==> Contains(r.value, AddressParts(tags)[k])
    ensures r.Some? ==> r.value == Join(NonEmpty(AddressParts(tags)), ", ")
  {
    var parts := AddressParts(tags);
    NonEmptyKeeps(parts);
    JoinNonEmptyContains(parts, ", ");
    if NonEmpty(parts) == [] then None else Some(Join(NonEmpty(parts), ", "))
  }

  /** The city is the first non-empty of city, town and village. */
  lemma CityFallsBack(tags: Tags)
    requires !Truthy(Tag(tags, "addr:city")) && !Truthy(Tag(tags, "addr:town")) && Truthy(Tag(tags, "addr:village"))
    ensures ExtractAddress(tags).Some? && Contains(ExtractAddress(tags).value, tags["addr:village"])
  {
    assert AddressParts(tags)[4] == tags["addr:village"];
  }

  /** A non-empty part after blank ones is the only one kept. */
  lemma KeptAfterBlanks(x: string)
    requires x != ""
    ensures NonEmpty(["", x]) == [x] && NonEmpty(["", "", x]) == [x]
  {
    NonEmptyAppend([""], [x]);
    assert ["", x] == [""] + [x];
    NonEmptyAppend([""], [""]);
    NonEmptyAppend(["", ""], [x]);
    assert ["", "", x] == ["", ""] + [x];
  }

  lemma ThreeBlanksDropped()
    ensures NonEmpty(["", "", ""]) == []
  {
    NonEmptyAppend([""], [""]);
    NonEmptyAppend(["", ""], [""]);
    assert ["", "", ""] == ["", ""] + [""];
  }

  /** Of the eight parts, only the street and the city are kept, in that order. */
  lemma StreetAndCityKept(street: string, city: string)
    requires street != "" && city != ""
    ensures NonEmpty(["", street, "", "", city, "", "", ""]) == [street, city]
  {
    var front: seq<string> := ["", street];
    var middle: seq<string> := ["", "", city];
    var back: seq<string> := ["", "", ""];
    assert ["", street, "", "", city, "", "", ""] == front + middle + back;
    KeptAfterBlanks(street);
    KeptAfterBlanks(city);
    ThreeBlanksDropped();
    NonEmptyAppend(front, middle);
    NonEmptyAppend(front + middle, back);
    assert [street] + [city] + [] == [street, city];
  }

  /** The parts keep their order and are separated by ", ": a street and a city alone give "street, city". */
  lemma StreetThenCity(tags: Tags, street: string, city: string)
    requires street != "" && city != ""
    requires Tag(tags, "addr:street") == Some(street) && Tag(tags, "addr:city") == Some(city)
    requires Tag(tags, "addr:housenumber").None? && Tag(tags, "addr:neighbourhood").None?
    requires Tag(tags, "addr:suburb").None? && Tag(tags, "addr:state").None?
    requires Tag(tags, "addr:postcode").None? && Tag(tags, "addr:country").None?
    ensures ExtractAddress(tags) == Some(street + ", " + city)
  {
    var parts := AddressParts(tags);
    assert parts == ["", street, "", "", city, "", "", ""];
    StreetAndCityKept(street, city);
    assert [street, city][1..] == [city];
    assert Join([street, city], ", ") == street + ", " + city;
    var r := ExtractAddress(tags);
    assert parts[1] != "";
    assert r.Some? && r.value == Join([street, city], ", ");
  }

  // ---------------------------------------------------------------------------
  // Elements and doctors

  /**
   * An Overpass element: its `type`, its own `lat`/`lon` (`None` when missing
   * or `null`), its `center` object (`None` when missing or `null`; a missing
   * or `null` entry inside is `None`) and its tags (empty when missing or `null`).
   */
  datatype Element = Element(kind: Option<string>, lat: Option<real>, lon: Option<real>,
                             center: Option<map<string, Option<real>>>, tags: Tags)

  datatype Doctor = Doctor(name: string, specialty: Option<string>, phone: Option<string>, website: Option<string>,
                           address: Option<string>, coordinates: Coordinates, source: string, distanceKm: Option<real>)

  function CenterEntry(center: map<string, Option<real>>, key: string): Option<real> {
    if key in center then center[key] else None
  }

  /**
   * Where an element is, or `None` when it is skipped: no tags; not a node
   * and no (or an empty) centre; or a latitude or longitude missing.
   */
  function Position(el: Element): (r: Option<Coordinates>)
    ensures el.tags == map[] ==> r.None?
    ensures el.tags != map[] && el.kind == Some("node") ==>
              (r.Some? <==> el.lat.Some? && el.lon.Some?) && (r.Some? ==> r.value == Coordinates(el.lat.value, el.lon.value))
    ensures el.kind != Some("node") && (el.center.None? || el.center.value == map[]) ==> r.None?
    ensures el.tags != map[] && el.kind != Some("node") && el.center.Some? && el.center.value != map[] ==>
              var lat := CenterEntry(el.center.value, "lat");
              var lon := CenterEntry(el.center.value, "lon");
              (r.Some? <==> lat.Some? && lon.Some?) && (r.Some? ==> r.value == Coordinates(lat.value, lon.value))
  {
    if el.tags == map[] then None
    else if el.kind == Some("node") then
      if el.lat.Some? && el.lon.Some? then Some(Coordinates(el.lat.value, el.lon.value)) else None
    else if el.center.None? || el.center.value == map[] then None
    else
      var lat := CenterEntry(el.center.value, "lat");
      var lon := CenterEntry(el.center.value, "lon");
      if lat.Some? && lon.Some? then Some(Coordinates(lat.value, lon.value)) else None
  }

  /** The doctor built from an element at `pos`, `distance` being the rounded distance to the centre. */
  function ToDoctor(el: Element, pos: Coordinates, distance: real): (r: Doctor)
    ensures r.source == "osm" && r.name != "" && r.coordinates == pos && r.distanceKm == Some(distance)
    ensures r.name == ExtractName(el.tags) && r.specialty == ExtractSpecialty(el.tags) && r.address == ExtractAddress(el.tags)
    ensures (r.phone, r.website) == ExtractContact(el.tags)
  {
    var contact := ExtractContact(el.tags);
    Doctor(ExtractName(el.tags), ExtractSpecialty(el.tags), contact.0, contact.1, ExtractAddress(el.tags),
           pos, "osm", Some(distance))
  }

  /** One doctor per element that has a position, in element order. */
  function DoctorsFrom(elements: seq<Element>, center: Coordinates, distance: (Coordinates, Coordinates) -> real): seq<Doctor> {
    if elements == [] then []
    else
      var el := elements[|elements| - 1];
      var pos := Position(el);
      DoctorsFrom(elements[..|elements| - 1], center, distance)
        + (if pos.Some? then [ToDoctor(el, pos.value, distance(center, pos.value))] else [])
  }

  /** The element loop of `nearby_search`. */
  method CollectDoctors(elements: seq<Element>, center: Coordinates, distance: (Coordinates, Coordinates) -> real)
    returns (doctors: seq<Doctor>)
    ensures doctors == DoctorsFrom(elements, center, distance)
  {
    doctors := [];
    var i := 0;
    while i < |elements|
      invariant 0 <= i <= |elements|
      invariant doctors == DoctorsFrom(elements[..i], center, distance)
    {
      var el := elements[i];
      assert elements[..i + 1][..i] == elements[..i];
      i := i + 1;
      if el.tags == map[] {
        continue;
      }
      var lat, lon;
      if el.kind == Some("node") {
        lat, lon := el.lat, el.lon;
      } else {
        if el.center.None? || el.center.value == map[] {
          continue;
        }
        lat, lon := CenterEntry(el.center.value, "lat"), CenterEntry(el.center.value, "lon");
      }
      if lat.None? || lon.None? {
        continue;
      }
      var pos := Coordinates(lat.value, lon.value);
      doctors := doctors + [ToDoctor(el, pos, distance(center, pos))];
    }
    assert elements[..i] == elements;
  }

  /** At most one doctor per element, every one from OpenStreetMap and with a name. */
  lemma {:induction false} DoctorsFromShape(elements: seq<Element>, center: Coordinates, distance: (Coordinates, Coordinates) -> real)
    ensures |DoctorsFrom(elements, center, distance)| <= |elements|
    ensures forall d :: d in DoctorsFrom(elements, center, distance) ==> d.source == "osm" && d.name != "" && d.distanceKm.Some?
    decreases |elements|
  {
    if elements != [] {
      DoctorsFromShape(elements[..|elements| - 1], center, distance);
    }
  }

  /** Every element with a position gives a doctor. */
  lemma {:induction false} PositionedElementKept(elements: seq<Element>, center: Coordinates,
                                                 distance: (Coordinates, Coordinates) -> real, k: nat)
    requires k < |elements| && Position(elements[k]).Some?
    ensures var pos := Position(elements[k]).value;
            ToDoctor(elements[k], pos, distance(center, pos)) in DoctorsFrom(elements, center, distance)
    decreases |elements|
  {
    if k < |elements| - 1 {
      assert elements[..|elements| - 1][k] == elements[k];
      PositionedElementKept(elements[..|elements| - 1], center, distance, k);
    }
  }

  // ---------------------------------------------------------------------------
  // Sorting by distance

  /** `d.distance_km or 0`. */
  function SortKey(d: Doctor): real {
    if d.distanceKm.Some? then d.distanceKm.value else 0.0
  }

  predicate SortedByDistance(ds: seq<Doctor>) {
    forall i, j :: 0 <= i < j < |ds| ==> SortKey(ds[i]) <= SortKey(ds[j])
  }

  /** Inserts `d` after every doctor that is not farther, so equal distances keep their order. */
  function Insert(ds: seq<Doctor>, d: Doctor): (r: seq<Doctor>)
    ensures multiset(r) == multiset(ds) + multiset{d}
  {
    if ds == [] then [d]
    else if SortKey(d) < SortKey(ds[0]) then [d] + ds
    else
      assert ds == [ds[0]] + ds[1..];
      [ds[0]] + Insert(ds[1..], d)
  }

  /** Inserting into a sorted list keeps it sorted. */
  lemma {:induction false} InsertSorted(ds: seq<Doctor>, d: Doctor)
    requires SortedByDistance(ds)
    ensures SortedByDistance(Insert(ds, d))
    decreases |ds|
  {
    if ds != [] && SortKey(d) >= SortKey(ds[0]) {
      var rest := Insert(ds[1..], d);
      InsertSorted(ds[1..], d);
      assert forall x :: x in rest ==> x in multiset(ds[1..]) || x == d by {
        forall x | x in rest ensures x in multiset(ds[1..]) || x == d {
          assert x in multiset(rest);
        }
      }
      forall j | 0 <= j < |rest| ensures SortKey(ds[0]) <= SortKey(rest[j]) {
        assert rest[j] in rest;
        if rest[j] != d {
          var k :| 0 <= k < |ds[1..]| && ds[1..][k] == rest[j];
          assert ds[k + 1] == rest[j];
        }
      }
    }
  }

  /** `doctors.sort(key=lambda d: d.distance_km or 0)`, as an insertion sort. */
  method SortByDistance(doctors: seq<Doctor>) returns (sorted: seq<Doctor>)
    ensures SortedByDistance(sorted)
    ensures multiset(sorted) == multiset(doctors)
  {
    sorted := [];
    var i := 0;
    while i < |doctors|
      invariant 0 <= i <= |doctors|
      invariant SortedByDistance(sorted)
      invariant multiset(sorted) == multiset(doctors[..i])
    {
      InsertSorted(sorted, doctors[i]);
      sorted := Insert(sorted, doctors[i]);
      assert doctors[..i + 1] == doctors[..i] + [doctors[i]];
      i := i + 1;
    }
    assert doctors[..i] == doctors;
  }

  // ---------------------------------------------------------------------------
  // nearby_search

  datatype NearbyResponse = NearbyResponse(center: Coordinates, radiusKm: real, total: int, doctors: seq<Doctor>)

  /**
   * What `fetch_overpass` raises when no mirror answered 200 with JSON.  It
   * catches every exception of every mirror, timeouts included, so this is
   * the only failure `nearby_search` sees.
   */
  const OverpassServiceError := HttpError(502, "Overpass service error")

  /**
   * `nearby_search` outside mock mode: the centre, then the elements Overpass
   * returned around it (`overpass`, `None` when every mirror failed), turned
   * into doctors sorted by distance.
   */
  method NearbySearch(req: NearbyRequest, geocoded: Result<Coordinates, HttpError>,
                      overpass: Option<seq<Element>>, distance: (Coordinates, Coordinates) -> real)
    returns (r: Result<NearbyResponse, HttpError>)
    ensures SelectCenter(req, geocoded).Err? ==> r == Err(SelectCenter(req, geocoded).error)
    ensures SelectCenter(req, geocoded).Ok? && overpass.None? ==> r == Err(OverpassServiceError)
    ensures SelectCenter(req, geocoded).Ok? && overpass.Some? ==>
              var center := SelectCenter(req, geocoded).value;
              && r.Ok?
              && r.value.center == center
              && r.value.radiusKm == req.radiusKm
              && r.value.total == |r.value.doctors| <= |overpass.value|
              && SortedByDistance(r.value.doctors)
              && multiset(r.value.doctors) == multiset(DoctorsFrom(overpass.value, center, distance))
              && (forall d :: d in r.value.doctors ==> d.source == "osm" && d.name != "")
  {
    var centerResult := SelectCenter(req, geocoded);
    if centerResult.Err? {
      return Err(centerResult.error);
    }
    var center := centerResult.value;
    if overpass.None? {
      return Err(OverpassServiceError);
    }
    var doctors := CollectDoctors(overpass.value, center, distance);
    DoctorsFromShape(overpass.value, center, distance);
    var sorted := SortByDistance(doctors);
    assert |sorted| == |multiset(sorted)| == |doctors|;
    forall d | d in sorted ensures d.source == "osm" && d.name != "" {
      assert d in multiset(doctors);
    }
    r := Ok(NearbyResponse(center, req.radiusKm, |sorted|, sorted));
  }
}
