/**
 * The doctor search page of frontend/src/pages/FindDoctors.tsx: the redirect
 * when no conditions were handed over, the choice between a typed address
 * and the stored coordinates, the body posted to `/doctors/nearby`, the
 * handling of the answer (a failed request, an unreadable body, a doctor
 * list mapped into display records) and the loading and error state around
 * it.  React state is a class whose fields the handlers update; redirects
 * and posted bodies are recorded in order.  The browser's geolocation and
 * the server's answer are parameters.
 */
module FindDoctorsPage {
  import opened Outcomes
  import opened Text
  import opened Js

  const NoLocationMessage := "Please enter an address or use your current location"
  const FetchFailedMessage := "Failed to fetch nearby doctors"
  const DefaultRadiusKm := 5.0
  const DefaultLimit := 20.0

  datatype Permission = Pending | Granted | Denied

  datatype Coordinates = Coordinates(latitude: real, longitude: real)

  /** What `navigator.geolocation.getCurrentPosition` delivered. */
  datatype PositionOutcome = NoGeolocation | PositionFailed | PositionAt(coordinates: Coordinates)

  /**
   * How the `fetch` of `/doctors/nearby` ended: it threw, or it answered
   * with `ok`, the status, the body as text (read when not ok) and the body
   * parsed as JSON (read when ok; `Err` when it is not JSON).
   */
  datatype FetchReply =
    | NetworkFailure(message: string)
    | Answered(ok: bool, status: int, text: string, json: Result<Value, string>)

  /** A doctor's distance: none, or `distance_km` shown in km (its one-decimal formatting is not modelled). */
  datatype Distance = NoDistance | Km(value: Value)

  /** The `Doctor` display record. */
  datatype DisplayDoctor = DisplayDoctor(name: Value, specialty: Value, address: Value, phone: Value, distance: Distance)

  /** `{latitude, longitude}`. */
  function CoordinatesPayload(c: Coordinates): map<string, Value> {
    map["latitude" := Num(c.latitude), "longitude" := Num(c.longitude)]
  }

  /** `{...payload, radius_km: radiusKm, limit}`. */
  function RequestBody(payload: map<string, Value>, radiusKm: Value, limit: Value): Value {
    Obj(payload["radius_km" := radiusKm]["limit" := limit])
  }

  /**
   * The payload `handleSearch` fetches with: the trimmed address when it is
   * not blank, else the stored coordinates, else none.
   */
  function SearchPayload(address: string, coords: Option<Coordinates>): (r: Option<map<string, Value>>)
    ensures r.None? <==> |Trim(address)| == 0 && coords.None?
    ensures |Trim(address)| > 0 ==> r == Some(map["address" := Str(Trim(address))])
    ensures |Trim(address)| == 0 && coords.Some? ==> r == Some(CoordinatesPayload(coords.value))
  {
    if |Trim(address)| > 0 then Some(map["address" := Str(Trim(address))])
    else if coords.Some? then Some(CoordinatesPayload(coords.value))
    else None
  }

  /**
   * One element of `data.doctors.map(...)`: the name as given, a missing
   * specialty, address or phone as `null`, and a distance only when
   * `distance_km` is neither `null` nor `undefined`.  Reading a property of
   * a `null` element, or calling `toFixed` on a value that is not a
   * number, throws.
   */
  function ToDisplay(d: Value): (r: Result<DisplayDoctor, string>)
    ensures var km := Get(d, "distance_km");
            r.Ok? <==> !(d.Undefined? || d.Null?) && (km.Undefined? || km.Null? || km.Num? || km.NaN?)
    ensures r.Ok? ==> && r.value.name == Get(d, "name")
                      && (r.value.distance.NoDistance? <==> Get(d, "distance_km").Undefined? || Get(d, "distance_km").Null?)
                      && (r.value.distance.Km? ==> r.value.distance.value == Get(d, "distance_km"))
    ensures r.Ok? ==> && r.value.specialty == Coalesce(Get(d, "specialty"), Null)
                      && r.value.address == Coalesce(Get(d, "address"), Null)
                      && r.value.phone == Coalesce(Get(d, "phone"), Null)
  {
    if d.Undefined? || d.Null? then Err(ReadError(d, "name"))
    else
      var km := Get(d, "distance_km");
      if !(km.Undefined? || km.Null? || km.Num? || km.NaN?) then Err(NotAFunction("d.distance_km.toFixed"))
      else
        Ok(DisplayDoctor(Get(d, "name"), Coalesce(Get(d, "specialty"), Null), Coalesce(Get(d, "address"), Null),
                         Coalesce(Get(d, "phone"), Null), if km.Undefined? || km.Null? then NoDistance else Km(km)))
  }

  /** `data.doctors.map(...)`, which throws when `data.doctors` is missing or not an array. */
  function ResponseDoctors(data: Value): (r: Result<seq<DisplayDoctor>, string>)
    ensures r.Ok? ==> Get(data, "doctors").Arr? && |r.value| == |Get(data, "doctors").items|
    ensures r.Ok? ==> forall k :: 0 <= k < |r.value| ==> r.value[k].name == Get(Get(data, "doctors").items[k], "name")
    ensures var doctors := Get(data, "doctors");
            && (doctors.Undefined? || doctors.Null? ==> r == Err(ReadError(doctors, "map")))
            && (!(doctors.Undefined? || doctors.Null? || doctors.Arr?) ==> r == Err(NotAFunction("data.doctors.map")))
            && (doctors.Arr? ==> (r.Ok? <==> forall k :: 0 <= k < |doctors.items| ==> ToDisplay(doctors.items[k]).Ok?))
            && (doctors.Arr? && r.Ok? ==>
                  forall k :: 0 <= k < |doctors.items| ==> r.value[k] == ToDisplay(doctors.items[k]).value)
  {
    var doctors := Get(data, "doctors");
    if doctors.Undefined? || doctors.Null? then Err(ReadError(doctors, "map"))
    else if doctors.Arr? then MapAll(doctors.items, ToDisplay)
    else Err(NotAFunction("data.doctors.map"))
  }

  /**
   * What the `try` block of `fetchDoctors` leaves behind: the map centre and
   * the raw doctor list when lines that set them were reached, and the
   * display list or the message of what was thrown.
   */
  datatype Fetched = Fetched(center: Option<Value>, apiDoctors: Option<Value>, doctors: Result<seq<DisplayDoctor>, string>)

  /**
   * A thrown fetch gives its message; a response that is not ok gives its
   * body text, or "API error: <status>" when that is empty; an ok response
   * whose body is no JSON gives the parse error, a `null` body the
   * TypeError of reading its centre; otherwise the centre and raw list are
   * stored before the list is mapped.
   */
  function FetchOutcome(reply: FetchReply): (r: Fetched)
    ensures reply.NetworkFailure? ==> r == Fetched(None, None, Err(reply.message))
    ensures r.center.Some? <==> r.apiDoctors.Some?
    ensures r.center.Some? ==> reply.Answered? && reply.ok && reply.json.Ok?
    ensures r.doctors.Ok? ==> && r.apiDoctors.Some? && r.apiDoctors.value.Arr?
                              && |r.doctors.value| == |r.apiDoctors.value.items|
    ensures reply.Answered? && !reply.ok ==>
              r == Fetched(None, None, Err(if reply.text != "" then reply.text else "API error: " + IntToString(reply.status)))
    ensures reply.Answered? && reply.ok && reply.json.Err? ==> r == Fetched(None, None, Err(reply.json.error))
    ensures reply.Answered? && reply.ok && reply.json.Ok? ==>
              var data := reply.json.value;
              && (data.Undefined? || data.Null? ==> r == Fetched(None, None, Err(ReadError(data, "center"))))
              && (!(data.Undefined? || data.Null?) ==>
                    r == Fetched(Some(Get(data, "center")), Some(Get(data, "doctors")), ResponseDoctors(data)))
  {
    match reply
    case NetworkFailure(message) => Fetched(None, None, Err(message))
    case Answered(ok, status, text, json) =>
      if !ok then Fetched(None, None, Err(if text != "" then text else "API error: " + IntToString(status)))
      else
        match json
        case Err(message) => Fetched(None, None, Err(message))
        case Ok(data) =>
          if data.Undefined? || data.Null? then Fetched(None, None, Err(ReadError(data, "center")))
          else Fetched(Some(Get(data, "center")), Some(Get(data, "doctors")), ResponseDoctors(data))
  }

  /** `e?.message || "Failed to fetch nearby doctors"`. */
  function ErrorText(message: string): (r: string)
    ensures r != ""
    ensures message != "" ==> r == message
    ensures message == "" ==> r == FetchFailedMessage
  {
    if message != "" then message else FetchFailedMessage
  }

  class FindDoctorsPageState {
    var isLoading: bool
    var error: Option<string>
    var doctors: seq<DisplayDoctor>
    var apiDoctors: Value
    var mapCenter: Value
    var locationPermission: Permission
    var address: string
    var coords: Option<Coordinates>
    var radiusKm: Value
    var limit: Value
    var navigations: seq<string>
    var requests: seq<Value>

    /** The page as first rendered: radius 5 km, at most 20 doctors, nothing found, permission pending. */
    constructor ()
      ensures !isLoading && error.None? && doctors == [] && apiDoctors == Arr([]) && mapCenter == Null
      ensures locationPermission == Pending && address == "" && coords.None?
      ensures radiusKm == Num(DefaultRadiusKm) && limit == Num(DefaultLimit)
      ensures navigations == [] && requests == []
    {
      isLoading := false;
      error := None;
      doctors := [];
      apiDoctors := Arr([]);
      mapCenter := Null;
      locationPermission := Pending;
      address := "";
      coords := None;
      radiusKm := Num(DefaultRadiusKm);
      limit := Num(DefaultLimit);
      navigations := [];
      requests := [];
    }

    /**
     * The state `fetchDoctors(payload)` leaves when `reply` answered it and
     * the listed fields held the given values before: the payload posted
     * with the radius and the limit, loading finished, the centre and raw
     * list replaced when their lines were reached, and either the display
     * list with no error or an empty list with the error shown.
     */
    ghost predicate AfterFetch(payload: map<string, Value>, reply: FetchReply, requests0: seq<Value>,
                            radiusKm0: Value, limit0: Value, mapCenter0: Value, apiDoctors0: Value)
      reads this
    {
      var outcome := FetchOutcome(reply);
      && requests == requests0 + [RequestBody(payload, radiusKm0, limit0)]
      && !isLoading
      && mapCenter == (if outcome.center.Some? then outcome.center.value else mapCenter0)
      && apiDoctors == (if outcome.apiDoctors.Some? then outcome.apiDoctors.value else apiDoctors0)
      && (outcome.doctors.Ok? ==> doctors == outcome.doctors.value && error.None?)
      && (outcome.doctors.Err? ==> doctors == [] && error == Some(ErrorText(outcome.doctors.error)))
    }

    /**
     * `fetchDoctors(payload)`, with `reply` how the request ended: posts the
     * payload with the radius and the limit, clears the error first and
     * `isLoading` last; on success the display list replaces the old one,
     * on any failure the list is emptied and the error set.
     */
    method FetchDoctors(payload: map<string, Value>, reply: FetchReply)
      modifies this
      ensures AfterFetch(payload, reply, old(requests), old(radiusKm), old(limit), old(mapCenter), old(apiDoctors))
      ensures locationPermission == old(locationPermission) && address == old(address) && coords == old(coords)
      ensures radiusKm == old(radiusKm) && limit == old(limit) && navigations == old(navigations)
    {
      isLoading := true;
      error := None;
      requests := requests + [RequestBody(payload, radiusKm, limit)];
      var outcome := FetchOutcome(reply);
      mapCenter := if outcome.center.Some? then outcome.center.value else mapCenter;
      apiDoctors := if outcome.apiDoctors.Some? then outcome.apiDoctors.value else apiDoctors;
      doctors := if outcome.doctors.Ok? then outcome.doctors.value else [];
      error := if outcome.doctors.Ok? then error else Some(ErrorText(outcome.doctors.error));
      isLoading := false;
    }

    /**
     * `handleSearch`: a non-blank address wins over stored coordinates, and
     * with neither the error is set and nothing is fetched.
     */
    method HandleSearch(reply: FetchReply)
      modifies this
      ensures address == old(address) && coords == old(coords) && navigations == old(navigations)
      ensures locationPermission == old(locationPermission) && radiusKm == old(radiusKm) && limit == old(limit)
      ensures SearchPayload(address, coords).None? ==>
                && error == Some(NoLocationMessage) && requests == old(requests)
                && doctors == old(doctors) && isLoading == old(isLoading)
                && mapCenter == old(mapCenter) && apiDoctors == old(apiDoctors)
      ensures SearchPayload(address, coords).Some? ==>
                AfterFetch(SearchPayload(address, coords).value, reply, old(requests), old(radiusKm), old(limit),
                        old(mapCenter), old(apiDoctors))
    {
      var payload := SearchPayload(address, coords);
      if payload.Some? {
        FetchDoctors(payload.value, reply);
      } else {
        error := Some(NoLocationMessage);
      }
    }

    /**
     * The position callbacks of the mount effect: a position found grants
     * permission, keeps the coordinates and fetches doctors around them;
     * no position denies permission and changes nothing else.
     */
    method UsePosition(position: PositionOutcome, reply: FetchReply)
      modifies this
      ensures navigations == old(navigations) && address == old(address)
      ensures radiusKm == old(radiusKm) && limit == old(limit)
      ensures !position.PositionAt? ==>
                && locationPermission == Denied && coords == old(coords) && requests == old(requests)
                && doctors == old(doctors) && error == old(error) && isLoading == old(isLoading)
                && mapCenter == old(mapCenter) && apiDoctors == old(apiDoctors)
      ensures position.PositionAt? ==>
                && locationPermission == Granted && coords == Some(position.coordinates)
                && AfterFetch(CoordinatesPayload(position.coordinates), reply, old(requests), old(radiusKm), old(limit),
                           old(mapCenter), old(apiDoctors))
    {
      match position {
        case PositionAt(c) =>
          locationPermission := Granted;
          coords := Some(c);
          FetchDoctors(CoordinatesPayload(c), reply);
        case _ =>
          locationPermission := Denied;
      }
    }

    /**
     * The mount effect: without conditions in the navigation state the page
     * redirects to "/" and changes nothing else; otherwise it asks for the
     * position and searches around it when one is found.
     */
    method Mount(navigationState: Value, position: PositionOutcome, reply: FetchReply)
      modifies this
      ensures address == old(address) && radiusKm == old(radiusKm) && limit == old(limit)
      ensures !Truthy(Get(navigationState, "conditions")) ==>
                && navigations == old(navigations) + ["/"] && requests == old(requests)
                && locationPermission == old(locationPermission) && coords == old(coords)
                && isLoading == old(isLoading) && error == old(error) && doctors == old(doctors)
                && mapCenter == old(mapCenter) && apiDoctors == old(apiDoctors)
      ensures Truthy(Get(navigationState, "conditions")) ==>
                && navigations == old(navigations)
                && (!position.PositionAt? ==>
                      && locationPermission == Denied && coords == old(coords) && requests == old(requests)
                      && doctors == old(doctors) && error == old(error) && isLoading == old(isLoading)
                      && mapCenter == old(mapCenter) && apiDoctors == old(apiDoctors))
                && (position.PositionAt? ==>
                      && locationPermission == Granted && coords == Some(position.coordinates)
                      && AfterFetch(CoordinatesPayload(position.coordinates), reply, old(requests), old(radiusKm),
                                 old(limit), old(mapCenter), old(apiDoctors)))
    {
      if !Truthy(Get(navigationState, "conditions")) {
        navigations := navigations + ["/"];
        return;
      }
      UsePosition(position, reply);
    }
  }

  // ---------------------------------------------------------------------------
  // Properties

  /**
   * A non-blank address is searched on its own, trimmed, even when
   * coordinates are stored, so its body carries no latitude or longitude;
   * nothing is searched only when the address is blank and no coordinates
   * are stored.
   */
  lemma AddressBeatsCoordinates(address: string, coords: Option<Coordinates>, radiusKm: Value, limit: Value)
    ensures !AllSpace(address) ==>
              && SearchPayload(address, coords) == Some(map["address" := Str(Trim(address))])
              && RequestBody(SearchPayload(address, coords).value, radiusKm, limit).fields.Keys == {"address", "radius_km", "limit"}
    ensures SearchPayload(address, coords).None? <==> AllSpace(address) && coords.None?
  {
  }

  /** With a blank address the stored coordinates are posted, with the radius and the limit and nothing else. */
  lemma CoordinatesWhenNoAddress(address: string, c: Coordinates, radiusKm: Value, limit: Value)
    requires AllSpace(address)
    ensures RequestBody(SearchPayload(address, Some(c)).value, radiusKm, limit).fields.Keys
         == {"latitude", "longitude", "radius_km", "limit"}
    ensures var body := RequestBody(SearchPayload(address, Some(c)).value, radiusKm, limit).fields;
            body["latitude"] == Num(c.latitude) && body["longitude"] == Num(c.longitude)
            && body["radius_km"] == radiusKm && body["limit"] == limit
  {
    BlankAddressPayload(address, c);
    CoordinatesBody(c, radiusKm, limit);
  }

  /** The body posted for coordinates: the two coordinates, the radius and the limit. */
  lemma CoordinatesBody(c: Coordinates, radiusKm: Value, limit: Value)
    ensures RequestBody(CoordinatesPayload(c), radiusKm, limit).fields.Keys == {"latitude", "longitude", "radius_km", "limit"}
    ensures var body := RequestBody(CoordinatesPayload(c), radiusKm, limit).fields;
            body["latitude"] == Num(c.latitude) && body["longitude"] == Num(c.longitude)
            && body["radius_km"] == radiusKm && body["limit"] == limit
  {
  }

  /** A blank address falls back to the stored coordinates. */
  lemma BlankAddressPayload(address: string, c: Coordinates)
    requires AllSpace(address)
    ensures SearchPayload(address, Some(c)) == Some(CoordinatesPayload(c))
  {
    assert |Trim(address)| == 0;
  }

  /**
   * The display list keeps the length and order of the server's list; each
   * record keeps the name, turns a missing specialty, address or phone into
   * `null`, and has no distance exactly when `distance_km` is `null` or
   * `undefined`.
   */
  lemma DisplayKeepsOrder(ds: seq<Value>, k: nat)
    requires MapAll(ds, ToDisplay).Ok? && k < |ds|
    ensures |MapAll(ds, ToDisplay).value| == |ds|
    ensures var shown := MapAll(ds, ToDisplay).value[k];
            && shown.name == Get(ds[k], "name")
            && (shown.specialty == Null <==> Get(ds[k], "specialty").Undefined? || Get(ds[k], "specialty").Null?)
            && (shown.address == Null <==> Get(ds[k], "address").Undefined? || Get(ds[k], "address").Null?)
            && (shown.phone == Null <==> Get(ds[k], "phone").Undefined? || Get(ds[k], "phone").Null?)
            && (shown.distance.NoDistance? <==> Get(ds[k], "distance_km").Undefined? || Get(ds[k], "distance_km").Null?)
  {
  }

  /**
   * A response that is not ok reports its body text, or "API error:" and
   * the status when the body is empty; the error shown is never empty, and
   * is the generic message only for a thrown error without a message.
   */
  lemma FailureMessages(reply: FetchReply)
    ensures reply.Answered? && !reply.ok ==>
              ErrorText(FetchOutcome(reply).doctors.error)
              == (if reply.text != "" then reply.text else "API error: " + IntToString(reply.status))
    ensures FetchOutcome(reply).doctors.Err? ==>
              (ErrorText(FetchOutcome(reply).doctors.error) == FetchFailedMessage
               <==> FetchOutcome(reply).doctors.error == "" || FetchOutcome(reply).doctors.error == FetchFailedMessage)
  {
    if reply.Answered? && !reply.ok && reply.text == "" {
      assert ("API error: " + IntToString(reply.status))[0] == 'A';
    }
  }

  /** A `null` doctor in the list fails the whole mapping, so the page shows no doctors and an error. */
  lemma NullDoctorFailsAll(ds: seq<Value>, k: nat)
    requires k < |ds| && ds[k] == Null
    ensures MapAll(ds, ToDisplay).Err?
  {
    assert ToDisplay(ds[k]).Err?;
  }
}
