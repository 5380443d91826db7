/**
 * The front end's API client (frontend/src/services/apiService.js): payload
 * normalisation for symptom analysis and the nearby-doctor search, response
 * unwrapping, the four-way error classification, the geolocation error
 * messages and the health check.  What the network (or the browser) answers
 * is a parameter.
 */
module ApiService {
  import opened Outcomes
  import opened Js

  // ---------------------------------------------------------------------------
  // What the HTTP client and the browser hand back

  /** The response attached to an axios error. */
  datatype HttpResponse = HttpResponse(status: int, data: Value)

  /** An error thrown by axios (or by the client's own code before the request). */
  datatype ClientError = ClientError(response: Option<HttpResponse>, code: Option<string>, message: string)

  /** What one request produced: a 2xx response body, or a thrown error. */
  datatype Reply = Response(body: Value) | Thrown(error: ClientError)

  /** The `details` of an error result. */
  datatype Details = ResponseData(data: Value) | Note(text: string) | ErrorObject(error: ClientError)

  /** `{success: true, data}` or `{success: false, error, details}`. */
  datatype ApiResult = Success(data: Value) | Failure(error: string, details: Details) {
    predicate IsSuccess() { Success? }
  }

  const InvalidSymptomsMessage := "Invalid symptoms provided. Please check your input."
  const SymptomServerMessage := "Server error occurred during symptom analysis."
  const InvalidLocationMessage := "Invalid location coordinates provided."
  const DoctorServerMessage := "Server error occurred while searching for doctors."
  const CannotConnectMessage := "Cannot connect to the backend server. Please ensure the server is running."
  const UnexpectedMessage := "An unexpected error occurred."

  // ---------------------------------------------------------------------------
  // Error classification (shared shape of both catch blocks)

  function StatusOf(e: ClientError): Option<int> {
    if e.response.Some? then Some(e.response.value.status) else None
  }

  function ResponseDataOf(e: ClientError): Value {
    if e.response.Some? then e.response.value.data else Undefined
  }

  /**
   * The catch block of `analyzeSymptoms` and `findNearbyDoctors`: status 400,
   * then status 500, then a refused connection, then the error's own message.
   */
  function Classify(e: ClientError, invalidMessage: string, serverMessage: string): (r: ApiResult)
    ensures !r.IsSuccess()
  {
    if StatusOf(e) == Some(400) then
      Failure(invalidMessage, ResponseData(e.response.value.data))
    else if StatusOf(e) == Some(500) then
      Failure(serverMessage, ResponseData(e.response.value.data))
    else if e.code == Some("ECONNREFUSED") then
      Failure(CannotConnectMessage, Note("Connection refused"))
    else
      var data := ResponseDataOf(e);
      Failure(if e.message != "" then e.message else UnexpectedMessage,
              if Truthy(data) then ResponseData(data) else ErrorObject(e))
  }

  /**
   * The four outcomes of the catch block: the operation's fixed messages for
   * 400 and 500 with the response data, the connection message for a refused
   * connection, and otherwise the error's own message (or the unexpected-error
   * text when it is empty) with the response data when it is truthy, else
   * the error itself.
   */
  lemma ClassifyCases(e: ClientError, invalidMessage: string, serverMessage: string)
    ensures var r := Classify(e, invalidMessage, serverMessage);
            && (StatusOf(e) == Some(400) ==> r == Failure(invalidMessage, ResponseData(ResponseDataOf(e))))
            && (StatusOf(e) == Some(500) ==> r == Failure(serverMessage, ResponseData(ResponseDataOf(e))))
            && (StatusOf(e) != Some(400) && StatusOf(e) != Some(500) && e.code == Some("ECONNREFUSED") ==>
                  r == Failure(CannotConnectMessage, Note("Connection refused")))
            && (StatusOf(e) != Some(400) && StatusOf(e) != Some(500) && e.code != Some("ECONNREFUSED") ==>
                  && r.error == (if e.message != "" then e.message else UnexpectedMessage)
                  && r.error != ""
                  && (Truthy(ResponseDataOf(e)) ==> r.details == ResponseData(ResponseDataOf(e)))
                  && (!Truthy(ResponseDataOf(e)) ==> r.details == ErrorObject(e)))
  {
    assert UnexpectedMessage[0] == 'A';
  }

  /** The error the client's own code throws when it reads a property of `undefined` or `null`. */
  function TypeError(message: string): ClientError {
    ClientError(None, None, message)
  }

  // ---------------------------------------------------------------------------
  // analyzeSymptoms

  const SymptomKeys: set<string> := {"name", "severity", "duration", "description"}
  const PatientKeys: set<string> := {"age", "gender", "medical_history", "allergies", "medical_conditions"}

  /**
   * One symptom of the payload: `{name: symptom.name || symptom, severity:
   * symptom.severity || 'moderate', duration: ... || null, description: ... || null}`.
   * Reading `.name` of `undefined` or `null` throws.
   */
  function NormalizeSymptom(symptom: Value): (r: Result<Value, string>)
    ensures r.Err? <==> symptom.Undefined? || symptom.Null?
  {
    if symptom.Undefined? || symptom.Null? then Err(ReadError(symptom, "name"))
    else
      Ok(Obj(map["name" := Or(Get(symptom, "name"), symptom),
                 "severity" := Or(Get(symptom, "severity"), Str("moderate")),
                 "duration" := Or(Get(symptom, "duration"), Null),
                 "description" := Or(Get(symptom, "description"), Null)]))
  }

  /** `symptoms.map(...)`: the first item that throws stops the whole map. */
  function NormalizeSymptoms(symptoms: seq<Value>): Result<seq<Value>, string>
  {
    if symptoms == [] then Ok([])
    else
      match NormalizeSymptom(symptoms[0])
      case Err(m) => Err(m)
      case Ok(head) =>
        match NormalizeSymptoms(symptoms[1..])
        case Err(m) => Err(m)
        case Ok(tail) => Ok([head] + tail)
  }

  /**
   * The map succeeds exactly when every symptom normalises, and then gives
   * one normalised symptom per symptom, in order.
   */
  lemma {:induction false} NormalizeSymptomsEach(symptoms: seq<Value>)
    ensures NormalizeSymptoms(symptoms).Ok? <==> forall i :: 0 <= i < |symptoms| ==> NormalizeSymptom(symptoms[i]).Ok?
    ensures NormalizeSymptoms(symptoms).Ok? ==>
              && |NormalizeSymptoms(symptoms).value| == |symptoms|
              && forall i :: 0 <= i < |symptoms| ==> NormalizeSymptoms(symptoms).value[i] == NormalizeSymptom(symptoms[i]).value
  {
    if symptoms != [] {
      NormalizeSymptomsEach(symptoms[1..]);
      assert forall i :: 1 <= i < |symptoms| ==> symptoms[i] == symptoms[1..][i - 1];
    }
  }

  /** The `patientInfo` block; an absent argument defaults to `{}`, a `null` one throws. */
  function NormalizePatient(patientInfo: Value): (r: Result<Value, string>)
    ensures r.Err? <==> patientInfo.Null?
  {
    var p := if patientInfo.Undefined? then Obj(map[]) else patientInfo;
    if p.Null? then Err(ReadError(p, "age"))
    else
      Ok(Obj(map["age" := Or(Get(p, "age"), Null),
                 "gender" := Or(Get(p, "gender"), Null),
                 "medical_history" := Or(Get(p, "medical_history"), Arr([])),
                 "allergies" := Or(Get(p, "allergies"), Null),
                 "medical_conditions" := Or(Get(p, "medical_conditions"), Null)]))
  }

  /** The body posted to `/symptoms/analyze`, or the TypeError raised while building it. */
  function AnalyzePayload(symptoms: seq<Value>, patientInfo: Value): (r: Result<Value, string>)
    ensures r.Ok? <==> NormalizeSymptoms(symptoms).Ok? && NormalizePatient(patientInfo).Ok?
  {
    match NormalizeSymptoms(symptoms)
    case Err(m) => Err(m)
    case Ok(items) =>
      match NormalizePatient(patientInfo)
      case Err(m) => Err(m)
      case Ok(info) => Ok(Obj(map["symptoms" := Arr(items), "patientInfo" := info]))
  }

  /**
   * A normalised symptom has exactly the four keys and a truthy severity,
   * its name is truthy exactly when `symptom.name || symptom` is, and a
   * plain-text symptom becomes the default symptom of that name.
   */
  lemma NormalizedSymptomShape(symptom: Value)
    requires NormalizeSymptom(symptom).Ok?
    ensures var n := NormalizeSymptom(symptom).value;
            && n.Obj? && n.fields.Keys == SymptomKeys
            && Truthy(n.fields["severity"]) && Truthy(n.fields["name"]) == Truthy(Or(Get(symptom, "name"), symptom))
    ensures symptom.Str? ==> NormalizeSymptom(symptom).value == PlainSymptom(symptom.s)
  {
  }

  /**
   * A normalised patient block has exactly the five keys; each but the
   * history is `null` exactly when the given value is falsy, and the
   * history is always truthy.
   */
  lemma NormalizedPatientShape(patientInfo: Value)
    requires NormalizePatient(patientInfo).Ok?
    ensures var n := NormalizePatient(patientInfo).value;
            && n.Obj? && n.fields.Keys == PatientKeys
            && (forall k :: k in PatientKeys - {"medical_history"} ==> (n.fields[k] == Null <==> !Truthy(Get(patientInfo, k))))
            && Truthy(n.fields["medical_history"])
  {
  }

  /** The payload holds exactly the normalised symptoms and the normalised patient block. */
  lemma PayloadShape(symptoms: seq<Value>, patientInfo: Value)
    requires AnalyzePayload(symptoms, patientInfo).Ok?
    ensures var p := AnalyzePayload(symptoms, patientInfo).value;
            && p.Obj? && p.fields.Keys == {"symptoms", "patientInfo"}
            && p.fields["symptoms"] == Arr(NormalizeSymptoms(symptoms).value)
            && p.fields["patientInfo"] == NormalizePatient(patientInfo).value
  {
  }

  /** `response.data?.data?.analysis || response.data`. */
  function UnwrapAnalysis(body: Value): (r: Value)
    ensures Truthy(Get(Get(body, "data"), "analysis")) ==> r == body.fields["data"].fields["analysis"]
    ensures !Truthy(Get(Get(body, "data"), "analysis")) ==> r == body
  {
    Or(Get(Get(body, "data"), "analysis"), body)
  }

  /**
   * `analyzeSymptoms(symptoms, patientInfo)`, with `reply` what the server
   * answered; an error thrown while building the payload is classified like
   * any other error.
   */
  function AnalyzeSymptoms(symptoms: seq<Value>, patientInfo: Value, reply: Reply): ApiResult {
    match AnalyzePayload(symptoms, patientInfo)
    case Err(m) => Classify(TypeError(m), InvalidSymptomsMessage, SymptomServerMessage)
    case Ok(_) =>
      match reply
      case Response(body) => Success(UnwrapAnalysis(body))
      case Thrown(e) => Classify(e, InvalidSymptomsMessage, SymptomServerMessage)
  }

  /**
   * The analysis succeeds exactly when the payload builds and the server
   * answers, with the unwrapped analysis; a thrown error is classified with
   * the symptom messages.
   */
  lemma AnalyzeSymptomsOutcome(symptoms: seq<Value>, patientInfo: Value, reply: Reply)
    ensures var r := AnalyzeSymptoms(symptoms, patientInfo, reply);
            && (r.IsSuccess() <==> AnalyzePayload(symptoms, patientInfo).Ok? && reply.Response?)
            && (r.IsSuccess() ==> r.data == UnwrapAnalysis(reply.body))
            && (AnalyzePayload(symptoms, patientInfo).Ok? && reply.Thrown? ==>
                  r == Classify(reply.error, InvalidSymptomsMessage, SymptomServerMessage))
  {
  }

  /**
   * Normalising a normalised symptom changes nothing, provided its name is
   * truthy (a falsy name, as for the symptom `""`, is replaced by the whole
   * object on a second pass).
   */
  lemma NormalizeSymptomIdempotent(symptom: Value)
    requires NormalizeSymptom(symptom).Ok?
    requires Truthy(Or(Get(symptom, "name"), symptom))
    ensures NormalizeSymptom(NormalizeSymptom(symptom).value) == NormalizeSymptom(symptom)
  {
    var n := NormalizeSymptom(symptom).value;
    assert Get(n, "name") == Or(Get(symptom, "name"), symptom);
    assert Get(n, "severity") == Or(Get(symptom, "severity"), Str("moderate"));
    assert Get(n, "duration") == Or(Get(symptom, "duration"), Null);
    assert Get(n, "description") == Or(Get(symptom, "description"), Null);
  }

  /** Normalising a normalised patient block changes nothing. */
  lemma NormalizePatientIdempotent(patientInfo: Value)
    requires NormalizePatient(patientInfo).Ok?
    ensures NormalizePatient(NormalizePatient(patientInfo).value) == NormalizePatient(patientInfo)
  {
  }

  /** Two plain-text symptoms and an empty patient block give two default symptoms and an all-null patient block. */
  lemma TwoPlainSymptoms()
    ensures AnalyzePayload([Str("headache"), Str("fever")], Obj(map[])) ==
            Ok(Obj(map["symptoms" := Arr([PlainSymptom("headache"), PlainSymptom("fever")]),
                       "patientInfo" := Obj(map["age" := Null, "gender" := Null, "medical_history" := Arr([]),
                                                "allergies" := Null, "medical_conditions" := Null])]))
  {
    assert NormalizeSymptoms([Str("fever")]).value == [PlainSymptom("fever")];
    assert NormalizeSymptoms([Str("headache"), Str("fever")]).value == [PlainSymptom("headache"), PlainSymptom("fever")];
  }

  function PlainSymptom(name: string): Value {
    Obj(map["name" := Str(name), "severity" := Str("moderate"), "duration" := Null, "description" := Null])
  }

  // ---------------------------------------------------------------------------
  // findNearbyDoctors

  /**
   * The body posted by `findNearbyDoctors(latitude, longitude, radius, specialty)`:
   * coordinates, radius (10 when not passed) and `specialty` only when truthy.
   */
  function NearbyPayload(latitude: real, longitude: real, radius: Value, specialty: Value): (r: Value)
    ensures r.Obj?
    ensures r.fields.Keys == if Truthy(specialty) then {"coordinates", "radius", "specialty"} else {"coordinates", "radius"}
    ensures r.fields["coordinates"] == Obj(map["latitude" := Num(latitude), "longitude" := Num(longitude)])
    ensures r.fields["radius"] == if radius.Undefined? then Num(10.0) else radius
    ensures Truthy(specialty) ==> r.fields["specialty"] == specialty
  {
    var base := map["coordinates" := Obj(map["latitude" := Num(latitude), "longitude" := Num(longitude)]),
                     "radius" := if radius.Undefined? then Num(10.0) else radius];
    Obj(if Truthy(specialty) then base["specialty" := specialty] else base)
  }

  /** `findNearbyDoctors`: the raw body on success, the same four-way classification otherwise. */
  function FindNearbyDoctors(reply: Reply): (r: ApiResult)
    ensures r.IsSuccess() <==> reply.Response?
    ensures reply.Response? ==> r.data == reply.body
    ensures reply.Thrown? ==> r == Classify(reply.error, InvalidLocationMessage, DoctorServerMessage)
  {
    match reply
    case Response(body) => Success(body)
    case Thrown(e) => Classify(e, InvalidLocationMessage, DoctorServerMessage)
  }

  // ---------------------------------------------------------------------------
  // getCurrentLocation

  /** The W3C GeolocationPositionError codes. */
  const PermissionDenied := 1
  const PositionUnavailable := 2
  const Timeout := 3

  /** What the browser's geolocation offered. */
  datatype Geolocation =
    | Unsupported
    | Position(latitude: real, longitude: real, accuracy: real)
    | PositionError(code: int)

  /** How the promise of `getCurrentLocation` settles. */
  datatype Located = Resolved(latitude: real, longitude: real) | Rejected(message: string)

  const NotSupportedMessage := "Geolocation is not supported by this browser."
  const DeniedMessage := "Location access denied by user."
  const UnavailableMessage := "Location information is unavailable."
  const TimedOutMessage := "Location request timed out."
  const UnknownLocationMessage := "An unknown error occurred while retrieving location."

  function GetCurrentLocation(g: Geolocation): (r: Located)
    ensures r.Resolved? <==> g.Position?
    ensures g.Position? ==> r == Resolved(g.latitude, g.longitude)
    ensures g.Unsupported? ==> r == Rejected(NotSupportedMessage)
    ensures g.PositionError? ==>
              r == Rejected(if g.code == PermissionDenied then DeniedMessage
                            else if g.code == PositionUnavailable then UnavailableMessage
                            else if g.code == Timeout then TimedOutMessage
                            else UnknownLocationMessage)
  {
    match g
    case Unsupported => Rejected(NotSupportedMessage)
    case Position(lat, lon, _) => Resolved(lat, lon)
    case PositionError(code) =>
      if code == PermissionDenied then Rejected(DeniedMessage)
      else if code == PositionUnavailable then Rejected(UnavailableMessage)
      else if code == Timeout then Rejected(TimedOutMessage)
      else Rejected(UnknownLocationMessage)
  }

  /** Different failures of the geolocation call are told apart by their messages. */
  lemma LocationMessagesDistinct(g1: Geolocation, g2: Geolocation)
    requires g1.PositionError? && g2.PositionError?
    requires g1.code in {PermissionDenied, PositionUnavailable, Timeout} && g1.code != g2.code
    ensures GetCurrentLocation(g1) != GetCurrentLocation(g2)
  {
  }

  // ---------------------------------------------------------------------------
  // healthCheck

  const NotRespondingMessage := "Backend server is not responding"

  function HealthCheck(reply: Reply): (r: ApiResult)
    ensures r.IsSuccess() <==> reply.Response?
    ensures reply.Response? ==> r.data == reply.body
    ensures reply.Thrown? ==> r == Failure(NotRespondingMessage, Note(reply.error.message))
  {
    match reply
    case Response(body) => Success(body)
    case Thrown(e) => Failure(NotRespondingMessage, Note(e.message))
  }
}
