/**
 * The in-memory patient session store of backend-fastapi/app/routers/patients.py:
 * payload validation, and creating, updating, reading and summarising
 * sessions kept in a dictionary keyed by session id.  The clock and the
 * random UUID are parameters.
 */
module Patients {
  import opened Outcomes
  import opened Text

  // ---------------------------------------------------------------------------
  // Payloads

  /** A profile entry: a string field, the age, or the free-form location object. */
  datatype ProfileValue = Text(s: string) | Number(n: int) | Location(fields: map<string, string>)

  /** `PatientSessionCreate` and `PatientSessionUpdate`, which declare the same fields. */
  datatype PatientPayload = PatientPayload(name: Option<string>, email: Option<string>, phone: Option<string>,
                                           age: Option<int>, gender: Option<string>,
                                           location: Option<map<string, string>>)

  const Genders: set<string> := {"male", "female", "other", "prefer-not-to-say"}

  /** Why a payload was rejected. */
  datatype PayloadError = AgeOutOfRange | UnknownGender

  /** Age must lie in 1..150 and gender be one of four values, when given. */
  function ValidatePayload(p: PatientPayload): (r: Result<PatientPayload, seq<PayloadError>>)
    ensures r.Ok? <==> (p.age.Some? ==> 1 <= p.age.value <= 150) && (p.gender.Some? ==> p.gender.value in Genders)
    ensures r.Ok? ==> r.value == p
    ensures r.Err? ==> (AgeOutOfRange in r.error <==> p.age.Some? && !(1 <= p.age.value <= 150))
    ensures r.Err? ==> (UnknownGender in r.error <==> p.gender.Some? && p.gender.value !in Genders)
  {
    var errors := (if p.age.Some? && !(1 <= p.age.value <= 150) then [AgeOutOfRange] else [])
                  + (if p.gender.Some? && p.gender.value !in Genders then [UnknownGender] else []);
    if errors == [] then Ok(p) else Err(errors)
  }

  const ProfileKeys: set<string> := {"name", "email", "phone", "age", "gender", "location"}

  /** The payload field called `key`, when it is not `None`. */
  function Field(p: PatientPayload, key: string): Option<ProfileValue> {
    if key == "name" then (if p.name.Some? then Some(Text(p.name.value)) else None)
    else if key == "email" then (if p.email.Some? then Some(Text(p.email.value)) else None)
    else if key == "phone" then (if p.phone.Some? then Some(Text(p.phone.value)) else None)
    else if key == "age" then (if p.age.Some? then Some(Number(p.age.value)) else None)
    else if key == "gender" then (if p.gender.Some? then Some(Text(p.gender.value)) else None)
    else if key == "location" then (if p.location.Some? then Some(Location(p.location.value)) else None)
    else None
  }

  /** `payload.model_dump(exclude_none=True)`: the fields that are not `None`. */
  function Profile(p: PatientPayload): (r: map<string, ProfileValue>)
    ensures "name" in r <==> p.name.Some?
    ensures "email" in r <==> p.email.Some?
    ensures "phone" in r <==> p.phone.Some?
    ensures "age" in r <==> p.age.Some?
    ensures "gender" in r <==> p.gender.Some?
    ensures "location" in r <==> p.location.Some?
    ensures r.Keys <= ProfileKeys
    ensures p.name.Some? ==> r["name"] == Text(p.name.value)
    ensures p.email.Some? ==> r["email"] == Text(p.email.value)
    ensures p.phone.Some? ==> r["phone"] == Text(p.phone.value)
    ensures p.age.Some? ==> r["age"] == Number(p.age.value)
    ensures p.gender.Some? ==> r["gender"] == Text(p.gender.value)
    ensures p.location.Some? ==> r["location"] == Location(p.location.value)
  {
    map k | k in ProfileKeys && Field(p, k).Some? :: Field(p, k).value
  }

  /** An empty payload leaves a profile as it was. */
  lemma EmptyPayloadChangesNothing(profile: map<string, ProfileValue>)
    ensures profile + Profile(PatientPayload(None, None, None, None, None, None)) == profile
  {
    var empty := Profile(PatientPayload(None, None, None, None, None, None));
    assert empty.Keys == {};
  }

  // ---------------------------------------------------------------------------
  // Sessions

  datatype Session = Session(sessionId: string, profile: map<string, ProfileValue>, createdAt: string,
                             lastActiveAt: string, totalSymptomChecks: int, totalDoctorSearches: int, isActive: bool)

  const NotFound := HttpError(404, "Session not found")

  /** 32 lower-case hexadecimal digits, as `uuid4().hex`. */
  predicate IsUuidHex(h: string) {
    |h| == 32 && forall i :: 0 <= i < |h| ==> IsHexDigit(h[i])
  }

  /** "sess_" and the first ten digits of the UUID. */
  function SessionId(uuidHex: string): (id: string)
    requires IsUuidHex(uuidHex)
    ensures |id| == 15 && id[..5] == "sess_"
    ensures forall i :: 5 <= i < 15 ==> IsHexDigit(id[i])
  {
    "sess_" + uuidHex[..10]
  }

  /** What `session_analytics` reports: the two counters. */
  datatype Totals = Totals(symptomChecks: int, doctorSearches: int)

  class SessionStore {
    /** `_sessions`. */
    var sessions: map<string, Session>

    /** Every session is filed under its own id. */
    predicate Valid()
      reads this
    {
      forall id :: id in sessions ==> sessions[id].sessionId == id
    }

    constructor ()
      ensures Valid()
      ensures sessions == map[]
    {
      sessions := map[];
    }

    /**
     * `create_session`: a fresh entry with the payload's non-`None` fields as
     * profile and both counters at zero, filed (and overwriting any entry)
     * under "sess_" and ten digits of `uuidHex`.  `created` and `lastActive`
     * are the two clock readings.
     */
    method CreateSession(payload: PatientPayload, uuidHex: string, created: string, lastActive: string)
      returns (s: Session)
      requires Valid()
      requires IsUuidHex(uuidHex)
      modifies this
      ensures Valid()
      ensures s == Session(SessionId(uuidHex), Profile(payload), created, lastActive, 0, 0, true)
      ensures sessions == old(sessions)[s.sessionId := s]
    {
      var id := SessionId(uuidHex);
      s := Session(id, Profile(payload), created, lastActive, 0, 0, true);
      sessions := sessions[id := s];
    }

    /**
     * `update_session`: 404 for an unknown id with nothing changed; otherwise
     * the payload's non-`None` fields overwrite those profile keys, the other
     * keys stay, the activity time is refreshed and no other session changes.
     */
    method UpdateSession(id: string, payload: PatientPayload, now: string) returns (r: Result<Session, HttpError>)
      requires Valid()
      modifies this
      ensures Valid()
      ensures id !in old(sessions) ==> r == Err(NotFound) && sessions == old(sessions)
      ensures id in old(sessions) ==>
                && r.Ok?
                && r.value == old(sessions)[id].(profile := old(sessions)[id].profile + Profile(payload), lastActiveAt := now)
                && sessions == old(sessions)[id := r.value]
    {
      if id !in sessions {
        return Err(NotFound);
      }
      var s := sessions[id];
      s := s.(profile := s.profile + Profile(payload), lastActiveAt := now);
      sessions := sessions[id := s];
      r := Ok(s);
    }

    /** `get_session`: the stored entry unchanged, or 404. */
    function GetSession(id: string): (r: Result<Session, HttpError>)
      reads this
      ensures r.Ok? <==> id in sessions
      ensures r.Err? ==> r.error == NotFound
      ensures r.Ok? ==> r.value == sessions[id]
    {
      if id in sessions then Ok(sessions[id]) else Err(NotFound)
    }

    /** `session_analytics`: the two counters of the session, or 404. */
    function SessionAnalytics(id: string): (r: Result<Totals, HttpError>)
      reads this
      ensures r.Ok? <==> id in sessions
      ensures r.Err? ==> r.error == NotFound
      ensures r.Ok? ==> r.value == Totals(sessions[id].totalSymptomChecks, sessions[id].totalDoctorSearches)
    {
      if id in sessions then
        Ok(Totals(sessions[id].totalSymptomChecks, sessions[id].totalDoctorSearches))
      else Err(NotFound)
    }
  }

  /** After an update the profile holds the new values of the given fields and the old value of every other key. */
  lemma UpdateMergesProfile(profile: map<string, ProfileValue>, payload: PatientPayload)
    ensures (profile + Profile(payload)).Keys == profile.Keys + Profile(payload).Keys
    ensures forall k :: k in Profile(payload) ==> (profile + Profile(payload))[k] == Profile(payload)[k]
    ensures forall k :: k in profile && k !in Profile(payload) ==> (profile + Profile(payload))[k] == profile[k]
    ensures payload.age.Some? ==> (profile + Profile(payload))["age"] == Number(payload.age.value)
    ensures payload.age.None? && "age" in profile ==> (profile + Profile(payload))["age"] == profile["age"]
  {
  }

  /** A session created and then read back is the one created, with zero totals. */
  method CreateThenRead(store: SessionStore, payload: PatientPayload, uuidHex: string, created: string, lastActive: string)
    returns (got: Result<Session, HttpError>, totals: Result<Totals, HttpError>)
    requires store.Valid() && IsUuidHex(uuidHex)
    modifies store
    ensures got.Ok? && got.value.profile == Profile(payload) && got.value.isActive
    ensures totals == Ok(Totals(0, 0))
  {
    var s := store.CreateSession(payload, uuidHex, created, lastActive);
    got := store.GetSession(s.sessionId);
    totals := store.SessionAnalytics(s.sessionId);
  }
}
