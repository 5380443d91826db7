/**
 * The patient document of backend-fastapi/app/models/patient.py and its
 * session counters, updated in place.  Timestamps are seconds; the clock
 * and the UUID are parameters.
 */
module PatientModel {
  import opened Outcomes

  /** `SessionData`, whose fields the increments update in place. */
  class SessionData {
    var createdAt: real
    var lastActiveAt: real
    var totalSymptomChecks: int
    var totalDoctorSearches: int
    var isActive: bool

    /** `SessionData()`: both counters at zero and active; `created` and `lastActive` are the two clock readings. */
    constructor (created: real, lastActive: real)
      ensures createdAt == created && lastActiveAt == lastActive
      ensures totalSymptomChecks == 0 && totalDoctorSearches == 0 && isActive
    {
      createdAt := created;
      lastActiveAt := lastActive;
      totalSymptomChecks := 0;
      totalDoctorSearches := 0;
      isActive := true;
    }
  }

  class Patient {
    var sessionId: string
    var name: Option<string>
    var email: Option<string>
    var age: Option<int>
    var sessionData: SessionData

    /** A patient with every optional field missing and fresh session data; `uuid` is the generated session id. */
    constructor (uuid: string, created: real, lastActive: real)
      ensures sessionId == uuid && name.None? && email.None? && age.None?
      ensures fresh(sessionData)
      ensures sessionData.createdAt == created && sessionData.lastActiveAt == lastActive
      ensures sessionData.totalSymptomChecks == 0 && sessionData.totalDoctorSearches == 0 && sessionData.isActive
    {
      sessionId := uuid;
      name := None;
      email := None;
      age := None;
      sessionData := new SessionData(created, lastActive);
    }

    /** `update_last_active`: only the activity time changes. */
    method UpdateLastActive(now: real)
      modifies sessionData
      ensures sessionData.lastActiveAt == now
      ensures sessionData.createdAt == old(sessionData.createdAt) && sessionData.isActive == old(sessionData.isActive)
      ensures sessionData.totalSymptomChecks == old(sessionData.totalSymptomChecks)
      ensures sessionData.totalDoctorSearches == old(sessionData.totalDoctorSearches)
    {
      sessionData.lastActiveAt := now;
    }

    /** `increment_symptom_checks`: one more symptom check, the doctor searches unchanged, activity refreshed. */
    method IncrementSymptomChecks(now: real)
      modifies sessionData
      ensures sessionData.totalSymptomChecks == old(sessionData.totalSymptomChecks) + 1
      ensures sessionData.totalDoctorSearches == old(sessionData.totalDoctorSearches)
      ensures sessionData.lastActiveAt == now
      ensures sessionData.createdAt == old(sessionData.createdAt) && sessionData.isActive == old(sessionData.isActive)
    {
      sessionData.totalSymptomChecks := sessionData.totalSymptomChecks + 1;
      UpdateLastActive(now);
    }

    /** `increment_doctor_searches`: one more doctor search, the symptom checks unchanged, activity refreshed. */
    method IncrementDoctorSearches(now: real)
      modifies sessionData
      ensures sessionData.totalDoctorSearches == old(sessionData.totalDoctorSearches) + 1
      ensures sessionData.totalSymptomChecks == old(sessionData.totalSymptomChecks)
      ensures sessionData.lastActiveAt == now
      ensures sessionData.createdAt == old(sessionData.createdAt) && sessionData.isActive == old(sessionData.isActive)
    {
      sessionData.totalDoctorSearches := sessionData.totalDoctorSearches + 1;
      UpdateLastActive(now);
    }
  }

  /** The two counters of a new patient after one symptom check and then one doctor search. */
  method CheckThenSearch(uuid: string, t0: real, t1: real, t2: real) returns (checks: int, searches: int, lastActive: real)
    ensures checks == 1 && searches == 1 && lastActive == t2
  {
    var p := new Patient(uuid, t0, t0);
    p.IncrementSymptomChecks(t1);
    p.IncrementDoctorSearches(t2);
    checks, searches, lastActive := p.sessionData.totalSymptomChecks, p.sessionData.totalDoctorSearches,
                                    p.sessionData.lastActiveAt;
  }
}
