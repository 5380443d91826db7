/**
 * The symptom form of frontend/src/components/SymptomChecker.jsx: a list of
 * symptom fields that always keeps at least one entry, and the analysis
 * handler that refuses an all-blank list, builds the symptom and patient
 * payloads, clears the previous error and result, and always ends with
 * `loading` cleared.  React state is a class whose fields the handlers
 * update; every request handed to the API client is recorded with the
 * state it saw.
 */
module SymptomCheckerComponent {
  import opened Outcomes
  import opened Text
  import opened Js
  import opened ApiService
  import SymptomCheckerPage

  const NoSymptomMessage := "Please enter at least one symptom."

  /** The patient part of the form, as the inputs hold it. */
  datatype PatientForm = PatientForm(age: string, gender: string, medicalHistory: Value, allergies: string)

  /** The form's first patient block: every text empty, no history. */
  const EmptyForm := PatientForm("", "", Arr([]), "")

  /** The patient inputs the form edits: the age, gender and allergies fields. */
  datatype PatientField = AgeField | GenderField | AllergiesField

  /** One call of `analyzeSymptoms`, with `loading`, `error` and `analysisResult` as they stood during it. */
  datatype Request = Request(symptoms: seq<Value>, patientInfo: Value, loading: bool, error: Option<string>,
                             analysisResult: Value)

  /** `xs.filter((_, i) => i !== index)`. */
  function Without<T>(xs: seq<T>, index: int): (r: seq<T>)
    ensures 0 <= index < |xs| ==> r == xs[..index] + xs[index + 1..]
    ensures !(0 <= index < |xs|) ==> r == xs
    decreases |xs|
  {
    if xs == [] then []
    else
      var rest := Without(xs[1..], index - 1);
      assert index != 0 && 0 < index <= |xs| - 1 ==> xs[1..][..index - 1] + xs[1..][index..] == xs[1..index] + xs[index + 1..];
      (if index == 0 then [] else [xs[0]]) + rest
  }

  /** The `symptomsData` of the handler: the non-blank entries, trimmed, in order, each a default symptom. */
  function SymptomsData(symptoms: seq<string>): seq<Value> {
    SymptomCheckerPage.SymptomObjects(NonBlankTrimmed(symptoms))
  }

  /** The `patientData` of the handler: an empty age, gender or allergies text becomes `null`. */
  function PatientData(form: PatientForm): Value {
    Obj(map["age" := if form.age != "" then ParseInt(form.age) else Null,
            "gender" := Or(Str(form.gender), Null),
            "medical_history" := Or(form.medicalHistory, Arr([])),
            "allergies" := Or(Str(form.allergies), Null)])
  }

  /** What an accepted analysis leaves behind: the result or the error. */
  datatype Settled = Settled(analysisResult: Value, error: Option<string>)

  /** The end of `handleAnalyzeSymptoms` once the API client has answered `result`. */
  function Settle(result: ApiResult): (s: Settled)
    ensures result.IsSuccess() ==> s == Settled(result.data, None)
    ensures !result.IsSuccess() ==> s == Settled(Null, Some(result.error))
  {
    if result.IsSuccess() then Settled(result.data, None) else Settled(Null, Some(result.error))
  }

  /** The analyse button's `disabled`: while loading, or while the server is not known to be up. */
  predicate AnalyzeDisabled(loading: bool, status: Option<ApiResult>) {
    loading || !SymptomCheckerPage.ServerUp(status)
  }

  class SymptomForm {
    var symptoms: seq<string>
    var patientInfo: PatientForm
    var loading: bool
    var analysisResult: Value
    var error: Option<string>
    var serverStatus: Option<ApiResult>
    var requests: seq<Request>

    /** There is always at least one symptom field. */
    predicate Valid()
      reads this
    {
      |symptoms| >= 1
    }

    /** The form as first rendered: one empty symptom field, an empty patient block, nothing loaded. */
    constructor ()
      ensures Valid()
      ensures symptoms == [""] && patientInfo == EmptyForm
      ensures !loading && analysisResult == Null && error.None? && serverStatus.None? && requests == []
    {
      symptoms := [""];
      patientInfo := EmptyForm;
      loading := false;
      analysisResult := Null;
      error := None;
      serverStatus := None;
      requests := [];
    }

    /** `handleSymptomChange`: the field at `index` takes `value`; the other fields and their number stay. */
    method HandleSymptomChange(index: nat, value: string)
      requires Valid() && index < |symptoms|
      modifies this
      ensures Valid()
      ensures |symptoms| == |old(symptoms)| && symptoms[index] == value
      ensures forall j :: 0 <= j < |symptoms| && j != index ==> symptoms[j] == old(symptoms)[j]
      ensures patientInfo == old(patientInfo) && loading == old(loading) && analysisResult == old(analysisResult)
      ensures error == old(error) && serverStatus == old(serverStatus) && requests == old(requests)
    {
      symptoms := symptoms[index := value];
    }

    /** `addSymptom`: one more, empty, field at the end. */
    method AddSymptom()
      requires Valid()
      modifies this
      ensures Valid()
      ensures symptoms == old(symptoms) + [""]
      ensures patientInfo == old(patientInfo) && loading == old(loading) && analysisResult == old(analysisResult)
      ensures error == old(error) && serverStatus == old(serverStatus) && requests == old(requests)
    {
      symptoms := symptoms + [""];
    }

    /**
     * `removeSymptom`: the field at `index` goes, but only while there are
     * at least two, so the last field can never be removed.
     */
    method RemoveSymptom(index: int)
      requires Valid()
      modifies this
      ensures Valid()
      ensures |old(symptoms)| > 1 && 0 <= index < |old(symptoms)| ==>
                symptoms == old(symptoms)[..index] + old(symptoms)[index + 1..]
      ensures |old(symptoms)| == 1 || !(0 <= index < |old(symptoms)|) ==> symptoms == old(symptoms)
      ensures patientInfo == old(patientInfo) && loading == old(loading) && analysisResult == old(analysisResult)
      ensures error == old(error) && serverStatus == old(serverStatus) && requests == old(requests)
    {
      if |symptoms| > 1 {
        symptoms := Without(symptoms, index);
      }
    }

    /** `handlePatientInfoChange`: the named patient field takes `value`; the other fields stay. */
    method HandlePatientInfoChange(field: PatientField, value: string)
      modifies this
      ensures field == AgeField ==> patientInfo == old(patientInfo).(age := value)
      ensures field == GenderField ==> patientInfo == old(patientInfo).(gender := value)
      ensures field == AllergiesField ==> patientInfo == old(patientInfo).(allergies := value)
      ensures symptoms == old(symptoms) && loading == old(loading) && analysisResult == old(analysisResult)
      ensures error == old(error) && serverStatus == old(serverStatus) && requests == old(requests)
    {
      match field
      case AgeField => patientInfo := patientInfo.(age := value);
      case GenderField => patientInfo := patientInfo.(gender := value);
      case AllergiesField => patientInfo := patientInfo.(allergies := value);
    }

    /** `checkServerStatus`: the health check's answer becomes the server status. */
    method CheckServerStatus(reply: Reply)
      modifies this
      ensures serverStatus == Some(HealthCheck(reply))
      ensures symptoms == old(symptoms) && patientInfo == old(patientInfo) && loading == old(loading)
      ensures analysisResult == old(analysisResult) && error == old(error) && requests == old(requests)
    {
      serverStatus := Some(HealthCheck(reply));
    }

    /**
     * `handleAnalyzeSymptoms`, with `reply` what the server answers.  An
     * all-blank list sets the error and changes nothing else.  Otherwise the
     * request is made with `loading` set and the error and previous result
     * cleared; success stores the analysis, failure the error message, and
     * `loading` ends cleared.
     */
    method HandleAnalyzeSymptoms(reply: Reply)
      modifies this
      ensures symptoms == old(symptoms) && patientInfo == old(patientInfo) && serverStatus == old(serverStatus)
      ensures NonBlankTrimmed(symptoms) == [] ==>
                && error == Some(NoSymptomMessage)
                && loading == old(loading) && analysisResult == old(analysisResult) && requests == old(requests)
      ensures NonBlankTrimmed(symptoms) != [] ==>
                && requests == old(requests) + [Request(SymptomsData(symptoms), PatientData(patientInfo), true, None, Null)]
                && Settled(analysisResult, error)
                   == Settle(AnalyzeSymptoms(SymptomsData(symptoms), PatientData(patientInfo), reply))
                && !loading
    {
      var entries, form := symptoms, patientInfo;
      var validSymptoms := NonBlankTrimmed(entries);
      if validSymptoms == [] {
        error := Some(NoSymptomMessage);
        return;
      }
      loading := true;
      error := None;
      analysisResult := Null;
      var symptomsData := SymptomCheckerPage.SymptomObjects(validSymptoms);
      var patientData := PatientData(form);
      requests := requests + [Request(symptomsData, patientData, loading, error, analysisResult)];
      var result := AnalyzeSymptoms(symptomsData, patientData, reply);
      SettleResult(result);
      loading := false;
    }

    /** The try/catch around the request: the analysis on success, the error's message otherwise. */
    method SettleResult(result: ApiResult)
      modifies this
      ensures symptoms == old(symptoms) && patientInfo == old(patientInfo) && serverStatus == old(serverStatus)
      ensures requests == old(requests) && loading == old(loading)
      ensures result.IsSuccess() ==> analysisResult == result.data && error == old(error)
      ensures !result.IsSuccess() ==> analysisResult == old(analysisResult) && error == Some(result.error)
    {
      if result.IsSuccess() {
        analysisResult := result.data;
      } else {
        error := Some(result.error);
      }
    }
  }

  // ---------------------------------------------------------------------------
  // Properties

  /** Removing a field keeps every other field, in order, and never empties the list. */
  lemma RemoveKeepsOthers(symptoms: seq<string>, index: int)
    requires |symptoms| > 1 && 0 <= index < |symptoms|
    ensures |Without(symptoms, index)| == |symptoms| - 1 >= 1
    ensures forall j :: 0 <= j < index ==> Without(symptoms, index)[j] == symptoms[j]
    ensures forall j :: index < j < |symptoms| ==> Without(symptoms, index)[j - 1] == symptoms[j]
  {
  }

  /** The list is refused exactly when every field is blank. */
  lemma RefusedIffAllBlank(symptoms: seq<string>)
    ensures NonBlankTrimmed(symptoms) == [] <==> forall k :: 0 <= k < |symptoms| ==> AllSpace(symptoms[k])
  {
    NonBlankTrimmedEmpty(symptoms);
  }

  /**
   * A non-blank field reaches the API client trimmed, as a plain default
   * symptom, and the symptom payload is always valid.
   */
  lemma FieldReachesPayload(symptoms: seq<string>, k: nat)
    requires k < |symptoms| && !AllSpace(symptoms[k])
    ensures NormalizeSymptoms(SymptomsData(symptoms)).Ok?
    ensures PlainSymptom(Trim(symptoms[k])) in NormalizeSymptoms(SymptomsData(symptoms)).value
  {
    var names := NonBlankTrimmed(symptoms);
    NonBlankTrimmedClean(symptoms);
    NonBlankTrimmedKeeps(symptoms, k);
    NameReachesPayload(names, Trim(symptoms[k]));
  }

  /** Each of a list of clean names is sent as a plain default symptom. */
  lemma NameReachesPayload(names: seq<string>, name: string)
    requires CleanPieces(names) && name in names
    ensures NormalizeSymptoms(SymptomCheckerPage.SymptomObjects(names)).Ok?
    ensures PlainSymptom(name) in NormalizeSymptoms(SymptomCheckerPage.SymptomObjects(names)).value
  {
    SymptomCheckerPage.SymptomObjectsNormalize(names);
    var j :| 0 <= j < |names| && names[j] == name;
    var sent := NormalizeSymptoms(SymptomCheckerPage.SymptomObjects(names)).value;
    assert sent[j] == PlainSymptom(name);
  }

  /**
   * The patient block the API client finally sends: an empty gender or
   * allergies text as `null`, no medical conditions, the history or `[]`,
   * and as age `null` for an empty text and for one `parseInt` cannot read
   * or reads as 0, the number otherwise.
   */
  lemma PatientSent(form: PatientForm)
    ensures NormalizePatient(PatientData(form)).Ok?
    ensures var sent := NormalizePatient(PatientData(form)).value.fields;
            && sent["age"] == (if form.age != "" && Truthy(ParseInt(form.age)) then ParseInt(form.age) else Null)
            && sent["gender"] == (if form.gender == "" then Null else Str(form.gender))
            && sent["allergies"] == (if form.allergies == "" then Null else Str(form.allergies))
            && sent["medical_history"] == (if Truthy(form.medicalHistory) then form.medicalHistory else Arr([]))
            && sent["medical_conditions"] == Null
  {
    var data := PatientData(form);
    assert Get(data, "age") == (if form.age != "" then ParseInt(form.age) else Null);
    assert Get(data, "gender") == Or(Str(form.gender), Null);
    assert Get(data, "allergies") == Or(Str(form.allergies), Null);
    assert Get(data, "medical_history") == Or(form.medicalHistory, Arr([]));
    assert Get(data, "medical_conditions") == Undefined;
  }

  /** An age typed as the decimal digits of a positive number arrives at the API as that number. */
  lemma DecimalAgeSent(form: PatientForm, n: nat)
    requires n > 0 && form.age == NatToString(n)
    ensures NormalizePatient(PatientData(form)).Ok?
    ensures NormalizePatient(PatientData(form)).value.fields["age"] == Num(n as real)
  {
    PatientSent(form);
    ParseIntDecimal(n);
  }

  /** An enabled analyse button means the server answered the health check with success. */
  lemma EnabledAnalyzeMeansServerUp(loading: bool, status: Option<ApiResult>)
    requires !AnalyzeDisabled(loading, status)
    ensures !loading && status.Some? && status.value.IsSuccess()
  {
  }
}
