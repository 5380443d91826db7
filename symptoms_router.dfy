/**
 * The symptom endpoints of backend-fastapi/app/routers/symptoms.py: the
 * request model, the empty-list check, the hand-off to the analysis and
 * medication services, and the response envelopes.
 */
module SymptomsRouter {
  import opened Outcomes
  import GeminiAI

  /** A `Symptom` as received; the model is only built when `severity` matches the pattern. */
  datatype Symptom = Symptom(name: string, severity: Option<string>, duration: Option<string>, description: Option<string>)

  const Severities: set<string> := {"mild", "moderate", "severe"}

  /** The severity pattern: missing, or exactly mild, moderate or severe. */
  predicate ValidSeverity(severity: Option<string>) {
    severity.None? || severity.value in Severities
  }

  /** `AnalyzeRequest` validation: every symptom's severity must match. */
  function ValidateSymptoms(symptoms: seq<Symptom>): (r: Result<seq<Symptom>, nat>)
    ensures r.Ok? <==> forall i :: 0 <= i < |symptoms| ==> ValidSeverity(symptoms[i].severity)
    ensures r.Ok? ==> r.value == symptoms
    ensures r.Err? ==> r.error < |symptoms| && !ValidSeverity(symptoms[r.error].severity)
                       && forall i :: 0 <= i < r.error ==> ValidSeverity(symptoms[i].severity)
  {
    if symptoms == [] then Ok([])
    else if !ValidSeverity(symptoms[0].severity) then Err(0)
    else
      match ValidateSymptoms(symptoms[1..])
      case Ok(_) => Ok(symptoms)
      case Err(i) => Err(i + 1)
  }

  /** `s.model_dump()`: every key is present, so a missing severity arrives as `None`. */
  function Dump(s: Symptom): (d: GeminiAI.SymptomDict)
    ensures d.name == Some(s.name)
    ensures s.severity.None? <==> d.severity == GeminiAI.NoneValue
    ensures s.severity.Some? ==> d.severity == GeminiAI.Given(s.severity.value)
  {
    GeminiAI.SymptomDict(Some(s.name), if s.severity.Some? then GeminiAI.Given(s.severity.value) else GeminiAI.NoneValue)
  }

  function DumpAll(symptoms: seq<Symptom>): (r: seq<GeminiAI.SymptomDict>)
    ensures |r| == |symptoms|
    ensures forall i :: 0 <= i < |symptoms| ==> r[i] == Dump(symptoms[i])
  {
    seq(|symptoms|, i requires 0 <= i < |symptoms| => Dump(symptoms[i]))
  }

  /** `req.patientInfo or {}`: a missing or empty patient record is forwarded as an empty one. */
  function ForwardedPatientInfo(patientInfo: Option<map<string, string>>): (r: map<string, string>)
    ensures patientInfo.None? ==> r == map[]
    ensures patientInfo.Some? ==> r == patientInfo.value
  {
    if patientInfo.Some? && patientInfo.value != map[] then patientInfo.value else map[]
  }

  /** `{"status": "success", "data": {"analysis": …}}`. */
  datatype AnalyzeEnvelope = AnalyzeEnvelope(status: string, analysis: GeminiAI.Analysis)

  const NoSymptoms := HttpError(400, "No symptoms provided")

  /**
   * `analyze`: 400 for an empty list before any analysis; otherwise the
   * analysis of the dumped symptoms, wrapped in the success envelope.
   * `external` is what the medical APIs returned.
   */
  method Analyze(symptoms: seq<Symptom>, external: Result<GeminiAI.ExternalData, string>) returns (r: Result<AnalyzeEnvelope, HttpError>)
    ensures symptoms == [] <==> r == Err(NoSymptoms)
    ensures r.Ok? ==> r.value.status == "success"
    ensures symptoms != [] ==> r == Ok(AnalyzeEnvelope("success", GeminiAI.AnalysisOf(DumpAll(symptoms), external)))
    ensures symptoms != [] && external.Err? ==> r.value.analysis == GeminiAI.ErrorAnalysis(external.error)
    ensures r.Ok? && external.Ok? ==>
              var severities := GeminiAI.Severities(DumpAll(symptoms));
              r.value.analysis.riskLevel == GeminiAI.RiskLevel(severities, |symptoms|).Name()
  {
    if symptoms == [] {
      return Err(NoSymptoms);
    }
    var analysis := GeminiAI.AnalyzeSymptoms(DumpAll(symptoms), external);
    r := Ok(AnalyzeEnvelope("success", analysis));
  }

  /**
   * Through this endpoint a symptom sent without severity counts as neither
   * severe nor moderate: two such symptoms give risk "low", where two dicts
   * without the key at all would give "medium".
   */
  lemma MissingSeverityIsNotModerate(a: string, b: string)
    ensures GeminiAI.RiskLevel(GeminiAI.Severities(DumpAll([Symptom(a, None, None, None), Symptom(b, None, None, None)])), 2)
         == GeminiAI.Low
    ensures GeminiAI.RiskLevel(GeminiAI.Severities([GeminiAI.SymptomDict(Some(a), GeminiAI.Missing),
                                                    GeminiAI.SymptomDict(Some(b), GeminiAI.Missing)]), 2)
         == GeminiAI.Medium
  {
    var routed := GeminiAI.Severities(DumpAll([Symptom(a, None, None, None), Symptom(b, None, None, None)]));
    assert routed == [None, None];
    var direct := GeminiAI.Severities([GeminiAI.SymptomDict(Some(a), GeminiAI.Missing), GeminiAI.SymptomDict(Some(b), GeminiAI.Missing)]);
    assert direct == [Some("moderate"), Some("moderate")];
    assert GeminiAI.CountOf(direct[1..], Some("moderate")) == 1;
  }

  /** `{"status": "success", "data": …}` around the medication advice. */
  datatype MedicationsEnvelope = MedicationsEnvelope(status: string, data: GeminiAI.MedicationAdvice)

  /** `medications`: the advice for the listed symptom names, wrapped in the success envelope. */
  method Medications(symptoms: seq<string>, external: Result<seq<GeminiAI.Medication>, string>) returns (r: MedicationsEnvelope)
    ensures r == MedicationsEnvelope("success", GeminiAI.AdviceOf(GeminiAI.Items(TextItems(symptoms)), external))
    ensures external.Err? ==> r.data == GeminiAI.ErrorAdvice(external.error)
    ensures external.Ok? ==>
              && r.data.medications == GeminiAI.Take(if external.value == [] then GeminiAI.MatchAll(GeminiAI.MedicationTable, symptoms)
                                                     else external.value, 6)
              && r.data.source == GeminiAI.AdviceSource && r.data.error.None?
              && r.data.notes == Some(GeminiAI.AdviceNotes) && r.data.disclaimer == GeminiAI.AdviceDisclaimer
    ensures external.Ok? ==> r.data.warnings == GeminiAI.MedicationWarnings(symptoms)
    ensures external.Ok? ==> r.data.generalAdvice == GeminiAI.GeneralAdvice(symptoms)
  {
    var items := TextItems(symptoms);
    TextItemsNames(symptoms);
    var advice := GeminiAI.GetMedications(GeminiAI.Items(items), external);
    r := MedicationsEnvelope("success", advice);
  }

  /** The request's names as the list of strings `get_medications` receives. */
  function TextItems(symptoms: seq<string>): (items: seq<GeminiAI.Item>)
    ensures |items| == |symptoms|
    ensures forall i :: 0 <= i < |items| ==> items[i] == GeminiAI.Text(symptoms[i])
  {
    seq(|symptoms|, i requires 0 <= i < |symptoms| => GeminiAI.Text(symptoms[i]))
  }

  /** `get_medications` reads a list of strings back as the same names. */
  lemma TextItemsNames(symptoms: seq<string>)
    ensures GeminiAI.MedicationSymptomNames(GeminiAI.Items(TextItems(symptoms))) == symptoms
  {
    var names := GeminiAI.MedicationSymptomNames(GeminiAI.Items(TextItems(symptoms)));
    assert |names| == |symptoms|;
  }

  /** `emergency-signs`: always the same five signs. */
  function EmergencySigns(): (signs: seq<string>)
    ensures |signs| == 5
    ensures forall i, j :: 0 <= i < j < |signs| ==> signs[i] != signs[j]
  {
    ["Chest pain lasting more than a few minutes", "Severe shortness of breath", "Sudden weakness or numbness",
     "Severe, uncontrolled bleeding", "Loss of consciousness"]
  }
}
