/**
 * The results page of frontend/src/pages/Results.tsx: the redirect when no
 * symptom text was handed over, the conditions taken from a handed-over
 * analysis, and otherwise the page's own request to /symptoms/analyze with
 * the conversion of its answer (risk level to badge severity, medication
 * summary) or the single error condition that replaces it.  The rendering
 * helpers that choose a badge and a recommendation's text are functions.
 * The JSON the backend's analysis turns into is built here, so that what
 * the page shows can be stated for every analysis the backend sends.
 */
module ResultsPage {
  import opened Outcomes
  import opened Text
  import opened Js
  import GeminiAI
  import SymptomsRouter
  import ApiService
  import SymptomCheckerPage

  const NoDescription := "No description available"
  const ResponseErrorName := "API Response Error"
  const ResponseErrorDescription :=
    "The API returned an unexpected response format. Please try again or consult a healthcare professional."
  const NetworkErrorName := "Network Error"
  const DefaultTreatment := "Follow general care guidelines"
  const SpecialistPrescription := "Consult a specialist for prescription medication"
  const OtcPrescription := "Over-the-counter medications may be sufficient"
  const SessionId := "web-session"
  const SymptomCheckerPath := "/symptom-checker"

  // ---------------------------------------------------------------------------
  // The backend's analysis as JSON

  /** A possible condition as the backend serialises it; UMLS ids go under "concept_id", MeSH ids under "mesh_id". */
  function ConditionJson(c: GeminiAI.Condition): Value {
    var base := map["name" := Str(c.name), "probability" := Num(c.probability as real),
                    "description" := Str(c.description), "source" := Str(c.source)];
    if c.conceptId.None? then Obj(base)
    else Obj(base[(if c.source == "MeSH" then "mesh_id" else "concept_id") := Str(c.conceptId.value)])
  }

  function MedicationJson(m: GeminiAI.Medication): Value {
    var base := map["name" := Str(m.name), "type" := Str(m.kind), "dosage" := Str(m.dosage),
                    "frequency" := Str(m.frequency), "source" := Str(m.source)];
    if m.indication.None? then Obj(base) else Obj(base["indication" := Str(m.indication.value)])
  }

  function RecommendationJson(r: GeminiAI.Recommendation): Value {
    Obj(map["type" := Str(r.kind), "action" := Str(r.action), "priority" := Str(r.priority)])
  }

  /** The dictionary `analyze_symptoms` returns; "error" is present only on the last-resort answer. */
  function AnalysisJson(a: GeminiAI.Analysis): Value {
    var base := map[
      "riskLevel" := Str(a.riskLevel),
      "confidence" := Num(a.confidence as real),
      "possibleConditions" := Arr(seq(|a.possibleConditions|, i requires 0 <= i < |a.possibleConditions| =>
                                        ConditionJson(a.possibleConditions[i]))),
      "recommendations" := Arr(seq(|a.recommendations|, i requires 0 <= i < |a.recommendations| =>
                                     RecommendationJson(a.recommendations[i]))),
      "warningFlags" := Arr(seq(|a.warningFlags|, i requires 0 <= i < |a.warningFlags| => Str(a.warningFlags[i]))),
      "medicationSuggestions" := Arr(seq(|a.medicationSuggestions|, i requires 0 <= i < |a.medicationSuggestions| =>
                                           MedicationJson(a.medicationSuggestions[i]))),
      "specialistRecommendation" := Obj(map["recommended" := Bool(a.specialist.recommended),
                                            "specialty" := Str(a.specialist.specialty),
                                            "urgency" := Str(a.specialist.urgency)]),
      "model" := Str(a.model),
      "source" := Str(a.source),
      "disclaimer" := Str(a.disclaimer)];
    if a.error.None? then Obj(base) else Obj(base["error" := Str(a.error.value)])
  }

  /** The body of a successful POST /symptoms/analyze. */
  function EnvelopeJson(e: SymptomsRouter.AnalyzeEnvelope): Value {
    Obj(map["status" := Str(e.status), "data" := Obj(map["analysis" := AnalysisJson(e.analysis)])])
  }

  // ---------------------------------------------------------------------------
  // Conditions

  /** A condition as the page lists it: name, description and badge severity. */
  function ShownCondition(name: Value, description: Value, severity: string): Value {
    Obj(map["name" := name, "description" := description, "severity" := Str(severity)])
  }

  /** The badge severity every condition of an analysis gets from its risk level. */
  function RiskSeverity(riskLevel: Value): (s: string)
    ensures s in {"mild", "moderate", "serious"}
  {
    if riskLevel == Str("high") then "serious" else if riskLevel == Str("medium") then "moderate" else "mild"
  }

  /** The map callback of the conversion, which throws on a `null` or `undefined` condition. */
  function ConvertCondition(c: Value, severity: string): (r: Result<Value, string>)
    ensures r.Err? <==> c.Undefined? || c.Null?
    ensures r.Ok? ==> && Get(r.value, "name") == Get(c, "name") && Get(r.value, "severity") == Str(severity)
                      && Truthy(Get(r.value, "description"))
  {
    if c.Undefined? || c.Null? then Err(ReadError(c, "name"))
    else Ok(ShownCondition(Get(c, "name"), Or(Get(c, "description"), Str(NoDescription)), severity))
  }

  /** `analysis.possibleConditions?.map(...) || []`. */
  function ConvertConditions(analysis: Value): (r: Result<Value, string>)
    ensures r.Ok? ==> r.value.Arr?
    ensures var conditions := Get(analysis, "possibleConditions");
            && (conditions.Undefined? || conditions.Null? ==> r == Ok(Arr([])))
            && (conditions.Arr? ==>
                  && (r.Ok? <==> forall k :: 0 <= k < |conditions.items| ==>
                                   !(conditions.items[k].Undefined? || conditions.items[k].Null?))
                  && (r.Ok? ==> |r.value.items| == |conditions.items|))
            && (!(conditions.Undefined? || conditions.Null? || conditions.Arr?) ==> r.Err?)
  {
    var conditions := Get(analysis, "possibleConditions");
    var severity := RiskSeverity(Get(analysis, "riskLevel"));
    if conditions.Undefined? || conditions.Null? then Ok(Arr([]))
    else if conditions.Arr? then
      match MapAll(conditions.items, c => ConvertCondition(c, severity))
      case Ok(shown) => Ok(Arr(shown))
      case Err(m) => Err(m)
    else Err(NotAFunction("analysis.possibleConditions?.map"))
  }

  /** `analysisResult.conditions || []`, as the page reads a handed-over analysis: never falsy. */
  function HandedOverConditionsAsWritten(analysisResult: Value): (r: Value)
    ensures Truthy(r)
    ensures Truthy(Get(analysisResult, "conditions")) ==> r == Get(analysisResult, "conditions")
    ensures !Truthy(Get(analysisResult, "conditions")) ==> r == Arr([])
  {
    Or(Get(analysisResult, "conditions"), Arr([]))
  }

  /**
   * The conditions of a handed-over analysis read from the key the backend
   * writes, converted as the page converts its own answer; a list the
   * conversion cannot read shows nothing.
   */
  function HandedOverConditions(analysisResult: Value): (r: Value)
    ensures r.Arr?
  {
    match ConvertConditions(analysisResult)
    case Ok(shown) => if shown.Arr? then shown else Arr([])
    case Err(_) => Arr([])
  }

  function ErrorCondition(name: string, description: string): Value {
    ShownCondition(Str(name), Str(description), "moderate")
  }

  function NetworkDescription(message: string): string {
    "Failed to connect to the medical API: " + message + ". Please check your internet connection and try again."
  }

  // ---------------------------------------------------------------------------
  // Medication summary

  datatype MedicationInfo = MedicationInfo(treatmentApproach: string, commonOtcClasses: string, prescriptionInfo: string)

  /** `x && x.length > 0`; a length is compared only when it is a number. */
  predicate NonEmptyList(v: Value) {
    match v
    case Str(s) => |s| > 0
    case Arr(items) => |items| > 0
    case Obj(fields) => "length" in fields && fields["length"].Num? && fields["length"].n > 0.0
    case _ => false
  }

  /** The text `.map(r => r.action).join(', ')` makes of a recommendation list. */
  function JoinedActions(items: seq<Value>): string {
    Join(seq(|items|, k requires 0 <= k < |items| => JoinPart(Get(items[k], "action"))), ", ")
  }

  /** `analysis.recommendations?.map(r => r.action).join(', ') || "Follow general care guidelines"`. */
  function TreatmentApproach(analysis: Value): (r: Result<string, string>)
    ensures r.Ok? ==> r.value != ""
    ensures var recommendations := Get(analysis, "recommendations");
            recommendations.Undefined? || recommendations.Null? ==> r == Ok(DefaultTreatment)
  {
    var recommendations := Get(analysis, "recommendations");
    if recommendations.Undefined? || recommendations.Null? then Ok(DefaultTreatment)
    else if recommendations.Arr? then
      match MapAll(recommendations.items, r => Prop(r, "action"))
      case Err(m) => Err(m)
      case Ok(actions) =>
        var joined := JoinText(Arr(actions), actions, ", ");
        Ok(if joined != "" then joined else DefaultTreatment)
    else Err(NotAFunction("analysis.recommendations?.map"))
  }

  /**
   * A list of recommendations gives a treatment text exactly when none of
   * them is `null` or `undefined`: their actions joined with ", ", or the
   * default when that is empty.  Anything else that is set throws.
   */
  lemma TreatmentApproachCases(analysis: Value)
    ensures var recommendations := Get(analysis, "recommendations");
            && (recommendations.Arr? ==>
                  (TreatmentApproach(analysis).Ok? <==> forall k :: 0 <= k < |recommendations.items| ==>
                                !(recommendations.items[k].Undefined? || recommendations.items[k].Null?)))
            && (recommendations.Arr? && TreatmentApproach(analysis).Ok? ==>
                  TreatmentApproach(analysis).value
                  == if JoinedActions(recommendations.items) != "" then JoinedActions(recommendations.items)
                     else DefaultTreatment)
            && (!(recommendations.Undefined? || recommendations.Null? || recommendations.Arr?) ==>
                  TreatmentApproach(analysis).Err?)
  {
    var recommendations := Get(analysis, "recommendations");
    if recommendations.Arr? {
      var actions := MapAll(recommendations.items, r => Prop(r, "action"));
      if actions.Ok? {
        var values := actions.value;
        JoinTextIsJoin(Arr(values), values, ", ");
        assert seq(|values|, i requires 0 <= i < |values| => JoinPart(values[i]))
            == seq(|recommendations.items|, k requires 0 <= k < |recommendations.items| =>
                     JoinPart(Get(recommendations.items[k], "action")));
      }
    }
  }

  /** `${med.name} (${med.dosage})` of a medication that is neither `null` nor `undefined`. */
  function OtcLine(med: Value): string {
    ToText(Get(med, "name")) + " (" + ToText(Get(med, "dosage")) + ")"
  }

  /** The map callback, which throws on a `null` or `undefined` medication. */
  function OtcText(med: Value): Result<string, string> {
    if med.Undefined? || med.Null? then Err(ReadError(med, "name")) else Ok(OtcLine(med))
  }

  /** The `common_otc_classes` text of a suggestion list. */
  function OtcClasses(items: seq<Value>): string {
    Join(seq(|items|, k requires 0 <= k < |items| => OtcLine(items[k])), ", ")
  }

  /**
   * The medication summary, set only when the analysis suggests at least
   * one medication: the treatment text, the suggestions' "name (dosage)"
   * lines and the prescription note the specialist flag chooses.
   */
  function Medication(analysis: Value): (r: Result<Option<MedicationInfo>, string>)
    ensures !NonEmptyList(Get(analysis, "medicationSuggestions")) ==> r == Ok(None)
    ensures r.Ok? && r.value.Some? ==>
              && Get(analysis, "medicationSuggestions").Arr? && |Get(analysis, "medicationSuggestions").items| > 0
              && r.value.value.treatmentApproach != ""
              && (r.value.value.prescriptionInfo == SpecialistPrescription
                  <==> Truthy(Get(Get(analysis, "specialistRecommendation"), "recommended")))
              && (r.value.value.prescriptionInfo == OtcPrescription
                  <==> !Truthy(Get(Get(analysis, "specialistRecommendation"), "recommended")))
  {
    var suggestions := Get(analysis, "medicationSuggestions");
    if !NonEmptyList(suggestions) then Ok(None)
    else
      match TreatmentApproach(analysis)
      case Err(m) => Err(m)
      case Ok(treatment) =>
        if !suggestions.Arr? then Err(NotAFunction("analysis.medicationSuggestions.map"))
        else
          match MapAll(suggestions.items, OtcText)
          case Err(m) => Err(m)
          case Ok(classes) =>
            var recommended := Truthy(Get(Get(analysis, "specialistRecommendation"), "recommended"));
            Ok(Some(MedicationInfo(treatment, Join(classes, ", "),
                                   if recommended then SpecialistPrescription else OtcPrescription)))
  }

  /**
   * A non-empty suggestion list that is no array throws; an array gives a
   * summary exactly when the treatment text is set and no suggestion is
   * `null` or `undefined`, and the summary holds that treatment text and
   * the suggestions' lines joined with ", ".
   */
  lemma MedicationCases(analysis: Value)
    ensures var suggestions := Get(analysis, "medicationSuggestions");
            var r := Medication(analysis);
            NonEmptyList(suggestions) ==>
              && (!suggestions.Arr? ==> r.Err?)
              && (suggestions.Arr? ==>
                    (r.Ok? <==> TreatmentApproach(analysis).Ok?
                                && forall k :: 0 <= k < |suggestions.items| ==>
                                     !(suggestions.items[k].Undefined? || suggestions.items[k].Null?)))
              && (r.Ok? ==> && r.value.Some?
                            && r.value.value.treatmentApproach == TreatmentApproach(analysis).value
                            && r.value.value.commonOtcClasses == OtcClasses(suggestions.items))
  {
    var suggestions := Get(analysis, "medicationSuggestions");
    if NonEmptyList(suggestions) && suggestions.Arr? && TreatmentApproach(analysis).Ok? {
      var classes := MapAll(suggestions.items, OtcText);
      if classes.Ok? {
        assert classes.value
            == seq(|suggestions.items|, k requires 0 <= k < |suggestions.items| => OtcLine(suggestions.items[k]));
      }
    }
  }

  // ---------------------------------------------------------------------------
  // The page's own request

  /** What the page ends up with: the conditions, and the medication summary when one is set. */
  datatype Loaded = Loaded(conditions: Value, medicationInfo: Option<MedicationInfo>)

  function ResponseError(): Loaded {
    Loaded(Arr([ErrorCondition(ResponseErrorName, ResponseErrorDescription)]), None)
  }

  function NetworkError(message: string): Loaded {
    Loaded(Arr([ErrorCondition(NetworkErrorName, NetworkDescription(message))]), None)
  }

  /** The body of `fetch(...)`: the trimmed comma-separated pieces, blank ones included. */
  function FallbackSymptoms(text: string): seq<Value> {
    var pieces := Split(text, ',');
    seq(|pieces|, i requires 0 <= i < |pieces| => ApiService.PlainSymptom(Trim(pieces[i])))
  }

  /** The request body, or the TypeError `symptoms.split` raises when the symptoms are not text. */
  function FallbackRequest(symptoms: Value): Result<Value, string> {
    if symptoms.Str? then
      Ok(Obj(map["sessionId" := Str(SessionId), "symptoms" := Arr(FallbackSymptoms(symptoms.s)),
                 "patientInfo" := Obj(map[])]))
    else Err(NotAFunction("symptoms.split"))
  }

  /** How the fetch ends: it throws, or an answer with its status and its body as parsed JSON or the parse error. */
  datatype AnalyzeReply = NetworkFailure(message: string) | Answered(ok: bool, status: int, json: Result<Value, string>)

  /** The `if (result.status === 'success' && result.data.analysis)` block and its `else`. */
  function ProcessResult(result: Value): (r: Result<Loaded, string>)
    ensures r.Ok? ==> r.value.conditions.Arr?
    ensures !(result.Undefined? || result.Null?) && Get(result, "status") != Str("success") ==> r == Ok(ResponseError())
    ensures r.Ok? && r.value.medicationInfo.Some? ==>
              Get(result, "status") == Str("success") && Truthy(Get(Get(result, "data"), "analysis"))
    ensures Get(result, "status") == Str("success") ==>
              var data := Get(result, "data");
              && (data.Undefined? || data.Null? ==> r.Err?)
              && (!(data.Undefined? || data.Null?) && !Truthy(Get(data, "analysis")) ==> r == Ok(ResponseError()))
  {
    if result.Undefined? || result.Null? then Err(ReadError(result, "status"))
    else if Get(result, "status") != Str("success") then Ok(ResponseError())
    else
      var data := Get(result, "data");
      if data.Undefined? || data.Null? then Err(ReadError(data, "analysis"))
      else if !Truthy(Get(data, "analysis")) then Ok(ResponseError())
      else
        var analysis := Get(data, "analysis");
        match ConvertConditions(analysis)
        case Err(m) => Err(m)
        case Ok(conditions) =>
          match Medication(analysis)
          case Err(m) => Err(m)
          case Ok(info) => Ok(Loaded(conditions, info))
  }

  /**
   * When the symptoms are text: a thrown fetch, an answer that is not ok and
   * a body that is no JSON each give the one network-error condition with
   * their message; otherwise the page shows what `ProcessResult` loads, or
   * the network error with what it threw.
   */
  lemma FallbackOutcomeCases(text: string, reply: AnalyzeReply)
    ensures var r := FallbackOutcome(Str(text), reply);
            && (reply.NetworkFailure? ==> r == NetworkError(reply.message))
            && (reply.Answered? && !reply.ok ==> r == NetworkError("API error: " + IntToString(reply.status)))
            && (reply.Answered? && reply.ok && reply.json.Err? ==> r == NetworkError(reply.json.error))
            && (reply.Answered? && reply.ok && reply.json.Ok? ==>
                  && (ProcessResult(reply.json.value).Ok? ==> r == ProcessResult(reply.json.value).value)
                  && (ProcessResult(reply.json.value).Err? ==> r == NetworkError(ProcessResult(reply.json.value).error)))
  {
  }

  /**
   * A success envelope with an analysis loads that analysis's conditions and
   * medication summary, and fails exactly when one of the two throws.
   */
  lemma ProcessedAnalysis(result: Value)
    requires Get(result, "status") == Str("success") && Truthy(Get(Get(result, "data"), "analysis"))
    ensures var analysis := Get(Get(result, "data"), "analysis");
            && (ProcessResult(result).Ok? <==> ConvertConditions(analysis).Ok? && Medication(analysis).Ok?)
            && (ProcessResult(result).Ok? ==>
                  ProcessResult(result).value == Loaded(ConvertConditions(analysis).value, Medication(analysis).value))
  {
  }

  /** The `try`/`catch` of `analyzeSymptoms`: any throw becomes the single network-error condition. */
  function FallbackOutcome(symptoms: Value, reply: AnalyzeReply): (r: Loaded)
    ensures !symptoms.Str? ==> r == NetworkError(NotAFunction("symptoms.split"))
    ensures r.medicationInfo.Some? ==> symptoms.Str? && reply.Answered? && reply.ok && reply.json.Ok?
  {
    if !symptoms.Str? then NetworkError(NotAFunction("symptoms.split"))
    else
      match reply
      case NetworkFailure(m) => NetworkError(m)
      case Answered(ok, status, json) =>
        if !ok then NetworkError("API error: " + IntToString(status))
        else if json.Err? then NetworkError(json.error)
        else
          match ProcessResult(json.value)
          case Err(m) => NetworkError(m)
          case Ok(loaded) => loaded
  }

  // ---------------------------------------------------------------------------
  // Rendering helpers

  /** `getSeverityColor`. */
  function SeverityColor(severity: Value): string {
    if severity == Str("mild") then "bg-secondary/10 text-secondary border-secondary/20"
    else if severity == Str("moderate") then "bg-primary/10 text-primary border-primary/20"
    else if severity == Str("serious") then "bg-destructive/10 text-destructive border-destructive/20"
    else "bg-muted text-muted-foreground border-border"
  }

  /** `getSeverityEmoji`. */
  function SeverityEmoji(severity: Value): string {
    if severity == Str("mild") then "😌"
    else if severity == Str("moderate") then "🤔"
    else if severity == Str("serious") then "⚠️"
    else "ℹ️"
  }

  /** The text a recommendation shows: a value shown as it is, or `JSON.stringify` of one. */
  datatype Shown = Plain(v: Value) | Serialized(v: Value)

  /**
   * The recommendation text: an object's truthy action, else its truthy
   * description, a string itself, anything else serialised; `null` is an
   * object to `typeof`, so reading its action throws.
   */
  function RecommendationText(rec: Value): (r: Result<Shown, string>)
    ensures r.Err? <==> rec.Null?
    ensures rec.Str? ==> r == Ok(Plain(rec))
    ensures r.Ok? && r.value.Plain? && !rec.Str? ==>
              Truthy(r.value.v) && (r.value.v == Get(rec, "action") || r.value.v == Get(rec, "description"))
    ensures (rec.Obj? || rec.Arr?) && Truthy(Get(rec, "action")) ==> r == Ok(Plain(Get(rec, "action")))
    ensures (rec.Obj? || rec.Arr?) && !Truthy(Get(rec, "action")) && Truthy(Get(rec, "description")) ==>
              r == Ok(Plain(Get(rec, "description")))
    ensures !rec.Null? && !rec.Str? && !Truthy(Get(rec, "action")) && !Truthy(Get(rec, "description")) ==>
              r == Ok(Serialized(rec))
  {
    if rec.Null? then Err(ReadError(rec, "action"))
    else if rec.Obj? || rec.Arr? then
      if Truthy(Get(rec, "action")) then Ok(Plain(Get(rec, "action")))
      else if Truthy(Get(rec, "description")) then Ok(Plain(Get(rec, "description")))
      else Ok(Serialized(rec))
    else if rec.Str? then Ok(Plain(rec))
    else Ok(Serialized(rec))
  }

  /** At most the first three recommendations of a handed-over analysis, when it has a non-empty list. */
  function ShownRecommendations(analysisResult: Value): (r: Result<seq<Shown>, string>)
    ensures !NonEmptyList(Get(analysisResult, "recommendations")) ==> r == Ok([])
    ensures r.Ok? && r.value != [] ==> Get(analysisResult, "recommendations").Arr?
    ensures var recommendations := Get(analysisResult, "recommendations");
            recommendations.Arr? && r.Ok? ==>
              |r.value| == (if |recommendations.items| <= 3 then |recommendations.items| else 3)
    ensures var recommendations := Get(analysisResult, "recommendations");
            NonEmptyList(recommendations) && !recommendations.Arr? ==> r.Err?
    ensures var recommendations := Get(analysisResult, "recommendations");
            recommendations.Arr? ==>
              && (r.Ok? <==> forall k :: 0 <= k < |recommendations.items| && k < 3 ==> !recommendations.items[k].Null?)
              && (r.Ok? ==> forall k :: 0 <= k < |r.value| ==>
                              r.value[k] == RecommendationText(recommendations.items[k]).value)
  {
    var recommendations := Get(analysisResult, "recommendations");
    if !NonEmptyList(recommendations) then Ok([])
    else if recommendations.Arr? then
      var items := recommendations.items;
      MapAll(if |items| <= 3 then items else items[..3], RecommendationText)
    else if recommendations.Str? then Err(NotAFunction("analysisResult.recommendations.slice(...).map"))
    else Err(NotAFunction("analysisResult.recommendations.slice"))
  }

  /** The navigation state of the link to the doctor search. */
  function FindDoctorsLinkState(conditions: Value): Value {
    Obj(map["conditions" := conditions])
  }

  // ---------------------------------------------------------------------------
  // The page

  class ResultsPageState {
    var symptoms: Value
    var analysisResult: Value
    var isLoading: bool
    var conditions: Value
    var medicationInfo: Option<MedicationInfo>
    var navigations: seq<string>
    var requests: seq<Value>

    /** The page as first rendered from `location.state`: loading, no conditions, no medication summary. */
    constructor (navigationState: Value)
      ensures symptoms == Get(navigationState, "symptoms")
      ensures analysisResult == Or(Get(navigationState, "analysisResult"), Null)
      ensures isLoading && conditions == Arr([]) && medicationInfo.None?
      ensures navigations == [] && requests == []
    {
      symptoms := Get(navigationState, "symptoms");
      analysisResult := Or(Get(navigationState, "analysisResult"), Null);
      isLoading := true;
      conditions := Arr([]);
      medicationInfo := None;
      navigations := [];
      requests := [];
    }

    /**
     * The mount effect, with `reply` how the page's own request ends.
     * Without symptom text it only navigates back to the symptom checker.
     * A handed-over analysis gives its "conditions" entry, or an empty
     * list, without a request.  Otherwise the request is made and its
     * outcome, or the error condition, is shown as a list.  Loading always
     * ends cleared, and the conditions are never falsy.
     */
    method Load(reply: AnalyzeReply)
      modifies this
      ensures symptoms == old(symptoms) && analysisResult == old(analysisResult)
      ensures !Truthy(symptoms) ==>
                && navigations == old(navigations) + [SymptomCheckerPath]
                && isLoading == old(isLoading) && conditions == old(conditions)
                && medicationInfo == old(medicationInfo) && requests == old(requests)
      ensures Truthy(symptoms) && Truthy(analysisResult) ==>
                && conditions == HandedOverConditionsAsWritten(analysisResult) && !isLoading
                && navigations == old(navigations) && medicationInfo == old(medicationInfo) && requests == old(requests)
      ensures Truthy(symptoms) && !Truthy(analysisResult) ==>
                && conditions == FallbackOutcome(symptoms, reply).conditions && conditions.Arr? && !isLoading
                && medicationInfo == (if FallbackOutcome(symptoms, reply).medicationInfo.Some?
                                      then FallbackOutcome(symptoms, reply).medicationInfo else old(medicationInfo))
                && navigations == old(navigations)
                && requests == old(requests) + (if FallbackRequest(symptoms).Ok? then [FallbackRequest(symptoms).value] else [])
      ensures Truthy(old(symptoms)) ==> Truthy(conditions)
    {
      var text, handedOver := symptoms, analysisResult;
      if !Truthy(text) {
        navigations := navigations + [SymptomCheckerPath];
        return;
      }
      if Truthy(handedOver) {
        conditions := HandedOverConditionsAsWritten(handedOver);
        isLoading := false;
        return;
      }
      AnalyzeSymptoms(text, reply);
    }

    /**
     * `analyzeSymptoms`: the request is sent when the symptoms can be split,
     * the outcome's conditions are shown, its medication summary replaces
     * the old one only when it is set, and loading ends cleared.
     */
    method AnalyzeSymptoms(text: Value, reply: AnalyzeReply)
      modifies this
      ensures symptoms == old(symptoms) && analysisResult == old(analysisResult) && navigations == old(navigations)
      ensures conditions == FallbackOutcome(text, reply).conditions && conditions.Arr? && !isLoading
      ensures medicationInfo == (if FallbackOutcome(text, reply).medicationInfo.Some?
                                 then FallbackOutcome(text, reply).medicationInfo else old(medicationInfo))
      ensures requests == old(requests) + (if FallbackRequest(text).Ok? then [FallbackRequest(text).value] else [])
    {
      isLoading := true;
      var request := FallbackRequest(text);
      if request.Ok? {
        requests := requests + [request.value];
      }
      var loaded := FallbackOutcome(text, reply);
      FallbackConditionsAreList(text, reply);
      conditions := loaded.conditions;
      if loaded.medicationInfo.Some? {
        medicationInfo := loaded.medicationInfo;
      }
      isLoading := false;
    }
  }

  // ---------------------------------------------------------------------------
  // Properties

  /** Every outcome of the page's own request is a list of conditions. */
  lemma FallbackConditionsAreList(symptoms: Value, reply: AnalyzeReply)
    ensures FallbackOutcome(symptoms, reply).conditions.Arr?
  {
    if FallbackRequest(symptoms).Ok? && reply.Answered? && reply.ok && reply.json.Ok? {
      var result := reply.json.value;
      if ProcessResult(result).Ok? && Get(result, "status") == Str("success") {
        var analysis := Get(Get(result, "data"), "analysis");
        if Truthy(analysis) {
          var conditions := Get(analysis, "possibleConditions");
          if conditions.Arr? {
            var shown := MapAll(conditions.items, c => ConvertCondition(c, RiskSeverity(Get(analysis, "riskLevel"))));
            assert shown.Ok?;
          }
        }
      }
    }
  }

  /** High risk is a serious badge, medium a moderate one, and everything else mild. */
  lemma RiskSeverityMap(riskLevel: Value)
    ensures RiskSeverity(riskLevel) == "serious" <==> riskLevel == Str("high")
    ensures RiskSeverity(riskLevel) == "moderate" <==> riskLevel == Str("medium")
    ensures RiskSeverity(riskLevel) == "mild" <==> riskLevel != Str("high") && riskLevel != Str("medium")
  {
  }

  /**
   * The three risk levels of the rule-based analysis give the three badges,
   * and the last-resort answer's "unknown" risk gives the mild one.
   */
  lemma BackendRiskBadges(risk: GeminiAI.Risk, message: string)
    ensures RiskSeverity(Str(risk.Name())) == (match risk case High => "serious" case Medium => "moderate" case Low => "mild")
    ensures RiskSeverity(Str(GeminiAI.ErrorAnalysis(message).riskLevel)) == "mild"
  {
  }

  /** Each badge severity has its own colour, none of them the fallback one. */
  lemma SeverityColorsDistinct(a: string, b: string)
    requires a in {"mild", "moderate", "serious"} && b in {"mild", "moderate", "serious"} && a != b
    ensures SeverityColor(Str(a)) != SeverityColor(Str(b)) && SeverityColor(Str(a)) != SeverityColor(Undefined)
  {
  }

  /** Each badge severity has its own emoji, none of them the fallback one. */
  lemma SeverityEmojisDistinct(a: string, b: string)
    requires a in {"mild", "moderate", "serious"} && b in {"mild", "moderate", "serious"} && a != b
    ensures SeverityEmoji(Str(a)) != SeverityEmoji(Str(b)) && SeverityEmoji(Str(a)) != SeverityEmoji(Undefined)
  {
  }

  /** Every converted condition of a list carries the list's single risk badge and its own name. */
  lemma ConvertedConditions(analysis: Value, k: nat)
    requires ConvertConditions(analysis).Ok? && Get(analysis, "possibleConditions").Arr?
    requires k < |Get(analysis, "possibleConditions").items|
    ensures var shown := ConvertConditions(analysis).value;
            && shown.Arr? && |shown.items| == |Get(analysis, "possibleConditions").items|
            && var c := Get(analysis, "possibleConditions").items[k];
               shown.items[k] == ShownCondition(Get(c, "name"), Or(Get(c, "description"), Str(NoDescription)),
                                                RiskSeverity(Get(analysis, "riskLevel")))
  {
  }

  /** The page's request has one symptom per comma-separated part, in order, trimmed, blank parts included. */
  lemma FallbackOnePerPart(parts: seq<string>)
    requires |parts| >= 1
    requires forall k :: 0 <= k < |parts| ==> NoneOf(parts[k], {','})
    ensures |FallbackSymptoms(Join(parts, ","))| == |parts|
    ensures forall k :: 0 <= k < |parts| ==>
              FallbackSymptoms(Join(parts, ","))[k] == ApiService.PlainSymptom(Trim(parts[k]))
  {
    SplitJoin(parts, ',');
  }

  /** A failed request, a non-ok status and an unreadable body each end in the one network-error condition. */
  lemma FailuresShowOneError(text: string, reply: AnalyzeReply)
    requires reply.NetworkFailure? || (reply.Answered? && (!reply.ok || reply.json.Err?))
    ensures var loaded := FallbackOutcome(Str(text), reply);
            && loaded.medicationInfo.None? && loaded.conditions.Arr? && |loaded.conditions.items| == 1
            && Get(loaded.conditions.items[0], "name") == Str(NetworkErrorName)
            && Get(loaded.conditions.items[0], "severity") == Str("moderate")
    ensures reply.Answered? && !reply.ok ==>
              FallbackOutcome(Str(text), reply)
              == NetworkError("API error: " + IntToString(reply.status))
  {
  }

  /** An answer that is not a success envelope with a truthy analysis shows the one response-error condition. */
  lemma UnexpectedAnswerShowsResponseError(text: string, status: int, result: Value)
    requires result.Obj?
    requires Get(result, "status") != Str("success") || (Get(result, "data").Obj? && !Truthy(Get(Get(result, "data"), "analysis")))
    ensures FallbackOutcome(Str(text), Answered(true, status, Ok(result))) == ResponseError()
    ensures SeverityColor(Get(ResponseError().conditions.items[0], "severity")) == SeverityColor(Str("moderate"))
  {
  }

  /** The fallback request is sent exactly when the handed-over symptoms are text. */
  lemma FallbackRequestShape(symptoms: Value)
    ensures FallbackRequest(symptoms).Ok? <==> symptoms.Str?
    ensures symptoms.Str? ==>
              && Get(FallbackRequest(symptoms).value, "sessionId") == Str(SessionId)
              && Get(FallbackRequest(symptoms).value, "patientInfo") == Obj(map[])
              && Get(FallbackRequest(symptoms).value, "symptoms") == Arr(FallbackSymptoms(symptoms.s))
  {
  }

  /** At most three recommendations are shown, each one's action when it has a non-empty one. */
  lemma RecommendationsShown(analysisResult: Value, k: nat)
    requires ShownRecommendations(analysisResult).Ok?
    ensures |ShownRecommendations(analysisResult).value| <= 3
    ensures var recommendations := Get(analysisResult, "recommendations");
            k < |ShownRecommendations(analysisResult).value| ==>
              && recommendations.Arr? && k < |recommendations.items|
              && var rec := recommendations.items[k];
                 (rec.Obj? && Get(rec, "action").Str? && Get(rec, "action") != Str("") ==>
                    ShownRecommendations(analysisResult).value[k] == Plain(Get(rec, "action")))
  {
  }

  /** A `null` among the first three recommendations makes the list fail to render. */
  lemma NullRecommendationThrows(items: seq<Value>, k: nat)
    requires k < |items| && k < 3 && items[k] == Null
    ensures ShownRecommendations(Obj(map["recommendations" := Arr(items)])).Err?
  {
    var first := if |items| <= 3 then items else items[..3];
    assert first[k] == Null;
    assert RecommendationText(first[k]).Err?;
  }

  /** The medication summary is set exactly for a non-empty suggestion list of objects. */
  lemma MedicationSetForSuggestions(analysis: Value)
    requires Get(analysis, "medicationSuggestions").Arr?
    requires forall k :: 0 <= k < |Get(analysis, "medicationSuggestions").items| ==>
               Get(analysis, "medicationSuggestions").items[k].Obj?
    requires Get(analysis, "recommendations").Undefined?
    ensures Medication(analysis).Ok?
    ensures Medication(analysis).value.Some? <==> |Get(analysis, "medicationSuggestions").items| > 0
    ensures Medication(analysis).value.Some? ==>
              && Medication(analysis).value.value.treatmentApproach == DefaultTreatment
              && Medication(analysis).value.value.prescriptionInfo
                 == (if Truthy(Get(Get(analysis, "specialistRecommendation"), "recommended"))
                     then SpecialistPrescription else OtcPrescription)
  {
    var items := Get(analysis, "medicationSuggestions").items;
    assert MapAll(items, OtcText).Ok?;
  }

  // ---------------------------------------------------------------------------
  // The hand-over from the symptom checker

  /** The backend's analysis has its conditions under "possibleConditions" and no "conditions" key. */
  lemma AnalysisKeys(a: GeminiAI.Analysis)
    ensures AnalysisJson(a).Obj?
    ensures "conditions" !in AnalysisJson(a).fields
    ensures Get(AnalysisJson(a), "possibleConditions")
            == Arr(seq(|a.possibleConditions|, i requires 0 <= i < |a.possibleConditions| =>
                         ConditionJson(a.possibleConditions[i])))
    ensures Get(AnalysisJson(a), "riskLevel") == Str(a.riskLevel)
  {
  }

  /** The symptom checker hands the page exactly the analysis of the backend's success envelope. */
  lemma HandOver(text: string, e: SymptomsRouter.AnalyzeEnvelope)
    ensures var state := SymptomCheckerPage.ResultsState(text, ApiService.UnwrapAnalysis(EnvelopeJson(e)));
            Or(Get(state, "analysisResult"), Null) == AnalysisJson(e.analysis)
  {
    AnalysisKeys(e.analysis);
  }

  /**
   * As written, the page reads "conditions" from the handed-over analysis,
   * a key the backend never writes: every analysis the symptom checker
   * hands over, however many conditions it holds, lists none.
   */
  lemma HandedOverConditionsLost(text: string, e: SymptomsRouter.AnalyzeEnvelope)
    ensures var state := SymptomCheckerPage.ResultsState(text, ApiService.UnwrapAnalysis(EnvelopeJson(e)));
            HandedOverConditionsAsWritten(Or(Get(state, "analysisResult"), Null)) == Arr([])
  {
    HandOver(text, e);
    AnalysisKeys(e.analysis);
  }

  /** A backend condition is shown with its name, its description or the default, and the analysis' risk badge. */
  lemma ConditionJsonShown(c: GeminiAI.Condition, severity: string)
    ensures ConvertCondition(ConditionJson(c), severity)
            == Ok(ShownCondition(Str(c.name), Str(if c.description != "" then c.description else NoDescription), severity))
  {
  }

  /**
   * Read from "possibleConditions", every condition of every analysis the
   * backend sends is listed, in order, with its name and the badge of the
   * analysis' risk level.
   */
  lemma HandedOverConditionsShown(a: GeminiAI.Analysis)
    ensures var shown := HandedOverConditions(AnalysisJson(a));
            && |shown.items| == |a.possibleConditions|
            && forall k :: 0 <= k < |a.possibleConditions| ==>
                 shown.items[k] == ShownCondition(Str(a.possibleConditions[k].name),
                                                  Str(if a.possibleConditions[k].description != ""
                                                      then a.possibleConditions[k].description else NoDescription),
                                                  RiskSeverity(Str(a.riskLevel)))
  {
    AnalysisKeys(a);
    var items := Get(AnalysisJson(a), "possibleConditions").items;
    var severity := RiskSeverity(Str(a.riskLevel));
    forall k | 0 <= k < |items|
      ensures ConvertCondition(items[k], severity).Ok?
    {
      ConditionJsonShown(a.possibleConditions[k], severity);
    }
    var shown := MapAll(items, c => ConvertCondition(c, severity));
    assert shown.Ok?;
    forall k | 0 <= k < |a.possibleConditions|
      ensures shown.value[k] == ShownCondition(Str(a.possibleConditions[k].name),
                                               Str(if a.possibleConditions[k].description != ""
                                                   then a.possibleConditions[k].description else NoDescription),
                                               severity)
    {
      ConditionJsonShown(a.possibleConditions[k], severity);
    }
  }

  /** The actions of the backend's recommendations, in order. */
  function BackendActions(a: GeminiAI.Analysis): seq<string> {
    seq(|a.recommendations|, k requires 0 <= k < |a.recommendations| => a.recommendations[k].action)
  }

  /** The "name (dosage)" line of each medication the backend suggests, in order. */
  function BackendOtcLines(a: GeminiAI.Analysis): seq<string> {
    seq(|a.medicationSuggestions|, k requires 0 <= k < |a.medicationSuggestions| =>
          a.medicationSuggestions[k].name + " (" + a.medicationSuggestions[k].dosage + ")")
  }

  /** The backend's actions joined with ", ", or the default text when that is empty. */
  function BackendTreatmentText(a: GeminiAI.Analysis): string {
    if Join(BackendActions(a), ", ") != "" then Join(BackendActions(a), ", ") else DefaultTreatment
  }

  /** The summary a backend analysis should give: none without suggestions, else its three texts. */
  function BackendMedicationInfo(a: GeminiAI.Analysis): Option<MedicationInfo> {
    if a.medicationSuggestions == [] then None
    else Some(MedicationInfo(BackendTreatmentText(a), Join(BackendOtcLines(a), ", "),
                             if a.specialist.recommended then SpecialistPrescription else OtcPrescription))
  }

  /** The entries of the backend's analysis the medication summary reads. */
  lemma AnalysisFields(a: GeminiAI.Analysis)
    ensures var recs := Get(AnalysisJson(a), "recommendations");
            && recs.Arr? && |recs.items| == |a.recommendations|
            && forall k :: 0 <= k < |a.recommendations| ==> recs.items[k] == RecommendationJson(a.recommendations[k])
    ensures var meds := Get(AnalysisJson(a), "medicationSuggestions");
            && meds.Arr? && |meds.items| == |a.medicationSuggestions|
            && forall k :: 0 <= k < |a.medicationSuggestions| ==> meds.items[k] == MedicationJson(a.medicationSuggestions[k])
    ensures Get(Get(AnalysisJson(a), "specialistRecommendation"), "recommended") == Bool(a.specialist.recommended)
  {
  }

  /** A list of objects gives their actions joined with ", ", or the default when that is empty. */
  lemma TreatmentOfItems(analysis: Value, items: seq<Value>)
    requires Get(analysis, "recommendations") == Arr(items)
    requires forall k :: 0 <= k < |items| ==> items[k].Obj?
    ensures TreatmentApproach(analysis)
            == Ok(if JoinedActions(items) != "" then JoinedActions(items) else DefaultTreatment)
  {
    TreatmentApproachCases(analysis);
  }

  lemma ActionsJoined(items: seq<Value>, actions: seq<string>)
    requires |items| == |actions| && forall k :: 0 <= k < |actions| ==> Get(items[k], "action") == Str(actions[k])
    ensures JoinedActions(items) == Join(actions, ", ")
  {
    var parts := seq(|items|, k requires 0 <= k < |items| => JoinPart(Get(items[k], "action")));
    assert parts == actions;
  }

  lemma NonEmptyArray(items: seq<Value>)
    requires items != []
    ensures NonEmptyList(Arr(items))
  {
  }

  lemma OtcLinesMapped(items: seq<Value>, lines: seq<string>)
    requires |items| == |lines|
    requires forall k :: 0 <= k < |lines| ==> items[k].Obj? && OtcLine(items[k]) == lines[k]
    ensures MapAll(items, OtcText) == Ok(lines)
  {
    assert forall k :: 0 <= k < |items| ==> OtcText(items[k]) == Ok(lines[k]);
    assert MapAll(items, OtcText).value == lines;
  }

  /** A non-empty list of medication objects gives their lines joined with ", ", under the treatment text. */
  lemma MedicationOfLines(analysis: Value, items: seq<Value>, lines: seq<string>)
    requires lines != [] && Get(analysis, "medicationSuggestions") == Arr(items)
    requires MapAll(items, OtcText) == Ok(lines)
    requires TreatmentApproach(analysis).Ok?
    ensures Medication(analysis).Ok? && Medication(analysis).value.Some?
    ensures Medication(analysis).value.value.treatmentApproach == TreatmentApproach(analysis).value
    ensures Medication(analysis).value.value.commonOtcClasses == Join(lines, ", ")
  {
    NonEmptyArray(items);
    MedicationCases(analysis);
  }

  /** The backend writes each recommendation as an object holding its action. */
  lemma RecommendationJsonAction(r: GeminiAI.Recommendation)
    ensures RecommendationJson(r).Obj? && Get(RecommendationJson(r), "action") == Str(r.action)
  {
  }

  /** The backend writes each medication as an object whose line is its name and dosage. */
  lemma MedicationJsonLine(m: GeminiAI.Medication)
    ensures MedicationJson(m).Obj? && OtcLine(MedicationJson(m)) == m.name + " (" + m.dosage + ")"
  {
  }

  /** For a backend analysis the treatment text is its actions joined with ", ", or the default when that is empty. */
  lemma BackendTreatment(a: GeminiAI.Analysis)
    ensures TreatmentApproach(AnalysisJson(a)) == Ok(BackendTreatmentText(a))
  {
    AnalysisFields(a);
    var items := Get(AnalysisJson(a), "recommendations").items;
    forall k | 0 <= k < |items|
      ensures items[k].Obj? && Get(items[k], "action") == Str(BackendActions(a)[k])
    {
      RecommendationJsonAction(a.recommendations[k]);
    }
    ActionsJoined(items, BackendActions(a));
    TreatmentOfItems(AnalysisJson(a), items);
  }

  /**
   * For a backend analysis the medication summary is set exactly when it
   * suggests a medication, with the treatment text, each suggestion's
   * "name (dosage)" joined with ", ", and the note its specialist flag picks.
   */
  lemma BackendMedication(a: GeminiAI.Analysis)
    ensures Medication(AnalysisJson(a)) == Ok(BackendMedicationInfo(a))
  {
    AnalysisFields(a);
    BackendTreatment(a);
    forall k | 0 <= k < |a.medicationSuggestions|
      ensures MedicationJson(a.medicationSuggestions[k]).Obj?
      ensures OtcLine(MedicationJson(a.medicationSuggestions[k])) == BackendOtcLines(a)[k]
    {
      MedicationJsonLine(a.medicationSuggestions[k]);
    }
    if a.medicationSuggestions != [] {
      var items := Get(AnalysisJson(a), "medicationSuggestions").items;
      OtcLinesMapped(items, BackendOtcLines(a));
      MedicationOfLines(AnalysisJson(a), items, BackendOtcLines(a));
    }
  }

  /**
   * The page's own request, answered with the backend's success envelope,
   * shows exactly the conditions `HandedOverConditionsShown` describes and
   * the medication summary `BackendMedication` describes.
   */
  lemma OwnRequestShowsAnalysis(text: string, status: int, e: SymptomsRouter.AnalyzeEnvelope)
    requires e.status == "success"
    ensures var loaded := FallbackOutcome(Str(text), Answered(true, status, Ok(EnvelopeJson(e))));
            && loaded.conditions == HandedOverConditions(AnalysisJson(e.analysis))
            && loaded.medicationInfo == BackendMedicationInfo(e.analysis)
  {
    var analysis := AnalysisJson(e.analysis);
    var envelope := EnvelopeJson(e);
    AnalysisKeys(e.analysis);
    BackendConditionsConvert(e.analysis);
    BackendMedication(e.analysis);
    assert Get(envelope, "status") == Str("success");
    assert Get(Get(envelope, "data"), "analysis") == analysis;
    SuccessProcessed(envelope, analysis, BackendMedicationInfo(e.analysis));
  }

  /** A success envelope whose analysis converts is loaded with its conditions and medication summary. */
  lemma SuccessProcessed(envelope: Value, analysis: Value, info: Option<MedicationInfo>)
    requires Get(envelope, "status") == Str("success") && Get(Get(envelope, "data"), "analysis") == analysis
    requires analysis.Obj? && ConvertConditions(analysis).Ok? && Medication(analysis) == Ok(info)
    ensures ProcessResult(envelope) == Ok(Loaded(ConvertConditions(analysis).value, info))
  {
  }

  /** Every condition list the backend sends converts without a throw. */
  lemma BackendConditionsConvert(a: GeminiAI.Analysis)
    ensures ConvertConditions(AnalysisJson(a)).Ok?
  {
    AnalysisKeys(a);
    var items := Get(AnalysisJson(a), "possibleConditions").items;
    forall k | 0 <= k < |items| ensures !(items[k].Undefined? || items[k].Null?) {
      assert items[k] == ConditionJson(a.possibleConditions[k]);
    }
  }

  // ---------------------------------------------------------------------------
  // Links between the pages

  /** Whatever the page shows, its link to the doctor search passes that page's guard. */
  lemma FindDoctorsLinkAccepted(symptoms: Value, reply: AnalyzeReply)
    ensures Truthy(Get(FindDoctorsLinkState(FallbackOutcome(symptoms, reply).conditions), "conditions"))
  {
    FallbackConditionsAreList(symptoms, reply);
    ListLinkAccepted(FallbackOutcome(symptoms, reply).conditions);
  }

  lemma ListLinkAccepted(conditions: Value)
    requires conditions.Arr?
    ensures Truthy(Get(FindDoctorsLinkState(conditions), "conditions"))
  {
    assert Get(FindDoctorsLinkState(conditions), "conditions") == conditions;
  }

  /** The same holds for the conditions of a handed-over analysis, read as written or from "possibleConditions". */
  lemma HandedOverLinkAccepted(analysisResult: Value)
    ensures Truthy(Get(FindDoctorsLinkState(HandedOverConditionsAsWritten(analysisResult)), "conditions"))
    ensures Truthy(Get(FindDoctorsLinkState(HandedOverConditions(analysisResult)), "conditions"))
  {
    assert Get(FindDoctorsLinkState(HandedOverConditionsAsWritten(analysisResult)), "conditions")
        == HandedOverConditionsAsWritten(analysisResult);
    assert Get(FindDoctorsLinkState(HandedOverConditions(analysisResult)), "conditions")
        == HandedOverConditions(analysisResult);
  }

  /**
   * The hand-over as written, end to end: opened with the state the
   * symptom checker sends after an analysis succeeded (only ever with text
   * that passed its checks), the page stops loading, makes no request of
   * its own, and lists no conditions, whatever the analysis held.
   */
  method HandedOverPageListsNothing(text: string, e: SymptomsRouter.AnalyzeEnvelope, reply: AnalyzeReply)
    returns (shown: Value, requests: seq<Value>, loading: bool)
    requires text != ""
    ensures shown == Arr([]) && requests == [] && !loading
  {
    var page := new ResultsPageState(SymptomCheckerPage.ResultsState(text, ApiService.UnwrapAnalysis(EnvelopeJson(e))));
    HandOver(text, e);
    HandedOverConditionsLost(text, e);
    page.Load(reply);
    shown, requests, loading := page.conditions, page.requests, page.isLoading;
  }

  /** The doctor search's Back link carries empty symptom text, so this page sends the user on to the symptom checker. */
  method BackFromFindDoctors(reply: AnalyzeReply) returns (navigations: seq<string>, requests: seq<Value>, loading: bool)
    ensures navigations == [SymptomCheckerPath] && requests == [] && loading
  {
    var page := new ResultsPageState(Obj(map["symptoms" := Str("")]));
    page.Load(reply);
    navigations, requests, loading := page.navigations, page.requests, page.isLoading;
  }
}
