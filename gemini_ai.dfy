/**
 * The rule-based symptom analysis of backend-fastapi/app/services/gemini_ai.py:
 * the keyword tables, the risk rule, the recommendations, the warning flags,
 * the specialist routing and the result of `analyze_symptoms` when Gemini is
 * not used, plus the pure parts of `get_medications`.  What UMLS, MeSH and
 * OpenFDA return is a parameter.
 */
module GeminiAI {
  import opened Outcomes
  import opened Text

  // ---------------------------------------------------------------------------
  // Records

  /** A possible condition; UMLS and MeSH entries also carry a concept id. */
  datatype Condition = Condition(name: string, probability: int, description: string, source: string,
                                 conceptId: Option<string>)

  /** A medication suggestion; OpenFDA entries also carry the symptom they were found for. */
  datatype Medication = Medication(name: string, kind: string, dosage: string, frequency: string,
                                   source: string, indication: Option<string>)

  const BasicSource := "Basic Analysis"
  const BasicMedicationSource := "Basic recommendation"

  function BasicCondition(name: string, probability: int, description: string): Condition {
    Condition(name, probability, description, BasicSource, None)
  }

  function BasicMedication(name: string, kind: string, dosage: string, frequency: string): Medication {
    Medication(name, kind, dosage, frequency, BasicMedicationSource, None)
  }

  /** `symptom_mapping` of `analyze_symptoms_basic`, in its declaration order. */
  const ConditionTable: seq<(string, Condition)> := [
    ("fever", BasicCondition("Viral Infection", 70, "Common viral illness")),
    ("headache", BasicCondition("Tension Headache", 60, "Most common type of headache")),
    ("cough", BasicCondition("Upper Respiratory Infection", 65, "Infection of respiratory tract")),
    ("fatigue", BasicCondition("General Fatigue Syndrome", 50, "General tiredness")),
    ("nausea", BasicCondition("Gastric Upset", 55, "Stomach irritation")),
    ("dizziness", BasicCondition("Vertigo", 45, "Balance disorder")),
    ("chest pain", BasicCondition("Musculoskeletal Pain", 40, "Muscle or joint pain")),
    ("shortness of breath", BasicCondition("Respiratory Condition", 60, "Breathing difficulty"))
  ]

  /** `basic_meds` of `get_basic_medications`, in its declaration order. */
  const MedicationTable: seq<(string, Medication)> := [
    ("headache", BasicMedication("Acetaminophen", "over-the-counter", "500-1000mg every 4-6 hours", "As needed")),
    ("fever", BasicMedication("Ibuprofen", "over-the-counter", "200-400mg every 6-8 hours", "As needed")),
    ("cough", BasicMedication("Dextromethorphan", "over-the-counter", "15-30mg every 4 hours", "As needed")),
    ("nausea", BasicMedication("Ginger supplements", "natural", "250mg 4 times daily", "With meals"))
  ]

  // ---------------------------------------------------------------------------
  // First matching key of a table

  /** The index of the first key, from `from` on, that occurs in `text`. */
  function FirstMatchFrom<T>(table: seq<(string, T)>, text: string, from: nat): (r: Option<nat>)
    requires from <= |table|
    ensures r.Some? ==> from <= r.value < |table| && Contains(text, table[r.value].0)
    ensures r.Some? ==> forall k :: from <= k < r.value ==> !Contains(text, table[k].0)
    ensures r.None? ==> forall k :: from <= k < |table| ==> !Contains(text, table[k].0)
    decreases |table| - from
  {
    if from == |table| then None
    else if Contains(text, table[from].0) then Some(from)
    else FirstMatchFrom(table, text, from + 1)
  }

  /** The index of the first key, in table order, that occurs in `text`. */
  function FirstMatch<T>(table: seq<(string, T)>, text: string): (r: Option<nat>)
    ensures r.Some? ==> r.value < |table| && Contains(text, table[r.value].0)
    ensures r.Some? ==> forall k :: 0 <= k < r.value ==> !Contains(text, table[k].0)
    ensures r.None? ==> forall k :: 0 <= k < |table| ==> !Contains(text, table[k].0)
  {
    FirstMatchFrom(table, text, 0)
  }

  /** What one symptom contributes: the value of the first key found in the lower-cased symptom. */
  function MatchOne<T>(table: seq<(string, T)>, text: string): seq<T> {
    match FirstMatch(table, Lower(text))
    case Some(j) => [table[j].1]
    case None => []
  }

  /** What a list of symptoms contributes, in order. */
  function MatchAll<T>(table: seq<(string, T)>, texts: seq<string>): seq<T> {
    if texts == [] then []
    else MatchAll(table, texts[..|texts| - 1]) + MatchOne(table, texts[|texts| - 1])
  }

  /**
   * The loop shared by `analyze_symptoms_basic` and `get_basic_medications`:
   * for each symptom, scan the table in order and append the value of the
   * first key found in the lower-cased symptom, then stop scanning.
   */
  method CollectFirstMatches<T>(table: seq<(string, T)>, texts: seq<string>) returns (out: seq<T>)
    ensures out == MatchAll(table, texts)
  {
    out := [];
    var i := 0;
    while i < |texts|
      invariant 0 <= i <= |texts|
      invariant out == MatchAll(table, texts[..i])
    {
      var lowered := Lower(texts[i]);
      ghost var before := out;
      var j := 0;
      while j < |table|
        invariant 0 <= j <= |table|
        invariant out == before
        invariant forall k :: 0 <= k < j ==> !Contains(lowered, table[k].0)
      {
        if Contains(lowered, table[j].0) {
          out := out + [table[j].1];
          assert FirstMatch(table, lowered) == Some(j);
          break;
        }
        j := j + 1;
      }
      assert out == before + MatchOne(table, texts[i]);
      assert texts[..i + 1][..i] == texts[..i];
      i := i + 1;
    }
    assert texts[..i] == texts;
  }

  /** Each symptom contributes at most one entry. */
  lemma {:induction false} MatchAllAtMostOnePerSymptom<T>(table: seq<(string, T)>, texts: seq<string>)
    ensures |MatchAll(table, texts)| <= |texts|
    decreases |texts|
  {
    if texts != [] {
      MatchAllAtMostOnePerSymptom(table, texts[..|texts| - 1]);
    }
  }

  /** Every entry is the value of some table row. */
  lemma {:induction false} MatchAllFromTable<T>(table: seq<(string, T)>, texts: seq<string>)
    ensures forall x :: x in MatchAll(table, texts) ==> exists j :: 0 <= j < |table| && table[j].1 == x
    decreases |texts|
  {
    if texts != [] {
      MatchAllFromTable(table, texts[..|texts| - 1]);
    }
  }

  /** A symptom that mentions no key of the table contributes nothing. */
  lemma NoKeyNoEntry<T>(table: seq<(string, T)>, text: string)
    requires forall k :: 0 <= k < |table| ==> !Contains(Lower(text), table[k].0)
    ensures MatchOne(table, text) == []
  {
  }

  /** A symptom whose first key in table order is row `j` contributes exactly that row's value. */
  lemma FirstKeyWins<T>(table: seq<(string, T)>, text: string, j: nat)
    requires j < |table| && Contains(Lower(text), table[j].0)
    requires forall k :: 0 <= k < j ==> !Contains(Lower(text), table[k].0)
    ensures MatchOne(table, text) == [table[j].1]
  {
    var r := FirstMatch(table, Lower(text));
    assert r.Some? && r.value == j;
  }

  // ---------------------------------------------------------------------------
  // analyze_symptoms_basic and get_basic_medications

  method AnalyzeSymptomsBasic(symptoms: seq<string>) returns (conditions: seq<Condition>)
    ensures conditions == MatchAll(ConditionTable, symptoms)
    ensures |conditions| <= |symptoms|
    ensures forall c :: c in conditions ==> c.source == BasicSource
  {
    conditions := CollectFirstMatches(ConditionTable, symptoms);
    MatchAllAtMostOnePerSymptom(ConditionTable, symptoms);
    MatchAllFromTable(ConditionTable, symptoms);
    BasicTableSources();
  }

  method GetBasicMedications(symptomNames: seq<string>) returns (medications: seq<Medication>)
    ensures medications == MatchAll(MedicationTable, symptomNames)
    ensures |medications| <= |symptomNames|
    ensures forall m :: m in medications ==> m.source == BasicMedicationSource
  {
    medications := CollectFirstMatches(MedicationTable, symptomNames);
    MatchAllAtMostOnePerSymptom(MedicationTable, symptomNames);
    MatchAllFromTable(MedicationTable, symptomNames);
    BasicTableSources();
  }

  /** Every row of both tables is marked as a basic entry. */
  lemma BasicTableSources()
    ensures forall j :: 0 <= j < |ConditionTable| ==> ConditionTable[j].1.source == BasicSource
    ensures forall j :: 0 <= j < |MedicationTable| ==> MedicationTable[j].1.source == BasicMedicationSource
  {
  }

  /** The two tables are scanned in different orders: "fever" comes first for conditions, "headache" for medications. */
  lemma FeverAndHeadache()
    ensures MatchOne(ConditionTable, "fever and headache") == [ConditionTable[0].1]
    ensures MatchOne(MedicationTable, "fever and headache") == [MedicationTable[0].1]
  {
    var t := "fever and headache";
    assert Lower(t) == t;
    ContainsAt(t, "fever", 0);
    FirstKeyWins(ConditionTable, t, 0);
    assert t[10..18] == "headache";
    ContainsAt(t, "headache", 10);
    FirstKeyWins(MedicationTable, t, 0);
  }

  // ---------------------------------------------------------------------------
  // Symptoms as `analyze_symptoms` receives them

  /** The `severity` entry of a symptom dict: missing, `None`, or a string. */
  datatype SeverityEntry = Missing | NoneValue | Given(s: string)

  /** A symptom dict; `name` is `None` when the key is missing. */
  datatype SymptomDict = SymptomDict(name: Option<string>, severity: SeverityEntry)

  /** `[s.get("name", "").lower() for s in symptoms]`. */
  function SymptomNames(symptoms: seq<SymptomDict>): (r: seq<string>)
    ensures |r| == |symptoms|
    ensures forall i :: 0 <= i < |symptoms| ==> r[i] == Lower(symptoms[i].name.GetOr(""))
  {
    seq(|symptoms|, i requires 0 <= i < |symptoms| => Lower(symptoms[i].name.GetOr("")))
  }

  /** `s.get("severity", "moderate")`: the default applies only when the key is missing. */
  function SeverityOf(s: SymptomDict): Option<string> {
    match s.severity
    case Missing => Some("moderate")
    case NoneValue => None
    case Given(v) => Some(v)
  }

  function Severities(symptoms: seq<SymptomDict>): (r: seq<Option<string>>)
    ensures |r| == |symptoms|
    ensures forall i :: 0 <= i < |symptoms| ==> r[i] == SeverityOf(symptoms[i])
  {
    seq(|symptoms|, i requires 0 <= i < |symptoms| => SeverityOf(symptoms[i]))
  }

  // ---------------------------------------------------------------------------
  // Risk level

  datatype Risk = Low | Medium | High {
    function Name(): string {
      match this
      case Low => "low"
      case Medium => "medium"
      case High => "high"
    }
  }

  /** `sum(1 for s in severities if s == x)`. */
  function CountOf(xs: seq<Option<string>>, x: Option<string>): (n: nat)
    ensures n <= |xs|
    ensures n > 0 <==> x in xs
  {
    if xs == [] then 0
    else (if xs[0] == x then 1 else 0) + CountOf(xs[1..], x)
  }

  /**
   * "high" when some severity is "severe" or there are more than 4 symptoms;
   * otherwise "medium" when more than one severity is "moderate" or there are
   * more than 2 symptoms; otherwise "low".
   */
  function RiskLevel(severities: seq<Option<string>>, symptomCount: nat): (r: Risk)
    ensures r == High <==> Some("severe") in severities || symptomCount > 4
    ensures r == Medium <==> !(Some("severe") in severities || symptomCount > 4)
                             && (CountOf(severities, Some("moderate")) > 1 || symptomCount > 2)
    ensures r == Low <==> Some("severe") !in severities && symptomCount <= 2
                          && CountOf(severities, Some("moderate")) <= 1
  {
    if CountOf(severities, Some("severe")) > 0 || symptomCount > 4 then High
    else if CountOf(severities, Some("moderate")) > 1 || symptomCount > 2 then Medium
    else Low
  }

  /** Adding a symptom never lowers the risk level. */
  lemma {:induction false} RiskMonotone(severities: seq<Option<string>>, extra: Option<string>)
    ensures RiskLevel(severities, |severities|) == High ==> RiskLevel(severities + [extra], |severities| + 1) == High
    ensures RiskLevel(severities, |severities|) == Medium ==> RiskLevel(severities + [extra], |severities| + 1) != Low
  {
    CountAppend(severities, extra, Some("moderate"));
  }

  lemma {:induction false} CountAppend(xs: seq<Option<string>>, y: Option<string>, x: Option<string>)
    ensures CountOf(xs + [y], x) == CountOf(xs, x) + (if y == x then 1 else 0)
    decreases |xs|
  {
    if xs != [] {
      assert (xs + [y])[1..] == xs[1..] + [y];
      CountAppend(xs[1..], y, x);
    }
  }

  // ---------------------------------------------------------------------------
  // Recommendations

  const FeverTip := "Take temperature regularly and use fever reducers if needed"
  const CoughTip := "Use honey or throat lozenges for cough relief"
  const HeadacheTip := "Rest in a dark, quiet room"

  const HighActions: seq<string> :=
    ["Seek immediate medical attention", "Consider visiting an emergency room", "Do not delay medical care"]
  const MediumActions: seq<string> :=
    ["Schedule an appointment with your healthcare provider", "Monitor symptoms closely", "Rest and stay hydrated"]
  const LowActions: seq<string> :=
    ["Rest and monitor symptoms", "Stay hydrated", "Consider over-the-counter remedies if appropriate"]

  /** The three recommendations chosen by severity: "high", "medium", and anything else. */
  function BaseRecommendations(severity: string): (r: seq<string>)
    ensures |r| == 3
    ensures severity == "high" ==> r == HighActions
    ensures severity == "medium" ==> r == MediumActions
    ensures severity != "high" && severity != "medium" ==> r == LowActions
  {
    if severity == "high" then HighActions
    else if severity == "medium" then MediumActions
    else LowActions
  }

  /** The tips appended for the three keywords, in the order fever, cough, headache. */
  function PickedTips(fever: bool, cough: bool, headache: bool): seq<string> {
    (if fever then [FeverTip] else []) + (if cough then [CoughTip] else []) + (if headache then [HeadacheTip] else [])
  }

  /** Each tip is picked exactly when its test held, and none twice. */
  lemma TipsPicked(fever: bool, cough: bool, headache: bool)
    ensures var tips := PickedTips(fever, cough, headache);
            && |tips| <= 3
            && (FeverTip in tips <==> fever) && (CoughTip in tips <==> cough) && (HeadacheTip in tips <==> headache)
            && forall i, j :: 0 <= i < j < |tips| ==> tips[i] != tips[j]
  {
    assert |FeverTip| == 59 && |CoughTip| == 45 && |HeadacheTip| == 26;
  }

  /** `any(key in s.lower() for s in symptoms)`. */
  predicate AnyMentions(symptoms: seq<string>, key: string) {
    exists i :: 0 <= i < |symptoms| && Contains(Lower(symptoms[i]), key)
  }

  /** The recommendations for the symptom names and a severity: the base three, then the picked tips. */
  function RecommendationsFor(symptoms: seq<string>, severity: string): seq<string> {
    BaseRecommendations(severity)
      + PickedTips(AnyMentions(symptoms, "fever"), AnyMentions(symptoms, "cough"), AnyMentions(symptoms, "headache"))
  }

  /**
   * `generate_recommendations`: three items chosen by severity, then the
   * fever, cough and headache tips, each at most once and in that order.
   */
  method GenerateRecommendations(symptoms: seq<string>, severity: string) returns (recommendations: seq<string>)
    ensures recommendations == RecommendationsFor(symptoms, severity)
    ensures 3 <= |recommendations| <= 6
    ensures recommendations[..3] == BaseRecommendations(severity)
    ensures FeverTip in recommendations[3..] <==> AnyMentions(symptoms, "fever")
    ensures CoughTip in recommendations[3..] <==> AnyMentions(symptoms, "cough")
    ensures HeadacheTip in recommendations[3..] <==> AnyMentions(symptoms, "headache")
  {
    var fever, cough, headache := AnyMentions(symptoms, "fever"), AnyMentions(symptoms, "cough"), AnyMentions(symptoms, "headache");
    var tips: seq<string> := [];
    if fever {
      tips := tips + [FeverTip];
    }
    if cough {
      tips := tips + [CoughTip];
    }
    if headache {
      tips := tips + [HeadacheTip];
    }
    assert tips == PickedTips(fever, cough, headache);
    TipsPicked(fever, cough, headache);
    recommendations := BaseRecommendations(severity) + tips;
    assert recommendations[3..] == tips;
  }

  // ---------------------------------------------------------------------------
  // Warning flags

  const ChestPainFlag := "Seek emergency care immediately for chest pain"
  const BreathingFlag := "Seek emergency care for breathing difficulties"
  const MonitorFlag := "Monitor for worsening symptoms and seek care if concerned"
  const DefaultWarnings: seq<string> := [
    "Seek immediate medical attention if symptoms worsen rapidly",
    "Contact healthcare provider if fever exceeds 103°F (39.4°C)",
    "Get emergency care for severe pain, difficulty breathing, or chest pain"
  ]

  /** The flag one symptom raises, by priority; `anySevere` is whether any severity is "severe". */
  function FlagFor(name: string, anySevere: bool): (r: Option<string>)
    ensures Contains(name, "chest pain") ==> r == Some(ChestPainFlag)
    ensures (!Contains(name, "chest pain") && (Contains(name, "difficulty breathing") || Contains(name, "shortness of breath")))
              ==> r == Some(BreathingFlag)
    ensures (!Contains(name, "chest pain") && !Contains(name, "difficulty breathing")
             && !Contains(name, "shortness of breath") && (Contains(name, "severe headache") || anySevere))
              ==> r == Some(MonitorFlag)
    ensures r == None <==> !Contains(name, "chest pain") && !Contains(name, "difficulty breathing")
                           && !Contains(name, "shortness of breath") && !Contains(name, "severe headache") && !anySevere
  {
    if Contains(name, "chest pain") then Some(ChestPainFlag)
    else if Contains(name, "difficulty breathing") || Contains(name, "shortness of breath") then Some(BreathingFlag)
    else if Contains(name, "severe headache") || anySevere then Some(MonitorFlag)
    else None
  }

  /** The flags raised by the symptoms, one at most per symptom, in symptom order. */
  function RaisedFlags(names: seq<string>, anySevere: bool): (r: seq<string>)
    ensures |r| <= |names|
  {
    if names == [] then []
    else
      var last := FlagFor(names[|names| - 1], anySevere);
      RaisedFlags(names[..|names| - 1], anySevere) + (if last.Some? then [last.value] else [])
  }

  /** The flags of `analyze_symptoms`: those raised, or the three defaults when nothing was raised. */
  function FlagsFor(names: seq<string>, severities: seq<Option<string>>): seq<string> {
    var raised := RaisedFlags(names, Some("severe") in severities);
    if raised == [] then DefaultWarnings else raised
  }

  /** The warning-flag loop of `analyze_symptoms`, with the three defaults when nothing was raised. */
  method WarningFlags(names: seq<string>, severities: seq<Option<string>>) returns (flags: seq<string>)
    ensures flags == FlagsFor(names, severities)
    ensures flags != []
  {
    var anySevere := Some("severe") in severities;
    flags := [];
    var i := 0;
    while i < |names|
      invariant 0 <= i <= |names|
      invariant flags == RaisedFlags(names[..i], anySevere)
    {
      var name := names[i];
      if Contains(name, "chest pain") {
        flags := flags + [ChestPainFlag];
      } else if Contains(name, "difficulty breathing") || Contains(name, "shortness of breath") {
        flags := flags + [BreathingFlag];
      } else if Contains(name, "severe headache") || anySevere {
        flags := flags + [MonitorFlag];
      }
      assert names[..i + 1][..i] == names[..i];
      i := i + 1;
    }
    assert names[..i] == names;
    if flags == [] {
      flags := DefaultWarnings;
    }
  }

  /** With some severity "severe", every symptom raises exactly one flag. */
  lemma {:induction false} SevereFlagsEverySymptom(names: seq<string>)
    ensures |RaisedFlags(names, true)| == |names|
    decreases |names|
  {
    if names != [] {
      SevereFlagsEverySymptom(names[..|names| - 1]);
    }
  }

  /** A symptom mentioning chest pain always puts the chest-pain flag in the result. */
  lemma {:induction false} ChestPainFlagged(names: seq<string>, anySevere: bool, i: nat)
    requires i < |names| && Contains(names[i], "chest pain")
    ensures ChestPainFlag in RaisedFlags(names, anySevere)
    decreases |names|
  {
    if i < |names| - 1 {
      ChestPainFlagged(names[..|names| - 1], anySevere, i);
    }
  }

  // ---------------------------------------------------------------------------
  // Specialist routing

  datatype SpecialistAdvice = SpecialistAdvice(recommended: bool, specialty: string, urgency: string)

  function Specialist(risk: Risk, symptomCount: nat): (r: SpecialistAdvice)
    ensures r.recommended <==> risk == High || symptomCount > 3
    ensures r.specialty == "Emergency Medicine" <==> risk == High
    ensures r.specialty == "Family Medicine" <==> risk != High
    ensures r.urgency == (match risk case High => "emergency" case Medium => "urgent" case Low => "routine")
  {
    SpecialistAdvice(risk == High || symptomCount > 3,
                     if risk == High then "Emergency Medicine" else "Family Medicine",
                     if risk == High then "emergency" else if risk == Medium then "urgent" else "routine")
  }

  /** More than four symptoms always means an emergency referral. */
  lemma ManySymptomsEmergency(severities: seq<Option<string>>)
    requires |severities| > 4
    ensures Specialist(RiskLevel(severities, |severities|), |severities|) ==
            SpecialistAdvice(true, "Emergency Medicine", "emergency")
  {
  }

  // ---------------------------------------------------------------------------
  // The analysis returned when Gemini is not used

  datatype Recommendation = Recommendation(kind: string, action: string, priority: string)

  datatype Analysis = Analysis(
    riskLevel: string,
    confidence: int,
    possibleConditions: seq<Condition>,
    recommendations: seq<Recommendation>,
    warningFlags: seq<string>,
    medicationSuggestions: seq<Medication>,
    specialist: SpecialistAdvice,
    model: string,
    source: string,
    disclaimer: string,
    error: Option<string>)

  /** What the three external fetchers returned, or the exception that escaped them. */
  datatype ExternalData = ExternalData(umls: seq<Condition>, mesh: seq<Condition>, fda: seq<Medication>)

  /** Python's `xs[:n]`. */
  function Take<T>(xs: seq<T>, n: nat): (r: seq<T>)
    ensures |r| <= n && |r| <= |xs|
    ensures |xs| <= n ==> r == xs
    ensures forall i :: 0 <= i < |r| ==> r[i] == xs[i]
  {
    if |xs| <= n then xs else xs[..n]
  }

  const Disclaimer := "This information is for educational purposes only and should not replace professional medical advice. Always consult a healthcare professional for proper diagnosis and treatment."

  const ExternalFailurePrefix := "Failed to fetch from external APIs: "
  const ErrorRecommendation := Recommendation("medical-attention", "Consult a healthcare provider for proper diagnosis", "high")
  const ErrorFlag := "Unable to analyze symptoms - seek medical attention"
  const ErrorModel := "Error - External APIs failed"
  const ErrorDisclaimer := "This system encountered an error. Please consult a healthcare professional immediately."

  /**
   * The "last resort" analysis returned when the external-API block raises:
   * a risk level outside the three the rule gives, nothing found, one
   * high-priority call to see a provider, an urgent specialist, and the
   * exception's message at the end of the error text.
   */
  function ErrorAnalysis(message: string): (r: Analysis)
    ensures r.riskLevel !in {"low", "medium", "high"} && r.confidence == 0
    ensures r.possibleConditions == [] && r.medicationSuggestions == []
    ensures r.recommendations == [ErrorRecommendation] && ErrorRecommendation.priority == "high" && |r.warningFlags| == 1
    ensures r.specialist.recommended && r.specialist.urgency == "urgent"
    ensures r.error == Some(ExternalFailurePrefix + message)
    ensures r.riskLevel == "unknown" && r.warningFlags == [ErrorFlag]
    ensures r.specialist == SpecialistAdvice(true, "Family Medicine", "urgent")
    ensures r.model == ErrorModel && r.source == "Fallback" && r.disclaimer == ErrorDisclaimer
  {
    Analysis("unknown", 0, [], [ErrorRecommendation], [ErrorFlag], [], SpecialistAdvice(true, "Family Medicine", "urgent"),
             ErrorModel, "Fallback", ErrorDisclaimer, Some(ExternalFailurePrefix + message))
  }

  function AsRecommendations(actions: seq<string>, risk: string): (r: seq<Recommendation>)
    ensures |r| == |actions|
    ensures forall i :: 0 <= i < |r| ==> r[i] == Recommendation("medical-attention", actions[i], risk)
  {
    seq(|actions|, i requires 0 <= i < |actions| => Recommendation("medical-attention", actions[i], risk))
  }

  /**
   * `analyze_symptoms` when Gemini is unavailable or its reply holds no JSON:
   * basic analysis only when UMLS and MeSH found nothing, the risk rule, the
   * recommendations with the risk as priority, the flags, the routing, and
   * the results cut to 5 conditions and 6 medications.
   */
  method AnalyzeSymptoms(symptoms: seq<SymptomDict>, external: Result<ExternalData, string>) returns (a: Analysis)
    ensures a == AnalysisOf(symptoms, external)
    ensures external.Err? ==> a == ErrorAnalysis(external.error)
    ensures external.Ok? ==>
              var names := SymptomNames(symptoms);
              var found := external.value.umls + external.value.mesh;
              var risk := RiskLevel(Severities(symptoms), |symptoms|);
              && a.riskLevel == risk.Name()
              && a.confidence == 75
              && a.possibleConditions == Take(if found == [] then MatchAll(ConditionTable, names) else found, 5)
              && |a.possibleConditions| <= 5
              && a.medicationSuggestions == Take(external.value.fda, 6)
              && |a.medicationSuggestions| <= 6
              && a.recommendations == AsRecommendations(RecommendationsFor(names, risk.Name()), risk.Name())
              && 3 <= |a.recommendations| <= 6
              && (forall r :: r in a.recommendations ==> r.priority == a.riskLevel)
              && a.warningFlags == FlagsFor(names, Severities(symptoms))
              && a.warningFlags != []
              && a.specialist == Specialist(risk, |symptoms|)
              && a.model == FallbackModel && a.source == FallbackSource && a.disclaimer == Disclaimer
              && a.error.None?
  {
    if external.Err? {
      return ErrorAnalysis(external.error);
    }
    var names := SymptomNames(symptoms);
    var severities := Severities(symptoms);
    var data := external.value;
    var allConditions := data.umls + data.mesh;
    if allConditions == [] {
      allConditions := AnalyzeSymptomsBasic(names);
    }
    var risk := RiskLevel(severities, |symptoms|);
    var recommendations := GenerateRecommendations(names, risk.Name());
    var flags := WarningFlags(names, severities);
    var recs := AsRecommendations(recommendations, risk.Name());
    a := Analysis(risk.Name(), 75, Take(allConditions, 5), recs, flags, Take(data.fda, 6),
                  Specialist(risk, |symptoms|), FallbackModel, FallbackSource, Disclaimer, None);
  }

  const FallbackModel := "External Medical APIs"
  const FallbackSource := "UMLS, MeSH, OpenFDA APIs"

  /** The analysis `AnalyzeSymptoms` returns, as a value the router and the pages can name. */
  function AnalysisOf(symptoms: seq<SymptomDict>, external: Result<ExternalData, string>): Analysis {
    if external.Err? then ErrorAnalysis(external.error)
    else
      var names := SymptomNames(symptoms);
      var found := external.value.umls + external.value.mesh;
      var risk := RiskLevel(Severities(symptoms), |symptoms|);
      Analysis(risk.Name(), 75, Take(if found == [] then MatchAll(ConditionTable, names) else found, 5),
               AsRecommendations(RecommendationsFor(names, risk.Name()), risk.Name()),
               FlagsFor(names, Severities(symptoms)), Take(external.value.fda, 6),
               Specialist(risk, |symptoms|), FallbackModel, FallbackSource, Disclaimer, None)
  }

  // ---------------------------------------------------------------------------
  // get_medications

  /** One element of the `symptoms` list given to `get_medications`. */
  datatype Item =
    | Text(s: string)                          // a string
    | Record(name: Option<string>, text: string) // a dict; `text` is its `str()`
    | Scalar(text: string)                     // any other value; `text` is its `str()`

  /** The `symptoms` entry of the payload: not a list, or a list (a missing key gives []). */
  datatype SymptomsField = NotAList | Items(items: seq<Item>)

  function ItemText(item: Item): string {
    match item
    case Text(s) => s
    case Record(_, text) => text
    case Scalar(text) => text
  }

  function ItemName(item: Item): string {
    match item
    case Text(s) => s
    case Record(name, _) => name.GetOr("")
    case Scalar(text) => text
  }

  /**
   * The symptom names of `get_medications`: the list itself when its first
   * element is a string, each dict's `name` (or '') otherwise, and [] for an
   * empty list or a value that is not a list.
   */
  function MedicationSymptomNames(field: SymptomsField): (r: seq<string>)
    ensures field.NotAList? || field.items == [] ==> r == []
    ensures field.Items? && field.items != [] ==> |r| == |field.items|
    ensures field.Items? && field.items != [] && field.items[0].Text? ==>
              forall i :: 0 <= i < |r| ==> field.items[i].Text? ==> r[i] == field.items[i].s
    ensures field.Items? && field.items != [] && !field.items[0].Text? ==>
              forall i :: 0 <= i < |r| ==> r[i] == ItemName(field.items[i])
  {
    match field
    case NotAList => []
    case Items(items) =>
      if items == [] then []
      else if items[0].Text? then seq(|items|, i requires 0 <= i < |items| => ItemText(items[i]))
      else seq(|items|, i requires 0 <= i < |items| => ItemName(items[i]))
  }

  const FeverAdvice: seq<string> := [
    "Stay well hydrated with water, clear broths, or electrolyte solutions",
    "Rest and avoid strenuous activities",
    "Use light clothing and maintain comfortable room temperature"
  ]
  const HeadacheAdvice: seq<string> := [
    "Apply cold or warm compress to head/neck area",
    "Practice relaxation techniques to reduce stress",
    "Maintain regular sleep schedule"
  ]
  const CoughAdvice: seq<string> := [
    "Use a humidifier or breathe steam from hot shower",
    "Stay hydrated to help thin mucus",
    "Avoid smoke and other irritants"
  ]
  const DefaultAdvice: seq<string> := [
    "Maintain adequate rest and hydration",
    "Monitor symptoms and seek medical care if they worsen",
    "Follow medication instructions carefully"
  ]
  const BaseMedicationWarnings: seq<string> := [
    "Do not exceed recommended dosages",
    "Read all medication labels carefully",
    "Check for drug interactions with current medications",
    "Consult pharmacist or healthcare provider with questions",
    "Stop medication and seek medical care if allergic reactions occur"
  ]
  const StomachWarning := "Take medications with food if stomach upset occurs"

  /** The general advice: the fever, headache and cough blocks that apply, in that order, or the defaults. */
  function GeneralAdvice(names: seq<string>): seq<string> {
    var advice := (if AnyMentions(names, "fever") then FeverAdvice else [])
                  + (if AnyMentions(names, "headache") then HeadacheAdvice else [])
                  + (if AnyMentions(names, "cough") then CoughAdvice else []);
    if advice == [] then DefaultAdvice else advice
  }

  /** One, two or three blocks of three; the defaults exactly when no block applies; fever first, cough last. */
  lemma GeneralAdviceBlocks(names: seq<string>)
    ensures var r := GeneralAdvice(names);
            && |r| in {3, 6, 9}
            && ((!AnyMentions(names, "fever") && !AnyMentions(names, "headache") && !AnyMentions(names, "cough"))
                <==> r == DefaultAdvice)
            && (AnyMentions(names, "fever") ==> r[..3] == FeverAdvice)
            && (!AnyMentions(names, "fever") && AnyMentions(names, "headache") ==> r[..3] == HeadacheAdvice)
            && (AnyMentions(names, "cough") ==> r[|r| - 3..] == CoughAdvice)
  {
    var advice := (if AnyMentions(names, "fever") then FeverAdvice else [])
                  + (if AnyMentions(names, "headache") then HeadacheAdvice else [])
                  + (if AnyMentions(names, "cough") then CoughAdvice else []);
    assert advice != [] ==> advice[0] in {FeverAdvice[0], HeadacheAdvice[0], CoughAdvice[0]};
    assert DefaultAdvice[0] !in {FeverAdvice[0], HeadacheAdvice[0], CoughAdvice[0]};
  }

  /** The five fixed warnings, plus the stomach warning when a name mentions stomach or nausea. */
  function MedicationWarnings(names: seq<string>): seq<string> {
    BaseMedicationWarnings + (if AnyMentions(names, "stomach") || AnyMentions(names, "nausea") then [StomachWarning] else [])
  }

  /** Six warnings exactly when a name mentions stomach or nausea, the sixth being the stomach warning. */
  lemma MedicationWarningsShape(names: seq<string>)
    ensures var r := MedicationWarnings(names);
            && |r| == (if AnyMentions(names, "stomach") || AnyMentions(names, "nausea") then 6 else 5)
            && r[..5] == BaseMedicationWarnings
            && (|r| == 6 ==> r[5] == StomachWarning)
  {
    var r := MedicationWarnings(names);
    assert r[..5] == BaseMedicationWarnings;
  }

  datatype MedicationAdvice = MedicationAdvice(
    medications: seq<Medication>,
    generalAdvice: seq<string>,
    warnings: seq<string>,
    source: string,
    notes: Option<string>,
    disclaimer: string,
    error: Option<string>)

  /**
   * `get_medications`, with `external` the OpenFDA result (or the exception
   * that escaped the block): the basic table when OpenFDA found nothing, at
   * most six medications, the advice and the warnings.
   */
  method GetMedications(field: SymptomsField, external: Result<seq<Medication>, string>) returns (r: MedicationAdvice)
    ensures r == AdviceOf(field, external)
    ensures external.Err? ==> r == ErrorAdvice(external.error)
    ensures external.Ok? ==>
              var names := MedicationSymptomNames(field);
              && r.medications == Take(if external.value == [] then MatchAll(MedicationTable, names) else external.value, 6)
              && |r.medications| <= 6
              && r.generalAdvice == GeneralAdvice(names)
              && r.warnings == MedicationWarnings(names)
              && r.source == AdviceSource
              && r.notes == Some(AdviceNotes) && r.disclaimer == AdviceDisclaimer
              && r.error.None?
  {
    if external.Err? {
      return ErrorAdvice(external.error);
    }
    var names := MedicationSymptomNames(field);
    var medications := external.value;
    if medications == [] {
      medications := GetBasicMedications(names);
    }
    r := MedicationAdvice(Take(medications, 6), GeneralAdvice(names), MedicationWarnings(names), AdviceSource,
                          Some(AdviceNotes), AdviceDisclaimer, None);
  }

  const AdviceSource := "External APIs (OpenFDA)"
  const AdviceNotes := "Consult healthcare provider before starting any new medication regimen, especially if you have existing medical conditions or take other medications."
  const AdviceDisclaimer := "This information is for educational purposes only. Always consult a healthcare professional before taking any medications."
  const ErrorAdviceDisclaimer := "This system encountered an error. Please consult a healthcare professional for medication advice."

  /** The answer when the OpenFDA block raises: no medication, a referral, and the exception's message. */
  function ErrorAdvice(message: string): (r: MedicationAdvice)
    ensures r.medications == [] && r.source == "Error - External APIs failed"
    ensures r.error == Some("Failed to fetch medication data: " + message)
    ensures r.notes.None? && r.disclaimer == ErrorAdviceDisclaimer
  {
    MedicationAdvice([], ["Consult a healthcare provider for medication recommendations"],
                     ["Unable to provide medication suggestions - seek professional medical advice"],
                     "Error - External APIs failed", None, ErrorAdviceDisclaimer,
                     Some("Failed to fetch medication data: " + message))
  }

  /** The advice `GetMedications` returns, as a value the router can name. */
  function AdviceOf(field: SymptomsField, external: Result<seq<Medication>, string>): MedicationAdvice {
    if external.Err? then ErrorAdvice(external.error)
    else
      var names := MedicationSymptomNames(field);
      MedicationAdvice(Take(if external.value == [] then MatchAll(MedicationTable, names) else external.value, 6),
                       GeneralAdvice(names), MedicationWarnings(names), AdviceSource, Some(AdviceNotes), AdviceDisclaimer, None)
  }
}
