/**
 * The stored symptom analysis of backend-fastapi/app/models/symptom_analysis.py:
 * its defaults, the high-risk and urgent filters and the recency test.
 * Timestamps are seconds; the clock is a parameter.
 */
module SymptomAnalysisModel {
  import opened Outcomes

  datatype PossibleCondition = PossibleCondition(name: string, probability: real, description: Option<string>,
                                                 severity: Option<string>)

  datatype Recommendation = Recommendation(kind: string, action: string, priority: string, timeframe: Option<string>)

  /** A `Recommendation` built with only its type and action: priority "medium", no timeframe. */
  function NewRecommendation(kind: string, action: string): (r: Recommendation)
    ensures r.priority == "medium" && r.timeframe.None? && r.kind == kind && r.action == action
  {
    Recommendation(kind, action, "medium", None)
  }

  datatype SpecialistRecommendation = SpecialistRecommendation(recommended: bool, specialties: seq<string>,
                                                               urgency: Option<string>)

  /** `SpecialistRecommendation()`: not recommended, no specialties, no urgency. */
  const DefaultSpecialistRecommendation := SpecialistRecommendation(false, [], None)

  datatype Analysis = Analysis(riskLevel: string, confidence: real, possibleConditions: seq<PossibleCondition>,
                               recommendations: seq<Recommendation>, warningFlags: seq<string>,
                               medicationSuggestions: seq<string>, specialistRecommendation: Option<SpecialistRecommendation>)

  /** An `Analysis` built with only its risk level and confidence: every list empty, no specialist advice. */
  function NewAnalysis(riskLevel: string, confidence: real): (a: Analysis)
    ensures a.possibleConditions == [] && a.recommendations == [] && a.warningFlags == [] && a.medicationSuggestions == []
    ensures a.specialistRecommendation.None?
  {
    Analysis(riskLevel, confidence, [], [], [], [], None)
  }

  /**
   * The elements of `xs` that satisfy `keep`, in order: with `FilterAppend`
   * the empty and one-element cases below determine it on every sequence.
   */
  function Filter<T>(xs: seq<T>, keep: T -> bool): (r: seq<T>)
    ensures xs == [] ==> r == []
    ensures |xs| == 1 ==> r == if keep(xs[0]) then xs else []
    ensures |r| <= |xs|
    ensures forall x :: x in r ==> x in xs && keep(x)
    ensures forall i :: 0 <= i < |xs| && keep(xs[i]) ==> xs[i] in r
  {
    if xs == [] then [] else (if keep(xs[0]) then [xs[0]] else []) + Filter(xs[1..], keep)
  }

  /** Filtering keeps order: the kept elements of a concatenation are those of each part, in turn. */
  lemma {:induction false} FilterAppend<T>(xs: seq<T>, ys: seq<T>, keep: T -> bool)
    ensures Filter(xs + ys, keep) == Filter(xs, keep) + Filter(ys, keep)
    decreases |xs|
  {
    if xs != [] {
      assert (xs + ys)[1..] == xs[1..] + ys;
      FilterAppend(xs[1..], ys, keep);
    } else {
      assert xs + ys == ys;
    }
  }

  predicate IsHighRisk(c: PossibleCondition) {
    c.probability >= 70.0 || c.severity == Some("severe") || c.severity == Some("critical")
  }

  predicate IsUrgent(r: Recommendation) {
    r.priority == "urgent" || r.priority == "high"
  }

  /** `get_high_risk_conditions`: exactly the conditions with probability at least 70 or a severe or critical severity, in order. */
  function HighRiskConditions(a: Analysis): (r: seq<PossibleCondition>)
    ensures r == Filter(a.possibleConditions, IsHighRisk)
    ensures forall c :: c in r <==> c in a.possibleConditions && IsHighRisk(c)
    ensures |r| <= |a.possibleConditions|
  {
    Filter(a.possibleConditions, IsHighRisk)
  }

  /** `get_urgent_recommendations`: exactly the recommendations with priority "urgent" or "high", in order. */
  function UrgentRecommendations(a: Analysis): (r: seq<Recommendation>)
    ensures r == Filter(a.recommendations, IsUrgent)
    ensures forall x :: x in r <==> x in a.recommendations && IsUrgent(x)
    ensures |r| <= |a.recommendations|
  {
    Filter(a.recommendations, IsUrgent)
  }

  /** A recommendation left at its default priority is never urgent. */
  lemma DefaultPriorityNotUrgent(a: Analysis, kind: string, action: string)
    ensures NewRecommendation(kind, action) !in UrgentRecommendations(a)
  {
  }

  /** Adding recommendations appends their urgent ones after the existing urgent ones. */
  lemma UrgentOfAppended(a: Analysis, more: seq<Recommendation>)
    ensures UrgentRecommendations(a.(recommendations := a.recommendations + more))
         == UrgentRecommendations(a) + Filter(more, IsUrgent)
  {
    FilterAppend(a.recommendations, more, IsUrgent);
  }

  const DefaultHoursThreshold := 24

  /** `is_recent`: fewer than `hoursThreshold` hours have passed since `createdAt`. */
  predicate IsRecent(createdAt: real, now: real, hoursThreshold: int := DefaultHoursThreshold) {
    now - createdAt < (hoursThreshold * 3600) as real
  }

  /** Recent under a threshold means recent under any larger one, and an analysis is recent at creation iff the threshold is positive. */
  lemma IsRecentMonotone(createdAt: real, now: real, h1: int, h2: int)
    requires h1 <= h2
    ensures IsRecent(createdAt, now, h1) ==> IsRecent(createdAt, now, h2)
    ensures IsRecent(createdAt, createdAt, h1) <==> h1 > 0
  {
  }
}
