/**
 * The free-text symptom page of frontend/src/pages/SymptomChecker.tsx: the
 * three checks made before anything is sent, the splitting of the text into
 * symptoms, the call to the API client with the page's "analysing" flag
 * raised, and the hand-off to the results page.  React state is a class
 * whose fields the handlers update; toasts and navigations are recorded in
 * order, and so is every request handed to the API client.
 */
module SymptomCheckerPage {
  import opened Outcomes
  import opened Text
  import opened Js
  import opened ApiService

  const BlankMessage := "Please tell us how you're feeling"
  const ShortMessage := "Please add a bit more detail (at least 10 characters)"
  const BackendDownMessage := "Backend server is not available. Please try again later."
  const SuccessMessage := "Analysis completed successfully!"
  const FailedMessage := "Analysis failed. Please try again."

  /** Text shorter than this, once trimmed, is refused. */
  const MinimumDetail := 10

  /** The characters the text is split at (`/[,\n]/`). */
  const Separators: set<char> := {',', '\n'}

  datatype Toast = ErrorToast(message: string) | SuccessToast(message: string)

  /** `navigate(path, {state})`. */
  datatype Navigation = Navigation(path: string, state: Value)

  /** One call of `analyzeSymptoms`, with the value of `isAnalyzing` while it ran. */
  datatype Request = Request(symptoms: seq<Value>, patientInfo: Value, analyzing: bool)

  /** `serverStatus?.success`: the health check has answered, and answered success. */
  predicate ServerUp(status: Option<ApiResult>) {
    status.Some? && status.value.IsSuccess()
  }

  /**
   * The checks of `handleSubmit`, in order: blank text, text shorter than
   * ten characters once trimmed, then a server that is not known to be up.
   */
  function ValidationError(text: string, status: Option<ApiResult>): (r: Option<string>)
    ensures r.None? <==> |Trim(text)| >= MinimumDetail && ServerUp(status)
    ensures r == Some(BlankMessage) <==> AllSpace(text)
    ensures r == Some(ShortMessage) <==> !AllSpace(text) && |Trim(text)| < MinimumDetail
    ensures r == Some(BackendDownMessage) <==> |Trim(text)| >= MinimumDetail && !ServerUp(status)
  {
    if Trim(text) == "" then Some(BlankMessage)
    else if |Trim(text)| < MinimumDetail then Some(ShortMessage)
    else if !ServerUp(status) then Some(BackendDownMessage)
    else None
  }

  /** The symptom names: the text split at commas and line breaks, each piece trimmed, blank pieces dropped. */
  function ParsedNames(text: string): seq<string> {
    NonBlankTrimmed(SplitAny(text, Separators))
  }

  /** `{name, severity: "moderate", duration: null}`. */
  function SymptomObject(name: string): Value {
    Obj(map["name" := Str(name), "severity" := Str("moderate"), "duration" := Null])
  }

  /** One `{name, severity: "moderate", duration: null}` per name, in order. */
  function SymptomObjects(names: seq<string>): seq<Value> {
    seq(|names|, k requires 0 <= k < |names| => SymptomObject(names[k]))
  }

  /** The `symptomsArray` sent to the API client. */
  function ParseSymptomText(text: string): seq<Value> {
    SymptomObjects(ParsedNames(text))
  }

  /** The state handed to the results page: the raw text and the analysis. */
  function ResultsState(text: string, analysis: Value): Value {
    Obj(map["symptoms" := Str(text), "analysisResult" := analysis])
  }

  /** `result.error || "Analysis failed. Please try again."`. */
  function FailureText(error: string): (r: string)
    ensures r != ""
    ensures error != "" ==> r == error
  {
    if error != "" then error else FailedMessage
  }

  /** The submit button's `disabled`: while analysing, or while the trimmed text is too short. */
  predicate SubmitDisabled(analyzing: bool, text: string) {
    analyzing || |Trim(text)| < MinimumDetail
  }

  /** The patient block the page sends: `{}`. */
  const EmptyPatient: Value := Obj(map[])

  /** What one submission shows, where it navigates and what it sends. */
  datatype Outcome = Outcome(toast: Toast, navigation: seq<Navigation>, request: seq<Request>)

  /**
   * The effect of `handleSubmit` on text `text` with server status `status`
   * when the server answers `reply`: a refused submission toasts the first
   * failed check and sends nothing; an accepted one sends the parsed
   * symptoms once, with `isAnalyzing` raised, and navigates to the results
   * page exactly when the analysis succeeds.
   */
  function Submission(text: string, status: Option<ApiResult>, reply: Reply): Outcome
  {
    match ValidationError(text, status)
    case Some(message) => Outcome(ErrorToast(message), [], [])
    case None => Accepted(text, reply)
  }

  /** The effect of a submission that passed the checks. */
  function Accepted(text: string, reply: Reply): Outcome {
    Answered(text, AnalyzeSymptoms(ParseSymptomText(text), EmptyPatient, reply))
  }

  /** The effect of a submission that passed the checks and whose call to the API client returned `result`. */
  function Answered(text: string, result: ApiResult): Outcome {
    var request := [Request(ParseSymptomText(text), EmptyPatient, true)];
    if result.IsSuccess() then
      Outcome(SuccessToast(SuccessMessage), [Navigation("/results", ResultsState(text, result.data))], request)
    else Outcome(ErrorToast(FailureText(result.error)), [], request)
  }

  /**
   * A submission sends a request exactly when the trimmed text is long
   * enough and the server is up, and then sends the parsed symptoms once
   * with `isAnalyzing` raised; it navigates to the results page, with the
   * text and the unwrapped analysis, exactly when it sent a request and
   * the server answered; otherwise it toasts a non-empty error, the blank
   * message first of all for blank text.
   */
  lemma SubmissionOutcome(text: string, status: Option<ApiResult>, reply: Reply)
    ensures var o := Submission(text, status, reply);
            && (o.request != [] <==> |Trim(text)| >= MinimumDetail && ServerUp(status))
            && (o.request != [] ==> o.request == [Request(ParseSymptomText(text), EmptyPatient, true)])
            && (o.navigation != [] <==> o.request != [] && reply.Response?)
            && (o.navigation != [] ==>
                  && o.toast == SuccessToast(SuccessMessage)
                  && o.navigation == [Navigation("/results", ResultsState(text, UnwrapAnalysis(reply.body)))])
            && (o.navigation == [] ==> o.toast.ErrorToast? && o.toast.message != "")
            && (AllSpace(text) ==> o == Outcome(ErrorToast(BlankMessage), [], []))
  {
    ParsedPayloadNormalizes(text);
  }

  class SymptomCheckerPageState {
    var symptoms: string
    var isAnalyzing: bool
    var serverStatus: Option<ApiResult>
    var toasts: seq<Toast>
    var navigations: seq<Navigation>
    var requests: seq<Request>

    /** The page as first rendered: empty text, idle, server status unknown. */
    constructor ()
      ensures symptoms == "" && !isAnalyzing && serverStatus.None?
      ensures toasts == [] && navigations == [] && requests == []
    {
      symptoms := "";
      isAnalyzing := false;
      serverStatus := None;
      toasts := [];
      navigations := [];
      requests := [];
    }

    /** `checkServerStatus`: the health check's answer becomes the server status. */
    method CheckServerStatus(reply: Reply)
      modifies this
      ensures serverStatus == Some(HealthCheck(reply))
      ensures symptoms == old(symptoms) && isAnalyzing == old(isAnalyzing)
      ensures toasts == old(toasts) && navigations == old(navigations) && requests == old(requests)
    {
      serverStatus := Some(HealthCheck(reply));
    }

    /**
     * `handleSubmit`, with `reply` what the server answers.  A failed check
     * shows its toast and changes nothing else.  Otherwise the parsed
     * symptoms are sent with an empty patient block while `isAnalyzing` is
     * set; success shows a toast and navigates to the results page with the
     * text and the analysis, failure shows the error and stays; either way
     * `isAnalyzing` ends cleared.
     */
    method HandleSubmit(reply: Reply)
      modifies this
      ensures symptoms == old(symptoms) && serverStatus == old(serverStatus)
      ensures ValidationError(symptoms, serverStatus).Some? ==>
                && toasts == old(toasts) + [ErrorToast(ValidationError(symptoms, serverStatus).value)]
                && navigations == old(navigations) && requests == old(requests) && isAnalyzing == old(isAnalyzing)
      ensures ValidationError(symptoms, serverStatus).None? ==>
                && var outcome := Accepted(symptoms, reply);
                && toasts == old(toasts) + [outcome.toast]
                && navigations == old(navigations) + outcome.navigation
                && requests == old(requests) + outcome.request
                && !isAnalyzing
    {
      var problem := ValidationError(symptoms, serverStatus);
      if problem.Some? {
        toasts := toasts + [ErrorToast(problem.value)];
      } else {
        Analyze(reply);
      }
    }

    /** The part of `handleSubmit` after the checks have passed: the `try` block and its `finally`. */
    method Analyze(reply: Reply)
      modifies this
      ensures symptoms == old(symptoms) && serverStatus == old(serverStatus)
      ensures var outcome := Accepted(old(symptoms), reply);
              && toasts == old(toasts) + [outcome.toast]
              && navigations == old(navigations) + outcome.navigation
              && requests == old(requests) + outcome.request
              && !isAnalyzing
    {
      var text := symptoms;
      isAnalyzing := true;
      var symptomsArray := ParseSymptomText(text);
      requests := requests + [Request(symptomsArray, EmptyPatient, isAnalyzing)];
      var result := AnalyzeSymptoms(symptomsArray, EmptyPatient, reply);
      assert Accepted(text, reply) == Answered(text, result);
      ShowResult(text, result);
      isAnalyzing := false;
    }

    /** The `if (result.success)` block: the toast, and on success the navigation to the results page. */
    method ShowResult(text: string, result: ApiResult)
      modifies this
      ensures symptoms == old(symptoms) && serverStatus == old(serverStatus) && requests == old(requests)
      ensures isAnalyzing == old(isAnalyzing)
      ensures toasts == old(toasts) + [Answered(text, result).toast]
      ensures navigations == old(navigations) + Answered(text, result).navigation
    {
      if result.IsSuccess() {
        toasts := toasts + [SuccessToast(SuccessMessage)];
        navigations := navigations + [Navigation("/results", ResultsState(text, result.data))];
      } else {
        toasts := toasts + [ErrorToast(FailureText(result.error))];
      }
    }
  }

  // ---------------------------------------------------------------------------
  // Properties of the parse

  /** Every parsed name is non-empty, has no surrounding white space and holds no comma or line break. */
  lemma ParsedNamesClean(text: string)
    ensures forall k :: 0 <= k < |ParsedNames(text)| ==>
              ParsedNames(text)[k] != "" && IsTrimmed(ParsedNames(text)[k]) && NoneOf(ParsedNames(text)[k], Separators)
  {
    SplitAnyNoSeparator(text, Separators);
    NonBlankTrimmedChars(SplitAny(text, Separators), Separators);
    NonBlankTrimmedClean(SplitAny(text, Separators));
  }

  /**
   * The parse yields no symptom exactly when the text has nothing but
   * white space and commas, so a text of commas that passes the length
   * check is sent as an empty symptom list.
   */
  lemma ParseEmptyIff(text: string)
    ensures ParsedNames(text) == [] <==> forall i :: 0 <= i < |text| ==> IsSpace(text[i]) || text[i] == ','
  {
    var pieces := SplitAny(text, Separators);
    NonBlankTrimmedEmpty(pieces);
    SplitAnyNoSeparator(text, Separators);
    if forall i :: 0 <= i < |text| ==> IsSpace(text[i]) || text[i] == ',' {
      forall k, j | 0 <= k < |pieces| && 0 <= j < |pieces[k]| ensures IsSpace(pieces[k][j]) {
        assert pieces[k][j] in pieces[k];
        SplitAnyChar(text, Separators, k, pieces[k][j]);
        assert NoneOf(pieces[k], Separators);
      }
    } else {
      var i :| 0 <= i < |text| && !IsSpace(text[i]) && text[i] != ',';
      SplitAnyCovers(text, Separators, i);
      var k :| 0 <= k < |pieces| && text[i] in pieces[k];
      var j :| 0 <= j < |pieces[k]| && pieces[k][j] == text[i];
      assert !AllSpace(pieces[k]);
    }
  }

  /** Ten or more commas pass every check of the page and are sent as no symptoms at all. */
  lemma CommasPassAsNoSymptoms(text: string, status: Option<ApiResult>)
    requires ServerUp(status)
    requires |text| >= MinimumDetail && forall i :: 0 <= i < |text| ==> text[i] == ','
    ensures ValidationError(text, status).None?
    ensures ParseSymptomText(text) == []
  {
    assert !IsSpace(text[0]) && !IsSpace(text[|text| - 1]);
    assert TrimStart(text) == text;
    assert TrimEnd(text) == text;
    ParseEmptyIff(text);
  }

  /**
   * The API client turns each symptom object with a non-empty name into
   * the plain default symptom: the same name, severity "moderate", no
   * duration and no description.
   */
  lemma SymptomObjectsNormalize(names: seq<string>)
    requires forall k :: 0 <= k < |names| ==> names[k] != ""
    ensures NormalizeSymptoms(SymptomObjects(names)).Ok?
    ensures NormalizeSymptoms(SymptomObjects(names)).value
         == seq(|names|, k requires 0 <= k < |names| => PlainSymptom(names[k]))
  {
    var sent := SymptomObjects(names);
    forall k | 0 <= k < |sent|
      ensures NormalizeSymptom(sent[k]) == Ok(PlainSymptom(names[k]))
    {
      assert Get(sent[k], "name") == Str(names[k]);
      assert Get(sent[k], "severity") == Str("moderate");
      assert Get(sent[k], "duration") == Null;
      assert Get(sent[k], "description") == Undefined;
    }
    NormalizeSymptomsEach(sent);
  }

  /** The parsed text, with the page's empty patient block, always makes a valid payload of plain symptoms. */
  lemma ParsedPayloadNormalizes(text: string)
    ensures AnalyzePayload(ParseSymptomText(text), EmptyPatient).Ok?
    ensures NormalizeSymptoms(ParseSymptomText(text)).value
         == seq(|ParsedNames(text)|, k requires 0 <= k < |ParsedNames(text)| => PlainSymptom(ParsedNames(text)[k]))
  {
    ParsedNamesNonEmpty(text);
    SymptomObjectsPayload(ParsedNames(text));
  }

  /** No parsed name is empty. */
  lemma ParsedNamesNonEmpty(text: string)
    ensures forall k :: 0 <= k < |ParsedNames(text)| ==> ParsedNames(text)[k] != ""
  {
    ParsedNamesClean(text);
  }

  /** Non-empty names make a valid payload of one plain symptom each. */
  lemma SymptomObjectsPayload(names: seq<string>)
    requires forall k :: 0 <= k < |names| ==> names[k] != ""
    ensures AnalyzePayload(SymptomObjects(names), EmptyPatient).Ok?
    ensures NormalizeSymptoms(SymptomObjects(names)).value
         == seq(|names|, k requires 0 <= k < |names| => PlainSymptom(names[k]))
  {
    SymptomObjectsNormalize(names);
  }

  /** An enabled submit button means the text checks pass; only the server check can still refuse. */
  lemma EnabledSubmitPassesTextChecks(analyzing: bool, text: string, status: Option<ApiResult>)
    requires !SubmitDisabled(analyzing, text)
    ensures ValidationError(text, status).None? || ValidationError(text, status) == Some(BackendDownMessage)
  {
  }
}
