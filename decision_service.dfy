/**
 * The contextual-decision service: a trigger predicate deciding when the
 * language model is consulted, a keyword classifier turning its free-text
 * answer into a `ContextAnalysis`, and the safe value used when the call
 * fails.  The model call itself is an input (`Reply`).
 */
module DecisionService {
  import opened Common
  import opened Records

  // ---------------------------------------------------------------------
  // ContextAnalysis
  // ---------------------------------------------------------------------

  /** The five recommended actions. */
  datatype Recommendation =
    | UrgentRegistration      // auto_register_urgent
    | InferredRegistration    // auto_register_inferred
    | ConfirmWithSuggestions  // confirm_with_suggestions
    | RequestMoreInfo         // request_more_info
    | RequireConfirmation     // require_confirmation

  datatype Urgency = Low | Medium | High | Critical

  /** `missing_info_inference`: inferred values by field name, in insertion order. */
  type Inference = seq<(string, string)>

  datatype ContextAnalysis = ContextAnalysis(
    shouldOverride: bool,
    action: Recommendation,
    confidence: real,
    reasoning: string,
    urgency: Urgency,
    inference: Option<Inference>)

  /** The keyword arguments of a `ContextAnalysis(...)` call; an argument that is not passed is None. */
  datatype Arguments = Arguments(
    shouldOverride: Option<bool>,
    action: Option<Recommendation>,
    confidence: Option<real>,
    reasoning: Option<string>,
    urgency: Option<Urgency>,
    inference: Option<Option<Inference>>)

  /**
   * Model validation under pydantic version 2: every field is required,
   * including `missing_info_inference`, which is declared `Optional` but
   * given no default; a missing argument raises a validation error (None).
   */
  function Validate(a: Arguments): (r: Option<ContextAnalysis>)
    ensures r.Some? <==> a.shouldOverride.Some? && a.action.Some? && a.confidence.Some? && a.reasoning.Some?
                         && a.urgency.Some? && a.inference.Some?
    ensures r.Some? ==> r.value.action == a.action.value && r.value.confidence == a.confidence.value
                        && r.value.shouldOverride == a.shouldOverride.value && r.value.urgency == a.urgency.value
                        && r.value.inference == a.inference.value && r.value.reasoning == a.reasoning.value
  {
    if a.shouldOverride.Some? && a.action.Some? && a.confidence.Some? && a.reasoning.Some?
       && a.urgency.Some? && a.inference.Some?
    then Some(ContextAnalysis(a.shouldOverride.value, a.action.value, a.confidence.value, a.reasoning.value,
                              a.urgency.value, a.inference.value))
    else None
  }

  // ---------------------------------------------------------------------
  // The trigger predicate
  // ---------------------------------------------------------------------

  const LowerBoundary: real := 0.4
  const UpperBoundary: real := 0.8
  const FailureThreshold: nat := 2

  const UrgentKeywords: seq<string> :=
    ["病気", "枯れ", "枯死", "緊急", "至急", "急いで", "すぐに", "異常", "変色", "しおれ", "倒伏", "害虫大発生"]
  const ContextualClues: seq<string> := ["いつもの", "例の", "前回と同じ", "昨日と同じ場所", "ハウス", "温室", "ビニールハウス"]

  /** `extracted_info.confidence_score or 0.0` */
  function ConfidenceOrZero(info: WorkInfo): (c: real)
    ensures info.confidence.Some? ==> c == info.confidence.value
    ensures info.confidence.None? ==> c == 0.0
  {
    if info.confidence.Some? then info.confidence.value else 0.0
  }

  predicate SomeMaterialFails(ms: seq<Check>)
  {
    exists i :: 0 <= i < |ms| && Failing(ms[i])
  }

  /** The number of failed kinds: the field, the crop, and the materials counted once together. */
  function FailedKinds(v: Verdict): (n: nat)
    ensures n <= 3
  {
    (if Failing(v.field) then 1 else 0) + (if Failing(v.crop) then 1 else 0)
    + (if SomeMaterialFails(v.materials) then 1 else 0)
  }

  /** What `should_use_intelligent_decision` answers. */
  predicate UsesIntelligentDecision(message: string, info: WorkInfo, v: Verdict)
  {
    var c := ConfidenceOrZero(info);
    if LowerBoundary < c < UpperBoundary then true
    else if ContainsAny(message, UrgentKeywords) then true
    else if FailedKinds(v) >= FailureThreshold then true
    else ContainsAny(message, ContextualClues)
  }

  /** `should_use_intelligent_decision`: the four tests in order, counting failed kinds on the way. */
  method ShouldUseIntelligentDecision(message: string, info: WorkInfo, v: Verdict) returns (r: bool)
    ensures r == UsesIntelligentDecision(message, info, v)
  {
    var c := ConfidenceOrZero(info);
    if LowerBoundary < c < UpperBoundary {
      return true;
    }
    if ContainsAny(message, UrgentKeywords) {
      return true;
    }
    var failures := 0;
    if Failing(v.field) {
      failures := failures + 1;
    }
    if Failing(v.crop) {
      failures := failures + 1;
    }
    var anyMaterial := false;
    for i := 0 to |v.materials|
      invariant anyMaterial <==> exists j :: 0 <= j < i && Failing(v.materials[j])
    {
      if Failing(v.materials[i]) {
        anyMaterial := true;
      }
    }
    if anyMaterial {
      failures := failures + 1;
    }
    if failures >= FailureThreshold {
      return true;
    }
    r := ContainsAny(message, ContextualClues);
  }

  /**
   * The trigger holds exactly when the confidence lies strictly inside
   * (0.4, 0.8), an urgent keyword or a contextual clue occurs, or at least
   * two kinds of entity failed; any number of failing materials alone is
   * one kind and never reaches the threshold.
   */
  lemma TriggerConditions(message: string, info: WorkInfo, v: Verdict)
    ensures UsesIntelligentDecision(message, info, v) <==>
              (0.4 < ConfidenceOrZero(info) < 0.8) || ContainsAny(message, UrgentKeywords)
              || ContainsAny(message, ContextualClues) || FailedKinds(v) >= 2
    ensures !Failing(v.field) && !Failing(v.crop) ==> FailedKinds(v) < FailureThreshold
    ensures ContainsAny(message, UrgentKeywords) ==> UsesIntelligentDecision(message, info, v)
  {
  }

  // ---------------------------------------------------------------------
  // Classifying the model's answer
  // ---------------------------------------------------------------------

  /** The fixed confidence attached to each recommendation. */
  function ActionConfidence(a: Recommendation): real
  {
    match a
    case UrgentRegistration => 0.8
    case InferredRegistration => 0.7
    case ConfirmWithSuggestions => 0.6
    case RequestMoreInfo => 0.5
    case RequireConfirmation => 0.3
  }

  predicate UrgentHint(low: string)
  {
    Contains(low, "auto_register_urgent") || (Contains(low, "緊急") && Contains(low, "自動"))
  }

  predicate InferredHint(low: string)
  {
    Contains(low, "auto_register_inferred") || (Contains(low, "推測") && Contains(low, "自動"))
  }

  predicate SuggestionHint(low: string)
  {
    Contains(low, "confirm_with_suggestions") || Contains(low, "提案")
  }

  predicate MoreInfoHint(low: string)
  {
    Contains(low, "request_more_info") || Contains(low, "詳細")
  }

  /** The recommendation of a lower-cased answer: the first hint found, in priority order. */
  function RecommendationOf(low: string): (a: Recommendation)
    ensures a == UrgentRegistration <==> UrgentHint(low)
    ensures a == InferredRegistration <==> !UrgentHint(low) && InferredHint(low)
    ensures a == ConfirmWithSuggestions <==> !UrgentHint(low) && !InferredHint(low) && SuggestionHint(low)
    ensures a == RequestMoreInfo <==>
              !UrgentHint(low) && !InferredHint(low) && !SuggestionHint(low) && MoreInfoHint(low)
    ensures a == RequireConfirmation <==>
              !UrgentHint(low) && !InferredHint(low) && !SuggestionHint(low) && !MoreInfoHint(low)
  {
    if UrgentHint(low) then UrgentRegistration
    else if InferredHint(low) then InferredRegistration
    else if SuggestionHint(low) then ConfirmWithSuggestions
    else if MoreInfoHint(low) then RequestMoreInfo
    else RequireConfirmation
  }

  /** The urgency of a lower-cased answer, in the order critical, high, medium, low. */
  function UrgencyOf(low: string): (u: Urgency)
    ensures u == Critical <==> Contains(low, "critical") || Contains(low, "生死")
    ensures u == Urgency.High <==>
              !(Contains(low, "critical") || Contains(low, "生死")) && (Contains(low, "high") || Contains(low, "緊急"))
    ensures u == Urgency.Medium <==>
              !(Contains(low, "critical") || Contains(low, "生死")) && !(Contains(low, "high") || Contains(low, "緊急"))
              && Contains(low, "medium")
  {
    if Contains(low, "critical") || Contains(low, "生死") then Critical
    else if Contains(low, "high") || Contains(low, "緊急") then Urgency.High
    else if Contains(low, "medium") then Urgency.Medium
    else Urgency.Low
  }

  const ReasoningLimit: nat := 500

  /** `_parse_llm_response`: classify the answer and keep its first 500 characters as the reasoning. */
  function ParseLlmResponse(response: string, v: Verdict): (a: ContextAnalysis)
    ensures a.action == RecommendationOf(Lower(response)) && a.urgency == UrgencyOf(Lower(response))
    ensures a.confidence == ActionConfidence(a.action)
    ensures a.shouldOverride <==> a.action != RequireConfirmation
    ensures |a.reasoning| == (if |response| < ReasoningLimit then |response| else ReasoningLimit)
    ensures a.reasoning == response[..|a.reasoning|]
    ensures a.inference.Some? <==> Contains(Lower(response), "推測") && v.missingInfo != []
    ensures a.inference.Some? ==> a.inference.value == []
  {
    var low := Lower(response);
    var action := RecommendationOf(low);
    var inference: Option<Inference> := if Contains(low, "推測") && v.missingInfo != [] then Some([]) else None;
    var args := Arguments(Some(action != RequireConfirmation), Some(action), Some(ActionConfidence(action)),
                          Some(Take(response, ReasoningLimit)), Some(UrgencyOf(low)), Some(inference));
    Validate(args).value
  }

  /** The confidences fall strictly along the priority order of the recommendations. */
  lemma ConfidenceFollowsPriority(response: string, v: Verdict)
    ensures var a := ParseLlmResponse(response, v);
            (a.action == UrgentRegistration <==> a.confidence == 0.8)
            && (a.action == RequireConfirmation <==> a.confidence == 0.3)
            && 0.3 <= a.confidence <= 0.8
  {
  }

  // ---------------------------------------------------------------------
  // analyze_context
  // ---------------------------------------------------------------------

  /** The model's answer, or the text of the exception its call raised. */
  datatype Reply = Answered(text: string) | CallFailed(error: string)

  const HistoryWindow: nat := 5

  /** `user_history[-5:]`: the entries that go into the prompt. */
  function RecentHistory<T>(history: seq<T>): (r: seq<T>)
    ensures |r| == if |history| < HistoryWindow then |history| else HistoryWindow
    ensures r == history[|history| - |r|..]
  {
    if |history| <= HistoryWindow then history else history[|history| - HistoryWindow..]
  }

  function FallbackReasoning(error: string): string
  {
    "LLM分析エラーのため安全側の判断: " + error
  }

  /** The arguments the `except` branch of `analyze_context` passes: `missing_info_inference` is left out. */
  function FallbackArgumentsAsWritten(error: string): Arguments
  {
    Arguments(Some(false), Some(RequireConfirmation), Some(0.0), Some(FallbackReasoning(error)), Some(Urgency.Low), None)
  }

  /**
   * `analyze_context` as written: None stands for the validation error the
   * `except` branch raises while building its fallback value.
   */
  function AnalyzeContextAsWritten(reply: Reply, v: Verdict): Option<ContextAnalysis>
  {
    match reply
    case Answered(text) => Some(ParseLlmResponse(text, v))
    case CallFailed(error) => Validate(FallbackArgumentsAsWritten(error))
  }

  /** A failed model call makes `analyze_context` itself raise instead of returning its safe value. */
  lemma FallbackRaisesAsWritten(error: string, v: Verdict)
    ensures AnalyzeContextAsWritten(CallFailed(error), v).None?
  {
  }

  /** The fallback arguments with the inference passed explicitly as None. */
  function FallbackArguments(error: string): Arguments
  {
    Arguments(Some(false), Some(RequireConfirmation), Some(0.0), Some(FallbackReasoning(error)), Some(Urgency.Low), Some(None))
  }

  /**
   * `analyze_context` with the fallback value built as intended: a failed
   * call recommends the ordinary confirmation flow with confidence 0.0, no
   * override, low urgency and no inference; an answer is classified exactly
   * as the code as written does.
   */
  function AnalyzeContext(reply: Reply, v: Verdict): (a: ContextAnalysis)
    ensures reply.CallFailed? ==>
              a.action == RequireConfirmation && a.confidence == 0.0 && !a.shouldOverride
              && a.urgency == Urgency.Low && a.inference.None?
    ensures reply.Answered? ==> AnalyzeContextAsWritten(reply, v) == Some(a)
  {
    match reply
    case Answered(text) => ParseLlmResponse(text, v)
    case CallFailed(error) => Validate(FallbackArguments(error)).value
  }
}
