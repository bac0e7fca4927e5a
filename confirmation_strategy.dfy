/**
 * The two confirmation strategies.  The basic one takes every report and
 * asks the user to confirm it; the enhanced one takes reports of middling
 * confidence that come with suggestions, and adds a summary of the
 * language model's contextual analysis to the same confirmation.  Neither
 * writes to the work log.
 */
module ConfirmationFlow {
  import opened Common
  import opened Records
  import opened RegistrationStrategy
  import CF = Confirmation
  import DecisionService

  // ---------------------------------------------------------------------
  // ConfirmationStrategy
  // ---------------------------------------------------------------------

  const BasicName: string := "確認フロー戦略"

  /**
   * `ConfirmationStrategy.can_handle`: low confidence or many missing items,
   * a failed verdict, and every other report too; it is the fallback.
   */
  function BasicCanHandle(info: WorkInfo, v: Verdict): (r: bool)
    ensures r
  {
    var confidence := DecisionService.ConfidenceOrZero(info);
    if confidence < 0.6 || |v.missingInfo| >= 2 then true
    else if !v.isValid then true
    else true
  }

  /**
   * `ConfirmationStrategy.execute`: the confirmation the message builder
   * produces for this report, with the original message, the user and the
   * report's confidence; when the service provider cannot supply the
   * builder, a failed confirmation carrying the error.
   */
  function BasicRun(info: WorkInfo, v: Verdict, message: string, userId: string, w: World): (run: Run)
    ensures run.written == []
    ensures run.outcome.ConfirmationRequired? <==> w.serviceError.None?
    ensures run.outcome.ConfirmationFailed? <==> w.serviceError.Some?
    ensures run.outcome.ConfirmationRequired? ==>
              run.outcome.confirmation == CF.Confirm(info, v)
              && run.outcome.originalMessage == message && run.outcome.userId == userId
              && run.outcome.confidence == info.confidence
              && run.outcome.summary.None? && run.outcome.strategyUsed == BasicName
    ensures run.outcome.ConfirmationFailed? ==>
              run.outcome.error == w.serviceError.value && run.outcome.strategyUsed == BasicName
  {
    match w.serviceError
    case Some(e) => Run(ConfirmationFailed(e, BasicName), [])
    case None => Run(ConfirmationRequired(CF.Confirm(info, v), message, userId, info.confidence, None, BasicName), [])
  }

  // ---------------------------------------------------------------------
  // EnhancedConfirmationStrategy
  // ---------------------------------------------------------------------

  const EnhancedName: string := "拡張確認フロー戦略"
  const SummaryLimit: nat := 200

  /** `EnhancedConfirmationStrategy.can_handle` */
  predicate EnhancedCanHandle(info: WorkInfo, v: Verdict)
  {
    var confidence := DecisionService.ConfidenceOrZero(info);
    0.4 <= confidence < 0.7 && |v.missingInfo| <= 3 && v.suggestions != []
  }

  /**
   * The enhanced strategy takes a report exactly when its confidence (None
   * counting as 0.0) lies in [0.4, 0.7), at most three items are missing
   * and the verdict has suggestions.
   */
  lemma EnhancedCanHandleConditions(info: WorkInfo, v: Verdict)
    ensures EnhancedCanHandle(info, v) <==>
              info.confidence.Some? && 0.4 <= info.confidence.value < 0.7
              && |v.missingInfo| <= 3 && |v.suggestions| > 0
  {
  }

  /** The `llm_analysis` summary: the analysis with its reasoning cut to 200 characters. */
  function SummaryOf(a: DecisionService.ContextAnalysis): (s: Summary)
    ensures |s.reasoning| <= SummaryLimit && |s.reasoning| <= |a.reasoning|
    ensures s.reasoning == a.reasoning[..|s.reasoning|]
    ensures |a.reasoning| <= SummaryLimit ==> s.reasoning == a.reasoning
    ensures s.urgency == a.urgency && s.confidence == a.confidence && s.action == a.action
  {
    Summary(a.urgency, Take(a.reasoning, SummaryLimit), a.confidence, a.action)
  }

  /**
   * `EnhancedConfirmationStrategy.execute`: the contextual analysis of the
   * model's reply and the basic confirmation, together.  When the service
   * provider fails, or the analysis raises because the model call failed,
   * the `except` branch runs the basic strategy instead.
   */
  function EnhancedRun(info: WorkInfo, v: Verdict, message: string, userId: string, w: World): (run: Run)
    ensures run.written == []
    ensures w.serviceError.Some? || DecisionService.AnalyzeContextAsWritten(w.reply, v).None? ==>
              run == BasicRun(info, v, message, userId, w)
    ensures w.serviceError.None? && DecisionService.AnalyzeContextAsWritten(w.reply, v).Some? ==>
              run.outcome.ConfirmationRequired? && run.outcome.strategyUsed == EnhancedName
              && run.outcome.summary == Some(SummaryOf(DecisionService.AnalyzeContextAsWritten(w.reply, v).value))
  {
    if w.serviceError.Some? then BasicRun(info, v, message, userId, w)
    else
      match DecisionService.AnalyzeContextAsWritten(w.reply, v)
      case None => BasicRun(info, v, message, userId, w)
      case Some(analysis) =>
        var confirmation := CF.Confirm(info, v);
        Run(ConfirmationRequired(confirmation, message, userId, info.confidence, Some(SummaryOf(analysis)), EnhancedName), [])
  }

  /**
   * The enhanced run is the basic run with a summary added and its own
   * name: the same confirmation, message, user and confidence.  A model
   * call that failed gives exactly the basic run, and an answer gives the
   * summary of its parse.
   */
  lemma EnhancedExtendsBasic(info: WorkInfo, v: Verdict, message: string, userId: string, w: World)
    requires w.serviceError.None?
    ensures var e := EnhancedRun(info, v, message, userId, w).outcome;
            var b := BasicRun(info, v, message, userId, w).outcome;
            w.reply.Answered? ==> e == b.(summary := e.summary, strategyUsed := EnhancedName)
    ensures w.reply.Answered? ==>
              EnhancedRun(info, v, message, userId, w).outcome.summary
                == Some(SummaryOf(DecisionService.ParseLlmResponse(w.reply.text, v)))
    ensures w.reply.CallFailed? ==> EnhancedRun(info, v, message, userId, w) == BasicRun(info, v, message, userId, w)
  {
    if w.reply.CallFailed? {
      DecisionService.FallbackRaisesAsWritten(w.reply.error, v);
    }
  }
}
