/**
 * What every registration strategy shares: the outside world a strategy
 * run depends on, the work-log record it may write, the result it returns,
 * and the context that picks the first strategy able to handle a report,
 * falling back to the last one.
 */
module RegistrationStrategy {
  import opened Common
  import opened Records
  import DecisionService

  // ---------------------------------------------------------------------
  // The outside world of one run
  // ---------------------------------------------------------------------

  /**
   * The values a run takes from outside: today's date as a day number, the
   * log id built from the clock and a random uuid, the error the database
   * insert raises (if it does), the language model's reply to the run's
   * first contextual analysis and to the second one the enhanced
   * confirmation makes when the intelligent strategy hands over to it, and
   * the error raised when the service provider cannot supply a service (if
   * it does).
   */
  datatype World = World(
    today: int,
    logId: string,
    insertError: Option<string>,
    reply: DecisionService.Reply,
    secondReply: DecisionService.Reply,
    serviceError: Option<string>)

  // ---------------------------------------------------------------------
  // The work-log record
  // ---------------------------------------------------------------------

  /** A verified entity in the record: its id, its name and the match confidence. */
  datatype EntityRef = EntityRef(id: Option<string>, name: Option<string>, confidence: real)

  /**
   * `extracted_data`: the scorer's confidence, the strategy that built it,
   * the verified field and crop, the verified material ids and names (the
   * keys are absent when the lists would be empty), and the optional
   * quantity, unit, work count and notes.
   */
  datatype LogData = LogData(
    confidence: Option<real>,
    strategyUsed: string,
    field: Option<EntityRef>,
    crop: Option<EntityRef>,
    materialIds: seq<Option<string>>,
    materialNames: seq<Option<string>>,
    quantity: Option<real>,
    unit: Option<string>,
    workCount: Option<int>,
    notes: Option<string>)

  /** The document inserted into `work_logs`; the work date is a day number. */
  datatype LogRecord = LogRecord(
    logId: string,
    userId: string,
    workDate: int,
    originalMessage: string,
    data: LogData,
    category: Category,
    tags: seq<Category>)

  // ---------------------------------------------------------------------
  // The result of a run
  // ---------------------------------------------------------------------

  /** The `intelligent_analysis` a contextual registration adds to its result. */
  datatype Note =
    | UrgentNote(urgency: DecisionService.Urgency, reasoning: string, confidence: real)
    | InferredNote(inferred: Option<DecisionService.Inference>, reasoning: string, confidence: real)

  /** The `llm_analysis` of an enhanced confirmation. */
  datatype Summary = Summary(urgency: DecisionService.Urgency, reasoning: string, confidence: real,
                             action: DecisionService.Recommendation)

  /**
   * The dictionary a strategy returns, or the exception it lets through:
   * a registration (`success` true, `requires_confirmation` false,
   * `registration_type` auto); a confirmation request (`success` true,
   * `requires_confirmation` true, `registration_type`
   * `confirmation_required`, or `enhanced_confirmation_required` when it
   * carries a summary); a failed confirmation (`success` false); or a
   * raised exception.
   */
  datatype Outcome =
    | Registered(record: LogRecord, confidence: Option<real>, strategyUsed: string, note: Option<Note>)
    | ConfirmationRequired(confirmation: Confirmation, originalMessage: string, userId: string,
                           confidence: Option<real>, summary: Option<Summary>, strategyUsed: string)
    | ConfirmationFailed(error: string, strategyUsed: string)
    | Raised(error: string)

  /** A run: its outcome and the records it wrote to the database, in order. */
  datatype Run = Run(outcome: Outcome, written: seq<LogRecord>)

  // ---------------------------------------------------------------------
  // Selecting a strategy
  // ---------------------------------------------------------------------

  /**
   * The strategy `execute_best_strategy` runs: the first one in list order
   * that can handle the report, else the last one; None when the list is
   * empty, where `self.strategies[-1]` raises.
   */
  function Select<S>(ss: seq<S>, handles: S -> bool): (r: Option<S>)
    ensures r.None? <==> ss == []
    ensures r.Some? ==> exists i :: 0 <= i < |ss| && r.value == ss[i]
  {
    match FirstIndex(ss, handles)
    case Some(i) => Some(ss[i])
    case None => if ss == [] then None else Some(ss[|ss| - 1])
  }

  /**
   * First match wins: when some strategy can handle the report, the one
   * selected can, and no strategy before it can; when none can, the last
   * one is selected.
   */
  lemma SelectFirstMatch<S>(ss: seq<S>, handles: S -> bool)
    ensures (exists i :: 0 <= i < |ss| && handles(ss[i])) ==>
              exists i :: 0 <= i < |ss| && handles(ss[i]) && Select(ss, handles) == Some(ss[i])
                          && forall j :: 0 <= j < i ==> !handles(ss[j])
    ensures (forall i :: 0 <= i < |ss| ==> !handles(ss[i])) && ss != [] ==>
              Select(ss, handles) == Some(ss[|ss| - 1])
  {
    if exists i :: 0 <= i < |ss| && handles(ss[i]) {
      var k := FirstIndex(ss, handles);
      assert k.Some?;
    }
  }

  /** `RegistrationStrategyContext`: an ordered list of strategies. */
  class StrategyContext<S> {
    var strategies: seq<S>

    constructor(ss: seq<S>)
      ensures strategies == ss
    {
      strategies := ss;
    }

    /**
     * `execute_best_strategy`: try each strategy in order and run the first
     * that can handle the report, else run the last one.  `handles` and
     * `execute` are the strategies' `can_handle` and `execute` on this
     * report; None stands for the IndexError of an empty list.
     */
    method ExecuteBestStrategy(handles: S -> bool, execute: S -> Run) returns (r: Option<Run>)
      ensures Select(strategies, handles).None? ==> r.None?
      ensures Select(strategies, handles).Some? ==> r == Some(execute(Select(strategies, handles).value))
    {
      for i := 0 to |strategies|
        invariant forall j :: 0 <= j < i ==> !handles(strategies[j])
      {
        if handles(strategies[i]) {
          assert FirstIndex(strategies, handles) == Some(i);
          return Some(execute(strategies[i]));
        }
      }
      if strategies == [] {
        return None;
      }
      r := Some(execute(strategies[|strategies| - 1]));
    }
  }
}
