/**
 * The strategy factory: the four registration strategies, their names,
 * the default priority order (automatic, contextual judgement, enhanced
 * confirmation, basic confirmation) and custom orders built from a list
 * of names; and the routing of a report through the default order.
 */
module StrategyFactory {
  import opened Common
  import opened Records
  import opened RegistrationStrategy
  import AutoRegistration
  import IntelligentRegistration
  import ConfirmationFlow

  datatype Strategy = Auto | Intelligent | Enhanced | Basic

  /** `strategy_name` */
  function StrategyName(s: Strategy): string
  {
    match s
    case Auto => AutoRegistration.Name
    case Intelligent => IntelligentRegistration.Name
    case Enhanced => ConfirmationFlow.EnhancedName
    case Basic => ConfirmationFlow.BasicName
  }

  /** `can_handle` of each strategy. */
  predicate CanHandle(s: Strategy, info: WorkInfo, v: Verdict)
  {
    match s
    case Auto => AutoRegistration.CanHandle(info, v)
    case Intelligent => IntelligentRegistration.CanHandle(info, v)
    case Enhanced => ConfirmationFlow.EnhancedCanHandle(info, v)
    case Basic => ConfirmationFlow.BasicCanHandle(info, v)
  }

  /** `execute` of each strategy. */
  function Execute(s: Strategy, info: WorkInfo, v: Verdict, message: string, userId: string, w: World): Run
  {
    match s
    case Auto => AutoRegistration.AutoRun(info, v, message, userId, w)
    case Intelligent => IntelligentRegistration.IntelligentRun(info, v, message, userId, w)
    case Enhanced => ConfirmationFlow.EnhancedRun(info, v, message, userId, w)
    case Basic => ConfirmationFlow.BasicRun(info, v, message, userId, w)
  }

  function Handles(info: WorkInfo, v: Verdict): Strategy -> bool
  {
    s => CanHandle(s, info, v)
  }

  function Executes(info: WorkInfo, v: Verdict, message: string, userId: string, w: World): Strategy -> Run
  {
    s => Execute(s, info, v, message, userId, w)
  }

  // ---------------------------------------------------------------------
  // The default order and the names
  // ---------------------------------------------------------------------

  const DefaultOrder: seq<Strategy> := [Auto, Intelligent, Enhanced, Basic]

  /** `_create_ordered_strategies`: the four strategies appended in priority order. */
  method CreateOrderedStrategies() returns (ss: seq<Strategy>)
    ensures ss == DefaultOrder
  {
    ss := [];
    ss := ss + [Auto];
    ss := ss + [Intelligent];
    ss := ss + [Enhanced];
    ss := ss + [Basic];
  }

  /** `create_strategy_context` */
  method CreateStrategyContext() returns (c: StrategyContext<Strategy>)
    ensures fresh(c) && c.strategies == DefaultOrder
  {
    var ss := CreateOrderedStrategies();
    c := new StrategyContext(ss);
  }

  function Names(ss: seq<Strategy>): (r: seq<string>)
    ensures |r| == |ss| && forall i :: 0 <= i < |ss| ==> r[i] == StrategyName(ss[i])
  {
    seq(|ss|, i requires 0 <= i < |ss| => StrategyName(ss[i]))
  }

  /** `get_strategy_names`: the four names in priority order. */
  function GetStrategyNames(): (r: seq<string>)
    ensures r == ["自動登録戦略", "知的判断戦略", "拡張確認フロー戦略", "確認フロー戦略"]
  {
    Names(DefaultOrder)
  }

  // ---------------------------------------------------------------------
  // Custom orders
  // ---------------------------------------------------------------------

  /** `strategy_map`: the strategy a name stands for, if any. */
  function ByName(name: string): (r: Option<Strategy>)
    ensures r.Some? ==> StrategyName(r.value) == name
    ensures r.None? <==> name !in GetStrategyNames()
  {
    if name == AutoRegistration.Name then Some(Auto)
    else if name == IntelligentRegistration.Name then Some(Intelligent)
    else if name == ConfirmationFlow.EnhancedName then Some(Enhanced)
    else if name == ConfirmationFlow.BasicName then Some(Basic)
    else None
  }

  /** The strategies the known names stand for, in the order given. */
  function Known(names: seq<string>): (r: seq<Strategy>)
    ensures |r| <= |names|
    decreases |names|
  {
    if names == [] then []
    else
      var front := Known(names[..|names| - 1]);
      match ByName(names[|names| - 1])
      case Some(s) => front + [s]
      case None => front
  }

  /** The names of `names` that name a strategy, in the order given. */
  function KnownNames(names: seq<string>): (r: seq<string>)
    ensures forall n :: n in r ==> n in names && n in GetStrategyNames()
    decreases |names|
  {
    if names == [] then []
    else
      var n := names[|names| - 1];
      KnownNames(names[..|names| - 1]) + if n in GetStrategyNames() then [n] else []
  }

  /** The strategy list `create_custom_strategy_context` builds. */
  function CustomOrder(names: seq<string>): seq<Strategy>
  {
    if Known(names) == [] then DefaultOrder else Known(names)
  }

  /** `create_custom_strategy_context`: known names in order, unknown ones skipped, the default when none is known. */
  method CreateCustomStrategyContext(names: seq<string>) returns (c: StrategyContext<Strategy>)
    ensures fresh(c) && c.strategies == CustomOrder(names)
  {
    var ss: seq<Strategy> := [];
    for i := 0 to |names|
      invariant ss == Known(names[..i])
    {
      assert names[..i + 1][..i] == names[..i];
      var s := ByName(names[i]);
      if s.Some? {
        ss := ss + [s.value];
      }
    }
    assert names[..|names|] == names;
    if ss == [] {
      ss := CreateOrderedStrategies();
    }
    c := new StrategyContext(ss);
  }

  /** The strategies of a custom list carry exactly the known names, in the requested order. */
  lemma {:induction false} KnownKeepsOrder(names: seq<string>)
    ensures Names(Known(names)) == KnownNames(names)
    decreases |names|
  {
    if names != [] {
      var front := names[..|names| - 1];
      KnownKeepsOrder(front);
      var n := names[|names| - 1];
      match ByName(n)
      case Some(s) =>
        assert Names(Known(names)) == Names(Known(front)) + [StrategyName(s)];
      case None =>
    }
  }

  /**
   * A custom list is never empty: it holds the known names' strategies in
   * the requested order, or, when no name is known, the default order.
   */
  lemma CustomOrderShape(names: seq<string>)
    ensures CustomOrder(names) != []
    ensures KnownNames(names) != [] ==> Names(CustomOrder(names)) == KnownNames(names)
    ensures KnownNames(names) == [] ==> CustomOrder(names) == DefaultOrder
  {
    KnownKeepsOrder(names);
  }

  // ---------------------------------------------------------------------
  // Routing through the default order
  // ---------------------------------------------------------------------

  /** The strategy the default order picks for a report. */
  function Route(info: WorkInfo, v: Verdict): (s: Strategy)
    ensures CanHandle(s, info, v)
  {
    var h := Handles(info, v);
    assert h(DefaultOrder[3]);
    assert FirstIndex(DefaultOrder, h).Some?;
    Select(DefaultOrder, h).value
  }

  /**
   * The basic strategy takes every report, so selection over the default
   * order always finds a strategy that can handle the report and never
   * falls back; the one picked is the first of automatic, contextual,
   * enhanced and basic that can.
   */
  lemma DefaultRouting(info: WorkInfo, v: Verdict)
    ensures FirstIndex(DefaultOrder, Handles(info, v)).Some?
    ensures Select(DefaultOrder, Handles(info, v)) == Some(Route(info, v))
    ensures Route(info, v) ==
              if AutoRegistration.CanHandle(info, v) then Auto
              else if IntelligentRegistration.CanHandle(info, v) then Intelligent
              else if ConfirmationFlow.EnhancedCanHandle(info, v) then Enhanced
              else Basic
  {
    var h := Handles(info, v);
    assert h(DefaultOrder[3]);
    var k := FirstIndex(DefaultOrder, h);
    assert k.Some?;
  }

  /** The run of the strategy the default order picks. */
  function Registration(info: WorkInfo, v: Verdict, message: string, userId: string, w: World): Run
  {
    Execute(Route(info, v), info, v, message, userId, w)
  }

  /**
   * A report goes through the default order: an exception escapes only
   * from the automatic strategy, and only the automatic and contextual
   * strategies write to the work log, at most one record.
   */
  lemma RegistrationOutcomes(info: WorkInfo, v: Verdict, message: string, userId: string, w: World)
    ensures var run := Registration(info, v, message, userId, w);
            |run.written| <= 1
            && (run.outcome.Raised? ==> Route(info, v) == Auto)
            && (run.written != [] ==> Route(info, v) == Auto || Route(info, v) == Intelligent)
  {
  }

  /** Create the default context and let it run the best strategy for the report. */
  method RegisterWithDefaultContext(info: WorkInfo, v: Verdict, message: string, userId: string, w: World)
    returns (run: Run)
    ensures run == Registration(info, v, message, userId, w)
  {
    var c := CreateStrategyContext();
    DefaultRouting(info, v);
    var r := c.ExecuteBestStrategy(Handles(info, v), Executes(info, v, message, userId, w));
    run := r.value;
  }
}
