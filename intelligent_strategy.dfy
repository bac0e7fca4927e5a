/**
 * The contextual-judgement strategy: a valid report in the grey zone of
 * confidence with one or two missing items is handed to the language
 * model's contextual analysis, whose recommendation decides between an
 * urgent automatic registration, an automatic registration with inferred
 * values filled in, an enhanced confirmation and a plain one.  Every
 * failure along the way ends in the plain confirmation.
 */
module IntelligentRegistration {
  import opened Common
  import opened Records
  import opened RegistrationStrategy
  import DecisionService
  import AutoRegistration
  import ConfirmationFlow

  const Name: string := "知的判断戦略"
  const UrgentName: string := Name + " → 緊急自動登録"
  const InferredName: string := Name + " → 推測自動登録"
  const NoteLimit: nat := 150

  // ---------------------------------------------------------------------
  // can_handle
  // ---------------------------------------------------------------------

  /** `can_handle`: the grey zone. */
  predicate CanHandle(info: WorkInfo, v: Verdict)
  {
    var confidence := DecisionService.ConfidenceOrZero(info);
    0.4 <= confidence < 0.8 && 1 <= |v.missingInfo| <= 2 && v.isValid
  }

  /**
   * The strategy takes a report exactly when the verdict is valid, the
   * confidence lies in [0.4, 0.8) and one or two items are missing; since
   * the automatic strategy needs a confidence of at least 0.8, no report is
   * taken by both.
   */
  lemma CanHandleConditions(info: WorkInfo, v: Verdict)
    ensures CanHandle(info, v) <==>
              v.isValid && info.confidence.Some? && 0.4 <= info.confidence.value < 0.8
              && 1 <= |v.missingInfo| <= 2
    ensures !(CanHandle(info, v) && AutoRegistration.CanHandle(info, v))
  {
  }

  // ---------------------------------------------------------------------
  // _apply_llm_inferences
  // ---------------------------------------------------------------------

  /** The text-valued keys of `ExtractedWorkInfo` an inference can fill. */
  const TextKeys: seq<string> := ["work_date", "field_name", "crop_name", "work_category", "unit", "notes"]

  /**
   * `updated_data` while inferences are applied: the report, with the
   * category held as the raw text it will be validated from, and whether a
   * text has been put where the material list belongs.
   */
  datatype Draft = Draft(info: WorkInfo, category: Option<string>, textMaterials: bool)

  function DraftOf(info: WorkInfo): Draft
  {
    Draft(info, CategoryText(info), false)
  }

  /** The category as `.dict()` holds it. */
  function CategoryText(info: WorkInfo): (s: Option<string>)
    ensures s.Some? <==> info.workCategory.Some?
  {
    if info.workCategory.Some? then Some(CategoryName(info.workCategory.value)) else None
  }

  /** The value a text key holds in a report. */
  function InfoText(info: WorkInfo, k: string): Option<string>
    requires k in TextKeys
  {
    if k == "work_date" then info.workDate
    else if k == "field_name" then info.fieldName
    else if k == "crop_name" then info.cropName
    else if k == "work_category" then CategoryText(info)
    else if k == "unit" then info.unit
    else info.notes
  }

  /** The value a text key holds in the draft. */
  function Get(d: Draft, k: string): Option<string>
    requires k in TextKeys
  {
    if k == "work_category" then d.category
    else InfoText(d.info, k)
  }

  /** `updated_data[key] = value` for a text key. */
  function Put(d: Draft, k: string, x: string): (r: Draft)
    requires k in TextKeys
    ensures Get(r, k) == Some(x)
    ensures forall k' :: k' in TextKeys && k' != k ==> Get(r, k') == Get(d, k')
    ensures r.info.materials == d.info.materials && r.info.quantity == d.info.quantity
    ensures r.info.workCount == d.info.workCount && r.info.confidence == d.info.confidence
    ensures r.info.workCategory == d.info.workCategory && r.textMaterials == d.textMaterials
  {
    if k == "work_date" then d.(info := d.info.(workDate := Some(x)))
    else if k == "field_name" then d.(info := d.info.(fieldName := Some(x)))
    else if k == "crop_name" then d.(info := d.info.(cropName := Some(x)))
    else if k == "work_category" then d.(category := Some(x))
    else if k == "unit" then d.(info := d.info.(unit := Some(x)))
    else d.(info := d.info.(notes := Some(x)))
  }

  /** One step of the loop: fill the key when the report has it and its value is falsy. */
  function Fill(d: Draft, p: (string, string)): (r: Draft)
    ensures r.info.materials == d.info.materials && r.info.quantity == d.info.quantity
    ensures r.info.workCount == d.info.workCount && r.info.confidence == d.info.confidence
    ensures r.info.workCategory == d.info.workCategory
  {
    var (k, x) := p;
    if k in TextKeys then
      if Truthy(Get(d, k)) then d else Put(d, k, x)
    else if k == "materials" && d.info.materials == [] then d.(textMaterials := true)
    else d
  }

  /** The loop over the inferences, in order. */
  function FillAll(d: Draft, ps: seq<(string, string)>): (r: Draft)
    ensures r.info.materials == d.info.materials && r.info.quantity == d.info.quantity
    ensures r.info.workCount == d.info.workCount && r.info.confidence == d.info.confidence
    ensures r.info.workCategory == d.info.workCategory
    decreases |ps|
  {
    if ps == [] then d else Fill(FillAll(d, ps[..|ps| - 1]), ps[|ps| - 1])
  }

  /**
   * `ExtractedWorkInfo(**updated_data)`: None for the validation error of
   * a text in place of the material list or a category outside the six.
   */
  function Finish(d: Draft): (r: Option<WorkInfo>)
    ensures r.Some? ==> forall k :: k in TextKeys ==> InfoText(r.value, k) == Get(d, k)
  {
    if d.textMaterials then None
    else match d.category
      case None => Some(d.info.(workCategory := None))
      case Some(s) =>
        match ParseCategory(s)
        case None => None
        case Some(c) => Some(d.info.(workCategory := Some(c)))
  }

  /** `_apply_llm_inferences`: None for the validation error of the rebuilt report. */
  function ApplyLlmInferences(info: WorkInfo, ps: DecisionService.Inference): Option<WorkInfo>
  {
    Finish(FillAll(DraftOf(info), ps))
  }

  /**
   * What the loop does to one text key: a truthy value is never replaced;
   * a changed value is one of the inferences for that key; and a falsy
   * value with a non-empty inference for it ends truthy.
   */
  lemma {:induction false} FillAllText(d: Draft, ps: seq<(string, string)>, k: string)
    requires k in TextKeys
    ensures Truthy(Get(d, k)) ==> Get(FillAll(d, ps), k) == Get(d, k)
    ensures Get(FillAll(d, ps), k) == Get(d, k)
            || exists i :: 0 <= i < |ps| && ps[i].0 == k && Get(FillAll(d, ps), k) == Some(ps[i].1)
    ensures (exists i :: 0 <= i < |ps| && ps[i].0 == k && ps[i].1 != "") ==> Truthy(Get(FillAll(d, ps), k))
    decreases |ps|
  {
    if ps != [] {
      var front := ps[..|ps| - 1];
      var e := FillAll(d, front);
      FillAllText(d, front, k);
      assert FillAll(d, ps) == Fill(e, ps[|ps| - 1]);
      if Get(FillAll(d, ps), k) != Get(e, k) {
        assert ps[|ps| - 1].0 == k && Get(FillAll(d, ps), k) == Some(ps[|ps| - 1].1);
      } else if Get(FillAll(d, ps), k) != Get(d, k) {
        var i :| 0 <= i < |front| && front[i].0 == k && Get(e, k) == Some(front[i].1);
        assert ps[i] == front[i];
      }
      if exists i :: 0 <= i < |ps| && ps[i].0 == k && ps[i].1 != "" {
        var i :| 0 <= i < |ps| && ps[i].0 == k && ps[i].1 != "";
        if i < |front| {
          assert front[i] == ps[i];
        }
      }
    }
  }

  /** The draft's material flag is set exactly by a materials key meeting an empty list. */
  lemma {:induction false} FillAllMaterials(d: Draft, ps: seq<(string, string)>)
    requires !d.textMaterials
    ensures FillAll(d, ps).textMaterials <==>
              d.info.materials == [] && exists i :: 0 <= i < |ps| && ps[i].0 == "materials"
    decreases |ps|
  {
    if ps != [] {
      var front := ps[..|ps| - 1];
      FillAllMaterials(d, front);
      assert FillAll(d, ps) == Fill(FillAll(d, front), ps[|ps| - 1]);
      if exists i :: 0 <= i < |front| && front[i].0 == "materials" {
        var i :| 0 <= i < |front| && front[i].0 == "materials";
        assert ps[i] == front[i];
      }
      if exists i :: 0 <= i < |ps| && ps[i].0 == "materials" {
        var i :| 0 <= i < |ps| && ps[i].0 == "materials";
        if i < |front| {
          assert front[i] == ps[i];
        }
      }
    }
  }

  /** Inferences under keys the report does not have, or not text keys, leave the draft as it is. */
  lemma {:induction false} FillAllIgnoresOtherKeys(d: Draft, ps: seq<(string, string)>)
    requires forall i :: 0 <= i < |ps| ==> ps[i].0 !in TextKeys && ps[i].0 != "materials"
    ensures FillAll(d, ps) == d
    decreases |ps|
  {
    if ps != [] {
      FillAllIgnoresOtherKeys(d, ps[..|ps| - 1]);
    }
  }

  /**
   * Applying inferences fills only keys the report has whose value is
   * falsy: a truthy text is kept, a changed text is one of the inferences
   * for its key, a falsy text with a non-empty inference becomes truthy,
   * and the materials, quantity, work count and confidence are never
   * changed.  The rebuilt report fails validation exactly when a text
   * lands on an empty material list or the category is not one of the six.
   */
  lemma ApplyLlmInferencesSpec(info: WorkInfo, ps: DecisionService.Inference, k: string)
    requires k in TextKeys
    ensures var r := ApplyLlmInferences(info, ps);
            r.Some? ==> r.value.materials == info.materials && r.value.quantity == info.quantity
                        && r.value.workCount == info.workCount && r.value.confidence == info.confidence
    ensures var r := ApplyLlmInferences(info, ps);
            r.Some? ==> (Truthy(InfoText(info, k)) ==> InfoText(r.value, k) == InfoText(info, k))
    ensures var r := ApplyLlmInferences(info, ps);
            r.Some? ==> (InfoText(r.value, k) == InfoText(info, k)
                         || exists i :: 0 <= i < |ps| && ps[i].0 == k && InfoText(r.value, k) == Some(ps[i].1))
    ensures var r := ApplyLlmInferences(info, ps);
            r.Some? && (exists i :: 0 <= i < |ps| && ps[i].0 == k && ps[i].1 != "") ==> Truthy(InfoText(r.value, k))
    ensures var r := ApplyLlmInferences(info, ps);
            var c := FillAll(DraftOf(info), ps).category;
            r.None? <==> (info.materials == [] && exists i :: 0 <= i < |ps| && ps[i].0 == "materials")
                         || (c.Some? && ParseCategory(c.value).None?)
  {
    var d := DraftOf(info);
    assert Get(d, k) == InfoText(info, k);
    FillAllText(d, ps, k);
    FillAllMaterials(d, ps);
    var f := FillAll(d, ps);
    assert ApplyLlmInferences(info, ps) == Finish(f);
    assert Finish(f).None? <==> f.textMaterials || (f.category.Some? && ParseCategory(f.category.value).None?);
  }

  /** With no inference under a key the report has, the report comes back unchanged. */
  lemma ApplyLlmInferencesIgnoresOtherKeys(info: WorkInfo, ps: DecisionService.Inference)
    requires forall i :: 0 <= i < |ps| ==> ps[i].0 !in TextKeys && ps[i].0 != "materials"
    ensures ApplyLlmInferences(info, ps) == Some(info)
  {
    FillAllIgnoresOtherKeys(DraftOf(info), ps);
    if info.workCategory.Some? {
      ParseCategoryName(info.workCategory.value);
    }
  }

  /** `_apply_llm_inferences`, as the loop over the inferences it is. */
  method ApplyInferences(info: WorkInfo, ps: DecisionService.Inference) returns (r: Option<WorkInfo>)
    ensures r == ApplyLlmInferences(info, ps)
  {
    var d := DraftOf(info);
    for i := 0 to |ps|
      invariant d == FillAll(DraftOf(info), ps[..i])
    {
      assert ps[..i + 1][..i] == ps[..i];
      d := Fill(d, ps[i]);
    }
    assert ps[..|ps|] == ps;
    r := Finish(d);
  }

  // ---------------------------------------------------------------------
  // execute and _execute_based_on_analysis
  // ---------------------------------------------------------------------

  /** The except branch of `execute`: the basic confirmation, after whatever was already written. */
  function Recover(written: seq<LogRecord>, info: WorkInfo, v: Verdict, message: string, userId: string, w: World): (run: Run)
    ensures run.written == written && !run.outcome.Raised? && !run.outcome.Registered?
  {
    Run(ConfirmationFlow.BasicRun(info, v, message, userId, w).outcome, written)
  }

  /** A committed automatic run, relabelled and annotated; a raised one recovers. */
  function Commit(r: Run, tag: string, note: Note, info: WorkInfo, v: Verdict, message: string, userId: string,
                  w: World): (run: Run)
    ensures run.written == r.written
    ensures run.outcome.Registered? <==> r.outcome.Registered?
    ensures run.outcome.Registered? ==>
              run.outcome == r.outcome.(strategyUsed := tag, note := Some(note))
    ensures !run.outcome.Registered? ==> run == Recover(r.written, info, v, message, userId, w)
  {
    if r.outcome.Registered? then Run(r.outcome.(strategyUsed := tag, note := Some(note)), r.written)
    else Recover(r.written, info, v, message, userId, w)
  }

  /** `_execute_urgent_registration` */
  function UrgentRun(a: DecisionService.ContextAnalysis, info: WorkInfo, v: Verdict, message: string,
                     userId: string, w: World): Run
  {
    var note := UrgentNote(a.urgency, Take(a.reasoning, NoteLimit), a.confidence);
    Commit(AutoRegistration.AutoRun(info, v, message, userId, w), UrgentName, note, info, v, message, userId, w)
  }

  /** `_execute_inferred_registration`: the inferences go in first when there are any. */
  function InferredRun(a: DecisionService.ContextAnalysis, info: WorkInfo, v: Verdict, message: string,
                       userId: string, w: World): Run
  {
    var target := if a.inference.Some? && a.inference.value != [] then ApplyLlmInferences(info, a.inference.value)
                  else Some(info);
    match target
    case None => Recover([], info, v, message, userId, w)
    case Some(updated) =>
      var note := InferredNote(a.inference, Take(a.reasoning, NoteLimit), a.confidence);
      Commit(AutoRegistration.AutoRun(updated, v, message, userId, w), InferredName, note, info, v, message, userId, w)
  }

  /** `_execute_based_on_analysis` */
  function Dispatch(a: DecisionService.ContextAnalysis, info: WorkInfo, v: Verdict, message: string,
                    userId: string, w: World): Run
  {
    match a.action
    case UrgentRegistration => UrgentRun(a, info, v, message, userId, w)
    case InferredRegistration => InferredRun(a, info, v, message, userId, w)
    case ConfirmWithSuggestions => ConfirmationFlow.EnhancedRun(info, v, message, userId, SecondCall(w))
    case _ => ConfirmationFlow.BasicRun(info, v, message, userId, w)
  }

  /** The world the enhanced confirmation sees: its own analysis gets the model's second reply. */
  function SecondCall(w: World): (w2: World)
    ensures w2.reply == w.secondReply && w2.serviceError == w.serviceError
  {
    w.(reply := w.secondReply)
  }

  /**
   * `execute`: analyse the reply and act on the recommendation; a failing
   * service provider, or an analysis that raises because the model call
   * failed, ends in the basic confirmation.  No exception gets
   * out, at most one record is written, and a registration carries its
   * label and a note whose reasoning is cut to 150 characters.
   */
  function IntelligentRun(info: WorkInfo, v: Verdict, message: string, userId: string, w: World): (run: Run)
    ensures !run.outcome.Raised?
    ensures |run.written| <= 1
    ensures w.serviceError.Some? ==> run == ConfirmationFlow.BasicRun(info, v, message, userId, w)
    ensures run.outcome.Registered? ==>
              (run.outcome.strategyUsed == UrgentName || run.outcome.strategyUsed == InferredName)
              && run.outcome.note.Some? && |run.outcome.note.value.reasoning| <= NoteLimit
              && run.written == [run.outcome.record]
  {
    if w.serviceError.Some? then ConfirmationFlow.BasicRun(info, v, message, userId, w)
    else
      match DecisionService.AnalyzeContextAsWritten(w.reply, v)
      case None => ConfirmationFlow.BasicRun(info, v, message, userId, w)
      case Some(a) => Dispatch(a, info, v, message, userId, w)
  }

  /**
   * The `except` branch that catches the failed analysis ends where the
   * intended safe value would have led: either way a failed model call
   * gives the basic confirmation.
   */
  lemma FailedCallGivesBasic(info: WorkInfo, v: Verdict, message: string, userId: string, w: World)
    requires w.reply.CallFailed?
    ensures IntelligentRun(info, v, message, userId, w) == ConfirmationFlow.BasicRun(info, v, message, userId, w)
    ensures w.serviceError.None? ==>
              Dispatch(DecisionService.AnalyzeContext(w.reply, v), info, v, message, userId, w)
                == IntelligentRun(info, v, message, userId, w)
  {
    DecisionService.FallbackRaisesAsWritten(w.reply.error, v);
  }

  /**
   * The recommendation decides: an urgent one registers as the automatic
   * strategy would, a suggestion one gives the enhanced confirmation, and
   * a request for more information or for confirmation gives the basic
   * one; an automatic registration that raises gives the basic
   * confirmation, keeping what was already written.  A failed model call
   * counts here as the safe recommendation to confirm.
   */
  lemma DispatchFollowsRecommendation(info: WorkInfo, v: Verdict, message: string, userId: string, w: World)
    requires w.serviceError.None?
    ensures var a := DecisionService.AnalyzeContext(w.reply, v);
            var run := IntelligentRun(info, v, message, userId, w);
            var auto := AutoRegistration.AutoRun(info, v, message, userId, w);
            && (a.action == DecisionService.ConfirmWithSuggestions ==>
                  run == ConfirmationFlow.EnhancedRun(info, v, message, userId, SecondCall(w)))
            && (a.action == DecisionService.RequestMoreInfo || a.action == DecisionService.RequireConfirmation ==>
                  run == ConfirmationFlow.BasicRun(info, v, message, userId, w))
            && (a.action == DecisionService.UrgentRegistration && auto.outcome.Registered? ==>
                  run.outcome.Registered? && run.outcome.record == auto.outcome.record
                  && run.outcome.strategyUsed == UrgentName && run.written == auto.written)
            && (a.action == DecisionService.UrgentRegistration && auto.outcome.Raised? ==>
                  run.outcome == ConfirmationFlow.BasicRun(info, v, message, userId, w).outcome
                  && run.written == auto.written)
  {
    if w.reply.CallFailed? {
      FailedCallGivesBasic(info, v, message, userId, w);
    }
  }

  /**
   * The reply parser only ever infers an empty dictionary, so the
   * inferences are never applied: a registration writes the very record
   * the automatic strategy builds from the report.
   */
  lemma RegistrationUsesReport(info: WorkInfo, v: Verdict, message: string, userId: string, w: World)
    ensures var run := IntelligentRun(info, v, message, userId, w);
            run.outcome.Registered? ==> run.outcome.record == AutoRegistration.RecordOf(info, v, message, userId, w)
  {
    if w.serviceError.None? && w.reply.Answered? {
      var a := DecisionService.ParseLlmResponse(w.reply.text, v);
      assert a.inference.Some? ==> a.inference.value == [];
    }
  }
}
