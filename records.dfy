/**
 * The record shapes that flow through the work-report pipeline: the
 * extracted report (`ExtractedWorkInfo`), the validation verdict
 * (`WorkLogValidationResult`) with its per-entity dictionaries, and the
 * confirmation bundle (`UserConfirmationData`).
 */
module Records {
  import opened Common

  // ---------------------------------------------------------------------
  // Work categories: the `Literal[...]` of work_category
  // ---------------------------------------------------------------------

  datatype Category = PestControl | Fertilizing | Cultivation | Harvest | Management | OtherWork

  function CategoryName(c: Category): (s: string)
    ensures |s| > 0
  {
    match c
    case PestControl => "防除"
    case Fertilizing => "施肥"
    case Cultivation => "栽培"
    case Harvest => "収穫"
    case Management => "管理"
    case OtherWork => "その他"
  }

  /** Validation of the `Literal[...]` annotation: only the six names are accepted. */
  function ParseCategory(s: string): (r: Option<Category>)
    ensures r.Some? ==> CategoryName(r.value) == s
  {
    if s == "防除" then Some(PestControl)
    else if s == "施肥" then Some(Fertilizing)
    else if s == "栽培" then Some(Cultivation)
    else if s == "収穫" then Some(Harvest)
    else if s == "管理" then Some(Management)
    else if s == "その他" then Some(OtherWork)
    else None
  }

  lemma ParseCategoryName(c: Category)
    ensures ParseCategory(CategoryName(c)) == Some(c)
  {
  }

  /** The names of the six categories are pairwise distinct. */
  lemma CategoryNameInjective(c: Category, d: Category)
    requires CategoryName(c) == CategoryName(d)
    ensures c == d
  {
    ParseCategoryName(c);
    ParseCategoryName(d);
  }

  // ---------------------------------------------------------------------
  // ExtractedWorkInfo
  // ---------------------------------------------------------------------

  datatype WorkInfo = WorkInfo(
    workDate: Option<string>,
    fieldName: Option<string>,
    cropName: Option<string>,
    workCategory: Option<Category>,
    materials: seq<string>,
    quantity: Option<real>,
    unit: Option<string>,
    workCount: Option<int>,
    notes: Option<string>,
    confidence: Option<real>)

  /** `ExtractedWorkInfo()`: every optional field None and no materials. */
  function EmptyWorkInfo(): (w: WorkInfo)
    ensures w.workDate.None? && w.fieldName.None? && w.cropName.None? && w.workCategory.None?
    ensures w.materials == [] && w.quantity.None? && w.unit.None? && w.workCount.None?
    ensures w.notes.None? && w.confidence.None?
  {
    WorkInfo(None, None, None, None, [], None, None, None, None, None)
  }

  /** Python truthiness of an optional number (None and 0.0 are falsy). */
  predicate RealTruthy(q: Option<real>)
  {
    q.Some? && q.value != 0.0
  }

  predicate IntTruthy(n: Option<int>)
  {
    n.Some? && n.value != 0
  }

  /** `extracted_info.work_category in [...]` and `== ...` on the optional category. */
  predicate CategoryIs(w: WorkInfo, c: Category)
  {
    w.workCategory == Some(c)
  }

  // ---------------------------------------------------------------------
  // Raw extraction: the dictionary the language-model gateway returns
  // ---------------------------------------------------------------------

  /** An element of the raw materials list: a string or any other JSON value. */
  datatype Item = Str(str: string) | NonStr

  datatype RawExtraction = RawExtraction(
    workDate: Option<string>,
    fieldName: Option<string>,
    cropName: Option<string>,
    workCategory: Option<string>,
    materials: Option<seq<Item>>,
    quantity: Option<real>,
    unit: Option<string>,
    workCount: Option<int>,
    notes: Option<string>)

  predicate AllText(items: seq<Item>)
  {
    forall i :: 0 <= i < |items| ==> items[i].Str?
  }

  function Texts(items: seq<Item>): (r: seq<string>)
    requires AllText(items)
    ensures |r| == |items| && forall i :: 0 <= i < |items| ==> r[i] == items[i].str
  {
    seq(|items|, i requires 0 <= i < |items| => items[i].str)
  }

  /**
   * `ExtractedWorkInfo(**data)`: succeeds exactly when the category is one of
   * the six literals (or absent) and every material is a string; the given
   * confidence is stored.
   */
  function ToWorkInfo(d: RawExtraction, confidence: real): (r: Option<WorkInfo>)
    ensures r.Some? <==> (d.workCategory.None? || ParseCategory(d.workCategory.value).Some?)
                         && (d.materials.None? || AllText(d.materials.value))
    ensures r.Some? ==> r.value.confidence == Some(confidence)
                        && r.value.workDate == d.workDate && r.value.fieldName == d.fieldName
                        && r.value.cropName == d.cropName && r.value.quantity == d.quantity
  {
    var cat := if d.workCategory.None? then Some(None)
               else match ParseCategory(d.workCategory.value)
                    case Some(c) => Some(Some(c))
                    case None => None;
    if cat.None? then None
    else if d.materials.Some? && !AllText(d.materials.value) then None
    else
      var ms := if d.materials.None? then [] else Texts(d.materials.value);
      Some(WorkInfo(d.workDate, d.fieldName, d.cropName, cat.value, ms, d.quantity, d.unit,
                    d.workCount, d.notes, Some(confidence)))
  }

  // ---------------------------------------------------------------------
  // Per-entity validation dictionaries
  // ---------------------------------------------------------------------

  /** Quality tag of a matcher result. */
  datatype Quality = Exact | High | Medium | Low | NoMatch

  /**
   * A matched entity (`matched_field`, `matched_crop`, `matched_material`):
   * its id, its display name, its code when it is a field, the confidence
   * and the method that found it (`via`).
   */
  datatype Matched = Matched(id: Option<string>, name: Option<string>, code: Option<string>,
                             confidence: real, via: string)

  /** A candidate found by the database search of the first validator. */
  datatype Candidate = Candidate(id: string, name: Option<string>, productName: Option<string>)

  /** The dictionary a validator stores for one entity. */
  datatype Check =
    | Unchecked
      // `{}`: nothing was stored
    | Matching(matched: Option<Matched>, candidates: seq<Matched>, ambiguous: bool, quality: Quality)
      // a matcher result, without an `is_valid` key
    | Resolved(resolved: Matched, materialInput: Option<string>)
      // `is_valid: True` with the matched entity (materials also keep the input name)
    | Unresolved(input: string, options: seq<Candidate>)
      // `is_valid: False` with the input and the database candidates
    | Errored(failure: string)
      // `is_valid: False` with the error of an exception inside one entity's validation
    | Broken(error: string)
      // `{"error": ...}` after an exception in the validation as a whole

  /** `check.get("is_valid")`. */
  function IsValidKey(c: Check): (r: Option<bool>)
    ensures r.Some? <==> c.Resolved? || c.Unresolved? || c.Errored?
    ensures r == Some(true) <==> c.Resolved?
  {
    match c
    case Resolved(_, _) => Some(true)
    case Unresolved(_, _) => Some(false)
    case Errored(_) => Some(false)
    case _ => None
  }

  /** `not check.get("is_valid", True)`: the entry says explicitly that it failed. */
  predicate Failing(c: Check)
  {
    IsValidKey(c) == Some(false)
  }

  /** `check.get("matched_...")`. */
  function MatchedOf(c: Check): (r: Option<Matched>)
    ensures r.Some? ==> c.Matching? || c.Resolved?
    ensures c.Resolved? ==> r == Some(c.resolved)
    ensures c.Matching? ==> r == c.matched
  {
    match c
    case Matching(m, _, _, _) => m
    case Resolved(m, _) => Some(m)
    case _ => None
  }

  /** The `matched_...` entry of each check, present or not. */
  function MatchedOfEach(cs: seq<Check>): (r: seq<Option<Matched>>)
    ensures |r| == |cs| && forall i :: 0 <= i < |cs| ==> r[i] == MatchedOf(cs[i])
  {
    seq(|cs|, i requires 0 <= i < |cs| => MatchedOf(cs[i]))
  }

  /** `[m["matched_..."] for m in checks if m.get("matched_...")]`: the matched entries, in order. */
  function MatchedEntries(cs: seq<Check>): seq<Matched>
  {
    Somes(MatchedOfEach(cs))
  }

  // ---------------------------------------------------------------------
  // WorkLogValidationResult
  // ---------------------------------------------------------------------

  datatype Verdict = Verdict(
    isValid: bool,
    field: Check,
    crop: Check,
    materials: seq<Check>,
    missingInfo: seq<string>,
    suggestions: seq<string>)

  // ---------------------------------------------------------------------
  // UserConfirmationData
  // ---------------------------------------------------------------------

  datatype Action =
    | ConfirmRegistration | ModifyInfo | Cancel
    | SelectField | SelectCrop | SelectMaterial
    | ManualInput | SkipAmbiguity
    | Retry | ContactSupport

  datatype ChoiceData =
    | NoData
    | Snapshot(info: WorkInfo, verdict: Verdict)
    | PickField(fieldId: string, fieldName: Option<string>)
    | PickCrop(cropId: string, cropName: Option<string>)
    | PickMaterial(materialId: string, materialName: Option<string>, originalInput: string)

  /** One button: its action, its label and its payload. */
  datatype Choice = Choice(action: Action, caption: string, data: ChoiceData)

  /** A line of the message; a quantity line keeps the number, whose float rendering is not modelled. */
  datatype Line = Text(text: string) | QuantityLine(quantity: real, unit: string)

  datatype Confirmation = Confirmation(info: WorkInfo, verdict: Verdict, message: seq<Line>, options: seq<Choice>)

  function Actions(cs: seq<Choice>): (r: seq<Action>)
    ensures |r| == |cs| && forall i :: 0 <= i < |cs| ==> r[i] == cs[i].action
  {
    seq(|cs|, i requires 0 <= i < |cs| => cs[i].action)
  }
}
