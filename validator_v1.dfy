/**
 * The first work-report validator: resolves the field, the crop and each
 * material through the staged resolver, clearing `is_valid` as soon as a
 * present entity fails to resolve, then appends the missing required
 * fields and the consistency suggestions.
 */
module ValidatorV1 {
  import opened Common
  import opened Records
  import Resolver

  /** The `method` string of a resolution. */
  function ViaName(v: Resolver.Via): (s: string)
    ensures |s| > 0
  {
    match v
    case ExactMatch => "exact_match"
    case VarietyMatch => "variety_match"
    case AliasMatch => "alias_match"
    case PartialMatch => "partial_match"
    case FuzzyMatch => "fuzzy_match"
    case NoMatchFound => "no_match"
    case Failure => "error"
  }

  /**
   * What one entity's validation sees: the resolver's dictionary and the
   * answer of the candidate search (`Failed` when the search raised).
   */
  datatype Lookup = Lookup(resolution: Resolver.Resolution, found: Fetch<Candidate>)

  /** The database search of `_find_*_candidates` returns at most five rows. */
  const SearchLimit: nat := 5
  /** The message names at most three candidates. */
  const NamedCandidates: nat := 3


  /** `_find_*_candidates`: the first five rows found, or none when the search raised. */
  function FoundCandidates(found: Fetch<Candidate>): (cs: seq<Candidate>)
    ensures |cs| <= SearchLimit
    ensures found.Failed? ==> cs == []
    ensures found.Fetched? ==> |cs| <= |found.rows| && cs == found.rows[..|cs|]
  {
    match found
    case Failed(_) => []
    case Fetched(rows) => Take(rows, SearchLimit)
  }

  /** Whether `', '.join(c['name'] for c in candidates[:3])` succeeds: every named candidate has a name. */
  predicate Joinable(cs: seq<Candidate>)
  {
    forall i :: 0 <= i < |cs| && i < NamedCandidates ==> cs[i].name.Some?
  }

  /** The item `str.join` stops at: the first of the named candidates without a name. */
  function FirstUnnamed(cs: seq<Candidate>): (k: nat)
    requires !Joinable(cs)
    ensures k < |cs| && k < NamedCandidates && cs[k].name.None?
    ensures forall j :: 0 <= j < k ==> cs[j].name.Some?
  {
    FirstIndex(cs, (c: Candidate) => c.name.None?).value
  }

  /**
   * `_validate_field_name`, `_validate_crop_name` and
   * `_validate_material_name`: valid exactly when the resolver returned an
   * id, storing the matched entity (and, for a material, the input name);
   * otherwise the input and the candidates, unless building the message
   * raises on a candidate without a name.
   */
  function EntityCheck(input: string, l: Lookup, isMaterial: bool): (c: Check)
    ensures c.Resolved? <==> Truthy(l.resolution.id)
    ensures c.Resolved? ==>
              c.resolved.id == l.resolution.id && c.resolved.name == l.resolution.name
              && c.resolved.confidence == l.resolution.confidence
              && c.materialInput == (if isMaterial then Some(input) else None)
    ensures c.Unresolved? <==> !Truthy(l.resolution.id) && Joinable(FoundCandidates(l.found))
    ensures c.Unresolved? ==> c.input == input && c.options == FoundCandidates(l.found)
    ensures c.Resolved? || c.Unresolved? || c == Errored(JoinTypeError(FirstUnnamed(FoundCandidates(l.found))))
  {
    var r := l.resolution;
    if Truthy(r.id) then
      Resolved(Matched(r.id, r.name, None, r.confidence, ViaName(r.via)), if isMaterial then Some(input) else None)
    else
      var cs := FoundCandidates(l.found);
      if Joinable(cs) then Unresolved(input, cs) else Errored(JoinTypeError(FirstUnnamed(cs)))
  }

  /** `result.get("is_valid", False)`. */
  predicate Passes(c: Check)
  {
    IsValidKey(c) == Some(true)
  }

  /** The checks of the material loop, one per name in input order. */
  function MaterialChecks(names: seq<string>, lookup: string -> Lookup): (cs: seq<Check>)
    ensures |cs| == |names|
    ensures forall i :: 0 <= i < |names| ==> cs[i] == EntityCheck(names[i], lookup(names[i]), true)
  {
    seq(|names|, i requires 0 <= i < |names| => EntityCheck(names[i], lookup(names[i]), true))
  }

  // ---------------------------------------------------------------------
  // The appended messages
  // ---------------------------------------------------------------------

  const FieldKey: string := "圃場名"
  const DateKey: string := "作業日"
  const CategoryKey: string := "作業分類"
  const ErrorKey: string := "検証処理でエラーが発生"

  const AskField: string := "どちらの圃場での作業でしょうか？"
  const AskCrop: string := "どの作物に対する作業でしょうか？"
  const AskDate: string := "いつの作業でしょうか？（今日、昨日、具体的な日付など）"
  const AskCategory: string := "どのような作業でしょうか？（防除、施肥、収穫、栽培、管理など）"
  const AskPesticide: string := "防除作業の場合、使用した農薬を教えてください"
  const AskAmount: string := "資材の使用量を教えてください"
  const AskUnit: string := "使用量の単位を教えてください（L、kg、袋など）"
  const AskRetry: string := "再度お試しいただくか、より詳細な情報を入力してください"

  /** The keys `_check_required_fields` appends. */
  function RequiredMissing(info: WorkInfo): seq<string>
  {
    (if !Truthy(info.workDate) then [DateKey] else []) + (if info.workCategory.None? then [CategoryKey] else [])
  }

  /** The questions `_check_required_fields` appends, one per missing key. */
  function RequiredQuestions(info: WorkInfo): seq<string>
  {
    (if !Truthy(info.workDate) then [AskDate] else []) + (if info.workCategory.None? then [AskCategory] else [])
  }

  /** The suggestions `_check_logical_consistency` appends. */
  function ConsistencyQuestions(info: WorkInfo): seq<string>
  {
    (if CategoryIs(info, PestControl) && info.materials == [] then [AskPesticide] else [])
    + (if info.materials != [] && !RealTruthy(info.quantity) then [AskAmount] else [])
    + (if RealTruthy(info.quantity) && !Truthy(info.unit) then [AskUnit] else [])
  }

  // ---------------------------------------------------------------------
  // The verdict
  // ---------------------------------------------------------------------

  /** The field entry: the field's check when a field name is given, `{}` otherwise. */
  function FieldCheck(info: WorkInfo, field: Lookup): Check
  {
    if Truthy(info.fieldName) then EntityCheck(info.fieldName.value, field, false) else Unchecked
  }

  /** The crop entry. */
  function CropCheck(info: WorkInfo, crop: Lookup): Check
  {
    if Truthy(info.cropName) then EntityCheck(info.cropName.value, crop, false) else Unchecked
  }

  /** Whether every check of the material loop passes. */
  predicate AllPass(cs: seq<Check>)
  {
    forall i :: 0 <= i < |cs| ==> Passes(cs[i])
  }

  /** The `missing_info` list: the field key when the field name is missing, then the required keys. */
  function MissingList(info: WorkInfo): seq<string>
  {
    (if Truthy(info.fieldName) then [] else [FieldKey]) + RequiredMissing(info)
  }

  /** The `suggestions` list: the field and crop questions, then the required and consistency questions. */
  function Questions(info: WorkInfo): seq<string>
  {
    (if Truthy(info.fieldName) then [] else [AskField]) + (if Truthy(info.cropName) then [] else [AskCrop])
    + RequiredQuestions(info) + ConsistencyQuestions(info)
  }

  /** What `validate_work_log` returns, given the lookups of the field, the crop and each material name. */
  function Validated(info: WorkInfo, field: Lookup, crop: Lookup, material: string -> Lookup): (v: Verdict)
    ensures v.field == FieldCheck(info, field) && v.crop == CropCheck(info, crop)
    ensures v.materials == MaterialChecks(info.materials, material)
    ensures v.missingInfo == MissingList(info) && v.suggestions == Questions(info)
  {
    var f := FieldCheck(info, field);
    var c := CropCheck(info, crop);
    var ms := MaterialChecks(info.materials, material);
    Verdict(
      (!Truthy(info.fieldName) || Passes(f)) && (!Truthy(info.cropName) || Passes(c)) && AllPass(ms),
      f, c, ms, MissingList(info), Questions(info))
  }

  /**
   * `is_valid` holds exactly when every entity that is present resolved to
   * an id: the field, the crop and each material name.
   */
  lemma ValidIffAllResolve(info: WorkInfo, field: Lookup, crop: Lookup, material: string -> Lookup)
    ensures Validated(info, field, crop, material).isValid <==>
              (Truthy(info.fieldName) ==> Truthy(field.resolution.id))
              && (Truthy(info.cropName) ==> Truthy(crop.resolution.id))
              && forall i :: 0 <= i < |info.materials| ==> Truthy(material(info.materials[i]).resolution.id)
  {
    var v := Validated(info, field, crop, material);
    if v.isValid {
      forall i | 0 <= i < |info.materials| ensures Truthy(material(info.materials[i]).resolution.id) {
        assert Passes(v.materials[i]);
      }
    }
  }

  /**
   * The required-field and consistency checks never touch `is_valid`: two
   * reports naming the same field, crop and materials get the same
   * validity, whatever their date, category, quantity or unit.
   */
  lemma ValidityIgnoresOtherFields(info: WorkInfo, other: WorkInfo, field: Lookup, crop: Lookup, material: string -> Lookup)
    requires info.fieldName == other.fieldName && info.cropName == other.cropName && info.materials == other.materials
    ensures Validated(info, field, crop, material).isValid == Validated(other, field, crop, material).isValid
  {
  }

  /**
   * A missing field name is both a missing key and a question; a missing
   * crop name is only a question; the date and category keys follow their
   * own checks.
   */
  lemma MissingKeys(info: WorkInfo, field: Lookup, crop: Lookup, material: string -> Lookup)
    ensures var v := Validated(info, field, crop, material);
            (FieldKey in v.missingInfo <==> !Truthy(info.fieldName))
            && (AskField in v.suggestions <==> !Truthy(info.fieldName))
            && (AskCrop in v.suggestions <==> !Truthy(info.cropName))
            && (DateKey in v.missingInfo <==> !Truthy(info.workDate))
            && (CategoryKey in v.missingInfo <==> info.workCategory.None?)
            && |v.missingInfo| <= 3
  {
    ListsOf(info);
  }

  /** The lists of missing keys and questions, apart from the entity checks. */
  lemma ListsOf(info: WorkInfo)
    ensures FieldKey in MissingList(info) <==> !Truthy(info.fieldName)
    ensures AskField in Questions(info) <==> !Truthy(info.fieldName)
    ensures AskCrop in Questions(info) <==> !Truthy(info.cropName)
    ensures DateKey in MissingList(info) <==> !Truthy(info.workDate)
    ensures CategoryKey in MissingList(info) <==> info.workCategory.None?
    ensures |MissingList(info)| <= 3
  {
    KeysDiffer();
    var keys := RequiredMissing(info);
    assert FieldKey !in keys;
    var required, consistency := RequiredQuestions(info), ConsistencyQuestions(info);
    assert AskField !in required && AskCrop !in required;
    assert AskField !in consistency && AskCrop !in consistency;
    var asks := (if Truthy(info.fieldName) then [] else [AskField]) + (if Truthy(info.cropName) then [] else [AskCrop]);
    assert Questions(info) == asks + required + consistency;
  }

  /** The keys, and the field and crop questions, differ from every other appended text. */
  lemma KeysDiffer()
    ensures FieldKey != DateKey && FieldKey != CategoryKey
    ensures AskField !in [AskCrop, AskDate, AskCategory, AskPesticide, AskAmount, AskUnit]
    ensures AskCrop !in [AskDate, AskCategory, AskPesticide, AskAmount, AskUnit]
  {
  }

  /** `_create_error_result` of the `except` branch: invalid, with one error key and one suggestion. */
  function ErrorVerdict(message: string): (v: Verdict)
    ensures !v.isValid && v.missingInfo == [ErrorKey] && v.suggestions == [AskRetry]
    ensures v.field == Broken(message) && v.crop == Unchecked && v.materials == []
  {
    Verdict(false, Broken(message), Unchecked, [], [ErrorKey], [AskRetry])
  }

  // ---------------------------------------------------------------------
  // The imperative validator
  // ---------------------------------------------------------------------

  /** `_check_required_fields`: appends to the verdict's lists in place. */
  method CheckRequiredFields(info: WorkInfo, v: Verdict) returns (w: Verdict)
    ensures w == v.(missingInfo := v.missingInfo + RequiredMissing(info),
                    suggestions := v.suggestions + RequiredQuestions(info))
  {
    w := v;
    if !Truthy(info.workDate) {
      w := w.(missingInfo := w.missingInfo + [DateKey], suggestions := w.suggestions + [AskDate]);
    }
    if info.workCategory.None? {
      w := w.(missingInfo := w.missingInfo + [CategoryKey], suggestions := w.suggestions + [AskCategory]);
    }
  }

  /** `_check_logical_consistency`: appends suggestions only. */
  method CheckLogicalConsistency(info: WorkInfo, v: Verdict) returns (w: Verdict)
    ensures w == v.(suggestions := v.suggestions + ConsistencyQuestions(info))
  {
    w := v;
    if CategoryIs(info, PestControl) && info.materials == [] {
      w := w.(suggestions := w.suggestions + [AskPesticide]);
    }
    if info.materials != [] && !RealTruthy(info.quantity) {
      w := w.(suggestions := w.suggestions + [AskAmount]);
    }
    if RealTruthy(info.quantity) && !Truthy(info.unit) {
      w := w.(suggestions := w.suggestions + [AskUnit]);
    }
  }

  /**
   * The material loop of `validate_work_log`: one check per name, in
   * order, and whether none of them failed.
   */
  method ValidateMaterials(names: seq<string>, material: string -> Lookup) returns (checks: seq<Check>, allPass: bool)
    ensures checks == MaterialChecks(names, material)
    ensures allPass == AllPass(checks)
  {
    checks := [];
    allPass := true;
    for i := 0 to |names|
      invariant checks == MaterialChecks(names[..i], material)
      invariant allPass == AllPass(checks)
    {
      var r := EntityCheck(names[i], material(names[i]), true);
      MaterialChecksStep(names, i, material);
      AllPassStep(checks, r);
      checks := checks + [r];
      if !Passes(r) {
        allPass := false;
      }
    }
    assert names[..|names|] == names;
  }

  /** One more name adds its check at the end. */
  lemma MaterialChecksStep(names: seq<string>, i: nat, material: string -> Lookup)
    requires i < |names|
    ensures MaterialChecks(names[..i + 1], material)
            == MaterialChecks(names[..i], material) + [EntityCheck(names[i], material(names[i]), true)]
  {
    var front := MaterialChecks(names[..i], material);
    var all := MaterialChecks(names[..i + 1], material);
    assert |all| == |front| + 1;
    forall k | 0 <= k < |all|
      ensures all[k] == (front + [EntityCheck(names[i], material(names[i]), true)])[k]
    {
      assert names[..i + 1][k] == names[k];
      if k < i {
        assert names[..i][k] == names[k];
      }
    }
  }

  /** Every check passes after one more exactly when all did before and the new one does. */
  lemma AllPassStep(cs: seq<Check>, c: Check)
    ensures AllPass(cs + [c]) == (AllPass(cs) && Passes(c))
  {
    if AllPass(cs) && Passes(c) {
      forall i | 0 <= i < |cs + [c]| ensures Passes((cs + [c])[i]) {
        if i < |cs| {
          assert (cs + [c])[i] == cs[i];
        }
      }
    }
    if AllPass(cs + [c]) {
      assert Passes((cs + [c])[|cs|]);
      forall i | 0 <= i < |cs| ensures Passes(cs[i]) {
        assert (cs + [c])[i] == cs[i];
      }
    }
  }

  /**
   * The field and crop steps of `validate_work_log`: each present name's
   * check is stored and clears `is_valid` when it fails; a missing field is
   * a missing key and a question, a missing crop only a question.
   */
  method ValidateEntities(info: WorkInfo, field: Lookup, crop: Lookup) returns (v: Verdict)
    ensures v.field == FieldCheck(info, field) && v.crop == CropCheck(info, crop) && v.materials == []
    ensures v.isValid == ((!Truthy(info.fieldName) || Passes(v.field)) && (!Truthy(info.cropName) || Passes(v.crop)))
    ensures v.missingInfo == if Truthy(info.fieldName) then [] else [FieldKey]
    ensures v.suggestions == (if Truthy(info.fieldName) then [] else [AskField])
                             + (if Truthy(info.cropName) then [] else [AskCrop])
  {
    v := Verdict(true, Unchecked, Unchecked, [], [], []);
    if Truthy(info.fieldName) {
      var r := EntityCheck(info.fieldName.value, field, false);
      v := v.(field := r);
      if !Passes(r) {
        v := v.(isValid := false);
      }
    } else {
      v := v.(missingInfo := v.missingInfo + [FieldKey], suggestions := v.suggestions + [AskField]);
    }
    if Truthy(info.cropName) {
      var r := EntityCheck(info.cropName.value, crop, false);
      v := v.(crop := r);
      if !Passes(r) {
        v := v.(isValid := false);
      }
    } else {
      v := v.(suggestions := v.suggestions + [AskCrop]);
    }
  }

  /**
   * `validate_work_log`: starts valid and empty, stores each entity's check
   * and clears `is_valid` when one fails, then runs the two appending checks.
   */
  method ValidateWorkLog(info: WorkInfo, field: Lookup, crop: Lookup, material: string -> Lookup) returns (v: Verdict)
    ensures v == Validated(info, field, crop, material)
  {
    v := ValidateEntities(info, field, crop);
    if info.materials != [] {
      var checks, allPass := ValidateMaterials(info.materials, material);
      v := v.(materials := checks, isValid := v.isValid && allPass);
    }
    assert v.materials == MaterialChecks(info.materials, material);
    v := CheckRequiredFields(info, v);
    v := CheckLogicalConsistency(info, v);
  }
}
