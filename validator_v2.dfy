/**
 * The second work-report validator: matches the report's field, crop and
 * materials against the master lists with the entity matcher, then derives
 * the verdict (overall validity, missing information, suggestions) and a
 * quality score.
 */
module ValidatorV2 {
  import opened Common
  import opened Records
  import Matcher

  /** The three master lists the gateway returns. */
  datatype Masters = Masters(fields: seq<Matcher.MasterField>, crops: seq<Matcher.MasterCrop>,
                             materials: seq<Matcher.MasterMaterial>)

  /** The gateway's answer: the lists, or the message of the exception it raised. */
  datatype MasterLoad = Loaded(masters: Masters) | LoadFailed(message: string)

  /** The dictionary `_execute_matching_logic` fills. */
  datatype MatchResults = MatchResults(field: Check, crop: Check, materials: seq<Check>)

  // ---------------------------------------------------------------------
  // Matching
  // ---------------------------------------------------------------------

  /** The field entry: the matcher's result for a non-empty field name, a no-match otherwise. */
  function FieldResult(info: WorkInfo, m: Masters, ratio: Ratio): (c: Check)
    ensures c.Matching?
    ensures !Truthy(info.fieldName) ==> c == Matcher.NoMatchResult()
    ensures MatchedOf(c).Some? ==> Matcher.LowThreshold <= MatchedOf(c).value.confidence <= 1.0
  {
    if Truthy(info.fieldName) then Matcher.MatchField(info.fieldName.value, m.fields, ratio)
    else Matcher.NoMatchResult()
  }

  /** The crop entry: the matcher's result for a non-empty crop name, a no-match otherwise. */
  function CropResult(info: WorkInfo, m: Masters, ratio: Ratio): (c: Check)
    ensures c.Matching?
    ensures !Truthy(info.cropName) ==> c == Matcher.NoMatchResult()
    ensures MatchedOf(c).Some? ==> Matcher.LowThreshold <= MatchedOf(c).value.confidence <= 1.0
  {
    if Truthy(info.cropName) then Matcher.MatchCrop(info.cropName.value, m.crops, ratio)
    else Matcher.NoMatchResult()
  }

  /**
   * The material entries: the resolved materials, which exist exactly when
   * the master list is non-empty and some material name resolves.
   */
  function MaterialResults(info: WorkInfo, m: Masters, ratio: Ratio): (cs: seq<Check>)
    ensures info.materials == [] ==> cs == []
    ensures forall c | c in cs :: c.Matching? && c.matched.Some?
    ensures forall c | c in cs :: Matcher.LowThreshold <= c.matched.value.confidence <= 1.0
    ensures |cs| > 0 <==>
              m.materials != [] && exists i :: 0 <= i < |info.materials| && Matcher.Resolves(info.materials[i], m.materials, ratio)
  {
    if info.materials != [] then Matcher.MatchMaterials(info.materials, m.materials, ratio) else []
  }

  /** What `_execute_matching_logic` stores. */
  function MatchingResults(info: WorkInfo, m: Masters, ratio: Ratio): (r: MatchResults)
    ensures r.field.Matching? && r.crop.Matching?
    ensures |r.materials| > 0 <==>
              m.materials != [] && exists i :: 0 <= i < |info.materials| && Matcher.Resolves(info.materials[i], m.materials, ratio)
    ensures ConfidencesInUnit(r)
  {
    var ms := MaterialResults(info, m, ratio);
    assert forall c | c in ms && MatchedOf(c).Some? :: 0.0 <= MatchedOf(c).value.confidence <= 1.0 by {
      forall c | c in ms ensures MatchedOf(c) == c.matched && Matcher.LowThreshold <= c.matched.value.confidence <= 1.0 {
      }
    }
    MatchResults(FieldResult(info, m, ratio), CropResult(info, m, ratio), ms)
  }

  /** `_execute_matching_logic`. */
  method ExecuteMatchingLogic(info: WorkInfo, m: Masters, ratio: Ratio) returns (r: MatchResults)
    ensures r == MatchingResults(info, m, ratio)
  {
    var field: Check;
    if Truthy(info.fieldName) {
      field := Matcher.MatchFieldData(info.fieldName.value, m.fields, ratio);
    } else {
      field := Matcher.NoMatchResult();
    }
    var crop: Check;
    if Truthy(info.cropName) {
      crop := Matcher.MatchCropData(info.cropName.value, m.crops, ratio);
    } else {
      crop := Matcher.NoMatchResult();
    }
    var materials: seq<Check>;
    if info.materials != [] {
      materials := Matcher.MatchMaterialData(info.materials, m.materials, ratio);
    } else {
      materials := [];
    }
    assert field == FieldResult(info, m, ratio);
    assert crop == CropResult(info, m, ratio);
    assert materials == MaterialResults(info, m, ratio);
    r := MatchResults(field, crop, materials);
  }

  // ---------------------------------------------------------------------
  // Overall validity
  // ---------------------------------------------------------------------

  /** `_assess_overall_validity`: a matched field, or a matched crop together with some material entry. */
  function OverallValidity(r: MatchResults): bool
  {
    MatchedOf(r.field).Some? || (MatchedOf(r.crop).Some? && |r.materials| > 0)
  }

  /**
   * For the matcher's results, the report is valid exactly when its field
   * resolves, or its crop resolves and at least one of its material names
   * resolves.
   */
  lemma ValidityOfReport(info: WorkInfo, m: Masters, ratio: Ratio)
    ensures var r := MatchingResults(info, m, ratio);
            OverallValidity(r) <==>
              MatchedOf(r.field).Some?
              || (MatchedOf(r.crop).Some? && m.materials != []
                  && exists i :: 0 <= i < |info.materials| && Matcher.Resolves(info.materials[i], m.materials, ratio))
    ensures !Truthy(info.fieldName) && !Truthy(info.cropName) ==> !OverallValidity(MatchingResults(info, m, ratio))
  {
  }

  // ---------------------------------------------------------------------
  // Missing information
  // ---------------------------------------------------------------------

  /** Whether `materials` is missing: a pest-control or fertilising report with no matched material. */
  predicate MaterialsMissing(info: WorkInfo, r: MatchResults)
  {
    (CategoryIs(info, PestControl) || CategoryIs(info, Fertilizing)) && r.materials == []
  }

  /** Whether `quantity` is missing: a harvest report without a non-zero quantity. */
  predicate QuantityMissing(info: WorkInfo)
  {
    CategoryIs(info, Harvest) && !RealTruthy(info.quantity)
  }

  /** What `_identify_missing_information` returns: the keys whose check fails, in the order checked. */
  function MissingInfo(info: WorkInfo, r: MatchResults): seq<string>
  {
    (if !Truthy(info.workDate) then ["work_date"] else [])
    + (if MatchedOf(r.field).None? then ["field_name"] else [])
    + (if info.workCategory.None? then ["work_category"] else [])
    + (if MaterialsMissing(info, r) then ["materials"] else [])
    + (if QuantityMissing(info) then ["quantity"] else [])
  }

  /**
   * Each key is listed exactly when its check fails, and nothing else is
   * listed; materials and quantity belong to different categories, so at
   * most four keys are ever missing.
   */
  lemma MissingInfoExactly(info: WorkInfo, r: MatchResults)
    ensures var m := MissingInfo(info, r);
            ("work_date" in m <==> !Truthy(info.workDate))
            && ("field_name" in m <==> MatchedOf(r.field).None?)
            && ("work_category" in m <==> info.workCategory.None?)
            && ("materials" in m <==> MaterialsMissing(info, r))
            && ("quantity" in m <==> QuantityMissing(info))
            && (forall k | k in m :: k in ["work_date", "field_name", "work_category", "materials", "quantity"])
            && |m| <= 4
  {
  }

  /** `_identify_missing_information`: the five checks, appending in turn. */
  method IdentifyMissingInformation(info: WorkInfo, r: MatchResults) returns (missing: seq<string>)
    ensures missing == MissingInfo(info, r)
  {
    missing := [];
    if !Truthy(info.workDate) {
      missing := missing + ["work_date"];
    }
    if MatchedOf(r.field).None? {
      missing := missing + ["field_name"];
    }
    if info.workCategory.None? {
      missing := missing + ["work_category"];
    }
    if CategoryIs(info, PestControl) || CategoryIs(info, Fertilizing) {
      if r.materials == [] {
        missing := missing + ["materials"];
      }
    }
    if CategoryIs(info, Harvest) {
      if !RealTruthy(info.quantity) {
        missing := missing + ["quantity"];
      }
    }
  }

  // ---------------------------------------------------------------------
  // Suggestions
  // ---------------------------------------------------------------------

  /** `c.get(name_key, '')` for the first two candidates. */
  function FirstTwoNames(c: Check): (ns: seq<string>)
    requires c.Matching?
    ensures |ns| == if |c.candidates| < 2 then |c.candidates| else 2
    ensures forall i :: 0 <= i < |ns| ==> ns[i] == OrEmpty(c.candidates[i].name)
  {
    var top := Take(c.candidates, 2);
    seq(|top|, i requires 0 <= i < |top| => OrEmpty(top[i].name))
  }

  /** The ambiguity line for a field or crop result, when it is ambiguous with more than one candidate. */
  function AmbiguityLine(c: Check, title: string): seq<string>
  {
    if c.Matching? && c.ambiguous && |c.candidates| > 1 then [title + Join(", ", FirstTwoNames(c))] else []
  }

  /** Whether a material entry was found by substring. */
  predicate PartialMaterial(c: Check)
  {
    MatchedOf(c).Some? && MatchedOf(c).value.via == "partial_match"
  }

  /** The confirmation line of one material entry, if it was found by substring. */
  function MaterialLine(c: Check): seq<string>
  {
    if PartialMaterial(c) then ["資材名の確認: " + OrEmpty(MatchedOf(c).value.name)] else []
  }

  function MaterialLines(cs: seq<Check>): (ls: seq<string>)
    ensures |ls| <= |cs|
    decreases |cs|
  {
    if |cs| == 0 then [] else MaterialLines(cs[..|cs| - 1]) + MaterialLine(cs[|cs| - 1])
  }

  /** What `_generate_suggestions` returns. */
  function Suggestions(r: MatchResults): seq<string>
  {
    AmbiguityLine(r.field, "圃場名の候補: ") + AmbiguityLine(r.crop, "作物名の候補: ") + MaterialLines(r.materials)
  }

  /** The number of material entries found by substring. */
  function PartialCount(cs: seq<Check>): nat
    decreases |cs|
  {
    if |cs| == 0 then 0 else PartialCount(cs[..|cs| - 1]) + (if PartialMaterial(cs[|cs| - 1]) then 1 else 0)
  }

  /** Every material found by substring gets one line, and no other material does. */
  lemma {:induction false} MaterialLinesCount(cs: seq<Check>)
    ensures |MaterialLines(cs)| == PartialCount(cs)
    ensures PartialCount(cs) <= |cs|
    decreases |cs|
  {
    if |cs| > 0 {
      MaterialLinesCount(cs[..|cs| - 1]);
    }
  }

  /**
   * The suggestions are at most one line per ambiguous field or crop and
   * one per material found by substring; an unambiguous field and crop
   * give no candidate lines at all.
   */
  lemma SuggestionsCount(r: MatchResults)
    ensures var s := Suggestions(r);
            |s| == |AmbiguityLine(r.field, "圃場名の候補: ")| + |AmbiguityLine(r.crop, "作物名の候補: ")| + PartialCount(r.materials)
            && |s| <= 2 + |r.materials|
            && (!(r.field.Matching? && r.field.ambiguous) && !(r.crop.Matching? && r.crop.ambiguous)
                ==> s == MaterialLines(r.materials))
  {
    MaterialLinesCount(r.materials);
  }

  /** `_generate_suggestions`: the two ambiguity checks, then the loop over the materials. */
  method GenerateSuggestions(r: MatchResults) returns (suggestions: seq<string>)
    ensures suggestions == Suggestions(r)
  {
    suggestions := [];
    if r.field.Matching? && r.field.ambiguous {
      if |r.field.candidates| > 1 {
        suggestions := suggestions + ["圃場名の候補: " + Join(", ", FirstTwoNames(r.field))];
      }
    }
    if r.crop.Matching? && r.crop.ambiguous {
      if |r.crop.candidates| > 1 {
        suggestions := suggestions + ["作物名の候補: " + Join(", ", FirstTwoNames(r.crop))];
      }
    }
    var lines := MaterialSuggestions(r.materials);
    suggestions := suggestions + lines;
  }

  /** The loop of `_generate_suggestions` over the material entries. */
  method MaterialSuggestions(cs: seq<Check>) returns (lines: seq<string>)
    ensures lines == MaterialLines(cs)
  {
    lines := [];
    for i := 0 to |cs|
      invariant lines == MaterialLines(cs[..i])
    {
      assert cs[..i + 1][..i] == cs[..i];
      var c := cs[i];
      if MatchedOf(c).Some? && MatchedOf(c).value.via == "partial_match" {
        lines := lines + ["資材名の確認: " + OrEmpty(MatchedOf(c).value.name)];
      }
    }
    assert cs[..|cs|] == cs;
  }

  // ---------------------------------------------------------------------
  // Quality score
  // ---------------------------------------------------------------------

  /** The confidence of an entry's matched entity, if any. */
  function MatchedConfidence(c: Check): Option<real>
  {
    match MatchedOf(c)
    case Some(m) => Some(m.confidence)
    case None => None
  }

  /** The confidences of the matched material entries, in order. */
  function MaterialScores(cs: seq<Check>): (ss: seq<real>)
    ensures |ss| <= |cs|
    decreases |cs|
  {
    if |cs| == 0 then []
    else
      var last := MatchedConfidence(cs[|cs| - 1]);
      MaterialScores(cs[..|cs| - 1]) + (if last.Some? then [last.value] else [])
  }

  /** The list `scores` of `_calculate_quality_score`: field, crop, then the materials' mean. */
  function QualityScores(r: MatchResults): seq<real>
  {
    (if MatchedOf(r.field).Some? then [MatchedOf(r.field).value.confidence] else [])
    + (if MatchedOf(r.crop).Some? then [MatchedOf(r.crop).value.confidence] else [])
    + (if MaterialScores(r.materials) != [] then [Mean(MaterialScores(r.materials))] else [])
  }

  /** What `_calculate_quality_score` returns. */
  function QualityScore(r: MatchResults): real
  {
    Mean(QualityScores(r))
  }

  /** Every confidence of a matched entity lies in [0, 1]. */
  predicate ConfidencesInUnit(r: MatchResults)
  {
    (MatchedOf(r.field).Some? ==> 0.0 <= MatchedOf(r.field).value.confidence <= 1.0)
    && (MatchedOf(r.crop).Some? ==> 0.0 <= MatchedOf(r.crop).value.confidence <= 1.0)
    && forall c | c in r.materials && MatchedOf(c).Some? :: 0.0 <= MatchedOf(c).value.confidence <= 1.0
  }

  /**
   * The quality score is 0.0 when nothing matched, and otherwise lies in
   * [0, 1] when the confidences do; the materials weigh as one entity.
   */
  lemma QualityScoreBounds(r: MatchResults)
    requires ConfidencesInUnit(r)
    ensures 0.0 <= QualityScore(r) <= 1.0
    ensures MatchedOf(r.field).None? && MatchedOf(r.crop).None? && MaterialScores(r.materials) == []
            ==> QualityScore(r) == 0.0
    ensures |QualityScores(r)| <= 3
  {
    var ms := MaterialScores(r.materials);
    MaterialScoresInUnit(r.materials);
    if |ms| > 0 {
      MeanBounds(ms, 0.0, 1.0);
    }
    var qs := QualityScores(r);
    if |qs| > 0 {
      MeanBounds(qs, 0.0, 1.0);
    }
  }

  /** Material confidences in [0, 1] give scores in [0, 1]. */
  lemma {:induction false} MaterialScoresInUnit(cs: seq<Check>)
    requires forall c | c in cs && MatchedOf(c).Some? :: 0.0 <= MatchedOf(c).value.confidence <= 1.0
    ensures forall i :: 0 <= i < |MaterialScores(cs)| ==> 0.0 <= MaterialScores(cs)[i] <= 1.0
    decreases |cs|
  {
    if |cs| > 0 {
      var n := |cs| - 1;
      assert forall c | c in cs[..n] :: c in cs;
      MaterialScoresInUnit(cs[..n]);
      assert cs[n] in cs;
    }
  }

  /** The loop of `_calculate_quality_score` that collects the material confidences. */
  method CollectMaterialScores(cs: seq<Check>) returns (materialScores: seq<real>)
    ensures materialScores == MaterialScores(cs)
  {
    materialScores := [];
    for i := 0 to |cs|
      invariant materialScores == MaterialScores(cs[..i])
    {
      assert cs[..i + 1][..i] == cs[..i];
      var c := cs[i];
      if MatchedOf(c).Some? {
        materialScores := materialScores + [MatchedOf(c).value.confidence];
      }
    }
    assert cs[..|cs|] == cs;
  }

  /** `_calculate_quality_score`: field, crop, then the materials' mean, averaged. */
  method CalculateQualityScore(r: MatchResults) returns (q: real)
    ensures q == QualityScore(r)
  {
    var scores: seq<real> := [];
    if MatchedOf(r.field).Some? {
      scores := scores + [MatchedOf(r.field).value.confidence];
    }
    if MatchedOf(r.crop).Some? {
      scores := scores + [MatchedOf(r.crop).value.confidence];
    }
    if r.materials != [] {
      var materialScores := CollectMaterialScores(r.materials);
      if materialScores != [] {
        scores := scores + [SumReals(materialScores) / |materialScores| as real];
      }
    }
    assert scores == QualityScores(r);
    q := if scores != [] then SumReals(scores) / |scores| as real else 0.0;
  }

  // ---------------------------------------------------------------------
  // The verdict
  // ---------------------------------------------------------------------

  /**
   * `_build_validation_result`.  The quality score and the method name are
   * passed to a record that declares neither, so they are dropped: the
   * verdict has no quality field.
   */
  function BuildVerdict(info: WorkInfo, r: MatchResults): (v: Verdict)
    ensures v.field == r.field && v.crop == r.crop && v.materials == r.materials
  {
    Verdict(OverallValidity(r), r.field, r.crop, r.materials, MissingInfo(info, r), Suggestions(r))
  }

  /** `_create_error_result`: invalid, with the single key `validation_error`. */
  function ErrorVerdict(message: string): (v: Verdict)
    ensures !v.isValid && v.missingInfo == ["validation_error"] && |v.suggestions| == 1
    ensures v.field == Unchecked && v.crop == Unchecked && v.materials == []
  {
    Verdict(false, Unchecked, Unchecked, [], ["validation_error"], ["検証エラー: " + message])
  }

  /** What `validate_work_log` returns for the gateway's answer. */
  function Validated(info: WorkInfo, load: MasterLoad, ratio: Ratio): Verdict
  {
    match load
    case LoadFailed(msg) => ErrorVerdict(msg)
    case Loaded(m) => BuildVerdict(info, MatchingResults(info, m, ratio))
  }

  /**
   * A report without a field name, crop or materials is never valid, and
   * misses at least its field name.
   */
  lemma EmptyReportInvalid(info: WorkInfo, m: Masters, ratio: Ratio)
    requires !Truthy(info.fieldName) && !Truthy(info.cropName) && info.materials == []
    ensures !Validated(info, Loaded(m), ratio).isValid
    ensures "field_name" in Validated(info, Loaded(m), ratio).missingInfo
  {
    var r := MatchingResults(info, m, ratio);
    MissingInfoExactly(info, r);
  }

  /** `validate_work_log`: load, match, then build the verdict; a failed load gives the error verdict. */
  method ValidateWorkLog(info: WorkInfo, load: MasterLoad, ratio: Ratio) returns (v: Verdict, quality: real)
    ensures v == Validated(info, load, ratio)
    ensures load.Loaded? ==> quality == QualityScore(MatchingResults(info, load.masters, ratio)) && 0.0 <= quality <= 1.0
    ensures load.LoadFailed? ==> quality == 0.0
  {
    if load.LoadFailed? {
      return ErrorVerdict(load.message), 0.0;
    }
    var r := ExecuteMatchingLogic(info, load.masters, ratio);
    var isValid := OverallValidity(r);
    var missing := IdentifyMissingInformation(info, r);
    var suggestions := GenerateSuggestions(r);
    quality := CalculateQualityScore(r);
    QualityScoreBounds(r);
    v := Verdict(isValid, r.field, r.crop, r.materials, missing, suggestions);
  }
}
