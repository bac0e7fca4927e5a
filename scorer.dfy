/**
 * WorkInfoScorer: the confidence of an extracted work report, a weighted
 * sum of seven evaluators that each take a handful of discrete values,
 * clamped to [0, 1].  The input is the raw dictionary the extractor
 * received, before it becomes a typed record.
 */
module Scorer {
  import opened Common
  import opened Records

  const DateWeight: real := 0.15
  const FieldWeight: real := 0.20
  const CropWeight: real := 0.15
  const CategoryWeight: real := 0.15
  const MaterialsWeight: real := 0.20
  const QuantityWeight: real := 0.10
  const SpecificityWeight: real := 0.05

  /** The seven weights sum to one. */
  lemma WeightsSumToOne()
    ensures DateWeight + FieldWeight + CropWeight + CategoryWeight + MaterialsWeight + QuantityWeight
            + SpecificityWeight == 1.0
  {
  }

  // ---------------------------------------------------------------------
  // Work date
  // ---------------------------------------------------------------------

  /** `\d+kw` occurs: some digit is immediately followed by kw. */
  predicate DigitsThen(s: string, kw: string)
  {
    exists i :: 0 <= i < |s| && IsDigit(s[i]) && OccursAt(s, kw, i + 1)
  }

  predicate DigitsAt(s: string, i: nat, n: nat)
  {
    i + n <= |s| && forall k :: i <= k < i + n ==> IsDigit(s[k])
  }

  /** `\d{4}-\d{2}-\d{2}` matches at i. */
  predicate IsoDateAt(s: string, i: nat)
  {
    DigitsAt(s, i, 4) && OccursAt(s, "-", i + 4) && DigitsAt(s, i + 5, 2) && OccursAt(s, "-", i + 7)
    && DigitsAt(s, i + 8, 2)
  }

  /** `\d{1,2}/\d{1,2}` matches at i (a match of two digits contains one of one). */
  predicate SlashDateAt(s: string, i: nat)
  {
    DigitsAt(s, i, 1) && OccursAt(s, "/", i + 1) && DigitsAt(s, i + 2, 1)
  }

  /** `\d{1,2}月\d{1,2}日` matches at i. */
  predicate MonthDayAt(s: string, i: nat)
  {
    DigitsAt(s, i, 1) && OccursAt(s, "月", i + 1) && DigitsAt(s, i + 2, 1)
    && (OccursAt(s, "日", i + 3) || (DigitsAt(s, i + 3, 1) && OccursAt(s, "日", i + 4)))
  }

  /** One of the relative-date patterns occurs. */
  predicate RelativeDate(s: string)
  {
    Contains(s, "今日") || Contains(s, "昨日") || Contains(s, "一昨日") || DigitsThen(s, "日前")
    || Contains(s, "先週") || Contains(s, "今週")
  }

  /** One of the concrete-date patterns occurs. */
  predicate ConcreteDate(s: string)
  {
    (exists i: nat :: i < |s| && IsoDateAt(s, i)) || (exists i: nat :: i < |s| && SlashDateAt(s, i))
    || (exists i: nat :: i < |s| && MonthDayAt(s, i))
  }

  /** `_evaluate_work_date`: relative forms are tried first. */
  function EvaluateWorkDate(d: Option<string>): (r: real)
    ensures r == 0.0 <==> !Truthy(d)
    ensures r == 0.9 <==> Truthy(d) && RelativeDate(d.value)
    ensures r == 1.0 <==> Truthy(d) && !RelativeDate(d.value) && ConcreteDate(d.value)
    ensures r == 0.6 <==> Truthy(d) && !RelativeDate(d.value) && !ConcreteDate(d.value)
                          && ContainsAny(d.value, ["日", "月", "週"])
    ensures r == 0.3 <==> Truthy(d) && !RelativeDate(d.value) && !ConcreteDate(d.value)
                          && !ContainsAny(d.value, ["日", "月", "週"])
  {
    if !Truthy(d) then 0.0
    else if RelativeDate(d.value) then 0.9
    else if ConcreteDate(d.value) then 1.0
    else if ContainsAny(d.value, ["日", "月", "週"]) then 0.6
    else 0.3
  }

  // ---------------------------------------------------------------------
  // Field name
  // ---------------------------------------------------------------------

  /** A character of the class is immediately followed by one of the given characters. */
  predicate ClassThen(s: string, inClass: char -> bool, next: string)
  {
    exists i :: 0 <= i < |s| && inClass(s[i]) && i + 1 < |s| && s[i + 1] in next
  }

  /** `[A-Za-z0-9]+[畑圃場]`, `[あ-ん]+[ハウス]` or `[0-9]+[号棟]` occurs. */
  predicate SpecificFieldName(s: string)
  {
    ClassThen(s, IsAsciiAlnum, "畑圃場") || ClassThen(s, IsHiragana, "ハウス") || ClassThen(s, IsAsciiDigit, "号棟")
  }

  const FieldKeywords: seq<string> := ["畑", "田", "圃場", "ハウス", "温室"]

  /** `_evaluate_field_name`, on the stripped name. */
  function EvaluateFieldName(f: Option<string>): (r: real)
    ensures r == 0.0 <==> !Truthy(f)
    ensures r == 1.0 <==> Truthy(f) && SpecificFieldName(Strip(f.value))
    ensures r == 0.8 <==> Truthy(f) && !SpecificFieldName(Strip(f.value)) && ContainsAny(Strip(f.value), FieldKeywords)
    ensures r == 0.5 <==> Truthy(f) && !SpecificFieldName(Strip(f.value))
                          && !ContainsAny(Strip(f.value), FieldKeywords) && |Strip(f.value)| >= 2
    ensures r == 0.2 <==> Truthy(f) && !SpecificFieldName(Strip(f.value))
                          && !ContainsAny(Strip(f.value), FieldKeywords) && |Strip(f.value)| < 2
  {
    if !Truthy(f) then 0.0
    else
      var n := Strip(f.value);
      if SpecificFieldName(n) then 1.0
      else if ContainsAny(n, FieldKeywords) then 0.8
      else if |n| >= 2 then 0.5
      else 0.2
  }

  // ---------------------------------------------------------------------
  // Crop name
  // ---------------------------------------------------------------------

  const CommonCrops: seq<string> := ["トマト", "キュウリ", "ナス", "ピーマン", "イチゴ",
                                     "レタス", "キャベツ", "白菜", "大根", "人参",
                                     "じゃがいも", "玉ねぎ", "ねぎ", "ほうれん草"]

  /** Some common crop contains the name or is contained in it. */
  predicate RelatedCrop(n: string)
  {
    exists k :: 0 <= k < |CommonCrops| && (Contains(n, CommonCrops[k]) || Contains(CommonCrops[k], n))
  }

  /** `str.isdigit()`: non-empty and all digits. */
  predicate IsDigitString(s: string)
  {
    |s| > 0 && AllDigits(s)
  }

  /** `_evaluate_crop_name`, on the stripped name. */
  function EvaluateCropName(c: Option<string>): (r: real)
    ensures r == 0.0 <==> !Truthy(c)
    ensures r == 1.0 <==> Truthy(c) && Strip(c.value) in CommonCrops
    ensures r == 0.8 <==> Truthy(c) && Strip(c.value) !in CommonCrops && RelatedCrop(Strip(c.value))
    ensures r == 0.6 <==> Truthy(c) && Strip(c.value) !in CommonCrops && !RelatedCrop(Strip(c.value))
                          && |Strip(c.value)| >= 2 && !IsDigitString(Strip(c.value))
    ensures r == 0.3 <==> Truthy(c) && Strip(c.value) !in CommonCrops && !RelatedCrop(Strip(c.value))
                          && (|Strip(c.value)| < 2 || IsDigitString(Strip(c.value)))
  {
    if !Truthy(c) then 0.0
    else
      var n := Strip(c.value);
      if n in CommonCrops then 1.0
      else if RelatedCrop(n) then 0.8
      else if |n| >= 2 && !IsDigitString(n) then 0.6
      else 0.3
  }

  /** A name that is only whitespace strips to "", which every common crop contains. */
  lemma BlankCropNameIsRelated(c: string)
    requires |c| > 0 && forall i :: 0 <= i < |c| ==> IsSpace(c[i])
    ensures EvaluateCropName(Some(c)) == 0.8
  {
    StripBlank(c);
    ContainsEmpty(CommonCrops[0]);
  }

  // ---------------------------------------------------------------------
  // Work category
  // ---------------------------------------------------------------------

  const StandardCategories: seq<string> := ["防除", "施肥", "収穫", "栽培", "管理"]

  /** The related keywords of the five categories, all scoring the same. */
  const CategoryKeywords: seq<string> := ["農薬", "殺菌", "殺虫", "散布", "防虫",
                                          "肥料", "追肥", "元肥", "堆肥",
                                          "収穫", "採取", "出荷",
                                          "播種", "定植", "移植", "植付",
                                          "草刈", "除草", "清掃", "点検", "整枝"]

  /** `_evaluate_work_category`, on the raw text (no stripping). */
  function EvaluateWorkCategory(c: Option<string>): (r: real)
    ensures r == 0.0 <==> !Truthy(c)
    ensures r == 1.0 <==> Truthy(c) && c.value in StandardCategories
    ensures r == 0.8 <==> Truthy(c) && c.value !in StandardCategories && ContainsAny(c.value, CategoryKeywords)
    ensures r == 0.5 <==> Truthy(c) && c.value !in StandardCategories && !ContainsAny(c.value, CategoryKeywords)
                          && |c.value| >= 2
    ensures r == 0.2 <==> Truthy(c) && c.value !in StandardCategories && !ContainsAny(c.value, CategoryKeywords)
                          && |c.value| < 2
  {
    if !Truthy(c) then 0.0
    else if c.value in StandardCategories then 1.0
    else if ContainsAny(c.value, CategoryKeywords) then 0.8
    else if |c.value| >= 2 then 0.5
    else 0.2
  }

  /** その他 is a valid category but not a standard one: it scores only 0.5. */
  lemma OtherCategoryScoresHalf()
    ensures EvaluateWorkCategory(Some("その他")) == 0.5
  {
    var s := "その他";
    forall k | 0 <= k < |CategoryKeywords| ensures !Contains(s, CategoryKeywords[k]) {
      if Contains(s, CategoryKeywords[k]) {
        ContainsFirstChar(s, CategoryKeywords[k]);
        assert false;
      }
    }
  }

  // ---------------------------------------------------------------------
  // Materials
  // ---------------------------------------------------------------------

  predicate NoNewlineBetween(s: string, i: nat, j: nat)
  {
    forall k :: i < k < j && k < |s| ==> s[k] != '\n'
  }

  /** `[A-Za-z0-9]+.*[0-9]+` occurs: a letter or digit, later a digit, no newline between. */
  predicate CodedProduct(s: string)
  {
    exists i, j :: 0 <= i < j < |s| && IsAsciiAlnum(s[i]) && IsAsciiDigit(s[j]) && NoNewlineBetween(s, i, j)
  }

  const FormKeywords: seq<string> := ["剤", "液", "粉", "粒"]

  /** The score one list item adds; a non-string item adds nothing. */
  function MaterialItemScore(it: Item): (r: real)
    ensures it.NonStr? <==> r == 0.0
    ensures r == 1.0 <==> it.Str? && CodedProduct(Strip(it.str))
    ensures r == 0.8 <==> it.Str? && !CodedProduct(Strip(it.str)) && ContainsAny(Strip(it.str), FormKeywords)
    ensures r == 0.6 <==> it.Str? && !CodedProduct(Strip(it.str)) && !ContainsAny(Strip(it.str), FormKeywords)
                          && |Strip(it.str)| >= 3
    ensures r == 0.3 <==> it.Str? && !CodedProduct(Strip(it.str)) && !ContainsAny(Strip(it.str), FormKeywords)
                          && |Strip(it.str)| < 3
  {
    match it
    case NonStr => 0.0
    case Str(s) =>
      var m := Strip(s);
      if CodedProduct(m) then 1.0
      else if ContainsAny(m, FormKeywords) then 0.8
      else if |m| >= 3 then 0.6
      else 0.3
  }

  /** The running total over the list. */
  function MaterialsTotal(items: seq<Item>): (t: real)
    ensures 0.0 <= t <= |items| as real
    decreases |items|
  {
    if |items| == 0 then 0.0
    else MaterialsTotal(items[..|items| - 1]) + MaterialItemScore(items[|items| - 1])
  }

  /** `_evaluate_materials`: the total over the list length (every item counts), capped at 1. */
  function EvaluateMaterials(m: Option<seq<Item>>): (r: real)
    ensures 0.0 <= r <= 1.0
    ensures (m.None? || |m.value| == 0) ==> r == 0.0
  {
    if m.None? || |m.value| == 0 then 0.0
    else MinReal(1.0, MaterialsTotal(m.value) / |m.value| as real)
  }

  /** `_evaluate_materials`: accumulates the total in a loop, then averages. */
  method EvaluateMaterialsLoop(m: Option<seq<Item>>) returns (r: real)
    ensures r == EvaluateMaterials(m)
  {
    if m.None? || |m.value| == 0 {
      return 0.0;
    }
    var items := m.value;
    var total := 0.0;
    var i := 0;
    while i < |items|
      invariant 0 <= i <= |items|
      invariant total == MaterialsTotal(items[..i])
    {
      assert items[..i + 1][..i] == items[..i];
      total := total + MaterialItemScore(items[i]);
      i := i + 1;
    }
    assert items[..i] == items;
    r := MinReal(1.0, total / |items| as real);
  }

  /** A non-string item adds nothing to the total but lengthens the list. */
  lemma NonStringItemAddsNothing(items: seq<Item>)
    ensures MaterialsTotal(items + [NonStr]) == MaterialsTotal(items)
  {
    assert (items + [NonStr])[..|items|] == items;
  }

  /** Every string item scores at least 0.3, so a list of strings averages at least 0.3. */
  lemma {:induction false} StringItemsTotalAtLeast(items: seq<Item>)
    requires AllText(items)
    ensures MaterialsTotal(items) >= 0.3 * |items| as real
    decreases |items|
  {
    if |items| > 0 {
      StringItemsTotalAtLeast(items[..|items| - 1]);
    }
  }

  lemma StringMaterialsScoreAtLeast(items: seq<Item>)
    requires |items| > 0 && AllText(items)
    ensures EvaluateMaterials(Some(items)) >= 0.3
  {
    StringItemsTotalAtLeast(items);
    AverageAtLeast(MaterialsTotal(items), |items|);
  }

  /** A total of at least 0.3 per element averages at least 0.3. */
  lemma AverageAtLeast(t: real, k: nat)
    requires k > 0 && t >= 0.3 * k as real
    ensures t / k as real >= 0.3
  {
    var n, q := k as real, t / k as real;
    assert q * n == t;
    if q < 0.3 {
      assert false;
    }
  }

  /** A list with no string at all scores 0. */
  lemma {:induction false} NoStringItemsTotalZero(items: seq<Item>)
    requires forall i :: 0 <= i < |items| ==> items[i].NonStr?
    ensures MaterialsTotal(items) == 0.0
    decreases |items|
  {
    if |items| > 0 {
      NoStringItemsTotalZero(items[..|items| - 1]);
    }
  }

  // ---------------------------------------------------------------------
  // Quantity
  // ---------------------------------------------------------------------

  const CommonUnits: seq<string> := ["L", "ml", "kg", "g", "袋", "本", "回"]

  predicate PositiveQuantity(q: Option<real>)
  {
    q.Some? && q.value > 0.0
  }

  /** `_evaluate_quantity`: 0.6 for a positive amount plus 0.4 for a common unit or 0.2 for any other unit. */
  function EvaluateQuantity(q: Option<real>, u: Option<string>): (r: real)
    ensures 0.0 <= r <= 1.0
    ensures r >= 0.6 <==> PositiveQuantity(q)
    ensures r == 0.0 <==> !PositiveQuantity(q) && !Truthy(u)
    ensures r == 1.0 <==> PositiveQuantity(q) && Truthy(u) && u.value in CommonUnits
    ensures Truthy(u) && u.value !in CommonUnits ==> r == 0.2 || r == 0.8
  {
    var score := if PositiveQuantity(q) then 0.6 else 0.0;
    var unitScore := if !Truthy(u) then 0.0 else if u.value in CommonUnits then 0.4 else 0.2;
    MinReal(1.0, score + unitScore)
  }

  // ---------------------------------------------------------------------
  // Specificity
  // ---------------------------------------------------------------------

  /** A core value as the specificity loop sees it: a string or a list. */
  datatype CoreValue = TextValue(text: Option<string>) | ListValue(items: Option<seq<Item>>)

  /** The five core values in the order the loop visits them. */
  function CoreValues(d: RawExtraction): (vs: seq<CoreValue>)
    ensures |vs| == 5
  {
    [TextValue(d.workDate), TextValue(d.fieldName), TextValue(d.cropName), TextValue(d.workCategory),
     ListValue(d.materials)]
  }

  /** A non-empty list, or a string that is not blank. */
  predicate Present(v: CoreValue)
  {
    match v
    case TextValue(t) => t.Some? && |Strip(t.value)| > 0
    case ListValue(l) => l.Some? && |l.value| > 0
  }

  function PresentCount(vs: seq<CoreValue>): (n: nat)
    ensures n <= |vs|
    decreases |vs|
  {
    if |vs| == 0 then 0
    else PresentCount(vs[..|vs| - 1]) + (if Present(vs[|vs| - 1]) then 1 else 0)
  }

  lemma PresentCountStep(vs: seq<CoreValue>, i: nat)
    requires i < |vs|
    ensures PresentCount(vs[..i + 1]) == PresentCount(vs[..i]) + (if Present(vs[i]) then 1 else 0)
  {
    assert vs[..i + 1][..i] == vs[..i];
  }

  lemma {:induction false} PresentCountAll(vs: seq<CoreValue>)
    requires forall i :: 0 <= i < |vs| ==> Present(vs[i])
    ensures PresentCount(vs) == |vs|
    decreases |vs|
  {
    if |vs| > 0 {
      PresentCountAll(vs[..|vs| - 1]);
    }
  }

  lemma {:induction false} PresentCountNone(vs: seq<CoreValue>)
    requires forall i :: 0 <= i < |vs| ==> !Present(vs[i])
    ensures PresentCount(vs) == 0
    decreases |vs|
  {
    if |vs| > 0 {
      PresentCountNone(vs[..|vs| - 1]);
    }
  }

  /** The half points for notes and for a work count. */
  function Extras(d: RawExtraction): (x: real)
    ensures x == 0.0 || x == 0.5 || x == 1.0
  {
    (if Truthy(d.notes) then 0.5 else 0.0) + (if IntTruthy(d.workCount) then 0.5 else 0.0)
  }

  /** `_evaluate_specificity`: present core values plus the extras, over five, capped at 1. */
  function EvaluateSpecificity(d: RawExtraction): (r: real)
    ensures 0.0 <= r <= 1.0
    ensures r == 0.0 <==> PresentCount(CoreValues(d)) == 0 && Extras(d) == 0.0
  {
    MinReal(1.0, (PresentCount(CoreValues(d)) as real + Extras(d)) / 5.0)
  }

  /** The counting loop of `_evaluate_specificity` over the core values. */
  method CountPresent(values: seq<CoreValue>) returns (n: nat)
    ensures n == PresentCount(values)
  {
    n := 0;
    var i := 0;
    while i < |values|
      invariant 0 <= i <= |values|
      invariant n == PresentCount(values[..i])
    {
      PresentCountStep(values, i);
      if Present(values[i]) {
        n := n + 1;
      }
      i := i + 1;
    }
    assert values[..i] == values;
  }

  /** `_evaluate_specificity`: counts the indicators in a loop. */
  method EvaluateSpecificityLoop(d: RawExtraction) returns (r: real)
    ensures r == EvaluateSpecificity(d)
  {
    var present := CountPresent(CoreValues(d));
    var indicators := present as real;
    if Truthy(d.notes) {
      indicators := indicators + 0.5;
    }
    if IntTruthy(d.workCount) {
      indicators := indicators + 0.5;
    }
    r := MinReal(1.0, indicators / 5.0);
  }

  /** All five core values present is already the maximum. */
  lemma {:induction false} AllPresentIsFullySpecific(d: RawExtraction)
    requires forall i :: 0 <= i < 5 ==> Present(CoreValues(d)[i])
    ensures EvaluateSpecificity(d) == 1.0
  {
    PresentCountAll(CoreValues(d));
  }

  // ---------------------------------------------------------------------
  // The score and its breakdown
  // ---------------------------------------------------------------------

  datatype Breakdown = Breakdown(workDate: real, fieldName: real, cropName: real, workCategory: real,
                                 materials: real, quantity: real, specificity: real)

  predicate InUnit(b: Breakdown)
  {
    0.0 <= b.workDate <= 1.0 && 0.0 <= b.fieldName <= 1.0 && 0.0 <= b.cropName <= 1.0
    && 0.0 <= b.workCategory <= 1.0 && 0.0 <= b.materials <= 1.0 && 0.0 <= b.quantity <= 1.0
    && 0.0 <= b.specificity <= 1.0
  }

  /** `get_score_breakdown`: every evaluator's value, each in [0, 1]. */
  function GetScoreBreakdown(d: RawExtraction): (b: Breakdown)
    ensures InUnit(b)
    ensures !Truthy(d.workDate) <==> b.workDate == 0.0
    ensures !Truthy(d.fieldName) <==> b.fieldName == 0.0
    ensures !Truthy(d.cropName) <==> b.cropName == 0.0
    ensures !Truthy(d.workCategory) <==> b.workCategory == 0.0
    ensures (d.materials.None? || |d.materials.value| == 0) ==> b.materials == 0.0
  {
    Breakdown(EvaluateWorkDate(d.workDate), EvaluateFieldName(d.fieldName), EvaluateCropName(d.cropName),
              EvaluateWorkCategory(d.workCategory), EvaluateMaterials(d.materials),
              EvaluateQuantity(d.quantity, d.unit), EvaluateSpecificity(d))
  }

  function WeightedSum(b: Breakdown): real
  {
    b.workDate * DateWeight + b.fieldName * FieldWeight + b.cropName * CropWeight
    + b.workCategory * CategoryWeight + b.materials * MaterialsWeight + b.quantity * QuantityWeight
    + b.specificity * SpecificityWeight
  }

  /** With every part in [0, 1] and weights summing to one, the weighted sum is in [0, 1]. */
  lemma WeightedSumInUnit(b: Breakdown)
    requires InUnit(b)
    ensures 0.0 <= WeightedSum(b) <= 1.0
  {
    WeightsSumToOne();
  }

  /** `calculate_confidence_score`, as a value. */
  function ConfidenceScore(d: RawExtraction): (r: real)
    ensures 0.0 <= r <= 1.0
  {
    Clamp01(WeightedSum(GetScoreBreakdown(d)))
  }

  /** The clamp never changes the weighted sum of the breakdown. */
  lemma ScoreIsWeightedBreakdown(d: RawExtraction)
    ensures ConfidenceScore(d) == WeightedSum(GetScoreBreakdown(d))
  {
    WeightedSumInUnit(GetScoreBreakdown(d));
  }

  /** `calculate_confidence_score`: adds the weighted evaluators one by one, then clamps. */
  method CalculateConfidenceScore(d: RawExtraction) returns (score: real)
    ensures score == ConfidenceScore(d)
    ensures 0.0 <= score <= 1.0
  {
    var materials := EvaluateMaterialsLoop(d.materials);
    var specificity := EvaluateSpecificityLoop(d);
    var b := Breakdown(EvaluateWorkDate(d.workDate), EvaluateFieldName(d.fieldName),
                       EvaluateCropName(d.cropName), EvaluateWorkCategory(d.workCategory),
                       materials, EvaluateQuantity(d.quantity, d.unit), specificity);
    assert b == GetScoreBreakdown(d);
    score := 0.0;
    score := score + b.workDate * DateWeight;
    score := score + b.fieldName * FieldWeight;
    score := score + b.cropName * CropWeight;
    score := score + b.workCategory * CategoryWeight;
    score := score + b.materials * MaterialsWeight;
    score := score + b.quantity * QuantityWeight;
    score := score + b.specificity * SpecificityWeight;
    score := MaxReal(0.0, MinReal(1.0, score));
  }

  /** A report with nothing extracted scores 0. */
  lemma EmptyReportScoresZero()
    ensures ConfidenceScore(RawExtraction(None, None, None, None, None, None, None, None, None)) == 0.0
  {
    var d := RawExtraction(None, None, None, None, None, None, None, None, None);
    PresentCountNone(CoreValues(d));
  }
}
