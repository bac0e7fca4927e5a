/**
 * The confirmation builder: a valid verdict becomes a final summary with
 * the three buttons confirm / modify / cancel; an invalid one becomes a
 * list of questions with one button per candidate (at most three per
 * entity, at most two materials) followed by manual input / register as is
 * / cancel; an exception becomes the error message with retry / manual
 * input / support.
 */
module Confirmation {
  import opened Common
  import opened Records

  // ---------------------------------------------------------------------
  // Small renderers
  // ---------------------------------------------------------------------

  /** `_format_work_date`: every branch returns the date as given. */
  function FormatWorkDate(d: string): (r: string)
    ensures r == d
  {
    if d in ["今日", "昨日", "一昨日"] then d
    else if Contains(d, "日前") then d
    else d
  }

  const DefaultEmoji: string := "📋"

  /** `_get_category_emoji`: the emoji of a category name, 📋 for any other text. */
  function CategoryEmoji(category: string): (e: string)
    ensures ParseCategory(category).None? ==> e == DefaultEmoji
  {
    if category == "防除" then "🛡️"
    else if category == "施肥" then "🌱"
    else if category == "栽培" then "🌿"
    else if category == "収穫" then "🌾"
    else if category == "管理" then "🔧"
    else DefaultEmoji
  }

  /** Only その他 among the six categories shares the default emoji. */
  lemma CategoryEmojiDefault(c: Category)
    ensures CategoryEmoji(CategoryName(c)) == DefaultEmoji <==> c == OtherWork
  {
  }

  /** Python's `int(x)`: truncation toward zero. */
  function Truncate(x: real): (i: int)
    ensures 0.0 <= x ==> i as real <= x < i as real + 1.0
    ensures x < 0.0 ==> i as real - 1.0 < x <= i as real
  {
    if x >= 0.0 then x.Floor else -((-x).Floor)
  }

  /** `int(confidence * 100)` lies in [0, 100] for a confidence in [0, 1]. */
  lemma PercentBounds(confidence: real)
    requires 0.0 <= confidence <= 1.0
    ensures 0 <= Truncate(confidence * 100.0) <= 100
  {
  }

  /** Python's `str(i)` for an integer. */
  function IntToString(i: int): (s: string)
    ensures |s| > 0
  {
    if i < 0 then "-" + NatToString(-i) else NatToString(i)
  }

  /** Python's f-string rendering of an optional string: `None` prints as None. */
  function PyStr(o: Option<string>): string
  {
    if o.Some? then o.value else "None"
  }

  // ---------------------------------------------------------------------
  // The three fixed triples of buttons
  // ---------------------------------------------------------------------

  const ConfirmCaption: string := "✅ 登録する"
  const ModifyCaption: string := "✏️ 修正する"
  const CancelCaption: string := "❌ キャンセル"
  const ManualCaption: string := "✏️ 手動で入力"
  const SkipCaption: string := "⏭️ そのまま登録"
  const RetryCaption: string := "🔄 再試行"
  const ManualInputCaption: string := "✏️ 手動入力"
  const SupportCaption: string := "🆘 サポート"

  /** The buttons of the final confirmation; only the first carries the report and the verdict. */
  function FinalChoices(info: WorkInfo, v: Verdict): seq<Choice>
  {
    [Choice(ConfirmRegistration, ConfirmCaption, Snapshot(info, v)),
     Choice(ModifyInfo, ModifyCaption, NoData),
     Choice(Cancel, CancelCaption, NoData)]
  }

  /** The buttons every question list ends with; the middle one carries the report and the verdict. */
  function TrailingChoices(info: WorkInfo, v: Verdict): seq<Choice>
  {
    [Choice(ManualInput, ManualCaption, NoData),
     Choice(SkipAmbiguity, SkipCaption, Snapshot(info, v)),
     Choice(Cancel, CancelCaption, NoData)]
  }

  function ErrorChoices(): seq<Choice>
  {
    [Choice(Retry, RetryCaption, NoData),
     Choice(ManualInput, ManualInputCaption, NoData),
     Choice(ContactSupport, SupportCaption, NoData)]
  }

  // ---------------------------------------------------------------------
  // The final confirmation
  // ---------------------------------------------------------------------

  /** The `material_name` of each entry with a matched material, in order. */
  function MatchedMaterialNames(ms: seq<Check>): (ns: seq<Option<string>>)
    ensures |ns| == |MatchedEntries(ms)|
  {
    var es := MatchedEntries(ms);
    seq(|es|, i requires 0 <= i < |es| => es[i].name)
  }

  /** Whether `", ".join(...)` of those names succeeds: none is missing. */
  predicate AllNamed(ns: seq<Option<string>>)
  {
    forall i :: 0 <= i < |ns| ==> ns[i].Some?
  }

  function Names(ns: seq<Option<string>>): (r: seq<string>)
    requires AllNamed(ns)
    ensures |r| == |ns|
  {
    seq(|ns|, i requires 0 <= i < |ns| => ns[i].value)
  }

  const FinalTitle: string := "📝 以下の内容で作業記録を登録しますか？"

  /** The line of one entity's matched name (`🏠 圃場: ...`, `🌱 作物: ...`), if it matched. */
  function MatchedLine(c: Check, title: string): seq<Line>
  {
    if MatchedOf(c).Some? then [Text(title + PyStr(MatchedOf(c).value.name))] else []
  }

  function DateLine(info: WorkInfo): seq<Line>
  {
    if Truthy(info.workDate) then [Text("📅 作業日: " + FormatWorkDate(info.workDate.value))] else []
  }

  function CategoryLine(info: WorkInfo): seq<Line>
  {
    match info.workCategory
    case Some(c) => [Text(CategoryEmoji(CategoryName(c)) + " 作業: " + CategoryName(c))]
    case None => []
  }

  /** The materials line joins the names of the matched materials, when there are any. */
  function MaterialsLine(v: Verdict): seq<Line>
    requires AllNamed(MatchedMaterialNames(v.materials))
  {
    var names := Names(MatchedMaterialNames(v.materials));
    if names != [] then [Text("🧪 資材: " + Join(", ", names))] else []
  }

  /** The amount is shown only when both a non-zero quantity and a unit are present. */
  function AmountLine(info: WorkInfo): seq<Line>
  {
    if RealTruthy(info.quantity) && Truthy(info.unit) then [QuantityLine(info.quantity.value, info.unit.value)] else []
  }

  function NotesLine(info: WorkInfo): seq<Line>
  {
    if Truthy(info.notes) then [Text("📝 メモ: " + info.notes.value)] else []
  }

  function AccuracyText(confidence: real): string
  {
    "🎯 抽出精度: " + IntToString(Truncate(confidence * 100.0)) + "%"
  }

  /** `🎯 抽出精度: {int(confidence * 100)}%`, when the confidence is non-zero. */
  function AccuracyLine(info: WorkInfo): seq<Line>
  {
    if RealTruthy(info.confidence)
    then [Text(AccuracyText(info.confidence.value))]
    else []
  }

  /** The lines of `_generate_final_confirmation`, once the material names are known to be present. */
  function FinalLines(info: WorkInfo, v: Verdict): (ls: seq<Line>)
    requires AllNamed(MatchedMaterialNames(v.materials))
  {
    [Text(FinalTitle), Text("")] + DateLine(info) + MatchedLine(v.field, "🏠 圃場: ") + MatchedLine(v.crop, "🌱 作物: ")
    + CategoryLine(info) + MaterialsLine(v) + AmountLine(info) + NotesLine(info) + [Text("")] + AccuracyLine(info)
  }

  /** What `_generate_final_confirmation` returns. */
  function FinalConfirmation(info: WorkInfo, v: Verdict): (c: Confirmation)
    requires AllNamed(MatchedMaterialNames(v.materials))
    ensures c.info == info && c.verdict == v
    ensures Actions(c.options) == [ConfirmRegistration, ModifyInfo, Cancel]
  {
    Confirmation(info, v, FinalLines(info, v), FinalChoices(info, v))
  }

  /**
   * `_generate_final_confirmation`: each line is decided on its own, then
   * the lines are put together in order and the three buttons added.
   */
  method GenerateFinalConfirmation(info: WorkInfo, v: Verdict) returns (c: Confirmation)
    requires AllNamed(MatchedMaterialNames(v.materials))
    ensures c == FinalConfirmation(info, v)
  {
    var date, field, crop, category, materials, amount, notes, accuracy: seq<Line> := [], [], [], [], [], [], [], [];
    if Truthy(info.workDate) {
      date := [Text("📅 作業日: " + FormatWorkDate(info.workDate.value))];
    }
    if MatchedOf(v.field).Some? {
      field := [Text("🏠 圃場: " + PyStr(MatchedOf(v.field).value.name))];
    }
    if MatchedOf(v.crop).Some? {
      crop := [Text("🌱 作物: " + PyStr(MatchedOf(v.crop).value.name))];
    }
    if info.workCategory.Some? {
      var name := CategoryName(info.workCategory.value);
      category := [Text(CategoryEmoji(name) + " 作業: " + name)];
    }
    var names := Names(MatchedMaterialNames(v.materials));
    if names != [] {
      materials := [Text("🧪 資材: " + Join(", ", names))];
    }
    if RealTruthy(info.quantity) && Truthy(info.unit) {
      amount := [QuantityLine(info.quantity.value, info.unit.value)];
    }
    if Truthy(info.notes) {
      notes := [Text("📝 メモ: " + info.notes.value)];
    }
    if RealTruthy(info.confidence) {
      accuracy := [Text(AccuracyText(info.confidence.value))];
    }
    assert date == DateLine(info) && category == CategoryLine(info) && materials == MaterialsLine(v);
    assert field == MatchedLine(v.field, "🏠 圃場: ") && crop == MatchedLine(v.crop, "🌱 作物: ");
    assert amount == AmountLine(info) && notes == NotesLine(info) && accuracy == AccuracyLine(info);
    var lines := [Text(FinalTitle), Text("")] + date + field + crop + category + materials + amount + notes
                 + [Text("")] + accuracy;
    assert lines == FinalLines(info, v);
    c := Confirmation(info, v, lines, FinalChoices(info, v));
  }

  // ---------------------------------------------------------------------
  // The question list
  // ---------------------------------------------------------------------

  /** Which entity a candidate list belongs to; a material list keeps the input it answers. */
  datatype Kind = FieldKind | CropKind | MaterialKind(originalInput: string)

  /** The name shown for a candidate: a material's product name when it has one. */
  function Display(k: Kind, c: Candidate): string
  {
    if k.MaterialKind? && Truthy(c.productName) then c.productName.value else PyStr(c.name)
  }

  /** `f"{i}. {display}"` */
  function Numbered(i: nat, text: string): string
  {
    NatToString(i) + ". " + text
  }

  /** The button of the i-th candidate (numbered from 1). */
  function Pick(k: Kind, i: nat, c: Candidate): (b: Choice)
    ensures b.action in [SelectField, SelectCrop, SelectMaterial]
  {
    match k
    case FieldKind => Choice(SelectField, Numbered(i, Display(k, c)), PickField(c.id, c.name))
    case CropKind => Choice(SelectCrop, Numbered(i, Display(k, c)), PickCrop(c.id, c.name))
    case MaterialKind(input) => Choice(SelectMaterial, Numbered(i, Display(k, c)), PickMaterial(c.id, c.name, input))
  }

  /** The numbered lines of the first three candidates. */
  function CandidateLines(k: Kind, cs: seq<Candidate>): (ls: seq<Line>)
    ensures |ls| == |Take(cs, 3)|
  {
    var top := Take(cs, 3);
    seq(|top|, i requires 0 <= i < |top| => Text(Numbered(i + 1, Display(k, top[i]))))
  }

  /** The buttons of the first three candidates. */
  function CandidateChoices(k: Kind, cs: seq<Candidate>): (bs: seq<Choice>)
    ensures |bs| == |Take(cs, 3)| && |bs| <= 3
    ensures forall i :: 0 <= i < |bs| ==> bs[i].action in [SelectField, SelectCrop, SelectMaterial]
  {
    var top := Take(cs, 3);
    seq(|top|, i requires 0 <= i < |top| => Pick(k, i + 1, top[i]))
  }

  /** The `enumerate(candidates[:3], 1)` loop: one numbered line and one button per candidate. */
  method ListCandidates(k: Kind, cs: seq<Candidate>) returns (lines: seq<Line>, options: seq<Choice>)
    ensures lines == CandidateLines(k, cs) && options == CandidateChoices(k, cs)
  {
    var top := Take(cs, 3);
    ghost var all, picks := CandidateLines(k, cs), CandidateChoices(k, cs);
    lines, options := [], [];
    for i := 0 to |top|
      invariant lines == all[..i] && options == picks[..i]
    {
      assert all[..i + 1] == all[..i] + [Text(Numbered(i + 1, Display(k, top[i])))];
      assert picks[..i + 1] == picks[..i] + [Pick(k, i + 1, top[i])];
      lines := lines + [Text(Numbered(i + 1, Display(k, top[i])))];
      options := options + [Pick(k, i + 1, top[i])];
    }
    assert all[..|top|] == all && picks[..|top|] == picks;
  }

  /** Whether an entry is failing and has candidates to offer. */
  predicate Offers(c: Check)
  {
    Failing(c) && c.Unresolved? && c.options != []
  }

  /** The section of the field or the crop: a heading, the input, the candidates. */
  function EntityLines(c: Check, k: Kind, heading: string, noun: string): seq<Line>
  {
    if Offers(c) then
      [Text(heading), Text("「" + c.input + "」という" + noun + "が見つかりませんでした。"),
       Text("以下のどちらかでしょうか？"), Text("")]
      + CandidateLines(k, c.options) + [Text("")]
    else []
  }

  function EntityChoices(c: Check, k: Kind): (bs: seq<Choice>)
    ensures |bs| <= 3
    ensures forall i :: 0 <= i < |bs| ==> bs[i].action in [SelectField, SelectCrop, SelectMaterial]
  {
    if Offers(c) then CandidateChoices(k, c.options) else []
  }

  /** `[m for m in material_validation if not m.get("is_valid", True)]` */
  function FailingMaterials(ms: seq<Check>): (fs: seq<Check>)
    ensures |fs| <= |ms|
    ensures forall c | c in fs :: Failing(c)
    decreases |ms|
  {
    if |ms| == 0 then []
    else FailingMaterials(ms[..|ms| - 1]) + (if Failing(ms[|ms| - 1]) then [ms[|ms| - 1]] else [])
  }

  /** The block of one failing material: its input and its candidates, if it has any. */
  function MaterialBlock(c: Check): seq<Line>
  {
    if c.Unresolved? && c.options != [] then
      [Text("「" + c.input + "」という資材が見つかりませんでした。"), Text("以下のどちらかでしょうか？"), Text("")]
      + CandidateLines(MaterialKind(c.input), c.options) + [Text("")]
    else []
  }

  function MaterialBlockChoices(c: Check): (bs: seq<Choice>)
    ensures |bs| <= 3
    ensures forall i :: 0 <= i < |bs| ==> bs[i].action in [SelectField, SelectCrop, SelectMaterial]
  {
    if c.Unresolved? && c.options != [] then CandidateChoices(MaterialKind(c.input), c.options) else []
  }

  /** The blocks of a list of failing materials, in order. */
  function MaterialBlocks(fs: seq<Check>): seq<Line>
    decreases |fs|
  {
    if |fs| == 0 then [] else MaterialBlocks(fs[..|fs| - 1]) + MaterialBlock(fs[|fs| - 1])
  }

  function MaterialBlocksChoices(fs: seq<Check>): (bs: seq<Choice>)
    ensures |bs| <= 3 * |fs|
    ensures forall i :: 0 <= i < |bs| ==> bs[i].action in [SelectField, SelectCrop, SelectMaterial]
    decreases |fs|
  {
    if |fs| == 0 then []
    else
      var prev := MaterialBlocksChoices(fs[..|fs| - 1]);
      var last := MaterialBlockChoices(fs[|fs| - 1]);
      assert forall i :: |prev| <= i < |prev| + |last| ==> (prev + last)[i] == last[i - |prev|];
      prev + last
  }

  /** The material section: a heading when some material fails, then the blocks of the first two. */
  function MaterialSection(ms: seq<Check>): seq<Line>
  {
    var fs := FailingMaterials(ms);
    if fs == [] then [] else [Text("🧪 資材について：")] + MaterialBlocks(Take(fs, 2))
  }

  /** A heading and one bullet per entry, when there are entries. */
  function Bullets(heading: string, items: seq<string>): seq<Line>
  {
    if items == [] then []
    else [Text(heading)] + seq(|items|, i requires 0 <= i < |items| => Text("• " + items[i])) + [Text("")]
  }

  const AmbiguityTitle: string := "❓ いくつか確認したいことがあります"

  /** The lines of `_generate_ambiguity_resolution`. */
  function AmbiguityLines(v: Verdict): seq<Line>
  {
    [Text(AmbiguityTitle), Text("")]
    + EntityLines(v.field, FieldKind, "🏠 圃場名について：", "圃場")
    + EntityLines(v.crop, CropKind, "🌱 作物名について：", "作物")
    + MaterialSection(v.materials)
    + Bullets("ℹ️ 追加で教えてください：", v.missingInfo)
    + Bullets("💡 確認事項：", v.suggestions)
  }

  /** The candidate buttons of `_generate_ambiguity_resolution`, before the trailing three. */
  function CandidateButtons(v: Verdict): (bs: seq<Choice>)
    ensures |bs| <= 12
    ensures forall i :: 0 <= i < |bs| ==> bs[i].action in [SelectField, SelectCrop, SelectMaterial]
  {
    var f := EntityChoices(v.field, FieldKind);
    var c := EntityChoices(v.crop, CropKind);
    var m := MaterialBlocksChoices(Take(FailingMaterials(v.materials), 2));
    assert forall i :: 0 <= i < |f + c| ==> (f + c)[i] in f || (f + c)[i] in c;
    assert forall i :: 0 <= i < |f + c + m| ==> (f + c + m)[i] in f + c || (f + c + m)[i] in m;
    f + c + m
  }

  /** What `_generate_ambiguity_resolution` returns. */
  function AmbiguityResolution(info: WorkInfo, v: Verdict): Confirmation
  {
    Confirmation(info, v, AmbiguityLines(v), CandidateButtons(v) + TrailingChoices(info, v))
  }

  /**
   * A question list has between 3 and 15 buttons: up to three candidates
   * for the field, three for the crop and three for each of two materials,
   * every one a selection, followed by exactly manual input, register as
   * is and cancel.
   */
  lemma AmbiguityOptionsShape(info: WorkInfo, v: Verdict)
    ensures var os := AmbiguityResolution(info, v).options;
            3 <= |os| <= 15
            && Actions(os[|os| - 3..]) == [ManualInput, SkipAmbiguity, Cancel]
            && forall i :: 0 <= i < |os| - 3 ==> os[i].action in [SelectField, SelectCrop, SelectMaterial]
  {
    var bs := CandidateButtons(v);
    var t := TrailingChoices(info, v);
    assert Actions(t) == [ManualInput, SkipAmbiguity, Cancel];
    var os := bs + t;
    assert AmbiguityResolution(info, v).options == os;
    assert os[|os| - 3..] == t;
    assert forall i :: 0 <= i < |os| - 3 ==> os[i] == bs[i];
  }

  /** The block of one failing material: its lines and its buttons. */
  method ListMaterialBlock(c: Check) returns (lines: seq<Line>, options: seq<Choice>)
    ensures lines == MaterialBlock(c) && options == MaterialBlockChoices(c)
  {
    lines, options := [], [];
    if c.Unresolved? && c.options != [] {
      var ls, bs := ListCandidates(MaterialKind(c.input), c.options);
      lines := [Text("「" + c.input + "」という資材が見つかりませんでした。"), Text("以下のどちらかでしょうか？"), Text("")]
               + ls + [Text("")];
      options := bs;
    }
  }

  /** The blocks of the failing materials, appended in a loop over the first two. */
  method ListMaterialBlocks(fs: seq<Check>) returns (lines: seq<Line>, options: seq<Choice>)
    ensures lines == MaterialBlocks(fs) && options == MaterialBlocksChoices(fs)
  {
    lines, options := [], [];
    for j := 0 to |fs|
      invariant lines == MaterialBlocks(fs[..j]) && options == MaterialBlocksChoices(fs[..j])
    {
      assert fs[..j + 1][..j] == fs[..j];
      var ls, bs := ListMaterialBlock(fs[j]);
      lines, options := lines + ls, options + bs;
    }
    assert fs[..|fs|] == fs;
  }

  /** A heading and a bullet per item, appended in a loop. */
  method ListBullets(heading: string, items: seq<string>) returns (lines: seq<Line>)
    ensures lines == Bullets(heading, items)
  {
    if items == [] {
      return [];
    }
    lines := [Text(heading)];
    for i := 0 to |items|
      invariant |lines| == i + 1 && lines[0] == Text(heading)
      invariant forall j :: 0 <= j < i ==> lines[j + 1] == Text("• " + items[j])
    {
      lines := lines + [Text("• " + items[i])];
    }
    lines := lines + [Text("")];
  }

  /** The section of the field or the crop, appended line by line. */
  method ListEntity(c: Check, k: Kind, heading: string, noun: string) returns (lines: seq<Line>, options: seq<Choice>)
    ensures lines == EntityLines(c, k, heading, noun) && options == EntityChoices(c, k)
  {
    if !Offers(c) {
      return [], [];
    }
    lines := [Text(heading), Text("「" + c.input + "」という" + noun + "が見つかりませんでした。"),
              Text("以下のどちらかでしょうか？"), Text("")];
    var ls, bs := ListCandidates(k, c.options);
    lines := lines + ls + [Text("")];
    options := bs;
  }

  /** `_generate_ambiguity_resolution`: the sections in order, then the trailing three buttons. */
  method GenerateAmbiguityResolution(info: WorkInfo, v: Verdict) returns (c: Confirmation)
    ensures c == AmbiguityResolution(info, v)
  {
    var fieldLines, fieldOptions := ListEntity(v.field, FieldKind, "🏠 圃場名について：", "圃場");
    var cropLines, cropOptions := ListEntity(v.crop, CropKind, "🌱 作物名について：", "作物");
    var failing := FailingMaterials(v.materials);
    var materialLines, materialOptions := [], [];
    if failing != [] {
      var ls, bs := ListMaterialBlocks(Take(failing, 2));
      materialLines, materialOptions := [Text("🧪 資材について：")] + ls, bs;
    } else {
      assert Take(failing, 2) == [];
    }
    assert materialLines == MaterialSection(v.materials);
    assert materialOptions == MaterialBlocksChoices(Take(failing, 2));
    var missing := ListBullets("ℹ️ 追加で教えてください：", v.missingInfo);
    var suggestions := ListBullets("💡 確認事項：", v.suggestions);
    var lines := [Text(AmbiguityTitle), Text("")] + fieldLines + cropLines + materialLines + missing + suggestions;
    c := Confirmation(info, v, lines, fieldOptions + cropOptions + materialOptions + TrailingChoices(info, v));
  }

  // ---------------------------------------------------------------------
  // The error confirmation and the dispatch
  // ---------------------------------------------------------------------

  /** The lines of the error message around the error text. */
  function ErrorLines(message: string): seq<Line>
  {
    [Text(""), Text("❌ 作業記録の処理中にエラーが発生しました"), Text(""), Text("エラー詳細: " + message), Text(""),
     Text("お手数ですが、以下をお試しください："), Text("• より詳細な情報を含めて再入力"), Text("• 簡潔な表現で再入力"),
     Text("• 手動での入力"), Text(""), Text("ご不明な点がございましたら、サポートまでお問い合わせください。"), Text("")]
  }

  /** `_generate_error_confirmation`: an empty report, an empty invalid verdict and the three recovery buttons. */
  function ErrorConfirmation(message: string): (c: Confirmation)
    ensures c.info == EmptyWorkInfo() && !c.verdict.isValid
    ensures c.verdict == Verdict(false, Unchecked, Unchecked, [], [], [])
    ensures Actions(c.options) == [Retry, ManualInput, ContactSupport]
    ensures Text("エラー詳細: " + message) in c.message
  {
    var ls := ErrorLines(message);
    assert ls[3] == Text("エラー詳細: " + message);
    Confirmation(EmptyWorkInfo(), Verdict(false, Unchecked, Unchecked, [], [], []), ls, ErrorChoices())
  }

  /** The item `str.join` stops at: the first matched material without a name. */
  function FirstUnnamed(ns: seq<Option<string>>): (k: nat)
    requires !AllNamed(ns)
    ensures k < |ns| && ns[k].None?
    ensures forall j :: 0 <= j < k ==> ns[j].Some?
  {
    FirstIndex(ns, (n: Option<string>) => n.None?).value
  }

  /** The text of the `TypeError` raised when a matched material has no name to join. */
  function JoinError(v: Verdict): string
    requires !AllNamed(MatchedMaterialNames(v.materials))
  {
    JoinTypeError(FirstUnnamed(MatchedMaterialNames(v.materials)))
  }

  /**
   * What `generate_confirmation_message` returns: the final confirmation
   * for a valid verdict, the question list for an invalid one, and the
   * error confirmation when joining the material names raises.
   */
  function Confirm(info: WorkInfo, v: Verdict): Confirmation
  {
    if !v.isValid then AmbiguityResolution(info, v)
    else if AllNamed(MatchedMaterialNames(v.materials)) then FinalConfirmation(info, v)
    else ErrorConfirmation(JoinError(v))
  }

  /**
   * A valid verdict gets exactly the confirm / modify / cancel buttons
   * unless a matched material lacks its name, in which case the error
   * buttons are shown; an invalid verdict always ends with manual input /
   * register as is / cancel. The report and verdict are passed through
   * except on the error path.
   */
  lemma ConfirmShape(info: WorkInfo, v: Verdict)
    ensures var c := Confirm(info, v);
            (v.isValid && AllNamed(MatchedMaterialNames(v.materials)) ==>
               Actions(c.options) == [ConfirmRegistration, ModifyInfo, Cancel] && c.info == info && c.verdict == v)
            && (v.isValid && !AllNamed(MatchedMaterialNames(v.materials)) ==>
               Actions(c.options) == [Retry, ManualInput, ContactSupport])
            && (!v.isValid ==>
               Actions(c.options[|c.options| - 3..]) == [ManualInput, SkipAmbiguity, Cancel]
               && c.info == info && c.verdict == v)
  {
    if !v.isValid {
      AmbiguityOptionsShape(info, v);
    }
  }

  /** `generate_confirmation_message`. */
  method GenerateConfirmationMessage(info: WorkInfo, v: Verdict) returns (c: Confirmation)
    ensures c == Confirm(info, v)
  {
    if v.isValid {
      if !AllNamed(MatchedMaterialNames(v.materials)) {
        return ErrorConfirmation(JoinError(v));
      }
      c := GenerateFinalConfirmation(info, v);
    } else {
      c := GenerateAmbiguityResolution(info, v);
    }
  }
}
