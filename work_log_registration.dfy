/**
 * The work-log registration agent: a free-text work report is cut into raw
 * names with fixed patterns, the names are resolved against the master data,
 * the work date and the category are decided, and one record is inserted
 * into `work_logs`.  The dates follow the code as written: 昨日 is tried
 * before the 一昨日 that contains it, and `N日前` stores the literal
 * `\1日前`.  The intended order, with the number of days of `N日前` kept,
 * is defined beside it (`IntendedRelativeDate`, `IntendedWorkDate`) as the
 * reference the as-written dates are compared with.
 */
module WorkLogRegistration {
  import opened Common
  import opened Patterns
  import opened Records
  import WLE = WorkLogExtraction
  import R = Resolver

  // ---------------------------------------------------------------------
  // The work date
  // ---------------------------------------------------------------------

  /** `_parse_work_date`, on day numbers: the stored relative date read back against today. */
  function ParseWorkDate(relative: string, today: int): int
  {
    if relative == "昨日" then today - 1
    else if relative == "一昨日" then today - 2
    else if relative == "今日" then today
    else if Contains(relative, "日前") then
      match NumberBefore(relative, "日前")
      case Some(days) => today - days
      case None => today
    else today
  }

  /**
   * The `relative_date` the code as written stores: the first of the
   * patterns 昨日, 一昨日, 今日, `(\d+)日前` that is found, as the
   * replacement text of that pattern (the last one the raw string `\1日前`).
   */
  function RelativeDateAsWritten(m: string): string
  {
    OrEmpty(WLE.FallbackDate(m))
  }

  /** As written, a report of the day before yesterday (一昨日) is dated yesterday. */
  lemma DayBeforeYesterdayAsWritten(m: string, today: int)
    requires Contains(m, "一昨日")
    ensures ParseWorkDate(RelativeDateAsWritten(m), today) == today - 1
  {
    WLE.DayBeforeYesterdayShadowed(m);
  }

  /** The stored `\1日前` reads back as one day ago. */
  lemma LiteralBackReference()
    ensures Contains("\\1日前", "日前")
    ensures NumberBefore("\\1日前", "日前") == Some(1)
  {
    var s := "\\1日前";
    assert s == ['\\', '1', '日', '前'];
    assert OccursAt(s, "日前", 2) by {
      assert s[2..4] == ['日', '前'] == "日前";
    }
    ContainsAt(s, "日前", 2);
    RunEndOfDigits(s, 1, 2);
    assert DigitsBefore("日前")(s, 0).None?;
    assert DigitsBefore("日前")(s, 1) == Some(Span(1, 2, 4));
    assert Search(s, 0, DigitsBefore("日前")) == Some(Span(1, 2, 4));
    assert s[1..2] == "1";
  }

  /** As written, a report of N days ago (N日前, with no 昨日, 一昨日 or 今日) is dated one day ago, whatever N is. */
  lemma DaysAgoAsWritten(m: string, today: int)
    requires !WLE.DateHit(0, m) && !WLE.DateHit(1, m) && !WLE.DateHit(2, m) && WLE.DaysAgoMentioned(m)
    ensures ParseWorkDate(RelativeDateAsWritten(m), today) == today - 1
  {
    assert WLE.DateHit(3, m);
    assert RelativeDateAsWritten(m) == "\\1日前";
    LiteralBackReference();
  }

  /** The work date of a report, as the code as written computes it. */
  function WorkDateAsWritten(m: string, today: int): int
  {
    ParseWorkDate(RelativeDateAsWritten(m), today)
  }

  /**
   * The work date as written, case by case: the first of 昨日, 一昨日,
   * 今日 and N日前 found decides, N日前 counting as one day ago; with none
   * of them the report is dated today.  It is never in the future.
   */
  lemma WorkDateAsWrittenCases(m: string, today: int)
    ensures WLE.DateHit(0, m) ==> WorkDateAsWritten(m, today) == today - 1
    ensures !WLE.DateHit(0, m) && WLE.DateHit(1, m) ==> WorkDateAsWritten(m, today) == today - 2
    ensures !WLE.DateHit(0, m) && !WLE.DateHit(1, m) && WLE.DateHit(2, m) ==> WorkDateAsWritten(m, today) == today
    ensures !WLE.DateHit(0, m) && !WLE.DateHit(1, m) && !WLE.DateHit(2, m) && WLE.DaysAgoMentioned(m) ==>
              WorkDateAsWritten(m, today) == today - 1
    ensures !WLE.DateHit(0, m) && !WLE.DateHit(1, m) && !WLE.DateHit(2, m) && !WLE.DaysAgoMentioned(m) ==>
              WorkDateAsWritten(m, today) == today
    ensures WorkDateAsWritten(m, today) <= today
  {
    if !WLE.DateHit(0, m) && !WLE.DateHit(1, m) && !WLE.DateHit(2, m) {
      if WLE.DaysAgoMentioned(m) {
        DaysAgoAsWritten(m, today);
      } else {
        assert !WLE.DateHit(3, m);
        assert RelativeDateAsWritten(m) == "";
        assert !Contains("", "日前");
      }
    }
  }

  /** The date patterns in the order that tries 一昨日 before the 昨日 it contains (indices of the extractor's list). */
  const DateOrder: seq<nat> := [1, 0, 2, 3]

  /** Whether the n-th date pattern is found; the last is `(\d+)日前` as `re.search` reads it. */
  predicate DateFound(n: nat, m: string)
  {
    if n == 3 then NumberBefore(m, "日前").Some? else WLE.DateHit(n, m)
  }

  /** What the n-th pattern stores: its fixed text, or the number of days found followed by 日前. */
  function Replacement(n: nat, m: string): string
  {
    if n == 3 then
      match NumberBefore(m, "日前")
      case Some(days) => NatToString(days) + "日前"
      case None => ""
    else if n < 3 then WLE.DateReplacements[n]
    else ""
  }

  /** The replacement of the first pattern from the k-th on, in `DateOrder`, that is found. */
  function FirstDate(m: string, k: nat): string
    decreases |DateOrder| - k
  {
    if k >= |DateOrder| then ""
    else if DateFound(DateOrder[k], m) then Replacement(DateOrder[k], m)
    else FirstDate(m, k + 1)
  }

  /** The `relative_date` intended: 一昨日 tried before 昨日, and the days of `N日前` kept. */
  function IntendedRelativeDate(m: string): string
  {
    FirstDate(m, 0)
  }

  /** The work date of a report, as intended. */
  function IntendedWorkDate(m: string, today: int): int
  {
    ParseWorkDate(IntendedRelativeDate(m), today)
  }

  /** A number of days written before 日前 reads back as that number, and is none of the fixed words. */
  lemma DaysAgoReadBack(n: nat, today: int)
    ensures ParseWorkDate(NatToString(n) + "日前", today) == today - n
  {
    var d := NatToString(n);
    var rel := d + "日前";
    assert IsDigit(rel[0]);
    assert rel != "昨日" && rel != "一昨日" && rel != "今日";
    assert OccursAt(rel, "日前", |d|) by {
      assert rel[|d|..|d| + 2] == "日前";
    }
    ContainsAt(rel, "日前", |d|);
    NumberBeforeRoundTrip(n, "日前");
  }

  /**
   * The work date of a report: two days back for 一昨日 (or おととい),
   * one day back for 昨日 (or きのう), today for 今日 (or きょう), N days back
   * for N日前, and today when no date is named; never after today.
   */
  lemma WorkDateOfReport(m: string, today: int)
    ensures WLE.DateHit(1, m) ==> IntendedWorkDate(m, today) == today - 2
    ensures !WLE.DateHit(1, m) && WLE.DateHit(0, m) ==> IntendedWorkDate(m, today) == today - 1
    ensures !WLE.DateHit(1, m) && !WLE.DateHit(0, m) && WLE.DateHit(2, m) ==> IntendedWorkDate(m, today) == today
    ensures !WLE.DateHit(1, m) && !WLE.DateHit(0, m) && !WLE.DateHit(2, m) && NumberBefore(m, "日前").Some? ==>
              IntendedWorkDate(m, today) == today - NumberBefore(m, "日前").value
    ensures !WLE.DateHit(1, m) && !WLE.DateHit(0, m) && !WLE.DateHit(2, m) && NumberBefore(m, "日前").None? ==>
              IntendedWorkDate(m, today) == today
    ensures IntendedWorkDate(m, today) <= today
  {
    RelativeDateCases(m);
    if !WLE.DateHit(1, m) && !WLE.DateHit(0, m) && !WLE.DateHit(2, m) && NumberBefore(m, "日前").Some? {
      DaysAgoReadBack(NumberBefore(m, "日前").value, today);
    }
  }

  /** The stored relative date, pattern by pattern in the corrected order. */
  lemma RelativeDateCases(m: string)
    ensures WLE.DateHit(1, m) ==> IntendedRelativeDate(m) == "一昨日"
    ensures !WLE.DateHit(1, m) && WLE.DateHit(0, m) ==> IntendedRelativeDate(m) == "昨日"
    ensures !WLE.DateHit(1, m) && !WLE.DateHit(0, m) && WLE.DateHit(2, m) ==> IntendedRelativeDate(m) == "今日"
    ensures !WLE.DateHit(1, m) && !WLE.DateHit(0, m) && !WLE.DateHit(2, m) ==>
              IntendedRelativeDate(m) == Replacement(3, m)
  {
    assert DateOrder[0] == 1 && DateOrder[1] == 0 && DateOrder[2] == 2 && DateOrder[3] == 3;
    assert FirstDate(m, 4) == "";
    assert FirstDate(m, 3) == Replacement(3, m);
  }

  // ---------------------------------------------------------------------
  // The extraction patterns
  // ---------------------------------------------------------------------

  /** `[^、。\s]` */
  predicate PieceChar(c: char)
  {
    c != '、' && c != '。' && !IsSpace(c)
  }

  /** `([^、。\s]+)(?:k1|k2|…)`: the run followed by one of the keywords, which the match consumes. */
  function BeforeAny(keys: seq<string>): Matcher
  {
    (s: string, i: nat) => GreedyAt(s, i, "", PieceChar, 1,
                                    (t: string, k: nat) => AnyAt(t, keys, k),
                                    (t: string, k: nat) => FirstAtLen(t, keys, k))
  }

  /** `([^、。\s]+)の(?:k1|k2|…)` */
  function BeforeNoAny(keys: seq<string>): Matcher
  {
    (s: string, i: nat) => GreedyAt(s, i, "", PieceChar, 1,
                                    (t: string, k: nat) => OccursAt(t, "の", k) && AnyAt(t, keys, k + 1),
                                    (t: string, k: nat) => 1 + FirstAtLen(t, keys, k + 1))
  }

  /** `(k1|k2|…)`: the first keyword that occurs at i. */
  function AnyOf(keys: seq<string>): Matcher
  {
    (s: string, i: nat) =>
      if AnyAt(s, keys, i) then
        var n := FirstAtLen(s, keys, i);
        Some(Span(i, i + n, i + n))
      else None
  }

  const FieldSuffixes: seq<string> := ["ハウス", "畑", "田", "圃場"]
  const FieldWorkWords: seq<string> := ["防除", "施肥", "作業"]
  const MainCrops: seq<string> := ["トマト", "キュウリ", "ナス", "ピーマン", "イチゴ"]
  const CropSuffixes: seq<string> := ["の防除", "に散布", "を収穫"]
  const MaterialSuffixes: seq<string> := ["を散布", "使用"]

  const Daconil: string := "ダコニール"
  const Morestan: string := "モレスタン"
  const Aphid: string := "アブラムシ"

  /** `(ダコニール\d*|モレスタン|アブラムシ\w*)` tried at i. */
  function NamedMaterial(s: string, i: nat): (r: Option<Span>)
    ensures r.Some? ==> r.value.start == i < r.value.stop <= |s|
  {
    if OccursAt(s, Daconil, i) then
      var e := RunEnd(s, i + |Daconil|, IsDigit);
      Some(Span(i, e, e))
    else if OccursAt(s, Morestan, i) then
      Some(Span(i, i + |Morestan|, i + |Morestan|))
    else if OccursAt(s, Aphid, i) then
      var e := RunEnd(s, i + |Aphid|, IsWordChar);
      Some(Span(i, e, e))
    else None
  }

  /** `field_patterns` */
  const FieldPatterns: seq<Matcher> := [BeforeAny(FieldSuffixes), BeforeNoAny(FieldWorkWords)]
  /** `crop_patterns` */
  const CropPatterns: seq<Matcher> := [AnyOf(MainCrops), BeforeAny(CropSuffixes)]
  /** `material_patterns` */
  const MaterialPatterns: seq<Matcher> := [NamedMaterial, BeforeAny(MaterialSuffixes)]

  /** The group of the first pattern found, `''` when none is. */
  function FirstGroup(m: string, pats: seq<Matcher>): string
  {
    match FirstSearch(m, pats)
    case Some(sp) => Group(m, sp)
    case None => ""
  }

  /** `re.findall` of each pattern in turn, the lists joined. */
  function AllGroups(m: string, pats: seq<Matcher>): seq<string>
    decreases |pats|
  {
    if pats == [] then []
    else
      var last := FindAll(m, 0, pats[|pats| - 1]);
      AllGroups(m, pats[..|pats| - 1]) + Groups(m, last)
  }

  // ---------------------------------------------------------------------
  // The work-type keywords
  // ---------------------------------------------------------------------

  /** `work_types`, in the order of the dictionary. */
  const WorkTypes: seq<(Category, seq<string>)> := [
    (PestControl, ["防除", "農薬", "散布", "殺菌", "殺虫"]),
    (Fertilizing, ["施肥", "肥料", "追肥", "元肥"]),
    (Cultivation, ["播種", "定植", "摘心", "誘引", "整枝"]),
    (Harvest, ["収穫", "収穫量", "出荷"]),
    (Management, ["草刈り", "清掃", "点検"])
  ]

  /** A category's place in `work_types`. */
  function Rank(c: Category): nat
  {
    match c
    case PestControl => 0
    case Fertilizing => 1
    case Cultivation => 2
    case Harvest => 3
    case Management => 4
    case OtherWork => 5
  }

  /**
   * The categories among the first n of `work_types` one of whose keywords
   * the report contains: each such category exactly once, in the
   * dictionary's order.
   */
  function WorkTypesIn(m: string, n: nat): (r: seq<Category>)
    requires n <= |WorkTypes|
    ensures forall c :: c in r <==> exists k :: 0 <= k < n && WorkTypes[k].0 == c && ContainsAny(m, WorkTypes[k].1)
    ensures forall i, j :: 0 <= i < j < |r| ==> Rank(r[i]) < Rank(r[j])
    ensures forall i :: 0 <= i < |r| ==> Rank(r[i]) < n
  {
    if n == 0 then []
    else
      assert forall k :: 0 <= k < |WorkTypes| ==> Rank(WorkTypes[k].0) == k;
      WorkTypesIn(m, n - 1) + (if ContainsAny(m, WorkTypes[n - 1].1) then [WorkTypes[n - 1].0] else [])
  }

  // ---------------------------------------------------------------------
  // `_extract_work_info`
  // ---------------------------------------------------------------------

  /** The dictionary `_extract_work_info` returns (`quantities` is never filled and is left out). */
  datatype RawWorkInfo = RawWorkInfo(rawFieldName: string, rawCropName: string, rawMaterialNames: seq<string>,
                                     workTypeKeywords: seq<Category>, workCount: Option<nat>, relativeDate: string)

  function WorkInfoOf(m: string): RawWorkInfo
  {
    RawWorkInfo(FirstGroup(m, FieldPatterns), FirstGroup(m, CropPatterns), AllGroups(m, MaterialPatterns),
                WorkTypesIn(m, |WorkTypes|), NumberBefore(m, "回目"), RelativeDateAsWritten(m))
  }

  /** The date loop: stop at the first pattern found, in the listed order, and store its replacement. */
  method FindRelativeDate(m: string) returns (relative: string)
    ensures relative == RelativeDateAsWritten(m)
  {
    relative := "";
    for n := 0 to WLE.DatePatternCount
      invariant relative == ""
      invariant WLE.DateFrom(m, n) == WLE.FallbackDate(m)
    {
      if WLE.DateHit(n, m) {
        relative := WLE.DateReplacements[n];
        return;
      }
    }
  }

  /** The work-type loop: append each category one of whose keywords occurs. */
  method FindWorkTypes(m: string) returns (kinds: seq<Category>)
    ensures kinds == WorkTypesIn(m, |WorkTypes|)
  {
    kinds := [];
    for n := 0 to |WorkTypes|
      invariant kinds == WorkTypesIn(m, n)
    {
      if ContainsAny(m, WorkTypes[n].1) {
        kinds := kinds + [WorkTypes[n].0];
      }
    }
  }

  /** The material loop: extend the list with every match of each pattern. */
  method FindMaterials(m: string, pats: seq<Matcher>) returns (names: seq<string>)
    ensures names == AllGroups(m, pats)
  {
    names := [];
    for k := 0 to |pats|
      invariant names == AllGroups(m, pats[..k])
    {
      assert pats[..k + 1][..k] == pats[..k];
      names := names + Groups(m, FindAll(m, 0, pats[k]));
    }
    assert pats[..|pats|] == pats;
  }

  /** `_extract_work_info` */
  method ExtractWorkInfo(m: string) returns (info: RawWorkInfo)
    ensures info == WorkInfoOf(m)
  {
    var relative := FindRelativeDate(m);
    var kinds := FindWorkTypes(m);
    var count := NumberBefore(m, "回目");
    var field := FindFirst(m, FieldPatterns);
    var crop := FindFirst(m, CropPatterns);
    var materials := FindMaterials(m, MaterialPatterns);
    info := RawWorkInfo(if field.Some? then Group(m, field.value) else "",
                        if crop.Some? then Group(m, crop.value) else "",
                        materials, kinds, count, relative);
  }

  /** A captured group is a piece of the report. */
  lemma GroupContained(s: string, sp: Span)
    requires ValidSpan(s, sp)
    ensures Contains(s, Group(s, sp))
  {
    ContainsAt(s, Group(s, sp), sp.start);
  }

  /** A field-pattern match captures a non-empty run without 、, 。 or blanks. */
  lemma FieldMatchShape(m: string, k: nat, i: nat)
    requires k < |FieldPatterns| && FieldPatterns[k](m, i).Some?
    ensures var sp := FieldPatterns[k](m, i).value;
            sp.start == i && i < sp.stop <= |m| && forall j :: i <= j < sp.stop ==> PieceChar(m[j])
  {
  }

  /** A group over name characters consists of name characters. */
  lemma GroupOfPieces(s: string, sp: Span)
    requires sp.start <= sp.stop <= |s| && forall j :: sp.start <= j < sp.stop ==> PieceChar(s[j])
    ensures forall j :: 0 <= j < |Group(s, sp)| ==> PieceChar(Group(s, sp)[j])
  {
    var r := Group(s, sp);
    forall j | 0 <= j < |r|
      ensures PieceChar(r[j])
    {
      assert r[j] == s[sp.start + j];
    }
  }

  /**
   * The raw field name is empty exactly when neither field pattern is
   * found; otherwise it is a non-empty piece of the report without 、, 。
   * or blanks.
   */
  lemma RawFieldNameShape(m: string)
    ensures var r := FirstGroup(m, FieldPatterns);
            (r == "" <==> FirstSearch(m, FieldPatterns).None?)
            && (r != "" ==> Contains(m, r) && forall j :: 0 <= j < |r| ==> PieceChar(r[j]))
  {
    match FirstSearch(m, FieldPatterns)
    case Some(sp) =>
      var k :| 0 <= k < |FieldPatterns| && Search(m, 0, FieldPatterns[k]) == Some(sp);
      var i :| 0 <= i <= |m| && FieldPatterns[k](m, i) == Some(sp);
      FieldMatchShape(m, k, i);
      GroupContained(m, sp);
      GroupOfPieces(m, sp);
    case None =>
  }

  /** A field word (ハウス, 畑, 田, 圃場) right after a name character always yields a raw field name. */
  lemma FieldWordNamesField(m: string, k: nat)
    requires 0 < k <= |m| && AnyAt(m, FieldSuffixes, k) && PieceChar(m[k - 1])
    ensures FirstGroup(m, FieldPatterns) != ""
  {
    var follows := (t: string, j: nat) => AnyAt(t, FieldSuffixes, j);
    assert MatchesAt(m, k - 1, k, "", PieceChar, 1, follows);
    assert FieldPatterns[0](m, k - 1).Some?;
    assert Search(m, 0, FieldPatterns[0]).Some?;
    RawFieldNameShape(m);
  }

  /** `(k1|k2|…)` captures one of its keywords. */
  lemma AnyOfCapturesKeyword(s: string, keys: seq<string>, i: nat)
    requires AnyOf(keys)(s, i).Some?
    ensures ValidSpan(s, AnyOf(keys)(s, i).value) && Group(s, AnyOf(keys)(s, i).value) in keys
  {
    var j :| 0 <= j < |keys| && OccursAt(s, keys[j], i) && FirstAtLen(s, keys, i) == |keys[j]|;
    assert Group(s, AnyOf(keys)(s, i).value) == keys[j];
  }

  /** A main crop named in the report (トマト, キュウリ, ナス, ピーマン, イチゴ) is the raw crop name, or another main crop named earlier. */
  lemma MainCropNamed(m: string)
    requires ContainsAny(m, MainCrops)
    ensures FirstGroup(m, CropPatterns) in MainCrops
  {
    var n :| 0 <= n < |MainCrops| && Contains(m, MainCrops[n]);
    var p := ContainsWitness(m, MainCrops[n]);
    assert AnyAt(m, MainCrops, p);
    AnyOfCapturesKeyword(m, MainCrops, p);
    var found := Search(m, 0, CropPatterns[0]);
    assert found.Some?;
    var i :| 0 <= i <= |m| && CropPatterns[0](m, i) == found;
    AnyOfCapturesKeyword(m, MainCrops, i);
    assert FirstSearch(m, CropPatterns) == found;
  }

  /** Patterns that never match an empty group find only non-empty pieces of the text. */
  lemma AllGroupsShape(m: string, pats: seq<Matcher>)
    requires forall k, s, i :: 0 <= k < |pats| && pats[k](s, i).Some? ==> pats[k](s, i).value.start < pats[k](s, i).value.stop
    ensures forall n :: 0 <= n < |AllGroups(m, pats)| ==> AllGroups(m, pats)[n] != "" && Contains(m, AllGroups(m, pats)[n])
    decreases |pats|
  {
    if pats != [] {
      AllGroupsShape(m, pats[..|pats| - 1]);
      var all := FindAll(m, 0, pats[|pats| - 1]);
      forall n | 0 <= n < |all|
        ensures Group(m, all[n]) != "" && Contains(m, Group(m, all[n]))
      {
        var i :| 0 <= i <= |m| && pats[|pats| - 1](m, i) == Some(all[n]);
        GroupContained(m, all[n]);
      }
    }
  }

  /** The material patterns capture non-empty names. */
  lemma MaterialPatternsNonEmpty()
    ensures forall k, s, i :: 0 <= k < |MaterialPatterns| && MaterialPatterns[k](s, i).Some? ==>
              MaterialPatterns[k](s, i).value.start < MaterialPatterns[k](s, i).value.stop
  {
  }

  /** The raw material names are non-empty pieces of the report. */
  lemma RawMaterialNames(m: string)
    ensures forall n :: 0 <= n < |WorkInfoOf(m).rawMaterialNames| ==>
              WorkInfoOf(m).rawMaterialNames[n] != "" && Contains(m, WorkInfoOf(m).rawMaterialNames[n])
  {
    MaterialPatternsNonEmpty();
    AllGroupsShape(m, MaterialPatterns);
  }

  /** `(\d+)回目` reads back the count written before 回目. */
  lemma WorkCountRoundTrip(n: nat)
    ensures WorkInfoOf(NatToString(n) + "回目").workCount == Some(n)
  {
    NumberBeforeRoundTrip(n, "回目");
  }

  // ---------------------------------------------------------------------
  // `_resolve_master_data`
  // ---------------------------------------------------------------------

  /** `resolved`: the field and crop resolution when a raw name was found, and one resolution per raw material name. */
  datatype MasterData = MasterData(field: Option<R.Resolution>, crop: Option<R.Resolution>, materials: seq<R.Resolution>)

  /** What `resolve_*_data` answers once the rows are loaded (or the load failed). */
  function FieldAnswer(text: string, data: Fetch<R.FieldRow>, ratio: Ratio): R.Resolution
  {
    if data.Failed? then R.ErrorResolution(text, data.message) else R.FieldResolution(text, data.rows, ratio)
  }

  function CropAnswer(text: string, data: Fetch<R.CropRow>, ratio: Ratio): R.Resolution
  {
    if data.Failed? then R.ErrorResolution(text, data.message) else R.CropResolution(text, data.rows, ratio)
  }

  function MaterialAnswer(text: string, data: Fetch<R.MaterialRow>, ratio: Ratio): R.Resolution
  {
    if data.Failed? then R.ErrorResolution(text, data.message) else R.MaterialResolution(text, data.rows, ratio)
  }

  /** The resolutions of a report against the rows each of the three loads gives. */
  function ResolvedFrom(info: RawWorkInfo, fields: Fetch<R.FieldRow>, crops: Fetch<R.CropRow>,
                        materials: Fetch<R.MaterialRow>, ratio: Ratio): (r: MasterData)
    ensures r.field.Some? <==> info.rawFieldName != ""
    ensures r.crop.Some? <==> info.rawCropName != ""
    ensures |r.materials| == |info.rawMaterialNames|
  {
    var names := info.rawMaterialNames;
    MasterData(if info.rawFieldName != "" then Some(FieldAnswer(info.rawFieldName, fields, ratio)) else None,
             if info.rawCropName != "" then Some(CropAnswer(info.rawCropName, crops, ratio)) else None,
             seq(|names|, k requires 0 <= k < |names| => MaterialAnswer(names[k], materials, ratio)))
  }

  /** Loading again at the same instant gives the same rows as the first load. */
  lemma LoadStable<T>(cache: Option<seq<T>>, cachedAt: real, now: real, db: Fetch<T>)
    ensures var after := R.CacheAfter(cache, cachedAt, now, db);
            R.Load(after.0, after.1, now, db) == R.Load(cache, cachedAt, now, db)
            && R.CacheAfter(after.0, after.1, now, db) == after
  {
    R.LoadLeavesFreshCache(cache, cachedAt, now, db);
  }

  /**
   * `_resolve_master_data`: the field and the crop are resolved when a raw
   * name was found, and every raw material name in turn.  All the
   * materials of one report are matched against the same rows: the first
   * load fills the cache and the later ones, at the same instant, reuse it.
   */
  method ResolveMasterData(resolver: R.MasterDataResolver, info: RawWorkInfo, now: real,
                           fieldsDb: Fetch<R.FieldRow>, cropsDb: Fetch<R.CropRow>, materialsDb: Fetch<R.MaterialRow>,
                           ratio: Ratio) returns (res: MasterData)
    modifies resolver
    ensures res == ResolvedFrom(info, R.Load(old(resolver.fieldsCache), old(resolver.fieldsCacheTime), now, fieldsDb),
                                R.Load(old(resolver.cropsCache), old(resolver.cropsCacheTime), now, cropsDb),
                                R.Load(old(resolver.materialsCache), old(resolver.materialsCacheTime), now, materialsDb), ratio)
    ensures (resolver.fieldsCache, resolver.fieldsCacheTime) ==
              if info.rawFieldName != "" then R.CacheAfter(old(resolver.fieldsCache), old(resolver.fieldsCacheTime), now, fieldsDb)
              else (old(resolver.fieldsCache), old(resolver.fieldsCacheTime))
    ensures (resolver.cropsCache, resolver.cropsCacheTime) ==
              if info.rawCropName != "" then R.CacheAfter(old(resolver.cropsCache), old(resolver.cropsCacheTime), now, cropsDb)
              else (old(resolver.cropsCache), old(resolver.cropsCacheTime))
    ensures (resolver.materialsCache, resolver.materialsCacheTime) ==
              if info.rawMaterialNames != [] then R.CacheAfter(old(resolver.materialsCache), old(resolver.materialsCacheTime), now, materialsDb)
              else (old(resolver.materialsCache), old(resolver.materialsCacheTime))
  {
    var field: Option<R.Resolution> := None;
    var crop: Option<R.Resolution> := None;
    if info.rawFieldName != "" {
      var r := resolver.ResolveFieldData(info.rawFieldName, now, fieldsDb, ratio);
      field := Some(r);
    }
    if info.rawCropName != "" {
      var r := resolver.ResolveCropData(info.rawCropName, now, cropsDb, ratio);
      crop := Some(r);
    }
    var materials := ResolveMaterialNames(resolver, info.rawMaterialNames, now, materialsDb, ratio);
    res := MasterData(field, crop, materials);
  }

  /**
   * The material loop of `_resolve_master_data`: one resolution per raw
   * name, all against the rows of the first load, which fills the cache.
   */
  method ResolveMaterialNames(resolver: R.MasterDataResolver, names: seq<string>, now: real,
                              materialsDb: Fetch<R.MaterialRow>, ratio: Ratio) returns (materials: seq<R.Resolution>)
    modifies resolver
    ensures var data := R.Load(old(resolver.materialsCache), old(resolver.materialsCacheTime), now, materialsDb);
            |materials| == |names| && forall j :: 0 <= j < |names| ==> materials[j] == MaterialAnswer(names[j], data, ratio)
    ensures (resolver.materialsCache, resolver.materialsCacheTime) ==
              if names != [] then R.CacheAfter(old(resolver.materialsCache), old(resolver.materialsCacheTime), now, materialsDb)
              else (old(resolver.materialsCache), old(resolver.materialsCacheTime))
    ensures resolver.fieldsCache == old(resolver.fieldsCache) && resolver.fieldsCacheTime == old(resolver.fieldsCacheTime)
    ensures resolver.cropsCache == old(resolver.cropsCache) && resolver.cropsCacheTime == old(resolver.cropsCacheTime)
  {
    ghost var cache0, at0 := resolver.materialsCache, resolver.materialsCacheTime;
    ghost var data := R.Load(cache0, at0, now, materialsDb);
    ghost var after := R.CacheAfter(cache0, at0, now, materialsDb);
    LoadStable(cache0, at0, now, materialsDb);
    materials := [];
    for k := 0 to |names|
      invariant |materials| == k
      invariant forall j :: 0 <= j < k ==> materials[j] == MaterialAnswer(names[j], data, ratio)
      invariant k == 0 ==> resolver.materialsCache == cache0 && resolver.materialsCacheTime == at0
      invariant k > 0 ==> resolver.materialsCache == after.0 && resolver.materialsCacheTime == after.1
      invariant resolver.fieldsCache == old(resolver.fieldsCache) && resolver.fieldsCacheTime == old(resolver.fieldsCacheTime)
      invariant resolver.cropsCache == old(resolver.cropsCache) && resolver.cropsCacheTime == old(resolver.cropsCacheTime)
    {
      var r := resolver.ResolveMaterialData(names[k], now, materialsDb, ratio);
      materials := materials + [r];
    }
  }

  // ---------------------------------------------------------------------
  // `_classify_work_type`
  // ---------------------------------------------------------------------

  /** What one resolved material says about the work; `NameMissing` when its name is None and `.lower()` raises. */
  datatype Hint = NoHint | Hinted(category: Category) | NameMissing

  const PestNameWords: seq<string> := ["殺菌", "殺虫", "農薬"]
  const FertilizerNameWords: seq<string> := ["肥料", "化成"]

  function MaterialHint(r: R.Resolution): (h: Hint)
    ensures h.Hinted? ==> h.category == PestControl || h.category == Fertilizing
    ensures !Truthy(r.id) ==> h == NoHint
  {
    if !Truthy(r.id) then NoHint
    else if r.name.None? then NameMissing
    else
      var name := Lower(r.name.value);
      if ContainsAny(name, PestNameWords) then Hinted(PestControl)
      else if ContainsAny(name, FertilizerNameWords) then Hinted(Fertilizing)
      else NoHint
  }

  /**
   * The materials loop: the first material with a hint decides (None when
   * its name is missing, which raises); with no hint at all, その他.
   */
  function MaterialsCategory(ms: seq<R.Resolution>): (r: Option<Category>)
    ensures r == Some(OtherWork) <==> forall k :: 0 <= k < |ms| ==> MaterialHint(ms[k]) == NoHint
    ensures r.None? <==> exists k :: 0 <= k < |ms| && MaterialHint(ms[k]) == NameMissing
                                     && forall j :: 0 <= j < k ==> MaterialHint(ms[j]) == NoHint
    ensures r.Some? && r != Some(OtherWork) ==>
              exists k :: 0 <= k < |ms| && MaterialHint(ms[k]) == Hinted(r.value)
                          && forall j :: 0 <= j < k ==> MaterialHint(ms[j]) == NoHint
    decreases |ms|
  {
    if ms == [] then Some(OtherWork)
    else
      var rest := MaterialsCategory(ms[1..]);
      assert forall k :: 1 <= k < |ms| ==> ms[1..][k - 1] == ms[k];
      match MaterialHint(ms[0])
      case NoHint => rest
      case Hinted(c) => Some(c)
      case NameMissing => None
  }

  /** `_classify_work_type`: the first keyword category, else what the materials say; None when it raises. */
  function ClassifyWorkType(info: RawWorkInfo, res: MasterData): (r: Option<Category>)
    ensures info.workTypeKeywords != [] ==> r == Some(info.workTypeKeywords[0])
    ensures info.workTypeKeywords == [] ==> r == MaterialsCategory(res.materials)
  {
    if info.workTypeKeywords != [] then Some(info.workTypeKeywords[0]) else MaterialsCategory(res.materials)
  }

  /** A material that was not found in the master data never changes the category. */
  lemma {:induction false} UnresolvedMaterialIgnored(ms: seq<R.Resolution>, k: nat)
    requires k < |ms| && !Truthy(ms[k].id)
    ensures MaterialsCategory(ms) == MaterialsCategory(ms[..k] + ms[k + 1..])
    decreases k
  {
    if k == 0 {
      assert ms[..0] + ms[1..] == ms[1..];
    } else {
      UnresolvedMaterialIgnored(ms[1..], k - 1);
      assert ms[..k] + ms[k + 1..] == [ms[0]] + (ms[1..][..k - 1] + ms[1..][k..]);
    }
  }

  /** The loop of `_classify_work_type`. */
  method ClassifyWork(info: RawWorkInfo, res: MasterData) returns (r: Option<Category>)
    ensures r == ClassifyWorkType(info, res)
  {
    if info.workTypeKeywords != [] {
      return Some(info.workTypeKeywords[0]);
    }
    var ms := res.materials;
    for k := 0 to |ms|
      invariant MaterialsCategory(ms[k..]) == MaterialsCategory(ms)
    {
      assert ms[k..][1..] == ms[k + 1..];
      var h := MaterialHint(ms[k]);
      if h.Hinted? {
        return Some(h.category);
      } else if h.NameMissing? {
        return None;
      }
    }
    assert ms[|ms|..] == [];
    r := Some(OtherWork);
  }

  // ---------------------------------------------------------------------
  // `_save_work_log`
  // ---------------------------------------------------------------------

  /** An id found in the master data with its name. */
  datatype Entity = Entity(id: string, name: Option<string>)

  /** `extracted_data`; an absent key is None, or an empty list for the material lists. */
  datatype LogData = LogData(field: Option<Entity>, crop: Option<Entity>,
                             materialIds: seq<string>, materialNames: seq<Option<string>>)

  /** The field or crop entry: present only when the resolution carries a non-empty id. */
  function EntityOf(r: Option<R.Resolution>): (e: Option<Entity>)
    ensures e.Some? <==> r.Some? && Truthy(r.value.id)
    ensures e.Some? ==> e.value.id == r.value.id.value && e.value.name == r.value.name
  {
    if r.Some? && Truthy(r.value.id) then Some(Entity(r.value.id.value, r.value.name)) else None
  }

  /**
   * `material_ids` and `material_names`: the id and name of every material
   * with a non-empty id, in order, side by side.
   */
  function MaterialLists(ms: seq<R.Resolution>): (r: (seq<string>, seq<Option<string>>))
    ensures |r.0| == |r.1| <= |ms|
    decreases |ms|
  {
    if ms == [] then ([], [])
    else
      var front := MaterialLists(ms[..|ms| - 1]);
      var last := ms[|ms| - 1];
      if Truthy(last.id) then (front.0 + [last.id.value], front.1 + [last.name]) else front
  }

  /**
   * The lists are paired: each stored id comes with the name of a material
   * that resolved to it, and every resolved material's id is stored.
   */
  lemma {:induction false} MaterialListsPaired(ms: seq<R.Resolution>)
    ensures var r := MaterialLists(ms);
            forall k :: 0 <= k < |r.0| ==>
              |r.0[k]| > 0 && exists j :: 0 <= j < |ms| && ms[j].id == Some(r.0[k]) && ms[j].name == r.1[k]
    ensures var r := MaterialLists(ms);
            forall j :: 0 <= j < |ms| && Truthy(ms[j].id) ==> ms[j].id.value in r.0
    decreases |ms|
  {
    if ms != [] {
      var n := |ms| - 1;
      var front := ms[..n];
      var last := ms[n];
      MaterialListsPaired(front);
      var f := MaterialLists(front);
      var r := MaterialLists(ms);
      assert forall j :: 0 <= j < n ==> front[j] == ms[j];
      forall k | 0 <= k < |r.0|
        ensures |r.0[k]| > 0 && exists j :: 0 <= j < |ms| && ms[j].id == Some(r.0[k]) && ms[j].name == r.1[k]
      {
        if k < |f.0| {
          assert r.0[k] == f.0[k] && r.1[k] == f.1[k];
          var j :| 0 <= j < n && front[j].id == Some(f.0[k]) && front[j].name == f.1[k];
          assert ms[j] == front[j];
        } else {
          assert Truthy(last.id) && r.0[k] == last.id.value && r.1[k] == last.name;
          assert ms[n] == last;
        }
      }
      forall j | 0 <= j < |ms| && Truthy(ms[j].id)
        ensures ms[j].id.value in r.0
      {
        if j < n {
          assert ms[j] == front[j];
          assert ms[j].id.value in f.0;
        }
      }
    }
  }

  /**
   * The lists keep the order of the materials: those of a concatenation
   * are the lists of its first part followed by those of its second.
   */
  lemma {:induction false} MaterialListsConcat(a: seq<R.Resolution>, b: seq<R.Resolution>)
    ensures MaterialLists(a + b).0 == MaterialLists(a).0 + MaterialLists(b).0
    ensures MaterialLists(a + b).1 == MaterialLists(a).1 + MaterialLists(b).1
    decreases |b|
  {
    if b == [] {
      assert a + b == a;
    } else {
      var front := b[..|b| - 1];
      var last := b[|b| - 1];
      assert (a + b)[..|a + b| - 1] == a + front;
      assert (a + b)[|a + b| - 1] == last;
      MaterialListsConcat(a, front);
      var (whole, fb, ab) := (MaterialLists(a + b), MaterialLists(front), MaterialLists(a + front));
      if Truthy(last.id) {
        assert MaterialLists(b) == (fb.0 + [last.id.value], fb.1 + [last.name]);
        assert whole == (ab.0 + [last.id.value], ab.1 + [last.name]);
      } else {
        assert MaterialLists(b) == fb;
        assert whole == ab;
      }
    }
  }

  /** The material lists built by the loop of `_save_work_log`. */
  method CollectMaterials(ms: seq<R.Resolution>) returns (ids: seq<string>, names: seq<Option<string>>)
    ensures (ids, names) == MaterialLists(ms)
  {
    ids, names := [], [];
    for k := 0 to |ms|
      invariant (ids, names) == MaterialLists(ms[..k])
    {
      assert ms[..k + 1][..k] == ms[..k];
      if Truthy(ms[k].id) {
        ids, names := ids + [ms[k].id.value], names + [ms[k].name];
      }
    }
    assert ms[..|ms|] == ms;
  }

  function LogDataOf(res: MasterData): LogData
  {
    var lists := MaterialLists(res.materials);
    LogData(EntityOf(res.field), EntityOf(res.crop), lists.0, lists.1)
  }

  /** The stored record (the two timestamps are left out). */
  datatype LogRecord = LogRecord(logId: string, userId: string, workDate: int, originalMessage: string,
                                 data: LogData, category: Category, tags: seq<Category>, status: string)

  const Confirmed: string := "confirmed"

  /** The record `_save_work_log` inserts: tagged with its category alone, and confirmed. */
  function RecordOf(logId: string, userId: string, workDate: int, message: string, res: MasterData,
                    category: Category): (r: LogRecord)
    ensures r.tags == [r.category] && r.status == Confirmed
    ensures r.data.field.Some? <==> res.field.Some? && Truthy(res.field.value.id)
    ensures r.data.crop.Some? <==> res.crop.Some? && Truthy(res.crop.value.id)
    ensures |r.data.materialIds| == |r.data.materialNames|
  {
    LogRecord(logId, userId, workDate, message, LogDataOf(res), category, [category], Confirmed)
  }

  /** The `work_logs` collection. */
  class WorkLogStore {
    var logs: seq<LogRecord>

    constructor()
      ensures logs == []
    {
      logs := [];
    }

    /** `insert_one` */
    method InsertOne(r: LogRecord)
      modifies this
      ensures logs == old(logs) + [r]
    {
      logs := logs + [r];
    }
  }

  /** The outcome of saving: the record stored, or the error the insert raised. */
  datatype Saved = Stored(record: LogRecord) | SaveFailed(error: string)

  /**
   * `_save_work_log`, with the log id (built from the clock and a random
   * uuid) as a parameter and `insertError` the failure of the insert, if
   * any: either the record is appended, or nothing is.
   */
  method SaveWorkLog(store: WorkLogStore, message: string, res: MasterData, workDate: int, category: Category,
                     userId: string, logId: string, insertError: Option<string>) returns (saved: Saved)
    modifies store
    ensures insertError.Some? ==> saved == SaveFailed(insertError.value) && store.logs == old(store.logs)
    ensures insertError.None? ==> saved == Stored(RecordOf(logId, userId, workDate, message, res, category))
                                  && store.logs == old(store.logs) + [saved.record]
  {
    var ids, names := CollectMaterials(res.materials);
    var data := LogData(EntityOf(res.field), EntityOf(res.crop), ids, names);
    var record := LogRecord(logId, userId, workDate, message, data, category, [category], Confirmed);
    if insertError.Some? {
      return SaveFailed(insertError.value);
    }
    store.InsertOne(record);
    saved := Stored(record);
  }

  // ---------------------------------------------------------------------
  // `_format_registration_result` and `register_work_log`
  // ---------------------------------------------------------------------

  datatype Reply =
    | Registered(logId: string, workDate: int, category: Category, data: LogData, confidence: real, message: string)
    | NotRegistered(error: string, message: string)

  const FailureMessage: string := "作業記録の登録中にエラーが発生しました。"
  /** `str(e)` of the AttributeError `None.lower()` raises. */
  const MissingNameError: string := "'NoneType' object has no attribute 'lower'"

  /** The confidences averaged: the field's and the crop's when resolved, and every material's. */
  function Confidences(res: MasterData): (cs: seq<real>)
    ensures |cs| == (if res.field.Some? then 1 else 0) + (if res.crop.Some? then 1 else 0) + |res.materials|
  {
    (if res.field.Some? then [res.field.value.confidence] else [])
    + (if res.crop.Some? then [res.crop.value.confidence] else [])
    + seq(|res.materials|, k requires 0 <= k < |res.materials| => res.materials[k].confidence)
  }

  predicate InRange(r: R.Resolution)
  {
    0.0 <= r.confidence <= 1.0
  }

  /** Every resolution of the report has its confidence in [0, 1]. */
  predicate AllInRange(res: MasterData)
  {
    (res.field.Some? ==> InRange(res.field.value)) && (res.crop.Some? ==> InRange(res.crop.value))
    && forall k :: 0 <= k < |res.materials| ==> InRange(res.materials[k])
  }

  /** The overall confidence is 0 with nothing resolved, and within [0, 1] when every resolution is. */
  lemma OverallConfidenceBounds(res: MasterData)
    requires AllInRange(res)
    ensures 0.0 <= Mean(Confidences(res)) <= 1.0
    ensures Confidences(res) == [] ==> Mean(Confidences(res)) == 0.0
  {
    var cs := Confidences(res);
    if cs != [] {
      MeanBounds(cs, 0.0, 1.0);
    }
  }

  /** `_format_registration_result` */
  function FormatResult(record: LogRecord, res: MasterData): (r: Reply)
    ensures r.Registered? && r.logId == record.logId && r.workDate == record.workDate
    ensures r.category == record.category && r.data == record.data
  {
    Registered(record.logId, record.workDate, record.category, record.data, Mean(Confidences(res)),
               "作業記録を登録しました（記録ID: " + record.logId + "）")
  }

  /** The resolver's answers all have their confidence in [0, 1]. */
  lemma AnswersInRange(info: RawWorkInfo, fields: Fetch<R.FieldRow>, crops: Fetch<R.CropRow>,
                       materials: Fetch<R.MaterialRow>, ratio: Ratio)
    ensures AllInRange(ResolvedFrom(info, fields, crops, materials, ratio))
  {
    if fields.Fetched? {
      R.FieldResolutionStages(info.rawFieldName, fields.rows, ratio);
    }
    if crops.Fetched? {
      R.CropResolutionStages(info.rawCropName, crops.rows, ratio);
    }
    if materials.Fetched? {
      forall k | 0 <= k < |info.rawMaterialNames|
        ensures InRange(MaterialAnswer(info.rawMaterialNames[k], materials, ratio))
      {
        R.MaterialResolutionStages(info.rawMaterialNames[k], materials.rows, ratio);
      }
    }
  }

  class WorkLogRegistrationAgent {
    const resolver: R.MasterDataResolver

    constructor()
      ensures fresh(resolver)
      ensures resolver.fieldsCache.None? && resolver.cropsCache.None? && resolver.materialsCache.None?
    {
      resolver := new R.MasterDataResolver();
    }

    /**
     * `register_work_log`: extract, resolve, date, classify, save and
     * format.  A report whose classification raises, or whose insert
     * fails, gets the failure reply and stores nothing; otherwise exactly
     * one record is appended, and the reply's overall confidence is in
     * [0, 1].  The clock (`now`, `today`), the log id, the answers of the
     * three master-data queries and of the insert are parameters.
     */
    method RegisterWorkLog(store: WorkLogStore, message: string, userId: string, now: real, today: int, logId: string,
                           fieldsDb: Fetch<R.FieldRow>, cropsDb: Fetch<R.CropRow>, materialsDb: Fetch<R.MaterialRow>,
                           ratio: Ratio, insertError: Option<string>) returns (reply: Reply, resolved: MasterData)
      modifies resolver, store
      ensures resolved == ResolvedFrom(WorkInfoOf(message),
                                       R.Load(old(resolver.fieldsCache), old(resolver.fieldsCacheTime), now, fieldsDb),
                                       R.Load(old(resolver.cropsCache), old(resolver.cropsCacheTime), now, cropsDb),
                                       R.Load(old(resolver.materialsCache), old(resolver.materialsCacheTime), now, materialsDb),
                                       ratio)
      ensures ClassifyWorkType(WorkInfoOf(message), resolved).None? ==>
                reply == NotRegistered(MissingNameError, FailureMessage) && store.logs == old(store.logs)
      ensures ClassifyWorkType(WorkInfoOf(message), resolved).Some? && insertError.Some? ==>
                reply == NotRegistered(insertError.value, FailureMessage) && store.logs == old(store.logs)
      ensures ClassifyWorkType(WorkInfoOf(message), resolved).Some? && insertError.None? ==>
                var record := RecordOf(logId, userId, WorkDateAsWritten(message, today), message, resolved,
                                       ClassifyWorkType(WorkInfoOf(message), resolved).value);
                store.logs == old(store.logs) + [record] && reply == FormatResult(record, resolved)
      ensures reply.Registered? ==> 0.0 <= reply.confidence <= 1.0
    {
      var info := ExtractWorkInfo(message);
      ghost var fields := R.Load(resolver.fieldsCache, resolver.fieldsCacheTime, now, fieldsDb);
      ghost var crops := R.Load(resolver.cropsCache, resolver.cropsCacheTime, now, cropsDb);
      ghost var materials := R.Load(resolver.materialsCache, resolver.materialsCacheTime, now, materialsDb);
      resolved := ResolveMasterData(resolver, info, now, fieldsDb, cropsDb, materialsDb, ratio);
      AnswersInRange(info, fields, crops, materials, ratio);
      var workDate := ParseWorkDate(info.relativeDate, today);
      var category := ClassifyWork(info, resolved);
      if category.None? {
        return NotRegistered(MissingNameError, FailureMessage), resolved;
      }
      var saved := SaveWorkLog(store, message, resolved, workDate, category.value, userId, logId, insertError);
      if saved.SaveFailed? {
        return NotRegistered(saved.error, FailureMessage), resolved;
      }
      OverallConfidenceBounds(resolved);
      reply := FormatResult(saved.record, resolved);
    }
  }
}
