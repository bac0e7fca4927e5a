/**
 * The query analyzer of the master agent: a report's intent (field
 * registration or field information) and the agent that serves it, the
 * data extracted for that intent (field name, area, area name, kind of
 * information asked for), and the execution plan announced to the user.
 */
module QueryAnalysis {
  import opened Common
  import opened Patterns
  import FNE = FieldNameExtraction

  // ---------------------------------------------------------------------
  // Intent
  // ---------------------------------------------------------------------

  const RegistrationWords: seq<string> := ["登録", "追加", "新しい", "作成"]
  const FieldWords: seq<string> := ["圃場", "ハウス", "畑", "田"]
  const InfoWords: seq<string> := ["圃場", "ハウス", "畑", "面積", "作付け"]

  datatype Intent = FieldRegistration | FieldInfo | Unknown

  const RegistrationAgent: string := "field_registration_agent"
  const FieldAgentName: string := "field_agent"

  datatype BasicIntent = BasicIntent(intent: Intent, agent: string, confidence: real)

  /**
   * `_analyze_basic_intent`: registration (0.9) when a registration word
   * and a field word both occur; otherwise information, 0.8 on an
   * information word and 0.5 by default.  The registration agent serves
   * exactly the registration intent.
   */
  function AnalyzeBasicIntent(m: string): (r: BasicIntent)
    ensures r.intent == FieldRegistration <==> ContainsAny(m, RegistrationWords) && ContainsAny(m, FieldWords)
    ensures r.intent != Unknown
    ensures r.agent == RegistrationAgent <==> r.intent == FieldRegistration
    ensures r.agent == FieldAgentName <==> r.intent == FieldInfo
    ensures r.intent == FieldRegistration ==> r.confidence == 0.9
    ensures r.intent == FieldInfo ==> (r.confidence == 0.8 <==> ContainsAny(m, InfoWords))
    ensures r.intent == FieldInfo ==> (r.confidence == 0.5 <==> !ContainsAny(m, InfoWords))
  {
    if ContainsAny(m, RegistrationWords) && ContainsAny(m, FieldWords) then
      BasicIntent(FieldRegistration, RegistrationAgent, 0.9)
    else if ContainsAny(m, InfoWords) then BasicIntent(FieldInfo, FieldAgentName, 0.8)
    else BasicIntent(FieldInfo, FieldAgentName, 0.5)
  }

  /** A report naming 圃場, ハウス or 畑 is never analysed with the default confidence 0.5. */
  lemma FieldWordRaisesConfidence(m: string)
    requires Contains(m, "圃場") || Contains(m, "ハウス") || Contains(m, "畑")
    ensures AnalyzeBasicIntent(m).confidence >= 0.8
  {
    if Contains(m, "圃場") {
      assert Contains(m, InfoWords[0]) && Contains(m, FieldWords[0]);
    } else if Contains(m, "ハウス") {
      assert Contains(m, InfoWords[1]) && Contains(m, FieldWords[1]);
    } else {
      assert Contains(m, InfoWords[2]) && Contains(m, FieldWords[2]);
    }
  }

  // ---------------------------------------------------------------------
  // The kind of information asked for
  // ---------------------------------------------------------------------

  datatype InfoQueryType = AreaQuery | ListQuery | DetailQuery | GeneralQuery

  /** `_extract_info_query_data`: 面積 before 一覧/すべて before 状況/詳細, else general. */
  function InfoQueryTypeOf(m: string): (t: InfoQueryType)
    ensures t == AreaQuery <==> Contains(m, "面積")
    ensures t == ListQuery <==> !Contains(m, "面積") && (Contains(m, "一覧") || Contains(m, "すべて"))
    ensures t == DetailQuery <==> !Contains(m, "面積") && !Contains(m, "一覧") && !Contains(m, "すべて")
                                  && (Contains(m, "状況") || Contains(m, "詳細"))
    ensures t == GeneralQuery <==> !Contains(m, "面積") && !Contains(m, "一覧") && !Contains(m, "すべて")
                                   && !Contains(m, "状況") && !Contains(m, "詳細")
  {
    if Contains(m, "面積") then AreaQuery
    else if Contains(m, "一覧") || Contains(m, "すべて") then ListQuery
    else if Contains(m, "状況") || Contains(m, "詳細") then DetailQuery
    else GeneralQuery
  }

  // ---------------------------------------------------------------------
  // The field name
  // ---------------------------------------------------------------------

  const AcceptConfidence: real := 0.5

  /** `_extract_field_name`: the extractor's name when its confidence reaches 0.5, else "". */
  function AcceptedName(e: FNE.Extraction): (n: string)
    ensures e.confidence < AcceptConfidence ==> n == ""
    ensures e.confidence >= AcceptConfidence ==> n == e.fieldName
  {
    if e.confidence >= AcceptConfidence then e.fieldName else ""
  }

  /**
   * The threshold never turns a name away: every stage of the extractor
   * that finds a name reports a confidence of at least 0.5 (exact 1.0,
   * partial 0.8, fuzzy above 0.6, regular expressions 0.5), and the stages
   * that find none, and the error result, report the empty name.
   */
  lemma ThresholdNeverRejects(q: string, names: seq<string>, ratio: Ratio)
    ensures AcceptedName(FNE.Extracted(q, names, ratio)) == FNE.Extracted(q, names, ratio).fieldName
    ensures AcceptedName(FNE.ErrorExtraction(q, "")) == ""
  {
    var r := FNE.Extracted(q, names, ratio);
    FNE.ExtractedExact(q, names, ratio);
    FNE.ExtractedPartial(q, names, ratio);
    FNE.ExtractedFuzzy(q, names, ratio);
    FNE.ExtractedFallback(q, names, ratio);
  }

  const FallbackPatternCount: nat := 4

  /**
   * `_extract_field_name_fallback` from the n-th pattern on: the first
   * group of at least two characters, or "".  Its four patterns are the
   * first four of the extractor's own fallback (`「…」`, before
   * の面積/情報/詳細/状況, before を登録/追加, before はどこ/何).
   */
  function FallbackFrom(m: string, n: nat): (r: string)
    ensures r == "" || (|r| >= 2 && Contains(m, r))
  {
    match FNE.RegexFrom(m, n, FallbackPatternCount)
    case Some(g) => g
    case None => ""
  }

  function FallbackName(m: string): (r: string)
  {
    FallbackFrom(m, 0)
  }

  /**
   * The analyzer's fallback finds what the extractor's fallback finds with
   * its first four patterns; when it finds nothing, the extractor goes on
   * with its place-name patterns.
   */
  lemma FallbackAgrees(m: string)
    ensures FallbackName(m) != "" ==> FNE.RegexFallback(m) == Some(FallbackName(m))
    ensures FallbackName(m) == "" ==> FNE.RegexFallback(m) == FNE.RegexFrom(m, FallbackPatternCount, FNE.PatternCount)
  {
    FNE.FirstLongPrefix(FNE.Groups(m), 0, FallbackPatternCount, FNE.PatternCount);
  }

  /** The pattern loop of `_extract_field_name_fallback`. */
  method FallbackSearch(m: string) returns (r: string)
    ensures r == FallbackName(m)
  {
    for n := 0 to FallbackPatternCount
      invariant FallbackFrom(m, n) == FallbackName(m)
    {
      var g := FNE.SearchGroup(m, n);
      if g.Some? && |g.value| >= 2 {
        return g.value;
      }
    }
    return "";
  }

  // ---------------------------------------------------------------------
  // Area and area name
  // ---------------------------------------------------------------------

  const AreaUnits: seq<string> := ["ha", "ヘクタール", "㎡", "平方メートル"]

  /** Where `\d+\.?\d*\s*` starting at a digit at i ends. */
  function NumberEnd(s: string, i: nat): (w: nat)
    requires i < |s| && IsDigit(s[i])
    ensures i < w <= |s|
  {
    var e := RunEnd(s, i, IsDigit);
    var f := if e < |s| && s[e] == '.' then RunEnd(s, e + 1, IsDigit) else e;
    RunEnd(s, f, IsSpace)
  }

  /** `(\d+\.?\d*)\s*unit` tried at i; the span is the whole match (`group(0)`). */
  function AreaAt(s: string, i: nat, unit: string): (r: Option<Span>)
    ensures r.Some? ==> r.value.start == i && i + 1 + |unit| <= r.value.stop <= |s| && IsDigit(s[i])
    ensures r.Some? ==> OccursAt(s, unit, r.value.stop - |unit|)
  {
    if i < |s| && IsDigit(s[i]) then
      var w := NumberEnd(s, i);
      if OccursAt(s, unit, w) then Some(Span(i, w + |unit|, w + |unit|)) else None
    else None
  }

  function AreaMatcher(unit: string): (string, nat) -> Option<Span>
  {
    (s: string, i: nat) => AreaAt(s, i, unit)
  }

  /** The match the search for one unit finds. */
  lemma AreaSpan(m: string, unit: string, sp: Span)
    requires Search(m, 0, AreaMatcher(unit)) == Some(sp)
    ensures sp.start + 1 + |unit| <= sp.stop <= |m| && IsDigit(m[sp.start]) && OccursAt(m, unit, sp.stop - |unit|)
  {
    var i :| 0 <= i <= |m| && AreaMatcher(unit)(m, i) == Some(sp);
    assert AreaAt(m, i, unit) == Some(sp);
  }

  /** The text of that match starts with a digit and ends with the unit. */
  lemma AreaText(m: string, unit: string, sp: Span)
    requires sp.start + 1 + |unit| <= sp.stop <= |m| && IsDigit(m[sp.start]) && OccursAt(m, unit, sp.stop - |unit|)
    ensures var t := m[sp.start..sp.stop]; |t| > 0 && IsDigit(t[0]) && EndsWith(t, unit) && Contains(m, t)
  {
    var t := m[sp.start..sp.stop];
    assert t[|t| - |unit|..] == m[sp.stop - |unit|..sp.stop];
    ContainsAt(m, t, sp.start);
  }

  /** The whole text the search for one unit finds first in m. */
  function AreaSearchFor(m: string, unit: string): (r: Option<string>)
    ensures r.Some? ==> |r.value| > 0 && IsDigit(r.value[0]) && EndsWith(r.value, unit) && Contains(m, r.value)
  {
    match Search(m, 0, AreaMatcher(unit))
    case Some(sp) =>
      AreaSpan(m, unit, sp);
      AreaText(m, unit, sp);
      Some(m[sp.start..sp.stop])
    case None => None
  }

  /** The whole text the n-th area pattern finds first in m. */
  function AreaSearch(m: string, n: nat): (r: Option<string>)
    requires n < |AreaUnits|
    ensures r.Some? ==> |r.value| > 0 && IsDigit(r.value[0]) && EndsWith(r.value, AreaUnits[n]) && Contains(m, r.value)
  {
    AreaSearchFor(m, AreaUnits[n])
  }

  /** `_extract_area` from the n-th pattern on. */
  function AreaFrom(m: string, n: nat): (r: Option<string>)
    requires n <= |AreaUnits|
    ensures r.Some? ==> exists k :: n <= k < |AreaUnits| && AreaSearch(m, k) == r
    ensures r.None? <==> forall k :: n <= k < |AreaUnits| ==> AreaSearch(m, k).None?
    decreases |AreaUnits| - n
  {
    if n == |AreaUnits| then None
    else
      var a := AreaSearch(m, n);
      if a.Some? then a else AreaFrom(m, n + 1)
  }

  /**
   * `_extract_area`: the first of the ha, ヘクタール, ㎡ and 平方メートル
   * patterns that occurs, as the text it matched: a piece of the report
   * that starts with a digit and ends with the unit.
   */
  function ExtractArea(m: string): (r: Option<string>)
    ensures r.Some? ==> |r.value| > 0 && IsDigit(r.value[0]) && Contains(m, r.value)
                        && exists k :: 0 <= k < |AreaUnits| && EndsWith(r.value, AreaUnits[k])
    ensures r.None? <==> forall k :: 0 <= k < |AreaUnits| ==> AreaSearch(m, k).None?
  {
    AreaFrom(m, 0)
  }

  /** The pattern loop of `_extract_area`. */
  method ExtractAreaSearch(m: string) returns (r: Option<string>)
    ensures r == ExtractArea(m)
  {
    for n := 0 to |AreaUnits|
      invariant AreaFrom(m, n) == ExtractArea(m)
    {
      var a := AreaSearch(m, n);
      if a.Some? {
        return a;
      }
    }
    return None;
  }

  /** `_extract_area_name`: 豊糠 is checked before 豊緑. */
  function AreaName(m: string): (r: string)
    ensures r == "豊糠エリア" <==> Contains(m, "豊糠")
    ensures r == "豊緑エリア" <==> !Contains(m, "豊糠") && Contains(m, "豊緑")
    ensures r == "" <==> !Contains(m, "豊糠") && !Contains(m, "豊緑")
  {
    if Contains(m, "豊糠") then "豊糠エリア"
    else if Contains(m, "豊緑") then "豊緑エリア"
    else ""
  }

  // ---------------------------------------------------------------------
  // The analysis
  // ---------------------------------------------------------------------

  /** The keys of `extracted_data` that were set. */
  datatype Extracted = Extracted(fieldName: Option<string>, area: Option<string>, areaName: Option<string>,
                                 queryType: Option<InfoQueryType>)

  const Nothing: Extracted := Extracted(None, None, None, None)

  function NonEmpty(s: string): (r: Option<string>)
    ensures r.None? <==> s == ""
    ensures r.Some? ==> r.value == s
  {
    if s == "" then None else Some(s)
  }

  /**
   * `_extract_detailed_data`, given the accepted field name: the name when
   * there is one; for registration the area and the area name; for
   * information the kind of query.
   */
  function ExtractDetailedData(m: string, fieldName: string, intent: Intent): (d: Extracted)
    ensures d.fieldName == NonEmpty(fieldName)
    ensures intent == FieldRegistration ==> d.area == ExtractArea(m) && d.areaName == NonEmpty(AreaName(m)) && d.queryType.None?
    ensures intent == FieldInfo ==> d.area.None? && d.areaName.None? && d.queryType == Some(InfoQueryTypeOf(m))
    ensures intent == Unknown ==> d == Extracted(NonEmpty(fieldName), None, None, None)
  {
    var base := Extracted(NonEmpty(fieldName), None, None, None);
    match intent
    case FieldRegistration => base.(area := ExtractArea(m), areaName := NonEmpty(AreaName(m)))
    case FieldInfo => base.(queryType := Some(InfoQueryTypeOf(m)))
    case Unknown => base
  }

  datatype Analysis = Analysis(intent: Intent, agent: string, data: Extracted, confidence: real,
                               originalMessage: string, error: Option<string>)

  /**
   * `analyze_query_intent`, with the extractor's result `e` for the report
   * and `raised`, the text of an exception escaping the analysis, if one
   * does: then the intent is unknown, the agent the field agent, nothing
   * is extracted and the confidence is 0.
   */
  function AnalyzeQueryIntent(m: string, e: FNE.Extraction, raised: Option<string>): (a: Analysis)
    ensures a.originalMessage == m
    ensures raised.Some? ==> a == Analysis(Unknown, FieldAgentName, Nothing, 0.0, m, raised)
    ensures raised.None? ==>
              a.intent == AnalyzeBasicIntent(m).intent && a.agent == AnalyzeBasicIntent(m).agent
              && a.confidence == AnalyzeBasicIntent(m).confidence && a.error.None?
              && a.data == ExtractDetailedData(m, AcceptedName(e), a.intent)
    ensures a.intent == Unknown <==> raised.Some?
  {
    if raised.Some? then Analysis(Unknown, FieldAgentName, Nothing, 0.0, m, raised)
    else
      var b := AnalyzeBasicIntent(m);
      Analysis(b.intent, b.agent, ExtractDetailedData(m, AcceptedName(e), b.intent), b.confidence, m, None)
  }

  // ---------------------------------------------------------------------
  // The execution plan
  // ---------------------------------------------------------------------

  /** The plans `create_execution_plan` announces; `PlanText` gives their text. */
  datatype Plan =
    | RegisterNamed(name: string)
    | RegisterViaAgent
    | ResearchArea(name: string)
    | ResearchDetail(name: string)
    | ResearchField(name: string)
    | ListArea(areaName: string)
    | ListAll
    | AskFieldAgent
    | General(topic: string)

  const NewField: string := "新しい圃場"

  /** `_create_registration_plan`: a named plan unless the name is missing (or is literally 新しい圃場). */
  function RegistrationPlan(d: Extracted): (p: Plan)
    ensures p.RegisterNamed? <==> d.fieldName.Some? && d.fieldName.value != NewField
    ensures p.RegisterNamed? ==> p.name == d.fieldName.value
    ensures !p.RegisterNamed? ==> p == RegisterViaAgent
  {
    var name := if d.fieldName.Some? then d.fieldName.value else NewField;
    if name != NewField then RegisterNamed(name) else RegisterViaAgent
  }

  /** `_create_info_plan`: a named field first (by kind of query), then lists, then the field agent. */
  function InfoPlan(d: Extracted): (p: Plan)
    ensures d.fieldName.Some? && d.fieldName.value != "" ==>
              (d.queryType == Some(AreaQuery) ==> p == ResearchArea(d.fieldName.value))
              && (d.queryType == Some(DetailQuery) ==> p == ResearchDetail(d.fieldName.value))
              && (d.queryType != Some(AreaQuery) && d.queryType != Some(DetailQuery) ==> p == ResearchField(d.fieldName.value))
    ensures !(d.fieldName.Some? && d.fieldName.value != "") ==>
              (d.queryType == Some(ListQuery) ==> p == (if d.areaName.Some? && d.areaName.value != "" then ListArea(d.areaName.value) else ListAll))
              && (d.queryType != Some(ListQuery) ==> p == AskFieldAgent)
  {
    var name := if d.fieldName.Some? then d.fieldName.value else "";
    var queryType := if d.queryType.Some? then d.queryType.value else GeneralQuery;
    var areaName := if d.areaName.Some? then d.areaName.value else "";
    if name != "" then
      if queryType == AreaQuery then ResearchArea(name)
      else if queryType == DetailQuery then ResearchDetail(name)
      else ResearchField(name)
    else if queryType == ListQuery then
      if areaName != "" then ListArea(areaName) else ListAll
    else AskFieldAgent
  }

  /** `_analyze_query_type`: weather, then pests and disease, then harvest, else general farming. */
  function QueryTopic(m: string): (t: string)
    ensures t == "天気情報" <==> ContainsAny(m, ["天気", "気温", "雨"])
    ensures t == "病害虫診断" <==> !ContainsAny(m, ["天気", "気温", "雨"]) && ContainsAny(m, ["病気", "害虫", "症状"])
    ensures t == "収穫・出荷情報" <==> !ContainsAny(m, ["天気", "気温", "雨"]) && !ContainsAny(m, ["病気", "害虫", "症状"])
                                    && ContainsAny(m, ["収穫", "出荷", "販売"])
    ensures t == "農業全般の問い合わせ" <==> !ContainsAny(m, ["天気", "気温", "雨"]) && !ContainsAny(m, ["病気", "害虫", "症状"])
                                    && !ContainsAny(m, ["収穫", "出荷", "販売"])
  {
    if ContainsAny(m, ["天気", "気温", "雨"]) then "天気情報"
    else if ContainsAny(m, ["病気", "害虫", "症状"]) then "病害虫診断"
    else if ContainsAny(m, ["収穫", "出荷", "販売"]) then "収穫・出荷情報"
    else "農業全般の問い合わせ"
  }

  /** `create_execution_plan`: by intent; any other intent gets the general plan about the report's topic. */
  function CreateExecutionPlan(a: Analysis): (p: Plan)
    ensures a.intent == FieldRegistration ==> p == RegistrationPlan(a.data)
    ensures a.intent == FieldInfo ==> p == InfoPlan(a.data)
    ensures a.intent == Unknown ==> p == General(QueryTopic(a.originalMessage))
  {
    match a.intent
    case FieldRegistration => RegistrationPlan(a.data)
    case FieldInfo => InfoPlan(a.data)
    case Unknown => General(QueryTopic(a.originalMessage))
  }

  const PlanHeader: string := "📋 実行プラン\n"

  /** The text of each plan. */
  function PlanText(p: Plan): (t: string)
    ensures StartsWith(t, PlanHeader)
  {
    PlanHeader + match p
      case RegisterNamed(name) =>
        "1. 「" + name + "」を新規圃場として登録処理\n2. 面積・エリア情報を含めてデータベースに保存\n3. 登録完了通知をユーザーに送信"
      case RegisterViaAgent =>
        "1. 圃場登録専門エージェント(FieldRegistrationAgent)で新しい圃場を登録\n2. 登録結果を確認してユーザーに報告"
      case ResearchArea(name) => "1. 「" + name + "」の面積情報をリサーチ\n2. 結果をha単位でユーザーにレポート"
      case ResearchDetail(name) => "1. 「" + name + "」の詳細情報をリサーチ\n2. 面積・作付け・作業予定をユーザーにレポート"
      case ResearchField(name) => "1. 「" + name + "」の情報をリサーチ\n2. 詳細データをユーザーにレポート"
      case ListArea(areaName) => "1. 「" + areaName + "」の圃場一覧をリサーチ\n2. 各圃場の面積・作付け状況をユーザーにレポート"
      case ListAll => "1. 全圃場の一覧情報をリサーチ\n2. 面積・作付け状況を整理してユーザーにレポート"
      case AskFieldAgent => "1. 圃場情報を専門エージェント(FieldAgent)で調査\n2. 結果をわかりやすく整理して報告"
      case General(topic) => "1. 「" + topic + "」について最適なツールで情報収集\n2. 結果を整理してユーザーにレポート"
  }

  /**
   * The area-list plan is never produced from an analysis: the area name is
   * extracted only for registration reports, and the information plan is
   * the only one that reads it.
   */
  lemma AreaListPlanUnreachable(m: string, e: FNE.Extraction, raised: Option<string>)
    ensures !CreateExecutionPlan(AnalyzeQueryIntent(m, e, raised)).ListArea?
  {
  }

  /**
   * A registration report whose field name was found (and is not 新しい圃場)
   * gets the plan that names it; a report that fails analysis gets the
   * general plan about its topic.
   */
  lemma PlanForReport(m: string, e: FNE.Extraction, raised: Option<string>)
    ensures var a := AnalyzeQueryIntent(m, e, raised);
            var p := CreateExecutionPlan(a);
            (raised.None? && a.intent == FieldRegistration && AcceptedName(e) != "" && AcceptedName(e) != NewField ==>
               p == RegisterNamed(AcceptedName(e)))
            && (raised.Some? ==> p == General(QueryTopic(m)))
            && (raised.None? && a.intent == FieldInfo && AcceptedName(e) == "" && InfoQueryTypeOf(m) != ListQuery ==>
               p == AskFieldAgent)
  {
  }
}
