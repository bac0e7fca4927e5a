/**
 * The field agent's gate in front of its language model: a report is
 * answered as a field information query only when it names something
 * about fields and asks for no registration; a registration request is
 * redirected to the registration agent, and anything else is out of scope.
 */
module FieldAgent {
  import opened Common

  /** `field_info_keywords` of `_is_field_info_query`. */
  const InfoKeywords: seq<string> := [
    "圃場", "ハウス", "畑", "田", "フィールド",
    "A畑", "B畑", "C畑", "第1", "第2", "第3",
    "面積", "土壌", "作付け", "栽培", "生育",
    "全圃場", "すべて", "一覧", "状況", "情報",
    "確認", "教えて", "どこ", "何",
    "エリア", "地区", "豊糠", "豊緑",
    "橋向こう", "登山道前", "橋前", "田んぼあと",
    "若菜横", "学校裏", "相田さん向かい", "フォレスト",
    "学校前", "新田", "若菜裏"
  ]

  /** `registration_keywords`, the same list in both predicates. */
  const RegistrationKeywords: seq<string> := ["登録", "追加", "新しい", "作成", "新規"]

  /** `field_keywords` of `_is_registration_query`. */
  const FieldKeywords: seq<string> := ["圃場", "ハウス", "畑", "田", "フィールド"]

  /** `_is_field_info_query` */
  predicate IsFieldInfoQuery(q: string)
  {
    ContainsAny(q, InfoKeywords) && !ContainsAny(q, RegistrationKeywords)
  }

  /** `_is_registration_query` */
  predicate IsRegistrationQuery(q: string)
  {
    ContainsAny(q, RegistrationKeywords) && ContainsAny(q, FieldKeywords)
  }

  /** No report is both an information query and a registration query. */
  lemma InfoAndRegistrationExclusive(q: string)
    ensures !(IsFieldInfoQuery(q) && IsRegistrationQuery(q))
  {
  }

  /** Every field keyword is also an information keyword. */
  lemma FieldWordsAreInfoWords(q: string)
    requires ContainsAny(q, FieldKeywords)
    ensures ContainsAny(q, InfoKeywords)
  {
    var i :| 0 <= i < |FieldKeywords| && Contains(q, FieldKeywords[i]);
    assert FieldKeywords[i] == InfoKeywords[i];
  }

  /**
   * A report that names a field (圃場, ハウス, 畑, 田, フィールド) is an
   * information query exactly when it has no registration word, and a
   * registration query exactly when it has one.
   */
  lemma FieldReportsSplit(q: string)
    requires ContainsAny(q, FieldKeywords)
    ensures IsFieldInfoQuery(q) <==> !ContainsAny(q, RegistrationKeywords)
    ensures IsRegistrationQuery(q) <==> ContainsAny(q, RegistrationKeywords)
    ensures IsFieldInfoQuery(q) != IsRegistrationQuery(q)
  {
    FieldWordsAreInfoWords(q);
  }

  // ---------------------------------------------------------------------
  // process_query
  // ---------------------------------------------------------------------

  /** What the language-model agent did with a report: its answer, or the text of the exception it raised. */
  datatype AgentRun = Answered(output: string) | Raised(error: string)

  datatype Reply = Reply(success: bool, response: string, queryType: Option<string>, error: Option<string>)

  const RedirectText: string := "圃場の新規登録については、専門の登録エージェントが担当いたします。MasterAgentを通じて登録をご依頼ください。"
  const OutOfScopeText: string := "申し訳ございませんが、圃場情報の検索以外のご質問には対応できません。圃場の名前、面積、作付け状況などについてお聞きください。"
  const ErrorPrefix: string := "圃場情報の取得中にエラーが発生しました: "

  /**
   * `process_query`, with the agent's run as a parameter: a report that is
   * not an information query never reaches the agent and is redirected
   * (registration) or refused (anything else); an information query gets
   * the agent's answer, or the error text when the agent raised.
   */
  function ProcessQuery(q: string, run: AgentRun): (r: Reply)
    ensures r.success <==> IsFieldInfoQuery(q) && run.Answered?
    ensures r.queryType == Some("registration_redirect") <==> IsRegistrationQuery(q)
    ensures r.queryType == Some("out_of_scope") <==> !IsFieldInfoQuery(q) && !IsRegistrationQuery(q)
    ensures r.queryType == Some("field_info") <==> r.success
    ensures r.error.Some? <==> IsFieldInfoQuery(q) && run.Raised?
    ensures r.success ==> r.response == run.output
  {
    InfoAndRegistrationExclusive(q);
    if !IsFieldInfoQuery(q) then
      if IsRegistrationQuery(q) then Reply(false, RedirectText, Some("registration_redirect"), None)
      else Reply(false, OutOfScopeText, Some("out_of_scope"), None)
    else match run
      case Answered(output) => Reply(true, output, Some("field_info"), None)
      case Raised(e) => Reply(false, ErrorPrefix + e, None, Some(e))
  }

  /** The agent's run never matters for a report the gate turns away. */
  lemma GateIgnoresAgent(q: string, run1: AgentRun, run2: AgentRun)
    requires !IsFieldInfoQuery(q)
    ensures ProcessQuery(q, run1) == ProcessQuery(q, run2)
  {
  }

  /** A report with a field word and a registration word is always redirected. */
  lemma RegistrationRedirected(q: string, run: AgentRun)
    requires ContainsAny(q, FieldKeywords) && ContainsAny(q, RegistrationKeywords)
    ensures ProcessQuery(q, run) == Reply(false, RedirectText, Some("registration_redirect"), None)
  {
    FieldReportsSplit(q);
  }
}
