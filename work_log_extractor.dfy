/**
 * The work-report extractor: turns the language model's structured answer
 * into an `ExtractedWorkInfo` carrying the scorer's confidence, and falls
 * back to a keyword classifier of fixed confidence 0.3 when the answer is
 * empty or anything on the way raises.
 */
module WorkLogExtraction {
  import opened Common
  import opened Records
  import Scorer

  const FallbackConfidence: real := 0.3

  // ---------------------------------------------------------------------
  // The date patterns of the fallback
  // ---------------------------------------------------------------------

  /** `(\d+)日前`: some digit is immediately followed by 日前. */
  predicate DaysAgoMentioned(s: string)
  {
    exists i :: 0 <= i < |s| && IsDigit(s[i]) && OccursAt(s, "日前", i + 1)
  }

  const DatePatternCount: nat := 4

  /** Whether the n-th date pattern is found in the message. */
  predicate DateHit(n: nat, s: string)
  {
    if n == 0 then Contains(s, "昨日") || Contains(s, "きのう")
    else if n == 1 then Contains(s, "一昨日") || Contains(s, "おととい")
    else if n == 2 then Contains(s, "今日") || Contains(s, "きょう")
    else n == 3 && DaysAgoMentioned(s)
  }

  /** What each pattern stores: the last is the raw string `\1日前`, a backslash, a one and 日前. */
  const DateReplacements: seq<string> := ["昨日", "一昨日", "今日", "\\1日前"]

  /** The replacement of the first pattern from the n-th on that is found. */
  function DateFrom(s: string, n: nat): (r: Option<string>)
    ensures r.Some? <==> exists m :: n <= m < DatePatternCount && DateHit(m, s)
    ensures r.Some? ==> exists m :: n <= m < DatePatternCount && DateHit(m, s) && r.value == DateReplacements[m]
                                    && forall k :: n <= k < m ==> !DateHit(k, s)
    decreases DatePatternCount - n
  {
    if n >= DatePatternCount then None
    else if DateHit(n, s) then Some(DateReplacements[n])
    else DateFrom(s, n + 1)
  }

  /** The `work_date` the fallback stores. */
  function FallbackDate(s: string): Option<string>
  {
    DateFrom(s, 0)
  }

  /** 一昨日 contains 昨日, and the 昨日 pattern is tried first: a message saying 一昨日 is dated 昨日. */
  lemma DayBeforeYesterdayShadowed(s: string)
    requires Contains(s, "一昨日")
    ensures FallbackDate(s) == Some("昨日")
  {
    assert OccursAt("一昨日", "昨日", 1) by {
      assert "一昨日"[1..3] == "昨日";
    }
    ContainsAt("一昨日", "昨日", 1);
    ContainsTrans(s, "一昨日", "昨日");
  }

  /**
   * `N日前` stores the same literal whatever N is: two messages that only
   * mention a number of days ago get the same date.
   */
  lemma DaysAgoIgnoresNumber(s: string, t: string)
    requires !DateHit(0, s) && !DateHit(1, s) && !DateHit(2, s) && DaysAgoMentioned(s)
    requires !DateHit(0, t) && !DateHit(1, t) && !DateHit(2, t) && DaysAgoMentioned(t)
    ensures FallbackDate(s) == FallbackDate(t) == Some("\\1日前")
  {
    assert DateHit(3, s) && DateHit(3, t);
  }

  // ---------------------------------------------------------------------
  // The category keywords of the fallback
  // ---------------------------------------------------------------------

  const PestKeywords: seq<string> := ["防除", "農薬", "散布", "殺菌", "殺虫"]
  const FertilizerKeywords: seq<string> := ["施肥", "肥料", "追肥", "元肥"]
  const HarvestKeywords: seq<string> := ["収穫", "収穫量", "出荷"]
  const CultivationKeywords: seq<string> := ["播種", "定植", "摘心", "誘引"]
  const ManagementKeywords: seq<string> := ["草刈り", "清掃", "点検"]

  /**
   * The `work_category` the fallback stores: the first category, in the
   * order 防除, 施肥, 収穫, 栽培, 管理, one of whose keywords occurs.
   */
  function FallbackCategory(s: string): (r: Option<Category>)
    ensures r == Some(PestControl) <==> ContainsAny(s, PestKeywords)
    ensures r == Some(Fertilizing) <==> !ContainsAny(s, PestKeywords) && ContainsAny(s, FertilizerKeywords)
    ensures r == Some(Harvest) <==>
              !ContainsAny(s, PestKeywords) && !ContainsAny(s, FertilizerKeywords) && ContainsAny(s, HarvestKeywords)
    ensures r == Some(Cultivation) <==>
              !ContainsAny(s, PestKeywords) && !ContainsAny(s, FertilizerKeywords) && !ContainsAny(s, HarvestKeywords)
              && ContainsAny(s, CultivationKeywords)
    ensures r.None? <==>
              !ContainsAny(s, PestKeywords) && !ContainsAny(s, FertilizerKeywords) && !ContainsAny(s, HarvestKeywords)
              && !ContainsAny(s, CultivationKeywords) && !ContainsAny(s, ManagementKeywords)
    ensures r != Some(OtherWork)
  {
    if ContainsAny(s, PestKeywords) then Some(PestControl)
    else if ContainsAny(s, FertilizerKeywords) then Some(Fertilizing)
    else if ContainsAny(s, HarvestKeywords) then Some(Harvest)
    else if ContainsAny(s, CultivationKeywords) then Some(Cultivation)
    else if ContainsAny(s, ManagementKeywords) then Some(Management)
    else None
  }

  /** A report of spraying fertiliser (散布 and 肥料) is classified as pest control. */
  lemma SprayingWinsOverFertilizer(s: string)
    requires Contains(s, "散布")
    ensures FallbackCategory(s) == Some(PestControl)
  {
    ContainsAnyAt(s, PestKeywords, 2);
  }

  // ---------------------------------------------------------------------
  // The fallback and the extraction
  // ---------------------------------------------------------------------

  /** What `_fallback_extraction` returns. */
  function FallbackInfo(s: string): WorkInfo
  {
    EmptyWorkInfo().(workDate := FallbackDate(s), workCategory := FallbackCategory(s),
                     confidence := Some(FallbackConfidence))
  }

  /**
   * `_fallback_extraction`: starts from an empty record, stores the first
   * date pattern's replacement, the keyword category and the confidence 0.3,
   * and sets nothing else.
   */
  method FallbackExtraction(message: string) returns (w: WorkInfo)
    ensures w == FallbackInfo(message)
    ensures w.confidence == Some(FallbackConfidence)
    ensures w.fieldName.None? && w.cropName.None? && w.materials == [] && w.quantity.None?
    ensures w.unit.None? && w.workCount.None? && w.notes.None?
  {
    w := EmptyWorkInfo();
    for n := 0 to DatePatternCount
      invariant w == EmptyWorkInfo()
      invariant DateFrom(message, n) == FallbackDate(message)
    {
      if DateHit(n, message) {
        w := w.(workDate := Some(DateReplacements[n]));
        break;
      }
    }
    if ContainsAny(message, PestKeywords) {
      w := w.(workCategory := Some(PestControl));
    } else if ContainsAny(message, FertilizerKeywords) {
      w := w.(workCategory := Some(Fertilizing));
    } else if ContainsAny(message, HarvestKeywords) {
      w := w.(workCategory := Some(Harvest));
    } else if ContainsAny(message, CultivationKeywords) {
      w := w.(workCategory := Some(Cultivation));
    } else if ContainsAny(message, ManagementKeywords) {
      w := w.(workCategory := Some(Management));
    }
    w := w.(confidence := Some(FallbackConfidence));
  }

  /**
   * What `extract_work_information` returns, given the gateway's answer
   * (None when it was empty or the call raised): the answer as a record
   * carrying its score, or the fallback when there was no answer or the
   * record could not be built.
   */
  function ExtractedInfo(message: string, answer: Option<RawExtraction>): WorkInfo
  {
    if answer.None? then FallbackInfo(message)
    else match ToWorkInfo(answer.value, Scorer.ConfidenceScore(answer.value))
      case Some(w) => w
      case None => FallbackInfo(message)
  }

  /**
   * Either the fallback ran, with confidence exactly 0.3, or the record is
   * the gateway's answer with the scorer's score as its confidence; either
   * way the confidence lies in [0, 1].
   */
  lemma ExtractedConfidence(message: string, answer: Option<RawExtraction>)
    ensures var w := ExtractedInfo(message, answer);
            w.confidence.Some? && 0.0 <= w.confidence.value <= 1.0
            && (answer.None? ==> w == FallbackInfo(message))
            && (answer.Some? && ToWorkInfo(answer.value, 0.0).Some? ==>
                  w.confidence == Some(Scorer.ConfidenceScore(answer.value))
                  && w.workDate == answer.value.workDate && w.fieldName == answer.value.fieldName
                  && w.cropName == answer.value.cropName && w.quantity == answer.value.quantity)
            && (answer.Some? && ToWorkInfo(answer.value, 0.0).None? ==> w == FallbackInfo(message))
  {
  }

  /** `extract_work_information`: score the answer and build the record, or fall back. */
  method ExtractWorkInformation(message: string, answer: Option<RawExtraction>) returns (w: WorkInfo)
    ensures w == ExtractedInfo(message, answer)
  {
    if answer.None? {
      w := FallbackExtraction(message);
      return;
    }
    var score := Scorer.CalculateConfidenceScore(answer.value);
    var built := ToWorkInfo(answer.value, score);
    if built.None? {
      w := FallbackExtraction(message);
      return;
    }
    w := built.value;
  }
}
