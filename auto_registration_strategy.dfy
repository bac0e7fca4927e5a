/**
 * The automatic registration strategy: a report that is valid, confident
 * (at least 0.8), categorised, placed in a field and missing at most one
 * item is written straight to the work log, with only the entities the
 * verdict matched.
 */
module AutoRegistration {
  import opened Common
  import opened Records
  import opened RegistrationStrategy
  import Patterns
  import DecisionService

  const Name: string := "自動登録戦略"
  const MinConfidence: real := 0.8

  // ---------------------------------------------------------------------
  // can_handle
  // ---------------------------------------------------------------------

  /** The report names a category and a field, by its text or by the verdict's match. */
  predicate HasEssentialInfo(info: WorkInfo, v: Verdict)
  {
    info.workCategory.Some? && (Truthy(info.fieldName) || MatchedOf(v.field).Some?)
  }

  /** `can_handle` */
  predicate CanHandle(info: WorkInfo, v: Verdict)
  {
    if !v.isValid || DecisionService.ConfidenceOrZero(info) < MinConfidence then false
    else HasEssentialInfo(info, v) && |v.missingInfo| <= 1
  }

  /**
   * The automatic strategy takes a report only when the verdict is valid,
   * the confidence (None counting as 0.0) is at least 0.8, a category and a
   * field are known and at most one item is missing.
   */
  lemma CanHandleConditions(info: WorkInfo, v: Verdict)
    ensures CanHandle(info, v) ==> v.isValid && info.confidence.Some? && info.confidence.value >= 0.8
    ensures CanHandle(info, v) ==> info.workCategory.Some? && |v.missingInfo| <= 1
    ensures CanHandle(info, v) ==> Truthy(info.fieldName) || MatchedOf(v.field).Some?
    ensures (v.isValid && DecisionService.ConfidenceOrZero(info) >= 0.8 && HasEssentialInfo(info, v)
             && |v.missingInfo| <= 1) ==> CanHandle(info, v)
  {
  }

  // ---------------------------------------------------------------------
  // _parse_work_date
  // ---------------------------------------------------------------------

  /** `_parse_work_date`: the work date as a day number, relative to today. */
  function ParseWorkDate(today: int, workDate: Option<string>): (d: int)
    ensures d <= today
  {
    if !Truthy(workDate) then today
    else
      var s := workDate.value;
      if s == "今日" then today
      else if s == "昨日" then today - 1
      else if s == "一昨日" then today - 2
      else if Contains(s, "日前") then
        match Patterns.NumberBefore(s, "日前")
        case Some(n) => today - n
        case None => today
      else today
  }

  /** Absent, empty and 今日 mean today; 昨日 and 一昨日 one and two days back. */
  lemma ParseWorkDateWords(today: int)
    ensures ParseWorkDate(today, None) == today && ParseWorkDate(today, Some("")) == today
    ensures ParseWorkDate(today, Some("今日")) == today
    ensures ParseWorkDate(today, Some("昨日")) == today - 1
    ensures ParseWorkDate(today, Some("一昨日")) == today - 2
  {
  }

  /** `N日前` means N days back. */
  lemma ParseWorkDateDaysAgo(today: int, n: nat)
    ensures ParseWorkDate(today, Some(NatToString(n) + "日前")) == today - n
  {
    var s := NatToString(n) + "日前";
    Patterns.NumberBeforeRoundTrip(n, "日前");
    assert OccursAt(s, "日前", |NatToString(n)|) by {
      assert s[|NatToString(n)|..|NatToString(n)| + 2] == "日前";
    }
    ContainsAt(s, "日前", |NatToString(n)|);
    assert s != "今日" && s != "昨日" && s != "一昨日" by {
      assert IsDigit(s[0]);
    }
  }

  /** The literal `\1日前` the fallback extractor stores reads as one day back, whatever the report said. */
  lemma ParseWorkDateOfFallbackLiteral(today: int)
    ensures ParseWorkDate(today, Some("\\1日前")) == today - 1
  {
    var q := "\\1日前";
    assert OccursAt(q, "日前", 2) by {
      assert q[2..4] == "日前";
    }
    ContainsAt(q, "日前", 2);
    assert Patterns.DigitsBefore("日前")(q, 0).None?;
    assert Patterns.RunEnd(q, 1, IsDigit) == 2 by {
      assert Patterns.RunEnd(q, 2, IsDigit) == 2;
    }
    assert Patterns.DigitsBefore("日前")(q, 1) == Some(Patterns.Span(1, 2, 4));
    assert Patterns.Search(q, 0, Patterns.DigitsBefore("日前")) == Some(Patterns.Span(1, 2, 4));
    assert q[1..2] == "1";
  }

  // ---------------------------------------------------------------------
  // The record _save_work_log writes
  // ---------------------------------------------------------------------

  function Ref(m: Option<Matched>): (r: Option<EntityRef>)
    ensures r.Some? <==> m.Some?
    ensures r.Some? ==> r.value.id == m.value.id && r.value.name == m.value.name
                        && r.value.confidence == m.value.confidence
  {
    if m.Some? then Some(EntityRef(m.value.id, m.value.name, m.value.confidence)) else None
  }

  function Ids(ms: seq<Matched>): (r: seq<Option<string>>)
    ensures |r| == |ms| && forall i :: 0 <= i < |ms| ==> r[i] == ms[i].id
  {
    seq(|ms|, i requires 0 <= i < |ms| => ms[i].id)
  }

  function MaterialNames(ms: seq<Matched>): (r: seq<Option<string>>)
    ensures |r| == |ms| && forall i :: 0 <= i < |ms| ==> r[i] == ms[i].name
  {
    seq(|ms|, i requires 0 <= i < |ms| => ms[i].name)
  }

  /** `work_category or 'その他'` */
  function CategoryOrOther(info: WorkInfo): (c: Category)
    ensures info.workCategory.Some? ==> c == info.workCategory.value
    ensures info.workCategory.None? ==> c == OtherWork
  {
    if info.workCategory.Some? then info.workCategory.value else OtherWork
  }

  /** `extracted_data` as `_save_work_log` assembles it. */
  function LogDataOf(info: WorkInfo, v: Verdict): LogData
  {
    var ms := MatchedEntries(v.materials);
    LogData(info.confidence, Name, Ref(MatchedOf(v.field)), Ref(MatchedOf(v.crop)), Ids(ms), MaterialNames(ms),
            info.quantity,
            if Truthy(info.unit) then info.unit else None,
            if IntTruthy(info.workCount) then info.workCount else None,
            if Truthy(info.notes) then info.notes else None)
  }

  /** The record `_save_work_log` inserts. */
  function RecordOf(info: WorkInfo, v: Verdict, message: string, userId: string, w: World): LogRecord
  {
    var c := CategoryOrOther(info);
    LogRecord(w.logId, userId, ParseWorkDate(w.today, info.workDate), message, LogDataOf(info, v), c, [c])
  }

  /**
   * The record's field and crop come only from the verdict's matches; the
   * material ids and names are parallel lists with one entry per matched
   * material, in verdict order; the category falls back to その他 and is
   * the single tag; the message, the user and the report's confidence are
   * carried over; quantity is kept as given, while unit, work count and
   * notes are kept only when truthy.
   */
  lemma RecordShape(info: WorkInfo, v: Verdict, message: string, userId: string, w: World)
    ensures var r := RecordOf(info, v, message, userId, w);
            && (r.data.field.Some? <==> MatchedOf(v.field).Some?)
            && (r.data.field.Some? ==> r.data.field.value.id == MatchedOf(v.field).value.id)
            && (r.data.crop.Some? <==> MatchedOf(v.crop).Some?)
            && (r.data.crop.Some? ==> r.data.crop.value.id == MatchedOf(v.crop).value.id)
            && |r.data.materialIds| == |r.data.materialNames| == |MatchedEntries(v.materials)|
            && |r.data.materialIds| <= |v.materials|
            && (forall i :: 0 <= i < |r.data.materialIds| ==>
                  exists j :: 0 <= j < |v.materials| && MatchedOf(v.materials[j]).Some?
                              && r.data.materialIds[i] == MatchedOf(v.materials[j]).value.id)
            && r.tags == [r.category] && (info.workCategory.None? ==> r.category == OtherWork)
            && r.originalMessage == message && r.userId == userId && r.data.confidence == info.confidence
            && r.data.quantity == info.quantity && r.workDate <= w.today
            && (r.data.unit.Some? ==> Truthy(r.data.unit)) && (r.data.notes.Some? ==> Truthy(r.data.notes))
  {
    var ms := MatchedEntries(v.materials);
    var os := MatchedOfEach(v.materials);
    assert RecordOf(info, v, message, userId, w).data.materialIds == Ids(ms);
    forall i | 0 <= i < |ms|
      ensures exists j :: 0 <= j < |v.materials| && MatchedOf(v.materials[j]).Some?
                          && ms[i].id == MatchedOf(v.materials[j]).value.id
    {
      assert ms[i] in Somes(os);
      var j :| 0 <= j < |os| && os[j] == Some(ms[i]);
      assert MatchedOf(v.materials[j]) == Some(ms[i]);
    }
  }

  /** The parallel id and name lists, gathered in a loop over the matched materials. */
  method CollectMaterials(ms: seq<Matched>) returns (ids: seq<Option<string>>, names: seq<Option<string>>)
    ensures ids == Ids(ms) && names == MaterialNames(ms)
  {
    ids, names := [], [];
    for i := 0 to |ms|
      invariant ids == Ids(ms[..i]) && names == MaterialNames(ms[..i])
    {
      ids := ids + [ms[i].id];
      names := names + [ms[i].name];
    }
    assert ms[..|ms|] == ms;
  }

  /** The optional entries of `extracted_data`: quantity when given, unit, work count and notes when truthy. */
  method AddExtras(data: LogData, info: WorkInfo) returns (d: LogData)
    ensures d == data.(quantity := if info.quantity.Some? then info.quantity else data.quantity,
                       unit := if Truthy(info.unit) then info.unit else data.unit,
                       workCount := if IntTruthy(info.workCount) then info.workCount else data.workCount,
                       notes := if Truthy(info.notes) then info.notes else data.notes)
  {
    d := data;
    if info.quantity.Some? {
      d := d.(quantity := info.quantity);
    }
    if Truthy(info.unit) {
      d := d.(unit := info.unit);
    }
    if IntTruthy(info.workCount) {
      d := d.(workCount := info.workCount);
    }
    if Truthy(info.notes) {
      d := d.(notes := info.notes);
    }
  }

  /** `extracted_data`, built entry by entry: the matched references first, then the extras. */
  method BuildData(info: WorkInfo, v: Verdict) returns (data: LogData)
    ensures data == LogDataOf(info, v)
  {
    data := LogData(info.confidence, Name, None, None, [], [], None, None, None, None);
    if MatchedOf(v.field).Some? {
      data := data.(field := Ref(MatchedOf(v.field)));
    }
    if MatchedOf(v.crop).Some? {
      data := data.(crop := Ref(MatchedOf(v.crop)));
    }
    var validated := MatchedEntries(v.materials);
    if validated != [] {
      var ids, names := CollectMaterials(validated);
      data := data.(materialIds := ids, materialNames := names);
    }
    data := AddExtras(data, info);
  }

  /** `_save_work_log`, up to the insert: the record. */
  method BuildRecord(info: WorkInfo, v: Verdict, message: string, userId: string, w: World) returns (r: LogRecord)
    ensures r == RecordOf(info, v, message, userId, w)
  {
    var workDate := ParseWorkDate(w.today, info.workDate);
    var data := BuildData(info, v);
    var category := if info.workCategory.Some? then info.workCategory.value else OtherWork;
    r := LogRecord(w.logId, userId, workDate, message, data, category, [category]);
  }

  // ---------------------------------------------------------------------
  // execute
  // ---------------------------------------------------------------------

  /** The TypeError raised by formatting a None confidence with `:.2f` in the log line. */
  const NoneFormatError: string := "unsupported format string passed to NoneType.__format__"

  /**
   * What `execute` does: insert the record and report it; an insert error
   * is raised again.  The log line after the insert formats the confidence
   * with `:.2f`, which raises when the confidence is None, so then the
   * record is written and the run still raises.
   */
  function AutoRun(info: WorkInfo, v: Verdict, message: string, userId: string, w: World): (run: Run)
    ensures run.outcome.Registered? || run.outcome.Raised?
    ensures |run.written| <= 1
    ensures run.outcome.Registered? ==>
              run.written == [run.outcome.record] && run.outcome.record == RecordOf(info, v, message, userId, w)
              && run.outcome.strategyUsed == Name && run.outcome.note.None?
    ensures run.outcome.Registered? <==> w.insertError.None? && info.confidence.Some?
  {
    var record := RecordOf(info, v, message, userId, w);
    if w.insertError.Some? then Run(Raised(w.insertError.value), [])
    else if info.confidence.None? then Run(Raised(NoneFormatError), [record])
    else Run(Registered(record, info.confidence, Name, None), [record])
  }

  /** `execute`: build the record, insert it, log, and return the result. */
  method Execute(info: WorkInfo, v: Verdict, message: string, userId: string, w: World) returns (run: Run)
    ensures run == AutoRun(info, v, message, userId, w)
  {
    var record := BuildRecord(info, v, message, userId, w);
    if w.insertError.Some? {
      return Run(Raised(w.insertError.value), []);
    }
    var written := [record];
    if info.confidence.None? {
      return Run(Raised(NoneFormatError), written);
    }
    run := Run(Registered(record, info.confidence, Name, None), written);
  }
}
