/**
 * The work-log search agent: a report asking about past work is read into
 * search parameters (a date range, field names, crops, work categories and
 * a result limit), the stored logs of the user that match are fetched
 * newest first, and the results are summarised: counts per category, field
 * and material, the pest-control interval and material-rotation patterns,
 * and recommendations.
 *
 * Times are seconds since the epoch; `today` is the calendar date of
 * `datetime.now()` and `clock` the seconds since its midnight.
 */
module WorkLogSearch {
  import opened Common
  import opened Patterns
  import QP = QueryParsing
  import Sorting
  import TU = TaskUpdate
  import WLR = WorkLogRegistration

  // ---------------------------------------------------------------------
  // Stored logs and search parameters
  // ---------------------------------------------------------------------

  /**
   * A stored work log as the search reads it: `work_date`, `category`
   * (None when the record has none), `extracted_data.field_name` and
   * `extracted_data.material_names` (empty when absent).
   */
  datatype LogEntry = LogEntry(userId: string, workDate: int, originalMessage: string,
                               category: Option<string>, fieldName: Option<string>,
                               materialNames: seq<string>)

  /** `{'start': …, 'end': …}`, both ends included. */
  datatype DateRange = DateRange(start: int, end: int)

  predicate InRange(t: int, r: DateRange)
  {
    r.start <= t <= r.end
  }

  /** The parameters `_parse_search_query` fills in; an empty `date_range` is None. */
  datatype SearchParams = SearchParams(fieldNames: seq<string>, cropNames: seq<string>,
                                       materialNames: seq<string>, workCategories: seq<string>,
                                       dateRange: Option<DateRange>, limit: nat, sortDesc: bool)

  predicate ValidClock(clock: int)
  {
    0 <= clock < TU.Day
  }

  /** `datetime.now()`: today's midnight plus the time of day. */
  function Now(today: QP.Date, clock: int): int
    requires QP.ValidDate(today)
  {
    QP.DayNumber(today) * TU.Day + clock
  }

  /** The calendar day an instant falls on. */
  function DayOf(t: int): int
  {
    t / TU.Day
  }

  /** An instant lies on day d exactly when it is between that day's midnight and the next. */
  lemma DayOfBounds(t: int, d: int)
    ensures DayOf(t) == d <==> d * TU.Day <= t < d * TU.Day + TU.Day
    ensures DayOf(t) < d <==> t < d * TU.Day
  {
  }

  // ---------------------------------------------------------------------
  // _parse_search_query: the date range
  // ---------------------------------------------------------------------

  /** The month before (y, m), rolling January back into December of the year before. */
  function PreviousMonth(y: int, m: int): (r: (int, int))
    requires 1 <= m <= 12
    ensures 1 <= r.1 <= 12
    ensures QP.FollowingMonth(r.0, r.1) == (y, m)
  {
    if m == 1 then (y - 1, 12) else (y, m - 1)
  }

  /** January starts 31 days after December. */
  lemma JanuaryAfterDecember(y: int)
    ensures QP.FirstOf(y - 1, 12) + 31 == QP.FirstOf(y, 1)
  {
  }

  /** March starts at least 28 days after February, across the shift of the counting year. */
  lemma MarchAfterFebruary(y: int)
    ensures QP.FirstOf(y, 2) + 28 <= QP.FirstOf(y, 3)
  {
    var era := (y - 1) / 400;
    var yoe := (y - 1) - era * 400;
    var era' := y / 400;
    var yoe' := y - era' * 400;
    assert QP.FirstOf(y, 2) == era * 146097 + yoe * 365 + yoe / 4 - yoe / 100 + 337 - 719468;
    assert QP.FirstOf(y, 3) == era' * 146097 + yoe' * 365 + yoe' / 4 - yoe' / 100 - 719468;
    if yoe == 399 {
      assert era' == era + 1 && yoe' == 0;
    } else {
      assert era' == era && yoe' == yoe + 1;
      var d4 := (yoe + 1) / 4 - yoe / 4;
      var d100 := (yoe + 1) / 100 - yoe / 100;
      assert 0 <= d4 <= 1 && 0 <= d100 <= 1;
      if d100 == 1 {
        assert (yoe + 1) % 100 == 0;
        assert d4 == 1;
      }
    }
  }

  /** A month starts at least 28 days after the month before it. */
  lemma PreviousMonthFirst(y: int, m: int)
    requires 1 <= m <= 12
    ensures var (py, pm) := PreviousMonth(y, m); QP.FirstOf(py, pm) + 28 <= QP.FirstOf(y, m)
  {
    if m == 1 {
      JanuaryAfterDecember(y);
    } else if m == 3 {
      MarchAfterFebruary(y);
    } else {
      var mp := (m + 9) % 12;
      assert 1 <= mp && (m + 8) % 12 == mp - 1;
      assert QP.FirstOf(y, m) - QP.FirstOf(y, m - 1) == (153 * mp + 2) / 5 - (153 * (mp - 1) + 2) / 5;
    }
  }

  /** 昨日: yesterday from 00:00:00 to 23:59:59. */
  function YesterdayRange(today: QP.Date): DateRange
    requires QP.ValidDate(today)
  {
    var d := QP.DayNumber(today) - 1;
    DateRange(d * TU.Day, d * TU.Day + TU.Day - 1)
  }

  /**
   * 先月 as written: `today.replace(day=1) - timedelta(days=1)` keeps the
   * time of day, and so does its `replace(day=1)`; the range starts on the
   * first of last month at the current time of day and ends at 23:59:59 on
   * its last day.
   */
  function LastMonthRangeAsWritten(today: QP.Date, clock: int): DateRange
    requires QP.ValidDate(today)
  {
    var (py, pm) := PreviousMonth(today.year, today.month);
    var first := QP.FirstOf(today.year, today.month);
    DateRange(QP.FirstOf(py, pm) * TU.Day + clock, (first - 1) * TU.Day + TU.Day - 1)
  }

  /** 先月 from midnight on the first of last month to 23:59:59 on its last day. */
  function LastMonthRange(today: QP.Date): DateRange
    requires QP.ValidDate(today)
  {
    var (py, pm) := PreviousMonth(today.year, today.month);
    var first := QP.FirstOf(today.year, today.month);
    DateRange(QP.FirstOf(py, pm) * TU.Day, (first - 1) * TU.Day + TU.Day - 1)
  }

  /** 今月: from midnight on the first of this month up to now. */
  function ThisMonthSoFar(today: QP.Date, clock: int): DateRange
    requires QP.ValidDate(today)
  {
    DateRange(QP.FirstOf(today.year, today.month) * TU.Day, Now(today, clock))
  }

  /** `過去(\d+)unit` tried at i; the group is the digits. */
  function PastAt(s: string, i: nat, units: seq<string>): (r: Option<Span>)
    ensures r.Some? ==> OccursAt(s, "過去", i) && r.value.start == i + 2 < r.value.stop <= |s|
    ensures r.Some? ==> AllDigits(s[r.value.start..r.value.stop]) && AnyAt(s, units, r.value.stop)
  {
    if OccursAt(s, "過去", i) && i + 2 < |s| && IsDigit(s[i + 2]) then
      var e := RunEnd(s, i + 2, IsDigit);
      if AnyAt(s, units, e) then Some(Span(i + 2, e, e)) else None
    else None
  }

  const DayUnits: seq<string> := ["日"]
  const WeekUnits: seq<string> := ["週間"]
  const MonthUnits: seq<string> := ["ヶ月", "月"]

  /** `int(re.search(r'過去(\d+)unit', q).group(1))`, or None when there is no match. */
  function PastCount(q: string, units: seq<string>): (r: Option<nat>)
  {
    match Search(q, 0, (s: string, i: nat) => PastAt(s, i, units))
    case Some(sp) =>
      assert PastAt(q, sp.start - 2, units) == Some(sp);
      Some(DigitsValue(q[sp.start..sp.stop]))
    case None => None
  }

  /** 過去N日, else 過去N週間, else 過去Nヶ月 (30 days each), back from now; nothing when none matches. */
  function PastRange(q: string, today: QP.Date, clock: int): Option<DateRange>
    requires QP.ValidDate(today)
  {
    var now := Now(today, clock);
    match PastCount(q, DayUnits)
    case Some(n) => Some(DateRange(now - n * TU.Day, now))
    case None =>
      match PastCount(q, WeekUnits)
      case Some(n) => Some(DateRange(now - 7 * n * TU.Day, now))
      case None =>
        match PastCount(q, MonthUnits)
        case Some(n) => Some(DateRange(now - 30 * n * TU.Day, now))
        case None => None
  }

  /** The date branches in their order, with the range 先月 stands for as a parameter. */
  function DateRangeWith(q: string, today: QP.Date, clock: int, lastMonth: DateRange): Option<DateRange>
    requires QP.ValidDate(today)
  {
    if Contains(q, "昨日") then Some(YesterdayRange(today))
    else if Contains(q, "先月") || Contains(q, "前月") then Some(lastMonth)
    else if Contains(q, "今月") || Contains(q, "当月") then Some(ThisMonthSoFar(today, clock))
    else if Contains(q, "過去") then PastRange(q, today, clock)
    else None
  }

  /** The date range as the code computes it. */
  function DateRangeAsWritten(q: string, today: QP.Date, clock: int): Option<DateRange>
    requires QP.ValidDate(today)
  {
    DateRangeWith(q, today, clock, LastMonthRangeAsWritten(today, clock))
  }

  /** The date range intended, with 先月 covering the whole of last month; the reference for `DateRangeAsWritten`. */
  function IntendedDateRange(q: string, today: QP.Date, clock: int): Option<DateRange>
    requires QP.ValidDate(today)
  {
    DateRangeWith(q, today, clock, LastMonthRange(today))
  }

  /** 昨日 selects exactly the instants of yesterday. */
  lemma YesterdayIsWholeDay(q: string, today: QP.Date, clock: int, t: int)
    requires QP.ValidDate(today) && Contains(q, "昨日")
    ensures DateRangeAsWritten(q, today, clock).Some?
    ensures InRange(t, DateRangeAsWritten(q, today, clock).value) <==> DayOf(t) == QP.DayNumber(today) - 1
  {
    DayOfBounds(t, QP.DayNumber(today) - 1);
  }

  /** Without 昨日, 先月 or 前月 selects exactly the instants of last month's days. */
  lemma LastMonthIsWholeMonth(q: string, today: QP.Date, clock: int, t: int)
    requires QP.ValidDate(today) && !Contains(q, "昨日") && (Contains(q, "先月") || Contains(q, "前月"))
    ensures IntendedDateRange(q, today, clock).Some?
    ensures var (py, pm) := PreviousMonth(today.year, today.month);
            InRange(t, IntendedDateRange(q, today, clock).value) <==>
              QP.MonthRange(py, pm).start <= DayOf(t) < QP.MonthRange(py, pm).stop
  {
    var (py, pm) := PreviousMonth(today.year, today.month);
    var first := QP.FirstOf(today.year, today.month);
    DayOfBounds(t, QP.FirstOf(py, pm));
    DayOfBounds(t, first);
    assert (first - 1) * TU.Day + TU.Day == first * TU.Day;
  }

  /**
   * As written, when the query runs after midnight the first hours of the
   * first of last month are left out: the instant at midnight on that day
   * is in last month but not in the range.
   */
  lemma LastMonthAsWrittenMissesFirstMorning(q: string, today: QP.Date, clock: int)
    requires QP.ValidDate(today) && ValidClock(clock) && clock > 0
    requires !Contains(q, "昨日") && (Contains(q, "先月") || Contains(q, "前月"))
    ensures var (py, pm) := PreviousMonth(today.year, today.month);
            var midnight := QP.FirstOf(py, pm) * TU.Day;
            DateRangeAsWritten(q, today, clock).Some?
            && !InRange(midnight, DateRangeAsWritten(q, today, clock).value)
            && InRange(midnight, IntendedDateRange(q, today, clock).value)
  {
    PreviousMonthFirst(today.year, today.month);
  }

  /**
   * As written, without 昨日, 先月 or 前月 selects the instants of last
   * month's days from the current time of day on its first day on.
   */
  lemma LastMonthAsWrittenRange(q: string, today: QP.Date, clock: int, t: int)
    requires QP.ValidDate(today) && !Contains(q, "昨日") && (Contains(q, "先月") || Contains(q, "前月"))
    ensures DateRangeAsWritten(q, today, clock).Some?
    ensures var (py, pm) := PreviousMonth(today.year, today.month);
            InRange(t, DateRangeAsWritten(q, today, clock).value) <==>
              QP.FirstOf(py, pm) * TU.Day + clock <= t && DayOf(t) < QP.MonthRange(py, pm).stop
  {
    var (py, pm) := PreviousMonth(today.year, today.month);
    var first := QP.FirstOf(today.year, today.month);
    DayOfBounds(t, first);
    assert (first - 1) * TU.Day + TU.Day == first * TU.Day;
  }

  /** Without 昨日 and 先月/前月, 今月 or 当月 selects from the first of this month up to now. */
  lemma ThisMonthUpToNow(q: string, today: QP.Date, clock: int, t: int)
    requires QP.ValidDate(today) && !Contains(q, "昨日") && !Contains(q, "先月") && !Contains(q, "前月")
    requires Contains(q, "今月") || Contains(q, "当月")
    ensures DateRangeAsWritten(q, today, clock).Some?
    ensures InRange(t, DateRangeAsWritten(q, today, clock).value) <==>
              QP.FirstOf(today.year, today.month) <= DayOf(t) && t <= Now(today, clock)
  {
    DayOfBounds(t, QP.FirstOf(today.year, today.month));
  }

  /** Writing 過去N日 reads N back. */
  lemma PastDaysReadBack(n: nat)
    ensures PastCount("過去" + NatToString(n) + "日", DayUnits) == Some(n)
  {
    var d := NatToString(n);
    var q := "過去" + d + "日";
    assert OccursAt(q, "過去", 0) by {
      assert q[0..2] == "過去";
    }
    assert forall j :: 0 <= j < |d| ==> q[2 + j] == d[j];
    RunEndOfDigits(q, 2, 2 + |d|);
    assert OccursAt(q, DayUnits[0], 2 + |d|) by {
      assert q[2 + |d|..3 + |d|] == "日";
    }
    assert PastAt(q, 0, DayUnits) == Some(Span(2, 2 + |d|, 2 + |d|));
    assert q[2..2 + |d|] == d;
    NatToStringValue(n);
  }

  /** Every range reaches no further than now and ends no earlier than it starts. */
  lemma DateRangeInPast(q: string, today: QP.Date, clock: int)
    requires QP.ValidDate(today) && ValidClock(clock)
    ensures DateRangeAsWritten(q, today, clock).Some? ==>
              DateRangeAsWritten(q, today, clock).value.start <= DateRangeAsWritten(q, today, clock).value.end <= Now(today, clock)
  {
    QP.DayOfMonth(today);
    PreviousMonthFirst(today.year, today.month);
  }

  // ---------------------------------------------------------------------
  // _parse_search_query: names, categories and the limit
  // ---------------------------------------------------------------------

  const NumberedSuffixes: seq<string> := ["ハウス", "畑", "圃場"]

  /** `第(\d+)(?:ハウス|畑|圃場)`: the group is the number. */
  const NumberedField: Matcher :=
    (s: string, i: nat) => GreedyAt(s, i, "第", IsDigit, 1,
                                    (t: string, k: nat) => AnyAt(t, NumberedSuffixes, k),
                                    (t: string, k: nat) => FirstAtLen(t, NumberedSuffixes, k))

  /** `field_patterns`, in the order they are tried. */
  const SearchFieldPatterns: seq<Matcher> := [WLR.BeforeAny(WLR.FieldSuffixes), NumberedField]

  /** Both field patterns capture at least one character. */
  lemma SearchFieldPatternsNonEmpty()
    ensures forall k, s, i :: 0 <= k < |SearchFieldPatterns| && SearchFieldPatterns[k](s, i).Some? ==>
              SearchFieldPatterns[k](s, i).value.start < SearchFieldPatterns[k](s, i).value.stop
  {
  }

  /** The keywords of `crop_keywords` found in the query, in the list's order. */
  function CropsIn(q: string, crops: seq<string>): (r: seq<string>)
    ensures |r| <= |crops|
    ensures forall c :: c in r <==> c in crops && Contains(q, c)
    decreases |crops|
  {
    if crops == [] then []
    else
      var front := crops[..|crops| - 1];
      var last := crops[|crops| - 1];
      assert crops == front + [last];
      CropsIn(q, front) + if Contains(q, last) then [last] else []
  }

  /** `work_type_map`, in the order of the dictionary. */
  const WorkTypeMap: seq<(string, seq<string>)> := [
    ("防除", ["防除", "農薬", "散布"]),
    ("施肥", ["施肥", "肥料", "追肥"]),
    ("栽培", ["播種", "定植", "摘心"]),
    ("収穫", ["収穫", "収穫量"]),
    ("管理", ["草刈り", "清掃", "点検"])
  ]

  /** 全て or すべて asks for up to 1000 logs, else 最新 for 10; 50 otherwise. */
  function LimitOf(q: string): (n: nat)
    ensures n == 1000 <==> Contains(q, "全て") || Contains(q, "すべて")
    ensures n == 10 <==> !Contains(q, "全て") && !Contains(q, "すべて") && Contains(q, "最新")
    ensures n == 50 <==> !Contains(q, "全て") && !Contains(q, "すべて") && !Contains(q, "最新")
  {
    if Contains(q, "全て") || Contains(q, "すべて") then 1000
    else if Contains(q, "最新") then 10
    else 50
  }

  /** What `_parse_search_query` returns. */
  function SearchParamsOf(q: string, today: QP.Date, clock: int): SearchParams
    requires QP.ValidDate(today)
  {
    SearchParams(WLR.AllGroups(q, SearchFieldPatterns), CropsIn(q, WLR.MainCrops), [],
                 QP.FoundKeys(WorkTypeMap, q), DateRangeAsWritten(q, today, clock), LimitOf(q), true)
  }

  /** The order is always newest first and no material is ever asked for. */
  lemma SearchParamsDefaults(q: string, today: QP.Date, clock: int)
    requires QP.ValidDate(today)
    ensures var p := SearchParamsOf(q, today, clock);
            p.sortDesc && p.materialNames == [] && p.limit in {10, 50, 1000}
  {
  }

  /** Each field name is a non-empty piece of the query. */
  lemma FieldNamesInQuery(q: string)
    ensures forall n :: 0 <= n < |WLR.AllGroups(q, SearchFieldPatterns)| ==>
              WLR.AllGroups(q, SearchFieldPatterns)[n] != "" && Contains(q, WLR.AllGroups(q, SearchFieldPatterns)[n])
  {
    SearchFieldPatternsNonEmpty();
    WLR.AllGroupsShape(q, SearchFieldPatterns);
  }

  /** A category is listed exactly when one of its keywords occurs, and at most once. */
  lemma CategoriesFound(q: string, c: string)
    ensures c in QP.FoundKeys(WorkTypeMap, q) <==>
              exists i :: 0 <= i < |WorkTypeMap| && WorkTypeMap[i].0 == c && ContainsAny(q, WorkTypeMap[i].1)
    ensures QP.NoDuplicates(QP.FoundKeys(WorkTypeMap, q))
  {
    QP.FoundKeysMembers(WorkTypeMap, q, c);
    QP.DistinctFoundKeys(WorkTypeMap, q);
  }

  /**
   * `_parse_search_query`: the defaults, then the date range, the field
   * names of each pattern in turn, the crops and the categories in list
   * order, and the limit.
   */
  method ParseSearchQuery(q: string, today: QP.Date, clock: int) returns (p: SearchParams)
    requires QP.ValidDate(today)
    ensures p == SearchParamsOf(q, today, clock)
  {
    var dateRange := DateRangeAsWritten(q, today, clock);
    var fieldNames := FindFieldNames(q, SearchFieldPatterns);
    var cropNames := CollectCrops(q, WLR.MainCrops);
    var categories := CollectCategories(q, WorkTypeMap);
    var limit := 50;
    if Contains(q, "全て") || Contains(q, "すべて") {
      limit := 1000;
    } else if Contains(q, "最新") {
      limit := 10;
    }
    p := SearchParams(fieldNames, cropNames, [], categories, dateRange, limit, true);
  }

  /** `for pattern in field_patterns: params['field_names'].extend(re.findall(pattern, query))` */
  method FindFieldNames(q: string, pats: seq<Matcher>) returns (names: seq<string>)
    ensures names == WLR.AllGroups(q, pats)
  {
    names := [];
    var k := 0;
    while k < |pats|
      invariant 0 <= k <= |pats|
      invariant names == WLR.AllGroups(q, pats[..k])
    {
      assert pats[..k + 1][..k] == pats[..k];
      names := names + Groups(q, FindAll(q, 0, pats[k]));
      k := k + 1;
    }
    assert pats[..k] == pats;
  }

  /** `for crop in crop_keywords: if crop in query: params['crop_names'].append(crop)` */
  method CollectCrops(q: string, crops: seq<string>) returns (found: seq<string>)
    ensures found == CropsIn(q, crops)
  {
    found := [];
    var k := 0;
    while k < |crops|
      invariant 0 <= k <= |crops|
      invariant found == CropsIn(q, crops[..k])
    {
      assert crops[..k + 1][..k] == crops[..k];
      if Contains(q, crops[k]) {
        found := found + [crops[k]];
      }
      k := k + 1;
    }
    assert crops[..k] == crops;
  }

  /** `for work_type, keywords in work_type_map.items(): if any(...): params['work_categories'].append(work_type)` */
  method CollectCategories(q: string, table: seq<(string, seq<string>)>) returns (found: seq<string>)
    ensures found == QP.FoundKeys(table, q)
  {
    found := [];
    var k := 0;
    while k < |table|
      invariant 0 <= k <= |table|
      invariant found == QP.FoundKeys(table[..k], q)
    {
      assert table[..k + 1][..k] == table[..k];
      var (workType, keywords) := table[k];
      if ContainsAny(q, keywords) {
        found := found + [workType];
      }
      k := k + 1;
    }
    assert table[..k] == table;
  }

  // ---------------------------------------------------------------------
  // _execute_search
  // ---------------------------------------------------------------------

  /** `{'$regex': name, '$options': 'i'}` on the field name or on the report. */
  predicate FieldMatches(e: LogEntry, name: string)
  {
    (e.fieldName.Some? && Contains(Lower(e.fieldName.value), Lower(name)))
    || Contains(Lower(e.originalMessage), Lower(name))
  }

  /** The query document: the user, the date range, any of the field names, the categories. */
  predicate Selected(e: LogEntry, p: SearchParams, userId: string)
  {
    && e.userId == userId
    && (p.dateRange.Some? ==> InRange(e.workDate, p.dateRange.value))
    && (p.fieldNames != [] ==> exists k :: 0 <= k < |p.fieldNames| && FieldMatches(e, p.fieldNames[k]))
    && (p.workCategories != [] ==> e.category.Some? && e.category.value in p.workCategories)
  }

  /** The stored logs the query document selects, in storage order. */
  function Matching(logs: seq<LogEntry>, p: SearchParams, userId: string): (r: seq<LogEntry>)
    ensures |r| <= |logs|
    ensures forall e :: e in r <==> e in logs && Selected(e, p, userId)
    decreases |logs|
  {
    if logs == [] then []
    else
      var front := logs[..|logs| - 1];
      var last := logs[|logs| - 1];
      assert logs == front + [last];
      Matching(front, p, userId) + if Selected(last, p, userId) then [last] else []
  }

  function Recency(e: LogEntry): real
  {
    e.workDate as real
  }

  function Earliness(e: LogEntry): real
  {
    -(e.workDate as real)
  }

  /** The logs newest first. */
  function NewestFirst(xs: seq<LogEntry>): (r: seq<LogEntry>)
    ensures |r| == |xs| && multiset(r) == multiset(xs)
    ensures forall e :: e in r <==> e in xs
    ensures forall i, j :: 0 <= i < j < |r| ==> r[i].workDate >= r[j].workDate
  {
    Sorting.SortDescPerm(xs, Recency);
    Sorting.SortDescSorted(xs, Recency);
    var r := Sorting.SortDesc(xs, Recency);
    assert forall e :: e in r <==> e in multiset(r);
    r
  }

  /** The logs oldest first (`sort(key=lambda x: x['work_date'])`). */
  function OldestFirst(xs: seq<LogEntry>): (r: seq<LogEntry>)
    ensures |r| == |xs| && multiset(r) == multiset(xs)
    ensures forall e :: e in r <==> e in xs
    ensures forall i, j :: 0 <= i < j < |r| ==> r[i].workDate <= r[j].workDate
  {
    Sorting.SortDescPerm(xs, Earliness);
    Sorting.SortDescSorted(xs, Earliness);
    var r := Sorting.SortDesc(xs, Earliness);
    assert forall e :: e in r <==> e in multiset(r);
    r
  }

  /**
   * `find(query).sort('work_date', ±1).limit(limit)`: at most `limit`
   * selected logs, newest first for a descending order and oldest first
   * otherwise, and every selected log when there are no more than `limit`.
   */
  function SearchResults(logs: seq<LogEntry>, p: SearchParams, userId: string): (r: seq<LogEntry>)
    ensures |r| <= p.limit
    ensures forall e :: e in r ==> e in logs && Selected(e, p, userId)
    ensures p.sortDesc ==> forall i, j :: 0 <= i < j < |r| ==> r[i].workDate >= r[j].workDate
    ensures !p.sortDesc ==> forall i, j :: 0 <= i < j < |r| ==> r[i].workDate <= r[j].workDate
    ensures |Matching(logs, p, userId)| <= p.limit ==> forall e :: e in logs && Selected(e, p, userId) ==> e in r
  {
    var all := Matching(logs, p, userId);
    var sorted := if p.sortDesc then NewestFirst(all) else OldestFirst(all);
    var r := Take(sorted, p.limit);
    assert forall e :: e in r ==> e in sorted;
    r
  }

  /**
   * `r` is the `limit` first of `all` in the order asked for: as many as
   * the limit allows, drawn from `all`, and nothing of `all` left out is
   * newer (for a descending order) or older (for an ascending one) than
   * the last of `r`.
   */
  ghost predicate FirstInOrder(all: seq<LogEntry>, r: seq<LogEntry>, limit: nat, desc: bool)
  {
    && |r| == (if limit < |all| then limit else |all|)
    && multiset(r) <= multiset(all)
    && (desc && |r| > 0 ==> forall e :: e in multiset(all) - multiset(r) ==> e.workDate <= r[|r| - 1].workDate)
    && (!desc && |r| > 0 ==> forall e :: e in multiset(all) - multiset(r) ==> e.workDate >= r[|r| - 1].workDate)
  }

  /** The results are the `limit` first of the selected logs in the order asked for. */
  lemma SearchResultsAreFirst(logs: seq<LogEntry>, p: SearchParams, userId: string)
    ensures FirstInOrder(Matching(logs, p, userId), SearchResults(logs, p, userId), p.limit, p.sortDesc)
  {
    var all := Matching(logs, p, userId);
    var sorted := if p.sortDesc then NewestFirst(all) else OldestFirst(all);
    LimitedPrefix(all, sorted, p.limit, p.sortDesc, Take(sorted, p.limit));
  }

  /** The first `limit` entries of a sorted arrangement of `all` are the `limit` first of it in that order. */
  lemma LimitedPrefix(all: seq<LogEntry>, sorted: seq<LogEntry>, limit: nat, desc: bool, r: seq<LogEntry>)
    requires multiset(sorted) == multiset(all) && r == Take(sorted, limit)
    requires desc ==> forall i, j :: 0 <= i < j < |sorted| ==> sorted[i].workDate >= sorted[j].workDate
    requires !desc ==> forall i, j :: 0 <= i < j < |sorted| ==> sorted[i].workDate <= sorted[j].workDate
    ensures FirstInOrder(all, r, limit, desc)
  {
    var n := |r|;
    assert |sorted| == |all| by {
      assert |multiset(sorted)| == |multiset(all)|;
    }
    assert sorted == r + sorted[n..];
    assert multiset(sorted) == multiset(r) + multiset(sorted[n..]);
    assert multiset(r) <= multiset(all);
    if n > 0 {
      forall e | e in multiset(all) - multiset(r)
        ensures desc ==> e.workDate <= r[n - 1].workDate
        ensures !desc ==> e.workDate >= r[n - 1].workDate
      {
        assert e in multiset(sorted[n..]);
        var k :| 0 <= k < |sorted[n..]| && sorted[n..][k] == e;
        assert sorted[n + k] == e && sorted[n - 1] == r[n - 1];
      }
    }
  }

  /** The crop names the query names are never part of the query document. */
  lemma CropNamesUnused(logs: seq<LogEntry>, p: SearchParams, userId: string, crops: seq<string>)
    ensures SearchResults(logs, p.(cropNames := crops), userId) == SearchResults(logs, p, userId)
  {
    assert Matching(logs, p.(cropNames := crops), userId) == Matching(logs, p, userId) by {
      MatchingIgnoresCrops(logs, p, userId, crops);
    }
  }

  lemma {:induction false} MatchingIgnoresCrops(logs: seq<LogEntry>, p: SearchParams, userId: string, crops: seq<string>)
    ensures Matching(logs, p.(cropNames := crops), userId) == Matching(logs, p, userId)
    decreases |logs|
  {
    if logs != [] {
      MatchingIgnoresCrops(logs[..|logs| - 1], p, userId, crops);
    }
  }

  // ---------------------------------------------------------------------
  // Counting: `counts[k] = counts.get(k, 0) + 1`
  // ---------------------------------------------------------------------

  /** How many times k occurs in ks. */
  function Occurrences(ks: seq<string>, k: string): (n: nat)
    ensures n > 0 <==> k in ks
    decreases |ks|
  {
    if ks == [] then 0
    else
      var front := ks[..|ks| - 1];
      assert ks == front + [ks[|ks| - 1]];
      Occurrences(front, k) + if ks[|ks| - 1] == k then 1 else 0
  }

  /** `counts.get(k, 0)` */
  function CountOf(counts: map<string, nat>, k: string): nat
  {
    if k in counts then counts[k] else 0
  }

  function Bump(counts: map<string, nat>, k: string): map<string, nat>
  {
    counts[k := CountOf(counts, k) + 1]
  }

  /**
   * The dictionary a counting loop builds over ks: an entry for exactly the
   * keys that occur, each holding its number of occurrences.
   */
  function Tally(ks: seq<string>): (counts: map<string, nat>)
    ensures forall k :: k in counts <==> k in ks
    ensures forall k :: CountOf(counts, k) == Occurrences(ks, k)
    decreases |ks|
  {
    if ks == [] then map[]
    else
      var front := ks[..|ks| - 1];
      assert ks == front + [ks[|ks| - 1]];
      Bump(Tally(front), ks[|ks| - 1])
  }

  /** Counting one more key bumps its entry. */
  lemma TallySnoc(ks: seq<string>, k: string)
    ensures Tally(ks + [k]) == Bump(Tally(ks), k)
  {
    assert (ks + [k])[..|ks|] == ks;
  }

  /** Counting names[..j] after ks starts from the tally of ks and bumps one name at a time. */
  lemma TallyMore(ks: seq<string>, names: seq<string>, j: nat)
    requires j <= |names|
    ensures j == 0 ==> Tally(ks + names[..j]) == Tally(ks)
    ensures j < |names| ==> Tally(ks + names[..j + 1]) == Bump(Tally(ks + names[..j]), names[j])
  {
    if j == 0 {
      assert ks + names[..j] == ks;
    }
    if j < |names| {
      assert ks + names[..j + 1] == (ks + names[..j]) + [names[j]];
      TallySnoc(ks + names[..j], names[j]);
    }
  }

  /** The keys in the order they first occur, which is the dictionary's key order. */
  function Distinct(ks: seq<string>): (d: seq<string>)
    ensures forall k :: k in d <==> k in ks
    ensures QP.NoDuplicates(d)
    decreases |ks|
  {
    if ks == [] then []
    else
      var front := ks[..|ks| - 1];
      var last := ks[|ks| - 1];
      assert ks == front + [last];
      var d := Distinct(front);
      if last in d then d else d + [last]
  }

  /** The sum of the counts of the keys listed in ds. */
  function SumCounts(counts: map<string, nat>, ds: seq<string>): nat
    decreases |ds|
  {
    if ds == [] then 0 else SumCounts(counts, ds[..|ds| - 1]) + CountOf(counts, ds[|ds| - 1])
  }

  lemma {:induction false} SumCountsBump(counts: map<string, nat>, ds: seq<string>, x: string)
    requires QP.NoDuplicates(ds)
    ensures SumCounts(Bump(counts, x), ds) == SumCounts(counts, ds) + (if x in ds then 1 else 0)
    decreases |ds|
  {
    if ds != [] {
      var front := ds[..|ds| - 1];
      var last := ds[|ds| - 1];
      assert ds == front + [last];
      SumCountsBump(counts, front, x);
      if x == last {
        assert x !in front;
      }
    }
  }

  /** The counts of a tally add up to the number of keys counted. */
  lemma {:induction false} TallySum(ks: seq<string>)
    ensures SumCounts(Tally(ks), Distinct(ks)) == |ks|
    decreases |ks|
  {
    if ks != [] {
      var front := ks[..|ks| - 1];
      var last := ks[|ks| - 1];
      assert ks == front + [last];
      TallySum(front);
      var d := Distinct(front);
      SumCountsBump(Tally(front), d, last);
      if last !in d {
        assert (d + [last])[..|d|] == d;
        assert CountOf(Tally(front), last) == 0;
      }
    }
  }

  // ---------------------------------------------------------------------
  // _analyze_results: statistics
  // ---------------------------------------------------------------------

  /** `record.get('category', 'その他')` */
  function CategoryOf(e: LogEntry): string
  {
    if e.category.Some? then e.category.value else "その他"
  }

  /** The category counted for each log. */
  function CategoryKeys(rs: seq<LogEntry>): (ks: seq<string>)
    ensures |ks| == |rs|
    ensures forall i :: 0 <= i < |rs| ==> ks[i] == CategoryOf(rs[i])
  {
    seq(|rs|, i requires 0 <= i < |rs| => CategoryOf(rs[i]))
  }

  /** The field name counted for each log that has one. */
  function FieldKeys(rs: seq<LogEntry>): (ks: seq<string>)
    ensures |ks| <= |rs|
    ensures forall k :: k in ks ==> k != ""
    ensures forall i :: 0 <= i < |rs| && Truthy(rs[i].fieldName) ==> rs[i].fieldName.value in ks
    decreases |rs|
  {
    if rs == [] then []
    else
      var last := rs[|rs| - 1];
      FieldKeys(rs[..|rs| - 1]) + if Truthy(last.fieldName) then [last.fieldName.value] else []
  }

  /** Every material name of every log, in order. */
  function MaterialKeys(rs: seq<LogEntry>): (ks: seq<string>)
    ensures forall i, j :: 0 <= i < |rs| && 0 <= j < |rs[i].materialNames| ==> rs[i].materialNames[j] in ks
    decreases |rs|
  {
    if rs == [] then []
    else MaterialKeys(rs[..|rs| - 1]) + rs[|rs| - 1].materialNames
  }

  datatype Statistics = Statistics(workCategories: map<string, nat>, fields: map<string, nat>,
                                   materials: map<string, nat>)

  function StatisticsOf(rs: seq<LogEntry>): Statistics
  {
    Statistics(Tally(CategoryKeys(rs)), Tally(FieldKeys(rs)), Tally(MaterialKeys(rs)))
  }

  /**
   * The category counts add up to the number of logs, the field counts to
   * the number of field names and the material counts to the number of
   * material names; a log without a category counts as その他.
   */
  lemma StatisticsTotals(rs: seq<LogEntry>)
    ensures SumCounts(StatisticsOf(rs).workCategories, Distinct(CategoryKeys(rs))) == |rs|
    ensures SumCounts(StatisticsOf(rs).fields, Distinct(FieldKeys(rs))) == |FieldKeys(rs)|
    ensures SumCounts(StatisticsOf(rs).materials, Distinct(MaterialKeys(rs))) == |MaterialKeys(rs)|
    ensures (exists i :: 0 <= i < |rs| && rs[i].category.None?) ==> "その他" in StatisticsOf(rs).workCategories
  {
    TallySum(CategoryKeys(rs));
    TallySum(FieldKeys(rs));
    TallySum(MaterialKeys(rs));
  }

  /** One more log adds its category, its field name if any, and its material names. */
  lemma KeysStep(rs: seq<LogEntry>, i: nat)
    requires i < |rs|
    ensures CategoryKeys(rs[..i + 1]) == CategoryKeys(rs[..i]) + [CategoryOf(rs[i])]
    ensures Truthy(rs[i].fieldName) ==> FieldKeys(rs[..i + 1]) == FieldKeys(rs[..i]) + [rs[i].fieldName.value]
    ensures !Truthy(rs[i].fieldName) ==> FieldKeys(rs[..i + 1]) == FieldKeys(rs[..i])
    ensures MaterialKeys(rs[..i + 1]) == MaterialKeys(rs[..i]) + rs[i].materialNames
  {
    assert rs[..i + 1][..i] == rs[..i];
  }

  /** `for material in material_names: material_counts[material] = material_counts.get(material, 0) + 1` */
  method CountNames(counts: map<string, nat>, ghost counted: seq<string>, names: seq<string>)
    returns (r: map<string, nat>)
    requires counts == Tally(counted)
    ensures r == Tally(counted + names)
  {
    r := counts;
    var j := 0;
    TallyMore(counted, names, 0);
    while j < |names|
      invariant 0 <= j <= |names|
      invariant r == Tally(counted + names[..j])
    {
      TallyMore(counted, names, j);
      r := Bump(r, names[j]);
      j := j + 1;
    }
    assert names[..j] == names;
  }

  /** The counting loop of `_analyze_results`. */
  method CountStatistics(rs: seq<LogEntry>) returns (stats: Statistics)
    ensures stats == StatisticsOf(rs)
  {
    var categories: map<string, nat> := map[];
    var fields: map<string, nat> := map[];
    var materials: map<string, nat> := map[];
    var i := 0;
    while i < |rs|
      invariant 0 <= i <= |rs|
      invariant categories == Tally(CategoryKeys(rs[..i]))
      invariant fields == Tally(FieldKeys(rs[..i]))
      invariant materials == Tally(MaterialKeys(rs[..i]))
    {
      var record := rs[i];
      KeysStep(rs, i);
      var category := CategoryOf(record);
      TallySnoc(CategoryKeys(rs[..i]), category);
      categories := Bump(categories, category);
      if Truthy(record.fieldName) {
        TallySnoc(FieldKeys(rs[..i]), record.fieldName.value);
        fields := Bump(fields, record.fieldName.value);
      }
      materials := CountNames(materials, MaterialKeys(rs[..i]), record.materialNames);
      i := i + 1;
    }
    assert rs[..i] == rs;
    stats := Statistics(categories, fields, materials);
  }

  // ---------------------------------------------------------------------
  // _analyze_work_intervals
  // ---------------------------------------------------------------------

  predicate IsPestControl(e: LogEntry)
  {
    e.category == Some("防除")
  }

  /** The pest-control logs, in the order of the results. */
  function PestControlLogs(rs: seq<LogEntry>): (r: seq<LogEntry>)
    ensures |r| <= |rs|
    ensures forall e :: e in r <==> e in rs && IsPestControl(e)
    decreases |rs|
  {
    if rs == [] then []
    else
      var front := rs[..|rs| - 1];
      var last := rs[|rs| - 1];
      assert rs == front + [last];
      PestControlLogs(front) + if IsPestControl(last) then [last] else []
  }

  /** `(curr - prev).days` for each pair of consecutive logs. */
  function Gaps(s: seq<LogEntry>): (iv: seq<int>)
    ensures |iv| == if |s| == 0 then 0 else |s| - 1
    ensures forall k :: 0 <= k < |iv| ==> iv[k] == DayOf(s[k + 1].workDate - s[k].workDate)
    decreases |s|
  {
    if |s| < 2 then []
    else Gaps(s[..|s| - 1]) + [DayOf(s[|s| - 1].workDate - s[|s| - 2].workDate)]
  }

  function Reals(iv: seq<int>): (r: seq<real>)
    ensures |r| == |iv|
    ensures forall k :: 0 <= k < |iv| ==> r[k] == iv[k] as real
  {
    seq(|iv|, k requires 0 <= k < |iv| => iv[k] as real)
  }

  /** A dated list of the materials of a pest-control log that reuses a material of the one before. */
  datatype Reuse = Reuse(date: int, materials: seq<string>)

  datatype Pattern =
    | WorkInterval(averageDays: real, intervals: seq<int>, appropriate: bool)
    | MaterialRotation(consecutiveUses: nat, good: bool, details: seq<Reuse>)

  /**
   * `_analyze_work_intervals`: nothing with fewer than two pest-control
   * logs; otherwise one interval in whole days between each consecutive
   * pair in date order, never negative, and their mean, judged 適切 when
   * it lies between 7 and 14 days.
   */
  function IntervalPattern(rs: seq<LogEntry>): (r: Option<Pattern>)
    ensures r.None? <==> |PestControlLogs(rs)| < 2
    ensures r.Some? ==> r.value.WorkInterval? && |r.value.intervals| == |PestControlLogs(rs)| - 1
    ensures r.Some? ==> forall k :: 0 <= k < |r.value.intervals| ==> r.value.intervals[k] >= 0
    ensures r.Some? ==> r.value.intervals == Gaps(OldestFirst(PestControlLogs(rs)))
    ensures r.Some? ==> r.value.averageDays == Mean(Reals(r.value.intervals)) && r.value.averageDays >= 0.0
    ensures r.Some? ==> (r.value.appropriate <==> 7.0 <= r.value.averageDays <= 14.0)
  {
    var s := OldestFirst(PestControlLogs(rs));
    if |s| < 2 then None
    else
      var iv := Gaps(s);
      assert forall k :: 0 <= k < |iv| ==> iv[k] >= 0 by {
        forall k | 0 <= k < |iv|
          ensures iv[k] >= 0
        {
          DayOfBounds(s[k + 1].workDate - s[k].workDate, 0);
        }
      }
      var avg := Mean(Reals(iv));
      MeanBounds(Reals(iv), 0.0, MaxOf(iv) as real);
      Some(WorkInterval(avg, iv, 7.0 <= avg <= 14.0))
  }

  /** The largest of some numbers, 0 for none. */
  function MaxOf(iv: seq<int>): (m: int)
    ensures forall k :: 0 <= k < |iv| ==> iv[k] <= m
    decreases |iv|
  {
    if iv == [] then 0
    else
      var m := MaxOf(iv[..|iv| - 1]);
      if iv[|iv| - 1] > m then iv[|iv| - 1] else m
  }

  /**
   * Logs are judged 適切 exactly when the mean interval lies between 7 and
   * 14 days: intervals that all lie in that window are, intervals
   * that are all shorter than a week, or all longer than two, 要注意.
   */
  lemma IntervalAssessment(rs: seq<LogEntry>)
    requires IntervalPattern(rs).Some?
    ensures var w := IntervalPattern(rs).value;
            w.appropriate <==> 7.0 <= Mean(Reals(w.intervals)) <= 14.0
    ensures var w := IntervalPattern(rs).value;
            (forall k :: 0 <= k < |w.intervals| ==> 7 <= w.intervals[k] <= 14) ==> w.appropriate
    ensures var w := IntervalPattern(rs).value;
            (forall k :: 0 <= k < |w.intervals| ==> w.intervals[k] < 7) ==> !w.appropriate
    ensures var w := IntervalPattern(rs).value;
            (forall k :: 0 <= k < |w.intervals| ==> w.intervals[k] > 14) ==> !w.appropriate
  {
    var w := IntervalPattern(rs).value;
    var iv := w.intervals;
    assert w.averageDays == Mean(Reals(iv));
    if forall k :: 0 <= k < |iv| ==> 7 <= iv[k] <= 14 {
      MeanBounds(Reals(iv), 7.0, 14.0);
    }
    if forall k :: 0 <= k < |iv| ==> iv[k] < 7 {
      MeanBounds(Reals(iv), 0.0, 6.0);
    }
    if forall k :: 0 <= k < |iv| ==> iv[k] > 14 {
      MeanBounds(Reals(iv), 15.0, MaxOf(iv) as real);
    }
  }

  /** `_analyze_work_intervals`, with the interval loop. */
  method AnalyzeWorkIntervals(rs: seq<LogEntry>) returns (r: Option<Pattern>)
    ensures r == IntervalPattern(rs)
  {
    var records := PestControlLogs(rs);
    if |records| < 2 {
      return None;
    }
    records := OldestFirst(records);
    var intervals := ComputeGaps(records);
    // With two records or more there is always an interval: the `return None` after it is never reached.
    assert |intervals| > 0;
    var avg := Mean(Reals(intervals));
    r := Some(WorkInterval(avg, intervals, 7.0 <= avg <= 14.0));
  }

  /** The interval loop of `_analyze_work_intervals`. */
  method ComputeGaps(records: seq<LogEntry>) returns (intervals: seq<int>)
    requires |records| > 0
    ensures intervals == Gaps(records)
  {
    intervals := [];
    var i := 1;
    while i < |records|
      invariant 1 <= i <= |records|
      invariant intervals == Gaps(records[..i])
    {
      assert records[..i + 1][..i] == records[..i];
      intervals := intervals + [DayOf(records[i].workDate - records[i - 1].workDate)];
      i := i + 1;
    }
    assert records[..i] == records;
  }

  // ---------------------------------------------------------------------
  // _analyze_material_rotation
  // ---------------------------------------------------------------------

  /** The pest-control logs that name materials, in the order of the results. */
  function RotationLogs(rs: seq<LogEntry>): (r: seq<LogEntry>)
    ensures |r| <= |rs|
    ensures forall e :: e in r <==> e in rs && IsPestControl(e) && |e.materialNames| > 0
    decreases |rs|
  {
    if rs == [] then []
    else
      var front := rs[..|rs| - 1];
      var last := rs[|rs| - 1];
      assert rs == front + [last];
      RotationLogs(front) + if IsPestControl(last) && |last.materialNames| > 0 then [last] else []
  }

  /** `any(m in prev_materials for m in materials)` */
  predicate SharesMaterial(materials: seq<string>, prev: seq<string>)
  {
    exists j :: 0 <= j < |materials| && materials[j] in prev
  }

  /** A log of s, from the second on, shares a material with the log before it. */
  predicate Reused(s: seq<LogEntry>, k: int)
  {
    1 <= k < |s| && SharesMaterial(s[k].materialNames, s[k - 1].materialNames)
  }

  /** The reuses among the first n logs of s, in order. */
  function ReusesUpTo(s: seq<LogEntry>, n: nat): (c: seq<Reuse>)
    requires n <= |s|
    ensures |c| <= n
    ensures |c| == 0 <==> forall k :: 0 <= k < n ==> !Reused(s, k)
    ensures forall i :: 0 <= i < |c| ==> exists k :: 0 <= k < n && c[i].date == s[k].workDate
  {
    if n == 0 then []
    else
      var c := ReusesUpTo(s, n - 1);
      if Reused(s, n - 1) then c + [Reuse(s[n - 1].workDate, s[n - 1].materialNames)] else c
  }

  /** Reuses come in date order when the logs do. */
  lemma {:induction false} ReusesAscending(s: seq<LogEntry>, n: nat)
    requires n <= |s|
    requires forall i, j :: 0 <= i < j < |s| ==> s[i].workDate <= s[j].workDate
    ensures DatesAscending(ReusesUpTo(s, n))
  {
    if n > 0 {
      ReusesAscending(s, n - 1);
      var c := ReusesUpTo(s, n - 1);
      forall i | 0 <= i < |c|
        ensures c[i].date <= s[n - 1].workDate
      {
        var k :| 0 <= k < n - 1 && c[i].date == s[k].workDate;
      }
      if Reused(s, n - 1) {
        var x := Reuse(s[n - 1].workDate, s[n - 1].materialNames);
        assert ReusesUpTo(s, n) == c + [x];
        forall i, j | 0 <= i < j < |c| + 1
          ensures (c + [x])[i].date <= (c + [x])[j].date
        {
          if j < |c| {
            assert (c + [x])[i] == c[i] && (c + [x])[j] == c[j];
          }
        }
      }
    }
  }

  predicate DatesAscending(c: seq<Reuse>)
  {
    forall i, j :: 0 <= i < j < |c| ==> c[i].date <= c[j].date
  }

  /** As written, `consecutive_materials[:3]`: the first three reuses, which in date order are the oldest. */
  function DetailsAsWritten(c: seq<Reuse>): (d: seq<Reuse>)
    ensures |d| <= 3 && |d| <= |c| && d == c[..|d|]
  {
    Take(c, 3)
  }

  /** The three latest reuses (最新3件), oldest of them first. */
  function LatestThree(c: seq<Reuse>): (d: seq<Reuse>)
    ensures |d| == if |c| < 3 then |c| else 3
    ensures d == c[|c| - |d|..]
  {
    if |c| <= 3 then c else c[|c| - 3..]
  }

  /** The reuses of the rotation check: the logs oldest first, each compared with the one before. */
  function RotationReuses(rs: seq<LogEntry>): seq<Reuse>
  {
    var s := OldestFirst(RotationLogs(rs));
    ReusesUpTo(s, |s|)
  }

  /**
   * `_analyze_material_rotation`: nothing with fewer than three pest-control
   * logs that name materials; otherwise the number of logs that reuse a
   * material of the log before them in date order, judged 良好 exactly when
   * there are none, and, as written, the first three of them in date
   * order (the oldest; `LatestThree` is what the comment 最新3件 intends).
   */
  function RotationPattern(rs: seq<LogEntry>): (r: Option<Pattern>)
    ensures r.None? <==> |RotationLogs(rs)| < 3
    ensures r.Some? ==> r.value.MaterialRotation? && r.value.consecutiveUses == |RotationReuses(rs)|
    ensures r.Some? ==> (r.value.good <==>
              var s := OldestFirst(RotationLogs(rs)); forall k :: 0 <= k < |s| ==> !Reused(s, k))
    ensures r.Some? ==> |r.value.details| == (if r.value.consecutiveUses < 3 then r.value.consecutiveUses else 3)
    ensures r.Some? ==> r.value.details == RotationReuses(rs)[..|r.value.details|]
  {
    var s := OldestFirst(RotationLogs(rs));
    if |s| < 3 then None
    else
      var c := ReusesUpTo(s, |s|);
      Some(MaterialRotation(|c|, |c| == 0, DetailsAsWritten(c)))
  }

  /** The reuses of the rotation check are in date order. */
  lemma RotationReusesAscending(rs: seq<LogEntry>)
    ensures DatesAscending(RotationReuses(rs))
  {
    var s := OldestFirst(RotationLogs(rs));
    ReusesAscending(s, |s|);
  }

  /** The intended details: no reuse left out of `LatestThree` is later than one listed. */
  lemma RotationDetailsLatest(rs: seq<LogEntry>)
    ensures var c := RotationReuses(rs); var d := LatestThree(c);
            forall i, j :: 0 <= i < |c| - |d| && 0 <= j < |d| ==> c[i].date <= d[j].date
  {
    var c := RotationReuses(rs);
    RotationReusesAscending(rs);
    var d := LatestThree(c);
    forall i, j | 0 <= i < |c| - |d| && 0 <= j < |d|
      ensures c[i].date <= d[j].date
    {
      assert d[j] == c[|c| - |d| + j];
    }
  }

  /** Of reuses in date order, the first three are the oldest; a later last one is not among them. */
  lemma FirstThreeOldest(c: seq<Reuse>)
    requires DatesAscending(c)
    ensures var d := DetailsAsWritten(c); forall i, j :: 0 <= i < |d| <= j < |c| ==> d[i].date <= c[j].date
    ensures |c| > 3 && c[|c| - 1].date > c[2].date ==>
              c[|c| - 1] !in DetailsAsWritten(c) && c[|c| - 1] in LatestThree(c)
  {
    var d := DetailsAsWritten(c);
    forall i, j | 0 <= i < |d| <= j < |c|
      ensures d[i].date <= c[j].date
    {
      assert d[i] == c[i];
    }
    if |c| > 3 && c[|c| - 1].date > c[2].date {
      assert c[|c| - 1] == LatestThree(c)[2];
      forall i | 0 <= i < |d|
        ensures d[i] != c[|c| - 1]
      {
        assert d[i] == c[i] && c[i].date <= c[2].date;
      }
    }
  }

  /**
   * As written, the details are the OLDEST reuses: none left out is earlier
   * than one listed, and when there are four or more and the latest is
   * later than the third, the latest is missing.
   */
  lemma RotationDetailsAsWrittenOldest(rs: seq<LogEntry>)
    ensures var c := RotationReuses(rs); var d := DetailsAsWritten(c);
            forall i, j :: 0 <= i < |d| <= j < |c| ==> d[i].date <= c[j].date
    ensures var c := RotationReuses(rs);
            |c| > 3 && c[|c| - 1].date > c[2].date ==>
              c[|c| - 1] !in DetailsAsWritten(c) && c[|c| - 1] in LatestThree(c)
  {
    RotationReusesAscending(rs);
    FirstThreeOldest(RotationReuses(rs));
  }

  /** `_analyze_material_rotation`, with the loop that carries the previous log's materials. */
  method AnalyzeMaterialRotation(rs: seq<LogEntry>) returns (r: Option<Pattern>)
    ensures r == RotationPattern(rs)
  {
    var logs := RotationLogs(rs);
    if |logs| < 3 {
      return None;
    }
    var records := OldestFirst(logs);
    // Every record kept for the check names materials.
    assert forall k :: 0 <= k < |records| ==> |records[k].materialNames| > 0 by {
      assert forall k :: 0 <= k < |records| ==> records[k] in logs;
    }
    var consecutive := ScanReuses(records);
    r := Some(MaterialRotation(|consecutive|, |consecutive| == 0, DetailsAsWritten(consecutive)));
  }

  /** The loop of `_analyze_material_rotation`, carrying the previous log's materials. */
  method ScanReuses(records: seq<LogEntry>) returns (consecutive: seq<Reuse>)
    requires forall k :: 0 <= k < |records| ==> |records[k].materialNames| > 0
    ensures consecutive == ReusesUpTo(records, |records|)
  {
    consecutive := [];
    var prev: seq<string> := [];
    var i := 0;
    while i < |records|
      invariant 0 <= i <= |records|
      invariant consecutive == ReusesUpTo(records, i)
      invariant prev == if i == 0 then [] else records[i - 1].materialNames
    {
      var materials := records[i].materialNames;
      assert |materials| > 0;
      assert (|prev| > 0 && SharesMaterial(materials, prev)) == Reused(records, i);
      if |prev| > 0 && SharesMaterial(materials, prev) {
        consecutive := consecutive + [Reuse(records[i].workDate, materials)];
      }
      prev := materials;
      i := i + 1;
    }
  }

  // ---------------------------------------------------------------------
  // _generate_recommendations
  // ---------------------------------------------------------------------

  const NoLogsFound: string := "該当する作業記録が見つかりませんでした。検索条件を見直してください。"
  const BalanceAdvice: string := "防除作業が多めです。施肥バランスの確認をお勧めします。"

  function StaleAdvice(days: nat): (r: string)
    ensures |r| > 0 && r[0] == '最'
  {
    "最新作業から" + NatToString(days) + "日経過しています。定期作業の確認をお勧めします。"
  }

  /** `max(results, key=lambda x: x['work_date'])`: the first log with the latest date. */
  function Latest(rs: seq<LogEntry>): (e: LogEntry)
    requires |rs| > 0
    ensures e in rs
    ensures forall i :: 0 <= i < |rs| ==> rs[i].workDate <= e.workDate
  {
    rs[Sorting.FirstMaxIndex(rs, Recency)]
  }

  /** `(datetime.now() - latest['work_date']).days` */
  function DaysSinceLatest(rs: seq<LogEntry>, now: int): int
    requires |rs| > 0
  {
    DayOf(now - Latest(rs).workDate)
  }

  /**
   * `_generate_recommendations`: for no logs, the advice to change the
   * search; otherwise a reminder when the latest log is more than 14 days
   * old, and a balance warning when pest control outnumbers fertilising
   * more than twice over.
   */
  function Recommendations(rs: seq<LogEntry>, now: int): (r: seq<string>)
    ensures rs == [] ==> r == [NoLogsFound]
    ensures rs != [] ==> |r| <= 2 && NoLogsFound !in r
    ensures rs != [] ==>
              (BalanceAdvice in r <==> Occurrences(CategoryKeys(rs), "防除") > 2 * Occurrences(CategoryKeys(rs), "施肥"))
    ensures rs != [] ==>
              (DaysSinceLatest(rs, now) > 14 <==> |r| > 0 && r[0] != BalanceAdvice)
    ensures rs != [] && DaysSinceLatest(rs, now) > 14 ==> r[0] == StaleAdvice(DaysSinceLatest(rs, now))
  {
    if rs == [] then [NoLogsFound]
    else
      AdviceTextsDiffer();
      StaleReminder(rs, now) + BalanceWarning(Tally(CategoryKeys(rs)))
  }

  lemma AdviceTextsDiffer()
    ensures NoLogsFound[0] != '最' && BalanceAdvice[0] != '最' && NoLogsFound != BalanceAdvice
  {
    assert NoLogsFound[0] == '該' && BalanceAdvice[0] == '防';
  }

  /** The reminder when the latest log is more than 14 days old. */
  function StaleReminder(rs: seq<LogEntry>, now: int): seq<string>
    requires |rs| > 0
  {
    var days := DaysSinceLatest(rs, now);
    if days > 14 then [StaleAdvice(days)] else []
  }

  /** The warning when pest control is counted more than twice as often as fertilising. */
  function BalanceWarning(counts: map<string, nat>): seq<string>
  {
    if CountOf(counts, "防除") > CountOf(counts, "施肥") * 2 then [BalanceAdvice] else []
  }

  /** The reminder appears exactly when no log lies within the last 15 days. */
  lemma StaleMeansNothingRecent(rs: seq<LogEntry>, now: int)
    requires rs != []
    ensures DaysSinceLatest(rs, now) > 14 <==> forall e :: e in rs ==> e.workDate <= now - 15 * TU.Day
  {
    var latest := Latest(rs);
    DayOfBounds(now - latest.workDate, 15);
    assert DaysSinceLatest(rs, now) > 14 <==> DayOf(now - latest.workDate) >= 15;
    if DaysSinceLatest(rs, now) > 14 {
      forall e | e in rs
        ensures e.workDate <= now - 15 * TU.Day
      {
        var i :| 0 <= i < |rs| && rs[i] == e;
      }
    }
  }

  /** The category counting loop of `_generate_recommendations`. */
  method CountCategories(rs: seq<LogEntry>) returns (counts: map<string, nat>)
    ensures counts == Tally(CategoryKeys(rs))
  {
    counts := map[];
    var i := 0;
    while i < |rs|
      invariant 0 <= i <= |rs|
      invariant counts == Tally(CategoryKeys(rs[..i]))
    {
      KeysStep(rs, i);
      TallySnoc(CategoryKeys(rs[..i]), CategoryOf(rs[i]));
      counts := Bump(counts, CategoryOf(rs[i]));
      i := i + 1;
    }
    assert rs[..i] == rs;
  }

  /** `_generate_recommendations`, with its own counting loop. */
  method GenerateRecommendations(rs: seq<LogEntry>, now: int) returns (r: seq<string>)
    ensures r == Recommendations(rs, now)
  {
    if rs == [] {
      return [NoLogsFound];
    }
    r := [];
    var latest := Latest(rs);
    var days := DayOf(now - latest.workDate);
    if days > 14 {
      r := r + [StaleAdvice(days)];
    }
    assert r == StaleReminder(rs, now);
    var counts := CountCategories(rs);
    ghost var reminder := r;
    if CountOf(counts, "防除") > CountOf(counts, "施肥") * 2 {
      r := r + [BalanceAdvice];
    }
    assert r == reminder + BalanceWarning(counts);
  }

  // ---------------------------------------------------------------------
  // _analyze_results and search_work_logs
  // ---------------------------------------------------------------------

  datatype Analysis = Analysis(totalCount: nat, results: seq<LogEntry>, statistics: Option<Statistics>,
                               patterns: seq<Pattern>, recommendations: seq<string>)

  /** `[p for p in patterns if p]`: the patterns found, only with three results or more. */
  function PatternsOf(rs: seq<LogEntry>): (ps: seq<Pattern>)
    ensures |rs| < 3 ==> ps == []
    ensures |ps| <= 2
    ensures forall p :: p in ps ==> Some(p) == IntervalPattern(rs) || Some(p) == RotationPattern(rs)
  {
    if |rs| >= 3 then Somes([IntervalPattern(rs), RotationPattern(rs)]) else []
  }

  /**
   * `_analyze_results`: for no results, a zero count and nothing else (not
   * even the advice to change the search); otherwise the count, the
   * results, their statistics, the patterns and the recommendations.
   */
  function AnalysisOf(rs: seq<LogEntry>, now: int): (a: Analysis)
    ensures a.totalCount == |rs| && a.results == rs
    ensures rs == [] ==> a.statistics.None? && a.patterns == [] && a.recommendations == []
    ensures rs != [] ==> a.statistics == Some(StatisticsOf(rs)) && a.recommendations == Recommendations(rs, now)
    ensures a.patterns == PatternsOf(rs)
  {
    if rs == [] then Analysis(0, [], None, [], [])
    else Analysis(|rs|, rs, Some(StatisticsOf(rs)), PatternsOf(rs), Recommendations(rs, now))
  }

  /** `_analyze_results` */
  method AnalyzeResults(rs: seq<LogEntry>, now: int) returns (a: Analysis)
    ensures a == AnalysisOf(rs, now)
  {
    if rs == [] {
      return Analysis(0, [], None, [], []);
    }
    var stats := CountStatistics(rs);
    var found: seq<Option<Pattern>> := [];
    if |rs| >= 3 {
      var intervals := AnalyzeWorkIntervals(rs);
      var rotation := AnalyzeMaterialRotation(rs);
      found := [intervals, rotation];
    }
    var recommendations := GenerateRecommendations(rs, now);
    a := Analysis(|rs|, rs, Some(stats), Somes(found), recommendations);
  }

  const SearchFailure: string := "作業記録の検索中にエラーが発生しました。"

  /** What `search_work_logs` hands to the formatting step, or the failure it reports. */
  datatype SearchOutcome =
    | Searched(params: SearchParams, analysis: Analysis)
    | SearchFailed(error: string, message: string)

  /**
   * `search_work_logs`: parse the query, run the search over the user's
   * stored logs (`stored`, or the database error), and analyse what it
   * finds.  A database error becomes the failure reply; otherwise the
   * `limit` newest of the user's logs that the query selects (all of them
   * when there are fewer), newest first.
   */
  method SearchWorkLogs(q: string, userId: string, today: QP.Date, clock: int, stored: Fetch<LogEntry>)
    returns (out: SearchOutcome)
    requires QP.ValidDate(today)
    ensures stored.Failed? ==> out == SearchFailed(stored.message, SearchFailure)
    ensures stored.Fetched? ==>
              out == Searched(SearchParamsOf(q, today, clock),
                              AnalysisOf(SearchResults(stored.rows, SearchParamsOf(q, today, clock), userId),
                                         Now(today, clock)))
    ensures stored.Fetched? ==>
              var rs := out.analysis.results;
              out.analysis.totalCount <= out.params.limit
              && (forall e :: e in rs ==> e in stored.rows && e.userId == userId && Selected(e, out.params, userId))
              && (forall i, j :: 0 <= i < j < |rs| ==> rs[i].workDate >= rs[j].workDate)
    ensures stored.Fetched? ==>
              FirstInOrder(Matching(stored.rows, out.params, userId), out.analysis.results, out.params.limit, true)
  {
    var params := ParseSearchQuery(q, today, clock);
    match stored
    case Failed(message) =>
      out := SearchFailed(message, SearchFailure);
    case Fetched(rows) =>
      var results := SearchResults(rows, params, userId);
      SearchResultsAreFirst(rows, params, userId);
      var analysis := AnalyzeResults(results, Now(today, clock));
      out := Searched(params, analysis);
  }
}
