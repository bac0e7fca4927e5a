/**
 * The natural-language query parser: date keywords become half-open
 * ranges of days (single days, Monday-start weeks, calendar months), field
 * names are picked out by a list of patterns tried in order, and work types
 * and priorities by keyword tables.  Dates are day numbers counted from
 * 1970-01-01; the clock's reading is a parameter.
 */
module QueryParsing {
  import opened Common
  import Patterns

  // ---------------------------------------------------------------------
  // The calendar
  // ---------------------------------------------------------------------

  /** A calendar date, as `datetime` holds it. */
  datatype Date = Date(year: int, month: int, day: int)

  predicate IsLeapYear(y: int)
  {
    y % 4 == 0 && (y % 100 != 0 || y % 400 == 0)
  }

  function DaysInMonth(y: int, m: int): int
    requires 1 <= m <= 12
  {
    if m == 2 then (if IsLeapYear(y) then 29 else 28)
    else if m == 4 || m == 6 || m == 9 || m == 11 then 30
    else 31
  }

  predicate ValidDate(d: Date)
  {
    1 <= d.month <= 12 && 1 <= d.day <= DaysInMonth(d.year, d.month)
  }

  /** The day number of a date in the proleptic Gregorian calendar; 1970-01-01 is day 0. */
  function DaysFromCivil(y: int, m: int, d: int): int
    requires 1 <= m <= 12
  {
    var y' := if m <= 2 then y - 1 else y;
    var era := y' / 400;
    var yoe := y' - era * 400;
    var mp := (m + 9) % 12;
    var doy := (153 * mp + 2) / 5 + d - 1;
    var doe := yoe * 365 + yoe / 4 - yoe / 100 + doy;
    era * 146097 + doe - 719468
  }

  function DayNumber(d: Date): int
    requires ValidDate(d)
  {
    DaysFromCivil(d.year, d.month, d.day)
  }

  /** `weekday()`: Monday is 0; 1970-01-01 was a Thursday. */
  function Weekday(n: int): (w: int)
    ensures 0 <= w < 7
  {
    (n + 3) % 7
  }

  /** The day numbers agree with the calendar at a few known dates. */
  lemma CalendarAnchors()
    ensures DaysFromCivil(1970, 1, 1) == 0 && Weekday(0) == 3
    ensures Weekday(DaysFromCivil(2024, 1, 1)) == 0
    ensures DaysFromCivil(2024, 3, 1) - DaysFromCivil(2024, 2, 1) == 29
    ensures DaysFromCivil(2023, 3, 1) - DaysFromCivil(2023, 2, 1) == 28
    ensures DaysFromCivil(2025, 1, 1) - DaysFromCivil(2024, 12, 1) == 31
  {
    AnchorEpoch();
    Anchor2024();
    Anchor2023();
    Anchor2025();
  }

  lemma AnchorEpoch()
    ensures DaysFromCivil(1970, 1, 1) == 0 && Weekday(0) == 3 && Weekday(19723) == 0
  {
  }

  lemma Anchor2024()
    ensures DaysFromCivil(2024, 1, 1) == 19723
    ensures DaysFromCivil(2024, 2, 1) == 19754 && DaysFromCivil(2024, 3, 1) == 19783
  {
  }

  lemma Anchor2023()
    ensures DaysFromCivil(2023, 2, 1) == 19389 && DaysFromCivil(2023, 3, 1) == 19417
  {
  }

  lemma Anchor2025()
    ensures DaysFromCivil(2024, 12, 1) == 20058 && DaysFromCivil(2025, 1, 1) == 20089
  {
  }

  /** Within a month, day numbers count the days of the month. */
  lemma DayOfMonth(d: Date)
    requires ValidDate(d)
    ensures DayNumber(d) == DaysFromCivil(d.year, d.month, 1) + d.day - 1
  {
  }

  // ---------------------------------------------------------------------
  // Ranges
  // ---------------------------------------------------------------------

  /** `{'$gte': start, '$lt': stop}` in day numbers, all at midnight. */
  datatype Range = Range(start: int, stop: int)

  function DayRange(n: int): (r: Range)
    ensures r.stop == r.start + 1 && r.start == n
  {
    Range(n, n + 1)
  }

  /** `_get_this_week_range`: from this week's Monday, seven days. */
  function ThisWeekRange(today: int): (r: Range)
    ensures Weekday(r.start) == 0 && r.stop == r.start + 7
    ensures r.start <= today < r.stop
  {
    var start := today - Weekday(today);
    Range(start, start + 7)
  }

  /** `_get_next_week_range` */
  function NextWeekRange(today: int): (r: Range)
    ensures var w := ThisWeekRange(today); r == Range(w.start + 7, w.stop + 7)
    ensures Weekday(r.start) == 0 && r.start == ThisWeekRange(today).stop
  {
    var start := ThisWeekRange(today).start + 7;
    Range(start, start + 7)
  }

  /** `_get_last_week_range` */
  function LastWeekRange(today: int): (r: Range)
    ensures var w := ThisWeekRange(today); r == Range(w.start - 7, w.start)
    ensures Weekday(r.start) == 0 && r.stop - r.start == 7
  {
    var start := ThisWeekRange(today).start;
    Range(start - 7, start)
  }

  /** The first of a month, as a day number. */
  function FirstOf(y: int, m: int): int
    requires 1 <= m <= 12
  {
    DaysFromCivil(y, m, 1)
  }

  /** The month after (y, m), rolling December into January of the next year. */
  function FollowingMonth(y: int, m: int): (r: (int, int))
    requires 1 <= m <= 12
    ensures 1 <= r.1 <= 12
    ensures m < 12 ==> r == (y, m + 1)
    ensures m == 12 ==> r == (y + 1, 1)
  {
    if m == 12 then (y + 1, 1) else (y, m + 1)
  }

  /** A calendar month: from its first day to the first day of the month after. */
  function MonthRange(y: int, m: int): Range
    requires 1 <= m <= 12
  {
    var (y', m') := FollowingMonth(y, m);
    Range(FirstOf(y, m), FirstOf(y', m'))
  }

  /** `_get_this_month_range` */
  function ThisMonthRange(now: Date): (r: Range)
    requires ValidDate(now)
    ensures r.start <= DayNumber(now)
  {
    var start := FirstOf(now.year, now.month);
    if now.month == 12 then Range(start, FirstOf(now.year + 1, 1))
    else Range(start, FirstOf(now.year, now.month + 1))
  }

  /** `_get_next_month_range` */
  function NextMonthRange(now: Date): Range
    requires ValidDate(now)
  {
    if now.month == 12 then Range(FirstOf(now.year + 1, 1), FirstOf(now.year + 1, 2))
    else
      var start := FirstOf(now.year, now.month + 1);
      if now.month == 11 then Range(start, FirstOf(now.year + 1, 1))
      else Range(start, FirstOf(now.year, now.month + 2))
  }

  /**
   * This month is the calendar month of today, and next month is the
   * calendar month after it, with every year rollover (December, and
   * November's next month ending in January) where it belongs; next month
   * starts where this month ends.
   */
  lemma MonthRanges(now: Date)
    requires ValidDate(now)
    ensures ThisMonthRange(now) == MonthRange(now.year, now.month)
    ensures var (y, m) := FollowingMonth(now.year, now.month); NextMonthRange(now) == MonthRange(y, m)
    ensures NextMonthRange(now).start == ThisMonthRange(now).stop
  {
  }

  // ---------------------------------------------------------------------
  // parse_date_query
  // ---------------------------------------------------------------------

  /** The keys of `date_patterns`, in the order they are tried. */
  const DateKeywords: seq<string> := ["今日", "明日", "昨日", "今週", "来週", "先週", "今月", "来月"]

  /** The range a date keyword stands for. */
  function KeywordRange(k: string, now: Date): Range
    requires ValidDate(now)
  {
    var today := DayNumber(now);
    if k == "今日" then DayRange(today)
    else if k == "明日" then DayRange(today + 1)
    else if k == "昨日" then DayRange(today - 1)
    else if k == "今週" then ThisWeekRange(today)
    else if k == "来週" then NextWeekRange(today)
    else if k == "先週" then LastWeekRange(today)
    else if k == "今月" then ThisMonthRange(now)
    else NextMonthRange(now)
  }

  /** A parsed date: the range and the keyword (or `dateparser`) it came from. */
  datatype DateQuery = DateQuery(range: Range, pattern: string)

  const DateparserPattern: string := "dateparser"

  /**
   * `parse_date_query`: the first keyword in table order that occurs in
   * the query; failing that, the date the external date parser read from
   * the query (`parsed`), as a single day.
   */
  function ParseDateQuery(query: string, now: Date, parsed: Option<Date>): (r: Option<DateQuery>)
    requires ValidDate(now)
    requires parsed.Some? ==> ValidDate(parsed.value)
    ensures r.Some? && r.value.pattern != DateparserPattern ==>
              exists i :: 0 <= i < |DateKeywords| && r.value.pattern == DateKeywords[i] && Contains(query, DateKeywords[i])
                          && (forall j :: 0 <= j < i ==> !Contains(query, DateKeywords[j]))
    ensures r.Some? && r.value.pattern != DateparserPattern ==> r.value.range == KeywordRange(r.value.pattern, now)
    ensures r.None? <==> parsed.None? && forall i :: 0 <= i < |DateKeywords| ==> !Contains(query, DateKeywords[i])
    ensures r.Some? && r.value.pattern == DateparserPattern ==>
              parsed.Some? && r.value.range == DayRange(DayNumber(parsed.value))
  {
    match FirstIndex(DateKeywords, k => Contains(query, k))
    case Some(i) =>
      assert |DateKeywords[i]| == 2 < |DateparserPattern|;
      Some(DateQuery(KeywordRange(DateKeywords[i], now), DateKeywords[i]))
    case None =>
      match parsed
      case Some(d) => Some(DateQuery(DayRange(DayNumber(d)), DateparserPattern))
      case None => None
  }

  /**
   * The single-day keywords give today, tomorrow and yesterday as one-day
   * ranges; the week keywords give Monday-start weeks of seven days.
   */
  lemma DateKeywordRanges(now: Date)
    requires ValidDate(now)
    ensures var t := DayNumber(now);
            && KeywordRange("今日", now) == Range(t, t + 1)
            && KeywordRange("明日", now) == Range(t + 1, t + 2)
            && KeywordRange("昨日", now) == Range(t - 1, t)
            && KeywordRange("今週", now).start <= t < KeywordRange("今週", now).stop
            && Weekday(KeywordRange("来週", now).start) == 0
            && KeywordRange("先週", now).stop == KeywordRange("今週", now).start
  {
  }

  /** The keyword loop of `parse_date_query`, returning at the first hit. */
  method FindDateKeyword(query: string) returns (r: Option<nat>)
    ensures r.Some? ==> r.value < |DateKeywords| && Contains(query, DateKeywords[r.value])
    ensures r.Some? ==> forall j :: 0 <= j < r.value ==> !Contains(query, DateKeywords[j])
    ensures r.None? <==> forall j :: 0 <= j < |DateKeywords| ==> !Contains(query, DateKeywords[j])
  {
    for i := 0 to |DateKeywords|
      invariant forall j :: 0 <= j < i ==> !Contains(query, DateKeywords[j])
    {
      if Contains(query, DateKeywords[i]) {
        return Some(i);
      }
    }
    return None;
  }

  // ---------------------------------------------------------------------
  // parse_field_query
  // ---------------------------------------------------------------------

  const AllFieldWords: seq<string> := ["全圃場", "すべての圃場", "全ての圃場", "全部"]

  /** The number of entries in `field_patterns`. */
  const FieldPatternCount: nat := 5

  predicate IsAsciiUpper(c: char) { 'A' <= c <= 'Z' }

  /** The class `[ハウス|棟|区画]`: single characters, `|` among them. */
  predicate InHouseClass(c: char)
  {
    c == 'ハ' || c == 'ウ' || c == 'ス' || c == '|' || c == '棟' || c == '区' || c == '画'
  }

  /** The class `[棟|区画]` */
  predicate InWardClass(c: char)
  {
    c == '棟' || c == '|' || c == '区' || c == '画'
  }

  /**
   * The p-th field pattern tried at i; the group is the whole match.
   * 0: `[ABC]畑`; 1: `第[0-9]+[ハウス|棟|区画]*`; 2: `[A-Z]-[0-9]+`;
   * 3: `ハウス[0-9]+`; 4: `[0-9]+号[棟|区画]*`.
   */
  function FieldPatternAt(s: string, i: nat, p: nat): (r: Option<Patterns.Span>)
    requires p < FieldPatternCount
    ensures r.Some? ==> r.value.start == i && i + 2 <= r.value.stop <= |s| && r.value.next == r.value.stop
  {
    if i > |s| then None
    else if p == 0 then
      if i + 2 <= |s| && (s[i] == 'A' || s[i] == 'B' || s[i] == 'C') && s[i + 1] == '畑'
      then Some(Patterns.Span(i, i + 2, i + 2)) else None
    else if p == 1 then
      if i < |s| && s[i] == '第' then
        var e := Patterns.RunEnd(s, i + 1, IsAsciiDigit);
        if e > i + 1 then
          var f := Patterns.RunEnd(s, e, InHouseClass);
          Some(Patterns.Span(i, f, f))
        else None
      else None
    else if p == 2 then
      if i + 2 <= |s| && IsAsciiUpper(s[i]) && s[i + 1] == '-' then
        var e := Patterns.RunEnd(s, i + 2, IsAsciiDigit);
        if e > i + 2 then Some(Patterns.Span(i, e, e)) else None
      else None
    else if p == 3 then
      if OccursAt(s, "ハウス", i) then
        var e := Patterns.RunEnd(s, i + 3, IsAsciiDigit);
        if e > i + 3 then Some(Patterns.Span(i, e, e)) else None
      else None
    else
      var e := Patterns.RunEnd(s, i, IsAsciiDigit);
      if e > i && e < |s| && s[e] == '号' then
        var f := Patterns.RunEnd(s, e + 1, InWardClass);
        Some(Patterns.Span(i, f, f))
      else None
  }

  function FieldPattern(p: nat): (string, nat) -> Option<Patterns.Span>
    requires p < FieldPatternCount
  {
    (s: string, i: nat) => FieldPatternAt(s, i, p)
  }

  /** What `parse_field_query` returns. */
  datatype FieldQuery = AllFields | FieldFilter(fieldName: string)

  /** The first pattern, from p on, that `re.search` finds in the query, and its group. */
  function FirstFieldMatch(query: string, p: nat): (r: Option<string>)
    requires p <= FieldPatternCount
    ensures r.Some? ==> Contains(query, r.value) && |r.value| >= 2
    decreases FieldPatternCount - p
  {
    if p == FieldPatternCount then None
    else match FieldSearch(query, p)
      case Some(g) => Some(g)
      case None => FirstFieldMatch(query, p + 1)
  }

  /** `re.search(pattern, query)` for the p-th pattern, and its group. */
  function FieldSearch(query: string, p: nat): (r: Option<string>)
    requires p < FieldPatternCount
    ensures r.Some? ==> Contains(query, r.value) && |r.value| >= 2
  {
    match Patterns.Search(query, 0, FieldPattern(p))
    case Some(m) =>
      var g := Patterns.Group(query, m);
      assert OccursAt(query, g, m.start);
      ContainsAt(query, g, m.start);
      Some(g)
    case None => None
  }

  /**
   * `parse_field_query`: every field when an all-fields word occurs, else
   * the group of the first pattern that matches, which occurs in the query
   * and is at least two characters long.
   */
  function ParseFieldQuery(query: string): (r: Option<FieldQuery>)
    ensures r == Some(AllFields) <==> ContainsAny(query, AllFieldWords)
    ensures r.Some? && r.value.FieldFilter? ==> Contains(query, r.value.fieldName) && |r.value.fieldName| >= 2
  {
    if ContainsAny(query, AllFieldWords) then Some(AllFields)
    else match FirstFieldMatch(query, 0)
      case Some(g) => Some(FieldFilter(g))
      case None => None
  }

  /** The pattern loop of `parse_field_query`, returning at the first pattern that matches. */
  method FindFieldName(query: string) returns (r: Option<string>)
    ensures r == FirstFieldMatch(query, 0)
  {
    var p := 0;
    while p < FieldPatternCount
      invariant p <= FieldPatternCount
      invariant FirstFieldMatch(query, 0) == FirstFieldMatch(query, p)
    {
      var g := FieldSearch(query, p);
      if g.Some? {
        return g;
      }
      p := p + 1;
    }
    return None;
  }

  // ---------------------------------------------------------------------
  // parse_work_type_query and parse_priority_query
  // ---------------------------------------------------------------------

  /** `work_type_patterns`, in table order. */
  const WorkTypePatterns: seq<(string, seq<string>)> := [
    ("防除", ["防除", "農薬散布", "薬剤散布", "消毒"]),
    ("灌水", ["灌水", "水やり", "散水"]),
    ("追肥", ["追肥", "肥料", "施肥"]),
    ("除草", ["除草", "草取り", "草刈り"]),
    ("収穫", ["収穫", "採取"]),
    ("定植", ["定植", "植付け", "移植"]),
    ("播種", ["播種", "種まき", "蒔種"]),
    ("摘芯", ["摘芯", "芯止め"]),
    ("誘引", ["誘引", "支柱立て"])
  ]

  /** The keys of a keyword table whose keywords occur in the query, in table order. */
  function FoundKeys(table: seq<(string, seq<string>)>, query: string): (r: seq<string>)
    ensures |r| <= |table|
    decreases |table|
  {
    if table == [] then []
    else
      var last := table[|table| - 1];
      FoundKeys(table[..|table| - 1], query) + if ContainsAny(query, last.1) then [last.0] else []
  }

  /** A key is found exactly when one of its keywords occurs in the query. */
  lemma {:induction false} FoundKeysMembers(table: seq<(string, seq<string>)>, query: string, k: string)
    ensures k in FoundKeys(table, query) <==>
              exists i :: 0 <= i < |table| && table[i].0 == k && ContainsAny(query, table[i].1)
    decreases |table|
  {
    if table != [] {
      var front := table[..|table| - 1];
      FoundKeysMembers(front, query, k);
      if exists i :: 0 <= i < |front| && front[i].0 == k && ContainsAny(query, front[i].1) {
        var i :| 0 <= i < |front| && front[i].0 == k && ContainsAny(query, front[i].1);
        assert table[i] == front[i];
      }
      if exists i :: 0 <= i < |table| && table[i].0 == k && ContainsAny(query, table[i].1) {
        var i :| 0 <= i < |table| && table[i].0 == k && ContainsAny(query, table[i].1);
        if i < |front| {
          assert front[i] == table[i];
        }
      }
    }
  }

  /** `parse_work_type_query`: the matching work types in table order, None when there are none. */
  function ParseWorkTypeQuery(query: string): (r: Option<seq<string>>)
    ensures r.Some? ==> r.value != []
  {
    var found := FoundKeys(WorkTypePatterns, query);
    if found == [] then None else Some(found)
  }

  /**
   * A work type is reported exactly when one of its keywords occurs in the
   * query, and each at most once.
   */
  lemma WorkTypeQueryMembers(query: string, k: string)
    ensures var r := ParseWorkTypeQuery(query);
            (r.Some? && k in r.value) <==>
              exists i :: 0 <= i < |WorkTypePatterns| && WorkTypePatterns[i].0 == k
                          && ContainsAny(query, WorkTypePatterns[i].1)
    ensures var r := ParseWorkTypeQuery(query);
            r.Some? ==> NoDuplicates(r.value)
  {
    FoundKeysMembers(WorkTypePatterns, query, k);
    DistinctFoundKeys(WorkTypePatterns, query);
  }

  predicate NoDuplicates(xs: seq<string>)
  {
    forall i, j :: 0 <= i < j < |xs| ==> xs[i] != xs[j]
  }

  predicate DistinctKeys(table: seq<(string, seq<string>)>)
  {
    forall i, j :: 0 <= i < j < |table| ==> table[i].0 != table[j].0
  }

  /** A table whose keys are distinct reports each key at most once. */
  lemma {:induction false} DistinctFoundKeys(table: seq<(string, seq<string>)>, query: string)
    requires DistinctKeys(table)
    ensures NoDuplicates(FoundKeys(table, query))
    decreases |table|
  {
    if table != [] {
      var front := table[..|table| - 1];
      var last := table[|table| - 1];
      DistinctFoundKeys(front, query);
      var r := FoundKeys(front, query);
      forall x | x in r
        ensures x != last.0
      {
        FoundKeysMembers(front, query, x);
        var i :| 0 <= i < |front| && front[i].0 == x && ContainsAny(query, front[i].1);
        assert front[i] == table[i];
      }
      var all := FoundKeys(table, query);
      assert all == r + if ContainsAny(query, last.1) then [last.0] else [];
      forall i, j | 0 <= i < j < |all|
        ensures all[i] != all[j]
      {
        if j >= |r| {
          assert all[i] == r[i] && r[i] in r;
          assert all[j] == last.0;
        } else {
          assert all[i] == r[i] && all[j] == r[j];
        }
      }
    }
  }

  /** The work-type loop of `parse_work_type_query`. */
  method CollectWorkTypes(query: string) returns (r: Option<seq<string>>)
    ensures r == ParseWorkTypeQuery(query)
  {
    var found: seq<string> := [];
    for i := 0 to |WorkTypePatterns|
      invariant found == FoundKeys(WorkTypePatterns[..i], query)
    {
      assert WorkTypePatterns[..i + 1][..i] == WorkTypePatterns[..i];
      if ContainsAny(query, WorkTypePatterns[i].1) {
        found := found + [WorkTypePatterns[i].0];
      }
    }
    assert WorkTypePatterns[..|WorkTypePatterns|] == WorkTypePatterns;
    r := if found == [] then None else Some(found);
  }

  /** `priority_patterns`, in table order. */
  const PriorityPatterns: seq<(string, seq<string>)> := [
    ("high", ["緊急", "至急", "重要", "高優先度", "優先"]),
    ("medium", ["通常", "普通", "中優先度"]),
    ("low", ["低優先度", "後回し", "時間があるとき"])
  ]

  /** `parse_priority_query`: high before medium before low, else None. */
  function ParsePriorityQuery(query: string): (r: Option<string>)
    ensures r.Some? ==> r.value == "high" || r.value == "medium" || r.value == "low"
    ensures r == Some("high") <==> ContainsAny(query, PriorityPatterns[0].1)
    ensures r == Some("medium") <==>
              !ContainsAny(query, PriorityPatterns[0].1) && ContainsAny(query, PriorityPatterns[1].1)
    ensures r.None? <==> forall i :: 0 <= i < |PriorityPatterns| ==> !ContainsAny(query, PriorityPatterns[i].1)
  {
    match FirstIndex(PriorityPatterns, (e: (string, seq<string>)) => ContainsAny(query, e.1))
    case Some(i) => Some(PriorityPatterns[i].0)
    case None => None
  }

  /** The loop of `parse_priority_query`, returning at the first hit. */
  method FindPriority(query: string) returns (r: Option<string>)
    ensures r == ParsePriorityQuery(query)
  {
    for i := 0 to |PriorityPatterns|
      invariant forall j :: 0 <= j < i ==> !ContainsAny(query, PriorityPatterns[j].1)
    {
      if ContainsAny(query, PriorityPatterns[i].1) {
        assert FirstIndex(PriorityPatterns, (e: (string, seq<string>)) => ContainsAny(query, e.1)) == Some(i);
        return Some(PriorityPatterns[i].0);
      }
    }
    return None;
  }

  // ---------------------------------------------------------------------
  // parse_comprehensive_query
  // ---------------------------------------------------------------------

  /** `parsed_components`: a key for each part that parsed. */
  datatype Components = Components(
    date: Option<DateQuery>,
    field: Option<FieldQuery>,
    workTypes: Option<seq<string>>,
    priority: Option<string>)

  /** `parse_comprehensive_query` */
  function ParseComprehensiveQuery(query: string, now: Date, parsed: Option<Date>): (c: Components)
    requires ValidDate(now)
    requires parsed.Some? ==> ValidDate(parsed.value)
    ensures c.date == ParseDateQuery(query, now, parsed) && c.field == ParseFieldQuery(query)
    ensures c.workTypes == ParseWorkTypeQuery(query) && c.priority == ParsePriorityQuery(query)
  {
    Components(ParseDateQuery(query, now, parsed), ParseFieldQuery(query),
               ParseWorkTypeQuery(query), ParsePriorityQuery(query))
  }
}
