/**
 * The earlier version of the `TaskUpdateTool`.  It shares the action rule,
 * the database and the filter with the current one, and differs in the
 * default window (a week back to tomorrow), the order of the tasks found
 * (by scheduled date), the choice of the scheduled task to complete (today's tasks
 * first, then priority, then the one closest to now), the postponement
 * date (the parsed date first) and the follow-up task.
 */
module TaskUpdateOld {
  import opened Common
  import QP = QueryParsing
  import Sorting
  import opened TaskUpdate

  /** `_update_task` hands the report to `_complete_task`: the handler each action runs. */
  function Handler(a: Action): (h: Action)
    ensures h != Update
    ensures a != Update ==> h == a
  {
    if a == Update then Complete else a
  }

  /** The window when the query names no date: a week before today's midnight to tomorrow's, both included. */
  function OldDefaultWindow(today: int): (w: Window)
    ensures forall at :: InWindow(at, w) <==> (today - 7) * Day <= at <= (today + 1) * Day
  {
    Window((today - 7) * Day, (today + 1) * Day, true)
  }

  function Earliness(t: Task): real
  {
    -(t.scheduledAt as real)
  }

  /**
   * `find(filter).sort("scheduled_date", 1).to_list(100)`: at most 100
   * matching tasks in ascending date order, all of them when there are no
   * more than 100.
   */
  function SortedMatches(ts: seq<Task>, f: TaskFilter): (r: seq<Task>)
    ensures |r| <= FindLimit
    ensures forall i, j :: 0 <= i < j < |r| ==> r[i].scheduledAt <= r[j].scheduledAt
    ensures forall t :: t in r ==> t in ts && Matches(t, f)
    ensures |Filtered(ts, f)| <= FindLimit ==> forall t :: t in ts && Matches(t, f) ==> t in r
  {
    var all := Filtered(ts, f);
    var sorted := EarliestFirst(all);
    var r := Take(sorted, FindLimit);
    assert forall t :: t in r ==> t in sorted;
    r
  }

  /** The tasks in ascending date order (`sort("scheduled_date", 1)`). */
  function EarliestFirst(ts: seq<Task>): (r: seq<Task>)
    ensures |r| == |ts| && multiset(r) == multiset(ts)
    ensures forall t :: t in r <==> t in ts
    ensures forall i, j :: 0 <= i < j < |r| ==> r[i].scheduledAt <= r[j].scheduledAt
  {
    Sorting.SortDescPerm(ts, Earliness);
    Sorting.SortDescSorted(ts, Earliness);
    var r := Sorting.SortDesc(ts, Earliness);
    assert forall t :: t in r <==> t in multiset(r);
    r
  }

  /** The tasks the parsed query selects, in the old tool's order. */
  function OldFound(ts: seq<Task>, query: string, today: QP.Date, parsed: Option<QP.Date>, fieldIds: seq<int>): seq<Task>
    requires QP.ValidDate(today) && (parsed.Some? ==> QP.ValidDate(parsed.value))
  {
    var c := QP.ParseComprehensiveQuery(query, today, parsed);
    SortedMatches(ts, FilterOf(c, OldDefaultWindow(QP.DayNumber(today)), fieldIds))
  }

  // ---------------------------------------------------------------------
  // Choosing the scheduled task to complete
  // ---------------------------------------------------------------------

  /** A scheduled task's `scheduled_date.date()` is the given day. */
  predicate OnDay(t: Task, day: int)
  {
    t.scheduledAt / Day == day
  }

  function TodayTasks(ts: seq<Task>, day: int): (r: seq<Task>)
    ensures |r| <= |ts|
    ensures forall t :: t in r <==> t in ts && OnDay(t, day)
  {
    if ts == [] then []
    else (if OnDay(ts[0], day) then [ts[0]] else []) + TodayTasks(ts[1..], day)
  }

  /** The distance in seconds between a task's date and now. */
  function Distance(now: int): Task -> int
  {
    (t: Task) => if t.scheduledAt >= now then t.scheduledAt - now else now - t.scheduledAt
  }

  /**
   * t is what `min(pool, key=distance)` picks: a task of the pool at the
   * least distance from now, and the first such in the pool's order.
   */
  predicate FirstClosest(pool: seq<Task>, now: int, t: Task)
  {
    exists k :: 0 <= k < |pool| && pool[k] == t
                && (forall j :: 0 <= j < |pool| ==> Distance(now)(t) <= Distance(now)(pool[j]))
                && (forall j :: 0 <= j < k ==> Distance(now)(t) < Distance(now)(pool[j]))
  }

  /** The high-priority choice, else the closest to now, within a pool. */
  function FromPool(pool: seq<Task>, now: int): (t: Task)
    requires |pool| > 0
    ensures t in pool
    ensures (exists j :: 0 <= j < |pool| && IsHigh(pool[j])) ==> t == pool[FirstIndex(pool, IsHigh).value]
    ensures (forall j :: 0 <= j < |pool| ==> !IsHigh(pool[j])) ==>
              forall u :: u in pool ==> Distance(now)(t) <= Distance(now)(u)
    ensures (forall j :: 0 <= j < |pool| ==> !IsHigh(pool[j])) ==> FirstClosest(pool, now, t)
  {
    match FirstIndex(pool, IsHigh)
    case Some(k) => pool[k]
    case None =>
      var k := MinIndex(pool, Distance(now));
      assert forall u :: u in pool ==> exists j :: 0 <= j < |pool| && pool[j] == u;
      pool[k]
  }

  /**
   * `_select_best_match`: nothing from nothing; the only task; today's
   * only task; otherwise, among today's tasks when there are several
   * (all tasks when there are none), the first high-priority task, else
   * the one closest to now.  The choice is always one of the tasks.
   */
  function OldBestMatch(ts: seq<Task>, now: int): (r: Option<Task>)
    ensures r.None? <==> ts == []
    ensures r.Some? ==> r.value in ts
    ensures |ts| == 1 ==> r == Some(ts[0])
    ensures |ts| > 1 && TodayTasks(ts, now / Day) != [] ==> OnDay(r.value, now / Day)
    ensures |ts| > 1 && |TodayTasks(ts, now / Day)| == 1 ==> r == Some(TodayTasks(ts, now / Day)[0])
    ensures |ts| > 1 && TodayTasks(ts, now / Day) == [] && (exists j :: 0 <= j < |ts| && IsHigh(ts[j])) ==>
              r == Some(ts[FirstIndex(ts, IsHigh).value])
    ensures |ts| > 1 && TodayTasks(ts, now / Day) == [] && (forall j :: 0 <= j < |ts| ==> !IsHigh(ts[j])) ==>
              forall u :: u in ts ==> Distance(now)(r.value) <= Distance(now)(u)
    ensures |ts| > 1 && TodayTasks(ts, now / Day) == [] && (forall j :: 0 <= j < |ts| ==> !IsHigh(ts[j])) ==>
              FirstClosest(ts, now, r.value)
    ensures var pool := TodayTasks(ts, now / Day);
            |ts| > 1 && |pool| > 1 && (exists j :: 0 <= j < |pool| && IsHigh(pool[j])) ==>
              r == Some(pool[FirstIndex(pool, IsHigh).value])
    ensures var pool := TodayTasks(ts, now / Day);
            |ts| > 1 && |pool| > 1 && (forall j :: 0 <= j < |pool| ==> !IsHigh(pool[j])) ==>
              FirstClosest(pool, now, r.value)
  {
    if ts == [] then None
    else if |ts| == 1 then Some(ts[0])
    else
      var today := TodayTasks(ts, now / Day);
      if |today| == 1 then Some(today[0])
      else if |today| > 1 then Some(FromPool(today, now))
      else Some(FromPool(ts, now))
  }

  // ---------------------------------------------------------------------
  // Postponing
  // ---------------------------------------------------------------------

  const Hour: int := 3600

  /**
   * `_determine_postpone_date`, in seconds: the start of the date range
   * the query parser finds, if any; otherwise 09:00 tomorrow for 明日, the
   * day after for 明後日 and a week later for 来週; otherwise nothing.
   */
  function OldPostponeAt(query: string, today: QP.Date, now: int, parsed: Option<QP.Date>): (r: Option<int>)
    requires QP.ValidDate(today) && (parsed.Some? ==> QP.ValidDate(parsed.value))
    ensures QP.ParseDateQuery(query, today, parsed).Some? ==>
              r == Some(QP.ParseDateQuery(query, today, parsed).value.range.start * Day)
    ensures QP.ParseDateQuery(query, today, parsed).None? && Contains(query, "明後日") ==>
              r == Some((now / Day) * Day + 9 * Hour + 2 * Day)
    ensures r.None? <==> QP.ParseDateQuery(query, today, parsed).None? && !Contains(query, "明後日")
  {
    match QP.ParseDateQuery(query, today, parsed)
    case Some(dq) => Some(dq.range.start * Day)
    case None =>
      var nine := (now / Day) * Day + 9 * Hour;
      if Contains(query, "明日") then Some(nine + Day)
      else if Contains(query, "明後日") then Some(nine + 2 * Day)
      else if Contains(query, "来週") then Some(nine + 7 * Day)
      else None
  }

  /**
   * 明日 and 来週 are date keywords of the query parser, so a report that
   * names either is postponed to the midnight that starts the parser's
   * range (a whole number of days); the 09:00 branches for them are never
   * taken.
   */
  lemma OldPostponeShadowed(query: string, today: QP.Date, now: int, parsed: Option<QP.Date>)
    requires QP.ValidDate(today) && (parsed.Some? ==> QP.ValidDate(parsed.value))
    requires Contains(query, "明日") || Contains(query, "来週")
    ensures QP.ParseDateQuery(query, today, parsed).Some?
    ensures OldPostponeAt(query, today, now, parsed) == Some(QP.ParseDateQuery(query, today, parsed).value.range.start * Day)
  {
    if Contains(query, "明日") {
      assert Contains(query, QP.DateKeywords[1]);
    } else {
      assert Contains(query, QP.DateKeywords[4]);
    }
  }

  /** The note: the day it was written and the report. */
  function OldPostponeNote(stamp: string, query: string): string
  {
    "(" + stamp + ")延期: " + query
  }

  const NoTarget: string := "延期対象のタスクが見つかりませんでした。"
  const NoDate: string := "延期日を特定できませんでした。"

  /**
   * `_postpone_task`: with no task found, a message; with no date, an
   * error; neither changes anything.  Otherwise every found task moves to
   * the postponement date, with a note stamped with today's date
   * (`stamp`), and each is listed in the answer.
   */
  method OldPostponeTasks(db: TaskDatabase, query: string, found: seq<Task>, today: QP.Date, now: int,
                          parsed: Option<QP.Date>, stamp: string) returns (res: Response)
    requires db.Valid() && QP.ValidDate(today) && (parsed.Some? ==> QP.ValidDate(parsed.value))
    modifies db
    ensures db.Valid()
    ensures found == [] ==> res == Message(NoTarget) && unchanged(db)
    ensures found != [] && OldPostponeAt(query, today, now, parsed).None? ==> res == Error(NoDate) && unchanged(db)
    ensures found != [] && OldPostponeAt(query, today, now, parsed).Some? ==>
              var at := OldPostponeAt(query, today, now, parsed).value;
              db.tasks == Reschedule(old(db.tasks), IdsOf(found), at, OldPostponeNote(stamp, query))
              && db.records == old(db.records) && db.nextId == old(db.nextId)
              && res == Postponed(PostponedEntries(db.fields, found, at / Day), at / Day)
  {
    if found == [] {
      return Message(NoTarget);
    }
    var date := OldPostponeAt(query, today, now, parsed);
    if date.None? {
      return Error(NoDate);
    }
    var at := date.value;
    db.RescheduleAll(IdsOf(found), at, OldPostponeNote(stamp, query));
    res := Postponed(PostponedEntries(db.fields, found, at / Day), at / Day);
  }

  // ---------------------------------------------------------------------
  // The follow-up task
  // ---------------------------------------------------------------------

  const OldNextNote: string := "前回の防除から7日後に自動スケジュール"

  /** The follow-up the old tool inserts after pest control: a week later, medium priority, not marked as generated. */
  function OldNextTask(t: Task, now: int): (n: Task)
    ensures n.fieldId == t.fieldId && n.workType == PestControl && n.scheduledAt == now + 7 * Day
    ensures n.status == Pending && n.priority == Some("medium") && !n.autoGenerated
  {
    Task(0, t.fieldId, PestControl, Some("medium"), Pending, now + 7 * Day, OldNextNote, false)
  }

  /** `_schedule_next_work`: after pest control, insert the follow-up and return it with its new id. */
  method OldScheduleNextWork(db: TaskDatabase, t: Task, now: int) returns (next: Option<Task>)
    requires db.Valid()
    modifies db
    ensures db.Valid()
    ensures next.Some? <==> t.workType == PestControl
    ensures next.Some? ==> next.value == OldNextTask(t, now).(id := old(db.nextId))
    ensures db.tasks == old(db.tasks) + (if next.Some? then [next.value] else [])
    ensures db.records == old(db.records)
  {
    if t.workType == PestControl {
      var id := db.InsertTask(OldNextTask(t, now));
      next := Some(OldNextTask(t, now).(id := id));
    } else {
      next := None;
    }
  }
}
