/**
 * The `TaskUpdateTool`: a completion or postponement report about the
 * scheduled tasks.  The `scheduled_tasks` and `work_records` collections
 * are the fields of a `TaskDatabase`; the tool picks the action from the
 * report's keywords, finds the pending tasks the parsed query points at,
 * and completes the best one (scheduling the next pest control a week
 * later) or postpones all of them.
 */
module TaskUpdate {
  import opened Common
  import QP = QueryParsing
  import Sorting

  /** Seconds in a day; a datetime is a number of seconds since 1970-01-01 00:00. */
  const Day: int := 86400
  const Pending: string := "pending"
  const PestControl: string := "防除"
  const High: string := "high"

  datatype Task = Task(id: int, fieldId: int, workType: string, priority: Option<string>,
                       status: string, scheduledAt: int, notes: string, autoGenerated: bool)

  /** The `next_work_scheduled` summary of a follow-up task. */
  datatype NextWork = NextWork(workType: string, scheduledAt: int)

  datatype WorkRecord = WorkRecord(fieldId: int, workType: string, workDate: int, notes: string,
                                   next: Option<NextWork>)

  // ---------------------------------------------------------------------
  // The action
  // ---------------------------------------------------------------------

  datatype Action = Complete | Postpone | Update

  const CompleteKeywords: seq<string> := ["完了", "終わり", "終了", "できました", "やりました", "済み"]
  const PostponeKeywords: seq<string> := ["延期", "後回し", "明日", "来週", "遅らせる"]

  /**
   * `_determine_action`: a completion keyword wins over a postponement
   * keyword; a report with neither is an update.
   */
  function DetermineAction(query: string): (a: Action)
    ensures a == Complete <==> ContainsAny(query, CompleteKeywords)
    ensures a == Postpone <==> !ContainsAny(query, CompleteKeywords) && ContainsAny(query, PostponeKeywords)
    ensures a == Update <==> !ContainsAny(query, CompleteKeywords) && !ContainsAny(query, PostponeKeywords)
  {
    if ContainsAny(query, CompleteKeywords) then Complete
    else if ContainsAny(query, PostponeKeywords) then Postpone
    else Update
  }

  // ---------------------------------------------------------------------
  // Task collections
  // ---------------------------------------------------------------------

  predicate DistinctIds(ts: seq<Task>)
  {
    forall i, j :: 0 <= i < j < |ts| ==> ts[i].id != ts[j].id
  }

  function IdsOf(ts: seq<Task>): (ids: seq<int>)
    ensures |ids| == |ts| && forall i :: 0 <= i < |ts| ==> ids[i] == ts[i].id
  {
    seq(|ts|, i requires 0 <= i < |ts| => ts[i].id)
  }

  /** The collection after deleting the scheduled task with the given id. */
  function Without(ts: seq<Task>, id: int): (r: seq<Task>)
    ensures |r| <= |ts|
  {
    if ts == [] then []
    else (if ts[0].id == id then [] else [ts[0]]) + Without(ts[1..], id)
  }

  /** Deleting keeps exactly the tasks with another id. */
  lemma {:induction false} WithoutMembers(ts: seq<Task>, id: int)
    ensures forall t :: t in Without(ts, id) <==> t in ts && t.id != id
  {
    if ts != [] {
      WithoutMembers(ts[1..], id);
      assert ts == [ts[0]] + ts[1..];
    }
  }

  lemma {:induction false} WithoutAbsent(ts: seq<Task>, id: int)
    requires forall i :: 0 <= i < |ts| ==> ts[i].id != id
    ensures Without(ts, id) == ts
  {
    if ts != [] {
      WithoutAbsent(ts[1..], id);
    }
  }

  lemma {:induction false} WithoutAt(ts: seq<Task>, id: int, k: nat)
    requires DistinctIds(ts) && k < |ts| && ts[k].id == id
    ensures Without(ts, id) == ts[..k] + ts[k + 1..]
  {
    var rest := ts[1..];
    if k == 0 {
      assert forall i :: 0 <= i < |rest| ==> rest[i] == ts[i + 1];
      WithoutAbsent(rest, id);
    } else {
      assert ts[0].id != id;
      assert DistinctIds(rest) by {
        assert forall i :: 0 <= i < |rest| ==> rest[i] == ts[i + 1];
      }
      WithoutAt(rest, id, k - 1);
      assert rest[..k - 1] == ts[1..k];
      assert rest[k..] == ts[k + 1..];
      calc {
        Without(ts, id);
        [ts[0]] + Without(rest, id);
        [ts[0]] + (ts[1..k] + ts[k + 1..]);
        ([ts[0]] + ts[1..k]) + ts[k + 1..];
        { assert ts[..k] == [ts[0]] + ts[1..k]; }
        ts[..k] + ts[k + 1..];
      }
    }
  }

  lemma {:induction false} WithoutDistinct(ts: seq<Task>, id: int)
    requires DistinctIds(ts)
    ensures DistinctIds(Without(ts, id))
  {
    if ts != [] {
      WithoutDistinct(ts[1..], id);
      WithoutMembers(ts[1..], id);
      var rest := Without(ts[1..], id);
      forall t | t in rest
        ensures t.id != ts[0].id
      {
        var j :| 0 <= j < |ts[1..]| && ts[1..][j] == t;
        assert ts[j + 1] == t;
      }
    }
  }

  /** Every task whose id is listed gets the new date and notes; the others are unchanged. */
  function Reschedule(ts: seq<Task>, ids: seq<int>, at: int, notes: string): (r: seq<Task>)
    ensures |r| == |ts|
  {
    seq(|ts|, i requires 0 <= i < |ts| =>
      if ts[i].id in ids then ts[i].(scheduledAt := at, notes := notes) else ts[i])
  }

  /** `_get_field_info(field_id).get("name", "不明")`: the field's name, 不明 for a field document without one, 不明な圃場 for a missing field. */
  function FieldLabel(fields: map<int, Option<string>>, fieldId: int): (s: string)
    ensures fieldId in fields && fields[fieldId].Some? ==> s == fields[fieldId].value
    ensures fieldId !in fields ==> s == "不明な圃場"
  {
    if fieldId !in fields then "不明な圃場"
    else match fields[fieldId]
      case Some(n) => n
      case None => "不明"
  }

  /**
   * The tool's database: the `scheduled_tasks` and `work_records`
   * collections, the id the next inserted task receives, and the `fields`
   * collection, which the tool only reads (a field's optional name by id).
   */
  class TaskDatabase {
    var tasks: seq<Task>
    var records: seq<WorkRecord>
    var nextId: int
    const fields: map<int, Option<string>>

    /** Task ids are unique and below the next id to hand out. */
    predicate Valid()
      reads this
    {
      DistinctIds(tasks) && forall i :: 0 <= i < |tasks| ==> tasks[i].id < nextId
    }

    constructor(tasks: seq<Task>, records: seq<WorkRecord>, nextId: int, fields: map<int, Option<string>>)
      requires DistinctIds(tasks) && forall i :: 0 <= i < |tasks| ==> tasks[i].id < nextId
      ensures Valid()
      ensures this.tasks == tasks && this.records == records && this.nextId == nextId && this.fields == fields
    {
      this.tasks := tasks;
      this.records := records;
      this.nextId := nextId;
      this.fields := fields;
    }

    /** `delete_one({"_id": id})`: the scheduled task with that id, if any, is removed. */
    method DeleteOne(id: int)
      requires Valid()
      modifies this
      ensures Valid()
      ensures tasks == Without(old(tasks), id)
      ensures records == old(records) && nextId == old(nextId)
    {
      var k := 0;
      while k < |tasks| && tasks[k].id != id
        invariant 0 <= k <= |tasks|
        invariant forall j :: 0 <= j < k ==> tasks[j].id != id
      {
        k := k + 1;
      }
      WithoutDistinct(tasks, id);
      if k < |tasks| {
        WithoutAt(tasks, id, k);
        tasks := tasks[..k] + tasks[k + 1..];
      } else {
        WithoutAbsent(tasks, id);
      }
      assert forall t :: t in tasks ==> t in old(tasks);
    }

    /** `update_one({"_id": id}, {"$set": ...})`: the scheduled task with that id, if any, gets the new date and notes. */
    method UpdateOne(id: int, at: int, notes: string)
      requires Valid()
      modifies this
      ensures Valid()
      ensures tasks == Reschedule(old(tasks), [id], at, notes)
      ensures records == old(records) && nextId == old(nextId)
    {
      var k := 0;
      while k < |tasks| && tasks[k].id != id
        invariant 0 <= k <= |tasks|
        invariant forall j :: 0 <= j < k ==> tasks[j].id != id
      {
        k := k + 1;
      }
      if k < |tasks| {
        tasks := tasks[k := tasks[k].(scheduledAt := at, notes := notes)];
      }
    }

    /** `insert_one` into `scheduled_tasks`: the new scheduled task is appended under a fresh id. */
    method InsertTask(t: Task) returns (id: int)
      requires Valid()
      modifies this
      ensures Valid()
      ensures id == old(nextId) && tasks == old(tasks) + [t.(id := id)]
      ensures records == old(records) && nextId == old(nextId) + 1
    {
      id := nextId;
      tasks := tasks + [t.(id := id)];
      nextId := nextId + 1;
    }

    /** `insert_one` into `work_records`. */
    method InsertRecord(r: WorkRecord)
      modifies this
      ensures records == old(records) + [r]
      ensures tasks == old(tasks) && nextId == old(nextId)
    {
      records := records + [r];
    }

    /**
     * Update every listed task, one `update_one` after another; the
     * listed tasks get the new date and notes and nothing else changes.
     */
    method RescheduleAll(ids: seq<int>, at: int, notes: string)
      requires Valid()
      modifies this
      ensures Valid()
      ensures tasks == Reschedule(old(tasks), ids, at, notes)
      ensures records == old(records) && nextId == old(nextId)
    {
      for k := 0 to |ids|
        invariant Valid()
        invariant tasks == Reschedule(old(tasks), ids[..k], at, notes)
        invariant records == old(records) && nextId == old(nextId)
      {
        UpdateOne(ids[k], at, notes);
        assert ids[..k + 1] == ids[..k] + [ids[k]];
      }
      assert ids[..|ids|] == ids;
    }
  }

  // ---------------------------------------------------------------------
  // Finding the tasks
  // ---------------------------------------------------------------------

  /** A `scheduled_date` condition: from `lo`, up to `hi` included or excluded. */
  datatype Window = Window(lo: int, hi: int, hiIncluded: bool)

  predicate InWindow(at: int, w: Window)
  {
    w.lo <= at && (if w.hiIncluded then at <= w.hi else at < w.hi)
  }

  /** `filter_conditions`: always status pending and a date window; a field and a work-type condition when present. */
  datatype TaskFilter = TaskFilter(window: Window, fieldIds: Option<seq<int>>, workTypes: Option<seq<string>>)

  predicate Matches(t: Task, f: TaskFilter)
  {
    t.status == Pending && InWindow(t.scheduledAt, f.window)
    && (f.fieldIds.Some? ==> t.fieldId in f.fieldIds.value)
    && (f.workTypes.Some? ==> t.workType in f.workTypes.value)
  }

  /** The window when the query names no date: today's midnight to a week later, both included. */
  function DefaultWindow(today: int): (w: Window)
    ensures forall at :: InWindow(at, w) <==> today * Day <= at <= (today + 7) * Day
  {
    Window(today * Day, (today + 7) * Day, true)
  }

  /**
   * The filter built from the parsed query: the parsed date range (whole
   * days, the end excluded) or the default window; the field condition
   * only when the query named a field and the `fields` lookup `fieldIds`
   * found one; the work-type condition when the query named work types.
   */
  function FilterOf(c: QP.Components, default: Window, fieldIds: seq<int>): (f: TaskFilter)
    ensures c.date.None? ==> f.window == default
    ensures c.date.Some? ==> forall at :: InWindow(at, f.window) <==>
              c.date.value.range.start * Day <= at < c.date.value.range.stop * Day
    ensures f.fieldIds.Some? <==> c.field.Some? && c.field.value.FieldFilter? && fieldIds != []
    ensures f.fieldIds.Some? ==> f.fieldIds.value == fieldIds
    ensures f.workTypes == c.workTypes
  {
    var window := match c.date
      case Some(d) => Window(d.range.start * Day, d.range.stop * Day, false)
      case None => default;
    var fieldCondition := if c.field.Some? && c.field.value.FieldFilter? && fieldIds != [] then Some(fieldIds) else None;
    TaskFilter(window, fieldCondition, c.workTypes)
  }

  /** The tasks of a collection that match a filter, in collection order. */
  function Filtered(ts: seq<Task>, f: TaskFilter): (r: seq<Task>)
    ensures |r| <= |ts|
    ensures forall t :: t in r <==> t in ts && Matches(t, f)
  {
    if ts == [] then []
    else (if Matches(ts[0], f) then [ts[0]] else []) + Filtered(ts[1..], f)
  }

  const FindLimit: nat := 100

  /**
   * `find(filter_conditions).to_list(100)`: at most 100 matching tasks of
   * the collection, and all of them when there are no more than 100.
   */
  function MatchingTasks(ts: seq<Task>, f: TaskFilter): (r: seq<Task>)
    ensures |r| <= FindLimit
    ensures forall t :: t in r ==> t in ts && Matches(t, f)
    ensures |Filtered(ts, f)| <= FindLimit ==> forall t :: t in ts && Matches(t, f) ==> t in r
  {
    var all := Filtered(ts, f);
    var r := Take(all, FindLimit);
    assert forall t :: t in r ==> t in all;
    r
  }

  // ---------------------------------------------------------------------
  // Choosing the scheduled task to complete
  // ---------------------------------------------------------------------

  predicate IsHigh(t: Task)
  {
    t.priority == Some(High)
  }

  /** `min(tasks, key=key)`: the first task with the smallest key. */
  function MinIndex(ts: seq<Task>, key: Task -> int): (k: nat)
    requires |ts| > 0
    ensures k < |ts|
    ensures forall j :: 0 <= j < |ts| ==> key(ts[k]) <= key(ts[j])
    ensures forall j :: 0 <= j < k ==> key(ts[k]) < key(ts[j])
  {
    var k := Sorting.FirstMaxIndex(ts, t => -(key(t) as real));
    assert forall j :: 0 <= j < |ts| ==> -(key(ts[j]) as real) <= -(key(ts[k]) as real);
    k
  }

  function ScheduledAt(t: Task): int
  {
    t.scheduledAt
  }

  /**
   * `_select_best_match`: the only task; otherwise the first high-priority
   * task; otherwise the first task with the earliest scheduled date.
   */
  function BestMatch(ts: seq<Task>): (k: nat)
    requires |ts| > 0
    ensures k < |ts|
    ensures |ts| == 1 ==> k == 0
    ensures |ts| > 1 && (exists j :: 0 <= j < |ts| && IsHigh(ts[j])) ==>
              IsHigh(ts[k]) && forall j :: 0 <= j < k ==> !IsHigh(ts[j])
    ensures |ts| > 1 && (forall j :: 0 <= j < |ts| ==> !IsHigh(ts[j])) ==>
              (forall j :: 0 <= j < |ts| ==> ts[k].scheduledAt <= ts[j].scheduledAt)
              && forall j :: 0 <= j < k ==> ts[k].scheduledAt < ts[j].scheduledAt
  {
    if |ts| == 1 then 0
    else match FirstIndex(ts, IsHigh)
      case Some(k) => k
      case None => MinIndex(ts, ScheduledAt)
  }

  // ---------------------------------------------------------------------
  // Postponing
  // ---------------------------------------------------------------------

  /** `_determine_postpone_date`, as a day number: 明日 first, then 来週, then 3日後, else tomorrow. */
  function PostponeDay(query: string, today: int): (d: int)
    ensures today < d <= today + 7
    ensures Contains(query, "明日") ==> d == today + 1
    ensures !Contains(query, "明日") && Contains(query, "来週") ==> d == today + 7
    ensures d == today + 3 <==> !Contains(query, "明日") && !Contains(query, "来週") && Contains(query, "3日後")
    ensures !Contains(query, "明日") && !Contains(query, "来週") && !Contains(query, "3日後") ==> d == today + 1
  {
    if Contains(query, "明日") then today + 1
    else if Contains(query, "来週") then today + 7
    else if Contains(query, "3日後") then today + 3
    else today + 1
  }

  /**
   * "3日後" is not a postponement keyword: a report that reaches the
   * three-day branch names 延期, 後回し or 遅らせる as well.
   */
  lemma ThreeDaysNeedsPostponeWord(query: string, today: int)
    requires DetermineAction(query) == Postpone && PostponeDay(query, today) == today + 3
    ensures ContainsAny(query, ["延期", "後回し", "遅らせる"])
  {
    var i :| 0 <= i < |PostponeKeywords| && Contains(query, PostponeKeywords[i]);
    assert i != 2 && i != 3;
    assert PostponeKeywords[i] in ["延期", "後回し", "遅らせる"];
    var k := if i == 0 then 0 else if i == 1 then 1 else 2;
    assert ["延期", "後回し", "遅らせる"][k] == PostponeKeywords[i];
  }

  function PostponeNote(query: string): string
  {
    "延期: " + query
  }

  // ---------------------------------------------------------------------
  // Completing
  // ---------------------------------------------------------------------

  const NextNote: string := "前回防除作業の自動スケジュール"

  /** The follow-up task `_schedule_next_work` inserts: the next pest control on the same field a week later. */
  function NextTask(t: Task, now: int): (n: Task)
    ensures n.fieldId == t.fieldId && n.workType == PestControl && n.scheduledAt == now + 7 * Day
    ensures n.status == Pending && n.priority == Some("medium") && n.autoGenerated
  {
    Task(0, t.fieldId, PestControl, Some("medium"), Pending, now + 7 * Day, NextNote, true)
  }

  /** What `_schedule_next_work` returns: a follow-up only after pest control. */
  function NextWorkOf(t: Task, now: int): (r: Option<NextWork>)
    ensures r.Some? <==> t.workType == PestControl
    ensures r.Some? ==> r.value == NextWork(NextTask(t, now).workType, NextTask(t, now).scheduledAt)
  {
    if t.workType == PestControl then Some(NextWork(PestControl, now + 7 * Day)) else None
  }

  function CompletionNote(query: string): string
  {
    "LINE経由で完了報告: " + query
  }

  datatype PostponedTask = PostponedTask(field: string, workType: string, day: int)

  datatype Response =
    | Completed(field: string, workType: string, completedAt: int, next: Option<NextWork>)
    | Postponed(tasks: seq<PostponedTask>, day: int)
    | Message(text: string)
    | Error(text: string)

  const NotFound: string := "該当するタスクが見つかりませんでした"
  const NotImplemented: string := "タスクの更新機能は今後実装予定です"

  /** `_schedule_next_work`: after pest control, insert the follow-up task. */
  method ScheduleNextWork(db: TaskDatabase, t: Task, now: int) returns (next: Option<NextWork>)
    requires db.Valid()
    modifies db
    ensures db.Valid() && next == NextWorkOf(t, now)
    ensures db.tasks == old(db.tasks) + (if next.Some? then [NextTask(t, now).(id := old(db.nextId))] else [])
    ensures db.records == old(db.records)
    ensures db.nextId == old(db.nextId) + (if next.Some? then 1 else 0)
  {
    if t.workType == PestControl {
      var _ := db.InsertTask(NextTask(t, now));
      next := Some(NextWork(PestControl, now + 7 * Day));
    } else {
      next := None;
    }
  }

  /**
   * `_complete_task`: with no task found, a message and no change;
   * otherwise the best match leaves `scheduled_tasks`, a pest control
   * gets its follow-up, and a work record of the completion is added.
   */
  method CompleteTask(db: TaskDatabase, query: string, found: seq<Task>, now: int) returns (res: Response)
    requires db.Valid()
    modifies db
    ensures db.Valid()
    ensures found == [] ==> res == Message(NotFound) && unchanged(db)
    ensures found != [] ==>
              var t := found[BestMatch(found)];
              db.tasks == Without(old(db.tasks), t.id)
                          + (if t.workType == PestControl then [NextTask(t, now).(id := old(db.nextId))] else [])
              && db.records == old(db.records) + [WorkRecord(t.fieldId, t.workType, now, CompletionNote(query), NextWorkOf(t, now))]
              && res == Completed(FieldLabel(db.fields, t.fieldId), t.workType, now, NextWorkOf(t, now))
  {
    if found == [] {
      return Message(NotFound);
    }
    var t := found[BestMatch(found)];
    db.DeleteOne(t.id);
    var next := ScheduleNextWork(db, t, now);
    db.InsertRecord(WorkRecord(t.fieldId, t.workType, now, CompletionNote(query), next));
    res := Completed(FieldLabel(db.fields, t.fieldId), t.workType, now, next);
  }

  function PostponedEntries(fields: map<int, Option<string>>, found: seq<Task>, day: int): (r: seq<PostponedTask>)
    ensures |r| == |found|
    ensures forall i :: 0 <= i < |found| ==>
              r[i] == PostponedTask(FieldLabel(fields, found[i].fieldId), found[i].workType, day)
  {
    seq(|found|, i requires 0 <= i < |found| => PostponedTask(FieldLabel(fields, found[i].fieldId), found[i].workType, day))
  }

  /**
   * `_postpone_task`: with no task found, a message and no change;
   * otherwise every found task moves to midnight of the postponement day,
   * with a note quoting the report, and each is listed in the answer.
   */
  method PostponeTasks(db: TaskDatabase, query: string, found: seq<Task>, today: int) returns (res: Response)
    requires db.Valid()
    modifies db
    ensures db.Valid()
    ensures found == [] ==> res == Message(NotFound) && unchanged(db)
    ensures found != [] ==>
              var day := PostponeDay(query, today);
              db.tasks == Reschedule(old(db.tasks), IdsOf(found), day * Day, PostponeNote(query))
              && db.records == old(db.records) && db.nextId == old(db.nextId)
              && res == Postponed(PostponedEntries(db.fields, found, day), day)
  {
    if found == [] {
      return Message(NotFound);
    }
    var day := PostponeDay(query, today);
    db.RescheduleAll(IdsOf(found), day * Day, PostponeNote(query));
    res := Postponed(PostponedEntries(db.fields, found, day), day);
  }

  /** The tasks the parsed query selects from the collection. */
  function Found(ts: seq<Task>, query: string, today: QP.Date, parsed: Option<QP.Date>, fieldIds: seq<int>): seq<Task>
    requires QP.ValidDate(today) && (parsed.Some? ==> QP.ValidDate(parsed.value))
  {
    var c := QP.ParseComprehensiveQuery(query, today, parsed);
    MatchingTasks(ts, FilterOf(c, DefaultWindow(QP.DayNumber(today)), fieldIds))
  }

  /**
   * `_execute`: parse the report, pick the action and run it against the
   * pending tasks it selects.  `today` and `now` are the same clock
   * reading, `parsed` is what `dateparser` makes of the report and
   * `fieldIds` what the `fields` collection returns for a named field.
   * A completion removes exactly the chosen task, adds the follow-up of a
   * pest control and records the work; a postponement moves every
   * selected task to the postponement day with a note quoting the report,
   * leaves the others as they were and lists the moved tasks in the answer;
   * with nothing selected, and for an update, nothing changes.
   */
  method Execute(db: TaskDatabase, query: string, today: QP.Date, now: int, parsed: Option<QP.Date>, fieldIds: seq<int>)
    returns (res: Response)
    requires db.Valid() && QP.ValidDate(today) && (parsed.Some? ==> QP.ValidDate(parsed.value))
    requires now / Day == QP.DayNumber(today)
    modifies db
    ensures db.Valid()
    ensures var found := Found(old(db.tasks), query, today, parsed, fieldIds);
            match DetermineAction(query)
            case Update => res == Message(NotImplemented) && unchanged(db)
            case Complete =>
              (found == [] <==> res == Message(NotFound))
              && (found == [] ==> unchanged(db))
              && (found != [] ==> var t := found[BestMatch(found)];
                    t in old(db.tasks) && t.status == Pending && t !in db.tasks
                    && db.tasks == Without(old(db.tasks), t.id)
                                   + (if t.workType == PestControl then [NextTask(t, now).(id := old(db.nextId))] else [])
                    && db.records == old(db.records)
                                     + [WorkRecord(t.fieldId, t.workType, now, CompletionNote(query), NextWorkOf(t, now))]
                    && res == Completed(FieldLabel(db.fields, t.fieldId), t.workType, now, NextWorkOf(t, now)))
            case Postpone =>
              (found == [] <==> res == Message(NotFound))
              && (found == [] ==> unchanged(db))
              && (found != [] ==> var day := PostponeDay(query, QP.DayNumber(today));
                    db.tasks == Reschedule(old(db.tasks), IdsOf(found), day * Day, PostponeNote(query))
                    && db.nextId == old(db.nextId)
                    && res == Postponed(PostponedEntries(db.fields, found, day), day))
              && db.records == old(db.records) && |db.tasks| == |old(db.tasks)|
              && forall i :: 0 <= i < |db.tasks| ==>
                   if old(db.tasks)[i] in found
                   then db.tasks[i].scheduledAt == PostponeDay(query, QP.DayNumber(today)) * Day
                   else db.tasks[i] == old(db.tasks)[i]
  {
    var ts := db.tasks;
    var found := Found(ts, query, today, parsed, fieldIds);
    var action := DetermineAction(query);
    match action
    case Complete =>
      res := CompleteTask(db, query, found, now);
      if found != [] {
        WithoutMembers(ts, found[BestMatch(found)].id);
      }
    case Postpone =>
      res := PostponeTasks(db, query, found, QP.DayNumber(today));
      FoundIds(ts, found);
    case Update =>
      res := Message(NotImplemented);
  }

  /** With unique ids, a stored task is among the found ones exactly when its id is. */
  lemma FoundIds(ts: seq<Task>, found: seq<Task>)
    requires DistinctIds(ts) && forall t :: t in found ==> t in ts
    ensures forall i :: 0 <= i < |ts| ==> (ts[i] in found <==> ts[i].id in IdsOf(found))
  {
    forall i | 0 <= i < |ts| && ts[i].id in IdsOf(found)
      ensures ts[i] in found
    {
      var j :| 0 <= j < |found| && IdsOf(found)[j] == ts[i].id;
      assert found[j] in ts;
      var k :| 0 <= k < |ts| && ts[k] == found[j];
      assert k == i;
    }
  }
}
