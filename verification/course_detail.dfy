/** A course's task list: completion from progress rows, marking one task
    complete, and the completed count and percentage. */
module CourseDetail {
  import opened Basics
  import opened Records

  /** A task row; `completed` is absent until the progress annotation sets it. */
  datatype CourseTask = CourseTask(
    id: string,
    taskNumber: int,
    title: string,
    content: string,
    documentation: Option<string>,
    completed: Option<bool>)

  /** A progress row as selected: the task and its (nullable) flag. */
  datatype ProgressRow = ProgressRow(taskId: string, completed: Option<bool>)

  /** The task list and the task opened beside it. */
  datatype TaskView = TaskView(tasks: seq<CourseTask>, selected: Option<CourseTask>)

  /** What the loads return: an error from the course or task query (thrown
      and caught), or the task rows and, when asked for, the progress rows. */
  datatype TaskQuery = QueryFailed | Loaded(tasksData: Option<seq<CourseTask>>, progressData: Option<seq<ProgressRow>>)

  /** The upsert sent when a task is marked complete. */
  datatype ProgressUpsert = ProgressUpsert(userId: string, taskId: string, completed: bool)

  /** A task counts as completed when its flag is truthy. */
  predicate IsDone(t: CourseTask) {
    t.completed == Some(true)
  }

  /** Some row for `id` has its flag set. */
  ghost predicate RowMarksDone(rows: seq<ProgressRow>, id: string) {
    exists j :: 0 <= j < |rows| && rows[j].taskId == id && rows[j].completed == Some(true)
  }

  /** `new Set(rows.filter(p => p.completed).map(p => p.task_id))`. */
  function CompletedIds(rows: seq<ProgressRow>): (r: set<string>)
    ensures forall id :: id in r <==> RowMarksDone(rows, id)
  {
    if rows == [] then {}
    else
      var rest := CompletedIds(rows[1..]);
      assert forall id :: RowMarksDone(rows, id) <==>
        (rows[0].taskId == id && rows[0].completed == Some(true)) || RowMarksDone(rows[1..], id) by {
        forall id ensures RowMarksDone(rows, id) ==>
          (rows[0].taskId == id && rows[0].completed == Some(true)) || RowMarksDone(rows[1..], id) {
          if RowMarksDone(rows, id) {
            var j :| 0 <= j < |rows| && rows[j].taskId == id && rows[j].completed == Some(true);
            if j > 0 {
              assert rows[1..][j - 1] == rows[j];
            }
          }
        }
        forall id ensures RowMarksDone(rows[1..], id) ==> RowMarksDone(rows, id) {
          if RowMarksDone(rows[1..], id) {
            var j :| 0 <= j < |rows[1..]| && rows[1..][j].taskId == id && rows[1..][j].completed == Some(true);
            assert rows[j + 1] == rows[1..][j];
          }
        }
      }
      if rows[0].completed == Some(true) then {rows[0].taskId} + rest else rest
  }

  /** Every task with its flag set from the completed ids; nothing else of
      a task changes. */
  function Annotate(tasks: seq<CourseTask>, done: set<string>): (r: seq<CourseTask>)
    ensures |r| == |tasks|
    ensures forall i :: 0 <= i < |r| ==> r[i].completed.Some? && (IsDone(r[i]) <==> tasks[i].id in done)
    ensures forall i :: 0 <= i < |r| ==> r[i].(completed := tasks[i].completed) == tasks[i]
  {
    seq(|tasks|, i requires 0 <= i < |tasks| => tasks[i].(completed := Some(tasks[i].id in done)))
  }

  /** The first task, or none for an empty list. */
  function First(tasks: seq<CourseTask>): (r: Option<CourseTask>)
    ensures r.None? <==> tasks == []
    ensures r.Some? ==> r.value == tasks[0]
  {
    if tasks == [] then None else Some(tasks[0])
  }

  /** The task part of `loadCourseData`. A failed query leaves the view as it
      was. Signed in, with rows returned, every task is annotated from the
      progress rows; otherwise the rows are shown as returned (none when the
      query returned none). Either way the first task is selected. */
  function LoadCourseData(v: TaskView, user: Option<User>, q: TaskQuery): (r: TaskView)
    ensures q.QueryFailed? ==> r == v
    ensures q.Loaded? ==> r.selected == First(r.tasks)
    ensures q.Loaded? && q.tasksData.None? ==> r.tasks == []
    ensures q.Loaded? && q.tasksData.Some? ==> |r.tasks| == |q.tasksData.value|
    ensures q.Loaded? && q.tasksData.Some? && user.None? ==> r.tasks == q.tasksData.value
    ensures q.Loaded? && q.tasksData.Some? && user.Some? ==>
              forall i :: 0 <= i < |r.tasks| ==>
                && r.tasks[i].(completed := q.tasksData.value[i].completed) == q.tasksData.value[i]
                && r.tasks[i].completed.Some?
                && (IsDone(r.tasks[i]) <==> RowMarksDone(q.progressData.GetOr([]), r.tasks[i].id))
  {
    match q
    case QueryFailed => v
    case Loaded(tasksData, progressData) =>
      if user.Some? && tasksData.Some? then
        var tasks := Annotate(tasksData.value, CompletedIds(progressData.GetOr([])));
        TaskView(tasks, First(tasks))
      else
        var tasks := tasksData.GetOr([]);
        TaskView(tasks, First(tasks))
  }

  /** The outcome of marking a task: the new view and the upsert sent. */
  datatype Marked = Marked(view: TaskView, request: Option<ProgressUpsert>)

  /** `markTaskComplete(taskId)`. Signed out, nothing is sent and nothing
      changes. Signed in, the upsert is sent; when it succeeds, exactly the
      tasks with that id become completed, and when it fails nothing
      changes. The opened task is left as it was. */
  function MarkTaskComplete(v: TaskView, user: Option<User>, taskId: string, upsertOk: bool): (r: Marked)
    ensures user.None? ==> r == Marked(v, None)
    ensures user.Some? ==> r.request == Some(ProgressUpsert(user.value.id, taskId, true))
    ensures !upsertOk ==> r.view == v
    ensures r.view.selected == v.selected
    ensures |r.view.tasks| == |v.tasks|
    ensures forall i :: 0 <= i < |v.tasks| ==> r.view.tasks[i].(completed := v.tasks[i].completed) == v.tasks[i]
    ensures forall i :: 0 <= i < |v.tasks| && v.tasks[i].id != taskId ==> r.view.tasks[i] == v.tasks[i]
    ensures user.Some? && upsertOk ==>
              forall i :: 0 <= i < |v.tasks| && v.tasks[i].id == taskId ==> IsDone(r.view.tasks[i])
  {
    match user
    case None => Marked(v, None)
    case Some(u) =>
      var request := Some(ProgressUpsert(u.id, taskId, true));
      if !upsertOk then Marked(v, request)
      else
        var tasks := seq(|v.tasks|, i requires 0 <= i < |v.tasks| =>
                         if v.tasks[i].id == taskId then v.tasks[i].(completed := Some(true)) else v.tasks[i]);
        Marked(v.(tasks := tasks), request)
  }

  /** The opened task is one of the listed tasks, as it is right after a
      load. */
  predicate OpenedListed(v: TaskView) {
    v.selected.Some? ==> v.selected.value in v.tasks
  }

  /** Every load leaves the opened task in the list. */
  lemma LoadKeepsOpenedListed(v: TaskView, user: Option<User>, q: TaskQuery)
    requires OpenedListed(v)
    ensures OpenedListed(LoadCourseData(v, user, q))
  {
  }

  /** As written, marking the opened task leaves the pane showing its old,
      uncompleted copy: with one uncompleted task, opened, a successful mark
      completes it in the list but not in the pane, so the opened task is no
      longer one of the listed tasks. */
  lemma StaleOpenedTask()
    ensures var t := CourseTask("t1", 1, "Task", "Body", None, Some(false));
            var v := TaskView([t], Some(t));
            var r := MarkTaskComplete(v, Some(User("1", "Demo User", "a@b.c", 45)), "t1", true).view;
            && OpenedListed(v)
            && r.tasks == [t.(completed := Some(true))]
            && r.selected == Some(t)
            && !OpenedListed(r)
  {
    var t := CourseTask("t1", 1, "Task", "Body", None, Some(false));
    var r := MarkTaskComplete(TaskView([t], Some(t)), Some(User("1", "Demo User", "a@b.c", 45)), "t1", true).view;
    assert r.tasks[0] == t.(completed := Some(true));
    assert t !in r.tasks;
  }

  /** `markTaskComplete` as evidently intended: the same list update and
      request, with the opened task refreshed when it is the one marked. */
  function MarkTaskCompleteCorrected(v: TaskView, user: Option<User>, taskId: string, upsertOk: bool): (r: Marked)
    ensures r.view.tasks == MarkTaskComplete(v, user, taskId, upsertOk).view.tasks
    ensures r.request == MarkTaskComplete(v, user, taskId, upsertOk).request
    ensures !(user.Some? && upsertOk) ==> r.view == v
    ensures user.Some? && upsertOk && v.selected.Some? && v.selected.value.id == taskId ==>
              r.view.selected == Some(v.selected.value.(completed := Some(true)))
    ensures v.selected.None? || v.selected.value.id != taskId ==> r.view.selected == v.selected
  {
    var m := MarkTaskComplete(v, user, taskId, upsertOk);
    if user.Some? && upsertOk && v.selected.Some? && v.selected.value.id == taskId then
      m.(view := m.view.(selected := Some(v.selected.value.(completed := Some(true)))))
    else m
  }

  /** The corrected update keeps the opened task in the list. */
  lemma CorrectedKeepsOpenedListed(v: TaskView, user: Option<User>, taskId: string, upsertOk: bool)
    requires OpenedListed(v)
    ensures OpenedListed(MarkTaskCompleteCorrected(v, user, taskId, upsertOk).view)
  {
    var r := MarkTaskCompleteCorrected(v, user, taskId, upsertOk).view;
    if v.selected.Some? && user.Some? && upsertOk {
      var i :| 0 <= i < |v.tasks| && v.tasks[i] == v.selected.value;
      assert r.selected.value == r.tasks[i];
    }
  }

  /** Marking the same task twice leaves the page as marking it once. */
  lemma MarkTwiceIsMarkOnce(v: TaskView, user: Option<User>, taskId: string)
    ensures MarkTaskComplete(MarkTaskComplete(v, user, taskId, true).view, user, taskId, true).view
         == MarkTaskComplete(v, user, taskId, true).view
  {
    var once := MarkTaskComplete(v, user, taskId, true).view;
    var twice := MarkTaskComplete(once, user, taskId, true).view;
    assert twice.tasks == once.tasks;
  }

  /** The same holds with the opened task refreshed. */
  lemma MarkTwiceIsMarkOnceCorrected(v: TaskView, user: Option<User>, taskId: string)
    ensures MarkTaskCompleteCorrected(MarkTaskCompleteCorrected(v, user, taskId, true).view, user, taskId, true).view
         == MarkTaskCompleteCorrected(v, user, taskId, true).view
  {
    var once := MarkTaskCompleteCorrected(v, user, taskId, true).view;
    var twice := MarkTaskCompleteCorrected(once, user, taskId, true).view;
    assert twice.tasks == once.tasks;
  }

  /** `tasks.filter(t => t.completed).length`. */
  function CompletedCount(tasks: seq<CourseTask>): (n: nat)
    ensures n <= |tasks|
    ensures n == 0 <==> forall i :: 0 <= i < |tasks| ==> !IsDone(tasks[i])
    ensures n == |tasks| <==> forall i :: 0 <= i < |tasks| ==> IsDone(tasks[i])
  {
    if tasks == [] then 0
    else
      var rest := CompletedCount(tasks[1..]);
      assert forall i :: 1 <= i < |tasks| ==> tasks[i] == tasks[1..][i - 1];
      (if IsDone(tasks[0]) then 1 else 0) + rest
  }

  /** Counting splits over concatenation: the count of a list is the sum of
      the counts of its parts. With the singleton cases fixed by the
      contract above, this pins the count of every list. */
  lemma {:induction false} CompletedCountAppend(a: seq<CourseTask>, b: seq<CourseTask>)
    ensures CompletedCount(a + b) == CompletedCount(a) + CompletedCount(b)
    decreases |a|
  {
    if a == [] {
      assert a + b == b;
    } else {
      assert (a + b)[1..] == a[1..] + b;
      CompletedCountAppend(a[1..], b);
    }
  }

  /** The progress bar value: completed over total as a percentage, 0 for an
      empty list. It is 0 exactly when nothing is completed and 100 exactly
      when the list is non-empty and everything is. */
  function ProgressPercentage(tasks: seq<CourseTask>): (p: real)
    ensures 0.0 <= p <= 100.0
    ensures p == 0.0 <==> CompletedCount(tasks) == 0
    ensures p == 100.0 <==> |tasks| > 0 && CompletedCount(tasks) == |tasks|
    ensures |tasks| > 0 ==> p * (|tasks| as real) == (CompletedCount(tasks) as real) * 100.0
  {
    if |tasks| > 0 then
      RatioBounds(CompletedCount(tasks) as real, |tasks| as real);
      (CompletedCount(tasks) as real / |tasks| as real) * 100.0
    else 0.0
  }

  /** A part over a positive whole lies in [0, 1], at 0 exactly for an
      empty part and at 1 exactly for the whole. */
  lemma RatioBounds(part: real, whole: real)
    requires 0.0 <= part <= whole && whole > 0.0
    ensures 0.0 <= part / whole <= 1.0
    ensures part / whole == 1.0 <==> part == whole
    ensures part / whole == 0.0 <==> part == 0.0
  {
    assert (part / whole) * whole == part;
  }

  /** Marking a task never lowers the completed count, and raises it when
      the upsert succeeds for a task that was not yet completed. */
  lemma {:induction false} MarkRaisesCount(tasks: seq<CourseTask>, marked: seq<CourseTask>, taskId: string)
    requires |marked| == |tasks|
    requires forall i :: 0 <= i < |tasks| ==>
               marked[i] == if tasks[i].id == taskId then tasks[i].(completed := Some(true)) else tasks[i]
    ensures CompletedCount(marked) >= CompletedCount(tasks)
    ensures (exists i :: 0 <= i < |tasks| && tasks[i].id == taskId && !IsDone(tasks[i]))
              ==> CompletedCount(marked) > CompletedCount(tasks)
  {
    if tasks != [] {
      assert forall i :: 0 <= i < |tasks| - 1 ==> marked[1..][i] == marked[i + 1] && tasks[1..][i] == tasks[i + 1];
      MarkRaisesCount(tasks[1..], marked[1..], taskId);
      if exists i :: 0 <= i < |tasks| && tasks[i].id == taskId && !IsDone(tasks[i]) {
        var i :| 0 <= i < |tasks| && tasks[i].id == taskId && !IsDone(tasks[i]);
        if i > 0 {
          assert tasks[1..][i - 1] == tasks[i];
        }
      }
    }
  }
}
