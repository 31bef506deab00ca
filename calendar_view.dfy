/** The calendar: the seven days of the current week starting on Sunday, and
    for each day the tasks whose start falls on that date, sorted by their
    start stamps. Recurring tasks show only on their stored date. */
module CalendarView {
  import opened PlannerTypes

  /** The week containing `today`, Sunday first. */
  function WeekDays(today: Day): (days: seq<Day>)
    ensures |days| == |DaysOfWeek|
    ensures forall i :: 0 <= i < |days| ==> Weekday(days[i]) == i
    ensures forall i :: 0 <= i < |days| - 1 ==> days[i + 1] == days[i] + 1
    ensures days[Weekday(today)] == today
  {
    var sunday := today - Weekday(today);
    var days := seq(7, i requires 0 <= i < 7 => sunday + i);
    assert forall i :: 0 <= i < 7 ==> Weekday(days[i]) == i by {
      forall i | 0 <= i < 7 ensures Weekday(days[i]) == i {
        WeekdayFromSunday(today, i);
      }
    }
    days
  }

  /** The tasks whose start date is `day`, in list order. */
  function TasksOn(tasks: seq<Task>, day: Day): (r: seq<Task>)
    ensures forall t :: multiset(r)[t] == if t.startTime.day == day then multiset(tasks)[t] else 0
  {
    if tasks == [] then []
    else
      assert tasks == [tasks[0]] + tasks[1..];
      (if tasks[0].startTime.day == day then [tasks[0]] else []) + TasksOn(tasks[1..], day)
  }

  /** Ascending by start stamp, as comparing their ISO texts orders them. */
  predicate SortedByStart(s: seq<Task>) {
    forall i, j :: 0 <= i < j < |s| ==> StampLe(s[i].startTime, s[j].startTime)
  }

  /** Puts `t` in front of the first task that does not start before it. */
  function InsertByStart(t: Task, s: seq<Task>): (r: seq<Task>)
    requires SortedByStart(s)
    ensures SortedByStart(r)
    ensures multiset(r) == multiset(s) + multiset{t}
  {
    if s == [] then [t]
    else if StampLe(t.startTime, s[0].startTime) then [t] + s
    else
      var rest := InsertByStart(t, s[1..]);
      assert s == [s[0]] + s[1..];
      assert forall k :: 0 <= k < |rest| ==> StampLe(s[0].startTime, rest[k].startTime) by {
        forall k | 0 <= k < |rest| ensures StampLe(s[0].startTime, rest[k].startTime) {
          assert rest[k] in multiset(rest);
        }
      }
      [s[0]] + rest
  }

  /** The sort applied to a day's tasks: an insertion sort, which like
      JavaScript's Array.prototype.sort keeps tasks with equal stamps in list
      order. */
  function SortByStart(s: seq<Task>): (r: seq<Task>)
    ensures SortedByStart(r)
    ensures multiset(r) == multiset(s)
  {
    if s == [] then []
    else
      assert s == [s[0]] + s[1..];
      InsertByStart(s[0], SortByStart(s[1..]))
  }

  /** The tasks shown in the column of `day`. */
  function GetTasksForDay(tasks: seq<Task>, day: Day): (r: seq<Task>)
    ensures SortedByStart(r)
    ensures multiset(r) == multiset(TasksOn(tasks, day))
    ensures forall t :: t in r <==> t in tasks && t.startTime.day == day
  {
    var r := SortByStart(TasksOn(tasks, day));
    assert forall t :: t in r <==> t in multiset(TasksOn(tasks, day));
    r
  }

  /** One column of the week grid. */
  datatype Column = Column(day: Day, dayName: string, isRestDay: bool, tasks: seq<Task>)

  /** The seven columns shown for `today`'s week. */
  function Week(tasks: seq<Task>, today: Day, restDay: int): (cols: seq<Column>)
    ensures |cols| == |DaysOfWeek|
  {
    var days := WeekDays(today);
    seq(7, i requires 0 <= i < 7 =>
      Column(days[i], DaysOfWeek[i], i == restDay, GetTasksForDay(tasks, days[i])))
  }

  /** Column i shows the i-th day of the week, labelled with that day's name,
      flagged exactly when i is the rest day, and holding exactly the tasks
      that start on that date, sorted. */
  lemma WeekColumns(tasks: seq<Task>, today: Day, restDay: int, i: int)
    requires 0 <= i < 7
    ensures var col := Week(tasks, today, restDay)[i];
      && Weekday(col.day) == i
      && col.dayName == DaysOfWeek[Weekday(col.day)]
      && (col.isRestDay <==> Weekday(col.day) == restDay)
      && SortedByStart(col.tasks)
      && (forall t :: t in col.tasks <==> t in tasks && t.startTime.day == col.day)
  {
  }

  /** No task is shown in two columns, and every task that starts within the
      displayed week is shown in exactly the column of its start date. */
  lemma EachTaskInOneColumn(tasks: seq<Task>, today: Day, restDay: int, t: Task)
    ensures forall i, j :: 0 <= i < j < 7 ==>
      !(t in Week(tasks, today, restDay)[i].tasks && t in Week(tasks, today, restDay)[j].tasks)
    ensures t in tasks && WeekDays(today)[0] <= t.startTime.day < WeekDays(today)[0] + 7 ==>
      var i := t.startTime.day - WeekDays(today)[0];
      t in Week(tasks, today, restDay)[i].tasks
  {
  }

  /** The rest-day column of a week is the one whose date falls on the rest
      day, so a date is in that column exactly when the form's rest-day rule
      looks at it. */
  lemma RestColumnIsRestWeekday(tasks: seq<Task>, today: Day, restDay: int, i: int)
    requires 0 <= i < 7
    ensures Week(tasks, today, restDay)[i].isRestDay <==> Weekday(WeekDays(today)[i]) == restDay
    ensures 0 <= restDay < 7 ==> Week(tasks, today, restDay)[restDay].isRestDay
  {
  }
}
