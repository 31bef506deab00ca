/** Properties that span components: what the form lets into the store, how
    the report and the calendar then treat it, the data the planner starts
    from, and the worked examples of the rules. */
module Scenarios {
  import opened PlannerTypes
  import App
  import Settings
  import TaskCreation
  import WeeklyReport
  import CalendarView

  /** The starting data: a valid profile, and three tasks that each start
      and end on today's date, last a positive time, and pass the devotional
      minimum (the devotional lasts an hour). */
  lemma InitialDataConsistent(today: Day)
    ensures Settings.ValidProfile(App.InitialProfile())
    ensures |App.InitialTasks(today)| == 3
    ensures forall t :: t in App.InitialTasks(today) ==>
      t.startTime.day == t.endTime.day == today && Duration(t) > 0
      && (t.category == PersonalGrowth && t.subType == Devotional ==>
            Duration(t) == 60 >= TaskCreation.MinDevotionalMinutes)
  {
  }

  /** The report over the starting data: two hours of ministry, two of
      family and one of personal growth. */
  lemma InitialReport(today: Day)
    ensures WeeklyReport.CategoryTotal(App.InitialTasks(today), Ministry) == 120
    ensures WeeklyReport.CategoryTotal(App.InitialTasks(today), Family) == 120
    ensures WeeklyReport.CategoryTotal(App.InitialTasks(today), PersonalGrowth) == 60
    ensures WeeklyReport.GrandTotal(App.InitialTasks(today)) == 300
  {
    var ts := App.InitialTasks(today);
    assert ts == [ts[0], ts[1]] + [ts[2]];
    assert [ts[0], ts[1]] == [ts[0]] + [ts[1]];
    assert [ts[0]] == [] + [ts[0]];
    WeeklyReport.PositiveAdded([], ts[0]);
    WeeklyReport.PositiveAdded([ts[0]], ts[1]);
    WeeklyReport.PositiveAdded([ts[0], ts[1]], ts[2]);
  }

  /** A personal-growth devotional that the form saves adds at least the
      devotional minimum to its category in the report. */
  lemma SavedDevotionalCounts(d: TaskCreation.Draft, restDay: int, id: string, tasks: seq<Task>)
    requires TaskCreation.SubmitDecision(d, TaskCreation.Evaluate(d, restDay), id).Saved?
    requires d.category == PersonalGrowth && d.subType == Devotional
    ensures var t := TaskCreation.SubmitDecision(d, TaskCreation.Evaluate(d, restDay), id).task;
      WeeklyReport.CategoryTotal(tasks + [t], PersonalGrowth)
        >= WeeklyReport.CategoryTotal(tasks, PersonalGrowth) + TaskCreation.MinDevotionalMinutes
  {
  }

  /** A task whose end time is not after its start time is saved unless it
      is a personal-growth devotional (the form measures nothing else; a
      devotional filed under another category escapes the rule), yet, stored
      on one date, it lasts zero or negative minutes and the report leaves it
      out. */
  lemma SavedMidnightCrossingUncounted(d: TaskCreation.Draft, restDay: int, id: string, tasks: seq<Task>)
    requires d.title != "" && d.date.Some? && !(d.category == PersonalGrowth && d.subType == Devotional)
    requires d.endTime <= d.startTime
    ensures TaskCreation.SubmitDecision(d, TaskCreation.Evaluate(d, restDay), id).Saved?
    ensures var t := TaskCreation.SubmitDecision(d, TaskCreation.Evaluate(d, restDay), id).task;
      (forall c :: WeeklyReport.CategoryTotal(tasks + [t], c) == WeeklyReport.CategoryTotal(tasks, c))
      && WeeklyReport.GrandTotal(tasks + [t]) == WeeklyReport.GrandTotal(tasks)
  {
  }

  /** A saved task shows in the calendar column of the date it was entered
      on, and in no other column of any week. */
  lemma SavedTaskShownOnItsDate(d: TaskCreation.Draft, restDay: int, id: string, tasks: seq<Task>, other: Day)
    requires TaskCreation.SubmitDecision(d, TaskCreation.Evaluate(d, restDay), id).Saved?
    ensures var t := TaskCreation.SubmitDecision(d, TaskCreation.Evaluate(d, restDay), id).task;
      t in CalendarView.GetTasksForDay(tasks + [t], d.date.value)
      && (other != d.date.value ==> t !in CalendarView.GetTasksForDay(tasks + [t], other))
  {
  }

  /** A ministry task on a date of the displayed week gets the rest-day
      warning exactly when that date's column is the flagged one. */
  lemma RestWarningMatchesFlaggedColumn(d: TaskCreation.Draft, restDay: int, tasks: seq<Task>, today: Day, i: int)
    requires 0 <= i < 7 && d.category == Ministry
    requires d.date == Some(CalendarView.WeekDays(today)[i])
    ensures TaskCreation.Evaluate(d, restDay).restDay.Some? <==> CalendarView.Week(tasks, today, restDay)[i].isRestDay
  {
  }

  /** Ministry sermon preparation from 09:00 to 11:00 on a Monday
      (1970-01-05) with Monday as rest day: warned, and still saved. */
  lemma RestDayExample(id: string)
    ensures var d := TaskCreation.Draft("Sermão", Ministry, SermonPrep, Some(4), 9 * 60, 11 * 60, false, "", "Romanos 8");
      TaskCreation.Evaluate(d, 1) == TaskCreation.Warnings(Some("Segunda-feira"), false)
      && TaskCreation.SubmitDecision(d, TaskCreation.Evaluate(d, 1), id).Saved?
  {
  }

  /** A devotional from 06:00 to 06:10: warned and blocked. */
  lemma ShortDevotionalExample(id: string, day: Day)
    ensures var d := TaskCreation.Draft("Devocional", PersonalGrowth, Devotional, Some(day), 6 * 60, 6 * 60 + 10, false, "", "");
      TaskCreation.Evaluate(d, 1).duration
      && TaskCreation.SubmitDecision(d, TaskCreation.Evaluate(d, 1), id) == TaskCreation.Blocked
  {
  }

  /** Ministry 120 minutes, family 60 and personal growth 60: a grand total
      of 240 minutes, of which ministry is half. */
  lemma BalanceExample(day: Day)
    ensures var tasks := [
        Task("a", "A", Ministry, Meeting, Stamp(day, 8 * 60), Stamp(day, 10 * 60), false, None, None),
        Task("b", "B", Family, Leisure, Stamp(day, 18 * 60), Stamp(day, 19 * 60), false, None, None),
        Task("c", "C", PersonalGrowth, Study, Stamp(day, 20 * 60), Stamp(day, 21 * 60), false, None, None)];
      WeeklyReport.GrandTotal(tasks) == 240
      && WeeklyReport.Percentage(WeeklyReport.CategoryTotal(tasks, Ministry), WeeklyReport.GrandTotal(tasks)) == 50.0
  {
    var a := Task("a", "A", Ministry, Meeting, Stamp(day, 8 * 60), Stamp(day, 10 * 60), false, None, None);
    var b := Task("b", "B", Family, Leisure, Stamp(day, 18 * 60), Stamp(day, 19 * 60), false, None, None);
    var c := Task("c", "C", PersonalGrowth, Study, Stamp(day, 20 * 60), Stamp(day, 21 * 60), false, None, None);
    assert [a, b, c] == [a, b] + [c];
    assert [a, b] == [a] + [b];
    assert [a] == [] + [a];
    WeeklyReport.PositiveAdded([], a);
    WeeklyReport.PositiveAdded([a], b);
    WeeklyReport.PositiveAdded([a, b], c);
  }
}
