# Weekly pastoral planner: scheduling rules, store, report and calendar

This project models the logic of a single-user weekly planner for a pastor.
Each activity (a task) belongs to one of three life categories (ministry,
family, personal growth) and has one of twelve subtypes. The planner applies
these rules:

- **Task creation form** (`task_creation.dfy`, module `TaskCreation`). The
  form shows an advisory warning when ministry work falls on the user's rest
  day. It shows a blocking warning when a personal-growth devotional lasts
  under 15 minutes, measured on the clock face alone. Clicking a category
  button resets the subtype. Submitting builds the task record: start and end
  share the entered date, the Bible reference is kept only for sermon
  preparation, and empty notes are dropped. The form is a class. Its
  `Valid()` invariant keeps the shown warnings equal to what the rules say of
  the current cells.
- **Task store and profile** (`app.dfy`, module `App`). The application
  state is a class with the task list and the profile. Saving appends a task
  to the end of the list.
- **Settings** (`settings.dfy`, module `Settings`). Renaming and choosing a
  rest day each build a new profile that differs in one field. Exactly one
  rest-day button is marked selected.
- **Balance report** (`weekly_report.dfy`, module `WeeklyReport`). One pass
  over the task list adds each positive duration to its category's total and
  to the grand total. The loop is proved against recursive specification
  functions. The model also covers the percentage shares and the
  hours-and-minutes split.
- **Calendar** (`calendar_view.dfy`, module `CalendarView`). It shows the
  seven days of the current week from Sunday. Each day's column holds the
  tasks that start on that date, sorted by start stamp.
- **Cross-component properties and worked examples** (`scenarios.dfy`,
  module `Scenarios`).

Dates `YYYY-MM-DD` are day numbers, where day 0 is 1970-01-01, a Thursday.
`Weekday(d) = (d + 4) mod 7`, with 0 for Sunday. Times `HH:MM` are minutes
since midnight. A stored stamp `YYYY-MM-DDTHH:MM:00` is a pair of a day and a
time. The text comparison the calendar sorts by is the lexicographic order on
that pair, which `StampLeIsChronological` proves equal to the chronological
order. Today's date, the new task's id and the rest day passed to the form
are parameters.

Behaviour of the code the model keeps:

- The subtype list offers all twelve subtypes whatever the category, so a
  task's subtype need not belong to its category.
- The Bible reference is kept whenever the subtype is sermon preparation,
  whatever the category, and even when the field was not shown.
- The validation also re-runs when the profile's rest day changes. The form
  reads the rest day from the application's profile, so a submit requires the
  form's copy (`TaskModal.restDay`) to equal `AppState.profile.restDay`; a
  caller pairs `UpdateProfile` with `SetRestDay`.
- A non-empty title and a date are required only by the browser's `required`
  attributes. The model treats them as the `Incomplete` outcome of a submit.
- A personal-growth devotional that crosses midnight is always blocked. Any
  other task whose end time is not after its start, including a devotional
  filed under ministry or family, is saved on a single date and then silently
  left out of the report. The code does this, so the model
  keeps it (`MidnightCrossingFlagged`, `SavedMidnightCrossingUncounted`).

## Model

| member | source | states |
|---|---|---|
| PlannerTypes.Weekday | components/TaskModal.tsx:51-55 | a date's day of the week is one of the 7 indices of the week's day list (0 = Sunday) |
| PlannerTypes.StampLeIsChronological | components/CalendarView.tsx:33 | comparing two stored stamps' texts (date part, then time part) orders them exactly as their instants |
| PlannerTypes.WeekdayFromSunday | components/CalendarView.tsx:14-23 | k days after the Sunday of a date's week (date minus its weekday) is weekday k |
| App.InitialTasks | App.tsx:17-47 | the three sample tasks have distinct ids and each starts and ends today with a positive duration |
| App.InitialProfile | App.tsx:49-52 | the starting profile's rest day is index 1 of the week list, Monday |
| App.AppState.constructor | App.tsx:60-61 | the state starts with the three sample tasks dated today and the starting profile, whose rest day is a day of the week (`Valid()`) |
| App.AppState.SaveTask | App.tsx:63-65 | saving appends: the list grows by one, the new task is last, earlier tasks stay in place; no precondition, so it never fails and checks no id |
| App.AppState.UpdateProfile | App.tsx:74 | the profile cell is replaced by the record the settings view hands back, which is valid (see `Settings.EditsKeepProfileValid`), so `Valid()` is kept |
| Settings.Rename | components/Settings.tsx:31 | the new name is set and the rest day is unchanged (so a valid profile stays valid) |
| Settings.SelectRestDay | components/Settings.tsx:46-49 | the rest day becomes the clicked index of the 7-entry day list, the name is unchanged, the profile is valid |
| Settings.DayButtons | components/Settings.tsx:46-56 | one button per day of the week list, labelled with that day, selected exactly when its index is the rest day |
| Settings.ExactlyOneSelected | components/Settings.tsx:51 | for a valid profile the set of selected buttons is exactly the rest day's |
| Settings.SettingsKeepProfileValid | components/Settings.tsx:31-49 | a rename followed by a rest-day choice keeps the rest day in 0..6, and the two updates commute |
| Settings.EditsKeepProfileValid | components/Settings.tsx:31-49 | any sequence of renames and day-button clicks keeps the rest day in 0..6; without a click the rest day is unchanged, without typing the name is unchanged |
| TaskCreation.OpenDefaults | components/TaskModal.tsx:28-42 | the opened form is dated today with an empty title, never shows the duration warning, and shows the rest-day warning exactly when today is the rest day |
| TaskCreation.DefaultSubType | components/TaskModal.tsx:133-137 | the subtype a category button selects (sermon prep, date night, devotional) is listed under that category and is not GENERIC |
| TaskCreation.OnRestDay | components/TaskModal.tsx:49-55 | the rest-day rule fires only with a date and a rest day in 0..6 |
| TaskCreation.DevotionalTooShort | components/TaskModal.tsx:49-65 | the devotional rule fires only with a date and a devotional filed under personal growth, and always fires when its end time is not after its start time |
| TaskCreation.Evaluate | components/TaskModal.tsx:55-56 | a rest-day warning can only show for a rest day in 0..6 and carries that day's name |
| TaskCreation.NoDateNoWarnings | components/TaskModal.tsx:46-49 | with the date field empty neither warning shows |
| TaskCreation.RestDayWarningIndependence | components/TaskModal.tsx:55-57 | the rest-day warning shows iff there is a date, its weekday is the rest day and the category is ministry; it never depends on subtype or times |
| TaskCreation.DurationWarningScope | components/TaskModal.tsx:60-67 | the duration warning is independent of the rest day and the date's value, and never shows unless the task is a personal-growth devotional |
| TaskCreation.MidnightCrossingFlagged | components/TaskModal.tsx:61-65 | a dated personal-growth devotional whose end time is before its start time (clock face only) is always flagged; a devotional filed under another category is not |
| TaskCreation.EditsOutsideDependencies | components/TaskModal.tsx:70 | editing the title, recurrence, notes or reference leaves both warnings unchanged, matching the effect's dependency list |
| TaskCreation.CategoryChoiceAndDevotionalRule | components/TaskModal.tsx:132-138 | with a date entered, after a category click the duration warning shows iff personal growth was chosen and end minus start is under 15 |
| TaskCreation.BuildTask | components/TaskModal.tsx:81-91 | the built task starts and ends on the entered date at the entered times, lasts end minus start minutes, has a Bible reference iff the subtype is sermon prep, and has notes iff they are non-empty |
| TaskCreation.SubmitDecision | components/TaskModal.tsx:76-93 | a submit is blocked exactly when the duration warning shows, saves exactly when it does not and the title and date are filled, and then saves the built task; the rest-day warning plays no part |
| TaskCreation.SubmitSavesOnlyValidTasks | components/TaskModal.tsx:76-93 | a submit saves iff title and date are filled and the devotional rule passes; the rest-day warning never changes the outcome; a saved personal-growth devotional lasts at least 15 minutes |
| TaskCreation.TaskModal.constructor | components/TaskModal.tsx:14-26 | the cells start empty or at their defaults (ministry, generic, 09:00 to 10:00) with no warning |
| TaskCreation.TaskModal.Revalidate | components/TaskModal.tsx:45-70 | after clearing both warnings and re-applying the rules the shown warnings equal what the rules say of the current cells |
| TaskCreation.TaskModal.Open | components/TaskModal.tsx:28-42 | opening resets every cell to its default with today's date and re-establishes the warnings invariant |
| TaskCreation.TaskModal.Close | App.tsx:172 | closing (after a save, or from the header or cancel button) marks the form closed |
| TaskCreation.TaskModal.SetRestDay | components/TaskModal.tsx:70 | a change of the profile's rest day re-evaluates the warnings |
| TaskCreation.TaskModal.ChooseCategory | components/TaskModal.tsx:132-138 | a category click sets the category and its default subtype and keeps the warnings current |
| TaskCreation.TaskModal.Change | components/TaskModal.tsx:118-248 | editing one cell changes that cell only and keeps the warnings current |
| TaskCreation.TaskModal.SubmitDisabled | components/TaskModal.tsx:264 | the submit button is disabled exactly when the devotional rule fires on the current cells |
| TaskCreation.TaskModal.Submit | components/TaskModal.tsx:73-95 | on an open form (a closed one renders nothing, components/TaskModal.tsx:97) whose rest day is that of the application's profile, a blocked or incomplete submit leaves the store and the form unchanged; otherwise the built task is appended to the store and the form closes |
| WeeklyReport.Contribution | components/WeeklyReport.tsx:27-34 | a task adds its duration when that is positive and exactly 0 otherwise |
| WeeklyReport.CategoryTotal | components/WeeklyReport.tsx:18-35 | every category total is non-negative |
| WeeklyReport.GrandTotal | components/WeeklyReport.tsx:24-35 | the grand total is non-negative |
| WeeklyReport.ComputeStats | components/WeeklyReport.tsx:17-44 | the loop's totals map has exactly the three categories, each equal to that category's total, the grand total equals the sum of included durations, and the chart data is the three totals in the order ministry, family, personal growth |
| WeeklyReport.TotalsSumToGrand | components/WeeklyReport.tsx:31-34 | the three category totals add up to the grand total |
| WeeklyReport.AppendTask | components/WeeklyReport.tsx:26-35 | one more task changes its own category and the grand total by its contribution and no other category |
| WeeklyReport.NonPositiveIgnored | components/WeeklyReport.tsx:31 | a task lasting zero or fewer minutes changes no total |
| WeeklyReport.PositiveAdded | components/WeeklyReport.tsx:32-33 | a task lasting d > 0 minutes raises its category and the grand total by d and leaves the other categories unchanged |
| WeeklyReport.CategoryTotalIgnoresOrder | components/WeeklyReport.tsx:26-35 | a category total depends only on which tasks the list holds, not their order |
| WeeklyReport.TotalsIgnoreOrder | components/WeeklyReport.tsx:26-35 | every category total and the grand total are the same for any rearrangement of the list |
| WeeklyReport.Percentage | components/WeeklyReport.tsx:92-108 | the share is 0 when the grand total is 0, otherwise it times the grand total is 100 times the category total, and a part of the whole lies in 0..100 |
| WeeklyReport.PercentagesOfReport | components/WeeklyReport.tsx:92-108 | every share lies in 0..100; all are 0 when the grand total is 0; otherwise the three add up to exactly 100 |
| WeeklyReport.FormatHours | components/WeeklyReport.tsx:46-50 | for non-negative minutes the split is hours and minutes with minutes in 0..59 that recompose to the input; for negative minutes the minute part lies in -59..0 and the split recomposes exactly when the input is a whole number of hours |
| CalendarView.WeekDays | components/CalendarView.tsx:13-24 | seven consecutive dates whose entry i falls on weekday i and which include today |
| CalendarView.TasksOn | components/CalendarView.tsx:28-32 | the filter keeps every task starting on the day as often as it occurs and drops every other task |
| CalendarView.InsertByStart | components/CalendarView.tsx:33 | inserting into a sorted list keeps it sorted by start stamp and adds exactly that task |
| CalendarView.SortByStart | components/CalendarView.tsx:33 | the sort yields a list sorted by start stamp that is a permutation of its input |
| CalendarView.GetTasksForDay | components/CalendarView.tsx:26-34 | a day's tasks are sorted by start stamp, are a permutation of the filtered tasks, and are exactly the tasks starting on that date |
| CalendarView.Week | components/CalendarView.tsx:39-65 | the grid has one column per entry of the week's day list |
| CalendarView.WeekColumns | components/CalendarView.tsx:39-65 | column i shows a date on weekday i under that day's name, is flagged iff that weekday is the rest day, and holds exactly the tasks starting on that date, sorted |
| CalendarView.EachTaskInOneColumn | components/CalendarView.tsx:63-64 | no task appears in two columns, and a task starting within the week appears in its date's column |
| CalendarView.RestColumnIsRestWeekday | components/CalendarView.tsx:41 | a column is flagged iff its date's weekday is the rest day; for a rest day in 0..6 that column is flagged |
| Scenarios.InitialDataConsistent | App.tsx:17-52 | the starting profile is valid and the three sample tasks each start and end today, last a positive time, and the devotional lasts 60 minutes |
| Scenarios.InitialReport | App.tsx:17-47 | the sample tasks report 120 minutes of ministry, 120 of family, 60 of personal growth and 300 in all |
| Scenarios.SavedDevotionalCounts | components/TaskModal.tsx:60-93 | a personal-growth devotional the form saves adds at least 15 minutes to its category in the report |
| Scenarios.SavedMidnightCrossingUncounted | components/TaskModal.tsx:86-87 | any task other than a personal-growth devotional (a devotional filed under ministry or family included) whose end time is not after its start is saved, yet adds nothing to any report total |
| Scenarios.SavedTaskShownOnItsDate | components/CalendarView.tsx:26-34 | a saved task shows in the calendar on its entered date and on no other date |
| Scenarios.RestWarningMatchesFlaggedColumn | components/CalendarView.tsx:41 | a ministry task on a date of the shown week is warned about iff that date's column is the flagged rest-day column |
| Scenarios.RestDayExample | components/TaskModal.tsx:55-57 | sermon prep 09:00 to 11:00 on a Monday with Monday as rest day is warned (naming Monday) and still saved |
| Scenarios.ShortDevotionalExample | components/TaskModal.tsx:60-67 | a devotional from 06:00 to 06:10 is warned and blocked |
| Scenarios.BalanceExample | components/WeeklyReport.tsx:92 | 120, 60 and 60 minutes give a grand total of 240 and a ministry share of 50 percent |

## Left out

- Rendering, styling, icons, the pie chart, the mobile menu, the view switch and the "today" highlight in the calendar: presentation only.
- The label and colour tables (category labels, subtype labels, category colours). A chart slice carries its category, not its label and colour. The week's day names are kept.
- The warning texts: the rest-day warning carries the rest day's name and the duration warning is a flag.
- `alert()` and `crypto.randomUUID()`: the alert is the `Blocked` outcome, and the id is a parameter of `Submit`.
- The wall clock: today's date is a parameter of the form's `Open`, the calendar and the initial tasks.
- Time zones and daylight saving time. `new Date("YYYY-MM-DD")` reads the date as UTC midnight while `getDay()` answers in local time, so west of UTC the rest-day rule looks at the previous day's weekday. The calendar's day strings come from `toISOString()`, which is also UTC. A task crossing a daylight-saving change would report a duration off by an hour. The model uses one calendar with no offset.
- Empty time fields. The model always has a start and an end time. In the code an empty time makes the devotional duration NaN, so no warning shows, but the browser's `required` attribute then refuses the submit.
- WeeklyReport.Percentage: the exact share, not the one-decimal `toFixed(1)` rounding of a floating-point division.
- WeeklyReport.FormatHours: returns the hour and minute numbers, not the `"Xh Ym"` string. For negative minutes it follows JavaScript's floor and truncating remainder, so it recomposes the input only for whole hours (-60 gives -1h 0m, -30 gives -1h -30m); every total it is given is non-negative.
- React scheduling (`useMemo`, `useEffect`). The model re-evaluates the warnings inside every state-changing method. This is the steady state the effect reaches after each render.
- Recurrence: the flag is stored and never expands into further dates, in the code as in the model.
- CalendarView.SortByStart: the sort is stable like JavaScript's, but its stability is not stated as a property. The locale-aware text comparison is modelled as plain order, which agrees with it on stamps of the same fixed-width shape.
