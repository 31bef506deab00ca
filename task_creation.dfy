/** The task-creation form: its input cells, the two scheduling rules that
    decide which warnings it shows, the submission that builds a task record,
    and the form as a stateful object whose warnings are re-evaluated after
    every change. */
module TaskCreation {
  import opened PlannerTypes
  import App

  /** Shortest devotional, in minutes, the form accepts. */
  const MinDevotionalMinutes: int := 15

  /** The form's input cells; `date` is None while the date field is empty. */
  datatype Draft = Draft(
    title: string,
    category: Category,
    subType: SubType,
    date: Option<Day>,
    startTime: TimeOfDay,
    endTime: TimeOfDay,
    isRecurring: bool,
    notes: string,
    bibleReference: string)

  /** The cells' first values, before the form has ever been opened. */
  function InitialDraft(): Draft {
    Draft("", Ministry, Generic, None, 9 * 60, 10 * 60, false, "", "")
  }

  /** The cells after opening the form on `today`: a freshly opened form is
      never blocked, and it warns about the rest day exactly when today is
      the rest day. */
  function OpenDefaults(today: Day): (d: Draft)
    ensures d.date == Some(today) && d.title == ""
    ensures forall restDay :: !Evaluate(d, restDay).duration
    ensures forall restDay :: Evaluate(d, restDay).restDay.Some? <==> Weekday(today) == restDay
  {
    Draft("", Ministry, Generic, Some(today), 9 * 60, 10 * 60, false, "", "")
  }

  /** The subtype a category button selects: one listed under that
      category. */
  function DefaultSubType(c: Category): (st: SubType)
    ensures GroupOf(st) == Some(c)
    ensures st != Generic
  {
    match c
    case Ministry => SermonPrep
    case Family => DateNight
    case PersonalGrowth => Devotional
  }

  /** Clicking the button of category `c`. */
  function WithCategory(d: Draft, c: Category): Draft {
    d.(category := c, subType := DefaultSubType(c))
  }

  /** One edit of a single input cell (the subtype list offers all twelve
      subtypes whatever the category). */
  datatype Input =
    | TitleInput(title: string)
    | SubTypeInput(subType: SubType)
    | DateInput(date: Option<Day>)
    | StartInput(startTime: TimeOfDay)
    | EndInput(endTime: TimeOfDay)
    | RecurringInput(isRecurring: bool)
    | NotesInput(notes: string)
    | ReferenceInput(bibleReference: string)

  function Apply(d: Draft, input: Input): Draft {
    match input
    case TitleInput(s) => d.(title := s)
    case SubTypeInput(st) => d.(subType := st)
    case DateInput(day) => d.(date := day)
    case StartInput(t) => d.(startTime := t)
    case EndInput(t) => d.(endTime := t)
    case RecurringInput(b) => d.(isRecurring := b)
    case NotesInput(s) => d.(notes := s)
    case ReferenceInput(s) => d.(bibleReference := s)
  }

  /** Whether an edit touches a cell the validation depends on. */
  predicate TouchesValidation(input: Input) {
    input.SubTypeInput? || input.DateInput? || input.StartInput? || input.EndInput?
  }

  /** The two warnings: the rest-day one carries the rest day's name. */
  datatype Warnings = Warnings(restDay: Option<string>, duration: bool)

  /** Rest-day rule: ministry work on a date that falls on the rest day. */
  predicate OnRestDay(d: Draft, restDay: int)
    ensures OnRestDay(d, restDay) ==> 0 <= restDay < |DaysOfWeek| && d.date.Some?
  {
    d.date.Some? && Weekday(d.date.value) == restDay && d.category == Ministry
  }

  /** Devotional rule: a devotional whose end minus start, on the clock face
      alone, is under the minimum. */
  predicate DevotionalTooShort(d: Draft)
    ensures DevotionalTooShort(d) ==> d.date.Some? && d.category == PersonalGrowth && d.subType == Devotional
    ensures (d.date.Some? && d.category == PersonalGrowth && d.subType == Devotional
             && d.endTime <= d.startTime) ==> DevotionalTooShort(d)
  {
    d.date.Some? && d.category == PersonalGrowth && d.subType == Devotional
    && d.endTime - d.startTime < MinDevotionalMinutes
  }

  /** What the validation shows for the cells `d` and the profile's rest day. */
  function Evaluate(d: Draft, restDay: int): (w: Warnings)
    ensures w.restDay.Some? ==> 0 <= restDay < |DaysOfWeek| && w.restDay.value == DaysOfWeek[restDay]
  {
    Warnings(if OnRestDay(d, restDay) then Some(DaysOfWeek[restDay]) else None,
             DevotionalTooShort(d))
  }

  /** With the date field empty neither warning is shown. */
  lemma NoDateNoWarnings(d: Draft, restDay: int)
    requires d.date.None?
    ensures Evaluate(d, restDay) == Warnings(None, false)
  {
  }

  /** The rest-day warning depends on the date, the category and the rest day
      only: never on the subtype, the times or the other cells. */
  lemma RestDayWarningIndependence(d: Draft, e: Draft, restDay: int)
    requires d.date == e.date && d.category == e.category
    ensures Evaluate(d, restDay).restDay == Evaluate(e, restDay).restDay
    ensures Evaluate(d, restDay).restDay.Some? <==>
      (d.date.Some? && d.category == Ministry && Weekday(d.date.value) == restDay)
  {
  }

  /** The duration warning depends on neither the rest day nor the date's
      value, and never fires for anything but a personal-growth devotional,
      however short. */
  lemma DurationWarningScope(d: Draft, restDay: int, otherRestDay: int, otherDay: Day)
    requires d.date.Some?
    ensures Evaluate(d, restDay).duration == Evaluate(d.(date := Some(otherDay)), otherRestDay).duration
    ensures !(d.category == PersonalGrowth && d.subType == Devotional) ==> !Evaluate(d, restDay).duration
  {
  }

  /** Because the length is taken on the clock face, a dated personal-growth
      devotional that crosses midnight (ends before it starts) is always
      flagged. */
  lemma MidnightCrossingFlagged(d: Draft, restDay: int)
    requires d.date.Some? && d.category == PersonalGrowth && d.subType == Devotional
    requires d.endTime < d.startTime
    ensures Evaluate(d, restDay).duration
  {
  }

  /** Editing the title, the recurrence flag, the notes or the reference
      leaves both warnings as they were. */
  lemma EditsOutsideDependencies(d: Draft, input: Input, restDay: int)
    requires !TouchesValidation(input)
    ensures Evaluate(Apply(d, input), restDay) == Evaluate(d, restDay)
  {
  }

  /** Choosing personal growth always arms the devotional rule, and choosing
      any other category always clears the duration warning. */
  lemma CategoryChoiceAndDevotionalRule(d: Draft, c: Category, restDay: int)
    requires d.date.Some?
    ensures Evaluate(WithCategory(d, c), restDay).duration <==>
      (c == PersonalGrowth && d.endTime - d.startTime < MinDevotionalMinutes)
  {
  }

  /** The record built from the cells on submission. */
  function BuildTask(d: Draft, id: string): (t: Task)
    requires d.date.Some?
    ensures t.id == id && t.title == d.title && t.category == d.category
    ensures t.subType == d.subType && t.isRecurring == d.isRecurring
    ensures t.startTime.day == t.endTime.day == d.date.value
    ensures t.startTime.time == d.startTime && t.endTime.time == d.endTime
    ensures Duration(t) == d.endTime - d.startTime
    ensures t.bibleReference.Some? <==> d.subType == SermonPrep
    ensures t.bibleReference.Some? ==> t.bibleReference.value == d.bibleReference
    ensures t.notes.None? <==> d.notes == ""
    ensures t.notes.Some? ==> t.notes.value == d.notes
  {
    Task(id, d.title, d.category, d.subType,
         Stamp(d.date.value, d.startTime), Stamp(d.date.value, d.endTime),
         d.isRecurring,
         if d.notes == "" then None else Some(d.notes),
         if d.subType == SermonPrep then Some(d.bibleReference) else None)
  }

  /** What pressing the submit button does. */
  datatype SubmitOutcome =
    | Blocked           // the duration warning is shown: the button is disabled
    | Incomplete        // the title or the date is empty: the browser refuses
    | Saved(task: Task) // the task is handed to the store and the form closes

  /** The decision depends on the duration warning and the required cells
      only: the rest-day warning plays no part in it. */
  function SubmitDecision(d: Draft, w: Warnings, id: string): (r: SubmitOutcome)
    ensures r.Saved? <==> !w.duration && d.title != "" && d.date.Some?
    ensures r.Saved? ==> d.date.Some? && r.task == BuildTask(d, id) && r.task.title != ""
    ensures r.Blocked? <==> w.duration
  {
    if w.duration then Blocked
    else if d.title == "" || d.date.None? then Incomplete
    else Saved(BuildTask(d, id))
  }

  /** A submission saves a task exactly when the devotional rule passes and
      the required cells are filled; a saved personal-growth devotional
      lasts at least the minimum on its stored times; the rest-day warning
      never blocks. */
  lemma SubmitSavesOnlyValidTasks(d: Draft, restDay: int, otherRestDay: int, id: string)
    ensures SubmitDecision(d, Evaluate(d, restDay), id).Saved? <==>
      (d.title != "" && d.date.Some? && !DevotionalTooShort(d))
    ensures SubmitDecision(d, Evaluate(d, restDay), id) == SubmitDecision(d, Evaluate(d, otherRestDay), id)
    ensures SubmitDecision(d, Evaluate(d, restDay), id).Saved? ==>
      var t := SubmitDecision(d, Evaluate(d, restDay), id).task;
      t.title != "" && (t.category == PersonalGrowth && t.subType == Devotional ==> Duration(t) >= MinDevotionalMinutes)
  {
  }

  /** The form as a stateful object. `restDay` mirrors the profile the form
      is given; the warnings are kept equal to what the rules say of the
      current cells. */
  class TaskModal {
    var isOpen: bool
    var restDay: int
    var draft: Draft
    var restDayWarning: Option<string>
    var durationWarning: bool

    /** The warnings shown always reflect the current cells. */
    ghost predicate Valid()
      reads this
    {
      Warnings(restDayWarning, durationWarning) == Evaluate(draft, restDay)
    }

    constructor (restDay: int)
      ensures Valid() && !isOpen && this.restDay == restDay && draft == InitialDraft()
      ensures restDayWarning.None? && !durationWarning
    {
      isOpen := false;
      this.restDay := restDay;
      draft := InitialDraft();
      restDayWarning := None;
      durationWarning := false;
    }

    /** The validation effect: clear both warnings, stop if there is no
        date, then set each warning whose rule fires. */
    method Revalidate()
      modifies this`restDayWarning, this`durationWarning
      ensures Valid()
    {
      restDayWarning := None;
      durationWarning := false;
      if draft.date.None? {
        return;
      }
      var selectedDay := Weekday(draft.date.value);
      if selectedDay == restDay && draft.category == Ministry {
        restDayWarning := Some(DaysOfWeek[restDay]);
      }
      if draft.category == PersonalGrowth && draft.subType == Devotional {
        var diffMinutes := draft.endTime - draft.startTime;
        if diffMinutes < MinDevotionalMinutes {
          durationWarning := true;
        }
      }
    }

    /** Opening the form resets every cell; today's date is supplied. */
    method Open(today: Day)
      modifies this
      ensures Valid() && isOpen && restDay == old(restDay)
      ensures draft == OpenDefaults(today)
    {
      isOpen := true;
      draft := OpenDefaults(today);
      Revalidate();
    }

    method Close()
      modifies this`isOpen
      ensures !isOpen
    {
      isOpen := false;
    }

    /** The profile's rest day changed while the form exists. */
    method SetRestDay(newRestDay: int)
      modifies this`restDay, this`restDayWarning, this`durationWarning
      ensures Valid() && restDay == newRestDay
    {
      restDay := newRestDay;
      Revalidate();
    }

    /** Clicking a category button: set the category, then the subtype. */
    method ChooseCategory(c: Category)
      modifies this`draft, this`restDayWarning, this`durationWarning
      ensures Valid() && draft == WithCategory(old(draft), c)
    {
      draft := draft.(category := c);
      if c == Ministry { draft := draft.(subType := SermonPrep); }
      if c == Family { draft := draft.(subType := DateNight); }
      if c == PersonalGrowth { draft := draft.(subType := Devotional); }
      Revalidate();
    }

    /** Editing one input cell. */
    method Change(input: Input)
      modifies this`draft, this`restDayWarning, this`durationWarning
      ensures Valid() && draft == Apply(old(draft), input)
    {
      draft := Apply(draft, input);
      Revalidate();
    }

    /** The submit button is disabled exactly while the devotional rule fires. */
    function SubmitDisabled(): (disabled: bool)
      reads this
      requires Valid()
      ensures disabled <==> DevotionalTooShort(draft)
    {
      durationWarning
    }

    /** Submitting: a shown duration warning stops everything; otherwise the
        task is built with the supplied id, handed to the store, and the form
        closes. */
    method Submit(id: string, app: App.AppState) returns (outcome: SubmitOutcome)
      requires Valid() && isOpen && app.profile.restDay == restDay
      modifies this`isOpen, app`tasks
      ensures outcome == SubmitDecision(draft, Evaluate(draft, restDay), id)
      ensures outcome.Saved? ==> app.tasks == old(app.tasks) + [outcome.task] && !isOpen
      ensures !outcome.Saved? ==> app.tasks == old(app.tasks) && isOpen == old(isOpen)
    {
      if durationWarning {
        return Blocked;
      }
      if draft.title == "" || draft.date.None? {
        return Incomplete;
      }
      var newTask := BuildTask(draft, id);
      app.SaveTask(newTask);
      isOpen := false;
      outcome := Saved(newTask);
    }
  }
}
