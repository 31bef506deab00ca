/** The planner's entities: the two enumerations, the task record and the user
    profile, together with the calendar arithmetic every component shares.
    A date "YYYY-MM-DD" is a day number (day 0 is 1970-01-01, a Thursday) and
    a time "HH:MM" is a number of minutes since midnight. */
module PlannerTypes {

  datatype Option<T> = None | Some(value: T)

  /** The three life-balance buckets. */
  datatype Category = Ministry | Family | PersonalGrowth

  /** The twelve activity kinds. The enumeration groups them under a category
      in its comments only: nothing ties a task's subtype to its category. */
  datatype SubType =
    | SermonPrep | Meeting | Service | Visitation
    | Devotional | Intercession | Study | Exercise
    | DateNight | Leisure | Chore
    | Generic

  /** The category under which the enumeration lists a subtype; GENERIC is
      listed under none. */
  function GroupOf(st: SubType): Option<Category> {
    match st
    case SermonPrep | Meeting | Service | Visitation => Some(Ministry)
    case Devotional | Intercession | Study | Exercise => Some(PersonalGrowth)
    case DateNight | Leisure | Chore => Some(Family)
    case Generic => None
  }

  const MinutesPerDay: int := 1440

  /** A time of day "HH:MM" as minutes since midnight. */
  type TimeOfDay = m: int | 0 <= m < MinutesPerDay

  /** A calendar date "YYYY-MM-DD" as a number of days after 1970-01-01. */
  type Day = int

  /** A stored timestamp "YYYY-MM-DDTHH:MM:00". */
  datatype Stamp = Stamp(day: Day, time: TimeOfDay)

  /** Minutes since 1970-01-01T00:00 (the planner's code subtracts Date values). */
  function Minutes(s: Stamp): int {
    s.day * MinutesPerDay + s.time
  }

  /** How two stamps' ISO texts compare: the date part decides, and on the
      same date the "HH:MM" part does. */
  predicate StampLe(a: Stamp, b: Stamp) {
    a.day < b.day || (a.day == b.day && a.time <= b.time)
  }

  datatype Task = Task(
    id: string,
    title: string,
    category: Category,
    subType: SubType,
    startTime: Stamp,
    endTime: Stamp,
    isRecurring: bool,
    notes: Option<string>,
    bibleReference: Option<string>)

  /** A task's length in minutes: end minus start, negative when it ends first. */
  function Duration(t: Task): int {
    Minutes(t.endTime) - Minutes(t.startTime)
  }

  datatype Profile = Profile(name: string, restDay: int)

  /** The week's day names, Sunday first; index i is the weekday numbered i. */
  const DaysOfWeek: seq<string> :=
    ["Domingo", "Segunda-feira", "Terça-feira", "Quarta-feira", "Quinta-feira", "Sexta-feira", "Sábado"]

  /** Day of the week of a date, 0 for Sunday through 6 for Saturday. */
  function Weekday(d: Day): (w: int)
    ensures 0 <= w < |DaysOfWeek|
  {
    (d + 4) % 7
  }

  /** Comparing the ISO texts of two stamps orders them chronologically. */
  lemma StampLeIsChronological(a: Stamp, b: Stamp)
    ensures StampLe(a, b) <==> Minutes(a) <= Minutes(b)
  {
  }

  /** Counting k days on from the Sunday of d's week lands on weekday k. */
  lemma WeekdayFromSunday(d: Day, k: int)
    requires 0 <= k < 7
    ensures Weekday(d - Weekday(d) + k) == k
  {
  }
}
