/** The application's state cells: the task list and the user profile, with
    the data they start from. The task list only ever grows at its end. */
module App {
  import opened PlannerTypes
  import Settings

  /** The three sample tasks the planner starts with: distinct ids, each
      starting and ending today and lasting a positive time. */
  function InitialTasks(today: Day): (ts: seq<Task>)
    ensures |ts| == 3
    ensures forall i, j :: 0 <= i < j < |ts| ==> ts[i].id != ts[j].id
    ensures forall t :: t in ts ==> t.startTime.day == t.endTime.day == today && Duration(t) > 0
  {
    [ Task("1", "Preparo Sermão: Romanos", Ministry, SermonPrep,
           Stamp(today, 9 * 60), Stamp(today, 11 * 60), true,
           Some("Focar na vida no Espírito."), Some("Romanos 8:1-17")),
      Task("2", "Devocional Matinal", PersonalGrowth, Devotional,
           Stamp(today, 6 * 60), Stamp(today, 7 * 60), true, None, None),
      Task("3", "Jantar com Família", Family, Leisure,
           Stamp(today, 19 * 60), Stamp(today, 21 * 60), false, None, None) ]
  }

  /** The profile the planner starts with: rest day Monday (index 1). */
  function InitialProfile(): (p: Profile)
    ensures 0 <= p.restDay < |DaysOfWeek| && DaysOfWeek[p.restDay] == "Segunda-feira"
  {
    Profile("Pastor Alex", 1)
  }

  class AppState {
    var tasks: seq<Task>
    var profile: Profile

    /** The profile's rest day always names a day of the week. */
    ghost predicate Valid()
      reads this
    {
      Settings.ValidProfile(profile)
    }

    constructor (today: Day)
      ensures tasks == InitialTasks(today) && profile == InitialProfile()
      ensures Valid()
    {
      tasks := InitialTasks(today);
      profile := InitialProfile();
    }

    /** Saving a task appends it: it never fails, checks no id for
        uniqueness, and leaves every earlier task where it was. */
    method SaveTask(newTask: Task)
      modifies this`tasks
      ensures tasks == old(tasks) + [newTask]
      ensures |tasks| == |old(tasks)| + 1 && tasks[|tasks| - 1] == newTask
      ensures forall i :: 0 <= i < |old(tasks)| ==> tasks[i] == old(tasks)[i]
    {
      tasks := tasks + [newTask];
    }

    /** The settings view hands back a whole new profile record. */
    method UpdateProfile(p: Profile)
      requires Settings.ValidProfile(p)
      modifies this`profile
      ensures profile == p && Valid()
    {
      profile := p;
    }
  }
}
