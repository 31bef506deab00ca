/** The settings view: each control builds a new profile that differs from the
    current one in exactly one field. */
module Settings {
  import opened PlannerTypes

  /** A profile whose rest day names one of the week's days. */
  predicate ValidProfile(p: Profile) {
    0 <= p.restDay < |DaysOfWeek|
  }

  /** Typing in the name field. */
  function Rename(p: Profile, name: string): (q: Profile)
    ensures q.name == name && q.restDay == p.restDay
    ensures ValidProfile(p) ==> ValidProfile(q)
  {
    p.(name := name)
  }

  /** Clicking the button of the day at `index` of the week's day list. */
  function SelectRestDay(p: Profile, index: int): (q: Profile)
    requires 0 <= index < |DaysOfWeek|
    ensures q.restDay == index && q.name == p.name
    ensures ValidProfile(q)
  {
    p.(restDay := index)
  }

  /** One rest-day button: its day name and whether it shows as selected. */
  datatype DayButton = DayButton(dayName: string, selected: bool)

  /** The row of rest-day buttons, one per entry of the week's day list. */
  function DayButtons(p: Profile): (buttons: seq<DayButton>)
    ensures |buttons| == |DaysOfWeek|
    ensures forall i :: 0 <= i < |buttons| ==>
      buttons[i].dayName == DaysOfWeek[i] && (buttons[i].selected <==> i == p.restDay)
  {
    seq(|DaysOfWeek|, i requires 0 <= i < |DaysOfWeek| => DayButton(DaysOfWeek[i], p.restDay == i))
  }

  /** Indices of the buttons shown as selected. */
  function SelectedIndices(buttons: seq<DayButton>): set<int> {
    set i | 0 <= i < |buttons| && buttons[i].selected
  }

  /** For a valid profile exactly one button is selected, the rest day's. */
  lemma ExactlyOneSelected(p: Profile)
    requires ValidProfile(p)
    ensures SelectedIndices(DayButtons(p)) == {p.restDay}
    ensures |SelectedIndices(DayButtons(p))| == 1
  {
  }

  /** A rename followed by a rest-day choice keeps the profile valid, and the
      two changes commute. */
  lemma SettingsKeepProfileValid(p: Profile, name: string, index: int)
    requires ValidProfile(p) && 0 <= index < |DaysOfWeek|
    ensures ValidProfile(Rename(p, name))
    ensures ValidProfile(SelectRestDay(Rename(p, name), index))
    ensures Rename(SelectRestDay(p, index), name) == SelectRestDay(Rename(p, name), index)
  {
  }

  /** One use of a settings control: typing a name or clicking a day button. */
  datatype SettingsEdit = NameEdit(name: string) | DayEdit(index: int)

  /** Edits the controls can produce: a day button only ever passes the index
      of an entry of the week's day list. */
  predicate FromControls(edits: seq<SettingsEdit>) {
    forall k :: 0 <= k < |edits| && edits[k].DayEdit? ==> 0 <= edits[k].index < |DaysOfWeek|
  }

  /** The profile after the edits, applied in order. */
  function ApplyEdits(p: Profile, edits: seq<SettingsEdit>): Profile
    requires FromControls(edits)
    decreases |edits|
  {
    if edits == [] then p
    else
      var q := match edits[0]
        case NameEdit(name) => Rename(p, name)
        case DayEdit(index) => SelectRestDay(p, index);
      ApplyEdits(q, edits[1..])
  }

  /** Every sequence of settings changes keeps the rest day within the week;
      one without a day click keeps the rest day and one without typing keeps
      the name. */
  lemma {:induction false} EditsKeepProfileValid(p: Profile, edits: seq<SettingsEdit>)
    requires ValidProfile(p) && FromControls(edits)
    ensures ValidProfile(ApplyEdits(p, edits))
    ensures (forall k :: 0 <= k < |edits| ==> edits[k].NameEdit?) ==> ApplyEdits(p, edits).restDay == p.restDay
    ensures (forall k :: 0 <= k < |edits| ==> edits[k].DayEdit?) ==> ApplyEdits(p, edits).name == p.name
    decreases |edits|
  {
    if edits != [] {
      var q := match edits[0]
        case NameEdit(name) => Rename(p, name)
        case DayEdit(index) => SelectRestDay(p, index);
      assert FromControls(edits[1..]);
      EditsKeepProfileValid(q, edits[1..]);
    }
  }
}
