/** The balance report: per-category minutes and their grand total, summed
    over the task list with non-positive durations skipped, then the share of
    each category and the hours-and-minutes split shown for a total. */
module WeeklyReport {
  import opened PlannerTypes

  /** What one task adds to the totals: its duration when positive. */
  function Contribution(t: Task): (m: int)
    ensures m >= 0
    ensures Duration(t) > 0 ==> m == Duration(t)
    ensures Duration(t) <= 0 ==> m == 0
  {
    if Duration(t) > 0 then Duration(t) else 0
  }

  /** Minutes of category `c` over `tasks`, read front to back. */
  function CategoryTotal(tasks: seq<Task>, c: Category): (total: int)
    ensures total >= 0
    decreases |tasks|
  {
    if tasks == [] then 0
    else
      var last := tasks[|tasks| - 1];
      CategoryTotal(tasks[..|tasks| - 1], c) + (if last.category == c then Contribution(last) else 0)
  }

  /** Minutes over all categories. */
  function GrandTotal(tasks: seq<Task>): (total: int)
    ensures total >= 0
    decreases |tasks|
  {
    if tasks == [] then 0
    else GrandTotal(tasks[..|tasks| - 1]) + Contribution(tasks[|tasks| - 1])
  }

  /** One entry of the chart data. */
  datatype Slice = Slice(category: Category, value: int)

  datatype Stats = Stats(data: seq<Slice>, grandTotal: int, totalMinutes: map<Category, int>)

  /** The report's reduction: one pass over the tasks, adding each positive
      duration to its category's total and to the grand total. */
  method ComputeStats(tasks: seq<Task>) returns (stats: Stats)
    ensures stats.totalMinutes.Keys == {Ministry, Family, PersonalGrowth}
    ensures forall c :: c in stats.totalMinutes ==> stats.totalMinutes[c] == CategoryTotal(tasks, c)
    ensures stats.grandTotal == GrandTotal(tasks)
    ensures stats.data == [Slice(Ministry, CategoryTotal(tasks, Ministry)),
                           Slice(Family, CategoryTotal(tasks, Family)),
                           Slice(PersonalGrowth, CategoryTotal(tasks, PersonalGrowth))]
  {
    var totalMinutes := map[Ministry := 0, Family := 0, PersonalGrowth := 0];
    var grandTotal := 0;
    var i := 0;
    assert tasks[..0] == [];
    while i < |tasks|
      invariant 0 <= i <= |tasks|
      invariant totalMinutes.Keys == {Ministry, Family, PersonalGrowth}
      invariant forall c :: c in totalMinutes ==> totalMinutes[c] == CategoryTotal(tasks[..i], c)
      invariant grandTotal == GrandTotal(tasks[..i])
    {
      var task := tasks[i];
      var duration := Duration(task);
      if duration > 0 {
        assert task.category.Ministry? || task.category.Family? || task.category.PersonalGrowth?;
        totalMinutes := totalMinutes[task.category := totalMinutes[task.category] + duration];
        grandTotal := grandTotal + duration;
      }
      assert tasks[..i + 1][..i] == tasks[..i];
      i := i + 1;
    }
    assert tasks[..i] == tasks;
    var data := [Slice(Ministry, totalMinutes[Ministry]),
                 Slice(Family, totalMinutes[Family]),
                 Slice(PersonalGrowth, totalMinutes[PersonalGrowth])];
    stats := Stats(data, grandTotal, totalMinutes);
  }

  /** The three category totals always add up to the grand total. */
  lemma {:induction false} TotalsSumToGrand(tasks: seq<Task>)
    ensures CategoryTotal(tasks, Ministry) + CategoryTotal(tasks, Family)
            + CategoryTotal(tasks, PersonalGrowth) == GrandTotal(tasks)
    decreases |tasks|
  {
    if tasks != [] {
      TotalsSumToGrand(tasks[..|tasks| - 1]);
    }
  }

  /** Appending a task changes its own category's total and the grand total
      by its contribution and leaves the other categories as they were. */
  lemma AppendTask(tasks: seq<Task>, t: Task, c: Category)
    ensures CategoryTotal(tasks + [t], c)
            == CategoryTotal(tasks, c) + (if t.category == c then Contribution(t) else 0)
    ensures GrandTotal(tasks + [t]) == GrandTotal(tasks) + Contribution(t)
  {
  }

  /** A task of non-positive duration changes no total at all. */
  lemma NonPositiveIgnored(tasks: seq<Task>, t: Task)
    requires Duration(t) <= 0
    ensures forall c :: CategoryTotal(tasks + [t], c) == CategoryTotal(tasks, c)
    ensures GrandTotal(tasks + [t]) == GrandTotal(tasks)
  {
  }

  /** A task of positive duration d raises its category and the grand total
      by d and no other category. */
  lemma PositiveAdded(tasks: seq<Task>, t: Task)
    requires Duration(t) > 0
    ensures CategoryTotal(tasks + [t], t.category) == CategoryTotal(tasks, t.category) + Duration(t)
    ensures forall c :: c != t.category ==> CategoryTotal(tasks + [t], c) == CategoryTotal(tasks, c)
    ensures GrandTotal(tasks + [t]) == GrandTotal(tasks) + Duration(t)
  {
  }

  /** Totals over two lists laid end to end add up. */
  lemma {:induction false} CategoryTotalConcat(a: seq<Task>, b: seq<Task>, c: Category)
    ensures CategoryTotal(a + b, c) == CategoryTotal(a, c) + CategoryTotal(b, c)
    decreases |b|
  {
    if b != [] {
      var b' := b[..|b| - 1];
      var last := b[|b| - 1];
      assert a + b == (a + b') + [last];
      assert b == b' + [last];
      AppendTask(a + b', last, c);
      AppendTask(b', last, c);
      CategoryTotalConcat(a, b', c);
    } else {
      assert a + b == a;
    }
  }

  /** Taking the task at position k out of the list takes its contribution
      out of the total. */
  lemma RemoveAt(b: seq<Task>, k: int, c: Category)
    requires 0 <= k < |b|
    ensures CategoryTotal(b, c) == CategoryTotal(b[..k] + b[k + 1..], c)
                                   + (if b[k].category == c then Contribution(b[k]) else 0)
  {
    assert b == (b[..k] + [b[k]]) + b[k + 1..];
    CategoryTotalConcat(b[..k] + [b[k]], b[k + 1..], c);
    CategoryTotalConcat(b[..k], b[k + 1..], c);
    AppendTask(b[..k], b[k], c);
  }

  /** The report does not depend on the order of the task list: any
      rearrangement gives the same totals. */
  lemma {:induction false} CategoryTotalIgnoresOrder(a: seq<Task>, b: seq<Task>, c: Category)
    requires multiset(a) == multiset(b)
    ensures CategoryTotal(a, c) == CategoryTotal(b, c)
    decreases |a|
  {
    if a == [] {
      assert |b| == |multiset(b)| == 0;
    } else {
      var last := a[|a| - 1];
      var a' := a[..|a| - 1];
      assert a == a' + [last];
      assert last in multiset(b);
      var k :| 0 <= k < |b| && b[k] == last;
      var b' := b[..k] + b[k + 1..];
      assert b == b[..k] + [last] + b[k + 1..];
      assert multiset(a') == multiset(a) - multiset{last};
      assert multiset(b') == multiset(b) - multiset{last};
      CategoryTotalIgnoresOrder(a', b', c);
      AppendTask(a', last, c);
      RemoveAt(b, k, c);
    }
  }

  /** The same for every category and for the grand total. */
  lemma TotalsIgnoreOrder(a: seq<Task>, b: seq<Task>)
    requires multiset(a) == multiset(b)
    ensures forall c :: CategoryTotal(a, c) == CategoryTotal(b, c)
    ensures GrandTotal(a) == GrandTotal(b)
  {
    forall c ensures CategoryTotal(a, c) == CategoryTotal(b, c) {
      CategoryTotalIgnoresOrder(a, b, c);
    }
    TotalsSumToGrand(a);
    TotalsSumToGrand(b);
  }

  /** A category's share of the grand total, in percent; 0 when there is
      nothing to share. The shown value rounds this to one decimal. */
  function Percentage(total: int, grandTotal: int): (pct: real)
    ensures grandTotal <= 0 ==> pct == 0.0
    ensures grandTotal > 0 ==> pct * grandTotal as real == total as real * 100.0
    ensures 0 <= total <= grandTotal && grandTotal > 0 ==> 0.0 <= pct <= 100.0
  {
    if grandTotal > 0 then (total as real / grandTotal as real) * 100.0 else 0.0
  }

  /** The three shares lie between 0 and 100 and, with anything to report,
      add up to exactly 100; with nothing to report they are all 0. */
  lemma PercentagesOfReport(tasks: seq<Task>)
    ensures forall c :: 0.0 <= Percentage(CategoryTotal(tasks, c), GrandTotal(tasks)) <= 100.0
    ensures GrandTotal(tasks) == 0 ==>
      forall c :: Percentage(CategoryTotal(tasks, c), GrandTotal(tasks)) == 0.0
    ensures GrandTotal(tasks) > 0 ==>
      Percentage(CategoryTotal(tasks, Ministry), GrandTotal(tasks))
      + Percentage(CategoryTotal(tasks, Family), GrandTotal(tasks))
      + Percentage(CategoryTotal(tasks, PersonalGrowth), GrandTotal(tasks)) == 100.0
  {
    TotalsSumToGrand(tasks);
    var g := GrandTotal(tasks);
    if g > 0 {
      SharesAddUp(CategoryTotal(tasks, Ministry), CategoryTotal(tasks, Family), CategoryTotal(tasks, PersonalGrowth), g);
    }
  }

  /** Shares of parts that make up the whole add up to 100. */
  lemma SharesAddUp(m: int, f: int, p: int, g: int)
    requires m + f + p == g && g > 0
    ensures Percentage(m, g) + Percentage(f, g) + Percentage(p, g) == 100.0
  {
    var whole := g as real;
    assert m as real / whole + f as real / whole + p as real / whole == (m + f + p) as real / whole;
    assert (m + f + p) as real / whole == 1.0;
  }

  /** Splitting a number of minutes as the report shows it: JavaScript's
      Math.floor of the quotient and of the (truncating) remainder by 60. */
  function FormatHours(minutes: int): (hm: (int, int))
    ensures minutes >= 0 ==> 0 <= hm.1 < 60 && hm.0 * 60 + hm.1 == minutes
    ensures minutes < 0 ==> -60 < hm.1 <= 0 && (hm.0 * 60 + hm.1 == minutes <==> minutes % 60 == 0)
  {
    var h := minutes / 60;
    var m := if minutes >= 0 then minutes % 60 else -((-minutes) % 60);
    (h, m)
  }
}
