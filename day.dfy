/** The weekday tag of a date (src/tasks/utils/day.ts). */
module DayUtil {
  import opened Menu

  /** `Date.getDay()` order: index 0 is Sunday, 6 is Saturday. */
  const Week: seq<Day> := [Sun, Mon, Tue, Wed, Thu, Fri, Sat]

  /** The position of a tag in `Week`. */
  function DayIndex(d: Day): (i: nat)
    ensures i < 7
  {
    match d
    case Sun => 0
    case Mon => 1
    case Tue => 2
    case Wed => 3
    case Thu => 4
    case Fri => 5
    case Sat => 6
  }

  /**
   * `getDayOfWeek`: the tag for a weekday index.  `Date.getDay()` only
   * returns 0 to 6, so that is all the lookup is asked for.
   */
  function DayOfWeek(index: nat): (d: Day)
    requires index < 7
    ensures DayIndex(d) == index
    ensures index == 0 <==> d == Sun
    ensures index == 6 <==> d == Sat
  {
    Week[index]
  }

  /** Every tag is the lookup of its own index, so the lookup is onto. */
  lemma DayOfWeekOfIndex(d: Day)
    ensures DayOfWeek(DayIndex(d)) == d
  {
  }

  /** Distinct indices give distinct tags. */
  lemma DayOfWeekInjective(i: nat, j: nat)
    requires i < 7 && j < 7 && DayOfWeek(i) == DayOfWeek(j)
    ensures i == j
  {
    assert DayIndex(DayOfWeek(i)) == i && DayIndex(DayOfWeek(j)) == j;
  }

  /** Indices 1 to 5 are Monday to Friday, in order. */
  lemma WorkdaysInOrder()
    ensures [DayOfWeek(1), DayOfWeek(2), DayOfWeek(3), DayOfWeek(4), DayOfWeek(5)] == [Mon, Tue, Wed, Thu, Fri]
  {
  }
}
