/**
 * The recurring-days checkboxes of the ride form
 * (src/components/SchedulingOptions.tsx): the form field `recurringDays` is
 * an optional list of weekday ids, one checkbox per weekday.
 */
module SchedulingOptions {
  import opened Wrappers
  import opened Sequences

  const DaysOfWeek: seq<string> := ["monday", "tuesday", "wednesday", "thursday", "friday", "saturday", "sunday"]

  /** `checked`: the field holds a list and the list contains the day. */
  function IsChecked(value: Option<seq<string>>, day: string): (b: bool)
    ensures b <==> value.Some? && exists i :: 0 <= i < |value.value| && value.value[i] == day
  {
    value.Some? && day in value.value
  }

  /** `onCheckedChange`: append the day when checked, drop every copy of it when unchecked; no list counts as empty. */
  function OnCheckedChange(value: Option<seq<string>>, day: string, checked: bool): seq<string> {
    var currentDays := value.GetOr([]);
    if checked then currentDays + [day]
    else Filter(currentDays, (d: string) => d != day)
  }

  /** Checking appends the day at the end, after the current days unchanged, with no de-duplication. */
  lemma CheckAppends(value: Option<seq<string>>, day: string)
    ensures var r := OnCheckedChange(value, day, true);
      && |r| == |value.GetOr([])| + 1 && r[..|r| - 1] == value.GetOr([]) && r[|r| - 1] == day
      && IsChecked(Some(r), day)
  {
    var r := OnCheckedChange(value, day, true);
    assert r[|r| - 1] == day;
  }

  /** Unchecking leaves the box unchecked and every other day's copies as they were. */
  lemma UncheckRemovesAll(value: Option<seq<string>>, day: string)
    ensures var r := OnCheckedChange(value, day, false);
      && !IsChecked(Some(r), day)
      && multiset(r)[day] == 0
      && forall other :: other != day ==> multiset(r)[other] == multiset(value.GetOr([]))[other]
  {
    var r := OnCheckedChange(value, day, false);
    forall other ensures multiset(r)[other] == if other != day then multiset(value.GetOr([]))[other] else 0 {
      FilterCounts(value.GetOr([]), (d: string) => d != day, other);
    }
  }

  /** Unchecking a day that is not there changes nothing (and an absent list becomes the empty list). */
  lemma UncheckAbsent(value: Option<seq<string>>, day: string)
    requires !IsChecked(value, day)
    ensures OnCheckedChange(value, day, false) == value.GetOr([])
  {
    FilterKeepsAll(value.GetOr([]), (d: string) => d != day);
  }

  /** Checking and then unchecking a day that was not selected restores the list. */
  lemma CheckThenUncheck(days: seq<string>, day: string)
    requires !IsChecked(Some(days), day)
    ensures OnCheckedChange(Some(OnCheckedChange(Some(days), day, true)), day, false) == days
  {
    var p := (d: string) => d != day;
    FilterAppend(days, [day], p);
    FilterKeepsAll(days, p);
    assert Filter([day], p) == [];
  }

  /** Each checkbox's id is one of the seven weekdays, all distinct. */
  lemma WeekdaysDistinct()
    ensures |DaysOfWeek| == 7
    ensures forall i, j :: 0 <= i < j < |DaysOfWeek| ==> DaysOfWeek[i] != DaysOfWeek[j]
  {
  }
}
