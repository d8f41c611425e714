/**
  * Calendar arithmetic on day numbers: days since 1970-01-01, which was a
  * Thursday. This stands for `Date.getDay()`, date-fns' `startOfWeek` with
  * Monday as first day, and `addDays`, in the local time zone.
  */
module Calendar {

  /** `getDay()`: 0 for Sunday up to 6 for Saturday. */
  function Weekday(day: int): (w: int)
    ensures 0 <= w < 7
  {
    (day + 4) % 7
  }

  /** `startOfWeek(day, { weekStartsOn: 1 })`: the Monday on or before `day`. */
  function StartOfWeekMonday(day: int): int {
    day - (Weekday(day) + 6) % 7
  }

  /** The English weekday names, indexed by `getDay()`. */
  function DayNames(): (names: seq<string>)
    ensures |names| == 7
    ensures forall i, j :: 0 <= i < j < 7 ==> names[i] != names[j]
  {
    ["Sunday", "Monday", "Tuesday", "Wednesday", "Thursday", "Friday", "Saturday"]
  }

  /** Consecutive day numbers run through the weekdays in order. */
  lemma WeekdayNext(day: int)
    ensures Weekday(day + 1) == (Weekday(day) + 1) % 7
    ensures Weekday(day + 7) == Weekday(day)
  {
    var q, r := (day + 4) / 7, (day + 4) % 7;
    assert day + 4 == 7 * q + r;
    if r < 6 {
      assert day + 1 + 4 == 7 * q + (r + 1);
    } else {
      assert day + 1 + 4 == 7 * (q + 1) + 0;
    }
    assert day + 7 + 4 == 7 * (q + 1) + r;
  }

  /** The start of the week is a Monday at most six days back. */
  lemma StartOfWeekIsMonday(day: int)
    ensures Weekday(StartOfWeekMonday(day)) == 1
    ensures StartOfWeekMonday(day) <= day < StartOfWeekMonday(day) + 7
  {
  }

  /** Every day of a week has that week's Monday as its start. */
  lemma SameWeek(day: int, other: int)
    requires StartOfWeekMonday(day) <= other < StartOfWeekMonday(day) + 7
    ensures StartOfWeekMonday(other) == StartOfWeekMonday(day)
  {
    var start := StartOfWeekMonday(day);
    var k := other - start;
    StartOfWeekIsMonday(day);
    var q := (start + 4) / 7;
    assert start + 4 == 7 * q + 1;
    if k < 6 {
      DivideBySeven(other + 4, q, 1 + k);
      DivideBySeven(k + 7, 1, k);
    } else {
      DivideBySeven(other + 4, q + 1, 0);
    }
  }

  /** The remainder by seven is the one of any split into sevens and a rest below seven. */
  lemma DivideBySeven(n: int, q: int, r: int)
    requires n == 7 * q + r && 0 <= r < 7
    ensures n % 7 == r
  {
  }
}
