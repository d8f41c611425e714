/**
  * The two rules of the study-data hooks that compute something: the streak
  * update run after a study session is logged, and the per-day minute totals
  * of the weekly chart. Calendar days are day numbers (see `Calendar`); the
  * clock's "today" is a parameter.
  */
module StudyData {
  import opened Text
  import opened Calendar

  /** A row of the streaks table; `lastActivity` is None when the column is null. */
  datatype StreakRow = StreakRow(current: int, longest: int, lastActivity: Option<int>)

  function Max(a: int, b: int): int {
    if a >= b then a else b
  }

  /** The row written back when a study session is logged on day `today`. */
  function StreakAfter(row: StreakRow, today: int): (r: StreakRow)
    ensures r.lastActivity == Some(today)
    ensures r.longest >= r.current && r.longest >= row.longest
    ensures r.longest == row.longest || r.longest == r.current
  {
    var newStreak :=
      if row.lastActivity == Some(today - 1) then row.current + 1
      else if row.lastActivity != Some(today) then 1
      else row.current;
    StreakRow(newStreak, Max(newStreak, row.longest), Some(today))
  }

  /** The streak row of one user, as stored; None when the user has no row. */
  class StreakTable {
    var row: Option<StreakRow>

    constructor (initial: Option<StreakRow>)
      ensures row == initial
    {
      row := initial;
    }

    /** The update that follows logging a study session on day `today`. */
    method LogStudyDay(today: int)
      modifies this
      ensures old(row).None? ==> row == old(row)
      ensures old(row).Some? ==> row == Some(StreakAfter(old(row).value, today))
    {
      if row.Some? {
        var streak := row.value;
        var yesterday := today - 1;
        var newStreak := streak.current;
        if streak.lastActivity == Some(yesterday) {
          newStreak := newStreak + 1;
        } else if streak.lastActivity != Some(today) {
          newStreak := 1;
        }
        var newLongest := if newStreak >= streak.longest then newStreak else streak.longest;
        row := Some(StreakRow(newStreak, newLongest, Some(today)));
      }
    }
  }

  /** Activity yesterday extends the streak by one. */
  lemma StreakContinues(row: StreakRow, today: int)
    requires row.lastActivity == Some(today - 1)
    ensures StreakAfter(row, today).current == row.current + 1
  {
  }

  /** Activity earlier today leaves the streak as it was, so logging twice in a day changes nothing more. */
  lemma StreakSameDay(row: StreakRow, today: int)
    requires row.lastActivity == Some(today)
    ensures StreakAfter(row, today).current == row.current
    ensures StreakAfter(StreakAfter(row, today), today) == StreakAfter(row, today)
  {
  }

  /** Any other last activity (older, later or none) restarts the streak at one. */
  lemma StreakRestarts(row: StreakRow, today: int)
    requires row.lastActivity != Some(today - 1) && row.lastActivity != Some(today)
    ensures StreakAfter(row, today).current == 1
  {
  }

  /** The longest streak never decreases, bounds the current one, and the last activity becomes today. */
  lemma StreakRecordInvariant(row: StreakRow, today: int)
    ensures StreakAfter(row, today).longest >= row.longest
    ensures StreakAfter(row, today).longest >= StreakAfter(row, today).current
    ensures StreakAfter(row, today).longest == row.longest || StreakAfter(row, today).longest == StreakAfter(row, today).current
    ensures StreakAfter(row, today).lastActivity == Some(today)
  {
  }

  /** The row after logging on each of `days` in turn. */
  function LogDays(row: StreakRow, days: seq<int>): StreakRow
    decreases |days|
  {
    if days == [] then row else LogDays(StreakAfter(row, days[0]), days[1..])
  }

  /** Logging on `k` consecutive days right after the last activity grows the streak by `k`. */
  lemma {:induction false} ConsecutiveDaysGrowStreak(row: StreakRow, k: nat)
    requires row.lastActivity.Some?
    ensures var first := row.lastActivity.value + 1;
            var r := LogDays(row, seq(k, i => first + i));
            r.current == (if k == 0 then row.current else row.current + k) &&
            r.longest == (if k == 0 then row.longest else Max(row.current + k, row.longest)) &&
            r.lastActivity == Some(row.lastActivity.value + k)
    decreases k
  {
    if k > 0 {
      var first := row.lastActivity.value + 1;
      var days := seq(k, i => first + i);
      var next := StreakAfter(row, first);
      assert next.current == row.current + 1 && next.lastActivity == Some(first);
      var rest := seq(k - 1, i => next.lastActivity.value + 1 + i);
      assert days[1..] == rest;
      ConsecutiveDaysGrowStreak(next, k - 1);
    }
  }

  /** Whatever days are logged, the longest streak never drops and stays at least the current one. */
  lemma {:induction false} LongestStaysOnTop(row: StreakRow, days: seq<int>)
    requires row.longest >= row.current
    ensures LogDays(row, days).longest >= LogDays(row, days).current
    ensures LogDays(row, days).longest >= row.longest
    decreases |days|
  {
    if days != [] {
      StreakRecordInvariant(row, days[0]);
      LongestStaysOnTop(StreakAfter(row, days[0]), days[1..]);
    }
  }

  // ---------------------------------------------------------------------------
  // Weekly minutes

  /** A logged session: the day of its `completed_at` and its length in minutes. */
  datatype LoggedSession = LoggedSession(completedDay: int, durationMinutes: int)

  datatype DayStat = DayStat(dayLabel: string, date: int, minutes: int)

  const WeekDayLabels: seq<string> := ["Sun", "Mon", "Tue", "Wed", "Thu", "Fri", "Sat"]

  /** Total minutes of the sessions completed on `day` (the filter and reduce of one entry). */
  function MinutesOn(sessions: seq<LoggedSession>, day: int): int {
    if sessions == [] then 0
    else (if sessions[0].completedDay == day then sessions[0].durationMinutes else 0) + MinutesOn(sessions[1..], day)
  }

  /** Total minutes of the sessions completed on days `from` to `to - 1`. */
  function MinutesBetween(sessions: seq<LoggedSession>, from: int, to: int): int {
    if sessions == [] then 0
    else (if from <= sessions[0].completedDay < to then sessions[0].durationMinutes else 0) + MinutesBetween(sessions[1..], from, to)
  }

  /**
    * The sessions `useStudySessions(days)` fetches: those completed after the
    * day `days` days back (the boundary day itself depends on the time of day
    * and is left out).
    */
  function Recent(sessions: seq<LoggedSession>, today: int, days: nat): (r: seq<LoggedSession>)
    ensures |r| <= |sessions|
    ensures forall j :: 0 <= j < |r| ==> r[j] in sessions && r[j].completedDay > today - days
  {
    if sessions == [] then []
    else (if sessions[0].completedDay > today - days then [sessions[0]] else []) + Recent(sessions[1..], today, days)
  }

  /** Fetching the recent sessions loses nothing on the days inside the window. */
  lemma {:induction false} RecentKeepsDay(sessions: seq<LoggedSession>, today: int, days: nat, day: int)
    requires day > today - days
    ensures MinutesOn(Recent(sessions, today, days), day) == MinutesOn(sessions, day)
  {
    if sessions != [] {
      var head := if sessions[0].completedDay > today - days then [sessions[0]] else [];
      MinutesOnAppend(head, Recent(sessions[1..], today, days), day);
      RecentKeepsDay(sessions[1..], today, days, day);
    }
  }

  /** On a Saturday the "Sun" entry is dated twelve days back and always shows 0. */
  lemma SaturdaySunEntryEmpty(sessions: seq<LoggedSession>, today: int)
    requires Weekday(today) == 6
    ensures var stats := WeeklyStatsAsWritten(sessions, today);
            stats[0].dayLabel == "Sun" && stats[0].date == today - 12 && stats[0].minutes == 0
  {
    WeeklyStatsAsWrittenMinutes(sessions, today);
  }

  /** Nothing completed on a day outside the window is fetched. */
  lemma {:induction false} RecentDropsDay(sessions: seq<LoggedSession>, today: int, days: nat, day: int)
    requires day <= today - days
    ensures MinutesOn(Recent(sessions, today, days), day) == 0
  {
    if sessions != [] {
      var head := if sessions[0].completedDay > today - days then [sessions[0]] else [];
      MinutesOnAppend(head, Recent(sessions[1..], today, days), day);
      RecentDropsDay(sessions[1..], today, days, day);
    }
  }

  /** The date of entry `index` as the code computes it: `getDate() - (6 - index) - getDay() + index`. */
  function StatDateAsWritten(today: int, index: int): int {
    today - (6 - index) - Weekday(today) + index
  }

  /**
    * `useWeeklyStats` as written: it sums the sessions of the seven-day
    * fetch, on the dates the code computes.
    */
  function WeeklyStatsAsWritten(sessions: seq<LoggedSession>, today: int): (stats: seq<DayStat>)
    ensures |stats| == 7
    ensures forall i :: 0 <= i < 7 ==> stats[i].dayLabel == WeekDayLabels[i]
    ensures forall i :: 0 <= i < 6 ==> stats[i + 1].date == stats[i].date + 2
    ensures stats[6].date == today + 6 - Weekday(today)
  {
    var fetched := Recent(sessions, today, 7);
    seq(7, i requires 0 <= i < 7 => DayStat(WeekDayLabels[i], StatDateAsWritten(today, i), MinutesOn(fetched, StatDateAsWritten(today, i))))
  }

  /**
    * As written, an entry dated inside the fetch window shows that day's
    * minutes, and an entry dated a week or more back shows 0 whatever was
    * logged on it.
    */
  lemma WeeklyStatsAsWrittenMinutes(sessions: seq<LoggedSession>, today: int)
    ensures var stats := WeeklyStatsAsWritten(sessions, today);
            forall i :: 0 <= i < 7 ==>
              stats[i].minutes == (if stats[i].date > today - 7 then MinutesOn(sessions, stats[i].date) else 0)
  {
    var stats := WeeklyStatsAsWritten(sessions, today);
    forall i | 0 <= i < 7
      ensures stats[i].minutes == (if stats[i].date > today - 7 then MinutesOn(sessions, stats[i].date) else 0)
    {
      if stats[i].date > today - 7 {
        RecentKeepsDay(sessions, today, 7, stats[i].date);
      } else {
        RecentDropsDay(sessions, today, 7, stats[i].date);
      }
    }
  }

  /** The date of entry `index` that its label names: that weekday of the current Sunday-to-Saturday week. */
  function StatDate(today: int, index: int): int {
    today - Weekday(today) + index
  }

  /** `useWeeklyStats` with each entry dated on the weekday its label names. */
  function WeeklyStats(sessions: seq<LoggedSession>, today: int): (stats: seq<DayStat>)
    ensures |stats| == 7
    ensures forall i :: 0 <= i < 7 ==> stats[i].dayLabel == WeekDayLabels[i] && Weekday(stats[i].date) == i
    ensures forall i :: 0 <= i < 6 ==> stats[i + 1].date == stats[i].date + 1
    ensures stats[0].date <= today <= stats[6].date
    ensures forall i :: 0 <= i < 7 ==> stats[i].minutes == MinutesOn(sessions, stats[i].date)
  {
    seq(7, i requires 0 <= i < 7 => DayStat(WeekDayLabels[i], StatDate(today, i), MinutesOn(sessions, StatDate(today, i))))
  }

  /** Each day of the current week lies in the seven-day fetch window, so the chart of the fetched sessions is the chart of all sessions. */
  lemma WeekFetched(sessions: seq<LoggedSession>, today: int)
    ensures WeeklyStats(Recent(sessions, today, 7), today) == WeeklyStats(sessions, today)
  {
    forall i | 0 <= i < 7
      ensures WeeklyStats(Recent(sessions, today, 7), today)[i] == WeeklyStats(sessions, today)[i]
    {
      RecentKeepsDay(sessions, today, 7, StatDate(today, i));
    }
  }

  /** As written, every entry lies two days after the previous one and "Sun" is dated on a Monday. */
  lemma WeeklyStatsDatesAsWritten(sessions: seq<LoggedSession>, today: int)
    ensures var stats := WeeklyStatsAsWritten(sessions, today);
            |stats| == 7 && stats[0].dayLabel == "Sun" && Weekday(stats[0].date) == 1 &&
            forall i :: 0 <= i < 6 ==> stats[i + 1].date == stats[i].date + 2
  {
    var w := Weekday(today);
    assert (StatDateAsWritten(today, 0) + 4) % 7 == 1 by {
      assert StatDateAsWritten(today, 0) + 4 == (today + 4 - w) - 6;
      assert (today + 4 - w) % 7 == 0;
    }
  }

  lemma {:induction false} MinutesOnAppend(a: seq<LoggedSession>, b: seq<LoggedSession>, day: int)
    ensures MinutesOn(a + b, day) == MinutesOn(a, day) + MinutesOn(b, day)
  {
    if a != [] {
      assert (a + b)[1..] == a[1..] + b;
      MinutesOnAppend(a[1..], b, day);
    } else {
      assert a + b == b;
    }
  }

  /** Splitting a range of days at `mid` splits its minutes. */
  lemma {:induction false} MinutesBetweenSplit(sessions: seq<LoggedSession>, from: int, mid: int, to: int)
    requires from <= mid <= to
    ensures MinutesBetween(sessions, from, to) == MinutesBetween(sessions, from, mid) + MinutesBetween(sessions, mid, to)
  {
    if sessions != [] {
      MinutesBetweenSplit(sessions[1..], from, mid, to);
    }
  }

  /** A one-day range holds the minutes of that day. */
  lemma {:induction false} MinutesBetweenOneDay(sessions: seq<LoggedSession>, day: int)
    ensures MinutesBetween(sessions, day, day + 1) == MinutesOn(sessions, day)
  {
    if sessions != [] {
      MinutesBetweenOneDay(sessions[1..], day);
    }
  }

  /** The seven entries together hold every minute logged in the current week, and nothing else. */
  lemma WeekTotal(sessions: seq<LoggedSession>, today: int)
    ensures var stats := WeeklyStats(sessions, today);
            stats[0].minutes + stats[1].minutes + stats[2].minutes + stats[3].minutes +
            stats[4].minutes + stats[5].minutes + stats[6].minutes
            == MinutesBetween(sessions, stats[0].date, stats[0].date + 7)
  {
    var stats := WeeklyStats(sessions, today);
    var start := stats[0].date;
    DaysAddUp(sessions, start, 7);
    assert stats[1].date == start + 1 && stats[2].date == start + 2 && stats[3].date == start + 3;
    assert stats[4].date == start + 4 && stats[5].date == start + 5 && stats[6].date == start + 6;
    assert SumFirst(sessions, start, 1) == stats[0].minutes;
    assert SumFirst(sessions, start, 2) == SumFirst(sessions, start, 1) + stats[1].minutes;
    assert SumFirst(sessions, start, 3) == SumFirst(sessions, start, 2) + stats[2].minutes;
    assert SumFirst(sessions, start, 4) == SumFirst(sessions, start, 3) + stats[3].minutes;
    assert SumFirst(sessions, start, 5) == SumFirst(sessions, start, 4) + stats[4].minutes;
    assert SumFirst(sessions, start, 6) == SumFirst(sessions, start, 5) + stats[5].minutes;
    assert SumFirst(sessions, start, 7) == SumFirst(sessions, start, 6) + stats[6].minutes;
  }

  /** The minutes of `k` consecutive days are the sum of the minutes of each day. */
  lemma {:induction false} DaysAddUp(sessions: seq<LoggedSession>, start: int, k: nat)
    ensures MinutesBetween(sessions, start, start + k) == SumFirst(sessions, start, k)
    decreases k
  {
    if k == 0 {
      MinutesBetweenEmpty(sessions, start);
    } else {
      DaysAddUp(sessions, start, k - 1);
      MinutesBetweenSplit(sessions, start, start + k - 1, start + k);
      MinutesBetweenOneDay(sessions, start + k - 1);
    }
  }

  /** Minutes of the first `k` days from `start`, day by day. */
  function SumFirst(sessions: seq<LoggedSession>, start: int, k: nat): int {
    if k == 0 then 0 else SumFirst(sessions, start, k - 1) + MinutesOn(sessions, start + k - 1)
  }

  lemma {:induction false} MinutesBetweenEmpty(sessions: seq<LoggedSession>, day: int)
    ensures MinutesBetween(sessions, day, day) == 0
  {
    if sessions != [] {
      MinutesBetweenEmpty(sessions[1..], day);
    }
  }
}
