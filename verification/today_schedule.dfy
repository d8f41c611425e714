/**
  * The dashboard's "Today's Schedule" card: today's entry of the stored
  * schedule, the session running now (found by comparing zero-padded
  * `HH:MM` strings), and the past/current flag of each listed session.
  * The weekday and the clock reading are parameters.
  */
module TodaySchedule {
  import opened Text
  import opened ScheduleData
  import Calendar

  /** `getTodayDay`: the English name of weekday `weekday` (0 = Sunday). */
  function GetTodayDay(weekday: int): (name: string)
    requires 0 <= weekday < 7
    ensures forall other :: 0 <= other < 7 && other != weekday ==> Calendar.DayNames()[other] != name
  {
    Calendar.DayNames()[weekday]
  }

  /** Each weekday has its own name, starting with Sunday and ending with Saturday. */
  lemma TodayDayNames(i: int, j: int)
    requires 0 <= i < 7 && 0 <= j < 7
    ensures GetTodayDay(i) == GetTodayDay(j) <==> i == j
    ensures GetTodayDay(0) == "Sunday" && GetTodayDay(1) == "Monday" && GetTodayDay(6) == "Saturday"
  {
  }

  /** The outcome of `schedule?.weeklySchedule?.find(...)`; calling `find` on a value that is not a list throws. */
  datatype DayLookup = FoundDay(entry: DaySchedule) | NoDay | LookupThrows

  /** `find` with exact, case-sensitive comparison of the day name. */
  function FindDayExact(days: seq<DaySchedule>, name: string): (r: Option<DaySchedule>)
    ensures r.None? <==> forall i :: 0 <= i < |days| ==> days[i].day != Some(name)
    ensures r.Some? ==> exists i :: 0 <= i < |days| && days[i] == r.value && days[i].day == Some(name) &&
                                    forall j :: 0 <= j < i ==> days[j].day != Some(name)
  {
    if days == [] then None
    else if days[0].day == Some(name) then Some(days[0])
    else
      var r := FindDayExact(days[1..], name);
      assert forall i :: 0 <= i < |days[1..]| ==> days[1..][i] == days[i + 1];
      r
  }

  /** Today's entry of the stored schedule; only the object form with a day list is searched. */
  function TodayEntry(schedule: StoredSchedule, today: string): (r: DayLookup)
    ensures r.FoundDay? ==> schedule.ScheduleObject? && schedule.weeklySchedule.DayList? && r.entry.day == Some(today)
    ensures r == LookupThrows <==> schedule.ScheduleObject? && schedule.weeklySchedule.NotAList?
    ensures schedule.NoSchedule? || schedule.ScheduleArray? || (schedule.ScheduleObject? && schedule.weeklySchedule.Missing?)
            ==> r == NoDay
    ensures schedule.ScheduleObject? && schedule.weeklySchedule.DayList? ==>
              var days := schedule.weeklySchedule.days;
              (r.FoundDay? <==> exists i :: 0 <= i < |days| && days[i].day == Some(today)) &&
              (r.FoundDay? ==> exists i :: 0 <= i < |days| && days[i] == r.entry &&
                                           forall j :: 0 <= j < i ==> days[j].day != Some(today))
  {
    match schedule
    case NoSchedule => NoDay
    case ScheduleArray(_) => NoDay
    case ScheduleObject(Missing) => NoDay
    case ScheduleObject(NotAList) => LookupThrows
    case ScheduleObject(DayList(days)) =>
      match FindDayExact(days, today)
      case None => NoDay
      case Some(d) => FoundDay(d)
  }

  /** `todaySchedule?.sessions`. */
  function TodaySessions(lookup: DayLookup): Option<seq<Session>> {
    if lookup.FoundDay? then lookup.entry.sessions else None
  }

  /**
    * The card shows "No sessions scheduled" when today's session list is
    * missing or empty; when the lookup throws, the card is not drawn at all.
    */
  predicate ShowsNoSessions(lookup: DayLookup) {
    !lookup.LookupThrows? && (TodaySessions(lookup).None? || TodaySessions(lookup).value == [])
  }

  /** A schedule stored as a bare array of days never shows sessions here, whatever it holds. */
  lemma ArrayScheduleShowsNothing(days: seq<DaySchedule>, today: string)
    ensures ShowsNoSessions(TodayEntry(ScheduleArray(days), today))
  {
  }

  /** The day name must match exactly: a lower-case "monday" entry is not Monday's. */
  lemma DayMatchIsCaseSensitive(sessions: seq<Session>)
    ensures TodayEntry(ScheduleObject(DayList([DaySchedule(Some("monday"), Some(sessions))])), "Monday") == NoDay
  {
    assert "monday" != "Monday" by {
      assert "monday"[0] != "Monday"[0];
    }
  }

  // ---------------------------------------------------------------------------
  // Clock strings

  /** The current time as the card writes it: hours and minutes, each `padStart(2, "0")`. */
  function ClockString(hours: nat, minutes: nat): string {
    TwoDigits(hours) + ":" + TwoDigits(minutes)
  }

  /** A well-formed `HH:MM` string. */
  predicate IsClock(s: string) {
    |s| == 5 && s[2] == ':' && AllDigits(s[..2]) && AllDigits(s[3..]) &&
    DigitsValue(s[..2]) < 24 && DigitsValue(s[3..]) < 60
  }

  /** Minutes since midnight of an `HH:MM` string. */
  function ClockMinutes(s: string): int
    requires IsClock(s)
  {
    DigitsValue(s[..2]) * 60 + DigitsValue(s[3..])
  }

  /** Every reading of the clock is written as a well-formed `HH:MM` string that denotes it. */
  lemma ClockStringDenotes(hours: nat, minutes: nat)
    requires hours < 24 && minutes < 60
    ensures IsClock(ClockString(hours, minutes))
    ensures ClockMinutes(ClockString(hours, minutes)) == hours * 60 + minutes
  {
    var s := ClockString(hours, minutes);
    TwoDigitsValue(hours);
    TwoDigitsValue(minutes);
    assert s[..2] == TwoDigits(hours);
    assert s[3..] == TwoDigits(minutes);
  }

  /** On `HH:MM` strings the string order is the order of the times. */
  lemma ClockOrder(a: string, b: string)
    requires IsClock(a) && IsClock(b)
    ensures LexLess(a, b) <==> ClockMinutes(a) < ClockMinutes(b)
    ensures a == b <==> ClockMinutes(a) == ClockMinutes(b)
  {
    assert a == a[..2] + a[2..] && b == b[..2] + b[2..];
    LexLessAppend(a[..2], a[2..], b[..2], b[2..]);
    TwoDigitOrder(a[..2], b[..2]);
    TwoDigitOrder(a[3..], b[3..]);
    assert a[2..] == [':'] + a[3..] && b[2..] == [':'] + b[3..];
    LexLessAppend([':'], a[3..], [':'], b[3..]);
    assert a == a[..2] + [':'] + a[3..] && b == b[..2] + [':'] + b[3..];
    MinutesCompare(DigitsValue(a[..2]), DigitsValue(a[3..]), DigitsValue(b[..2]), DigitsValue(b[3..]));
  }

  /** Hours and minutes compare like the minute counts they make up. */
  lemma MinutesCompare(ha: int, ma: int, hb: int, mb: int)
    requires 0 <= ma < 60 && 0 <= mb < 60
    ensures ha * 60 + ma < hb * 60 + mb <==> ha < hb || (ha == hb && ma < mb)
    ensures ha * 60 + ma == hb * 60 + mb <==> ha == hb && ma == mb
  {
    if ha < hb {
      assert ha * 60 + ma < (ha + 1) * 60 <= hb * 60 + mb;
    }
    if hb < ha {
      assert hb * 60 + mb < (hb + 1) * 60 <= ha * 60 + ma;
    }
  }

  // ---------------------------------------------------------------------------
  // The session running now

  /** `session.startTime <= currentTime && currentTime < session.endTime`, as string comparisons. */
  predicate InSession(session: Session, now: string) {
    LexLessEq(session.startTime, now) && LexLess(now, session.endTime)
  }

  /** `findIndex` of the first running session from index `from` on, or -1. */
  function FindRunning(sessions: seq<Session>, now: string, from: nat): (r: int)
    requires from <= |sessions|
    ensures r == -1 <==> forall i :: from <= i < |sessions| ==> !InSession(sessions[i], now)
    ensures r != -1 ==> from <= r < |sessions| && InSession(sessions[r], now) &&
                        forall j :: from <= j < r ==> !InSession(sessions[j], now)
    decreases |sessions| - from
  {
    if from == |sessions| then -1
    else if InSession(sessions[from], now) then from
    else FindRunning(sessions, now, from + 1)
  }

  function CurrentSessionIndex(sessions: seq<Session>, now: string): int {
    FindRunning(sessions, now, 0)
  }

  /** `getCurrentSession`: null without a session list, else the `findIndex` result. */
  function GetCurrentSession(lookup: DayLookup, now: string): (r: Option<int>)
    ensures r.None? <==> TodaySessions(lookup).None?
    ensures r.Some? ==> -1 <= r.value < |TodaySessions(lookup).value|
  {
    match TodaySessions(lookup)
    case None => None
    case Some(sessions) => Some(CurrentSessionIndex(sessions, now))
  }

  // ---------------------------------------------------------------------------
  // Past and current flags

  /** `isPast` as written: `i < (currentSessionIndex ?? sessions.length)`. */
  function IsPast(i: int, current: Option<int>, count: int): (past: bool)
    ensures current == Some(-1) && i >= 0 ==> !past
    ensures current.Some? && 0 <= current.value ==> (past <==> i < current.value)
  {
    i < (if current.Some? then current.value else count)
  }

  /** `isCurrent`: `i === currentSessionIndex`. */
  function IsCurrent(i: int, current: Option<int>): (now: bool)
    ensures forall count :: now ==> !IsPast(i, current, count)
  {
    current == Some(i)
  }

  /** No session is both past and current; those before the current one are past, those after it are not. */
  lemma PastAndCurrentFlags(i: int, k: int, count: int)
    requires 0 <= i < count && 0 <= k < count
    ensures !(IsPast(i, Some(k), count) && IsCurrent(i, Some(k)))
    ensures IsPast(i, Some(k), count) <==> i < k
    ensures IsCurrent(i, Some(k)) <==> i == k
  {
  }

  /** As written, when no session is running (-1, which `??` keeps), no session is marked past. */
  lemma NoRunningSessionNothingPast(i: int, count: int)
    requires 0 <= i < count
    ensures !IsPast(i, Some(-1), count) && !IsCurrent(i, Some(-1))
  {
  }

  /** Concretely: at 23:00 a session that ran from 09:00 to 10:00 has ended but is not marked past. */
  lemma EndedSessionNotMarkedPast()
    ensures var sessions := [Session("09:00", "10:00", "Mathematics", "Algebra", "study", "")];
            CurrentSessionIndex(sessions, "23:00") == -1 &&
            LexLess(sessions[0].endTime, "23:00") &&
            !IsPast(0, Some(CurrentSessionIndex(sessions, "23:00")), |sessions|)
  {
    var sessions := [Session("09:00", "10:00", "Mathematics", "Algebra", "study", "")];
    assert LexLess("10:00", "23:00") by {
      assert "10:00"[0] < "23:00"[0];
    }
    assert !LexLess("23:00", "10:00") by {
      assert "10:00"[0] < "23:00"[0];
    }
    assert !InSession(sessions[0], "23:00");
  }

  /** A session is past once its end time is at or before now. */
  function IsPastFixed(session: Session, now: string): (past: bool)
    ensures past ==> !InSession(session, now)
  {
    LexLessAsymmetric(session.endTime, now);
    LexLessEq(session.endTime, now)
  }

  /** Sessions with well-formed times, each starting before it ends, in order and without overlap. */
  predicate WellFormedDay(sessions: seq<Session>) {
    (forall i :: 0 <= i < |sessions| ==>
       IsClock(sessions[i].startTime) && IsClock(sessions[i].endTime) &&
       ClockMinutes(sessions[i].startTime) < ClockMinutes(sessions[i].endTime)) &&
    (forall i, j :: 0 <= i < j < |sessions| ==>
       IsClock(sessions[i].endTime) && IsClock(sessions[j].startTime) &&
       ClockMinutes(sessions[i].endTime) <= ClockMinutes(sessions[j].startTime))
  }

  /** On a well-formed day with a running session, the corrected flag agrees with the code as written. */
  lemma PastFixedAgreesWhileRunning(sessions: seq<Session>, now: string, i: int)
    requires WellFormedDay(sessions) && IsClock(now)
    requires CurrentSessionIndex(sessions, now) >= 0
    requires 0 <= i < |sessions|
    ensures IsPastFixed(sessions[i], now) <==> IsPast(i, Some(CurrentSessionIndex(sessions, now)), |sessions|)
  {
    var k := CurrentSessionIndex(sessions, now);
    var t := ClockMinutes(now);
    ClockOrder(sessions[k].startTime, now);
    ClockOrder(now, sessions[k].endTime);
    ClockOrder(sessions[i].endTime, now);
    assert ClockMinutes(sessions[k].startTime) <= t < ClockMinutes(sessions[k].endTime);
    if i < k {
      assert ClockMinutes(sessions[i].endTime) <= ClockMinutes(sessions[k].startTime);
    } else if i > k {
      assert ClockMinutes(sessions[k].endTime) <= ClockMinutes(sessions[i].startTime);
    }
  }

  /** On a well-formed day the corrected past sessions always form a prefix, running session or not. */
  lemma PastFixedIsPrefix(sessions: seq<Session>, now: string, i: int, j: int)
    requires WellFormedDay(sessions) && IsClock(now)
    requires 0 <= j < i < |sessions| && IsPastFixed(sessions[i], now)
    ensures IsPastFixed(sessions[j], now)
  {
    ClockOrder(sessions[i].endTime, now);
    ClockOrder(sessions[j].endTime, now);
    assert ClockMinutes(sessions[j].endTime) <= ClockMinutes(sessions[i].startTime);
  }
}
