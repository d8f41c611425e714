/**
  * The dashboard's weekly calendar: seven columns from a Monday, each showing
  * the non-break sessions of that weekday from the stored schedule. The week
  * shown is state moved by the previous/next/this-week buttons; the rest is
  * computed from the schedule.
  */
module WeeklyCalendar {
  import opened Text
  import opened ScheduleData
  import opened Calendar

  /** The colour families of `SUBJECT_COLORS`. */
  datatype Palette = Blue | Purple | Green | Emerald | Orange | Red | Amber | Teal | Indigo | Cyan | Slate | Primary

  /** The colour family `SUBJECT_COLORS` gives a subject, if it names the subject. */
  function ListedPalette(subject: string): Option<Palette> {
    if subject == "Mathematics" then Some(Blue)
    else if subject == "Physics" then Some(Purple)
    else if subject == "Chemistry" then Some(Green)
    else if subject == "Biology" then Some(Emerald)
    else if subject == "English" then Some(Orange)
    else if subject == "Hindi" then Some(Red)
    else if subject == "History" then Some(Amber)
    else if subject == "Geography" then Some(Teal)
    else if subject == "Science" then Some(Red)
    else if subject == "Computer Science" then Some(Indigo)
    else if subject == "Economics" then Some(Cyan)
    else if subject == "Buffer" then Some(Amber)
    else if subject == "Break" then Some(Slate)
    else if subject == "default" then Some(Primary)
    else None
  }

  /** The style classes of each colour family. */
  function Classes(p: Palette): string {
    match p
    case Blue => "bg-blue-500/20 border-blue-500/30 text-blue-700 dark:text-blue-300"
    case Purple => "bg-purple-500/20 border-purple-500/30 text-purple-700 dark:text-purple-300"
    case Green => "bg-green-500/20 border-green-500/30 text-green-700 dark:text-green-300"
    case Emerald => "bg-emerald-500/20 border-emerald-500/30 text-emerald-700 dark:text-emerald-300"
    case Orange => "bg-orange-500/20 border-orange-500/30 text-orange-700 dark:text-orange-300"
    case Red => "bg-red-500/20 border-red-500/30 text-red-700 dark:text-red-300"
    case Amber => "bg-amber-500/20 border-amber-500/30 text-amber-700 dark:text-amber-300"
    case Teal => "bg-teal-500/20 border-teal-500/30 text-teal-700 dark:text-teal-300"
    case Indigo => "bg-indigo-500/20 border-indigo-500/30 text-indigo-700 dark:text-indigo-300"
    case Cyan => "bg-cyan-500/20 border-cyan-500/30 text-cyan-700 dark:text-cyan-300"
    case Slate => "bg-slate-400/20 border-slate-400/30 text-slate-600 dark:text-slate-400"
    case Primary => DefaultColor
  }

  const DefaultColor: string := "bg-primary/20 border-primary/30 text-primary"

  /** `getSubjectColor`: the listed classes, or the default ones. */
  function GetSubjectColor(subject: string): (color: string)
    ensures ListedPalette(subject).Some? ==> color == Classes(ListedPalette(subject).value)
    ensures ListedPalette(subject).None? ==> color == DefaultColor
  {
    match ListedPalette(subject)
    case Some(p) => Classes(p)
    case None => DefaultColor
  }

  /** Only the "default" entry uses the default classes; every other listed subject has its own family's. */
  lemma DefaultOnlyForDefault(p: Palette)
    ensures Classes(p) == DefaultColor <==> p == Primary
  {
    match p
    case Blue => assert Classes(Blue) != DefaultColor;
    case Purple => assert Classes(Purple) != DefaultColor;
    case Green => assert Classes(Green) != DefaultColor;
    case Emerald => assert Classes(Emerald) != DefaultColor;
    case Orange => assert Classes(Orange) != DefaultColor;
    case Red => assert Classes(Red) != DefaultColor;
    case Amber => assert Classes(Amber) != DefaultColor;
    case Teal => assert Classes(Teal) != DefaultColor;
    case Indigo => assert Classes(Indigo) != DefaultColor;
    case Cyan => assert Classes(Cyan) != DefaultColor;
    case Slate => assert Classes(Slate) != DefaultColor;
    case Primary =>
  }

  /** Listed subjects get their own classes; any other subject gets the default. */
  lemma SubjectColors(subject: string)
    ensures subject in {"Mathematics", "Physics", "Chemistry", "Biology", "English", "Hindi", "History",
                        "Geography", "Science", "Computer Science", "Economics", "Buffer", "Break"}
            ==> GetSubjectColor(subject) != DefaultColor
    ensures subject !in {"Mathematics", "Physics", "Chemistry", "Biology", "English", "Hindi", "History",
                         "Geography", "Science", "Computer Science", "Economics", "Buffer", "Break"}
            ==> GetSubjectColor(subject) == DefaultColor
  {
    match ListedPalette(subject)
    case Some(p) => DefaultOnlyForDefault(p);
    case None =>
  }

  /**
    * The day list the calendar works on: the array itself, else the object's
    * `weeklySchedule` field, else the empty list; None when the field holds
    * something other than a list (which `getSessionsForDay` then ignores).
    */
  function NormaliseSchedule(schedule: StoredSchedule): (r: Option<seq<DaySchedule>>)
    ensures schedule.ScheduleArray? ==> r == Some(schedule.days)
    ensures schedule.ScheduleObject? && schedule.weeklySchedule.DayList? ==> r == Some(schedule.weeklySchedule.days)
    ensures schedule.NoSchedule? || (schedule.ScheduleObject? && schedule.weeklySchedule.Missing?) ==> r == Some([])
    ensures r.None? <==> schedule.ScheduleObject? && schedule.weeklySchedule.NotAList?
  {
    match schedule
    case NoSchedule => Some([])
    case ScheduleArray(days) => Some(days)
    case ScheduleObject(Missing) => Some([])
    case ScheduleObject(DayList(days)) => Some(days)
    case ScheduleObject(NotAList) => None
  }

  /** The first day whose name equals `lowerName` after lower-casing. */
  function FindDayIgnoringCase(days: seq<DaySchedule>, lowerName: string): (r: Option<DaySchedule>)
    ensures r.None? <==> forall i :: 0 <= i < |days| ==> !(days[i].day.Some? && ToLower(days[i].day.value) == lowerName)
    ensures r.Some? ==> exists i :: 0 <= i < |days| && days[i] == r.value &&
                                    r.value.day.Some? && ToLower(r.value.day.value) == lowerName &&
                                    forall j :: 0 <= j < i ==> !(days[j].day.Some? && ToLower(days[j].day.value) == lowerName)
  {
    if days == [] then None
    else if days[0].day.Some? && ToLower(days[0].day.value) == lowerName then Some(days[0])
    else
      var r := FindDayIgnoringCase(days[1..], lowerName);
      assert forall i :: 0 <= i < |days[1..]| ==> days[1..][i] == days[i + 1];
      r
  }

  /** `getSessionsForDay`: the sessions of the first day matching the name in any case, else none. */
  function GetSessionsForDay(weekly: Option<seq<DaySchedule>>, dayName: string): (r: seq<Session>)
    ensures weekly.None? ==> r == []
    ensures r != [] ==> weekly.Some?
    ensures r != [] ==> exists i :: 0 <= i < |weekly.value| && weekly.value[i].day.Some? &&
                                    ToLower(weekly.value[i].day.value) == ToLower(dayName) && weekly.value[i].sessions == Some(r)
  {
    if weekly.None? then []
    else
      match FindDayIgnoringCase(weekly.value, ToLower(dayName))
      case None => []
      case Some(d) => if d.sessions.Some? then d.sessions.value else []
  }

  /** Names that differ only in case find the same sessions. */
  lemma DayLookupIgnoresCase(weekly: Option<seq<DaySchedule>>, a: string, b: string)
    requires ToLower(a) == ToLower(b)
    ensures GetSessionsForDay(weekly, a) == GetSessionsForDay(weekly, b)
  {
  }

  /** The lookup returns the sessions of the first matching day, or none when no day matches. */
  lemma DayLookupFirstMatch(days: seq<DaySchedule>, dayName: string, i: int)
    requires 0 <= i < |days| && days[i].day.Some? && ToLower(days[i].day.value) == ToLower(dayName)
    requires forall j :: 0 <= j < i ==> !(days[j].day.Some? && ToLower(days[j].day.value) == ToLower(dayName))
    ensures GetSessionsForDay(Some(days), dayName) == if days[i].sessions.Some? then days[i].sessions.value else []
  {
    var r := FindDayIgnoringCase(days, ToLower(dayName));
    var k :| 0 <= k < |days| && days[k] == r.value && r.value.day.Some? && ToLower(r.value.day.value) == ToLower(dayName) &&
             forall j :: 0 <= j < k ==> !(days[j].day.Some? && ToLower(days[j].day.value) == ToLower(dayName));
    assert k == i;
  }

  /** A lower-case "monday" entry is found for the "Monday" column. */
  lemma LowerCaseDayIsFound(sessions: seq<Session>)
    ensures GetSessionsForDay(Some([DaySchedule(Some("monday"), Some(sessions))]), "Monday") == sessions
  {
    assert ToLower("Monday") == "monday" by {
      assert ToLower("Monday")[0] == LowerChar('M') == 'm';
    }
    assert ToLower("monday") == "monday";
  }

  // ---------------------------------------------------------------------------
  // One column

  predicate IsBreak(s: Session) {
    s.kind == "break"
  }

  /** `sessions.filter(s => s.type !== "break")`. */
  function NonBreak(sessions: seq<Session>): (r: seq<Session>)
    ensures |r| <= |sessions|
    ensures forall i :: 0 <= i < |r| ==> !IsBreak(r[i]) && r[i] in sessions
  {
    if sessions == [] then []
    else (if IsBreak(sessions[0]) then [] else [sessions[0]]) + NonBreak(sessions[1..])
  }

  /** The cards of a column: `.slice(0, 4)` of the non-break sessions. */
  function Displayed(sessions: seq<Session>): (r: seq<Session>)
    ensures |r| <= 4 && r <= NonBreak(sessions)
    ensures |NonBreak(sessions)| <= 4 ==> r == NonBreak(sessions)
  {
    var kept := NonBreak(sessions);
    if |kept| <= 4 then kept else kept[..4]
  }

  /** The "+N more" note: N when more than four non-break sessions exist, else nothing. */
  function MoreCount(sessions: seq<Session>): (r: Option<nat>)
    ensures r.Some? <==> |NonBreak(sessions)| > 4
    ensures r.Some? ==> r.value >= 1 && |Displayed(sessions)| + r.value == |NonBreak(sessions)|
  {
    var n := |NonBreak(sessions)|;
    if n > 4 then Some(n - 4) else None
  }

  /** "Rest day" is written exactly when the day's list is empty. */
  function IsRestDay(sessions: seq<Session>): (rest: bool)
    ensures rest <==> sessions == []
    ensures rest ==> Displayed(sessions) == [] && MoreCount(sessions).None?
  {
    |sessions| == 0
  }

  /** At most four cards, none a break, in their original order; the note counts exactly the rest. */
  lemma ColumnContents(sessions: seq<Session>)
    ensures |Displayed(sessions)| <= 4
    ensures forall i :: 0 <= i < |Displayed(sessions)| ==> !IsBreak(Displayed(sessions)[i])
    ensures Displayed(sessions) <= NonBreak(sessions)
    ensures MoreCount(sessions).Some? <==> |NonBreak(sessions)| > 4
    ensures |Displayed(sessions)| + (if MoreCount(sessions).Some? then MoreCount(sessions).value else 0) == |NonBreak(sessions)|
  {
  }

  /** Non-break sessions are kept in order: filtering distributes over concatenation. */
  lemma {:induction false} NonBreakAppend(a: seq<Session>, b: seq<Session>)
    ensures NonBreak(a + b) == NonBreak(a) + NonBreak(b)
  {
    if a == [] {
      assert a + b == b;
    } else {
      assert (a + b)[1..] == a[1..] + b;
      NonBreakAppend(a[1..], b);
    }
  }

  /** Every non-break session of the day is kept by the filter. */
  lemma {:induction false} NonBreakKeepsStudy(sessions: seq<Session>, s: Session)
    requires s in sessions && !IsBreak(s)
    ensures s in NonBreak(sessions)
  {
    if sessions[0] != s {
      NonBreakKeepsStudy(sessions[1..], s);
    }
  }

  /** A day of nothing but breaks is not a rest day, yet its column shows no card and no note. */
  lemma OnlyBreaksShowsNothing(sessions: seq<Session>)
    requires |sessions| > 0 && forall i :: 0 <= i < |sessions| ==> IsBreak(sessions[i])
    ensures !IsRestDay(sessions) && Displayed(sessions) == [] && MoreCount(sessions).None?
  {
  }

  // ---------------------------------------------------------------------------
  // The week shown

  /** `weekDays`: the seven days from the week's start. */
  function WeekDays(weekStart: int): (days: seq<int>)
    ensures |days| == 7 && days[0] == weekStart
    ensures forall i :: 0 <= i < 6 ==> days[i + 1] == days[i] + 1
  {
    seq(7, i => weekStart + i)
  }

  /** Starting from the Monday of today's week, the columns run Monday to Sunday and contain today. */
  lemma ThisWeekColumns(today: int)
    ensures var days := WeekDays(StartOfWeekMonday(today));
            (forall i :: 0 <= i < 7 ==> Weekday(days[i]) == (i + 1) % 7) &&
            exists i :: 0 <= i < 7 && days[i] == today
  {
    var start := StartOfWeekMonday(today);
    StartOfWeekIsMonday(today);
    var days := WeekDays(start);
    forall i | 0 <= i < 7
      ensures Weekday(days[i]) == (i + 1) % 7
    {
      assert days[i] + 4 == (start + 4) + i;
    }
    assert days[today - start] == today;
  }

  class WeekView {
    var weekStart: int

    /** The calendar opens on the week containing `today`. */
    constructor (today: int)
      ensures weekStart == StartOfWeekMonday(today)
    {
      weekStart := StartOfWeekMonday(today);
    }

    method GoToPreviousWeek()
      modifies this
      ensures weekStart == old(weekStart) - 7
    {
      weekStart := weekStart - 7;
    }

    method GoToNextWeek()
      modifies this
      ensures weekStart == old(weekStart) + 7
    {
      weekStart := weekStart + 7;
    }

    method GoToThisWeek(today: int)
      modifies this
      ensures weekStart == StartOfWeekMonday(today)
    {
      weekStart := StartOfWeekMonday(today);
    }
  }

  /** Moving by whole weeks keeps the start on a Monday, and previous undoes next. */
  lemma ShiftKeepsMonday(weekStart: int, weeks: int)
    requires Weekday(weekStart) == 1
    ensures Weekday(weekStart + 7 * weeks) == 1
    ensures StartOfWeekMonday(weekStart + 7 * weeks) == weekStart + 7 * weeks
  {
    assert (weekStart + 7 * weeks + 4) % 7 == (weekStart + 4) % 7;
  }
}
