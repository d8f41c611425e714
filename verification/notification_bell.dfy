/**
  * The notification bell: how long ago a notification arrived, the unread
  * badge, which header actions are offered, and the icon of each type.
  * The elapsed time is the difference of two clock readings in
  * milliseconds, passed in.
  */
module NotificationBell {
  import opened Text

  datatype NotificationType = Reminder | Achievement | Streak | Tip

  /** A lucide icon and its colour class. */
  datatype Icon = Icon(glyph: string, colorClass: string)

  /** `getNotificationIcon`: one icon per notification type. */
  function GetNotificationIcon(kind: NotificationType): (icon: Icon)
    ensures icon.glyph in {"Clock", "Target", "Flame", "CheckCircle"}
    ensures icon.glyph == "Clock" <==> kind == Reminder
  {
    match kind
    case Reminder => Icon("Clock", "text-primary")
    case Achievement => Icon("Target", "text-green-500")
    case Streak => Icon("Flame", "text-orange-500")
    case Tip => Icon("CheckCircle", "text-blue-500")
  }

  /** Every type has its own icon. */
  lemma IconsDistinct(a: NotificationType, b: NotificationType)
    ensures GetNotificationIcon(a) == GetNotificationIcon(b) <==> a == b
  {
  }

  const MillisPerMinute: int := 1000 * 60
  const MillisPerHour: int := 1000 * 60 * 60
  const MillisPerDay: int := 1000 * 60 * 60 * 24

  /** The four buckets of `formatTime`. */
  datatype Age = JustNow | MinutesAgo(minutes: int) | HoursAgo(hours: int) | DaysAgo(days: int)

  /** The bucket of an elapsed time of `diff` milliseconds (`Math.floor` of each quotient). */
  function Classify(diff: int): (age: Age)
    ensures age == JustNow <==> diff < MillisPerMinute
    ensures age.MinutesAgo? ==> 1 <= age.minutes <= 59
    ensures age.HoursAgo? ==> 1 <= age.hours <= 23
    ensures age.DaysAgo? ==> age.days >= 1
  {
    var minutes := diff / MillisPerMinute;
    var hours := diff / MillisPerHour;
    var days := diff / MillisPerDay;
    if minutes < 1 then JustNow
    else if minutes < 60 then MinutesAgo(minutes)
    else if hours < 24 then HoursAgo(hours)
    else DaysAgo(days)
  }

  /** `formatTime`: the text of the bucket. */
  function FormatTime(diff: int): (text: string)
    ensures diff < MillisPerMinute ==> text == "Just now"
    ensures diff >= MillisPerMinute ==> |text| >= 6 && text[|text| - 4..] == " ago"
  {
    match Classify(diff)
    case JustNow => "Just now"
    case MinutesAgo(m) => NatToString(m) + "m ago"
    case HoursAgo(h) => NatToString(h) + "h ago"
    case DaysAgo(d) => NatToString(d) + "d ago"
  }

  /** Under a minute, including a time in the future, reads "Just now". */
  lemma JustNowBucket(diff: int)
    ensures Classify(diff) == JustNow <==> diff < MillisPerMinute
  {
  }

  /** From one to 59 whole minutes reads "{m}m ago". */
  lemma MinutesBucket(diff: int)
    ensures Classify(diff).MinutesAgo? <==> MillisPerMinute <= diff < MillisPerHour
    ensures Classify(diff).MinutesAgo? ==> 1 <= Classify(diff).minutes <= 59 && Classify(diff).minutes == diff / MillisPerMinute
  {
  }

  /** From an hour to under a day reads "{h}h ago" with h in 1..23. */
  lemma HoursBucket(diff: int)
    ensures Classify(diff).HoursAgo? <==> MillisPerHour <= diff < MillisPerDay
    ensures Classify(diff).HoursAgo? ==> 1 <= Classify(diff).hours <= 23 && Classify(diff).hours == diff / MillisPerHour
  {
    if MillisPerHour <= diff {
      assert diff / MillisPerMinute >= 60;
    }
    if diff < MillisPerHour {
      assert diff / MillisPerMinute < 60;
    }
  }

  /** A day or more reads "{d}d ago" with d at least 1. */
  lemma DaysBucket(diff: int)
    ensures Classify(diff).DaysAgo? <==> diff >= MillisPerDay
    ensures Classify(diff).DaysAgo? ==> Classify(diff).days >= 1 && Classify(diff).days == diff / MillisPerDay
  {
    if MillisPerHour <= diff {
      assert diff / MillisPerMinute >= 60;
    }
    if diff < MillisPerHour {
      assert diff / MillisPerMinute < 60;
    }
  }

  /** The text names the bucket: its last five characters are the unit and "ago", or it is "Just now". */
  lemma FormatTimeText(diff: int)
    ensures var t := FormatTime(diff);
            (Classify(diff) == JustNow ==> t == "Just now") &&
            (Classify(diff).MinutesAgo? ==> t == NatToString(Classify(diff).minutes) + "m ago") &&
            (Classify(diff).HoursAgo? ==> t == NatToString(Classify(diff).hours) + "h ago") &&
            (Classify(diff).DaysAgo? ==> t == NatToString(Classify(diff).days) + "d ago")
  {
    MinutesBucket(diff);
    HoursBucket(diff);
    DaysBucket(diff);
  }

  /** The unread badge: none without unread notifications, "9+" above nine, else the count. */
  function Badge(unreadCount: int): (badge: Option<string>)
    ensures badge.Some? <==> unreadCount > 0
    ensures badge.Some? ==> 1 <= |badge.value| <= 2
  {
    if unreadCount > 0 then
      Some(if unreadCount > 9 then "9+" else NatToString(unreadCount))
    else None
  }

  /** The badge shows iff something is unread; it reads "9+" iff more than nine, and the exact single digit otherwise. */
  lemma BadgeRule(unreadCount: int)
    ensures Badge(unreadCount).Some? <==> unreadCount > 0
    ensures Badge(unreadCount).Some? ==> (Badge(unreadCount).value == "9+" <==> unreadCount > 9)
    ensures 0 < unreadCount <= 9 ==> |Badge(unreadCount).value| == 1 && DigitsValue(Badge(unreadCount).value) == unreadCount
  {
    if 0 < unreadCount <= 9 {
      NatToStringRoundTrip(unreadCount);
      assert NatToString(unreadCount) != "9+";
    }
  }

  /** "Mark all read" is offered with at least one notification and one unread. */
  function MarkAllOffered(notificationCount: int, unreadCount: int): (offered: bool)
    ensures offered ==> ClearAllOffered(notificationCount) && Badge(unreadCount).Some?
  {
    notificationCount > 0 && unreadCount > 0
  }

  /** "Clear all" is offered whenever there is a notification. */
  predicate ClearAllOffered(notificationCount: int) {
    notificationCount > 0
  }

  /** Marking all read is never offered without clearing all being offered too. */
  lemma MarkAllNeedsClearAll(notificationCount: int, unreadCount: int)
    ensures MarkAllOffered(notificationCount, unreadCount) ==> ClearAllOffered(notificationCount)
    ensures MarkAllOffered(notificationCount, unreadCount) <==> ClearAllOffered(notificationCount) && Badge(unreadCount).Some?
  {
  }
}
