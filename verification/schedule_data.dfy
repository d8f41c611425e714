/**
  * The stored weekly schedule as the dashboard reads it. The schedule is JSON
  * written by the language-model back end, so every part may be missing: the
  * whole value may be an array of days or an object whose `weeklySchedule`
  * field is missing, a list, or something else; a day may lack its name or
  * its session list.
  */
module ScheduleData {
  import opened Text

  /** One session; `kind` is the JSON field `type` ("study", "revision", "break" or "buffer"). */
  datatype Session = Session(startTime: string, endTime: string, subject: string, topic: string, kind: string, color: string)

  datatype DaySchedule = DaySchedule(day: Option<string>, sessions: Option<seq<Session>>)

  /** The `weeklySchedule` field of an object-shaped schedule. */
  datatype WeeklyField = Missing | DayList(days: seq<DaySchedule>) | NotAList

  /** The plan's `schedule` column: null, an array of days, or an object. */
  datatype StoredSchedule = NoSchedule | ScheduleArray(days: seq<DaySchedule>) | ScheduleObject(weeklySchedule: WeeklyField)
}
