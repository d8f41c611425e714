# Study planner core, modelled in Dafny

This project models the client-side logic of a study-planner web
application. A student picks a class level, a stream and subjects with
priorities. They set their daily hours and an exam date, and get back a
generated weekly schedule. The dashboard then shows:

- today's sessions;
- a Monday-to-Sunday calendar of the week;
- a Pomodoro timer;
- a study streak;
- a weekly minutes chart;
- a quote of the day;
- notifications.

The site also has blog articles rendered from a small line-based markup, and
a settings page for the profile and notification switches.

Each module follows one source file. Throughout the model:

- Pure lookups and text rules are Dafny functions with lemmas about them.
- Components whose state the source updates in place are classes, with
  methods proved against transition functions:
  - `PomodoroTimer` (the timer);
  - `PlannerWizard` (the planner form's wizard);
  - `StreakTable` (the streak row);
  - `QuoteCardState` (the quote card);
  - `WeekView` (the calendar's week);
  - `NotificationSettings` (the notification switches).
- The things the source reads from the outside world are parameters:
  - the current date, as an integer day number where 0 is a Thursday, so
    `Weekday(d) == (d + 4) % 7` with 0 = Sunday as in JavaScript's `getDay`;
  - the clock time, as `HH:MM` text;
  - elapsed milliseconds;
  - stored database rows;
  - the browser's stored preferences.
- Strings are sequences of characters.

| file | models |
|---|---|
| `text.dfy` | number-to-text, `padStart(2, "0")`, ASCII case mapping, `split`/`join`, and the code-unit order of `<` on strings |
| `calendar.dfy` | `getDay`, `startOfWeek(…, { weekStartsOn: 1 })`, `addDays` on day numbers |
| `planner_data.dfy` | `src/lib/planner-data.ts`: class levels, streams, the subject catalogue, `getSubjectsForLevel` |
| `subject_selector.dfy` | `SubjectSelector.tsx`: select/deselect a subject, priorities |
| `planner_form.dfy` | `StudyPlannerForm.tsx`: the four-step wizard, `canProceed`, the total-hours summary |
| `study_data.dfy` | `useStudyData.ts`: the streak update after a session is logged, the recent-sessions window, the weekly stats |
| `pomodoro.dfy` | `PomodoroTimer.tsx`: the tick, toggle, reset and mode-switch transitions, time formatting |
| `schedule_data.dfy`, `today_schedule.dfy` | `TodaySchedule.tsx`: today's entry, the running session, past/current flags |
| `weekly_calendar.dfy` | `WeeklyCalendar.tsx`: subject colours, schedule normalisation, case-insensitive day lookup, the per-day column, week navigation |
| `notification_bell.dfy` | `NotificationBell.tsx`: the "ago" text, the unread badge, header actions, icons |
| `quote_card.dfy` | `QuoteCard.tsx`: the date hash and the shuffle button |
| `blog_post.dfy` | `pages/BlogPost.tsx`: slug lookup and the line classifier |
| `settings.dfy` | `pages/Settings.tsx`: initials, avatar fallback, stream selector visibility, profile save/load, notification switches |

The model follows the code where the code's behaviour differs from its
evident intent. Three such places are listed under "## Findings", each
modelled as written and corrected. The total-hours summary
(`StudyPlannerForm.tsx:272`) is kept as written: for an exam date in the
past it shows a negative number (`PlannerForm.TotalHoursWithoutFutureDate`).
That date cannot get past step 4, so it is not listed as a finding.

## Model

| member | source | states |
|---|---|---|
| PlannerData.ClassLevels | src/lib/planner-data.ts:2-27 | the nineteen class levels in listed order; no two share a value |
| PlannerData.PrimarySubjects | src/lib/planner-data.ts:40-46 | the primary list, with pairwise distinct subject names |
| PlannerData.MiddleSubjects | src/lib/planner-data.ts:47-57 | the middle-school list, with distinct names |
| PlannerData.SecondarySubjects | src/lib/planner-data.ts:58-70 | the secondary list, with distinct names |
| PlannerData.SciencePcmSubjects | src/lib/planner-data.ts:71-79 | the science-pcm list, with distinct names |
| PlannerData.SciencePcbSubjects | src/lib/planner-data.ts:80-88 | the science-pcb list, with distinct names |
| PlannerData.CommerceSubjects | src/lib/planner-data.ts:89-98 | the commerce list, with distinct names |
| PlannerData.ArtsSubjects | src/lib/planner-data.ts:99-109 | the arts list, with distinct names |
| PlannerData.JeeSubjects | src/lib/planner-data.ts:111-120 | the JEE list, with distinct names |
| PlannerData.NeetSubjects | src/lib/planner-data.ts:121-129 | the NEET list, with distinct names |
| PlannerData.UpscSubjects | src/lib/planner-data.ts:130-140 | the UPSC list, with distinct names |
| PlannerData.CatSubjects | src/lib/planner-data.ts:141-146 | the CAT list, with distinct names |
| PlannerData.GateSubjects | src/lib/planner-data.ts:147-153 | the GATE list, with distinct names |
| PlannerData.CollegeSubjects | src/lib/planner-data.ts:155-162 | the college list, with distinct names |
| PlannerData.ListKey | src/lib/planner-data.ts:38-163 | a key names a catalogue list exactly when it is one of the thirteen keys |
| PlannerData.ListOf | src/lib/planner-data.ts:38-163 | every catalogue list is non-empty and has distinct subject names |
| PlannerData.SubjectsFor | src/lib/planner-data.ts:171 | `subjectsByLevel[key] \|\| []` is non-empty exactly for the thirteen keys, and always has distinct names |
| PlannerData.FindLevel | src/lib/planner-data.ts:167 | `find` gives None exactly when no level has the value, else the first level that does |
| PlannerData.CatalogueKey | src/lib/planner-data.ts:166-182 | no key exactly when no listed class level has the given value (`if (!level) return []`) |
| PlannerData.GetSubjectsForLevel | src/lib/planner-data.ts:166-183 | always distinct subject names; non-empty exactly when the key is one of the thirteen catalogue keys; empty for an unlisted class level |
| PlannerData.FindListedLevel | src/lib/planner-data.ts:167 | every listed level is found by its own value |
| PlannerData.UnknownLevelHasNoSubjects | src/lib/planner-data.ts:167-168 | an unlisted class level yields no key and the empty list |
| PlannerData.HigherSecondaryUsesStream | src/lib/planner-data.ts:170-172 | classes 11 and 12 with a stream look the stream up; an unknown stream yields the empty list |
| PlannerData.ListedStreamHasSubjects | src/lib/planner-data.ts:30-35 | each offered stream is a key of the catalogue |
| PlannerData.HigherSecondaryWithoutStreamIsEmpty | src/lib/planner-data.ts:182 | classes 11 and 12 without a stream fall through to the absent "higher-secondary" key and get nothing |
| PlannerData.HigherSecondaryKeyWithoutStream | src/lib/planner-data.ts:170-182 | without a stream, classes 11 and 12 look up their category |
| PlannerData.HigherSecondaryKeyIsMissing | src/lib/planner-data.ts:38-163 | the catalogue has no "higher-secondary" list |
| PlannerData.CompetitiveUsesOwnKey | src/lib/planner-data.ts:174-176 | a competitive exam looks up its own value, whatever the stream |
| PlannerData.CompetitiveKeyListed | src/lib/planner-data.ts:19-23 | each competitive exam has its own catalogue list |
| PlannerData.CollegeLevelsShareList | src/lib/planner-data.ts:178-180 | both college levels get the one college list, whatever the stream |
| PlannerData.CollegeKey | src/lib/planner-data.ts:155-162 | the college list is stored under "college" |
| PlannerData.SchoolLevelUsesCategory | src/lib/planner-data.ts:182 | primary, middle and secondary levels look up their category, which is a catalogue key |
| PlannerData.ListedChoiceHasSubjects | src/lib/planner-data.ts:166-183 | every choice the pickers offer yields a non-empty list with distinct names |
| PlannerData.ListedChoiceHasKey | src/lib/planner-data.ts:166-183 | every choice the pickers offer leads to a catalogue key |
| SubjectSelector.IsSelected | src/components/planner/SubjectSelector.tsx:21-23 | true exactly when some selected subject has the name |
| SubjectSelector.FindByName | src/components/planner/SubjectSelector.tsx:26 | None exactly when the name is not selected, else the first entry with that name |
| SubjectSelector.RemoveName | src/components/planner/SubjectSelector.tsx:31 | the result no longer holds the name and holds only entries of the input |
| SubjectSelector.ToggleSubject | src/components/planner/SubjectSelector.tsx:29-35 | afterwards the subject is selected exactly when it was not before |
| SubjectSelector.UpdatePriority | src/components/planner/SubjectSelector.tsx:37-43 | same length; entries with the name get the new priority, the others are unchanged |
| SubjectSelector.GetSubjectPriority | src/components/planner/SubjectSelector.tsx:25-27 | never 0 (`|| 3`); 3 for an unselected subject; any other value is the stored priority of a selected entry of that name |
| SubjectSelector.PriorityOfFirstMatch | src/components/planner/SubjectSelector.tsx:25-27 | the shown priority is that of the first entry with the name when non-zero |
| SubjectSelector.PriorityDefaultsToThree | src/components/planner/SubjectSelector.tsx:26 | an unselected subject, or one stored with priority 0, shows priority 3 |
| SubjectSelector.ShownPriorityInRange | src/components/planner/SubjectSelector.tsx:25-27 | with stored priorities in 1..5, the shown priority is in 1..5 |
| SubjectSelector.RemoveAbsentName | src/components/planner/SubjectSelector.tsx:31 | removing a name that is not selected changes nothing |
| SubjectSelector.RemoveNameAppend | src/components/planner/SubjectSelector.tsx:31 | the filter distributes over concatenation |
| SubjectSelector.RemoveNameKeepsOthers | src/components/planner/SubjectSelector.tsx:31 | every entry with another name survives the filter |
| SubjectSelector.ToggleAppends | src/components/planner/SubjectSelector.tsx:33 | selecting a new subject appends it with priority 3 |
| SubjectSelector.ToggleTwice | src/components/planner/SubjectSelector.tsx:29-35 | toggling an unselected subject twice gives back the original selection |
| SubjectSelector.ToggleKeepsUnique | src/components/planner/SubjectSelector.tsx:29-35 | toggling keeps the selected names distinct |
| SubjectSelector.RemoveKeepsUnique | src/components/planner/SubjectSelector.tsx:31 | removing keeps the selected names distinct |
| SubjectSelector.UpdateKeepsInvariants | src/components/planner/SubjectSelector.tsx:37-43 | a star click keeps names distinct and priorities in 1..5 |
| SubjectSelector.ToggleKeepsPriorities | src/components/planner/SubjectSelector.tsx:29-35 | toggling keeps priorities in 1..5 |
| SubjectSelector.UpdateThenShown | src/components/planner/SubjectSelector.tsx:97-106 | after clicking star k on a selected subject, its shown priority is k |
| PlannerForm.InitialForm | src/components/planner/StudyPlannerForm.tsx:35-39 | empty class, stream and selection, 4 daily hours, no exam date |
| PlannerForm.NeedsStream | src/components/planner/StudyPlannerForm.tsx:44-45 | a stream is needed only for a listed class level of the higher-secondary category |
| PlannerForm.CanProceed | src/components/planner/StudyPlannerForm.tsx:53-66 | only steps 1 to 4 can proceed, each exactly when its fields are complete: step 1 when a class and, where needed, a stream are chosen; step 2 when a subject is selected; step 3 with at least one hour; step 4 with an exam at least one day away |
| PlannerForm.TotalHours | src/components/planner/StudyPlannerForm.tsx:272 | 0 exactly when there is no exam date, it is today, or the daily hours are 0; never negative for non-negative inputs |
| PlannerForm.PlannerWizard.constructor | src/components/planner/StudyPlannerForm.tsx:34-39 | the wizard starts at step 1 with the initial form |
| PlannerForm.PlannerWizard.HandleNext | src/components/planner/StudyPlannerForm.tsx:68-72 | the step advances by one below step 4, and the form is unchanged |
| PlannerForm.PlannerWizard.HandleBack | src/components/planner/StudyPlannerForm.tsx:74-78 | the step goes back by one above step 1, and the form is unchanged |
| PlannerForm.PlannerWizard.PressNext | src/components/planner/StudyPlannerForm.tsx:291-299 | the Next button advances only when `canProceed` holds for the current step |
| PlannerForm.PlannerWizard.SetClassLevel | src/components/planner/StudyPlannerForm.tsx:156 | only the class level changes |
| PlannerForm.PlannerWizard.SetStream | src/components/planner/StudyPlannerForm.tsx:161 | only the stream changes |
| PlannerForm.PlannerWizard.SetSelectedSubjects | src/components/planner/StudyPlannerForm.tsx:176 | only the selection changes |
| PlannerForm.PlannerWizard.SetDailyHours | src/components/planner/StudyPlannerForm.tsx:195-202 | only the daily hours change, and the slider keeps them in 1..12 |
| PlannerForm.PlannerWizard.SetExamDays | src/components/planner/StudyPlannerForm.tsx:236 | only the days until the exam change |
| PlannerForm.StepStaysInRange | src/components/planner/StudyPlannerForm.tsx:68-78 | Next and Back keep the step in 1..4 and move it by exactly one, except at the ends |
| PlannerForm.OtherStepsCannotProceed | src/components/planner/StudyPlannerForm.tsx:63-64 | outside steps 1..4 `canProceed` is false |
| PlannerForm.NeedsStreamAtHigherSecondary | src/components/planner/StudyPlannerForm.tsx:44-45 | a listed level needs a stream exactly when it is higher-secondary |
| PlannerForm.UnlistedLevelNeedsNoStream | src/components/planner/StudyPlannerForm.tsx:44-45 | an unlisted level never needs a stream |
| PlannerForm.StepOneLeadsToSubjects | src/components/planner/StudyPlannerForm.tsx:44-58 | passing step 1 with offered choices leaves a non-empty subject list for step 2 |
| PlannerForm.TotalHoursWhenReady | src/components/planner/StudyPlannerForm.tsx:272 | when step 4 can proceed, the total is days × daily hours and at least the daily hours |
| PlannerForm.TotalHoursWithoutFutureDate | src/components/planner/StudyPlannerForm.tsx:272 | no date or zero days shows 0; a past date shows a negative total |
| StudyData.StreakTable.constructor | src/hooks/useStudyData.ts:233-237 | the table holds the row as read, or none |
| StudyData.StreakAfter | src/hooks/useStudyData.ts:245-261 | the written row has today as last activity, a longest streak at least the new current streak and the old record, and equal to one of them |
| StudyData.StreakTable.LogStudyDay | src/hooks/useStudyData.ts:239-261 | without a row nothing changes; otherwise the row becomes the streak update of the old row for today |
| StudyData.StreakContinues | src/hooks/useStudyData.ts:246-247 | activity yesterday grows the streak by one |
| StudyData.StreakSameDay | src/hooks/useStudyData.ts:245-250 | activity today keeps the streak, and logging again the same day changes nothing |
| StudyData.StreakRestarts | src/hooks/useStudyData.ts:248-249 | any other last activity, or none, restarts the streak at 1 |
| StudyData.StreakRecordInvariant | src/hooks/useStudyData.ts:252-260 | the longest streak never drops, is at least the current one, equals one of the two, and the last activity becomes today |
| StudyData.ConsecutiveDaysGrowStreak | src/hooks/useStudyData.ts:239-261 | logging on k consecutive days after the last activity grows the streak by k |
| StudyData.LongestStaysOnTop | src/hooks/useStudyData.ts:252 | over any sequence of logged days the longest streak stays at least the current one and never drops |
| StudyData.Recent | src/hooks/useStudyData.ts:140-157 | the fetched sessions are sessions of the input completed within the last `days` days |
| StudyData.RecentKeepsDay | src/hooks/useStudyData.ts:153 | the fetch loses no minutes on a day inside the window |
| StudyData.WeeklyStats | src/hooks/useStudyData.ts:275-295 | seven entries labelled Sun..Sat, entry i dated on weekday i, on consecutive days of the week containing today, each holding that day's minutes |
| StudyData.WeeklyStatsAsWritten | src/hooks/useStudyData.ts:275-295 | as written: seven entries labelled Sun..Sat, each two days after the previous one, "Sat" dated six days after the start of the week, summing the seven-day fetch |
| StudyData.WeeklyStatsAsWrittenMinutes | src/hooks/useStudyData.ts:140-157 | as written, an entry dated inside the seven-day fetch window holds that day's minutes and one dated earlier holds 0 |
| StudyData.SaturdaySunEntryEmpty | src/hooks/useStudyData.ts:276-281 | as written, on a Saturday the "Sun" entry is dated twelve days back and shows 0 |
| StudyData.RecentDropsDay | src/hooks/useStudyData.ts:140-157 | the fetch holds no minutes for a day outside its window |
| StudyData.WeekFetched | src/hooks/useStudyData.ts:276 | the seven-day fetch holds every session of the current week |
| StudyData.WeeklyStatsDatesAsWritten | src/hooks/useStudyData.ts:281 | as written, "Sun" is dated on a Monday and entries are two days apart |
| StudyData.WeekTotal | src/hooks/useStudyData.ts:284-288 | the seven entries add up to the minutes of the whole week |
| StudyData.DaysAddUp | src/hooks/useStudyData.ts:284-288 | minutes over k consecutive days are the sum of each day's minutes |
| Calendar.Weekday | src/components/dashboard/TodaySchedule.tsx:26 | `getDay` is in 0..6 |
| Calendar.DayNames | src/components/dashboard/TodaySchedule.tsx:25 | seven pairwise distinct day names |
| Calendar.WeekdayNext | src/components/dashboard/WeeklyCalendar.tsx:56 | the next day has the next weekday; seven days on, the same weekday |
| Calendar.StartOfWeekIsMonday | src/components/dashboard/WeeklyCalendar.tsx:52-54 | the start of the week is a Monday no later than the day and within six days of it |
| Calendar.SameWeek | src/components/dashboard/WeeklyCalendar.tsx:66-68 | every day of a Monday-started week has the same start of week |
| Pomodoro.Duration | src/components/dashboard/PomodoroTimer.tsx:8-12 | each mode lasts a positive whole number of minutes; 25 minutes exactly for focus |
| Pomodoro.Initial | src/components/dashboard/PomodoroTimer.tsx:15-18 | the timer starts paused in focus mode with a full focus period and no sessions |
| Pomodoro.PomodoroTimer.constructor | src/components/dashboard/PomodoroTimer.tsx:15-18 | the timer's state is the initial state |
| Pomodoro.PomodoroTimer.Tick | src/components/dashboard/PomodoroTimer.tsx:36-61 | one second of the timer effect moves the state by the tick transition |
| Pomodoro.PomodoroTimer.Toggle | src/components/dashboard/PomodoroTimer.tsx:70-72 | play/pause flips running and changes nothing else |
| Pomodoro.PomodoroTimer.Reset | src/components/dashboard/PomodoroTimer.tsx:74-77 | reset pauses and refills the current mode's duration |
| Pomodoro.PomodoroTimer.SwitchMode | src/components/dashboard/PomodoroTimer.tsx:79-83 | switching pauses and loads the new mode's full duration |
| Pomodoro.AfterTick | src/components/dashboard/PomodoroTimer.tsx:36-61 | keeps the timer invariant; a paused timer with time left does not move; completing a period stops the timer at the full duration of the other kind of period; the count grows by one exactly when a focus period completes |
| Pomodoro.AfterToggle | src/components/dashboard/PomodoroTimer.tsx:70-72 | flips the running flag and nothing else |
| Pomodoro.AfterReset | src/components/dashboard/PomodoroTimer.tsx:74-77 | stops the timer at the full duration of the current mode, keeping mode and count |
| Pomodoro.AfterSwitch | src/components/dashboard/PomodoroTimer.tsx:79-83 | stops the timer at the full duration of the chosen mode, keeping the count |
| Pomodoro.TickCountsDown | src/components/dashboard/PomodoroTimer.tsx:37-40 | a running timer with time left loses one second and nothing else changes |
| Pomodoro.PausedTimerHolds | src/components/dashboard/PomodoroTimer.tsx:37-41 | a paused timer with time left does not change |
| Pomodoro.FocusCompletion | src/components/dashboard/PomodoroTimer.tsx:41-49 | a finished focus period counts a session, pauses, and starts a long break after every fourth, otherwise a short one |
| Pomodoro.BreakCompletion | src/components/dashboard/PomodoroTimer.tsx:50-54 | a finished break pauses and returns to a full focus period |
| Pomodoro.ResetAndSwitch | src/components/dashboard/PomodoroTimer.tsx:74-83 | reset keeps the mode and refills it; switching loads the chosen mode; both pause |
| Pomodoro.TransitionsKeepValid | src/components/dashboard/PomodoroTimer.tsx:36-83 | every transition keeps the time left within the mode's duration |
| Pomodoro.RunDown | src/components/dashboard/PomodoroTimer.tsx:37-40 | a running timer reaches zero after exactly its time left in ticks |
| Pomodoro.FullFocusPeriod | src/components/dashboard/PomodoroTimer.tsx:36-54 | 1500 one-second interval ticks from a fresh running focus period bring it to 0, and the effect's completion run (the 1501st `Tick`) completes it and starts a paused break |
| Pomodoro.FormatTime | src/components/dashboard/PomodoroTimer.tsx:85-89 | a colon before the last two characters; exactly five characters below 100 minutes |
| Text.TwoDigits | src/components/dashboard/PomodoroTimer.tsx:88 | at least two characters, exactly two for numbers below 100 |
| Pomodoro.FormatTimeReadsBack | src/components/dashboard/PomodoroTimer.tsx:85-89 | for under 100 minutes, the MM:SS text reads back as the minutes and seconds |
| TodaySchedule.TodayDayNames | src/components/dashboard/TodaySchedule.tsx:24-27 | each weekday has its own name, Sunday at 0 and Saturday at 6 |
| TodaySchedule.GetTodayDay | src/components/dashboard/TodaySchedule.tsx:24-27 | no other weekday has the same name |
| TodaySchedule.FindDayExact | src/components/dashboard/TodaySchedule.tsx:31 | None exactly when no entry's day equals the name, else the first such entry |
| TodaySchedule.TodayEntry | src/components/dashboard/TodaySchedule.tsx:30-31 | an entry is found exactly when an object schedule's day list has an entry named exactly today, and it is the first such entry; a `weeklySchedule` field that is not a list makes the lookup throw; no schedule, a bare array or a missing field finds nothing |
| TodaySchedule.ArrayScheduleShowsNothing | src/components/dashboard/TodaySchedule.tsx:30-31 | a schedule stored as a bare array shows no sessions today |
| TodaySchedule.DayMatchIsCaseSensitive | src/components/dashboard/TodaySchedule.tsx:31 | a "monday" entry is not found on Monday |
| TodaySchedule.ClockStringDenotes | src/components/dashboard/TodaySchedule.tsx:36 | the padded clock text is well formed and denotes hours × 60 + minutes |
| TodaySchedule.ClockOrder | src/components/dashboard/TodaySchedule.tsx:38-39 | on HH:MM texts, string `<` is the order of the times |
| TodaySchedule.FindRunning | src/components/dashboard/TodaySchedule.tsx:38-40 | -1 exactly when no session is running, else the first running one |
| TodaySchedule.GetCurrentSession | src/components/dashboard/TodaySchedule.tsx:33-41 | null exactly when today has no session list, else an index in -1..count-1 |
| TodaySchedule.IsPast | src/components/dashboard/TodaySchedule.tsx:103 | with a running session k, past means before k; with none running (-1), nothing is past |
| TodaySchedule.IsCurrent | src/components/dashboard/TodaySchedule.tsx:104 | the current session is never also past, whatever the session count |
| TodaySchedule.IsPastFixed | src/components/dashboard/TodaySchedule.tsx:103 | under the end-time rule, a session that is still running is not past |
| TodaySchedule.PastAndCurrentFlags | src/components/dashboard/TodaySchedule.tsx:103-104 | with a running session k, sessions before k are past and only k is current |
| TodaySchedule.NoRunningSessionNothingPast | src/components/dashboard/TodaySchedule.tsx:103-104 | as written, with no session running nothing is past or current |
| TodaySchedule.EndedSessionNotMarkedPast | src/components/dashboard/TodaySchedule.tsx:103 | as written, a session that ended at 10:00 is not past at 23:00 |
| TodaySchedule.PastFixedAgreesWhileRunning | src/components/dashboard/TodaySchedule.tsx:103 | the end-time rule agrees with the code whenever a session is running |
| TodaySchedule.PastFixedIsPrefix | src/components/dashboard/TodaySchedule.tsx:103 | under the end-time rule, everything before a past session is past |
| WeeklyCalendar.GetSubjectColor | src/components/dashboard/WeeklyCalendar.tsx:46-48 | a listed subject gets its palette's classes, any other the default |
| WeeklyCalendar.DefaultOnlyForDefault | src/components/dashboard/WeeklyCalendar.tsx:29-44 | only the default palette has the default classes |
| WeeklyCalendar.SubjectColors | src/components/dashboard/WeeklyCalendar.tsx:29-48 | a subject gets the default colour exactly when it is not one of the thirteen listed names |
| WeeklyCalendar.NormaliseSchedule | src/components/dashboard/WeeklyCalendar.tsx:72-74 | an array schedule and an object's day list are used as they are; no schedule or a missing `weeklySchedule` field gives the empty list; only a `weeklySchedule` field that is not a list gives nothing (every lookup then shows no sessions) |
| WeeklyCalendar.FindDayIgnoringCase | src/components/dashboard/WeeklyCalendar.tsx:80-82 | None exactly when no named entry matches ignoring case, else the first match |
| WeeklyCalendar.GetSessionsForDay | src/components/dashboard/WeeklyCalendar.tsx:76-84 | nothing without a day list; any sessions shown are those of an entry whose day equals the name ignoring case |
| WeeklyCalendar.DayLookupIgnoresCase | src/components/dashboard/WeeklyCalendar.tsx:76-84 | day names equal up to case give the same sessions |
| WeeklyCalendar.DayLookupFirstMatch | src/components/dashboard/WeeklyCalendar.tsx:80-83 | the first matching entry's sessions are shown, or none |
| WeeklyCalendar.LowerCaseDayIsFound | src/components/dashboard/WeeklyCalendar.tsx:81 | a "monday" entry is found on Monday |
| WeeklyCalendar.NonBreak | src/components/dashboard/WeeklyCalendar.tsx:186 | the filter keeps only sessions of the input that are not breaks |
| WeeklyCalendar.Displayed | src/components/dashboard/WeeklyCalendar.tsx:186 | at most four cards, the first non-break sessions in order, all of them when there are at most four |
| WeeklyCalendar.MoreCount | src/components/dashboard/WeeklyCalendar.tsx:203-207 | "+n more" appears exactly when there are more than four non-break sessions, and n makes up the rest |
| WeeklyCalendar.IsRestDay | src/components/dashboard/WeeklyCalendar.tsx:181-184 | "Rest day" shows exactly when the day has no sessions at all, and then no session card and no "+n more" |
| WeeklyCalendar.ColumnContents | src/components/dashboard/WeeklyCalendar.tsx:186-206 | at most four study sessions are shown, a prefix of the non-break ones, and "+n more" counts exactly the rest |
| WeeklyCalendar.NonBreakAppend | src/components/dashboard/WeeklyCalendar.tsx:186 | the filter distributes over concatenation |
| WeeklyCalendar.NonBreakKeepsStudy | src/components/dashboard/WeeklyCalendar.tsx:186 | every session that is not a break survives the filter |
| WeeklyCalendar.OnlyBreaksShowsNothing | src/components/dashboard/WeeklyCalendar.tsx:181-206 | a day of breaks only is not a rest day and shows an empty column |
| WeeklyCalendar.WeekDays | src/components/dashboard/WeeklyCalendar.tsx:56 | seven consecutive days from the week start |
| WeeklyCalendar.ThisWeekColumns | src/components/dashboard/WeeklyCalendar.tsx:52-56 | the first view runs Monday to Sunday and includes today |
| WeeklyCalendar.WeekView.constructor | src/components/dashboard/WeeklyCalendar.tsx:52-54 | the view starts at this week's Monday |
| WeeklyCalendar.WeekView.GoToPreviousWeek | src/components/dashboard/WeeklyCalendar.tsx:58-60 | the week start moves back seven days |
| WeeklyCalendar.WeekView.GoToNextWeek | src/components/dashboard/WeeklyCalendar.tsx:62-64 | the week start moves on seven days |
| WeeklyCalendar.WeekView.GoToThisWeek | src/components/dashboard/WeeklyCalendar.tsx:66-68 | the week start returns to this week's Monday |
| WeeklyCalendar.ShiftKeepsMonday | src/components/dashboard/WeeklyCalendar.tsx:58-64 | moving a Monday by whole weeks gives a Monday that is its own start of week |
| NotificationBell.IconsDistinct | src/components/notifications/NotificationBell.tsx:14-25 | each notification type has its own icon |
| NotificationBell.GetNotificationIcon | src/components/notifications/NotificationBell.tsx:14-25 | one of the four glyphs; the clock exactly for reminders |
| NotificationBell.Classify | src/components/notifications/NotificationBell.tsx:27-38 | "just now" exactly under one minute; minute counts 1..59, hour counts 1..23, day counts at least 1 |
| NotificationBell.FormatTime | src/components/notifications/NotificationBell.tsx:27-39 | "Just now" under one minute; otherwise a count followed by " ago" |
| NotificationBell.JustNowBucket | src/components/notifications/NotificationBell.tsx:31-35 | "Just now" exactly under one minute, future times included |
| NotificationBell.MinutesBucket | src/components/notifications/NotificationBell.tsx:31-36 | from one minute to under an hour the text gives the whole minutes, in 1..59 |
| NotificationBell.HoursBucket | src/components/notifications/NotificationBell.tsx:32-37 | from one hour to under a day the text gives the whole hours, in 1..23 |
| NotificationBell.DaysBucket | src/components/notifications/NotificationBell.tsx:33-38 | from one day on the text gives the whole days, at least 1 |
| NotificationBell.FormatTimeText | src/components/notifications/NotificationBell.tsx:27-39 | the text is "Just now" or the count followed by "m ago", "h ago" or "d ago" |
| NotificationBell.BadgeRule | src/components/notifications/NotificationBell.tsx:66-69 | the badge shows exactly when something is unread: "9+" above nine, else that digit |
| NotificationBell.Badge | src/components/notifications/NotificationBell.tsx:66-69 | a badge exactly when something is unread, one or two characters long |
| NotificationBell.MarkAllOffered | src/components/notifications/NotificationBell.tsx:76-78 | "Mark all read" is offered only when "Clear all" is and the badge shows |
| NotificationBell.MarkAllNeedsClearAll | src/components/notifications/NotificationBell.tsx:76-87 | "Mark all read" is offered exactly when "Clear all" is offered and the badge shows |
| QuoteCard.DayIndex | src/components/dashboard/QuoteCard.tsx:25-27 | the quote of the day is a valid index |
| QuoteCard.DayHash | src/components/dashboard/QuoteCard.tsx:26 | the hash is at least the code of every character of the date text |
| QuoteCard.NextIndex | src/components/dashboard/QuoteCard.tsx:32-34 | shuffle moves to the next quote and wraps from the last to the first |
| QuoteCard.QuoteCardState.constructor | src/components/dashboard/QuoteCard.tsx:21 | the card first shows quote 0 |
| QuoteCard.QuoteCardState.LoadDailyQuote | src/components/dashboard/QuoteCard.tsx:23-28 | the mount effect shows the day's quote |
| QuoteCard.QuoteCardState.Shuffle | src/components/dashboard/QuoteCard.tsx:32-34 | the index moves to the next quote, and stays valid |
| QuoteCard.DayHashAppend | src/components/dashboard/QuoteCard.tsx:26 | the hash of joined texts is the sum of their hashes |
| QuoteCard.SwappedPartsSameQuote | src/components/dashboard/QuoteCard.tsx:24-27 | texts made of the same two parts in either order share a quote |
| QuoteCard.ShuffledPosition | src/components/dashboard/QuoteCard.tsx:32-34 | after k presses the index has moved k places round the twelve |
| QuoteCard.TwelvePressesReturn | src/components/dashboard/QuoteCard.tsx:32-34 | twelve more presses come back to the same quote |
| QuoteCard.ShuffleVisitsAll | src/components/dashboard/QuoteCard.tsx:32-34 | every quote is reached within twelve presses |
| QuoteCard.PressesBack | src/components/dashboard/QuoteCard.tsx:33 | the number of presses under twelve can be read back from the start and end quotes |
| QuoteCard.ShuffleNoRepeat | src/components/dashboard/QuoteCard.tsx:32-34 | within twelve presses no quote repeats |
| BlogPost.ArticleFor | src/pages/BlogPost.tsx:504 | an article is stored under a slug exactly when the slug is one of the five |
| BlogPost.LookupPost | src/pages/BlogPost.tsx:504-506 | a post exactly for one of the five slugs, always by "Task2Top Team" |
| BlogPost.SlugLookup | src/pages/BlogPost.tsx:503-517 | a post is shown exactly when the slug is present and one of the five; otherwise "Post not found" |
| BlogPost.PomodoroGuideFound | src/pages/BlogPost.tsx:388-393 | the Pomodoro slug shows the Pomodoro guide |
| BlogPost.RemoveDoubleStars | src/pages/BlogPost.tsx:569 | no "**" is left, the text does not grow, and every character other than '*' is kept, in order |
| BlogPost.DigitRun | src/pages/BlogPost.tsx:577 | the longest all-digit prefix |
| BlogPost.WhitespaceRun | src/pages/BlogPost.tsx:578 | the longest white-space prefix, using JavaScript's white space |
| BlogPost.ClassifyLine | src/pages/BlogPost.tsx:559-580 | each element determines its line: a heading or bullet is its prefix plus its text, a paragraph is the whole non-blank line, a break comes from a blank line, a rule from "---", a numbered item from a digits-and-dot line with shorter text |
| BlogPost.ClassifyAll | src/pages/BlogPost.tsx:558-581 | one element per line, each the line's classification |
| BlogPost.RenderContent | src/pages/BlogPost.tsx:558 | one element per line: one more than the newlines of the text |
| BlogPost.Heading2Rule | src/pages/BlogPost.tsx:559-561 | a "## " line is a level-2 heading without its marker |
| BlogPost.Heading3Rule | src/pages/BlogPost.tsx:562-564 | a "### " line is a level-3 heading without its marker |
| BlogPost.BulletAndRule | src/pages/BlogPost.tsx:565-576 | a "- " line is a bullet; a "---" line is a horizontal rule |
| BlogPost.BoldRule | src/pages/BlogPost.tsx:568-569 | a line starting and ending with "**" is bold text with no "**" left, keeping every character of the line other than '*', in order |
| BlogPost.BlankLineRule | src/pages/BlogPost.tsx:571-572 | a white-space-only line is a line break |
| BlogPost.NumberedRule | src/pages/BlogPost.tsx:577-578 | digits, a dot and a rest give a numbered item holding the rest without its leading white space |
| BlogPost.DigitRunOfDigits | src/pages/BlogPost.tsx:577 | the digit run of digits followed by a non-digit is exactly those digits |
| BlogPost.LetterLineIsParagraph | src/pages/BlogPost.tsx:580 | a line starting with a letter is a paragraph of the whole line |
| BlogPost.HeadingWinsOverBold | src/pages/BlogPost.tsx:559-569 | the rules apply in order: a heading wins over bold, a bullet over a numbered item |
| Settings.FirstsOfSplit | src/pages/Settings.tsx:151-153 | the first characters of the space-split words are exactly the word starts |
| Settings.GetInitials | src/pages/Settings.tsx:150-157 | the upper-cased first two word starts, or fewer if the name has fewer words |
| Settings.WordStartsAppend | src/pages/Settings.tsx:151-154 | the word starts of joined text are those of each part, the second part continuing after the first |
| Settings.RepeatedSpacesAddNothing | src/pages/Settings.tsx:152-154 | a doubled space gives the same initials as a single one |
| Settings.LeadingSpace | src/pages/Settings.tsx:152-153 | a leading space starts a new word |
| Settings.TwoWordName | src/pages/Settings.tsx:150-157 | "First Last" gives the two upper-cased first letters |
| Settings.WordsAroundSpace | src/pages/Settings.tsx:151-154 | the word starts of two space-joined words are those of each word |
| Settings.SingleWordStart | src/pages/Settings.tsx:151-154 | a word without spaces starts exactly once |
| Settings.InitialsOfFirstTwo | src/pages/Settings.tsx:155-156 | with two or more words, the initials are the first two upper-cased |
| Settings.NoSpaceNoStart | src/pages/Settings.tsx:152-153 | text without spaces, continuing a word, adds no word start |
| Settings.AvatarFallback | src/pages/Settings.tsx:220 | the fallback text has at most two characters |
| Settings.AvatarFallbackCases | src/pages/Settings.tsx:220 | the name's initials, else the e-mail's first letter upper-cased, else "U"; empty only for a spaces-only name |
| Settings.SpacesOnlyName | src/pages/Settings.tsx:150-157 | a name of spaces only has no initials |
| Settings.StreamSelectorNeverShown | src/pages/Settings.tsx:159 | as written, no listed class level shows the stream selector |
| Settings.NeedsStreamAsWritten | src/pages/Settings.tsx:159 | as written, the selector shows exactly for "class_11" and "class_12", eight-character values starting "class_" |
| Settings.ClassElevenAsWritten | src/pages/Settings.tsx:159 | as written, Class 11 shows no stream selector although the planner asks for its stream |
| Settings.NeedsStreamCorrected | src/pages/Settings.tsx:159 | the corrected test agrees with the planner form's stream rule |
| Settings.HigherSecondaryIndices | src/lib/planner-data.ts:16-17 | the higher-secondary levels are entries 10 and 11 |
| Settings.NeedsStreamListed | src/pages/Settings.tsx:159 | a level needing a stream is Class 11 or Class 12 |
| Settings.NeedsStreamAgrees | src/pages/Settings.tsx:159 | the corrected test holds exactly for the values of the higher-secondary levels |
| Settings.HigherSecondaryNeedsStream | src/components/planner/StudyPlannerForm.tsx:44-45 | each higher-secondary level needs a stream in the planner |
| Settings.ToColumn | src/pages/Settings.tsx:121-124 | an empty field is saved as null, any other as itself |
| Settings.FromColumn | src/pages/Settings.tsx:84-87 | a null column loads as empty text, any other as itself |
| Settings.SaveProfile | src/pages/Settings.tsx:120-125 | no column is an empty text; each column is null exactly when its field is empty |
| Settings.LoadProfile | src/pages/Settings.tsx:82-88 | each field is empty exactly when its column is null or empty |
| Settings.SaveThenLoad | src/pages/Settings.tsx:120-125 | saving then loading gives back the form, and the saved row has no empty column |
| Settings.LoadThenSave | src/pages/Settings.tsx:84-87 | loading then saving gives back the row exactly when no column holds empty text |
| Settings.DefaultPreferences | src/pages/Settings.tsx:52-57 | all four switches start on |
| Settings.WithSwitch | src/pages/Settings.tsx:365-371 | the flipped switch takes the new value; the other three are unchanged |
| Settings.SwitchIdempotent | src/pages/Settings.tsx:365-428 | setting a switch to its current value changes nothing |
| Settings.SwitchesCommute | src/pages/Settings.tsx:365-428 | setting two different switches gives the same result in either order |
| Settings.LastSettingWins | src/pages/Settings.tsx:365-428 | setting the same switch twice keeps only the second value |
| Settings.NotificationSettings.constructor | src/pages/Settings.tsx:52-57 | the page starts with all switches on and the stored record as given |
| Settings.AfterLoad | src/pages/Settings.tsx:101-106 | the preferences are kept or replaced by the stored copy; with a stored copy, every switch reads as stored |
| Settings.NotificationSettings.LoadPreferences | src/pages/Settings.tsx:101-106 | a stored record replaces the switches; without one they are kept |
| Settings.NotificationSettings.SetSwitch | src/pages/Settings.tsx:108-111 | the switch takes the new value, and the stored record becomes the new preferences |
| Settings.SavedSwitchSurvivesReload | src/pages/Settings.tsx:101-111 | a saved switch value is what a later load shows; with nothing stored, a load keeps the switches |
| Text.DigitChar | src/components/notifications/NotificationBell.tsx:36 | the digit character of a value 0..9 |
| Text.NatToString | src/components/notifications/NotificationBell.tsx:36 | decimal text of a number: all digits, no leading zero, one digit below 10 and two below 100 |
| Text.NatToStringRoundTrip | src/components/notifications/NotificationBell.tsx:36 | the decimal text reads back as the number |
| Text.PadStart2 | src/components/dashboard/PomodoroTimer.tsx:88 | `padStart(2, "0")`: texts of two or more characters unchanged, shorter ones left-filled with zeros to two |
| Text.TwoDigitsValue | src/components/dashboard/PomodoroTimer.tsx:88 | the zero-padded text of 0..99 is two digits reading back as the number |
| Text.ToUpper | src/pages/Settings.tsx:155 | same length, each character upper-cased |
| Text.ToLower | src/components/dashboard/WeeklyCalendar.tsx:81 | same length, each character lower-cased |
| Text.Split | src/pages/BlogPost.tsx:558 | one more part than separators, and no part holds the separator |
| Text.SplitJoin | src/pages/BlogPost.tsx:558 | joining the parts with the separator gives back the text |
| Text.LexLessAppend | src/components/dashboard/TodaySchedule.tsx:39 | string `<` on equal-length prefixes is decided by the prefix, else by the rest |
| Text.TwoDigitOrder | src/components/dashboard/TodaySchedule.tsx:36-39 | on two-digit texts, string `<` is the order of their values |

## Left out

- The schedule generator (`supabase/functions/generate-schedule/index.ts`) is not part of this model. It calls a language model over the network; the schedule it returns is an input here (`ScheduleData.StoredSchedule`).
- Plan submission (`handleSubmit`), authentication, the database queries, error toasts and navigation: these are remote I/O and side effects. The streak row and the logged sessions are values passed in.
- Timers, intervals and the completion sound of the Pomodoro timer: each interval firing is one call of `Tick`. When `timeLeft` reaches 0 the effect runs again at once (`PomodoroTimer.tsx:41-54`); that completion run is also a `Tick`, though no interval fires for it. The progress ring's floating-point percentage is not modelled.
- Calendar dates are integer day numbers. Time zones are not modelled, and neither is the difference between `toISOString` (UTC) dates and local `getDay`. `differenceInDays` is the `daysUntilExam` value the wizard is given.
- StudyData.WeeklyStats: states minutes per day, not the hours rounded to one decimal place that the chart shows (`useStudyData.ts:292`), because that is floating point. `totalHours` (`useStudyData.ts:297`) is left out for the same reason; `WeekTotal` states the exact total in minutes.
- StudyData.Recent: keeps sessions completed after the day `days` days back. The boundary day itself depends on the time of day and is left out.
- Case mapping is ASCII only (`Text.UpperChar`, `Text.LowerChar`); JavaScript's full Unicode mapping is not modelled.
- Object lookups by key (`subjectsByLevel[key]`, `blogContent[slug]`, `SUBJECT_COLORS[subject]`) see only the listed keys. Keys inherited from JavaScript's object prototype, such as "constructor", are not modelled.
- The stored notification preferences are a present or absent record (`Option<Preferences>`). A malformed stored text, on which `JSON.parse` throws, is not modelled.
- The blog articles' bodies are not copied. The renderer is stated for every text, and the five articles' header fields are kept.
- Page layout and presentation are not modelled: the landing, about, contact, privacy and blog-index pages, the header, the footer, the stats cards, the weekly chart drawing, the streak card and the `isToday` highlight.
- `ClassSelector.tsx` and `StreamSelector.tsx` render pickers over the planner data; their choices are the listed levels and streams the lemmas quantify over.
- The settings page's avatar upload and profile fetch errors are left out; the profile row is a value.
- Notifications' list management (mark one read, delete) and their storage are left out. The header actions are modelled as the conditions under which they are offered.

## Findings

| source | as written | input that shows it | evidently intended | confidence | as-written member | corrected member |
|---|---|---|---|---|---|---|
| src/pages/Settings.tsx:159 | the stream selector shows for "class_11" or "class_12", with underscores | class level "class-11" (Class 11): the selector stays hidden | the listed values "class-11" and "class-12", as the planner form uses | not executed | Settings.StreamSelectorNeverShown | Settings.NeedsStreamCorrected |
| src/hooks/useStudyData.ts:281 | entry i is dated `today - (6 - i) - getDay() + i` | any today: "Sun" falls on a Monday and entries are two days apart; on Sunday to Friday some of them lie in the future; from Tuesday on, the entries dated eight or more days back fall outside the seven-day fetch and always show 0 (on Saturday "Sun", "Mon" and "Tue"), and an entry dated exactly seven days back (on Monday, Wednesday and Friday) shows at most what the fetch boundary lets in | entry i on weekday i of the current week, `today - getDay() + i` | not executed | StudyData.WeeklyStatsDatesAsWritten | StudyData.WeeklyStats |
| src/components/dashboard/TodaySchedule.tsx:103 | a session is past when `i < (currentSessionIndex ?? length)`; `findIndex` gives -1, never null | one session 09:00-10:00, clock at 23:00: the index is -1 and the ended session is not marked past | a session is past once its end time has passed | not executed | TodaySchedule.EndedSessionNotMarkedPast | TodaySchedule.PastFixedAgreesWhileRunning |
