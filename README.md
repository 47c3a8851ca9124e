# Lynne: check-in classification, history store, calendar conflicts and reminders

Lynne is a mobile app for tracking a daily birth-control pill. This project
models its three pieces of logic in Dafny and proves what they guarantee:

- **Check-in store** (`checkin.dfy`, module `CheckIn`). `GetCheckInStatus` sorts
  a difference in minutes into one of four ordered statuses (on time, slightly
  late, very late, missed). The history maps a date key to a record of status,
  check-in instant and target instant. `CheckInStore` holds the value stored under
  the `checkin_history` key. `SaveCheckIn` reads that map, overwrites one date
  and writes the whole map back. `CheckInDiff` is the difference the home
  screen classifies before it saves (lines 139-142 of
  Lynne/app/(tabs)/index.tsx): the distance between the two times of day in
  minutes, which is under one day and is zero exactly when the times agree.
- **Calendar conflict checker** (`calendar.dfy`, module `Calendar`). `CalendarStore` holds
  the cached snapshot under `calendar_data`. The mock sign-in writes four fixed
  events. `CheckForConflicts` walks the events in stored order and reports the
  first one whose hours and minutes bracket the target's. For that event it
  probes the hour before and the hour after with `FindAvailableSlot`.
- **Reminders** (`notifications.dfy`, module `Notifications`). `NotificationService` holds
  the stored settings and the platform's queue of scheduled notifications. The
  queue is a sequence of triggers, each tagged with its kind and instant.
  `ScheduleNotifications` empties the queue and then adds, in order: an
  optional pre-notification, the main notification, and zero or six follow-ups.

`time.dfy` (module `Time`) holds the clock. An instant is a whole number of
minutes since local midnight of day 0, so a day is always 1440 minutes.
`HourOf` and `MinuteOf` play the parts of `getHours()` and `getMinutes()`, and
`StartOfDay` and `TimeOfDay` split an instant into its date and its time of day.
`wrappers.dfy` (module `Wrappers`) holds `Option`, which stands for JavaScript `null`
and for a missing storage key.

Storage and clock are inputs to the model:

- Each storage key is a class field of type `Option<T>`; `None` means nothing
  is stored.
- A storage error is a `readFails` or `writeFails` parameter. It takes the
  source's catch-and-default path: a failed read gives the default, and a
  failed write changes nothing.
- `now` is a parameter of `ScheduleNotifications`.

What the proofs establish, beyond the per-call contracts:

- A failed read inside `saveCheckIn` is caught by `getCheckInHistory`, which
  returns `{}`. The write that follows then replaces the whole history with the
  single new entry (`CheckInStore.SaveCheckIn`).
- The probe slots of `checkForConflicts` always touch the matched event. The
  before-slot ends at the event's start and the after-slot starts at its end,
  and `findAvailableSlot` counts both endpoints. So any matched event whose
  start is not after its end never gets an alternative time
  (`RecommendationsAlwaysNull`). That covers the four mock events
  (`SignInThenCheck`). The one exception is an event whose start lies after
  its end on a different date (`RecommendationForInvertedEvent`).
- The conflict test compares hours and minutes separately. A target of 14:45
  lies inside 14:00–15:30 but is not a conflict; 14:30 is a conflict
  (`ComponentwiseComparison`). The dates of the event and of the target never
  matter (`ConflictIgnoresDates`).

Two consequences of the calendar code, which the model keeps:

- `checkForConflicts` never reads `isConnected`
  (Lynne/utils/googleCalendarService.ts:67-115). A stored but disconnected
  snapshot still yields conflicts; only an absent snapshot (or a failed read) gives null before the events are searched.
- For target 14:30 and an event 14:00–15:30, a conflict is reported and both
  recommended times are null (`RecommendationsAlwaysNull`), for the reason
  above.

## Model

| member | source | states |
|---|---|---|
| `CheckIn.StatusBands` | Lynne/utils/checkInStorage.ts:42-52 | each status holds exactly on its band: at most 5 is on time, over 5 up to 15 slightly late, over 15 up to 60 very late, over 60 missed (both directions) |
| `CheckIn.StatusCountsThresholds` | Lynne/utils/checkInStorage.ts:42-52 | the severity of the status equals the number of thresholds 5, 15, 60 that the difference strictly exceeds; so the classifier is total and its four results are ordered |
| `CheckIn.StatusMonotone` | Lynne/utils/checkInStorage.ts:42-52 | a larger difference never gets a milder status |
| `CheckIn.StatusBoundaries` | Lynne/utils/checkInStorage.ts:43-51 | 5 is on time, 6 and 15 slightly late, 16 and 60 very late, 61 missed |
| `CheckIn.SavePreservesConsistency` | Lynne/utils/checkInStorage.ts:27-36 | saving a record whose status is the classification of the distance between its two times of day (`CheckInDiff`) keeps every record of the history consistent with its instants |
| `CheckIn.WithCheckIn` | Lynne/utils/checkInStorage.ts:35 | after the update, `date` maps to exactly the new record, the keys are the old keys plus `date`, and every other record is unchanged |
| `CheckIn.SaveIdempotent` | Lynne/utils/checkInStorage.ts:34-36 | saving the same entry twice gives the same history as saving it once |
| `CheckIn.SaveLastWriterWins` | Lynne/utils/checkInStorage.ts:34-36 | a second save of a date fully replaces the first |
| `CheckIn.SavesCommute` | Lynne/utils/checkInStorage.ts:34-36 | saves to two different dates give the same history in either order |
| `CheckIn.CheckInStore.GetCheckInHistory` | Lynne/utils/checkInStorage.ts:17-25 | the stored history, or the empty history when nothing is stored or the read fails |
| `CheckIn.CheckInStore.SaveCheckIn` | Lynne/utils/checkInStorage.ts:27-40 | the stored history becomes the previous one (empty if the read failed) with `date` overwritten; a failed write leaves the stored value as it was |
| `CheckIn.SaveThenRead` | Lynne/utils/checkInStorage.ts:17-36 | a save followed by a read returns the new record under `date`, the old key set plus `date`, and every other record unchanged |
| `Calendar.FindAvailableSlot` | Lynne/utils/googleCalendarService.ts:122-137 | returns the slot itself exactly when no event contains its start or its end (inclusive bounds), otherwise null |
| `Calendar.BeforeSlot` | Lynne/utils/googleCalendarService.ts:91-94 | the probe slot before an event is one hour long and ends at the event's start |
| `Calendar.AfterSlot` | Lynne/utils/googleCalendarService.ts:96-99 | the probe slot after an event is one hour long and starts at the event's end |
| `Calendar.CalendarStore.CheckForConflicts` | Lynne/utils/googleCalendarService.ts:67-120 | null when nothing is stored or the read fails; otherwise null exactly when no event matches the four hour/minute comparisons, and when one does, the recommendation built for the first matching event in list order |
| `Calendar.RecommendationReportsEvent` | Lynne/utils/googleCalendarService.ts:101-106 | the reported event has the matched event's start and end, and its summary, or `Busy` when the summary is empty |
| `Calendar.RecommendedTimesOffsets` | Lynne/utils/googleCalendarService.ts:91-110 | `before` is present exactly when the before-slot is free and is then the event's start minus 30 minutes; `after` is present exactly when the after-slot is free and is then the event's end plus 5 minutes |
| `Calendar.RecommendationsAlwaysNull` | Lynne/utils/googleCalendarService.ts:91-99 | for an event of the list whose start is not after its end, both probe slots touch the event itself, so both recommended times are null |
| `Calendar.RecommendationForInvertedEvent` | Lynne/utils/googleCalendarService.ts:84-110 | an event starting 14:00 on one day and ending 15:30 the day before still matches 14:30 and gets both alternative times |
| `Calendar.ConflictIgnoresDates` | Lynne/utils/googleCalendarService.ts:84-89 | moving the event's start, its end or the target by whole days never changes whether they match |
| `Calendar.ComponentwiseComparison` | Lynne/utils/googleCalendarService.ts:84-89 | 14:45 lies inside 14:00–15:30 but does not match, while 14:30 does |
| `Calendar.MockEvents` | Lynne/utils/googleCalendarService.ts:33-54 | four mock events, each starting before it ends |
| `Calendar.CalendarStore.SignInWithGoogle` | Lynne/utils/googleCalendarService.ts:30-65 | stores a connected snapshot holding exactly the four mock events in order and returns true; a failed write changes nothing and returns false |
| `Calendar.SignInThenCheck` | Lynne/utils/googleCalendarService.ts:56-110 | after the mock sign-in, a conflict is reported exactly when some mock event matches, and it never has an alternative time |
| `Notifications.MainTimeOnToday` | Lynne/utils/notificationService.ts:53-58 | the main trigger lies on the date of `now` at the target's time of day |
| `Notifications.FollowUps` | Lynne/utils/notificationService.ts:87-89 | the list of follow-ups has exactly the requested number of entries |
| `Notifications.ScheduleLength` | Lynne/utils/notificationService.ts:64-100 | the queue holds the pre-notification (0 or 1) plus 1 main notification plus 6 or 0 follow-ups: between 1 and 8 triggers, and 1 or 2 when the interval is not positive |
| `Notifications.ScheduleMain` | Lynne/utils/notificationService.ts:52-83 | the main notification is always queued, exactly once, right after the optional pre-notification, on today's date at the target's time of day |
| `Notifications.SchedulePre` | Lynne/utils/notificationService.ts:61-73 | a pre-notification is queued if and only if main minus the lead time is strictly after `now`; it is then first, at exactly that instant, and the main one follows |
| `Notifications.ScheduleFollowUps` | Lynne/utils/notificationService.ts:86-100 | with a positive interval, follow-up i (for i = 1..6) comes right after the main one at main + i·interval; otherwise there are none |
| `Notifications.ScheduleInTimeOrder` | Lynne/utils/notificationService.ts:61-100 | the queued instants strictly increase if and only if no pre-notification was queued or the lead time is positive |
| `Notifications.NotificationService.GetNotificationSettings` | Lynne/utils/notificationService.ts:30-38 | the stored settings, or the defaults {10, 10, true} when nothing is stored or the read fails |
| `Notifications.NotificationService.SaveNotificationSettings` | Lynne/utils/notificationService.ts:40-46 | the stored settings become the given ones; a failed write changes nothing |
| `Notifications.SaveThenGetSettings` | Lynne/utils/notificationService.ts:30-46 | settings saved and then read back are the settings saved |
| `Notifications.NotificationService.ScheduleNotifications` | Lynne/utils/notificationService.ts:48-101 | the queue becomes exactly the schedule for the target, the settings and `now`; nothing queued earlier survives |
| `Notifications.RescheduleReplaces` | Lynne/utils/notificationService.ts:49-50 | after two schedule calls, only the second call's schedule is queued |
| `Notifications.NotificationService.CancelAllNotifications` | Lynne/utils/notificationService.ts:103-105 | the queue is empty |

## Left out

- `initializeNotifications` (Lynne/utils/notificationService.ts:18-28) is left out. It only requests an operating-system permission and registers a display handler, both through foreign calls.
- Notification titles, bodies and sound flags are left out. Each trigger carries only its kind and its instant.
- AsyncStorage, JSON and errors:
  - Values are stored typed, not as serialized strings.
  - A corrupt value is treated as a failed read.
  - The `if (!events) return null` guard has no counterpart, because a typed snapshot always has an event list. An empty list is truthy in JavaScript, so the source also goes on to the loop and returns null, just as the model does.
  - Error logging is left out.
- `event.summary || 'Busy'`: only the empty summary is modelled. A missing or null summary cannot occur in a typed event.
- JavaScript `Date`:
  - Time zones and daylight saving are left out.
  - The overflow of `setMonth`/`setDate` is left out. When the target's day of the month does not exist in the current month, the source lands on a later date.
  - `Notifications.MainTime` always gives today's date with the target's time of day.
- Asynchrony and concurrency are left out. Every operation is atomic, so the lost-update race between two overlapping `saveCheckIn` calls cannot occur in the model.
- `stopRemindersAfterCheckIn` is stored and returned; only the home screen acts on it (Lynne/app/(tabs)/index.tsx:153-155), and the settings screen only shows and edits it. Neither screen is part of this model.
- `getDailyTargetTime` and `setDailyTargetTime` are not part of this model. Lynne/utils/checkInStorage.ts defines neither, although the home screen (lines 18-19 of Lynne/app/(tabs)/index.tsx) imports both.
- The live Google sign-in, the UI screens, navigation and build configuration (GoogleSignInButton.tsx, AppNavigator.tsx, webpack.config.js) are not part of this model.
- `Calendar.RecommendationsAlwaysNull`: requires the matched event's start not to be after its end. Without that, an alternative can be offered (`Calendar.RecommendationForInvertedEvent`).
- Notifications.NotificationService.ScheduleNotifications: assumes every platform call succeeds. In the source, `scheduleNotifications` and `cancelAllNotifications` (Lynne/utils/notificationService.ts:48-105) have no try/catch, so a rejected cancel or schedule call escapes to the caller and leaves a partly built queue. The model always ends with the full schedule.
- Notifications.NotificationService.CancelAllNotifications: likewise assumes the platform's cancel call succeeds; a rejected call would leave the queue as it was.
