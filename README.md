# Deadline Buddy — a verified model of the command pipeline, the task store and the reminder scheduler

Deadline Buddy is a WhatsApp bot. Members of a group add deadline tasks with
`!tugas-tambah name, subject, DD-MM-YYYY HH:mm`, list them with `!tugas`,
delete them by name with `!tugas-hapus name`, and choose the group's Indonesian
time zone (WIB, WITA or WIT) with `!timezone-edit`. A scheduler wakes up every
minute and sends a reminder for each task whose reminder time has come, 15 minutes
before its deadline. It then marks the reminder as sent and clones weekly tasks one
week later.

This Dafny project models that core and proves properties about it:

| module | file | models |
|---|---|---|
| `Text` | text.dfy | JavaScript `trim`, `startsWith`, `includes`, `split`/`join`, ASCII case mapping, byte-wise string order |
| `Civil` | civil.dfy | Instants as minutes since 0000-01-01T00:00Z, and the proleptic Gregorian calendar |
| `Stamps` | stamps.dfy | The stored `YYYY-MM-DD HH:mm:ss` text, the entered `DD-MM-YYYY HH:mm` text, and the `DD/MM/YYYY` / `HH:mm` display text |
| `Query` | query.dfy | `ORDER BY` as a sort by key |
| `GroupSettings` | group_settings.dfy | The `group_settings` table: a map from chat id to zone, with `getTimezone`, `tzToOffset`, `getOffset` and `setTimezone` |
| `Schedule` | schedule.dfy | The `schedules` and `reminders` tables, with a class `ScheduleStore` and pure table transitions |
| `CommandController` | command_controller.dfy | The six handlers and their replies |
| `CommandProcessor` | command_processor.dfy | Line parsing, keyword dispatch, the per-line loop and the webhook |
| `TimezoneParsing` | timezone_parsing.dfy | The reference parser `parse` and its sample inputs |
| `Scheduler` | scheduler.dfy | The `SchedulerService` with `start`/`stop`, one reminder tick, processing one reminder, and the weekly clone |

## How the model is built

- **Time.**
  - An instant is a `nat` number of minutes since 0000-01-01T00:00Z.
  - Stored datetimes are text in the database. The model stores the instant and proves two things about the text.
  - First, the formatter and the parser are inverse for the years 0000-9999 (`Stamps.ParseStoredText`, `Stamps.StoredTextOfParsed`).
  - Second, comparing two such texts byte by byte agrees with comparing the instants (`Stamps.StoredTextOrder`).
  - Together these justify modelling `ORDER BY schedule_datetime` and `reminder_datetime <= now` on instants.
- **The store.**
  - Both tables are sequences in a `ScheduleStore` object. Its methods (`Create`, `CreateReminder`, `Delete`, `MarkReminderSent`) change them in place.
  - Each method is specified by a pure transition on `Tables` (`CreateT`, `DeleteT`, `MarkSentT`). The lemmas are about those transitions.
  - Ids come from AUTOINCREMENT and rows are never physically deleted. So schedule `i` has id `i + 1`.
  - Every schedule insert is followed by one reminder insert, so reminder `i` also has id `i + 1` and belongs to schedule `i + 1`. This is the invariant `Schedule.Consistent`.
- **Group settings.**
  - The table is a `map<string, string>` from chat id to zone. A map has at most one row per chat, as the `UNIQUE` constraint demands.
  - `SettingsTable` holds that map and upserts it in place.
- **Outside results become parameters.** The current time, the gateway's delivery result and storage faults are inputs:
  - the controller's `nowMillis` is the current time in milliseconds, which the future check compares with as `moment.utc()` does;
  - a command line's storage fault is an optional `Fault`: the error message, and whether it strikes at the handler's first storage access or at the first one after its write;
  - the webhook's `sendOk` is whether the reply was delivered;
  - the scheduler's `scanOk` is whether the due-scan query succeeded;
  - the scheduler gets one `Attempt` per due reminder. It records whether the zone lookups of the formatting, the send, the mark and the weekly insert succeeded, and which relative-time phrase (`local.from(nowLocal)`) was produced.
- **Text read back.** `new Schedule(row)` takes `data.schedule_name || data.scheduleName`, and the same for the subject. An empty stored name or subject is falsy, so it comes back `undefined`, and every template prints that word (`Schedule.ShownText`). The success reply of `!tugas-tambah`, the items of `!tugas` and the reminder text all print it. A weekly copy of such a task fails its insert, because its NOT NULL column does not take `undefined`.
- **Imperative code stays imperative.**
  - The line loop, the listing's grouping and rendering loops, and the reminder loop are `while` loops.
  - Each loop has invariants tying it to a specification function (`RunLines`, `GroupMap`/`ListingText`, `ProcessAll`/`Formatted`).
  - `start`/`stop` change the fields of a `SchedulerService` object.

Some facts about the code that the model keeps as they are:

- `!tugas-tambah` takes exactly three comma fields and has no lead-time field. A fourth field is a format error, and every reminder fires 15 minutes before its deadline.
- The future check rejects only instants strictly before now. An instant equal to now is accepted.
- `Schedule.delete` does not look at `is_active`: deleting an already deleted row again still answers true.
- The due scan selects `r.*, s.*`. The second `id` column, the schedule's, overwrites the reminder's, so the scan's `reminderId` is the schedule id. Under the id invariant above the two ids coincide (`Schedule.UpcomingAt` proves `t.reminders[d.reminderId - 1].id == d.reminderId`), so marking by that id marks the right reminder. The model keeps the aliased value and proves it harmless rather than hiding it.

## Model

| member | source | states |
|---|---|---|
| GroupSettings.TzToOffset | bot/Backend/src/models/GroupSettings.js:31-33 | The offset is always 420, 480 or 540 minutes. A label that is neither one of the three zones nor a property name every object inherits maps to 420 |
| GroupSettings.ZoneOffsets | bot/Backend/src/models/GroupSettings.js:3 | WIB is UTC+7, WITA UTC+8 and WIT UTC+9, in minutes |
| GroupSettings.OffsetIdentifiesZone | bot/Backend/src/models/GroupSettings.js:3 | Distinct zones have distinct offsets |
| GroupSettings.GetTimezone | bot/Backend/src/models/GroupSettings.js:22-29 | The result is always one of WIB/WITA/WIT. A chat without a row, or with a stored value outside the three, gets WIB; otherwise the stored value |
| GroupSettings.GetOffset | bot/Backend/src/models/GroupSettings.js:35-38 | The offset lies in {420, 480, 540} and equals `tzToOffset(getTimezone(chat))` |
| GroupSettings.SetTimezoneResolves | bot/Backend/src/models/GroupSettings.js:40-54 | Succeeds iff the upper-cased input is a zone. A failure leaves the table unchanged. A success makes `getTimezone` return that zone, leaves every other chat's zone alone, and adds at most this chat's key (update or insert) |
| GroupSettings.SettingsTable.SetTimezone | bot/Backend/src/models/GroupSettings.js:40-54 | The in-place upsert returns the flag and leaves the table that the transition `SetTimezoneRows` gives; on success `getTimezone` reads back the upper-cased input |
| Schedule.ShownText | bot/Backend/src/models/Schedule.js:9-10 | A name or subject read back through `new Schedule(row)` prints as itself when non-empty; an empty column prints as `undefined`, so the printed text is never empty |
| Schedule.ShownTextStable | bot/Backend/src/models/Schedule.js:9-10 | The fallback applies once, and a text prints unchanged exactly when it is non-empty |
| Schedule.IsWeeklyOf | bot/Backend/src/models/Schedule.js:14 | `isWeekly` defaults to false when absent; a column value 1 gives true, 0 falls back to the property |
| Schedule.IsActiveOf | bot/Backend/src/models/Schedule.js:15 | `isActive` defaults to true when absent; a present column wins over the property |
| Schedule.CreateAddsOne | bot/Backend/src/models/Schedule.js:21-51 | `create` appends exactly one schedule and one reminder and changes no existing row. The schedule carries the given fields, is active, has the next id and the UTC weekday name. The reminder points to it, is unsent and fires 15 minutes before. `findById` finds the new row |
| Schedule.CreateConsistent | bot/Backend/src/models/Schedule.js:21-51 | `create` keeps the id and lockstep invariant of the two tables |
| Schedule.ScheduleStore.Create | bot/Backend/src/models/Schedule.js:21-56 | The in-place insert leaves the tables that `CreateT` gives and returns the row just stored |
| Schedule.ScheduleStore.CreateReminder | bot/Backend/src/models/Schedule.js:156-171 | Appends one unsent reminder for the schedule at `dateTime - 15` minutes with the next id; schedules unchanged |
| Schedule.FindById | bot/Backend/src/models/Schedule.js:59-73 | None iff no row has the id; otherwise a stored row with that id |
| Schedule.FindByIdConsistent | bot/Backend/src/models/Schedule.js:59-68 | Under AUTOINCREMENT ids, id `k` is row `k - 1`, and ids outside 1..n find nothing |
| Schedule.ActiveOf | bot/Backend/src/models/Schedule.js:78-80 | Exactly the active rows of the chat |
| Schedule.FindByUser | bot/Backend/src/models/Schedule.js:76-85 | Exactly the active rows of the chat, each as often as stored, in ascending datetime order |
| Schedule.FindByName | bot/Backend/src/models/Schedule.js:93-110 | None iff no active row of the chat has exactly that name; otherwise the first such row in table order |
| Schedule.DueOf | bot/Backend/src/models/Schedule.js:119-121 | Exactly the joined rows whose reminder time is not after now, unsent, with an active schedule |
| Schedule.JoinedAll | bot/Backend/src/models/Schedule.js:117-118 | The join pairs each reminder with the schedule its `schedule_id` names |
| Schedule.JoinedConsistent | bot/Backend/src/models/Schedule.js:117-118 | Under the id invariant the join pairs reminder `i` with schedule `i` |
| Schedule.DuePairsDistinct | bot/Backend/src/models/Schedule.js:113-122 | The due rows are distinct and sorted by reminder time |
| Schedule.DuePairsConsistent | bot/Backend/src/models/Schedule.js:113-130 | Every due row is a stored, due reminder with its own schedule, and every due reminder appears |
| Schedule.UpcomingAt | bot/Backend/src/models/Schedule.js:117-130 | The k-th scan result is due, its (aliased) `reminderId` is also the id of the reminder row it came from, and its schedule is that reminder's schedule |
| Schedule.UpcomingComplete | bot/Backend/src/models/Schedule.js:113-130 | Every due reminder appears in the scan |
| Schedule.UpcomingMembers | bot/Backend/src/models/Schedule.js:113-130 | An entry is in the scan iff it is a due reminder paired with its schedule |
| Schedule.UpcomingOrder | bot/Backend/src/models/Schedule.js:122-128 | Scan entries come in ascending time order and have distinct ids |
| Schedule.UpcomingReminders | bot/Backend/src/models/Schedule.js:113-130 | Membership, order, distinctness and provenance of the scan results together |
| Schedule.DeleteSpec | bot/Backend/src/models/Schedule.js:138-148 | True iff a row has both the id and the chat, whatever its active flag. Only that row is deactivated, reminders are untouched, a miss changes nothing, and afterwards `findByUser` no longer lists it |
| Schedule.ScheduleStore.Delete | bot/Backend/src/models/Schedule.js:138-153 | The in-place soft delete returns the flag and leaves the tables that `DeleteT` gives |
| Schedule.MarkSentRows | bot/Backend/src/models/Schedule.js:174-183 | Only the reminder with that id gets `is_sent = 1`; schedules unchanged |
| Schedule.MarkSentSpec | bot/Backend/src/models/Schedule.js:174-183 | Marks only that reminder, is idempotent, and the reminder no longer appears in any later due scan |
| Schedule.ScheduleStore.MarkReminderSent | bot/Backend/src/models/Schedule.js:174-188 | The in-place update leaves the tables that `MarkSentT` gives |
| Query.SortBy | bot/Backend/src/models/Schedule.js:81 | `ORDER BY`: a sorted permutation of its input |
| Query.SortByStrictlySorted | bot/Backend/src/controllers/commandController.js:143 | A sequence already in strictly ascending key order is left as it is |
| Civil.ToFromInstant | bot/Backend/src/controllers/commandController.js:59 | Converting an instant to a calendar reading and back gives the instant |
| Civil.FromToInstant | bot/Backend/src/controllers/commandController.js:59 | Converting a valid calendar reading to an instant and back gives the reading |
| Civil.DateTimeOrderIsInstantOrder | bot/Backend/src/controllers/commandController.js:72 | Calendar order of readings is the order of their instants |
| Civil.WeekLaterSameWeekday | bot/Backend/src/services/schedulerService.js:99-100 | One week later falls on the same weekday at the same hour and minute |
| Stamps.ParseStoredText | bot/Backend/src/controllers/commandController.js:93 | Parsing the stored `YYYY-MM-DD HH:mm:ss` text of an instant before year 10000 gives the instant back |
| Stamps.StoredTextOfParsed | bot/Backend/src/controllers/commandController.js:134 | Every text the stored-format parser accepts is the formatting of the instant it yields |
| Stamps.StoredTextOrder | bot/Backend/src/models/Schedule.js:119-122 | Byte-wise order and equality of stored texts are chronological order and equality |
| Stamps.ParseEnteredComplete | bot/Backend/src/controllers/commandController.js:59 | Every calendar-valid reading with a four-digit year, written `DD-MM-YYYY HH:mm`, is accepted by the strict parser |
| Stamps.ParseEnteredSound | bot/Backend/src/controllers/commandController.js:59-61 | The strict parser accepts only calendar-valid readings written in exactly that layout |
| Stamps.KeyDayOfDateKey | bot/Backend/src/controllers/commandController.js:143 | Reading a `DD/MM/YYYY` key back as a date gives that date's day number |
| Stamps.DateKeyInjective | bot/Backend/src/controllers/commandController.js:135-136 | Distinct dates have distinct `DD/MM/YYYY` keys |
| CommandController.Start | bot/Backend/src/controllers/commandController.js:7-15 | The welcome text, or the thrown message of an error at the zone lookup |
| CommandController.Commands | bot/Backend/src/controllers/commandController.js:18-33 | The help text naming the group's zone, or the thrown message of an error at the zone lookup |
| CommandController.UnknownCommand | bot/Backend/src/controllers/commandController.js:210-225 | The `tugas` hint iff the keyword starts with `tugas`. The timezone hint iff it does not and contains `timezone` or is `tz`. Otherwise null |
| CommandController.CommaFields | bot/Backend/src/controllers/commandController.js:39-40 | One field per comma-separated piece of the space-joined arguments |
| CommandController.AddTaskArity | bot/Backend/src/controllers/commandController.js:39-53 | Any field count other than 3 (four fields included) gives the format error and stores nothing |
| CommandController.AddTaskBadTime | bot/Backend/src/controllers/commandController.js:59-68 | A third field the strict parser rejects gives the time-format error naming the input and stores nothing |
| CommandController.AddTaskParsed | bot/Backend/src/controllers/commandController.js:55-68 | With three fields and a valid time, the handler goes on with the trimmed name, subject and parsed reading |
| CommandController.AddAtClock | bot/Backend/src/controllers/commandController.js:57-107 | The UTC instant is the entered reading minus the group offset. Before now: the past-time reply and no change. Otherwise: exactly one new active, non-weekly row for this chat and sender with the name, subject and that instant, and the success reply, which prints the name and subject as the new row reads back (`undefined` when empty) |
| CommandController.NotPastIsInstant | bot/Backend/src/controllers/commandController.js:71-72 | An accepted time is never before the epoch |
| CommandController.PastWithinMinute | bot/Backend/src/controllers/commandController.js:72 | An instant equal to now is accepted. The same minute a few milliseconds later is already past |
| CommandController.EnteredTimeIsShown | bot/Backend/src/controllers/commandController.js:134-148 | Under an unchanged zone the listing shows the date and wall clock that were entered |
| CommandController.ListEmpty | bot/Backend/src/controllers/commandController.js:124-129 | The no-task reply iff the chat has no active task |
| CommandController.ListGroupsChronological | bot/Backend/src/controllers/commandController.js:132-152 | Date groups appear in strictly ascending date order. Every task's date has a group, and a group holds exactly the tasks of its date with their local times |
| CommandController.KeysOfSpec | bot/Backend/src/controllers/commandController.js:132-138 | The group keys are distinct and are exactly the local dates of the tasks |
| CommandController.GroupOfMembers | bot/Backend/src/controllers/commandController.js:132-138 | A group holds exactly its date's tasks with their local readings |
| CommandController.GroupMapSpec | bot/Backend/src/controllers/commandController.js:132-138 | The dictionary has one key per date and each entry is that date's group in store order |
| CommandController.GroupByDate | bot/Backend/src/controllers/commandController.js:132-138 | The `forEach` fills the dictionary with the groups and records the keys in first-seen order |
| CommandController.RenderListing | bot/Backend/src/controllers/commandController.js:140-157 | The nested loops build the listing text of the sorted groups; each item prints its name and subject as read back (`undefined` when empty) |
| CommandController.AppendItems | bot/Backend/src/controllers/commandController.js:147-150 | The inner loop appends one item line per task of a group, with its `HH:mm`, the zone, and its name and subject as read back (`undefined` when empty) |
| CommandController.ListingMessage | bot/Backend/src/controllers/commandController.js:131-157 | Grouping then rendering yields the listing message, with names and subjects as read back |
| CommandController.DeleteTaskSpec | bot/Backend/src/controllers/commandController.js:166-207 | An empty trimmed name gives the empty-name reply with no change. A miss gives not-found with no change. Otherwise only the task `findByName` returned is deactivated, and the reply names it |
| CommandController.DeleteTaskLateFault | bot/Backend/src/controllers/commandController.js:190-206 | An error when the reply's offset is read after a successful delete leaves the store as a clean run does, the found task inactive, and replies with the apology; without a delete it changes nothing |
| CommandController.EditTimezoneSpec | bot/Backend/src/controllers/commandController.js:227-236 | An upper-cased first argument outside WIB/WITA/WIT gives the format error with no change. Otherwise the chat's zone is set, read back as that zone, and confirmed |
| CommandController.HandleStart | bot/Backend/src/controllers/commandController.js:7-15 | Returns what `Start` specifies |
| CommandController.HandleCommands | bot/Backend/src/controllers/commandController.js:18-33 | Returns what `Commands` specifies |
| CommandController.HandleTugasTambah | bot/Backend/src/controllers/commandController.js:36-115 | Changes the store and replies exactly as `AddTask` specifies, including the apology for an error at the first lookup and `undefined` for an empty name or subject |
| CommandController.AddParsed | bot/Backend/src/controllers/commandController.js:57-107 | After validation: changes the store and replies as `AddAt` specifies, printing the created row as it reads back |
| CommandController.HandleTugas | bot/Backend/src/controllers/commandController.js:118-163 | Replies exactly as `ListTasks` specifies and changes nothing |
| CommandController.HandleTugasHapus | bot/Backend/src/controllers/commandController.js:166-207 | Changes the store and replies exactly as `DeleteTask` specifies, including an error after the delete: the task stays deleted and the reply is the apology |
| CommandController.HandleTimezoneEdit | bot/Backend/src/controllers/commandController.js:227-236 | Changes the settings and replies exactly as `EditTimezone` specifies |
| CommandProcessor.Prefix | bot/Backend/src/middleware/commandProcessor.js:41 | The prefix is `BOT_PREFIX` when set and non-empty, else `!`; never empty |
| CommandProcessor.NormalizeDashes | bot/Backend/src/middleware/commandProcessor.js:50 | The length is kept and each of the six dash code points becomes `-`. Every other character is unchanged, and no dash code point remains |
| CommandProcessor.Resolve | bot/Backend/src/middleware/commandProcessor.js:54 | `timezone` and `tz` become `timezone-edit`; every other keyword passes unchanged |
| CommandProcessor.ParseLine | bot/Backend/src/middleware/commandProcessor.js:45-54 | No command iff the trimmed line does not start with the prefix |
| CommandProcessor.ParseTextTokens | bot/Backend/src/middleware/commandProcessor.js:51-53 | The raw keyword is the lower-cased text before the first space. The arguments, joined with spaces, give back the text after it, empty pieces included, and no argument contains a space |
| CommandProcessor.ParseLineTokens | bot/Backend/src/middleware/commandProcessor.js:45-53 | The same token facts for a prefixed line's normalized command text, which holds no dash code point |
| CommandProcessor.TimezoneAliases | bot/Backend/src/middleware/commandProcessor.js:54 | A line resolves to `timezone-edit` iff its raw keyword is `timezone`, `tz` or `timezone-edit` |
| CommandProcessor.KeywordRoutes | bot/Backend/src/middleware/commandProcessor.js:58-76 | Each of the six keywords reaches its own handler with the line's arguments |
| CommandProcessor.UnknownKeyword | bot/Backend/src/middleware/commandProcessor.js:77-78 | Any other keyword goes to the unknown-command handler with the raw keyword and changes nothing |
| CommandProcessor.ResponseTextNonEmpty | bot/Backend/src/middleware/commandProcessor.js:99-105 | Every collected reply has non-empty text |
| CommandProcessor.Collect | bot/Backend/src/middleware/commandProcessor.js:97-106 | A reply is collected when present and the line counts. A thrown line contributes its error text and does not count |
| CommandProcessor.LineStep | bot/Backend/src/middleware/commandProcessor.js:95-106 | A line whose trimmed form lacks the prefix adds nothing, counts nothing and changes nothing. Any line adds at most one reply and one count |
| CommandProcessor.RunLinesStep | bot/Backend/src/middleware/commandProcessor.js:94-107 | The loop over `i + 1` lines is the loop over `i` lines followed by line `i`, which sees the state the first `i` left |
| CommandProcessor.RunLinesAppend | bot/Backend/src/middleware/commandProcessor.js:94-107 | Running two blocks of lines is running the first, then the second on its result: replies keep line order and a thrown line does not stop later lines |
| CommandProcessor.RunLinesBounds | bot/Backend/src/middleware/commandProcessor.js:94-107 | At most one reply and one count per line |
| CommandProcessor.RunLinesNoCommand | bot/Backend/src/middleware/commandProcessor.js:95 | A message without a prefixed line produces nothing and changes nothing |
| CommandProcessor.RunLine | bot/Backend/src/middleware/commandProcessor.js:95-106 | One iteration of the loop does what `LineStep` specifies |
| CommandProcessor.MessageLoop | bot/Backend/src/middleware/commandProcessor.js:89-107 | The loop's replies, count and store changes are those of `RunLines` |
| CommandProcessor.ProcessSingleLine | bot/Backend/src/middleware/commandProcessor.js:44-80 | Parsing, aliasing and dispatch of one line change the store and answer as `SingleLine` specifies |
| CommandProcessor.PhoneOfPersonalChat | bot/Backend/src/middleware/commandProcessor.js:85 | The sender's phone is the chat id without `@c.us` |
| CommandProcessor.RemoveAbsent | bot/Backend/src/middleware/commandProcessor.js:85 | A chat id without `@c.us` is its own phone |
| CommandProcessor.FinishSends | bot/Backend/src/middleware/commandProcessor.js:109-146 | A zero count sends nothing, even with collected errors. Otherwise a non-empty reply list is sent as exactly one message joined with the divider. A failed send ends in the failure status and one apology, sent only when the sender is known |
| CommandProcessor.SendReplies | bot/Backend/src/middleware/commandProcessor.js:109-126 | Sends and answers as `Finish` specifies |
| CommandProcessor.WebhookIgnores | bot/Backend/src/middleware/commandProcessor.js:24-31 | A request whose event is not `message` is answered without any change or send |
| CommandProcessor.HandleWebhook | bot/Backend/src/middleware/commandProcessor.js:19-148 | The whole middleware changes the store and settings, answers and sends as `Webhook` specifies |
| TimezoneParsing.Parse | bot/Backend/scripts/verifyTimezoneParsing.js:1-3 | null iff the trimmed input does not start with the prefix |
| TimezoneParsing.ParseAgrees | bot/Backend/scripts/verifyTimezoneParsing.js:1-11 | On every input and prefix, `parse` gives exactly the `{resolved, args}` of the line parser in `processSingleLine` |
| TimezoneParsing.ParseFields | bot/Backend/scripts/verifyTimezoneParsing.js:5-9 | `resolved` is `timezone-edit` iff the lower-cased first token is `timezone`, `tz` or `timezone-edit`, and otherwise that token. `args` joined by spaces is the text after the first space. No argument holds a dash code point |
| TimezoneParsing.SampleTimezoneEdit | bot/Backend/scripts/verifyTimezoneParsing.js:14 | `!timezone-edit WIB` resolves to `timezone-edit` with `[WIB]` |
| TimezoneParsing.SampleTimezone | bot/Backend/scripts/verifyTimezoneParsing.js:15 | `!timezone WIB` resolves to `timezone-edit` with `[WIB]` |
| TimezoneParsing.SampleTz | bot/Backend/scripts/verifyTimezoneParsing.js:16 | `!tz WITA` resolves to `timezone-edit` with `[WITA]` |
| TimezoneParsing.SampleEnDash | bot/Backend/scripts/verifyTimezoneParsing.js:17 | The en-dash spelling resolves to `timezone-edit` with `[WIT]` |
| TimezoneParsing.SampleEmDash | bot/Backend/scripts/verifyTimezoneParsing.js:18 | The em-dash spelling resolves to `timezone-edit` with `[WIB]` |
| Scheduler.StartStop | bot/Backend/src/services/schedulerService.js:12-39 | `start` runs the service, does nothing when already running and is idempotent. `stop` leaves it stopped with no job and is idempotent. Both keep "running iff a job exists" |
| Scheduler.SchedulerService.constructor | bot/Backend/src/services/schedulerService.js:7-10 | A new service is stopped with no job |
| Scheduler.SchedulerService.Start | bot/Backend/src/services/schedulerService.js:12-29 | Updates the fields as `StartT` specifies |
| Scheduler.SchedulerService.Stop | bot/Backend/src/services/schedulerService.js:31-39 | Updates the fields as `StopT` specifies |
| Scheduler.StatusOf | bot/Backend/src/services/schedulerService.js:134-142 | The status reports the running flag, the cron expression `* * * * *` with its description, and `Next minute` iff a job exists |
| Scheduler.SchedulerService.CheckAndSendReminders | bot/Backend/src/services/schedulerService.js:41-59 | One tick leaves the tables and hands the gateway the messages that `Tick` gives: the notices of the due reminders whose text was formatted, in scan order |
| Scheduler.SchedulerService.ProcessReminders | bot/Backend/src/services/schedulerService.js:52-54 | The loop handles the due reminders one at a time, in scan order. The store ends as `ProcessAll` gives, and the sends are the notices of the reminders whose formatting succeeded, in order (`Formatted`) |
| Scheduler.SchedulerService.ProcessReminder | bot/Backend/src/services/schedulerService.js:61-94 | One reminder: an error in the zone lookups of the formatting sends nothing and changes nothing; otherwise the notice is handed to the gateway first, then the store changes as `ProcessT` gives |
| Scheduler.SchedulerService.CreateNextWeeklyReminder | bot/Backend/src/services/schedulerService.js:96-120 | Creates the week-later copy, or changes nothing when the insert fails or a copied text field is empty (it reads back as `undefined`, which its NOT NULL column refuses) |
| Scheduler.Notices | bot/Backend/src/services/schedulerService.js:52-54 | One formatted notice per due reminder |
| Scheduler.ReminderMessageFields | bot/Backend/src/services/schedulerService.js:86-94 | The reminder text contains the task name and the subject as read back (`undefined` when empty), the due time at the group offset and the zone label. That local time reads as the due instant plus the offset |
| Scheduler.ProcessSpec | bot/Backend/src/services/schedulerService.js:61-84 | A failed zone lookup, send or mark changes nothing. Otherwise only that reminder is marked sent, existing schedules are kept, and one schedule is added iff the task is weekly, the clone insert succeeds and no copied text field is empty |
| Scheduler.WeeklyClone | bot/Backend/src/services/schedulerService.js:77-113 | Exactly one new schedule: same chat, phone, name, subject and room, weekly, active, one week later on the same weekday. Its unsent reminder fires 15 minutes before, and the original rows are unchanged |
| Scheduler.NextWeekCopy | bot/Backend/src/services/schedulerService.js:96-113 | The clone insert alone appends the week-later copy and its reminder |
| Scheduler.CloneFailureKeepsMark | bot/Backend/src/services/schedulerService.js:72-119 | A clone that is not inserted (a failed insert, or an empty text field that reads back as `undefined`) adds no schedule but keeps the mark, so the reminder is never due again |
| Scheduler.ProcessAllRows | bot/Backend/src/services/schedulerService.js:52-54 | After the loop each reminder is sent iff it was sent before or some completed attempt marked it, and existing schedules are kept |
| Scheduler.TickNothingDue | bot/Backend/src/services/schedulerService.js:44-48 | A tick with nothing due, or whose scan fails, sends nothing and changes nothing |
| Scheduler.TickSendsInOrder | bot/Backend/src/services/schedulerService.js:41-94 | One message per due reminder whose text was formatted, in scan (ascending time) order, none skipped. Each goes to its task's chat and names the task as read back. When every formatting succeeds, the messages are exactly one per due reminder |
| Scheduler.TickFailedSendStaysDue | bot/Backend/src/services/schedulerService.js:61-84 | A reminder whose zone lookup, send or mark failed stays unmarked and is due again at any later tick, whatever happened to the others |
| Scheduler.TickMarksCompleted | bot/Backend/src/services/schedulerService.js:66-72 | A reminder sent and marked in this tick is sent afterwards and never due again |
| Scheduler.SentIsNotDue | bot/Backend/src/models/Schedule.js:119-120 | A sent reminder is not in any due scan |

## Left out

- HTTP routing, the WhatsApp gateway client, media conversion, database DDL and the schema migration are not part of this model. Sending is a delivery outcome given as a parameter.
- The cron timer that calls the tick every minute is not modelled. Neither is concurrency between webhook handling and ticks. A tick is one method call with the current minute as a parameter.
- The tick reads `now` as whole minutes. Stored times always end in `:00` seconds, so `reminder_datetime <= now` on the text holds exactly when it holds for the current minute rounded down.
- `sendTestReminder` is a single gateway call and is not modelled. `forceCheckReminders` is one more call of the tick, `CheckAndSendReminders`.
- `Schedule.toDisplayString` is not called anywhere and is not modelled.
- Scheduler.ReminderMessageFields: the relative-time phrase (`local.from(nowLocal)`) is the clock library's wording. It is an input (`Attempt.phrase`), and nothing is proved about it.
- Scheduler.WeeklyClone: `createNextWeeklyReminder` parses and formats the stored text in the server's own zone. Doing both in the same zone adds seven calendar days to the wall-clock text, which the model states as +10080 minutes. A local time that falls into a daylight-saving gap of the server's zone is not modelled.
- CommandController.AddAtClock: `moment(timeStr, 'DD-MM-YYYY HH:mm', true)` reads the entered wall clock in the server's own zone before `utcOffset(offset, true)` moves it to the group's zone. A wall clock in a daylight-saving gap of the server's zone is shifted by the clock library. The model keeps the entered reading, so that case is not covered.
- CommandController.EnteredTimeIsShown: holds for entered readings the server's zone does not shift. A reading in a daylight-saving gap of the server's zone, as under `AddAtClock`, is not covered.
- CommandController.AddParsed: the same daylight-saving gap as `AddAtClock`.
- CommandController.HandleTugasTambah: the same daylight-saving gap as `AddAtClock`.
- Scheduler.SchedulerService.ProcessReminder: a task stored with an empty chat id reads back as `undefined`. The source then looks up the zone of `undefined` and sends to it, while the model addresses the notice to the empty chat id and looks up that id. The lookup and delivery outcomes are inputs either way.
- The strict `DD-MM-YYYY HH:mm` parser treats hours 00-23 as valid. The clock library's strict-mode edge cases, such as `24:00`, are left unspecified.
- Storage failures are modelled as one optional fault per command line, struck either at the handler's first storage access or at the first one after its write (only `tugas-hapus` makes one, for its reply). In the scheduler they are one flag per step (scan, the zone lookups of the formatting, mark, weekly insert). A failure between the two inserts of `create` is not modelled, so `create` is all-or-nothing.
- `toLowerCase` and `toUpperCase` map ASCII letters only. Non-ASCII case mapping is not modelled.
- Query.SortBy: SQLite does not promise an order among rows with equal `ORDER BY` keys. The model keeps their table order, as a stable sort does. So the exact `!tugas` text (`ListTasks`, `HandleTugas`, `ListingMessage`) puts tasks due at the same minute in table order, which is one of the orders SQLite may return.
- Schedule.FindByName: the SELECT of `findByName` has no `ORDER BY`. The model takes `results[0]` to be the first match in table (rowid) order. A plain table scan returns that row, but SQL does not promise it.
- GroupSettings.TzToOffset: `TZ_OFFSETS` is a plain object literal. A label that names a member inherited from `Object.prototype` (`constructor`, `toString`, `__proto__` and the like) returns that member instead of 420. The model, whose offsets are numbers, returns 420 there and promises nothing for those labels. No call site passes one: `getOffset` passes only what `getTimezone` returns, which is always a zone (`GroupSettings.GetOffset`).
- CommandController.ListGroupsChronological: the date sort compares `DD/MM/YYYY` keys by their calendar day, for dates with four-digit years. Later years are outside the stored format.
- The object shapes of `{ reminderId, schedule }` and `{ resolved, args }` are records (`Due`, `Parsed`), and the logging is left out.
