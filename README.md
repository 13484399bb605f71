# Momentum — a verified model of its state stores and request guards

Momentum is a personal productivity application. A Vue front end keeps tasks,
notes, calendar events and toast notifications in Vuex stores. It signs users in
against a mock user table, guards its routes, and raises browser reminders before
events and task deadlines. Two back ends answer the front end:

- a Flask service checks bearer tokens, records Google sign-ins and counts task
  statuses for the dashboard;
- a Node service sends reminder e-mails.

This project models those decision-making parts in Dafny and proves what they
promise.

| module | models |
|---|---|
| `Base` | `Option`, `Result`, JavaScript truthiness of an optional string |
| `RecordList` | `findIndex`, `splice` of the first match, and `filter` by id, which every store uses |
| `Tasks` | the task store: its mutations as a class over `list`, its getters as filters |
| `Notes` | the notes store, with `notes` possibly `null` |
| `Calendar` | the calendar store: event mutations, week and month arithmetic, and generation of recurring occurrences (a loop) |
| `Toasts` | the toast-notification store and its auto-removal |
| `Reminders` | the browser reminder service: the once-per-item-and-lead-time check, as functions and as a class |
| `Auth` | the mock authentication store: the user table, login, register, logout, checkAuth, and browser-storage mirroring |
| `Router` | the route table and the `beforeEach` guard |
| `Backend` | `check_token` (with Python's `str.split`), `google_auth`'s field check, and the dashboard's status-counting loop |
| `EmailTemplates` | the subject and body of the event and task reminder e-mails |
| `EmailRoute` | the `POST /email` handler's checks and dispatch |

Conventions:

- An instant is an integer count of milliseconds read in a zone without an
  offset, so a day is exactly 86 400 000 ms and day 0 (1970-01-01) is a Thursday.
- Whatever the program reads from outside is a parameter of the model:
  - the clock (`now`, `horizon`);
  - fresh ids (`ids`);
  - the identity provider (`verify`);
  - the user-document lookup (`userExists`);
  - notification permission (`granted`);
  - the mail server's verdict (`delivered`);
  - date formatting (`formatDate`).
- Where the written behaviour is surprising, the model follows the code and proves
  what the code does:
  - A task's completion flag flips back and forth freely.
  - The dashboard buckets tasks by their `status` string only.
  - A Sunday's week runs to the *following* Sunday.
  - The month view stops at midnight of the month's last day.

## Model

| member | source | states |
|---|---|---|
| RecordList.FindIndex | frontend/src/store/modules/tasks.js:13 | the index found holds the id and no earlier record does; `None` exactly when no record holds it |
| RecordList.ReplaceFirst | frontend/src/store/modules/tasks.js:12-17 | length kept; an unknown id changes nothing; the first record with the id becomes the new record, and every other position is kept |
| RecordList.Keep | frontend/src/store/modules/tasks.js:73-74 | every kept record passes the test and comes from the list, and every record of the list that passes is kept |
| RecordList.KeepAppend | frontend/src/store/modules/tasks.js:73-74 | filtering a concatenation is the concatenation of the filtered parts, so order is kept |
| RecordList.KeepAll | frontend/src/store/modules/tasks.js:19 | a filter that every record passes returns the list unchanged |
| RecordList.KeepPartition | frontend/src/store/modules/tasks.js:73-74 | a filter and its complement split the list: their sizes add up to the list's size |
| RecordList.RemoveId | frontend/src/store/modules/tasks.js:18-20 | no kept record has the id, every record without it is kept, and an absent id leaves the list as it was |
| RecordList.RemoveIdAppend | frontend/src/store/modules/tasks.js:18-20 | removal distributes over concatenation |
| RecordList.RemoveIdSize | frontend/src/store/modules/tasks.js:18-20 | the size after removal is the old size minus the records that carry the id |
| Tasks.Toggled | frontend/src/store/modules/tasks.js:21-26 | ids and length kept; exactly the first task with the id has `completed` negated; an unknown id changes nothing |
| Tasks.ToggleTwice | frontend/src/store/modules/tasks.js:21-26 | toggling the same id twice restores the list |
| Tasks.FindIndexSameKeys | frontend/src/store/modules/tasks.js:22 | lists with the same ids position by position have the same first match |
| Tasks.CompletedPendingPartition | frontend/src/store/modules/tasks.js:73-74 | completed and pending tasks are disjoint and together as many as the list |
| Tasks.TaskStore.SetTasks | frontend/src/store/modules/tasks.js:6-8 | the list becomes the given one |
| Tasks.TaskStore.AddTask | frontend/src/store/modules/tasks.js:9-11 | one longer, earlier entries unchanged, the new task last |
| Tasks.TaskStore.UpdateTask | frontend/src/store/modules/tasks.js:12-17 | the new list is `ReplaceFirst` of the old |
| Tasks.TaskStore.DeleteTask | frontend/src/store/modules/tasks.js:18-20 | the new list is `RemoveId` of the old |
| Tasks.TaskStore.ToggleTaskStatus | frontend/src/store/modules/tasks.js:21-26 | the new list is `Toggled` of the old |
| Tasks.TaskStore.CompletedTasks | frontend/src/store/modules/tasks.js:73 | exactly the completed tasks of the list |
| Tasks.TaskStore.PendingTasks | frontend/src/store/modules/tasks.js:74 | exactly the tasks not completed |
| Tasks.TaskStore.TasksByPriority | frontend/src/store/modules/tasks.js:77-78 | exactly the tasks of that priority |
| Tasks.TaskStore.TasksByCategory | frontend/src/store/modules/tasks.js:81-82 | exactly the tasks of that category |
| Notes.NoteStore.SetNotes | frontend/src/store/modules/notes.js:10-12 | `notes` becomes the given value, `null` included |
| Notes.NoteStore.AddNote | frontend/src/store/modules/notes.js:13-15 | on a `null` list it throws (a TypeError) and nothing changes; otherwise the note comes first and every earlier note moves back one place |
| Notes.NoteStore.UpdateNote | frontend/src/store/modules/notes.js:16-21 | on a `null` list it throws and nothing changes; otherwise the first note with the id is replaced |
| Notes.NoteStore.DeleteNote | frontend/src/store/modules/notes.js:22-24 | on a `null` list it throws and nothing changes; otherwise every note with the id is removed |
| Notes.NoteStore.SetLoading | frontend/src/store/modules/notes.js:25-27 | sets `loading` alone |
| Notes.NoteStore.SetError | frontend/src/store/modules/notes.js:28-30 | sets `error` alone |
| Notes.NoteStore.AllNotes | frontend/src/store/modules/notes.js:101 | the notes, or the empty list when `notes` is `null` |
| Notes.NoteStore.PinnedNotes | frontend/src/store/modules/notes.js:102 | exactly the pinned notes |
| Notes.NoteStore.NotesByCategory | frontend/src/store/modules/notes.js:103 | exactly the notes of that category |
| Calendar.Weekday | frontend/src/store/modules/calendar.js:104 | `getDay()` lies in 0..6 |
| Calendar.ShiftDays | frontend/src/store/modules/calendar.js:105-106 | moving by whole days moves the weekday as many places and keeps the time of day |
| Calendar.StartOfWeek | frontend/src/store/modules/calendar.js:102-107 | the week start is a whole number of days before the instant, less than seven |
| Calendar.EndOfWeek | frontend/src/store/modules/calendar.js:109-114 | the week end is a whole number of days after the instant, at least one and at most seven |
| Calendar.StartOfWeekIsMonday | frontend/src/store/modules/calendar.js:102-107 | the week starts on a Monday, at the same time of day, at most six days before the instant |
| Calendar.EndOfWeekIsSunday | frontend/src/store/modules/calendar.js:109-114 | the week ends on a Sunday after the instant: six days after the start, but thirteen when the instant is a Sunday |
| Calendar.IsSameDay | frontend/src/store/modules/calendar.js:96-100 | two instants in the same day (same day number since the epoch) are on the same day |
| Calendar.MonthStart | frontend/src/store/modules/calendar.js:86 | the month view starts at a midnight |
| Calendar.MonthEnd | frontend/src/store/modules/calendar.js:87 | the month view ends at a midnight |
| Calendar.LaterOnLastDayExcluded | frontend/src/store/modules/calendar.js:85-92 | an event later on the month's last day is on that day yet outside the month view, whose end is that day's midnight |
| Calendar.Step | frontend/src/store/modules/calendar.js:137-150 | the next start is later exactly for the four recognised recurrences: one day, seven days, or the next month or year; an unrecognised one stays put |
| Calendar.Occurrence | frontend/src/store/modules/calendar.js:118-133 | a copy of the event that takes the given id and starts at the given instant, with the same duration and every other field kept |
| Calendar.OccurrencesFrom | frontend/src/store/modules/calendar.js:126-151 | occurrences exist exactly when the start is before the horizon. The first is at the start, and each is an `Occurrence` of the event, with the next fresh id, before the horizon. |
| Calendar.OccurrencesStepApart | frontend/src/store/modules/calendar.js:127-150 | consecutive starts are one `Step` apart, and the step after the last reaches the horizon |
| Calendar.EmitOccurrence | frontend/src/store/modules/calendar.js:127-151 | one pass of the loop, emitting the current occurrence and stepping on, keeps the total list of occurrences |
| Calendar.Occurrences | frontend/src/store/modules/calendar.js:116-154 | no occurrence exactly when the event starts at or after the horizon |
| Calendar.OccurrencesIncrease | frontend/src/store/modules/calendar.js:127-150 | occurrence starts never precede the start and strictly increase, so no two coincide |
| Calendar.DailyWeeklySpacing | frontend/src/store/modules/calendar.js:138-143 | daily occurrences are one day apart, weekly ones seven |
| Calendar.OccurrencesStartAtEvent | frontend/src/store/modules/calendar.js:116-134 | none when the event starts at or after the horizon; otherwise the first is at the event's start and all keep its duration |
| Calendar.GenerateRecurring | frontend/src/store/modules/calendar.js:116-154 | the loop's list equals `Occurrences` |
| Calendar.EventStore.SetEvents | frontend/src/store/modules/calendar.js:6-8 | the list becomes the given one |
| Calendar.EventStore.AddEventMutation | frontend/src/store/modules/calendar.js:9-11 | the event is appended |
| Calendar.EventStore.UpdateEvent | frontend/src/store/modules/calendar.js:12-17 | the first event with the id is replaced |
| Calendar.EventStore.DeleteEvent | frontend/src/store/modules/calendar.js:18-20 | every event with the id is removed |
| Calendar.EventStore.AddEvent | frontend/src/store/modules/calendar.js:38-47 | a recurring event appends all its occurrences in order; any other event is appended alone |
| Calendar.EventStore.EventsForDay | frontend/src/store/modules/calendar.js:67-100 | exactly the events on the same calendar day |
| Calendar.EventStore.EventsForWeek | frontend/src/store/modules/calendar.js:75-82 | exactly the events between the week's start and end, inclusive |
| Calendar.EventStore.EventsForMonth | frontend/src/store/modules/calendar.js:85-92 | exactly the events between the month's first midnight and its last midnight, inclusive |
| Toasts.Stamp | frontend/src/store/modules/notifications.js:6-12 | the entry is shown, keeps message and type, and takes the caller's id if given, else the current time |
| Toasts.RemoveAbsentId | frontend/src/store/modules/notifications.js:13-15 | removing an id no entry has leaves the list unchanged |
| Toasts.AddThenRemoveRestores | frontend/src/store/modules/notifications.js:6-15 | adding an entry, then removing its stored id, restores the list |
| Toasts.AutoRemoveAsWrittenKeepsToast | frontend/src/store/modules/notifications.js:19-25 | as written, the timer removes `notification.id`; without a caller id, the timer's removal leaves the toast in place; only an explicit `remove` with the stored id takes it away |
| Toasts.ToastStore.AddNotification | frontend/src/store/modules/notifications.js:6-12 | the stamped entry is appended |
| Toasts.ToastStore.RemoveNotification | frontend/src/store/modules/notifications.js:13-15 | every entry with the id is removed, order kept |
| Toasts.ToastStore.Add | frontend/src/store/modules/notifications.js:19-25 | appends the entry and hands the timer the stored entry's own id |
| Reminders.Key | frontend/src/services/NotificationService.js:113 | the key is the id, a dash, then the lead-time tag |
| Reminders.TimingKeysDiffer | frontend/src/services/NotificationService.js:113 | an item's hour key and ten-minute key differ |
| Reminders.KeyInjective | frontend/src/services/NotificationService.js:112-115 | different (id, timing) pairs never share a de-duplication key |
| Reminders.CheckOne | frontend/src/services/NotificationService.js:39-150 | a reminder fires exactly when the item is 0 < t ≤ threshold away and its key is unrecorded; the key is then recorded |
| Reminders.KeysOfContains | frontend/src/services/NotificationService.js:150 | every raised reminder's key is among the recorded keys |
| Reminders.KeysOfAppend | frontend/src/services/NotificationService.js:150 | the keys recorded for two batches are the union of each batch's keys |
| Reminders.CheckItem | frontend/src/services/NotificationService.js:38-68 | afterwards every due lead time is recorded; an already-recorded item raises nothing |
| Reminders.CheckItemWarranted | frontend/src/services/NotificationService.js:38-68 | every reminder raised for an item is of its kind, at a lead time that is due, for a key not yet recorded, and no key is raised twice |
| Reminders.CheckItemEach | frontend/src/services/NotificationService.js:39-68 | each reminder raised for an item is of the kind checked, carries the item's id, and is for a lead time at which the item is due and whose key was unrecorded |
| Reminders.CheckItemKeysDistinct | frontend/src/services/NotificationService.js:112-115 | the reminders raised for one item never repeat a key |
| Reminders.AllRecordedExtend | frontend/src/services/NotificationService.js:34 | recording the last item on top of the earlier ones records the whole list |
| Reminders.AllRecordedPrefix | frontend/src/services/NotificationService.js:34 | a recorded list has a recorded prefix and a recorded last item |
| Reminders.CheckAll | frontend/src/services/NotificationService.js:34-109 | afterwards every item is recorded at every due lead time; a fully recorded list raises nothing |
| Reminders.WarrantedAppend | frontend/src/services/NotificationService.js:34 | warranted reminders for a prefix and for the rest, the latter against the grown set, are warranted for the whole list |
| Reminders.CheckAllWarranted | frontend/src/services/NotificationService.js:34-109 | every reminder raised for a list is of its kind, for an item of the list with that id that is due at that lead time, for a key not yet recorded, and no key is raised twice |
| Reminders.CheckPass | frontend/src/services/NotificationService.js:22-110 | the new set is the old one plus the raised keys; afterwards every event and every task is recorded; a fully recorded pass raises nothing |
| Reminders.SharedIdSilencesTask | frontend/src/services/NotificationService.js:112-115 | a task with the same id and time as an event checked before it in the same pass raises nothing |
| Reminders.BothFireWithinTenMinutes | frontend/src/services/NotificationService.js:39-68 | an item due within ten minutes and not yet notified raises the hour reminder and then the ten-minute one |
| Reminders.NothingForPastItems | frontend/src/services/NotificationService.js:73-78 | an item past its time, or without a date, raises nothing |
| Reminders.PassIsIdempotent | frontend/src/services/NotificationService.js:22-110 | a second pass at the same instant raises and records nothing |
| Reminders.NotificationService.constructor | frontend/src/services/NotificationService.js:2-6 | a one-minute interval, nothing running, nothing recorded |
| Reminders.NotificationService.MarkNotified | frontend/src/services/NotificationService.js:150 | the key joins the set |
| Reminders.NotificationService.Forget | frontend/src/services/NotificationService.js:153-155 | the key leaves the set |
| Reminders.NotificationService.HasBeenNotified | frontend/src/services/NotificationService.js:112-115 | true exactly when the item's key for that lead time is recorded |
| Reminders.NotificationService.CheckTiming | frontend/src/services/NotificationService.js:39-52 | the new set and the reminders are those of `CheckOne` |
| Reminders.NotificationService.CheckItems | frontend/src/services/NotificationService.js:34-69 | the loop's set and reminders are those of `CheckAll` |
| Reminders.NotificationService.CheckUpcoming | frontend/src/services/NotificationService.js:22-110 | without permission nothing happens; otherwise events then tasks, as `CheckPass` |
| Reminders.NotificationService.Start | frontend/src/services/NotificationService.js:8-13 | a second start changes nothing; a first one registers the interval and checks at once |
| Reminders.NotificationService.Stop | frontend/src/services/NotificationService.js:15-20 | no interval remains |
| Auth.WithoutPassword | frontend/src/store/index.js:56-58 | id, username and e-mail kept, the password dropped |
| Auth.DemoUsers | frontend/src/store/index.js:4-17 | the initial table has two users, ids 1, 2 and distinct e-mails |
| Auth.Decimal | frontend/src/store/index.js:61 | a non-empty string of digits |
| Auth.Token | frontend/src/store/index.js:61 | the token is `fake-jwt-token-` followed by digits only |
| Auth.DecimalRoundTrip | frontend/src/store/index.js:61 | reading back the decimal text of an id gives the id |
| Auth.TokenInjective | frontend/src/store/index.js:61-92 | different ids never receive the same token |
| Auth.LoginLookup | frontend/src/store/index.js:50-65 | success exactly when some user has that e-mail and password, returned without the password; otherwise "Invalid email or password" |
| Auth.RegisterUser | frontend/src/store/index.js:71-85 | "Email already registered" exactly when the e-mail is known; otherwise the user is appended with id length + 1 |
| Auth.RegisterKeepsTableWellFormed | frontend/src/store/index.js:72-85 | registration keeps ids 1..n and e-mails (hence ids) distinct |
| Auth.AuthStore.constructor | frontend/src/store/index.js:21-25 | state read from browser storage; signed in exactly when a user was saved |
| Auth.AuthStore.SetUser | frontend/src/store/index.js:27-35 | signed in exactly when a user is set, and storage mirrors it |
| Auth.AuthStore.SetToken | frontend/src/store/index.js:36-43 | storage keeps only a truthy token |
| Auth.AuthStore.Login | frontend/src/store/index.js:46-66 | on a match, the user without password and `fake-jwt-token-<id>` are set and stored; on failure nothing changes |
| Auth.AuthStore.Register | frontend/src/store/index.js:67-94 | a known e-mail fails with nothing changed; otherwise the table grows by the new user, who is signed in with the matching token |
| Auth.AuthStore.Logout | frontend/src/store/index.js:95-98 | user, token and their stored copies are cleared |
| Auth.AuthStore.CheckAuth | frontend/src/store/index.js:99-109 | a stored user whose id is still in the table is kept, with its stored copy; otherwise user, token and the stored user are cleared |
| Router.Guard | frontend/src/router/index.js:42-58 | redirect to `/` exactly for a guest-only route when signed in; to `/login` exactly for an auth-only route when signed out (and not the first case); otherwise proceed |
| Router.GuestCheckComesFirst | frontend/src/router/index.js:46-55 | a route flagged both ways follows the guest check first |
| Router.NoRedirectLoop | frontend/src/router/index.js:10-58 | on the app's routes, a redirect leads to a route the same user may enter |
| Backend.Find | backend/app.py:30 | a found separator fits in the string |
| Backend.FindIsFirstOccurrence | backend/app.py:30 | `find` answers the first occurrence, and `None` exactly when there is none |
| Backend.Split | backend/app.py:30 | `split` always yields at least one piece |
| Backend.OccursAtShift | backend/app.py:30 | an occurrence in a suffix is an occurrence in the whole string, shifted |
| Backend.BearerToken | backend/app.py:30 | there is a second piece exactly when the header contains "Bearer " |
| Backend.BearerTokenSpan | backend/app.py:30 | the token is the text after the first "Bearer ", up to the next one or the end |
| Backend.CheckToken | backend/app.py:24-36 | 401 "No token provided" without a header; 401 "Invalid token provided" without "Bearer " or when the provider rejects the token; otherwise the provider's identity |
| Backend.AcceptedTokenIsVerified | backend/app.py:29-34 | an accepted request carries a token the provider verified |
| Backend.GoogleAuth | backend/app.py:138-172 | 400 "Email and UID are required" exactly when either is missing or empty; otherwise create or update that uid's document |
| Backend.GoogleAuthValidatesFirst | backend/app.py:138-145 | the rejection does not depend on the stored user |
| Backend.CountStep | backend/app.py:234-242 | one more status adds one to exactly its own bucket |
| Backend.DashboardStats | backend/app.py:228-242 | the counters are the sizes of the completed, in-progress and other filters, and add up to the number of tasks |
| EmailTemplates.EventSubject | backend/services/emailService.js:17 | "Reminder: ", the title (or "undefined"), then " începe în curând" |
| EmailTemplates.TaskSubject | backend/services/emailService.js:38 | "Reminder: Task \"", the title, then "\" are termen limită în curând" |
| EmailTemplates.Framed | backend/services/emailService.js:17 | the text reads back out between the opening and the closing |
| EmailTemplates.SubjectsCarryTitle | backend/services/emailService.js:17-38 | each subject is its fixed prefix, the title, and its fixed suffix; the title reads back out |
| EmailTemplates.EventSections | backend/services/emailService.js:18-32 | heading and title first, footer last |
| EmailTemplates.TaskSections | backend/services/emailService.js:39-53 | heading and title first, footer last |
| EmailTemplates.EventSectionsContent | backend/services/emailService.js:23-26 | the start line is always present. Description, location and category lines appear exactly when truthy, carrying their text. No due date or priority appears. |
| EmailTemplates.TaskSectionsContent | backend/services/emailService.js:44-47 | due date and priority lines are always present. Description and category lines appear exactly when truthy. No start or location appears. |
| EmailTemplates.Html | backend/services/emailService.js:18-32 | the body opens with the outer styled block and ends with its closing tag |
| EmailTemplates.FramedEndsWith | backend/services/emailService.js:27-31 | a framed text whose body ends with a fragment ends with that fragment and the closing |
| EmailTemplates.RenderEndsWithLast | backend/services/emailService.js:18-32 | the HTML of a non-empty body ends with its last section's fragment and the closing tag |
| EmailTemplates.BodiesEndWithFooter | backend/services/emailService.js:27-52 | both bodies end with the fixed automatic-mail footer |
| EmailTemplates.RenderAllSplit | backend/services/emailService.js:18-32 | rendering the sections is rendering all but the last, then the last |
| EmailRoute.HandleEmail | backend/routes/notifications.js:6-32 | 400 for a missing recipient, checked first; then 400 for a missing type or data; 400 for an unknown type; 200 exactly for a known type that was delivered, 500 when not; only a 200 sends, to the requested recipient |
| EmailRoute.Compose | backend/routes/notifications.js:19-25 | a message exactly for type `event` or `task`, to the requested recipient, with that type's subject |
| EmailRoute.DispatchByType | backend/routes/notifications.js:19-22 | 'event' sends the event template, 'task' the task template |
| EmailRoute.RejectionsIgnoreDelivery | backend/routes/notifications.js:10-25 | a rejected request is decided before any sending |

## Findings

| source | as written | input that shows it | evidently intended | confidence | as-written member | corrected member |
|---|---|---|---|---|---|---|
| frontend/src/store/modules/notifications.js:19-25 | the five-second timer removes `notification.id`, the id of the object the caller passed | `add({ message: 'Saved', type: 'success' })`: the stored entry gets `Date.now()` as its id, the timer removes `undefined`, so the timer's removal leaves the toast; only an explicit `remove` with the stored id takes it away | the timer removes the id the stored entry carries | not executed | Toasts.AutoRemoveAsWrittenKeepsToast | Toasts.ToastStore.Add |

`Toasts.AddThenRemoveRestores` proves the intended property of the corrected
action: removing the stored entry's id restores the list, as long as no earlier
entry shares that id.

## Left out

- Firebase, Firestore, axios, nodemailer, `setTimeout`/`setInterval` and
  `localStorage` are external. Their results are parameters, or fields of the
  classes: `storedUser`, `storedToken`, `intervalId`.
- The back ends' other handlers, the seed scripts, the Firebase auth modules, the
  axios e-mail wrapper and the app bootstrap are not part of this model.
- Calendar.Step: the month and year steps are parameters assumed only to move
  forward. The month-length and leap-year normalisation of `setMonth` and
  `setFullYear` is not modelled.
- Calendar.IsSameDay: the contract states only that instants with the same day
  number are on the same day. The converse, that a different day number gives a
  different year, month or day, rests on the round trip of the civil-date
  conversions, which is not proved.
- EmailTemplates.Text: `None` stands only for an absent key, which a template
  literal prints as "undefined". A field sent as JSON `null` prints as "null"
  (for example the subject "Reminder: null începe în curând"); that case is not
  modelled.
- Calendar.CivilFromDays: the date conversions follow the proleptic Gregorian
  calendar in a zone without offset. Their round trip is not proved, and time
  zones and daylight saving are not modelled.
- Calendar.EventStore.AddEvent: requires a recognised recurrence whenever the
  event starts before the horizon. With any other truthy value the source's loop
  never ends, because the date never advances.
- Calendar.GenerateRecurring: fresh ids come from a parameter. `Date.now() +
  Math.random()` is not modelled, nor is the ISO date string.
- Tasks.TaskStore.ToggleTaskStatus: the flag is flipped on a copy in the list.
  A component that holds the same task object and sees the change through
  aliasing is not modelled.
- Toasts.Stamp: a notification whose `id` key is present but `undefined`
  overwrites the timestamp with `undefined`. The model treats it like an absent id.
- Reminders.CheckOne: the notification's body text, icon, vibration pattern,
  action buttons and click handlers are presentation only and are not modelled.
- Reminders.NotificationService.CheckUpcoming: the events and tasks are
  parameters. The service reads `localStorage` key `events` with field `start`,
  while the calendar store saves `calendar_events` with `startDate`; that link is
  not modelled.
- Backend.CheckToken: the handler wrapped by the decorator is not modelled.
- Backend.GoogleAuth: a request without a JSON body (`request.json` is `None`,
  backend/app.py:130) or a failing Firestore call ends in the `except` branch,
  which answers 400 with `str(e)` as the message (backend/app.py:180-185). That
  branch is not modelled.
- Calendar.MonthStart and Calendar.MonthEnd: the contracts say only that both
  are midnights. That the instant lies between them rests on the round trip of
  the civil-date conversions, which is not proved.
- Notes.NoteStore.AddNote, UpdateNote and DeleteNote: a `null` list is modelled
  as the `thrown` result with the state unchanged. The actions that catch it,
  commit `SET_ERROR` and rethrow are asynchronous HTTP calls (axios) and are not
  modelled.
- EmailRoute.HandleEmail: the `auth` middleware in front of the route is not
  part of this model. A sending failure is the `delivered` parameter, and the
  mail server's reply object is not modelled.
- EmailTemplates.Html: the whitespace and indentation between the HTML fragments
  is not modelled. The date text `toLocaleString('ro-RO')` is the `formatDate`
  parameter.
