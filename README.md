# Reminder bot core, modelled and verified in Dafny

This project models the reminder engine of a Telegram reminder bot. It covers five parts:

- **The reminder store.** This is a table of reminder documents keyed by ObjectId and scoped by owner, plus an append-only log of deletions.
- **The reminder service.** It handles creation with its "not in the past" check, the owner-scoped queries, the global scan of active reminders and the recurrence advancer.
- **The scheduler cycle.** It sends due reminders. A recurring reminder is sent and then advanced. A one-shot reminder is sent with a confirm button, then waited on, then auto-completed.
- **The reminder handlers.** These are the creation form (text → date → recurring? → frequency), the recurrence label maps, the listing and the delete menu, and the delete and confirm buttons.
- **The user timezone binding.** This is an upsert table of users; the scheduler and the service read each owner's zone from it.

Modelling choices:

- Time is whole minutes.
- A stored time is either naive (a wall-clock reading) or aware (an instant).
- A zone is a fixed offset taken from a table. "UTC" is always known. An unknown name raises, as `pytz.timezone` does.

The code works by changing state, so the model does too:

- The store, the users table, the service, the scheduler and the form are classes whose methods update their fields.
- Every such method is proved equal to a pure function of the old state, such as `MarkCompletedOf`, `MoveOf`, `AddReminderOf`, `HandleOne`, `RunCycle` or `RecurringTurn`. The exception is `start`, which is proved to follow a run (`IsRun`): a sequence of worlds, each obtained from the one before by `RunCycle` over a snapshot of its active reminders.
- The properties the code promises are proved about those functions as lemmas.

Exceptions are modelled as values (`Result`, `Outcome`): a bad ObjectId, a missing field, an unknown zone, a wrong call, or a token without a colon.

The scheduler cycle is modelled as a loop over one snapshot of the active reminders. It stops at the first document that raises. The `start` loop then logs the error and runs the next cycle. So an error abandons the rest of that `check_reminders` call, and the documents scanned after the failing one wait for the next cycle (`Notifier.ErrorAbandonsRestOfCycle`).

The 300-second wait after sending a one-shot reminder is an explicit step. What the owner does meanwhile to the awaited reminder is an input: a confirmation, a deletion or nothing. It reaches the store through the same conditional updates the confirm and delete handlers use, and the lemmas show that at most one completion wins.

Four call sites in the code cannot work as written (see Findings). For each, the model contains the code as written, a lemma showing what goes wrong, and the evidently intended behaviour, which the rest of the model uses. One consequence of the corrected creation call is kept exactly as the code has it: the handler answers "✅ Напоминание успешно создано!" after `add_reminder` whatever that call answered. A rejected date therefore gets the rejection followed by the success text (`Handlers.RecurringTurn`).

Files: `wrappers.dfy` (results and exceptions), `clock.dfy`, `recurrence.dfy`, `reminder_crud.dfy`, `users_repository.dfy`, `reminder_service.dfy`, `callbacks.dfy` (button tokens), `notifier.dfy` (scheduler), `handlers.dfy`.

## Model

| member | source | states |
|---|---|---|
| Clock.DueIsMonotone | app/bot/middleware.py:46-53 | once a reminder is due at some time it is due at every later time |
| Clock.NaiveDueIsOwnersWallClock | app/bot/middleware.py:46-53 | a naive reminder time is due iff the owner's local wall clock has reached it |
| Clock.ShiftMovesInstant | app/services/remineder_service.py:102-107 | adding a timedelta moves the denoted instant by the same amount in every zone |
| Clock.WholeDaysKeepTimeOfDay | app/services/remineder_service.py:93-109 | a shift by whole days keeps the time of day (the advancer's "without changing the time") |
| Recurrence.NextOccurrenceSteps | app/services/remineder_service.py:102-109 | daily, weekly and monthly advance by 1, 7 and 28 days; every other kind is not advanced |
| Recurrence.NextOccurrenceKeepsTimeOfDay | app/services/remineder_service.py:93-109 | the next occurrence has the same time of day and is strictly later in every zone |
| Recurrence.ThreeWeeklyAdvances | app/services/remineder_service.py:104-105 | three weekly advances add exactly 21 days |
| ReminderCrud.ParseObjectId | app/crud/reminder_crud.py:62 | 24 hex digits of either case are accepted, a canonical id parses to itself and parsing lower-cases; text that is not 24 characters, or holds a character that is neither a hex digit nor whitespace, raises InvalidId (the model also rejects the whitespace case; see Left out) |
| ReminderCrud.NewRecord | app/crud/reminder_crud.py:44-54 | the inserted document is active: the owner's listing filter and the global scan filter match it, and no other user's listing filter does |
| ReminderCrud.ReminderRepository.constructor | app/crud/reminder_crud.py:41-42 | a new store is empty, with an empty deletion log |
| ReminderCrud.ReminderRepository.Create | app/crud/reminder_crud.py:44-54 | inserts exactly the new record under a fresh id and returns that id; a taken id raises DuplicateKey and changes nothing |
| ReminderCrud.ReminderRepository.Find | app/crud/reminder_crud.py:56-58 | the loop returns each matching document (active, and owned by the owner when one is given) exactly once, with its current fields |
| ReminderCrud.ReminderRepository.GetAll | app/crud/reminder_crud.py:56-58 | returns a snapshot of exactly the owner's active documents |
| ReminderCrud.ReminderRepository.FindById | app/services/remineder_service.py:95 | bad id text raises InvalidId; otherwise the stored document for the id, or None |
| ReminderCrud.ReminderRepository.SetDate | app/services/remineder_service.py:111-114 | overwrites the date of one document and nothing else |
| ReminderCrud.ReminderRepository.MarkCompleted | app/crud/reminder_crud.py:60-86 | the store and the result are those of `MarkCompletedOf`; the deletion log is unchanged |
| ReminderCrud.ReminderRepository.CompleteById | app/bot/handlers/reminders.py:193-196 | the store and the result are those of the update by id alone (`CompleteByIdOf`) |
| ReminderCrud.ReminderRepository.Delete | app/crud/reminder_crud.py:88-97 | the store, the log and the result are those of `DeleteOf` |
| ReminderCrud.CreatedIsListed | app/crud/reminder_crud.py:44-58 | a created document is listed for its owner and for no one else, and is in the global active scan |
| ReminderCrud.SnapshotIsOwnersActive | app/crud/reminder_crud.py:56-58 | an id is in the owner's listing iff the owner has that active document |
| ReminderCrud.MarkCompletedNotOwned | app/crud/reminder_crud.py:62-64 | with no document matching both id and owner, the result is false and nothing changes |
| ReminderCrud.MarkCompletedAdvancesRecurring | app/crud/reminder_crud.py:66-80 | on an owned recurring document only the date moves, by 1, 7 or 28 days; it stays active; the result is true |
| ReminderCrud.MarkCompletedOneShotOnce | app/crud/reminder_crud.py:81-86 | a one-shot document is completed and the result is true iff it was active; a second call reports false and changes nothing |
| ReminderCrud.DeleteIffOwned | app/crud/reminder_crud.py:88-97 | succeeds iff the caller owns the id; then the document is gone and exactly one "deleted" entry is logged; otherwise nothing changes; other documents are untouched |
| ReminderCrud.AtMostOneCompletionWins | app/crud/reminder_crud.py:81-86 | confirmation and auto-completion of an active one-shot document in either order: the first reports true, the second reports false and changes nothing |
| ReminderCrud.NoResurrectionAfterDelete | app/crud/reminder_crud.py:60-97 | after a deletion, neither completion path finds the document or brings it back |
| ReminderCrud.MalformedIdRaises | app/crud/reminder_crud.py:62-90 | malformed id text raises InvalidId in every id-addressed operation and changes nothing |
| Users.OrDefault | app/repositories/users_repository.py:45-47 | a stored name is never empty when its default is not, and whenever it differs from the default it is the name given |
| Users.UserRepository.constructor | app/repositories/users_repository.py:36-37 | a new users table is empty |
| Users.UserRepository.GetUser | app/repositories/users_repository.py:39-40 | the record for the id, or None iff there is none |
| Users.UserRepository.CreateOrUpdateUser | app/repositories/users_repository.py:42-56 | upsert: afterwards the id has exactly the new record (all six fields written), other users unchanged |
| Users.UserRepository.UpdateTimezone | app/repositories/users_repository.py:58-62 | changes only the zone of an existing user; creates nothing |
| Users.UserService.constructor | app/repositories/users_repository.py:68-69 | the service wraps the given repository |
| Users.UserService.GetUser | app/repositories/users_repository.py:71-73 | the repository's answer unchanged |
| Users.UserService.RegisterOrUpdateUser | app/repositories/users_repository.py:75-77 | the repository's upsert with the same arguments |
| Users.UserService.SetUserTimezone | app/repositories/users_repository.py:79-81 | the repository's zone update with the same arguments |
| Users.UpsertBindsTimezone | app/repositories/users_repository.py:42-56 | after an upsert the user resolves to the given zone, names take their defaults exactly when falsy, and every other user's zone is unchanged |
| Users.UpdateTimezoneThenResolve | app/repositories/users_repository.py:58-62 | a zone update changes the resolved zone of a known user only; an unknown user stays absent and resolves to "UTC" |
| Service.AcceptsDateIffNotYetDue | app/services/remineder_service.py:44-53 | the creation check (owner's zone) accepts a date iff the scheduler would not have found it due a minute earlier |
| Service.PastDueRejection | app/tests/test_reminders.py:83-124 | a date one minute before now is rejected; now itself and one minute after are accepted |
| Service.AsWrittenCheckUsesServerZone | app/services/remineder_service.py:46 | as written, a naive date is read in the server's zone: a Moscow owner gets a past time accepted and a New York owner a future time refused |
| Service.AddReminderOutcomes | app/services/remineder_service.py:32-68 | unknown zone or failed insert: generic error reply and no change; a date before now: rejection with both times and no change; otherwise exactly one new active record with the four fields, listed for its owner |
| Service.MoveMissingWritesNothing | app/services/remineder_service.py:95-98 | a missing document, or one without a date, gives false and nothing is written |
| Service.MoveAdvancesOnlyDate | app/services/remineder_service.py:100-115 | the three kinds overwrite only the date, by 1, 7 or 28 days, and give true; any other kind gives false with no write |
| Service.AdvancersAgree | app/services/remineder_service.py:93-115 | the store's recurring `mark_completed` and `move_to_next_occurrence` move a document of a known kind to the same place |
| Service.ReminderService.constructor | app/services/remineder_service.py:23-24 | the service wraps the given store and users table |
| Service.ReminderService.GetUserTimezone | app/services/remineder_service.py:27-30 | the stored zone when the user exists, otherwise "UTC" |
| Service.ReminderService.AddReminder | app/services/remineder_service.py:32-68 | the store and the reply are those of `AddReminderOf`; the deletion log is unchanged |
| Service.ReminderService.GetAllReminders | app/services/remineder_service.py:70-71 | the repository's listing unchanged: exactly the owner's active documents (an unknown user gets none) |
| Service.ReminderService.MarkReminderCompleted | app/services/remineder_service.py:73-74 | the repository's `mark_completed` unchanged |
| Service.ReminderService.RemoveReminder | app/services/remineder_service.py:76-77 | the repository's `delete` unchanged (a missing id gives false) |
| Service.ReminderService.GetAllActiveReminders | app/services/remineder_service.py:89-91 | exactly the active documents of every owner, once each |
| Service.ReminderService.MoveToNextOccurrence | app/services/remineder_service.py:93-115 | the store and the result are those of `MoveOf` |
| Callbacks.Split | app/bot/handlers/reminders.py:171 | `split(":")` always yields at least one piece |
| Callbacks.SplitWithoutColon | app/bot/middleware.py:79 | text without a colon splits into itself alone (so `[1]` raises IndexError) |
| Callbacks.SplitAtFirstColon | app/bot/handlers/reminders.py:191 | splitting cuts at the first colon |
| Callbacks.TokenRoundTrip | app/bot/middleware.py:62 | the id read back from a confirm or delete token is the id put in, for every colon-free id |
| Callbacks.TokenTruncatesAtColon | app/bot/handlers/reminders.py:191 | an id containing a colon comes back cut at that colon |
| Callbacks.StoredIdTokens | app/bot/handlers/reminders.py:156 | every token built from a stored id routes to its own handler and parses back to that id |
| Notifier.ReminderNotifier.constructor | app/bot/middleware.py:16-18 | a new scheduler is running, has sent nothing and logged nothing |
| Notifier.ReminderNotifier.AwaitConfirmation | app/bot/middleware.py:67-68 | the wait applies the owner's confirmation or deletion, if any, to the store |
| Notifier.ReminderNotifier.MarkAsCompleted | app/bot/middleware.py:71-75 | nothing for a truthy recurrence; otherwise the owner-scoped completion (corrected call) |
| Notifier.ReminderNotifier.HandleReminder | app/bot/middleware.py:37-69 | one loop pass changes the store and the outbox exactly as `HandleOne` says |
| Notifier.ReminderNotifier.CheckReminders | app/bot/middleware.py:30-69 | scans a snapshot of all active reminders, then changes the world exactly as `RunCycle` over that snapshot |
| Notifier.ReminderNotifier.Start | app/bot/middleware.py:20-28 | while running, one cycle per clock reading: cycle k scans a snapshot of the active reminders the cycles before it left, and its outcome and the world it leaves are those of `RunCycle` at that reading; the final store and messages are those of the last cycle; each failed cycle's error is logged in order and the loop goes on; when not running, nothing happens |
| Notifier.ReminderNotifier.HandleConfirmation | app/bot/middleware.py:77-91 | with the lookup by id: the store and the answer are those of `ConfirmationOf`; the log and outbox are unchanged |
| Notifier.NotDueIsSilent | app/bot/middleware.py:53 | a reminder that is not due causes no send and no store change |
| Notifier.BadDocumentRaises | app/bot/middleware.py:38-44 | a missing date or an unknown zone raises before anything is sent or written |
| Notifier.RecurringDueSendsOnceAndAdvances | app/bot/middleware.py:54-59 | a due recurring reminder is sent once to its owner without a button, then only its date moves; it stays active |
| Notifier.OneShotDueIsAutoCompleted | app/bot/middleware.py:60-69 | a due one-shot reminder nobody answers is sent once with token "confirm_reminder:"+id, then completed, and no later scan finds it |
| Notifier.OneShotConfirmedDuringWait | app/bot/middleware.py:67-69 | a confirmation during the wait reports success; the auto-completion then reports false and changes nothing |
| Notifier.OneShotDeletedDuringWait | app/bot/middleware.py:67-69 | a deletion during the wait removes the reminder and logs it once; the auto-completion does not bring it back |
| Notifier.AsWrittenOneShotStaysActive | app/bot/middleware.py:74 | as written, a due one-shot reminder nobody answers is sent, then the cycle raises TypeError with the store unchanged; the reminder stays in the active scan, and a later cycle whose scan reaches it first sends it again and raises again, however much later |
| Notifier.ErrorAbandonsRestOfCycle | app/bot/middleware.py:20-36 | the first document that raises ends the cycle with its error; the documents after it are not examined |
| Notifier.QuietCycle | app/bot/middleware.py:36-53 | a cycle in which nothing is due sends nothing and changes nothing |
| Notifier.StoreStepsOnlyTouchTheirId | app/crud/reminder_crud.py:60-97 | advancing, completing and deleting by id change no other document and create none |
| Notifier.HandleOneFrame | app/bot/middleware.py:36-69 | one pass touches only its own document, only grows the log, and sends at most one message, to the owner, with the reminder's text |
| Notifier.CycleTouchesOnlyScanned | app/bot/middleware.py:34-36 | a cycle leaves every unscanned document as it was, creates none, and sends at most one message per scanned reminder, each to that reminder's owner |
| Notifier.SingletonSnapshot | app/services/remineder_service.py:89-91 | the scan of a store holding one active reminder is that reminder alone |
| Notifier.RecurringCycleStep | app/bot/middleware.py:53-59 | a cycle over one due recurring reminder sends it once and moves it by its step |
| Notifier.WeeklyReminderThreeCycles | app/bot/middleware.py:54-59 | a weekly reminder through three due cycles: three messages, 21 days later, same time of day, still active |
| Notifier.BuyMilkScenario | app/bot/middleware.py:60-69 | "buy milk" two minutes ahead for a UTC+3 owner: accepted, quiet before due, then sent once with its button and completed |
| Notifier.AsWrittenConfirmationRaises | app/bot/middleware.py:81 | as written, every confirm token raises AttributeError and nothing changes, not even "not found" for a missing reminder |
| Notifier.ConfirmationAnswers | app/bot/middleware.py:81-91 | with the lookup by id: a missing reminder gets "not found" and no change; an existing one-shot reminder ends completed and is answered done |
| Notifier.ConfirmationWithoutColon | app/bot/middleware.py:79 | callback data without a colon raises IndexError and changes nothing |
| Handlers.LabelsAreInverse | app/bot/handlers/reminders.py:93-133 | the creation and display maps are inverse on the three kinds; only the three labels are accepted; anything else, None included, displays "Однократно" |
| Handlers.Lower | app/bot/handlers/reminders.py:72 | lowering keeps the length and lowers each letter |
| Handlers.YesNoIgnoresCase | app/bot/handlers/reminders.py:72-87 | the answer is "да" or "нет" exactly for their spellings in any mix of cases |
| Handlers.RoutingFollowsRegistrationOrder | app/bot/handlers/reminders.py:39-147 | "Создать напоминание" restarts the form from any state; inside the form every other text answers the current question; outside it only the three menu texts are handled |
| Handlers.ReminderForm.constructor | app/bot/handlers/reminders.py:31-35 | a new form is cleared and has sent nothing |
| Handlers.ReminderForm.Start | app/bot/handlers/reminders.py:39-43 | asks for the text and moves to the text question, keeping the stored data |
| Handlers.ReminderForm.TakeText | app/bot/handlers/reminders.py:46-51 | stores the text, asks for the date, moves to the date question |
| Handlers.ReminderForm.TakeDate | app/bot/handlers/reminders.py:54-65 | the form and replies are those of `DateTurn` on the parsed text |
| Handlers.ReminderForm.Create | app/bot/handlers/reminders.py:76-84 | reads text and date (KeyError leaves everything unchanged), calls `add_reminder`, answers and clears the form |
| Handlers.ReminderForm.TakeRecurring | app/bot/handlers/reminders.py:68-87 | the form, replies and store are those of `RecurringTurn`; an exception changes nothing |
| Handlers.ReminderForm.TakeFrequency | app/bot/handlers/reminders.py:90-115 | the form, replies and store are those of `FrequencyTurn`; an exception changes nothing |
| Handlers.DateAnswer | app/bot/handlers/reminders.py:57-65 | an unparseable date leaves the form unchanged; a parsed one is stored naive and the form moves to the recurring question |
| Handlers.RecurringAnswerOutcomes | app/bot/handlers/reminders.py:68-87 | "да" moves to the frequency question; "нет" creates a one-shot reminder (recurring None) and clears the form; anything else keeps form and store |
| Handlers.FrequencyAnswerOutcomes | app/bot/handlers/reminders.py:90-115 | an unknown label keeps the frequency question and creates nothing; a known one creates a reminder of that kind and clears the form |
| Handlers.AsWrittenFormNeverCreates | app/bot/handlers/reminders.py:76-81 | as written, "нет" and every valid frequency raise TypeError, so no answer ever creates a reminder |
| Handlers.OneShotFormCreates | app/bot/handlers/reminders.py:39-84 | the whole form for a one-shot reminder ends with exactly the new active reminder stored and the form cleared |
| Handlers.ListingOf | app/bot/handlers/reminders.py:131-135 | one line per listed reminder, in order, with message, date and display label; a document without a date raises KeyError |
| Handlers.DeleteMenuOf | app/bot/handlers/reminders.py:151-160 | one button per listed reminder, in order, whose data is "delete_reminder:"+id |
| Handlers.ViewReminders | app/bot/handlers/reminders.py:119-143 | lists the owner's active reminders (or "no active reminders") |
| Handlers.DeleteReminderPrompt | app/bot/handlers/reminders.py:147-166 | one delete button per active reminder of the owner (or "no active reminders") |
| Handlers.DeleteReminderCallback | app/bot/handlers/reminders.py:169-182 | the store, log and answer are those of `DeleteCallbackOf` |
| Handlers.ConfirmReminder | app/bot/handlers/reminders.py:188-201 | the store and answer are those of `ConfirmCallbackOf`; the log is unchanged |
| Handlers.ConfirmSucceedsOnce | app/bot/handlers/reminders.py:193-201 | confirmation succeeds iff the reminder exists and is active; a repeat, or one after auto-completion, reports failure and changes nothing |
| Handlers.DeleteCallbackAnswers | app/bot/handlers/reminders.py:173-179 | the success text iff the presser owns the reminder (then it is deleted and logged); otherwise the not-found text and no change |
| Handlers.DeleteMenuButtonsDelete | app/bot/handlers/reminders.py:156 | every button of the owner's delete menu routes to the delete handler and deletes its own reminder |
| Handlers.ListingShowsSnapshot | app/bot/handlers/reminders.py:122-137 | the listing has one line per active reminder of the owner, labelled by its recurrence, or says there are none |

## Left out

- Failed sends are not modelled: every `send_message` succeeds. In the code a send can raise (for example when the user has blocked the bot, app/bot/middleware.py:54-69). That error abandons the cycle like any other, so a recurring reminder whose send fails is never advanced and fails again in every cycle, and the documents scanned after it are not reached.
- Telegram delivery is an append to an outbox sequence. The bot's inline keyboards and the layout and date formatting of replies are not modelled; a reply is a value (kind, message, date, label).
- The 60-second and 300-second sleeps are not modelled. `start` runs one cycle per given clock reading, and the wait is an explicit step whose outcome is an input. Real concurrency between a confirmation and the auto-completion is modelled only as the two orders of the conditional updates.
- Notifier.ReminderNotifier.AwaitConfirmation: the wait models only the owner's answer on the awaited reminder. In the code the bot's handlers run during the 300-second sleep (app/bot/middleware.py:67-68). Any user can then delete, confirm or create other reminders or change a zone, while the loop goes on over the list it fetched before the wait (app/bot/middleware.py:34-36). So a reminder scanned later in the same cycle and deleted during an earlier wait is still sent; if it is one-shot, it is waited on again and its completion reports false. In the model nothing outside the awaited id changes during a wait, so this interleaving cannot occur.
- Notifier.ReminderNotifier.Start: runs over a finite sequence of clock readings; the source loops forever, since nothing in the code clears `is_running`.
- MongoDB and motor are replaced by maps. ObjectIds, creation stamps and the current time are inputs, and the order in which `find` returns documents is left open.
- Deletion log entries are written into the same `notifications` collection as the reminders (app/crud/reminder_crud.py:13). The model keeps them in a separate sequence. They carry no `completed` field, so no active-reminder filter ever returns them.
- Service.PastDueRejection: time is whole minutes, while the creation check compares instants to the microsecond (app/services/remineder_service.py:44-53). The proved "now itself is accepted" holds for the code only when now falls on a whole minute; otherwise a date in the current minute is rejected.
- ReminderCrud.ParseObjectId: 24-character text with ASCII whitespace between hex digit pairs is modelled as InvalidId. bson accepts it, because `bytes.fromhex` skips that whitespace, and yields an id with a shorter binary. No stored document has such an id, so only forged callback data can carry one. ReminderCrud.MalformedIdRaises inherits this.
- Dates are stored as given. The MongoDB driver returns stored dates as naive UTC by default, so an aware date passed straight to `create` (as direct service calls and the tests do) would come back naive, and the scheduler would then read it in the owner's zone (app/bot/middleware.py:47-48). The store here keeps an aware date aware. Dates that come through the dialogue are naive and are unaffected.
- Time zones are fixed offsets. pytz, the zone database, DST transitions and `localize` of non-existent or ambiguous local times are not modelled.
- The server's naive `datetime.now()` (app/bot/middleware.py:32) is the instant `now`. Converting it with `astimezone` reads it in the server's own zone, which yields that instant.
- `datetime.strptime` is an input function from text to a wall-clock minute (None for ValueError).
- Python's `str.lower` is modelled for Latin A-Z, Cyrillic А-Я and Ё only.
- Messages without text (`message.text` None) are not modelled.
- The handlers of app/bot/handlers/start.py and app/bot/handlers/help.py are not part of this model. The routers are included in the order start, reminders, help (scripts/start_bot.py:19-21). Only the start router takes precedence over this one; a help command typed at a form question is taken by this router as the answer.
- Exception messages in replies ("Ошибка при загрузке напоминаний: …") are carried as exception values, not text.
- app/repositories/reminder_repository.py and app/core/mongo_collections.py are not part of this model. The service and the tests import the repository from there; here it is modelled from app/crud/reminder_crud.py.
- `handle_confirmation` is not registered with any router in the files shown; confirm buttons reach `confirm_reminder` in app/bot/handlers/reminders.py. Both are modelled.

## Findings

| source | as written | input that shows it | evidently intended | confidence | as-written member | corrected member |
|---|---|---|---|---|---|---|
| app/bot/middleware.py:74 | `mark_reminder_completed(reminder_id)` is called with one argument; the method needs `user_id` and `reminder_id` (app/services/remineder_service.py:73), so the call raises TypeError | any due one-shot reminder nobody confirms: it is never completed, the rest of that cycle is abandoned, and it is sent again every cycle | pass the owner: `mark_reminder_completed(user_id, reminder_id)` | not executed | Notifier.AsWrittenOneShotStaysActive | Notifier.OneShotDueIsAutoCompleted |
| app/bot/handlers/reminders.py:76-81 | `add_reminder` is called without its required `telegram_message`, so "Нет" raises TypeError | answering "Нет" after a text and a valid date: nothing is created, no reply, the form stays in the recurring question | pass the incoming message as `telegram_message` | not executed | Handlers.AsWrittenFormNeverCreates | Handlers.RecurringAnswerOutcomes |
| app/bot/handlers/reminders.py:107-112 | the same call without `telegram_message` for recurring reminders | choosing "Еженедельные" after a text and a valid date: nothing is created | pass the incoming message as `telegram_message` | not executed | Handlers.AsWrittenFormNeverCreates | Handlers.FrequencyAnswerOutcomes |
| app/services/remineder_service.py:46 | `date.astimezone(pytz.utc)` reads a naive date in the server's zone, not the owner's | server on UTC, Moscow owner (UTC+3) at 03:00 local enters 01:40 today: accepted though past, and sent at once | read a naive date in the owner's zone, as the scheduler does (app/bot/middleware.py:47-48) | not executed | Service.AsWrittenCheckUsesServerZone | Service.AcceptsDateIffNotYetDue |
| app/bot/middleware.py:81 | calls `get_reminder_by_id`, which the service does not define, so every confirmation raises AttributeError | any "confirm_reminder:<id>" token, even for a missing reminder | look the reminder up by id and answer "not found" when missing | not executed | Notifier.AsWrittenConfirmationRaises | Notifier.ConfirmationAnswers |
