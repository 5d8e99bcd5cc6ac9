# Ticket workflow and notifications: a Dafny model

This project models the ticket workflow and notification logic of a small
ticket tracker. Sales staff create tickets (negotiation, approval or other
requests for a customer). KDDI staff are assigned to tickets and move them
through the statuses unconfirmed, confirmed, pending approval, rejected and
completed. Admins see and edit everything. Two server routes send mail:

- a daily cron job reminds each assignee of their overdue tickets, at most
  once a day per assignee;
- a status-change notifier mails a ticket's creator when someone else
  changes its status.

The model keeps the source's structure, one module per source file:

| module | file | form |
|---|---|---|
| `Types` | `types.dfy` | enumerations, label tables and record shapes as datatypes and total functions |
| `Utils` | `utils.dfy` | `isOverdue`, `daysBetween`, `formatDate` on integer millisecond times, with a proleptic Gregorian calendar |
| `Tickets` | `tickets.dfy` | `TicketStore`, a class over a `map` from document id to document; its writers are methods; the filters and access rules are functions |
| `NotificationService` | `notification_service.dfy` | reminder subject, text and HTML as string functions; the Plus Message stub channel |
| `SendReminders` | `send_reminders.dfy` | the cron route as methods with loops (selection, grouping, send loop), each proved equal to a reference function whose properties are lemmas |
| `StatusUpdate` | `status_update.dfy` | the notify route as one method with the guard ladder, one send and one log append |
| `Text`, `Seqs`, `Wrappers` | `text.dfy`, `seqs.dfy`, `wrappers.dfy` | decimal conversion, join/split, JavaScript `trim` and template literals; order-preserving filtering and mapping; `Option` |

The environment is made explicit:

- the server timestamp and the cron clock are a parameter `now`;
- the mailer is a function parameter `send` from a message to `(success, error?)`;
- the `notificationLogs` collection is a sequence that the routes append to and return;
- a store query's result is a parameter `listing`, with a precondition stating which documents it holds and in which order.

Times are ECMAScript time values: integer milliseconds within ±8.64e15. The
"local midnight" that `setHours(0, 0, 0, 0)` computes is modelled as UTC
midnight (floor division by 86400000).

The model follows the code's own behaviour:

- `getTickets` applies no status filter when none is given (src/lib/firebase/tickets.ts:146-152).
- `completedAt` is re-stamped on every write whose status is `completed`, even when the ticket already was, and is never cleared (src/lib/firebase/tickets.ts:79-81, 101-103; `Tickets.ReopenedTicketKeepsCompletedAt`).
- `createTicket` validates nothing: it stores the caller's fields with status `unconfirmed`, the creator and two timestamps (src/lib/firebase/tickets.ts:48-63).
- The cron loop has no per-recipient failure isolation (src/app/api/cron/sendReminders/route.ts:85-140). An exception from the mailer or the store ends the whole job in the outer `catch` (line 151), which is not modelled.
- The cron route reads the assignee as `assignedPartnerId`/`assignedPartnerEmail`. The type and the repository call it `assignedKddiId`/`assignedKddiEmail`. The model has one assignee field, `assigneeId`/`assigneeEmail`, used by both, so the model's cron job sees the tickets' assignees. As written, with stored documents that only hold the `assignedKddi…` fields, every ticket falls into a group keyed `undefined`; see "## Findings".

## Model

| member | source | states |
|---|---|---|
| `Types.Enumerations` | src/types/index.ts:2-13 | every role, status and type value is in the enumerated set: three roles, five statuses, three types |
| `Types.NamesRoundTrip` | src/types/index.ts:2-13 | parsing the stored name of a role, status or type gives it back, and an unknown name parses to nothing |
| `Types.LabelsDistinct` | src/types/index.ts:16-36 | the status, type and role label tables are total (no label is empty) and injective |
| `Types.StatusLabelLookup` | src/types/index.ts:16-22 | indexing the status label table by a string finds a label exactly when the string names a status, and it is that status's label |
| `Types.TypeLabelLookup` | src/types/index.ts:25-29 | the same for the type label table |
| `Types.StatusCountsRoundTrip` | src/types/index.ts:107-112 | `statusCounts` has an entry for every status; reading the five counts back from it gives them again, and a map with an entry for every status is rebuilt exactly from its counts |
| `Utils.StartOfDay` | src/lib/utils.ts:12-13 | truncation to the day gives the midnight at or before the time, less than a day earlier |
| `Utils.IsOverdueByDay` | src/lib/utils.ts:9-15 | overdue exactly when the deadline's day is strictly before today's |
| `Utils.DueTodayIsNotOverdue` | src/lib/utils.ts:14 | a deadline on today's day is never overdue |
| `Utils.OverdueIgnoresTimeOfDay` | src/lib/utils.ts:12-13 | deadlines and clocks on the same days give the same answer |
| `Utils.OverdueIffBeforeStartOfToday` | src/lib/utils.ts:9-15 | overdue exactly when the deadline is before the start of today, the test the repository and the cron job use |
| `Utils.DaysBetweenIsIntegerDivision` | src/lib/utils.ts:32-35 | `Math.round(|Δ| / 86400000)` equals the integer division `(|Δ| + 43200000) / 86400000` |
| `Utils.DaysBetweenNonNegative` | src/lib/utils.ts:34 | the day count is never negative |
| `Utils.DaysBetweenSymmetric` | src/lib/utils.ts:32-35 | the order of the two dates does not matter |
| `Utils.DaysBetweenSelf` | src/lib/utils.ts:34 | a date is zero days from itself |
| `Utils.DaysBetweenWholeDays` | src/lib/utils.ts:33-34 | a time and that time plus k whole days are k days apart |
| `Utils.YearFromDay` | src/lib/utils.ts:18-20 | the year found for a day number is the one whose span contains it |
| `Utils.YearOfDayUnique` | src/lib/utils.ts:18-20 | that year is the only one containing the day |
| `Utils.CivilFromDay` | src/lib/utils.ts:18-20 | the calendar date of a day is a real date: month 1-12 and a day that fits in that month of that year, and the day lies in that month's span |
| `Utils.CivilOfDayFromCivil` | src/lib/utils.ts:18-20 | every real calendar date is the date of its own day number, so dates and day numbers correspond one to one |
| `Utils.CivilRoundTrip` | src/lib/utils.ts:18-20 | converting a day number to a calendar date and back gives the same day number |
| `Utils.FormatDateIsDatePart` | src/lib/utils.ts:18-20 | `formatDate` is the part of `toISOString()` before `T`, and depends only on the day |
| `Utils.FormatDateChars` | src/lib/utils.ts:18-20 | `formatDate` consists of digits, `-` and the year sign `+` only |
| `Utils.FormatDateByDay` | src/lib/utils.ts:18-20 | two times on the same day format alike |
| `Utils.FormatDateShape` | src/lib/utils.ts:18-20 | for years 0-9999, the result has 10 characters, `-` at positions 4 and 7, digits elsewhere |
| `Utils.FormatDateRoundTrip` | src/lib/utils.ts:18-20 | reading the `YYYY-MM-DD` string back, with a reader that refuses impossible dates, gives the day |
| `Utils.FormatDateSeparatesDays` | src/lib/utils.ts:18-20 | two times format alike exactly when they fall on the same day |
| `Tickets.ConvertTicketRoundTrip` | src/lib/firebase/tickets.ts:29-45 | the conversion keeps the id and every stored field |
| `Tickets.StatusRankIsNameOrder` | src/lib/firebase/tickets.ts:182 | the status order used for `orderBy('status')` is the string order of the stored names |
| `Tickets.ScopeToUser` | src/lib/firebase/tickets.ts:129-139 | role scoping keeps, in order, exactly the tickets in scope: for a KDDI user those assigned to them, for others all |
| `Tickets.FilterByStatus` | src/lib/firebase/tickets.ts:147-152 | the status filter keeps, in order, exactly the tickets that pass it |
| `Tickets.FilterByType` | src/lib/firebase/tickets.ts:154-156 | the type filter keeps, in order, exactly the tickets that pass it |
| `Tickets.FilterByAssignee` | src/lib/firebase/tickets.ts:158-161 | the assignee filter keeps, in order, exactly the tickets that pass it |
| `Tickets.FilterOverdue` | src/lib/firebase/tickets.ts:163-169 | the overdue filter keeps, in order, exactly the tickets that pass it |
| `Tickets.OverdueOnlyMeansOverdue` | src/lib/firebase/tickets.ts:163-169 | with `overdueOnly` a ticket passes exactly when it is overdue and not completed |
| `Tickets.FilterStep` | src/lib/firebase/tickets.ts:142-171 | one filter step keeps a subsequence of the store listing and keeps its order |
| `Tickets.ListedDocs` | src/lib/firebase/tickets.ts:122-172 | a stored document is in the result exactly when it is in scope and passes the filters |
| `Tickets.CanEditTicketCases` | src/lib/firebase/tickets.ts:200-208 | admins may edit any ticket, sales users exactly the tickets they created, KDDI users none |
| `Tickets.CanUpdateStatusCases` | src/lib/firebase/tickets.ts:211-213 | a user may update statuses exactly when the role is KDDI, whoever the user is |
| `Tickets.StatusAuthorityIsTicketScoped` | src/lib/firebase/tickets.ts:129-139 | a user allowed to update statuses reaches through a query only tickets assigned to them |
| `Tickets.TicketStore.constructor` | src/lib/firebase/tickets.ts:48-63 | the store starts empty |
| `Tickets.TicketStore.CreateTicket` | src/lib/firebase/tickets.ts:48-63 | adds one document under a new id, holding the given fields, status unconfirmed, creator as given, created and updated now, no comment and no completion; nothing else changes |
| `Tickets.TicketStore.UpdateTicket` | src/lib/firebase/tickets.ts:66-85 | a missing document is rejected and nothing changes; otherwise only that document changes: supplied fields replace old ones, absent fields stay, `updatedAt` becomes now, `completedAt` becomes now when the new status is completed and stays otherwise, creator and creation time stay |
| `Tickets.TicketStore.UpdateTicketStatus` | src/lib/firebase/tickets.ts:88-107 | a missing document is rejected; otherwise only status, `updatedAt`, the comment (when one is given, empty included) and `completedAt` (when completed) change |
| `Tickets.TicketStore.GetTicketById` | src/lib/firebase/tickets.ts:110-119 | nothing exactly when the id is absent; otherwise the stored document with its id |
| `Tickets.TicketStore.GetTickets` | src/lib/firebase/tickets.ts:122-172 | the result is a newest-first subsequence of the listing holding exactly the in-scope tickets that pass every filter; a KDDI user gets only tickets assigned to them |
| `Tickets.TicketStore.GetOverdueTickets` | src/lib/firebase/tickets.ts:175-192 | the result keeps the status-then-deadline order and holds exactly the stored documents that are not completed and are overdue |
| `Tickets.TicketStore.DeleteTicket` | src/lib/firebase/tickets.ts:195-197 | removes exactly that document; it is then not found |
| `Tickets.ReopenedTicketKeepsCompletedAt` | src/lib/firebase/tickets.ts:102-104 | moving a completed ticket to another status keeps its completion time |
| `NotificationService.TicketListSplitsIntoLines` | src/lib/notifications/notificationService.ts:31-36 | when no name or description holds a line break, splitting the text list at `\n` gives back exactly the per-ticket lines |
| `NotificationService.TicketLineUnbroken` | src/lib/notifications/notificationService.ts:34 | a ticket's line has no line break when its name and description have none |
| `NotificationService.TicketListAppend` | src/lib/notifications/notificationService.ts:31-36 | the text list of two ticket runs is their lists joined by `\n` |
| `NotificationService.TicketListHtmlAppend` | src/lib/notifications/notificationService.ts:38-43 | the HTML list of two ticket runs is their lists with no separator |
| `NotificationService.TicketLinesAppend` | src/lib/notifications/notificationService.ts:31-43 | the per-ticket lines of two runs are the lines of each, in order |
| `NotificationService.SubjectDeterminesCount` | src/lib/notifications/notificationService.ts:45 | subjects are equal exactly when the ticket counts are, so the subject carries the count |
| `NotificationService.BodyLayout` | src/lib/notifications/notificationService.ts:47-58 | the trimmed body is the name line with leading blanks removed, then the fixed text around the ticket list |
| `NotificationService.BodyStartsWithName` | src/lib/notifications/notificationService.ts:47-58 | for a name not starting with a blank, the trimmed body begins with name + " 様" |
| `NotificationService.BodyListsEveryTicket` | src/lib/notifications/notificationService.ts:47-58 | the body contains every ticket's line |
| `NotificationService.ReminderFrameIsTagged` | src/lib/notifications/notificationService.ts:60-101 | the HTML template starts with `<` and ends with `>`, so `trim` leaves it whole |
| `NotificationService.HtmlIsFramed` | src/lib/notifications/notificationService.ts:60-101 | whenever the frame's outer parts are tags, the mail body starts with the frame's opening part and ends with its closing part, whatever the name and tickets |
| `NotificationService.ReminderHtmlIsDocument` | src/lib/notifications/notificationService.ts:60-101 | the reminder's HTML body starts with `<!DOCTYPE html>` and ends with `</html>`, whatever the recipient name and tickets |
| `NotificationService.HtmlLayout` | src/lib/notifications/notificationService.ts:60-101 | the trimmed HTML is the template filled with the name, the count and the `<li>` list |
| `NotificationService.HtmlListsEveryTicket` | src/lib/notifications/notificationService.ts:38-101 | the HTML names the recipient and contains every ticket's `<li>` |
| `NotificationService.HtmlShowsList` | src/lib/notifications/notificationService.ts:60-101 | whatever the list contains, the HTML contains |
| `NotificationService.HtmlNamesRecipient` | src/lib/notifications/notificationService.ts:60-101 | the HTML contains the recipient's name |
| `NotificationService.PlusMessageSend` | src/lib/notifications/notificationService.ts:112-124 | the Plus Message channel always fails with its fixed "not yet implemented" error |
| `SendReminders.OverdueTicketsAre` | src/app/api/cron/sendReminders/route.ts:19-52 | the overdue tickets are an order-preserving subsequence of the collection, holding exactly the non-completed ones whose deadline day is before today |
| `SendReminders.OverdueTicketsByDay` | src/app/api/cron/sendReminders/route.ts:19-20 | two runs on the same day select the same tickets |
| `SendReminders.SelectStep` | src/app/api/cron/sendReminders/route.ts:30-52 | one `forEach` step appends the ticket exactly when it is overdue |
| `SendReminders.SelectOverdue` | src/app/api/cron/sendReminders/route.ts:30-52 | the loop collects exactly the filtered snapshot, in order |
| `SendReminders.Assignees` | src/app/api/cron/sendReminders/route.ts:63-73 | the object's keys: each assignee of the tickets, and nothing else, once |
| `SendReminders.AssigneesFirstSeenOrder` | src/app/api/cron/sendReminders/route.ts:63-85 | the keys are in first-seen order: an earlier key's assignee occurs in the tickets before any ticket of a later key |
| `SendReminders.FirstEmailIsFirst` | src/app/api/cron/sendReminders/route.ts:64-70 | a group's email is that of the first ticket seen for the assignee |
| `SendReminders.Grouping` | src/app/api/cron/sendReminders/route.ts:63-73 | one group per assignee, in first-seen order, holding that assignee's tickets |
| `SendReminders.AssigneesSnoc` | src/app/api/cron/sendReminders/route.ts:63-73 | a further ticket adds its assignee as a new key only when not yet seen |
| `SendReminders.BucketSnoc` | src/app/api/cron/sendReminders/route.ts:63-73 | a further ticket extends only its own assignee's bucket |
| `SendReminders.AddTicket` | src/app/api/cron/sendReminders/route.ts:64-71 | one `reduce` step adds the ticket's assignee to the keys |
| `SendReminders.TracksSnoc` | src/app/api/cron/sendReminders/route.ts:63-73 | one `reduce` step keeps the accumulator in step with the reference grouping |
| `SendReminders.TracksGrouping` | src/app/api/cron/sendReminders/route.ts:73-85 | the accumulator's entries, in key order, are the reference grouping |
| `SendReminders.GroupByAssignee` | src/app/api/cron/sendReminders/route.ts:63-85 | the `reduce` and `Object.entries` produce exactly the reference grouping |
| `SendReminders.CountForSnoc` | src/app/api/cron/sendReminders/route.ts:63-73 | a further ticket raises the total over the distinct keys by one |
| `SendReminders.CountForAssignees` | src/app/api/cron/sendReminders/route.ts:63-73 | the buckets of all assignees together hold every ticket once |
| `SendReminders.TotalTicketsCount` | src/app/api/cron/sendReminders/route.ts:63-73 | the total of the group sizes is the total over their keys |
| `SendReminders.GroupingPartitions` | src/app/api/cron/sendReminders/route.ts:63-73 | grouping partitions the overdue tickets: distinct keys; each group an order-preserving subsequence of exactly its assignee's tickets; every ticket in its group; group sizes add up to the ticket count |
| `SendReminders.GroupEmailIsFirst` | src/app/api/cron/sendReminders/route.ts:64-70 | each group's email is the first of its tickets' emails |
| `SendReminders.SharedAssigneeOneGroup` | src/app/api/cron/sendReminders/route.ts:63-73 | tickets that all name one assignee form a single group, under that key, holding all of them in order |
| `SendReminders.AsWrittenOneGroup` | src/app/api/cron/sendReminders/route.ts:42-73 | read through the `assignedPartner…` fields that stored tickets lack, all overdue tickets fall into one group keyed `undefined` |
| `SendReminders.TodayKey` | src/app/api/cron/sendReminders/route.ts:75 | the day key is the `formatDate` of the run's time |
| `SendReminders.EntriesAreFor` | src/app/api/cron/sendReminders/route.ts:123-131 | the entries appended for other recipients never make a recipient look already sent |
| `SendReminders.AlreadySentSkipsOthers` | src/app/api/cron/sendReminders/route.ts:87-104 | entries for other recipients do not change the dedup answer |
| `SendReminders.VisitSkips` | src/app/api/cron/sendReminders/route.ts:87-104 | a logged recipient gets no send and no entry, and a result with `Already sent today` |
| `SendReminders.VisitSends` | src/app/api/cron/sendReminders/route.ts:106-139 | an unlogged recipient gets one message, one entry mirroring the send result, and one result |
| `SendReminders.VisitStep` | src/app/api/cron/sendReminders/route.ts:85-140 | one iteration of the loop keeps the run in step with the reference outcome |
| `SendReminders.RunIs` | src/app/api/cron/sendReminders/route.ts:85-140 | over distinct recipients, the loop appends one entry per unlogged recipient, sends one message per unlogged recipient, and records one result per group, in group order |
| `SendReminders.GroupIdsDistinct` | src/app/api/cron/sendReminders/route.ts:63-73 | the groups have distinct recipients |
| `SendReminders.RunCovers` | src/app/api/cron/sendReminders/route.ts:85-140 | after the loop every group's recipient is logged for the day, sent or failed |
| `SendReminders.CountsAddUp` | src/app/api/cron/sendReminders/route.ts:142-143 | successes, failures and skips add up to the number of results |
| `SendReminders.SentCountIsDeliveries` | src/app/api/cron/sendReminders/route.ts:142 | `sentCount` is the number of unlogged groups whose send succeeded |
| `SendReminders.NotifyGroups` | src/app/api/cron/sendReminders/route.ts:85-140 | the loop's log, messages and results are the reference run |
| `SendReminders.SendReminders` | src/app/api/cron/sendReminders/route.ts:16-150 | the route's response, final log and sent messages are those of the reference job |
| `SendReminders.JobReport` | src/app/api/cron/sendReminders/route.ts:54-150 | the job always reports success; with nothing overdue it sends nothing, logs nothing and reports 0; otherwise it appends the entries of exactly the unlogged groups, sends their messages, reports one result per group with its ticket count, and counts the deliveries |
| `SendReminders.RunOverLoggedSkips` | src/app/api/cron/sendReminders/route.ts:87-104 | a run over recipients all already logged sends nothing and logs nothing |
| `SendReminders.SecondRunSendsNothing` | src/app/api/cron/sendReminders/route.ts:87-131 | a second run on the same day over the same tickets sends nothing and appends nothing, whatever the mailer did the first time |
| `StatusUpdate.LabelsFallBack` | src/app/api/notify/statusUpdate/route.ts:57-64 | the status label is the table's label for a known status and the raw value otherwise; the type label is the table's; the updater name is the display name, or `担当者` when there is none |
| `StatusUpdate.CommentText` | src/app/api/notify/statusUpdate/route.ts:94 | the text's comment line is present exactly when the comment is truthy |
| `StatusUpdate.CommentHtml` | src/app/api/notify/statusUpdate/route.ts:79 | the HTML's comment paragraph is present exactly when the comment is truthy |
| `StatusUpdate.CommentShownIffTruthy` | src/app/api/notify/statusUpdate/route.ts:69-97 | a truthy comment appears in both text and HTML; an untruthy one leaves both exactly as with no comment |
| `StatusUpdate.MailShowsFields` | src/app/api/notify/statusUpdate/route.ts:63-97 | the subject names the customer and the type; the text and the HTML show customer, type, deadline, status and updater |
| `StatusUpdate.NotifyStatusUpdate` | src/app/api/notify/statusUpdate/route.ts:12-126 | missing fields give 400, an unknown ticket 404, a self-update success without mail, and a missing creator failure without mail, none of them changing the log; otherwise one mail to the creator's email and one `status_update` log entry for `[ticketId]` with the new status and updater as metadata and a status mirroring the send; the response's success is the send's |
| `Text.NatToString` | src/app/api/cron/sendReminders/route.ts:147 | decimal digits without leading zeros |
| `Text.ParseNatToString` | src/app/api/cron/sendReminders/route.ts:147 | reading the decimal string back gives the number |
| `Text.SplitJoin` | src/lib/notifications/notificationService.ts:31-36 | splitting at a separator that no item contains gives back the joined items |
| `Text.TrimFramed` | src/lib/notifications/notificationService.ts:101 | `trim` of a template framed by line breaks is its non-blank inside |
| `Text.TemplateContainsSubstitution` | src/app/api/notify/statusUpdate/route.ts:67-97 | a template literal contains each of its substitutions |
| `Seqs.FilterCounts` | src/lib/firebase/tickets.ts:146-169 | `Array.filter` keeps each passing element exactly as often as it occurs, and no other element |
| `Seqs.Filter` | src/lib/firebase/tickets.ts:142-169 | `Array.filter` keeps an order-preserving subsequence of exactly the elements that pass |

## Left out

- `src/lib/notifications/email.ts` (the SMTP mailer) is not part of this model; the mailer is the `send` parameter.
- `src/lib/firebase/admin.ts`, `src/lib/firebase/users.ts` and `src/contexts/AuthContext.tsx` are not part of this model (store initialisation, plain reads, and the sign-in subscription). `getPartnerUsers` queries the role `partner`, which is not a user role.
- The users collection is a `map` from id to user; the tickets the cron job reads are a sequence in the order the `status != completed` query returns them, an order by status that the model takes as given.
- `cn` and `formatDateJP` (class-name merging and `Intl` date formatting) are not modelled.
- `toLocaleDateString('ja-JP')` in the status-change mail is the parameter `localeDate`, because it depends on the host's locale data.
- Time zones: local midnight is modelled as UTC midnight, so the cron job's local "today" and its UTC `todayStr` name the same day here. The real code can disagree by a day away from UTC.
- Firestore query evaluation and ordering: `orderBy`/`where` results are the `listing` parameter, with a precondition on order and contents.
- `createTicket`'s ids: the store hands out decimal ids in sequence instead of random ones, which is enough for "new and unused".
- The `sentAt` server timestamp of a log entry is modelled as the run's `now`.
- Concurrency: two overlapping cron runs can both pass the dedup check. The model is one sequential run.
- The `catch` blocks that answer 500, and failures of the store, are not modelled. The mailer's failure is its `success == false` result.
- The GET handler of the cron route is not modelled; it returns a fixed status object.
- `Object.entries` lists integer-like keys first in numeric order. The model keeps first-seen order for every key, which differs only for assignee ids that are array indices.
- Firestore's rejection of `undefined` field values is not modelled. src/lib/firebase/admin.ts:25-28 does not set `ignoreUndefinedProperties`, so a log entry whose `error` is `undefined`, which every successful send produces, is refused (src/app/api/cron/sendReminders/route.ts:123-131, src/app/api/notify/statusUpdate/route.ts:107-119), and so is an update whose optional fields are explicitly `undefined`. In the program the cron route then answers 500 after the first delivered mail, with that mail unlogged, and the status route answers 500 after sending its mail. The model logs every send.
- `SendReminders.SecondRunSendsNothing` holds for the model, which logs every send; it does not hold for the program as deployed, whose successful sends are not logged (previous line).
- The `reduce` accumulator `{}` inherits from `Object.prototype` (src/app/api/cron/sendReminders/route.ts:63-73): an assignee id such as `constructor` makes `!acc[userId]` false, and `acc[userId].tickets.push` then throws. The model's accumulator is a `map`, which holds only its own keys.
- `Utils.DaysBetween` divides exact integers. `daysBetween` divides IEEE doubles (src/lib/utils.ts:32-35); the two agree while the difference fits in 2^53 milliseconds, which every pair of valid time values within about 285,000 years of each other does.
- The status request's JSON fields are modelled as optional strings. A field of another JSON type (a number, an object) is not modelled.
- A string key such as `constructor` finds an inherited property of a label table in JavaScript. The model's label lookups find only the table's own keys.
- The creator's name, which the status route computes but never uses, is not modelled.
- `NotificationService.GenerateOverdueReminderContent`: its HTML template is a parameter (`HtmlFrame`) in the lemmas, which are proved for every tagged frame; `ReminderFrame` is the source's frame.
- `SendReminders.Job` takes the content generator as a parameter; `SendReminders.SendReminders` passes the source's generator, and the lemmas hold for any generator.
- `Tickets.TicketStore.GetTickets` and `Tickets.TicketStore.GetOverdueTickets` assume that the store returns the documents in the order their queries ask for, as the preconditions say.
- `PlusMessageChannel` is modelled by its `send`; its `name` is a constant.

## Findings

| source | as written | input that shows it | evidently intended | confidence | as-written member | corrected member |
|---|---|---|---|---|---|---|
| src/app/api/cron/sendReminders/route.ts:42-43,64,67 | the cron route reads each ticket's assignee from `assignedPartnerId`/`assignedPartnerEmail`, fields that no stored ticket holds | any two overdue tickets written by `createTicket` with different `assignedKddiId`: they land in one group keyed `undefined`, mailed to `undefined` | read `assignedKddiId`/`assignedKddiEmail`, the fields src/lib/firebase/tickets.ts:36-37 and src/types/index.ts:45-46 use, so each assignee gets their own mail | not executed | `SendReminders.AsWrittenOneGroup` | `SendReminders.GroupingPartitions` |
