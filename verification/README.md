# GoReminder: recurrence, calendar sync, paging and worker

A Dafny model of the parts of GoReminder whose behaviour is decided by many small steps, and
proofs about it. Four components are covered.

**Recurrence.** `CronExpressionToRRule` compiles five-field cron to a recurrence rule. Cron
expressions (`CronRule`, as github.com/robfig/cron reads them) and rules (`RRule`, as
github.com/teambition/rrule-go reads their text) are given a meaning as sets of days and instants of
the Gregorian calendar (`Gregorian`); rules follow section 3.3.10 of RFC 5545. The compiled rule is
proved to select the same days, and the same instants exactly when minute and hour are single;
`CronAcceptance` says from the text alone which expressions compile, and to which frequency.
Completion shifts rewrite the text of a cron expression or rule. Their output is read back, compared
with the completion day, and searched for its next occurrence, with the number of days the search
can take. `RuleFields` treats a rule's text as a list of keyed parts in which the last value of a
key counts, and `RuleRewrite` shows that overwriting parts of the text is overwriting entries of
that list. `CompletionHistory` follows a stored series through all its completions, and
`ShiftAcceptance` says which expressions and rules a completion accepts.

**Calendar sync.** `ImportStore` holds tasks, links and published jobs, and what one event does to
them; `ImportReplay` shows an event to be an assignment of fixed values to fixed columns, from which
replay convergence follows, and `LaterReplay` lets clock and events change between the two imports;
`ImportTasks` counts created tasks, `ImportWrites` says what each delivery writes, and `ImportJobs`
which job it publishes and what the jobs add up to. `Cursor` is one sync run with its paging loop,
as a function of the tables and of what the calendar answers; `CursorRuns` is any number of runs at
once on one binding, and `CursorRefinement` proves each sync of `Cursor` to be such a run.
`SyncReplay` joins the two: a failed sync followed by a completed one. `Outbox` is the outbox table,
`OutboxWorkers` any number of workers on it with claims in two steps and marks that can be lost.
`ExportPlan` says which outbox rows a change asks for, and `Sync` puts imports, edits, deletions,
opt-ins and export executions together into one system. `SyncTasks` says over its runs when an event
has at most one task, and `SyncAnchors` which steps break the tie between them. `SyncExports` says
when a try of an export succeeds, what it leaves, and that exactly the rows with a successful try
become done.

**Query text and paging.** `Like`, `Paging`, and `TaskFilters` with the two filter chains of the
paged query.

**Sample worker.** `DueStore` and `Worker`.

Objects the program changes in place are classes with the same fields (`Outbox.OutboxTable`,
`Cursor.BindingSync`, `ImportStore.SyncTables`, `DueStore.Store`, `Worker.Handlers`). The contract of
each method fixes the new state as a function of the old one, or, where the database may choose the
order of rows, as a relation to it, and the theorems are about those functions and relations.
Loops over text (`replaceRRuleParts`, the cron expansions, `orderByIncludesColumn`, the recurrence
lines) are methods with loops. Protocols are step systems: a state, steps that are possible in it,
and theorems over every run.

Where code and documentation differ the code is followed. These places are proved, each with its
exact condition:

- A bare `*` in the minute field compiles although no start time makes rule and cron agree
  (`BareStarMinuteIsAccepted`, `InstantsPreservedExactly`).
- A rule with a repeated key keeps the old value of that key after a shift
  (`RepeatedKeyMissesAnchor`, `AnchorIsAnOccurrence`).
- A calendar event can end up with two live tasks although nothing was deleted: opting a task in to
  another calendar, and exporting an imported task to one, both move the link that names its event
  (`OptInExample`, `ExportExample`). `OneTaskPerEvent` gives the condition over all runs, and
  `StepDecidesAnchor` the steps that break it.
- An opt-in keeps the event of a link it moves to another calendar, so the export that follows patches
  that event where it is not, instead of creating one (`ExportAfterOptIn`).
- The link update of a recreated import does not store the new task id, so each further delivery
  creates a task (`DeletedTargetDuplicates`, `TaskCreatedExactly`).
- The first delivery of an event with the program's own property links without looking at the
  reminder, so a replay changes it (`SilentLinkReplays`).
- The delivery chat an import copies onto a reminder is used for publishing but never stored
  (`StoredChatIsKept`).
- A child task asks for no export, except that a deleted one with a link of its own asks for a delete
  (`ChildRowsExactly`).
- A recurrence line with leading space is cut at the wrong place (`LeadingSpaceShiftsTheRule`).
- In the worker, a stale look-up can drop a key that was armed again (`DropLosesExactly`), a
  pre-reminder can outlive its reminder (`SplitScheduleLeavesPre`, `UnnamedMessengerLeavesPre`), and
  a rule that has run out takes its job off the index and ends the batch (`FiredJobIsArmedExactly`,
  `ExhaustedRuleEndsBatch`).

Time is whole minutes in the sync and the outbox, seconds in the worker, and days with nanoseconds in the
recurrence part, always in UTC. Answers of the calendar, the database clock and webhook results are
parameters. Ids are serial numbers. `dafny verify dfyconfig.toml` covers the whole project.

## Model

| member | source | states |
|---|---|---|
| CronCompile.ExpandCronIntList | internal/service/calendar_sync_helpers.go:198-230 | The loop over a comma list of numbers and ranges accepts, and returns, what the pieces stand for one after the other; every error branch is a refusal. |
| CronCompile.DistinctNames | internal/service/calendar_sync_helpers.go:267-282 | The loop with the `seen` map keeps the weekday names in order of first appearance, 7 being Sunday. |
| CronCompile.CronDowToByDay | internal/service/calendar_sync_helpers.go:233-284 | The weekday loop accepts exactly the fields its pieces allow and returns their distinct names joined by commas. |
| CronMeaning.FieldAgrees | internal/service/calendar_sync_helpers.go:186-311 | What the expansion of a field lists is exactly the set of values the cron parser reads from it, for days, months and weekdays. |
| CronPreservation.CompilationPreservesDays | internal/service/calendar_sync_helpers.go:129-184 | Whatever is accepted: the expression is a valid cron, the returned text reads back as a plain rule of the frequency its stars call for, and from any start on the rule selects exactly the cron's days. |
| CronAcceptance.AcceptedExactly | internal/service/calendar_sync_helpers.go:129-184 | An expression compiles if and only if it parses, minute and hour pass the guard, its day fields have one of the four patterns of stars, and no piece of a set day field has a step, a star, a question mark or a month name. |
| CronAcceptance.NumbersCompile | internal/service/calendar_sync_helpers.go:154-184 | Every expression of numbers in bounds with stars in one of the four patterns compiles, to the frequency of its pattern, and the rule selects exactly the days its numbers name, so `m h d * *` every d-th of a month. |
| CronInstants.InstantsPreservedExactly | internal/service/calendar_sync_helpers.go:125-151 | For a cron that selects some day, rule and cron fire at the same instants from DTSTART on if and only if minute and hour are single and DTSTART carries them. |
| CronInstants.BareStarMinuteIsAccepted | internal/service/calendar_sync_helpers.go:144-156 | A bare star in the minute field passes the guards and compiles to a daily rule, and no DTSTART has its clock. |
| CronInstants.SevenNeedsTheGuard | internal/service/calendar_sync_helpers.go:134-137 | Without the validating parser the weekday loop would read Sunday-to-7 as Sunday alone; the parser refuses that field. |
| RecurrenceLines.FirstRule | internal/service/calendar_sync_helpers.go:99-111 | The loop returns the rule of the first line that has one. |
| RecurrenceLines.RuleReadsBack | internal/service/calendar_sync_helpers.go:99-123 | What is written for a rule reads back as the rule without prefix and surrounding space, and nothing is read back exactly when there is no rule. |
| RecurrenceLines.LeadingSpaceShiftsTheRule | internal/service/calendar_sync_helpers.go:101-103 | A line with space before the prefix, in any mix of cases, is recognised but yields the written rule if and only if there is no such space. |
| RuleRewrite.ReplaceParts | internal/service/task_recurrence.go:293-315 | The loop with its shrinking map of requested keys computes the rewriting of the list of parts, error branches included. |
| RuleRewrite.RewriteFailsExactly | internal/service/task_recurrence.go:298-313 | Rewriting fails if and only if some part has no key or a requested key is absent. |
| RuleRewrite.RewriteCommutesWithReading | internal/service/task_recurrence.go:293-315 | Reading the rewritten text gives the parts read from the input with the first part of each requested key overwritten, in the same order. |
| RuleRewrite.OverwriteUnique | internal/service/task_recurrence.go:303-309 | With unique keys exactly the parts with requested keys change. |
| RuleFields.LastValueDecides | internal/service/task_recurrence.go:249-252 | The rule a text denotes has for each property the last value given for its key. |
| RuleFields.OverwrittenValue | internal/service/task_recurrence.go:304-308 | Overwriting the first part of a key changes the value that counts if and only if the key occurs once. |
| RRuleShift.ShiftedReadsBack | internal/service/task_recurrence.go:244-286 | An accepted rule, shifted, reads back as the same rule with its single weekday, month and month day moved to the anchor, and with frequency, interval and week start kept. |
| RRuleShift.AnchorIsAnOccurrence | internal/service/task_recurrence.go:272-285 | With DTSTART on the anchor's day the shifted rule selects that day if and only if no repeated key keeps an unsuitable value; with unique keys it always does. |
| RRuleShift.RepeatedKeyMissesAnchor | internal/service/task_recurrence.go:303-308 | A weekly rule with two BYDAY parts is accepted, and shifted it selects the anchor's day if and only if the anchor falls on its last weekday. |
| RRuleShift.LastShiftWins | internal/service/task_recurrence.go:244-315 | A shifted rule is accepted again, and shifting by a and then by b gives the text of shifting by b. |
| RRuleShift.AnchorPartsPresent | internal/service/task_recurrence.go:272-281 | Every part the shift overwrites is there, so replacing never fails on an accepted rule. |
| CronShift.ShiftedCronSelects | internal/service/task_recurrence.go:209-242 | A shifted expression is always a valid cron with the original minute and hour, selects exactly the days of its series through the anchor, and selects the anchor's day. |
| CronShift.LastShiftWinsCron | internal/service/task_recurrence.go:209-231 | A shifted expression is accepted again, and the last of two shifts decides the text. |
| CompletionHistory.CronCompletions | internal/service/task_recurrence.go:209-242 | After any sequence of completion days the cron expression is that of one shift of the first expression by the last day. |
| CompletionHistory.RuleCompletions | internal/service/task_recurrence.go:244-315 | After any sequence of completion days the rule is that of one shift of the first rule by the last day. |
| NextOccurrence.SearchAfter | internal/service/task_recurrence.go:72-76 | A day-by-day search finds the least occurrence strictly after an instant, and finds none exactly when none is within its limit. |
| NextOccurrence.WeekdayWithin | internal/service/task_recurrence.go:222-223 | Every weekday comes within 7 days of any day. |
| NextOccurrence.MonthDayWithin | internal/service/task_recurrence.go:224-225 | Every day of the month comes within 61 days of any day. |
| NextOccurrence.DateWithin | internal/service/task_recurrence.go:226-227 | Every date of a year, 29 February included, comes within 2921 days of any day. |
| CompletionShift.NextCronFire | internal/service/task_recurrence.go:127-138 | For a shifted cron the next fire exists, is the least one strictly after the given instant, and is at most 1, 7, 61 or 2921 days away. |
| CompletionShift.MonthlyBoundIsTight | internal/service/task_recurrence.go:224-225 | From 1 April 2023 the 31st is 60 days away. |
| CompletionShift.YearlyBoundIsTight | internal/service/task_recurrence.go:226-227 | From 1 March 1896 the next 29 February is 2920 days away. |
| CompletionShift.NextRuleOccurrence | internal/service/task_recurrence.go:60-77 | For a plain rule the next occurrence is the least one strictly after the instant, and an error means there is none at all. |
| CompletionShift.RuleReach | internal/service/task_recurrence.go:72-75 | A rule that selects a day selects one in every span of its interval times 400 years from DTSTART on. |
| CompletionShift.ShiftFromCompletion | internal/service/task_recurrence.go:160-207 | Both or neither field set is refused; otherwise the shift is accepted exactly when text, bounds and next occurrence allow, and returns the completion-day anchor, the shifted text and the least occurrence strictly after the completion. |
| CompletionShift.AnchorIsOnDayAtClock | internal/service/task_recurrence.go:182-207 | The anchor of an accepted shift is on the day of the completion, at hour, minute and second of the completed child and no fraction of one; the next start comes after the completion, for a rule at that time of day and for a cron expression at its own. |
| ShiftAcceptance.CronAcceptedExactly | internal/service/task_recurrence.go:209-242 | A cron expression is shifted, whatever the day, if and only if minute and hour are one number each and the day fields are all stars, stars but for one weekday or one day of the month, or one date. |
| ShiftAcceptance.RuleAcceptedExactly | internal/service/task_recurrence.go:244-286 | A rule is shifted, whatever the day, if and only if it is one line without DTSTART that reads as a rule of one of four frequencies with at most one weekday, month and month day and no other limit. |
| CompletionShift.UniqueKeysAlwaysShift | internal/service/task_recurrence.go:188-200 | With unique keys an accepted rule meets its bounds and has a next occurrence, so it is never turned down after the rewriting. |
| ShiftAcceptance.CompletionAcceptedExactly | internal/service/task_recurrence.go:160-207 | A completion is accepted if and only if exactly one field holds more than white space, and that one is a cron expression of one of the four series with minute and hour of one or two digits, or an accepted rule whose shifted form is in bounds and occurs again after the completion. |
| CompletionHistory.HistoryIsForgotten | internal/service/task_recurrence.go:160-207 | Whatever completions came before, refused ones included, each is answered from the stored series as from the original one: same acceptance, anchor, text and next start. |
| CompletionHistory.LastAcceptedIsStored | internal/service/task_service.go:2548-2561 | After any history of completions the stored start, cron expression and rule are the original ones written once by the last accepted completion. |
| CompletionHistory.StoredStartIsLastCompletion | internal/service/task_service.go:2548-2561 | After any completions the stored start is on the day of the last accepted one, at the clock of the child completed then. |
| CompletionHistory.CheckedSeriesIsNeverRefused | internal/service/task_service.go:2374-2391 | A series that passes the check made when the mode is stored, and whose rule repeats no key, is never refused at a later completion. |
| Cursor.BindingSync.ImportEvents | internal/service/calendar_sync_service.go:508-554 | On any tables and answers of the calendar the loop, its restart after a rejected token included, applies, writes, returns and leaves what the recursive reading of the answers says, and clears the stored token exactly when one was rejected. |
| Cursor.BindingSync.SyncBinding | internal/service/calendar_sync_service.go:448-491 | Row and tables are written, events are applied and answers are taken exactly as the functions of old row, tables, answers, connection and time say; by direction, an export-only binding is left alone, and any other takes an answer when there is one and has success or failure written in its row. |
| Cursor.SyncByDirection | internal/service/calendar_sync_service.go:448-491 | An export-only binding is left alone; an import or two-way one takes at least one of the answers offered, and its row says success, or one more failure with a retry after 1, 5, 30 or 120 minutes. |
| Cursor.SyncStoresToken | internal/service/calendar_sync_service.go:508-554 | A completed sync stores the token of the last page it received, if that has one; otherwise, and after a failure, the row keeps the token the listing began with, none after a rejection. |
| Cursor.SyncTakesWholeListing | internal/service/calendar_sync_service.go:448-554 | The answers taken are a prefix of those offered, all their events up to a refusal are applied, and these make the tables; a completed sync received a whole chain of pages, the last answers it took, and applied their events last and in order; the starting token is dropped if and only if one of the answers was a rejection. |
| CursorRefinement.SyncIsARun | internal/service/calendar_sync_service.go:448-554 | Whatever the calendar answers, a sync of a binding is a run of the steps of `CursorRuns` with the same row, the same events applied and every other run left alone. |
| CursorRefinement.SyncIsSafe | internal/service/calendar_sync_service.go:477-487 | So a sync from a safe state ends in one: the events behind the token it stores are applied. |
| Cursor.FailingBindingIsGivenUp | internal/repository/calendar_binding_repository.go:287-313 | A binding that keeps failing is tried at most 8 times by the scheduler, and its backoff adds up to 516 minutes before the last try. |
| Cursor.DueExactly | internal/repository/calendar_binding_repository.go:287-313 | The scheduler picks exactly the import and two-way bindings that are active, or failed fewer times than the limit and have waited. |
| CursorRuns.StoredTokenHidesNothing | internal/service/calendar_sync_service.go:477-487 | In every reachable state of any number of interleaved runs, all events returned on the pages leading to the stored token have been applied. |
| CursorRuns.OnlyCompletionMovesTheToken | internal/service/calendar_sync_service.go:796-814 | Only a completed listing stores a token its run did not start from, and a failure stores the one it started from. |
| CursorRuns.NoChangeIsLost | internal/service/calendar_sync_service.go:448-554 | From a binding without token and without runs, over any interleaving, failure and restart, the events behind the stored token are applied. |
| Outbox.WholeBackoff | internal/service/calendar_sync_helpers.go:25-42 | The backoff before the last try of a failing row is 516 minutes. |
| Outbox.FailureWaits | internal/service/calendar_sync_helpers.go:25-42 | A failed execution puts its row back for 1, 5, 30, and from then on 120 minutes with one more attempt, the eighth fails it, and a successful one only makes it done. |
| Outbox.OutboxTable.ClaimDue | internal/repository/sync_outbox_repository.go:78-143 | The first due pending rows in id order, 50 when no limit is given, become processing; no other row changes. |
| Outbox.ClaimedExactly | internal/repository/sync_outbox_repository.go:78-143 | A claim takes a row if and only if it is pending, its time has come, and fewer than the limit (50 without one) of such rows come before it. |
| Outbox.OutboxTable.ProcessOutbox | internal/service/calendar_sync_service.go:1065-1098 | One pass claims the first 50 due rows and leaves each as done, retried with backoff, or failed at the eighth failure, according to its execution. |
| OutboxWorkers.OutboxIsSafe | internal/service/calendar_sync_service.go:1065-1098 | Under any interleaving of workers: a row is held by at most one, only in processing; pending rows count their failures, at most 7; a failed row failed exactly 8 times after 516 minutes and says 7. |
| OutboxWorkers.RowsAreNeverLost | internal/repository/sync_outbox_repository.go:78-227 | Over any run no row disappears, kind and payload never change, attempts never fall, and done and failed rows are final. |
| OutboxWorkers.OutboxDrains | internal/service/calendar_sync_service.go:1080-1095 | Committed claims and written marks are bounded by a measure of the open rows plus 16 for each new row. |
| ImportStore.SyncTables.UpsertImportedEvent | internal/service/calendar_sync_service.go:556-747 | The branches of an import, step by step on the tables with their foreign key and unique constraints, do what the event's function says, published jobs included; the constraints never refuse it. |
| ImportStore.SyncTables.UpdateLink | internal/repository/task_sync_link_repository.go:222-262 | Every column of a link is written but its task id, unless the id has no row or another link has the event. |
| ImportStore.SyncTables.UpdateTask | internal/repository/task_repository.go:536-591 | A live row gets every column but the delivery chat; a deleted row is untouched. |
| ImportStore.SyncTables.CreateLink | internal/repository/task_sync_link_repository.go:51-80 | A link is added exactly when its task row exists, deleted or not, and no link has the same event in its calendar or for its task. |
| ImportStore.SyncTables.ApplyImportedDeletePolicy | internal/service/calendar_sync_service.go:771-794 | A cancelled event deletes, mutes once or leaves the reminder, and publishes a deletion when it changed it. |
| ImportStore.EventLink | internal/repository/task_sync_link_repository.go:116-147 | The look-up finds a link of the event exactly when there is one. |
| ImportStore.TaskLink | internal/repository/task_sync_link_repository.go:82-114 | The look-up finds the newest link of a task exactly when it has one. |
| ImportReplay.ReplayConverges | internal/service/calendar_sync_service.go:537-541 | For non-cancelled events that are linked to live tasks or foreign, with repetitions allowed: stopping after any prefix and importing the whole batch again leaves the tables as one import does. |
| ImportReplay.ReplayAfterFailure | internal/service/calendar_sync_service.go:537-541 | The same when the first import met an event it could not apply, whatever came after it: it leaves what came before that event. |
| LaterReplay.LaterReplayConverges | internal/service/calendar_sync_service.go:537-746 | A batch imported up to some event, and imported in full at a later time with its events as they are by then, leaves the tables of the later import alone, unless an exported reminder's event ended in between. |
| LaterReplay.LaterReplayExactly | internal/service/calendar_sync_service.go:673-693 | For one linked event this holds if and only if the later delivery does not keep an exported reminder open that the first one scheduled, or the first one changed nothing of its schedule. |
| SyncReplay.FailedSyncLeavesNoTrace | internal/service/calendar_sync_service.go:448-554 | After a failed sync that kept its token, a later sync given a whole listing that begins with the events the failed one applied completes, and row and tables are as if the failed one had never been. |
| ImportReplay.SettledIsFixed | internal/service/calendar_sync_service.go:663-746 | The state after a batch is a fixed point of the assignments of its events. |
| ImportTasks.MappedStatus | internal/service/calendar_sync_helpers.go:319-362 | An event maps to done if and only if it has no occurrence left, and then finished in the past; otherwise it is scheduled in the future without a finish. |
| ImportJobs.MappedColumns | internal/service/calendar_sync_helpers.go:319-362 | Every column an event maps to: trimmed title or the placeholder, the start of the event or of its next occurrence, the finish in the past, owner, group and chat of the binding. |
| ImportWrites.DeliveryWrites | internal/service/calendar_sync_service.go:556-794 | Everything one delivery writes: the created, recreated or followed task and the new or refreshed link column by column, the cancelled task by policy, and no other row; it is refused, writing nothing, exactly when the start cannot be read or an own event's task row is missing. |
| ImportWrites.ActsOnExactly | internal/service/calendar_sync_service.go:556-607 | The link a delivery acts on is the one that names the event, or for an own event that none names the newest link of the task in its property. |
| ImportJobs.DeliveryPublishes | internal/service/calendar_sync_service.go:556-794 | Which job one delivery publishes, from the rows before it: one schedule job of the new id for a created or recreated task, a schedule or delete job for a followed one by old status, new status and what changed, a delete job for a cancellation by policy and mute; never one without a chat. |
| ImportJobs.DeliveriesAgree | internal/service/calendar_sync_service.go:609-794 | On tables where jobs and tasks agree, so from empty ones on, this holds after any deliveries: the last job of each task with a stored chat is a schedule if and only if the task is live, unmuted and waiting for a start. |
| ImportTasks.StoredChatIsKept | internal/service/calendar_sync_helpers.go:373-383 | No event changes the stored delivery chat or owner of an existing row. |
| ImportTasks.RepeatedDeliveryIsQuiet | internal/service/calendar_sync_service.go:609-735 | Delivered twice in a row, an event publishes its job once, whether it was linked or new. |
| ImportTasks.TaskCreatedExactly | internal/service/calendar_sync_service.go:609-661 | An event creates one task if and only if it is new and foreign, or its link leads to a deleted task. |
| ImportTasks.OwnEventNeedsNoTask | internal/service/calendar_sync_service.go:571-603 | An event with the program's own property adds a task only through a link to a deleted one. |
| ImportTasks.OneTaskPerForeignEvent | internal/service/calendar_sync_service.go:609-643 | In one batch whose linked tasks are not deleted, the tasks created are in bijection with the distinct new foreign events. |
| ImportTasks.DeletedTargetDuplicates | internal/service/calendar_sync_service.go:645-661 | Once the linked task is deleted, n deliveries of its event, through any bindings and at any times, create n tasks. |
| ImportTasks.SilentLinkReplays | internal/service/calendar_sync_service.go:574-599 | After the silent link a second delivery leaves the reminder unchanged if and only if title, description and group are the event's and, while the event is not over, start, rule, scheduled status and missing finish are too. |
| ImportTasks.EchoesAreHarmless | internal/service/calendar_sync_service.go:676-736 | Any sequence of echoes that map to done, through any bindings and at any times, leaves status, start, rule, finish, chat and mute of every task unchanged and publishes nothing. |
| ExportPlan.EnqueueExport | internal/service/calendar_sync_service.go:831-963 | The rows added are, as a multiset, the ones the sets of bindings ask for, whatever the order of map iteration; no other row changes. |
| ExportPlan.CollectIds | internal/service/calendar_sync_service.go:846-884 | The link branch and the loop over the owner's bindings fill the two sets of the specification, deletes first. |
| ExportPlan.OneRowPerBinding | internal/service/calendar_sync_service.go:881-913 | Each asked row is asked once and a binding gets at most one row, so upserts and deletes are disjoint. |
| ExportPlan.RowsAreInScope | internal/service/calendar_sync_service.go:842-879 | Import-only bindings and live child tasks never get a row, and an upsert is for a live task that is in the group or opted in. |
| ExportPlan.LiveRowsExactly | internal/service/calendar_sync_service.go:842-915 | A live task without parent asks each exporting binding that its link leads to, or that is its owner's and takes its group, for one row: an upsert if it is in the group or opted in there, else a delete, and on deletion always a delete. |
| ExportPlan.GoneRowsExactly | internal/service/calendar_sync_service.go:831-963 | A task that is gone asks, on its deletion only, for a delete of the exporting binding its newest link leads to, or without one by the link itself if that is of exported origin. |
| ExportPlan.DeletionByLinkExactly | internal/service/calendar_sync_service.go:906-912 | A live task asks for a delete by its link if and only if it is deleted, has no parent, its newest link is of exported origin and its deletion concerns no binding. |
| ExportPlan.ChildRowsExactly | internal/service/calendar_sync_service.go:831-947 | A child task gets a row if and only if it is deleted and its newest link leads to an exporting binding or is of exported origin; the row is then one delete. |
| ExportPlan.LeavingAsksForDelete | internal/service/calendar_sync_service.go:849-861 | Leaving the group without opt-in, or being deleted, asks the linked binding for a delete, also after the row is gone. |
| Sync.NoResurrection | internal/service/calendar_sync_service.go:1116-1123 | Over any run of the whole system a soft-deleted task stays deleted and no call creates or patches a calendar event for it. |
| Sync.LeftoverRowsFail | internal/service/calendar_sync_service.go:1080-1092 | Every try of an upsert row of a deleted task fails; the tries are bounded by 8 in all, and the row is failed exactly when they are used up, never done. |
| SyncExports.UpsertOutcome | internal/service/calendar_sync_service.go:1116-1205 | An upsert succeeds if and only if there is nothing to export, or the calendar stored the event and the link could be written; the newest link of the task then records the event and its etag, and a failure writes nothing. |
| SyncExports.RemoveOutcome | internal/service/calendar_sync_service.go:1207-1256 | A delete succeeds if and only if there is no link, no account, or the calendar answered stored or missing; exactly then the newest link is removed. |
| SyncExports.OptInOutcome | internal/service/calendar_sync_service.go:966-1043 | An opt-in is accepted if and only if the task is live and without parent, the binding is its owner's and exports, and the link can be written; it then points the newest link at the binding, or adds one, and any other writes nothing. |
| SyncExports.OptedInIsExported | internal/service/calendar_sync_service.go:1013-1049 | After an accepted opt-in every change of the task asks that binding for an upsert, whatever the groups. |
| SyncExports.ExportAfterOptIn | internal/service/calendar_sync_service.go:1028-1155 | The export that follows creates an event if and only if the newest link named none before; otherwise it patches the event that was named, in the binding's calendar, and succeeds only if that calendar stores it. |
| SyncExports.TryOutcome | internal/service/calendar_sync_service.go:1080-1095 | A marked try makes its row done and has been carried out, or puts the row back with one more failure and the wait of that failure and has written nothing. |
| SyncExports.DoneExactly | internal/service/calendar_sync_service.go:1065-1098 | Over any run of the system a row is done if and only if it was at the start or a worker's try of it succeeded and was marked. |
| SyncExports.DoneMeansCarriedOut | internal/service/calendar_sync_service.go:1065-1256 | A row that became done was carried out: its event was stored in the calendar and recorded in the newest link of its task, or removed, unless it had nothing to export. |
| Sync.ExportedStaysExported | internal/service/calendar_sync_service.go:1149-1204 | Over any run of imports, exports, edits and opt-ins a link of exported origin never becomes imported, and link ids are not reused. |
| SyncTasks.OneTaskPerEvent | internal/service/calendar_sync_service.go:556-747 | Over any run of the system no foreign event gets a second task if and only if every delivery of an event that has one finds a link which still names it and whose task is alive. |
| SyncTasks.BornTasksAreDistinct | internal/service/calendar_sync_service.go:609-661 | The tasks added by deliveries are new rows with increasing ids and stay in the table, so under that condition events and tasks correspond one to one. |
| SyncAnchors.TablesStayValid | migrations/20260921100000_add_task_groups_and_calendar_sync.sql:70-89 | Over any run the tables keep serial ids, the foreign key and both unique constraints of links. |
| SyncAnchors.StepDecidesAnchor | internal/service/calendar_sync_service.go:759-1256 | A step unties an event from its live task if and only if it deletes that task, cancels it under the delete policy, opts it in to another calendar, exports it as a new event elsewhere, or removes its link in an export. |
| SyncAnchors.UndisturbedEventsHaveOneTask | internal/service/calendar_sync_service.go:556-747 | While no such step touches a tracked event and no stray link is delivered to, the run adds exactly one task for each delivered event that had none, and none for the others. |
| SyncAnchors.UntiedThenDelivered | internal/service/calendar_sync_service.go:609-643 | After an opt-in or export that unties an event, its next delivery adds a second task while the first is alive. |
| SyncAnchors.OptInExample | internal/service/calendar_sync_service.go:1032 | One imported task, opted in to another calendar, and its event delivered again: two live tasks. |
| SyncAnchors.ExportExample | internal/service/calendar_sync_service.go:1149-1190 | One imported task and an exporting binding for another calendar: a change asks for the upsert, which moves the link, and the event delivered again makes a second live task. |
| Like.ThreePassesAreOne | internal/repository/task_repository.go:1164-1170 | The three replacements equal one pass that escapes each special character. |
| Like.PatternIsSubstring | internal/repository/task_repository.go:369-372 | The title pattern matches a title under LIKE with backslash escape if and only if the text occurs in it, up to any character folding. |
| Paging.OrderByIncludesColumn | internal/repository/task_repository.go:1146-1162 | The loop answers whether some part of the clause sorts by the column itself. |
| Paging.StableOrderHasId | internal/repository/task_repository.go:1133-1142 | Whatever order is asked for, the clause that is sent sorts by id as well. |
| Paging.StableOrderTerms | internal/repository/task_repository.go:1131-1142 | A clause of columns and directions is sent as these, unchanged and in front, then id ascending unless it is one of them; a blank one as newest first, then id. |
| Paging.AskedOrderIsKept | internal/repository/task_repository.go:1131-1142 | In a result each row comes before the later ones by the terms asked for, each in its direction with NULL as the largest value, and then by id. |
| Paging.PageRows | internal/repository/task_repository.go:292-302 | Page p of size n is the rows from (p - 1) n on, at most n, with page 1 for a page below 1 and size 50 without one. |
| Paging.OneResult | internal/repository/task_repository.go:1131-1142 | With the tiebreaker a set of rows has one sorted result only. |
| Paging.PagesPartition | internal/repository/task_repository.go:452-457 | On an unchanged table pages cut from separate queries, put together, are the sorted list of the matching rows with each row once. |
| Paging.TiesCanSplitPages | internal/repository/task_repository.go:1131-1133 | Without the tiebreaker one row can be on both pages and another on none. |
| TaskFilters.ClausesSelectWanted | internal/repository/task_repository.go:305-377 | The clauses of a filter select exactly the rows the caller asked for, NULL columns and the title pattern included. |
| TaskFilters.CountClauses | internal/repository/task_repository.go:305-377 | The clauses of the count query select exactly the rows asked for, in the order the filters are checked. |
| TaskFilters.DataClauses | internal/repository/task_repository.go:391-449 | The clauses of the separately built data query select exactly the rows asked for, and are the same. |
| TaskFilters.GetTasks | internal/repository/task_repository.go:292-487 | The page is cut from the sorted rows asked for, and the total is their number. |
| TaskFilters.FilteredPagesPartition | internal/repository/task_repository.go:292-487 | For any filters and order the pages of separate queries put together are the sorted list of exactly the rows asked for, each once, as many as the count query returns. |
| DueStore.KeysAreDistinct | examples/worker/store.py:17-23 | For integer ids a key determines messenger and task, and no main key is a pre key. |
| DueStore.Store.DueJobs | examples/worker/store.py:58-70 | The due keys come by score up to the limit; those with a payload are returned with it and the others are dropped from the index, and nothing else changes. |
| DueStore.ReadExactly | examples/worker/store.py:58-62 | What is read is due, and a due member is left out only when the limit is filled with ones that are not later. |
| DueStore.IndexAgreesWithPayloads | examples/worker/store.py:35-74 | Under every interleaving of commands each index member has a payload and each arming is claimed at most once. |
| DueStore.FromEmptyStart | examples/worker/store.py:35-74 | So from an empty store on, under any commands, every index member has a payload and each arming is claimed at most once. |
| DueStore.DropLosesExactly | examples/worker/store.py:64-68 | Dropping a key found without payload loses an arming if and only if the key is in the index at that moment; its payload is then there, and no poller ever claims that arming, whatever follows. |
| DueStore.StaleDropLosesAnArming | examples/worker/store.py:64-68 | The interleaving: payload removed, look-up, key armed again, key dropped; that arming is never claimed afterwards. |
| Worker.Handlers.FireJob | examples/worker/handlers.py:189-226 | A job that is claimed is retried, removed, armed for its next occurrence, or raises when its rule has none; one that is not claimed changes nothing. |
| Worker.Handlers.FireDue | examples/worker/handlers.py:185-227 | A poller alone fires the due batch job by job, up to the first that raises. |
| Worker.FiredJobIsArmedExactly | examples/worker/handlers.py:192-225 | A claimed job is armed again if and only if it was not delivered or its rule has a next occurrence, and its payload is left behind unarmed exactly when the rule has run out. |
| Worker.ScheduleTimes | examples/worker/handlers.py:102-183 | Scheduling arms the main job for its start and the pre-reminder that many seconds earlier, if that is still to come, and touches no other task. |
| Worker.DeleteClears | examples/worker/handlers.py:181-183 | Deleting leaves neither job of the task and touches no other. |
| Worker.FireTimes | examples/worker/handlers.py:185-227 | A claimed job is armed for 30 seconds later when not delivered, a recurring one for its next occurrence with the pre-reminder before that; a one-shot is gone with its pre-reminder, and no other job changes. |
| Worker.ExhaustedRuleEndsBatch | examples/worker/handlers.py:57-64 | When a rule has run out the jobs after it in the batch are left as they are. |
| Worker.FiredOneShotStaysQuiet | examples/worker/handlers.py:185-226 | With pollers working through batches read earlier: after a one-shot reminder fired, neither it nor its pre-reminder is armed or fires until that task is scheduled again. |
| Worker.OneShotFiresOnce | examples/worker/handlers.py:185-226 | From an empty store, whatever was scheduled, read and fired before: a one-shot reminder that fires is over, with its pre-reminder, until it is scheduled again. |
| Worker.SplitScheduleLeavesPre | examples/worker/handlers.py:148-149 | When the main job fires between the two writes of a schedule, the pre-reminder is left armed if and only if its time was still to come when the schedule was read. |
| Worker.UnnamedMessengerLeavesPre | examples/worker/handlers.py:102-225 | After a whole schedule and its firing the pre-reminder is left armed if and only if the messenger has an empty name and the pre-reminder was armed at all. |

## Left out

- CompletionShift.NextRuleOccurrence: covers rules without COUNT, UNTIL, BYSETPOS, BYYEARDAY, BYWEEKNO, BYHOUR, BYMINUTE, BYSECOND and BYEASTER, the only ones a completion shift accepts; the series goes on without end, while rrule-go stops at the year 9999.
- CompletionShift.UniqueKeysAlwaysShift: does not model that rrule-go stops at the year 9999, so a rule whose next occurrence by its interval lies beyond it is turned down by the program.
- CompletionShift.NextCronFire: does not model the last year (2099) cronexpr searches to, nor its internals; it is taken as the least fire strictly after an instant, and as accepting minutes and hours of one or two digits.
- CompletionHistory.CheckedSeriesIsNeverRefused: is about cron expressions and rules that repeat no key; a rule that repeats one is accepted at each completion as `CompletionShift.RuleShifting` says for its day.
- Cursor.BindingSync.SyncBinding: reads the clock once for a whole sync.
- ImportTasks.OneTaskPerForeignEvent: is about one batch of one binding at one time; `SyncTasks.OneTaskPerEvent` is the statement over all runs.
- Paging.StableOrderHasId: reads a part of the clause as a column and a direction; an explicit placement of NULLs is not read, and without one they sort as the largest value.
- ImportReplay.ReplayConverges: leaves out `last_synced_at`, which every application rewrites, and published jobs, which a replay may repeat.
- SyncTasks.OneTaskPerEvent: counts the tasks of foreign events; an event with the program's own property adds one only through a link to a deleted task (`OwnEventNeedsNoTask`).
- TaskFilters.GetTasks: takes the database's sort as a parameter, and both queries as seeing one table.
- ImportJobs.DeliveriesAgree: does not model the confirmation column, with which a recurring task is left to the reminder of its children; errors of publishing are only logged by the program, and the clock of the scheduler is read after that of the import.
- Worker.Handlers.FireDue: reads the clock once for the batch; a schedule message whose rule has no occurrence raises before it writes anything and is not a step of the model.
- Worker.FiredOneShotStaysQuiet: takes the firing of one job and the scheduling of one task as one step each, and needs a messenger name; lemmas beside it show what happens otherwise.
- Internals of the cron and recurrence libraries, descriptors such as `@daily` and time-zone prefixes, and rules of two lines with DTSTART inside.
- Case folding is ASCII in rule and cron text; the LIKE result holds for any per-character folding.
- An UNTIL part counts as set whatever its value; the zero time is not told apart.
- Reading an event's start, end and duration from the calendar's date formats, and building the exported event; both are parameters.
- Crashes between two statements inside one import or one export, and errors of those tables other than the ones named.
- Termination of the import when the calendar rejects every request: answers come from a finite script, and after it the calendar does not respond.
- Convergence on the calendar's side when a task has several export-capable bindings: an export acts on the newest link only.
- `nextExecutableStartDate` and the validation of single fields: case splits over look-ups proved here.
- The service that completes, mutes and reschedules tasks; HTTP, OAuth, message queues, attachments and plain create-read-update-delete repositories: nothing there is decided by the code modelled here.
- Task history rows, metrics and logs, and the time window of a first import.
