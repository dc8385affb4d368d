# Verified model of the agent's schema compiler, scheduled sends, inbound turns, model calls and spend control

A Dafny 4.11 model of five parts of the repository, with proofs about every input, every step and every run.
`dafny verify dfyconfig.toml` checks all of it.

**The null-union schema compiler** (`Schemas`, `SchemaCompiler`, `SchemaChanges`,
`ChangeRecord`, `NullRestorer`, `RoundTrip`, `ReducedAnswers`, `AnswerExample`).
Answer contracts say "null when unused"; the Anthropic API counts unions, so `toAnthropicSchema` rewrites them to
"omitted when unused", and `restoreOmittedNulls` puts the nulls back into the answer. Validity follows JSON Schema
Validation draft-07, sections 6.1.1, 6.1.2, 6.4.1, 6.5.3, 6.5.4, 6.5.6 and 6.7.2. The functions say what the result
is; the methods are the source's passes, which fill the change collector and the list of filled paths as they go.

**The scheduled-send lifecycle** (`JobIds`, `Lifecycle`, `ClientSends`, `SendLaws`, `SendRuns`, `SinglePending`,
`DeliverySafety`, `ReviewSafety`, `StaleJob`, `PauseResume`, `SendOutcomes`, `BootResync`). One client's drafts, its
mirror row and its BullMQ jobs. `Lifecycle` gives each operation as a function of the three stores, with the guards of
the SQL helpers; `ClientSends` is the same written as the source runs it, one store write after another, and is proved
equal to it; `SendLaws` tells what each does by the flags, drafts, row and jobs themselves. `SendRuns` lets
the operations happen in any order, with job pick-up a step of its own before the run under the client's lock, lost
workers, recovered jobs, Redis wipes, resyncs and flags that flip at any moment.

**The inbound turn** (`InboundTurn`, `InFlight`): the debounced re-plan job, its dirty flag and its plan / wait / force
decision, and the counter of handlers at work.

**The model-call engine** (`ToolTurns`, `Retry`, `Cost`): the OpenAI tool-turn loop, the retry loop with its backup
model, and the price of a call.

**Spend control** (`Budget`, `BudgetRuns`, `BudgetBounds`, `BudgetMinute`, `BudgetWaits`, `BudgetLeaks`,
`BudgetAlerts`, `WorkerPool`, `Summaries`, `Exposure`): the cached daily budget check, the evaluation harness's worker pool with its cap, and the
harness's summary. `Budget` takes a check apart at its waits (the settings, the platform's sum, the instance's sum) and
a finished call at the insert of its row; in the runs any number of checks and inserts are under way at once, and the
calls of this and other processes, saves and failing queries fall between any two of their steps.

I/O, the clock, randomness, the providers and the planner are parameters: a planning step is "a fresh draft and a
delay, nothing, or an error"; a provider is a function from round trips to replies.

## What turned out to be conditional

Some promises hold only under a condition. Each is proved as an if-and-only-if, over every input, every step or every
run, and the project builds the runs and values that fail (named in brackets).

- A single pending send (`SinglePending.OnePendingIff`): `adminApproveReviewMessage` queues a parked draft without
  removing what the row names, two callers plan without removing first (`src/api/reviewAdmin.ts:138`,
  `src/api/draftFirstEmail.ts:13`), and a crashed worker's job comes back even if the row no longer names it
  (`StaleJob.StaleJobRun`, `StaleJob.PlannedTwiceRun`, `StaleJob.RecoveredRun`).
- Review (`ReviewSafety.WaiterHasRowIff`, `ReviewSafety.SupersededStaysIff`): `markHeld`
  (`src/db/queries/emails.ts:181-188`) parks any row whose status is 'draft', so a job that waited for the lock while
  a replan superseded its draft puts that draft back into review; the admin can then approve and send it. The comment
  above the helpers says such races resolve to no rows (`StaleJob.StaleJobRun`).
- At most one delivery (`DeliverySafety.SentStandsIff`, `DeliverySafety.OncePerDraft`): `supersedePendingReview`
  (`src/db/queries/emails.ts:201-207`) resets every pending row to 'draft', a sent one included. That matters when
  review mode is switched off while a draft waits: it is sent, un-sent by the cleanup after it, and sent again if the
  job runs again (`StaleJob.SentTwiceRun`).
- No lost inbound (`InboundTurn.NoLostInboundIff`): a request that lands between `takeDirty`
  (`src/queue/replanWorker.ts:81`) and the end of the job leaves a flag nobody reads
  (`InboundTurn.LateRequestRun`).
- The in-flight count is exact (`InFlight.ExactIff`) unless the key is deleted or expires while a handler runs
  (`InFlight.DeletedUnderHandler`).
- A restored answer is valid (`RoundTrip.RestoredValidIff`) exactly when every field left out may be, and what the
  restorer does not descend into is valid as it is. These families fail: a required union of one nullable branch is
  compiled to an optional field and never restored (`RoundTrip.OwnNullNeeded`), a required nullable field whose enum
  lists no null is restored to a null its own node refuses (`RoundTrip.TakenNullNeeded`), and among several real
  branches nothing is restored at all (`RoundTrip.SingleBranchNeeded`); nor is it in a node that lists properties
  without naming its type, or names another one first (`RoundTrip.NamedTypeNeeded`).
- An original answer survives the whole trip (`ReducedAnswers.TripIff`) exactly when it has no undeclared field in an
  object the walk enters (`ReducedAnswers.UndeclaredRefused`), no field is missing that would be put in
  (`ReducedAnswers.NullPutIn`), no null is dropped that is not put back (`ReducedAnswers.NullNotPutBack`), and the
  compiled schema accepts as it is what is not descended into (`ReducedAnswers.NullItemRefused`).
- The change record (`SchemaChanges.UnchangedIff`): a null removed from an array item or from the root is recorded
  nowhere, so an empty record does not mean an unchanged schema (`SchemaChanges.UnrecordedNull`).
- The price of a summed usage (`Cost.PriceAddsUpIff`) is the sum of the turns' prices unless one turn's surplus hides
  another's deficit (`Cost.PricedBelow`).
- The reported attempts of a call (`Retry.AttemptsReportedIff`) leave out the primary's round trips when the backup
  answered, although `src/gemini/llmCall.ts:80` calls them the round trips the answer took
  (`Retry.AttemptsUnderReported`).
- The budget cache, which `loadCache` (`src/gemini/budget.ts:100-121`) stores anew after up to three waits. A call that
  cost something and finishes while a check waits spoils the cache exactly when the check has a figure in hand that the
  call counts in (`BudgetWaits.SpendInsideIff`); a save, exactly when the check has other ceilings in hand
  (`BudgetWaits.SaveInsideIff`); a row inserted after its note, exactly when a check in between loads a figure it counts
  in: the platform's when the cache is old, or the sum of the call's own instance, which a young cache loads too when it
  lacks it (`BudgetWaits.SplitSpendIff`, `BudgetWaits.SplitSpendLost`). Checks decide as the database would while
  nothing of the kind happens (`BudgetBounds.DecisionsFresh`), and otherwise the spend passes a ceiling by the calls in
  flight and by what slipped (`BudgetBounds.OvershootBounded`). What slips has no bound: with one call in flight at a
  time, any sum can be spent under a ceiling of one call's cost (`BudgetLeaks.MissedSpendRun`), and a save can be undone
  for a minute (`BudgetLeaks.OldCeilingsRun`).
- The cap bites within the minute, says `src/gemini/budget.ts:123`: a check finds every ceiling unreached by what was
  spent up to a minute before it began (`BudgetMinute.AtMostAMinuteBehind`) unless the cache is backdated. A check that
  began on a young cache and outlives it stores its old figures with the time of the reload that overtook it
  (`BudgetLeaks.BackdatedRun`); this cannot happen while checks that reload run alone (`BudgetMinute.NeverBackdated`,
  a sufficient condition).

## Model

| member | source | states |
|---|---|---|
| SchemaCompiler.ConvertNormal | src/gemini/anthropicSchema.ts:85-158 | After compiling, no union or type array anywhere holds a null or collapses further, no refused keyword is left, and every object is closed |
| SchemaCompiler.NormalFixed | src/gemini/anthropicSchema.ts:85-158 | A schema that is already in that form is sent exactly as declared |
| SchemaCompiler.ConvertIdempotent | src/gemini/anthropicSchema.ts:166-168 | Compiling twice is compiling once; a schema is unchanged if and only if it already was in normal form |
| SchemaCompiler.ConvertKeepsReal | src/gemini/anthropicSchema.ts:116-132 | Compiling never turns a real branch into the bare null schema, so collapsing a union cannot erase it |
| SchemaCompiler.KeptNames | src/gemini/anthropicSchema.ts:142-151 | What is left of `required` is exactly the listed names none of whose properties offers null: among its types or branches, or as the one branch of a union |
| SchemaCompiler.NullableIff | src/gemini/anthropicSchema.ts:113-138 | A node is told to be nullable if and only if it lists null among its types or its branches, or is a union of one branch that does |
| SchemaCompiler.ForcedIff | src/gemini/anthropicSchema.ts:152-156 | An object is closed if and only if its type is object and nothing else, or it declares properties |
| SchemaChanges.Pass | src/gemini/anthropicSchema.ts:85-158 | The pass over a node returns the compiled schema and its nullability, and adds to the collector exactly the entries of that node, path by path |
| SchemaChanges.PassUnion | src/gemini/anthropicSchema.ts:116-132 | Null branches go, a single real branch replaces the union and carries its own nullability out, and a collapsed object is recorded as forced closed |
| SchemaChanges.PassProps | src/gemini/anthropicSchema.ts:99-111 | Every property is compiled in order, and the names collected are exactly those of nullable properties |
| SchemaChanges.PassRequired | src/gemini/anthropicSchema.ts:142-151 | The filter keeps the non-nullable names in order and records a path for every dropped one |
| SchemaChanges.QuietIff | src/gemini/anthropicSchema.ts:85-158 | With no null left, the pass records nothing if and only if no refused keyword and no open object is left |
| SchemaChanges.UnchangedIff | src/gemini/anthropicSchema.ts:63-70 | The schema is sent as declared if and only if the fresh record is empty and there was no null-union anywhere |
| SchemaChanges.UnrecordedNull | src/gemini/anthropicSchema.ts:63-70 | The second half is needed: some schema is changed with nothing recorded |
| ChangeRecord.RecordMeans | src/gemini/anthropicSchema.ts:99-151 | A fresh record lists one removed null per property that offers null, at every depth, and every name dropped from `required` is one of them |
| ChangeRecord.EntriesMean | src/gemini/anthropicSchema.ts:85-158 | A fresh record has an entry of a kind at a path if and only if a node compiling reaches there calls for it: a property that offers null, a required name of one, a refused keyword, an object not closed or a union that gives way to one |
| NullRestorer.RestoreOmittedNulls | src/gemini/anthropicSchema.ts:178-213 | The walk returns the restoration of the value and appends exactly the paths of the fields it added |
| NullRestorer.WalkFields | src/gemini/anthropicSchema.ts:200-208 | The copied object ends as the restoration of every declared property, others untouched |
| NullRestorer.RestoredField | src/gemini/anthropicSchema.ts:200-208 | Each declared field of the result is the restoration of that field alone, whatever the others are |
| NullRestorer.RestoreIdempotent | src/gemini/anthropicSchema.ts:178-213 | Restoring an answer that was already restored changes nothing, for any schema and any answer |
| NullRestorer.FilledIsAdded | src/gemini/anthropicSchema.ts:170-213 | At any nesting the paths of the fields of the result are those of the answer and, once each, the paths reported as filled |
| NullRestorer.OmittedNullIff | src/gemini/anthropicSchema.ts:182-206 | In every object of a node that names the type object first and declares properties, a declared field left out comes back as null if and only if its own node lists null among its types or has a branch of type null |
| NullRestorer.WalkEnters | src/gemini/anthropicSchema.ts:188-212 | The walk enters these objects, the arrays of nodes that name the type array first, and the one branch of a union that is not null, and changes nothing else |
| AnswerExample.ContractRecorded | src/gemini/anthropicSchema.ts:22-53 | One contract: its account number's null is recorded as removed and dropped at `holdings[].account_number`, its keywords at `(root)` and `holdings`, and its open objects at `holdings[]` |
| AnswerExample.ContractRestored | src/gemini/anthropicSchema.ts:170-213 | A holding without its account number gets it back as null, reported at that path |
| RoundTrip.StableSound | src/gemini/anthropicSchema.ts:116-151 | Under a branch that holds no required nullable property, a value valid for the compiled schema is valid as it is |
| RoundTrip.RestoredValidIff | src/gemini/anthropicSchema.ts:85-213 | For every schema and every answer its compiled form accepts: the restored answer is valid if and only if every field left out, where the walk descends, is not required or put back as a null its property takes, and the rest is valid as it is |
| RoundTrip.PlainSound | src/gemini/anthropicSchema.ts:116-138 | Compiling never gains a plain value: what the compiled schema accepts of strings, numbers, booleans and null, the original accepts |
| RoundTrip.RestorableMends | src/gemini/anthropicSchema.ts:85-213 | A schema whose required nullable properties each offer and take their own null, with nothing compiled away where the walk stops, leaves nothing to mend in any answer |
| RoundTrip.RestoredValid | src/gemini/anthropicSchema.ts:85-213 | Under such a schema every answer the compiled form accepts is valid again once restored |
| RoundTrip.OmittedFieldRestoredIff | src/gemini/anthropicSchema.ts:116-196 | A required field left out comes back if and only if its own node offers null, and fits if and only if that node also takes it; otherwise the restored answer is refused |
| RoundTrip.OwnNullNeeded | src/gemini/anthropicSchema.ts:182-190 | A required union of one nullable type: the empty answer is accepted compiled and refused restored |
| RoundTrip.TakenNullNeeded | src/gemini/anthropicSchema.ts:192-196 | A required nullable type whose enum lists no null: the empty answer is accepted compiled, gets its null, and is refused |
| RoundTrip.SingleBranchNeeded | src/gemini/anthropicSchema.ts:188-190 | Two real branches, one an object with a required nullable field: the empty answer is accepted compiled and refused restored |
| RoundTrip.NamedTypeNeeded | src/gemini/anthropicSchema.ts:199-212 | A node with a required nullable field and no type name: the empty answer is accepted compiled and refused restored |
| ReducedAnswers.DropRestoredIff | src/gemini/anthropicSchema.ts:178-213 | For every schema and value: leaving out the null-valued nullable fields and restoring gives the value back if and only if each dropped null can be put back and no absent field would be put in |
| ReducedAnswers.DroppedValidIff | src/gemini/anthropicSchema.ts:85-158 | For every schema and valid answer: the compiled schema accepts the reduced answer if and only if no undeclared field is in an object the walk enters and the rest is accepted as it is |
| ReducedAnswers.TripIff | src/gemini/anthropicSchema.ts:85-213 | Both together, exactly when the whole trip gives a valid answer back unchanged |
| ReducedAnswers.UndeclaredRefused | src/gemini/anthropicSchema.ts:152-156 | A valid answer with an undeclared field whose reduction the closed compiled schema refuses |
| ReducedAnswers.NullPutIn | src/gemini/anthropicSchema.ts:202-206 | A valid answer that comes back with a null it never had |
| ReducedAnswers.NullNotPutBack | src/gemini/anthropicSchema.ts:182-190 | A valid answer whose null is dropped and not put back |
| ReducedAnswers.NullItemRefused | src/gemini/anthropicSchema.ts:112-115 | A valid array with a null item, which its compiled schema refuses |
| ReducedAnswers.DropRestored | src/gemini/anthropicSchema.ts:178-213 | Under a lossless schema every valid answer comes back from reducing and restoring |
| ReducedAnswers.DroppedValid | src/gemini/anthropicSchema.ts:85-158 | Under a lossless schema the reduced answer is valid for the compiled schema |
| ReducedAnswers.LosslessTrip | src/gemini/anthropicSchema.ts:85-213 | Under a lossless schema every valid answer without null items survives the trip unchanged |
| JobIds.RenderParses | src/orchestration/resumeDecision.ts:32-33 | Every id the code writes splits back into its client and its draft |
| JobIds.RenderInjective | src/orchestration/scheduleDraftEmail.ts:70 | Two written ids have the same text only if kind, client and draft agree |
| JobIds.RenderedText | src/orchestration/scheduleDraftEmail.ts:70 | The two forms of id as text |
| JobIds.ParsedText | src/orchestration/resumeDecision.ts:32-33 | Any text is read as the client between its first two colons and the draft up to the third; with fewer colons, or nothing there, it is refused |
| ClientSends.ClientSends.SupersedePendingReview | src/db/queries/emails.ts:201-207 | Every pending draft, whatever its status, becomes a superseded plain draft; no other changes |
| ClientSends.ClientSends.MarkHeld | src/db/queries/emails.ts:181-188 | Any row with status 'draft' is parked and set pending, whatever its review state |
| ClientSends.ClientSends.ApprovePending | src/db/queries/emails.ts:191-198 | Exactly a pending draft is approved and is a plain draft again |
| ClientSends.ClientSends.SetSent | src/db/queries/emails.ts:95-103 | The draft is stored as sent, its review state unchanged |
| ClientSends.ClientSends.MarkReviewPending | src/db/queries/emails.ts:171-178 | Exactly a plain draft that never entered review becomes pending |
| ClientSends.ClientSends.UpsertRow | src/db/queries/scheduledJobs.ts:14-30 | The row names the id and the time, and a recorded send failure is cleared |
| ClientSends.ClientSends.RemoveFutureEmail | src/orchestration/removeFutureEmail.ts:8-31 | Pending drafts are superseded, a cancelable job is removed, the row is deleted; an active job stays |
| ClientSends.ClientSends.PauseFutureEmail | src/orchestration/pauseFutureEmail.ts:13-29 | Only a cancelable job of the row is removed; the row and the drafts stay |
| ClientSends.ClientSends.ScheduleDraftMessage | src/orchestration/scheduleDraftEmail.ts:18-82 | A new draft, pending under review mode, its job unless held, and the row at the planned time |
| ClientSends.ClientSends.SetFutureEmail | src/orchestration/setFutureEmail.ts:14-61 | Nothing for a deleted, complete, admin-paused or paused client, a held first message under manual kickoff, a queued one otherwise; it throws exactly when the planner is asked and throws |
| ClientSends.ClientSends.EnqueuePreservedSendNow | src/orchestration/sendFutureEmailNow.ts:17-24 | The same id is queued at once for the client and draft it names and the row is stamped to now; an id that does not parse does nothing |
| ClientSends.ClientSends.ResumeFutureEmail | src/orchestration/resumeFutureEmail.ts:22-64 | Restores, sends at once, leaves or redrafts as the resume decision says |
| ClientSends.ClientSends.SendFutureEmailNow | src/orchestration/sendFutureEmailNow.ts:31-93 | The result and the three stores for every row, job and draft state |
| ClientSends.ClientSends.RetryFailedSend | src/orchestration/retryFailedSend.ts:13-46 | Only a recorded failure is retried; the job goes back to waiting or is added again, and the row is stamped and cleared |
| ClientSends.ClientSends.AdminApproveReviewMessage | src/api/reviewAdmin.ts:89-113 | Approves a pending draft of an open client, and queues a parked one under the approved id |
| ClientSends.ClientSends.ResyncScheduledJob | src/queue/resyncScheduledJobs.ts:18-57 | One row's body: it adds the missing job of a live, unpaused, unfailed row that is still the listed one, and says whether it did |
| ClientSends.ClientSends.OnScheduledSend | src/queue/sendEmailWorker.ts:26-115 | The gates, the review hold, the provider's four outcomes and the replan after them, and whether the job throws |
| SendLaws.AddMeans | src/orchestration/resumeFutureEmail.ts:42-58 | An add under a taken id changes no job, and is counted; any other add is the one job, delayed if it is ahead |
| SendLaws.PlanMeans | src/orchestration/setFutureEmail.ts:14-61 | A plan is stored if and only if the client is live, not done, not stopped by an admin, and not paused unless its agent starts by hand and nothing was ever sent or received; then a plain draft, its row at now plus the delay, and its job unless paused; otherwise nothing changes |
| SendLaws.PlanThrown | src/orchestration/setFutureEmail.ts:14-61 | The planner's error comes out if and only if those flags let it be asked |
| SendLaws.RemoveMeans | src/orchestration/removeFutureEmail.ts:8-31 | Pending drafts become superseded plain ones, the row goes, and its job if it is delayed, waiting or waiting for children; every other job stays |
| SendLaws.PauseMeans | src/orchestration/pauseFutureEmail.ts:13-29 | The row's job goes if it is in one of these states, and nothing else changes |
| SendLaws.ApproveMeans | src/api/reviewAdmin.ts:89-113 | An approval counts if and only if the client is live, not done, not paused, not stopped, and the draft waits; a parked draft is queued at once |
| SendLaws.ResyncMeans | src/queue/resyncScheduledJobs.ts:20-57 | A missing job is added if and only if its row did not fail and the client is live and not paused, due at the later of now and the row's time |
| SendLaws.RunMeans | src/queue/sendEmailWorker.ts:26-115 | By the flags themselves: nothing happens to a client that is deleted, done, paused, blocked or stopped, or to a draft that is not a plain one; under review mode an unapproved one is parked; the rest is sent, with the provider's four outcomes |
| SendLaws.FinishMeans | src/queue/sendEmailWorker.ts:26-115 | The end of the run: an active job is over, failed if the run threw, and no other job moves |
| SendRuns.InvStep | src/queue/sendEmailWorker.ts:26-115 | Every step keeps: each id in the queue, in a worker and in the row was written for a stored draft of this client, an approved id only for an approved draft, and approvals are counted once |
| SendRuns.NoSwallowedAdd | src/orchestration/scheduleDraftEmail.ts:77 | Over every run no queue add meets a taken id, and a draft is approved at most once |
| SinglePending.StepPends | src/orchestration/removeFutureEmail.ts:8-31 | From a state with one pending send, a step keeps it one if and only if it orphans nothing |
| SinglePending.OnePendingIff | src/api/reviewAdmin.ts:93-143 | Over every run at most one job is pending and the row names it, exactly when no step orphans one |
| DeliverySafety.DeliveryGated | src/queue/sendEmailWorker.ts:26-115 | A step changes the record of deliveries by exactly the draft of a run with a willing provider, whose client is live, not done, not paused, not blocked and not stopped by an admin, and which is stored as a plain draft, approved under review mode |
| DeliverySafety.DeliversIff | src/queue/sendEmailWorker.ts:26-115 | Over every run: a step delivers a draft if and only if all of that holds, and then once more |
| DeliverySafety.StepDelivers | src/queue/sendEmailWorker.ts:94-114 | A delivered draft stays stored as sent if and only if the step does not deliver it while it waits for review |
| DeliverySafety.SentStandsIff | src/db/queries/emails.ts:201-207 | The same over whole runs, draft by draft, lost workers, wipes and stale jobs included |
| DeliverySafety.OncePerDraft | src/queue/sendEmailWorker.ts:62-115 | A draft that no step delivers while it waits for review is delivered at most once, whatever happens to other drafts |
| DeliverySafety.DeliveredAgain | src/db/queries/emails.ts:201-207 | Whenever a waiting draft is delivered and the job is then recovered, the same draft goes out again |
| ReviewSafety.DeliveredApproved | src/queue/sendEmailWorker.ts:69-90 | With review mode on throughout, every delivered draft was approved exactly once and delivered exactly once |
| ReviewSafety.StepWaits | src/orchestration/scheduleDraftEmail.ts:49-68 | The draft that waits for review stays the one the row names if and only if the step does not stray |
| ReviewSafety.WaiterHasRowIff | src/api/reviewAdmin.ts:93-143 | Over every run at most one draft waits for review and the row names it, exactly when no step strays |
| ReviewSafety.StepStays | src/db/queries/emails.ts:181-188 | Superseded drafts stay out of review if and only if no stale job parks one |
| ReviewSafety.SupersededStaysIff | src/db/queries/emails.ts:181-207 | The same over whole runs |
| ReviewSafety.NeverSuperseded | src/queue/sendEmailWorker.ts:69-90 | With review mode on throughout and no such revival, no delivered draft was ever superseded |
| StaleJob.StaleJobRun | src/queue/sendEmailWorker.ts:69-90 | A run with review mode on, no crash and no wipe, in which two drafts wait, two sends are pending and a superseded draft is delivered |
| StaleJob.SentTwiceRun | src/queue/sendEmailWorker.ts:94-114 | A run that delivers one draft twice |
| StaleJob.PlannedTwiceRun | src/orchestration/scheduleDraftEmail.ts:70-81 | A run of two plans without a removal that leaves two sends pending |
| StaleJob.RecoveredRun | src/orchestration/removeFutureEmail.ts:17-29 | A run in which a crashed worker's job comes back beside the send that replaced it |
| PauseResume.PauseThenResume | src/orchestration/pauseFutureEmail.ts:13-29 | Pause, any wipes, resyncs, workers' runs, further pauses, refused approvals and waiting, resume: before the planned time the same job, draft and time are back, at or after it the same draft is queued at once, nothing is redrafted and other jobs are untouched by the resume |
| PauseResume.ResumeMeans | src/orchestration/resumeFutureEmail.ts:22-64 | From any state a parked or unfinished send keeps its draft, review and id and, unless parked, is in the queue afterwards, a lost job back at its planned time or at once; only a finished send, or none, is planned afresh |
| SendOutcomes.ReplanPlans | src/orchestration/scheduleDraftEmail.ts:49-81 | A replan queued in one lock leaves a planned send at now plus its delay, under its own draft's id, pending if reviewed; so the pause round trip applies to it |
| SendOutcomes.SendNowMeans | src/orchestration/sendFutureEmailNow.ts:31-93 | 'promoted' if and only if the send was still ahead, and then the same job for the same draft waits, stamped to now; the other answers leave jobs and drafts alone: 'send_failed' exactly with a failed row or job, 'awaiting_review' exactly with a draft in review, 'none_scheduled' exactly with no row or an over job whose draft is not parked |
| SendOutcomes.UnreadableRow | src/orchestration/sendFutureEmailNow.ts:17-24 | With an unreadable id and no job, send-now answers 'none_scheduled', a retry and the resync do nothing, and a resume plans afresh |
| SendOutcomes.FailedThenRetried | src/orchestration/retryFailedSend.ts:13-46 | After a provider error send-now and the resync leave the send alone, even when Redis lost the job; the retry makes the same job wait for the same draft, clears the mark, and the draft can be delivered |
| SendOutcomes.RetryMeans | src/orchestration/retryFailedSend.ts:13-46 | A retry succeeds if and only if a failure is recorded and the job or a readable id is left; then the row's job is there and not failed, the mark is gone, drafts and other jobs are untouched; otherwise nothing changes |
| SendOutcomes.ParkedThenApproved | src/api/reviewAdmin.ts:89-113 | A draft whose time comes unapproved is parked and cannot go out; its approval queues it at once under an unused id of its own, and then it can |
| SendOutcomes.ApprovedInTime | src/api/reviewAdmin.ts:89-113 | An approval before the planned time leaves job and row as they are, and the planned run can deliver the draft |
| BootResync.Resync.ResyncScheduledJobs | src/queue/resyncScheduledJobs.ts:15-60 | The loop leaves the queue of the row-by-row specification and counts exactly the jobs it added |
| BootResync.ResyncRefines | src/queue/resyncScheduledJobs.ts:15-60 | For any tables, listing and surviving queue: old jobs untouched, nothing but wanted sends added, every wanted send present, and a missing one due as its row says |
| BootResync.RestoredDue | src/queue/resyncScheduledJobs.ts:46-49 | A restored job is due at the later of now and the planned time and is delayed only if that is ahead |
| BootResync.ResyncAgain | src/queue/resyncScheduledJobs.ts:15-60 | A second resync at any later time adds nothing |
| BootResync.BodyIsStep | src/queue/resyncScheduledJobs.ts:20-57 | The loop's body and the resync step of the client runs are the same |
| BootResync.RowResynced | src/queue/resyncScheduledJobs.ts:20-57 | A listed row whose job is missing is queued if and only if it still stands, did not fail, and its client is live and not paused |
| InFlight.TurnStore.MarkInboundStarted | src/orchestration/inboundTurnCore.ts:38-42 | The counter goes up by one from what is there, and the last inbound is now |
| InFlight.TurnStore.MarkInboundFinished | src/orchestration/inboundTurnCore.ts:43-47 | The count read goes down by one but never below zero, and no key at or below zero is left |
| InFlight.KeyCounts | src/orchestration/inboundTurnCore.ts:38-55 | The key counts the starts less the finishes since it last went away, below zero too, and the count read is that or zero |
| InFlight.NeverOverCounts | src/orchestration/inboundTurnCore.ts:38-55 | For every interleaving, with decrement and delete apart and the key expiring at any moment, the count read is at most the handlers running |
| InFlight.ExactIff | src/orchestration/inboundTurn.ts:13-20 | The count is exact throughout a run if and only if no delete and no expiry lands while a handler runs |
| InFlight.ExactWhenAtomic | src/orchestration/inboundTurnCore.ts:43-47 | When nothing expires and a delete follows its decrement at once, the count is always exact |
| InFlight.DeletedUnderHandler | src/orchestration/inboundTurnCore.ts:43-47 | A run without any expiry that forgets a handler, started between another's decrement and delete |
| InboundTurn.ReplanTurn.RequestReplan | src/orchestration/inboundTurnCore.ts:112-137 | A running job gets the dirty flag; any other is removed and added again with its first start and a debounced delay |
| InboundTurn.ReplanTurn.OnReplanFires | src/queue/replanWorker.ts:35-70 | The job goes back for a recheck on 'wait', and otherwise clears the flag and lets the planner run |
| InboundTurn.ReplanTurn.OnReplanDone | src/queue/replanWorker.ts:80-88 | A dirty turn is run again after the quiet window with a fresh start; a clean one ends |
| InboundTurn.StepCovers | src/orchestration/inboundTurnCore.ts:117-137 | A step keeps every requested message read or covered by a coming run if and only if no request lands after takeDirty |
| InboundTurn.NoLostInboundIff | src/queue/replanWorker.ts:35-88 | The same over every run |
| InboundTurn.LateRequestRun | src/queue/replanWorker.ts:80-88 | A run whose last request is neither read nor covered by a coming run |
| InboundTurn.EndAtOnceCovers | src/queue/replanWorker.ts:80-88 | With takeDirty and the end of the job as one step there is no such window |
| InboundTurn.CoveredIsRead | src/queue/replanWorker.ts:35-88 | From any covered state the worker's own steps, at most five of them and no new inbound, reach a run that reads the message |
| InboundTurn.DecisionMeans | src/orchestration/inboundTurnRules.ts:18-40 | 'plan' if and only if nothing is in flight, no file is pending and the quiet window is full; 'force' if and only if not so and the maximum passed |
| InboundTurn.RequestDebounces | src/orchestration/inboundTurnCore.ts:112-137 | A request keeps the turn's first start and leaves the run due at the end of the window the last inbound opened, or a second from now if that has passed; a full window from now without an inbound; a running job is only marked |
| InboundTurn.RequestAgain | src/orchestration/inboundTurnCore.ts:106-137 | A second request with no inbound since does not postpone the run, but for the second it has to be ahead |
| InboundTurn.DoneMeans | src/queue/replanWorker.ts:80-88 | A run that finds the flag set runs again after a full window, as a turn that starts now; a clean one ends |
| InboundTurn.WaitRechecks | src/queue/replanWorker.ts:44-49 | A 'wait' happens only before the maximum wait and leaves the job delayed by two seconds with its turn start; any other decision clears the flag |
| InboundTurn.WaitingUpTo | src/queue/replanWorker.ts:35-49 | In any unrequested stretch of steps before the planner starts, every recheck moves the job on by two seconds and none past the limit |
| InboundTurn.BoundedWait | src/orchestration/inboundTurnRules.ts:25-40 | After the last request, with the worker at most a lag late, no state before the planner's start is later than the end of the window the last inbound opened (or a second from the request), or turn start + maximum wait + 2 s, plus the lag, and the rechecks are bounded in number |
| ToolTurns.RunOpenAiToolTurns | src/gemini/toolTransport.ts:148-182 | For every provider the loop ends at the first turn that is done, within the turn limit, and returns all output, all calls and the summed usage up to it |
| ToolTurns.TurnsBounded | src/gemini/toolTransport.ts:165-171 | One turn without a continuation, at most maxTurns with one |
| ToolTurns.OutcomeUnique | src/gemini/toolTransport.ts:148-182 | The provider's answers fix where the loop stops and what it returns |
| ToolTurns.StopsIff | src/gemini/toolTransport.ts:165-171 | On the items themselves: a turn is followed by another if and only if there is a rule with a turn left, the answer has an id and a function call, and none of its calls names the closing tool; so no turn before the last calls it |
| ToolTurns.CallsReturned | src/gemini/toolTransport.ts:77-95 | The calls of a turn stand together after those of the turns before, one for each function-call item of its answer, in order, with that item's name and its parsed arguments, stamped with the turn under a rule |
| ToolTurns.CallsComplete | src/gemini/toolTransport.ts:163-164 | The turns' calls, one after another, are all the calls returned |
| ToolTurns.OutputReturned | src/gemini/toolTransport.ts:162 | The output is that of every turn, one after another |
| ToolTurns.UsageReturned | src/gemini/toolTransport.ts:115-120 | The usage is, kind by kind, the sum of what the turns report |
| ToolTurns.FollowUpAnswers | src/gemini/toolTransport.ts:131-180 | Each follow-up names the previous response, re-sends the request's model, tools and settings, and answers exactly its call ids, in order, with "recorded" |
| ToolTurns.CallsInTurnOrder | src/gemini/toolTransport.ts:163-164 | The calls come back in turn order, each stamped with a turn that was made |
| ToolTurns.TurnsPriceAddsUp | src/gemini/openai.ts:142-158 | The price of the summed usage is the sum of the turns' prices when cached <= input and reasoning <= output in each turn |
| Cost.TokenPrices | src/gemini/cost.ts:15-25 | One more token costs its kind's rate; one more cached token trades the input rate for the cached one |
| Cost.TurnPrice | src/gemini/openai.ts:142-158 | A turn costs its uncached input, cached input, visible output and reasoning tokens, each at its own rate |
| Cost.ReasoningPrices | src/gemini/openai.ts:142-158 | A reasoning token is billed as thinking instead of output, and only once |
| Cost.ClampIff | src/gemini/cost.ts:15-25 | Clamping the sum at zero is summing the clamps exactly when all turns are on one side |
| Cost.PriceAddsUpIff | src/gemini/cost.ts:15-25 | With positive rates, pricing the sum equals summing the prices if and only if no turn's surplus hides another's deficit, and it never gives more |
| Cost.PricedBelow | src/gemini/cost.ts:15-25 | Two turns whose sum is priced below the sum of their prices, at any positive rates |
| Cost.PriceAddsUp | src/gemini/openai.ts:142-158 | Whatever the rates, they are equal when the API keeps its counting promise |
| Retry.LlmEngine.GenerateWithRetryDetailed | src/gemini/generate.ts:206-288 | The budget check, the round trips, the log row and the pauses of one call, and its result, for every provider |
| Retry.LlmEngine.RunWithBackup | src/gemini/llmCall.ts:142-173 | The primary's call, the traced handover and the backup's call |
| Retry.AttemptsIff | src/gemini/generate.ts:242-287 | The number of round trips is the one place where the loop may end: all before it failed with status 429, 499, 500, 503 or 504, a timeout or a lost connection, and it did not or is the limit |
| Retry.PausesBounded | src/gemini/generate.ts:278-285 | The first n pauses take between 1000 and 2000 times 2^n - 1 milliseconds |
| Retry.BackoffMeans | src/gemini/generate.ts:278 | The pause after attempt k is 2^k times one to two seconds, as the random number says, rounded |
| Retry.CallBounds | src/gemini/generate.ts:206-288 | A refused call - one logged to the database over budget - sends, logs and sleeps nothing; any other makes exactly the round trips of that stopping place to its model, writes exactly one row that counts them, and sleeps at most 2000 * (2^(max-1) - 1) ms |
| Retry.ReasonOfFailure | src/gemini/generate.ts:168-198 | A provider failure is traced by its status exactly when it has one, as a timeout or a network failure when it never answered, and as 'error' only for an Anthropic error without a status |
| Retry.ExhaustedIsDown | src/gemini/generate.ts:188-198 | A primary that used up its two attempts is always handed over |
| Retry.BackupBounds | src/gemini/llmCall.ts:130-173 | With a backup at most 2 + 5 round trips, the primary's first; the backup is asked exactly when the primary failed with a provider's error and the budget still allows it |
| Retry.BackupTrips | src/gemini/llmCall.ts:169-171 | The backup's round trips end at a stopping place of their own, among five |
| Retry.NoBackupRun | src/gemini/llmCall.ts:148-151 | Without a backup, or with an empty name, there is the one call of up to five attempts |
| Retry.AnswererNamed | src/gemini/llmCall.ts:142-173 | The model named is the one that gave the answer, on the last round trip made |
| Retry.HandoverIff | src/gemini/llmCall.ts:155-171 | The budget stop and foreign errors come out as they are; a provider failure is traced once per client and both calls keep their rows |
| Retry.AttemptsReportedIff | src/gemini/llmCall.ts:170-171 | The reported attempts are all round trips if and only if the primary was not down |
| Retry.AttemptsUnderReported | src/gemini/llmCall.ts:170-171 | A call of three round trips that reports one attempt |
| Budget.BudgetGuard.SpentSince | src/db/queries/llmCalls.ts:70-78 | The sum of the priced rows of an instance, or of all |
| Budget.BudgetGuard.CheckBegins | src/gemini/budget.ts:100-111 | A young cache that knows the instance decides at once; one that lacks it keeps its figures in hand and asks for the sum if instances have a ceiling; an old one asks for the settings |
| Budget.BudgetGuard.CheckAnswered | src/gemini/budget.ts:105-111 | The query a check waits for is answered with what the database holds at that moment |
| Budget.BudgetGuard.CheckResumes | src/gemini/budget.ts:105-121 | From an answer to the next wait or the verdict: which sum is read or carried over, and whose Map is used, goes by the cache as it is by now and the clock the check began with |
| Budget.BudgetGuard.StoreCache | src/gemini/budget.ts:113-120 | A new cache object with the figures in hand replaces whatever is there, keeps the time of a young one, and gives the verdict |
| Budget.BudgetGuard.DecideNow | src/gemini/budget.ts:144-160 | The platform's ceiling before the instance's, and an alert for every refusal |
| Budget.BudgetGuard.CheckFails | src/gemini/budget.ts:138-143 | A query that fails lets the call go and leaves the cache as it was |
| Budget.BudgetGuard.AssertWithinBudget | src/gemini/budget.ts:136-160 | A check nothing falls into ends with the verdict and the books of its steps taken one after another |
| Budget.BudgetGuard.NoteSpend | src/gemini/budget.ts:124-130 | The cost lands on the platform counter and on a known instance's, and nowhere else |
| Budget.BudgetGuard.CallEnds | src/gemini/generate.ts:142-143 | A finished call's cost is noted before its row is written |
| Budget.BudgetGuard.RowInserted | src/gemini/generate.ts:143 | The row arrives, with the time it is written |
| Budget.BudgetGuard.SaveBudgetSettings | src/gemini/budget.ts:79-83 | Both ceilings replaced and the cache dropped |
| BudgetAlerts.AlertsAreRefusals | src/gemini/budget.ts:150-159 | In every run the alerts are exactly the refusals given so far, in order, each with its scope and figures |
| BudgetAlerts.VerdictMeans | src/gemini/budget.ts:144-149 | A check refuses for the platform whenever the platform's ceiling is reached by the cache it leaves, for the instance if only that one is, and otherwise lets the call go |
| BudgetAlerts.FailureLetsGo | src/gemini/budget.ts:138-143 | A check whose query fails lets the call go and changes nothing but itself |
| BudgetRuns.EndCache | src/gemini/budget.ts:124-130 | However far a figure of the cache or its Map is from what was spent, an own call's note leaves it no further |
| BudgetRuns.FiguresAccounted | src/gemini/budget.ts:91-130 | In every run, with checks and inserts overlapping, no figure in a usable cache or in a check's hands holds what was not spent, or lacks more than what slipped since the last moment without an open check and with an old cache |
| BudgetBounds.SettingsSaved | src/gemini/budget.ts:79-83 | At every moment of a run the settings are those last saved, and a save leaves nothing cached |
| BudgetBounds.DecisionsFresh | src/gemini/budget.ts:91-160 | A check of any run decides as the database would, figures included, if since such a moment nothing slipped from the figures it goes by and no save overtook a check with other ceilings in hand |
| BudgetBounds.OvershootBounded | src/gemini/budget.ts:132-160 | The spend of the platform, and of each instance, written or not, stays below its highest ceiling plus n calls at the worst cost, with at most n covered calls in flight, plus the most that slipped between two such moments |
| BudgetBounds.OvershootByFlightOnly | src/gemini/budget.ts:132-160 | Without the last summand in a run in which nothing slips |
| BudgetMinute.AtMostAMinuteBehind | src/gemini/budget.ts:23-123 | With other processes spending, checks overlapping and calls slipping: a pass finds every applying ceiling unreached by all spent before the date of the cached figures, at most a minute before the check began unless the cache is backdated |
| BudgetMinute.RefusalsRight | src/gemini/budget.ts:144-160 | A refusal names the saved ceiling, and what was spent has reached it, by at least the figure reported |
| BudgetMinute.NeverBackdated | src/gemini/budget.ts:113-114 | If a check that finds the cache old begins, and the settings are saved, only while no check is open, no cache is dated later than its figures |
| BudgetWaits.CheckAgrees | src/gemini/budget.ts:100-160 | From exact books a check nothing falls into gives the database's verdict, scope and figures included, and leaves the cache right |
| BudgetWaits.WholeCheckLoads | src/gemini/budget.ts:100-121 | What such a check leaves in the cache: kept while young, extended by a missing instance, reloaded when old |
| BudgetWaits.ResumeAsks | src/gemini/budget.ts:105-111 | The platform's sum is asked for if and only if there is a ceiling and the cache is not young by then; the instance's, next, if and only if there is a ceiling and the Map to be used lacks it |
| BudgetWaits.SpendInsideIff | src/gemini/budget.ts:107-130 | After an own call that finishes at any wait of a check, the cache the check stores is right if and only if the call was free or counts in no figure the check has in hand |
| BudgetWaits.SaveInsideIff | src/gemini/budget.ts:79-121 | After a save at any wait of a check, the check stores the saved ceilings if and only if it had not read the settings yet or has the same in hand |
| BudgetWaits.SplitSpendIff | src/gemini/generate.ts:142-143 | A check for any instance between a note and its insert leaves every cached figure right if and only if it loads none the row counts in, or the call was free |
| BudgetWaits.SplitSpendLost | src/gemini/budget.ts:100-121 | An old cache that loses the platform's figure, and a young one that loses the figure of the call's own instance |
| BudgetLeaks.MissedSpendRun | src/gemini/budget.ts:107-120 | For every k a run within a ceiling of 1, one call of cost 1 in flight at a time, all at one instant, in which every check lets its call go and k is spent |
| BudgetLeaks.OldCeilingsRun | src/gemini/budget.ts:79-120 | A save that overtakes a check: the old ceilings are back, and 59,999 ms later a call is let go that the saved ceiling forbids |
| BudgetLeaks.BackdatedRun | src/gemini/budget.ts:100-121 | A check that outlives its cache: an instance's call is let go although its ceiling was passed two minutes less a millisecond ago |
| WorkerPool.EvalsRun.SpentSoFar | evals/run.ts:229 | The sum of the rows' costs |
| WorkerPool.EvalsRun.TakeNext | evals/run.ts:285-291 | A worker's turn: the first queued case is skipped with a row when the model is gone or the cap reached, and held otherwise |
| WorkerPool.EvalsRun.FinishCase | evals/run.ts:292-296 | The case's row is pushed, the worker is free, and an unknown-model error marks the group |
| WorkerPool.TakeMeans | evals/run.ts:280-291 | The first queued case is called only if the model is there and the spend below the cap; otherwise it gets a failed row with an error, no usage and no cost |
| WorkerPool.FinishMeans | evals/run.ts:292-296 | The row is kept, the worker is free, and an unknown model is unknown from then on |
| WorkerPool.UnavailableIff | evals/run.ts:280-294 | In a group the model counts as gone if and only if a call of the group found it so |
| WorkerPool.StepConserves | evals/run.ts:285-301 | No step loses or doubles a case between the queue, the workers and the rows |
| WorkerPool.OneRowPerCase | evals/run.ts:278-301 | For every interleaving of the workers, each queued case ends with exactly one row |
| WorkerPool.MovesFinish | evals/run.ts:285-301 | Every move leaves less to do, so a group ends |
| WorkerPool.NeverStuck | evals/run.ts:285-301 | As long as a group is not over some worker can move |
| WorkerPool.StepCapped | evals/run.ts:288-292 | A step keeps spend plus calls under way, at their worst, below the cap plus one call per worker |
| WorkerPool.SpendBounded | evals/run.ts:229-301 | Over all groups and interleavings the spend stays below the cap plus k worst calls |
| WorkerPool.StopsForGood | evals/run.ts:288-293 | Once the model is unknown no call starts in the group; once the cap is reached none starts in any group |
| Summaries.AddRow | evals/run.ts:187-196 | One row goes into its bucket, field by field |
| Summaries.Accumulate | evals/run.ts:178-197 | One bucket for each stage and model that has a row, holding exactly its rows' counts and sums |
| Summaries.BucketMeans | evals/run.ts:187-196 | Every figure of a bucket is the count or the sum, over its rows, of what it is named after: passes, errors, each kind of token, unpriced rows, cost and latency |
| Summaries.BucketsAddUp | evals/run.ts:178-197 | The buckets partition the rows: together they are the summary of all rows |
| Summaries.TotalsAddUp | evals/run.ts:178-219 | The bucket totals add up to the number of rows, their costs to the run's spend |
| Summaries.BucketConsistent | evals/run.ts:187-196 | In a bucket, passes and unpriced rows are among its rows, and rows with and without an error make up all |
| Summaries.CostShownIff | evals/run.ts:214 | A bucket shows a cost if and only if one of its rows has one |

## Left out

Stated weaker, or under a condition:

- RoundTrip.RestoredValid: its condition on the schema alone is sufficient; the exact condition is one on the answer (RoundTrip.RestoredValidIff).
- ReducedAnswers.LosslessTrip: likewise sufficient, and it asks objects to be closed, because compiling closes an open object; the exact condition is that of ReducedAnswers.TripIff.
- DeliverySafety.OncePerDraft: the condition is exact for "stays stored as sent" (DeliverySafety.SentStandsIff) and sufficient for "delivered once"; a waiting draft delivered while its job is never run again goes out once all the same.
- SendRuns.NoSwallowedAdd: a Redis wipe is a step of its own, so one between a job lookup and the add that follows it is not covered.
- InboundTurn.NoLostInboundIff: requestReplan is one step, and the kill switch, planner failures, key expiry and the recovery sweep are not modelled.
- InboundTurn.BoundedWait: about the wait after the last request; new inbounds that keep coming, each with its request, push the job out without a cap.
- InFlight.TurnStore.MarkInboundFinished: one method for decrement and delete; the runs of InFlight take them as two steps.
- BudgetBounds.DecisionsFresh: one day, and sufficient for a run; the conditions are exact for one check (BudgetWaits.SpendInsideIff, BudgetWaits.SaveInsideIff, BudgetWaits.SplitSpendIff). An own row that is never inserted is not covered.
- BudgetBounds.OvershootBounded: one process whose database answers; an unreachable database lets calls through uncounted, and other processes' calls are not held back by this one's cache.
- BudgetMinute.AtMostAMinuteBehind: no save may overtake a check, because then the ceilings are not the saved ones (BudgetLeaks.OldCeilingsRun); `asOf` and `made`, the dates of the figures, are the model's own notes.
- BudgetMinute.NeverBackdated: sufficient only; checks may overlap a reload without harm.
- BudgetWaits.SpendInsideIff: about a check that is the only one open; runs with several are those of BudgetRuns.FiguresAccounted.
- Budget.BudgetGuard.CheckAnswered: the two settings are read by one query.
- Budget.BudgetGuard.SaveBudgetSettings: its two writes and the dropped cache are one step.
- Budget.BudgetGuard.StoreCache: the verdict is taken as the cache is stored; the microtask between the two is not modelled.
- WorkerPool.EvalsRun.TakeNext: a skipped row's error text is a placeholder.
- Retry.LlmEngine.GenerateWithRetryDetailed: a row is recorded, whether the insert behind it succeeds or not; a failed insert is only logged by the source.

Not modelled:

- Union nodes with constraint keywords beside `anyOf`, boolean schemas, `additionalProperties` given as a schema, and enums of objects or arrays.
- The order of object keys; values and schemas are compared as JSON does.
- The call without a collector: the output of the pass does not depend on it.
- The drafting stamps of setFutureEmail and the worker, the first-contact hook, and why an adapter did not send.
- A flag that flips in the middle of an operation; flags are read once per step.
- A worker that picks a job between its state lookup and `job.remove()` (`src/orchestration/removeFutureEmail.ts:18-21`, `src/orchestration/pauseFutureEmail.ts:19-21`), since pick-up needs no client lock: the remove then throws, with the drafts already superseded and the row kept. The model removes in one step.
- Job ids without a client segment: `AwaitsReview` and `DraftHeld` parse the whole id, while `src/orchestration/sendFutureEmailNow.ts:40-41` reads its third segment alone; the two differ only for ids the code never writes.
- A process that dies between two writes of one operation (the comment at `src/orchestration/removeFutureEmail.ts:11-12` names one): a worker is lost before it has the lock, or after its writes and before BullMQ records the end.
- Regenerating a message (`src/api/reviewAdmin.ts:120-143`) as one operation: it is a removal and a plan of its own in the runs.
- reviewWaitState, enrollsPaused and kickoffStartable: display and enrolment rules read off in one line.
- The start of day in a time zone, the change of day under a live cache, and floating-point rounding of money.
- Latency percentiles and the rounding of the shown cost in the summary.
- runCase's stage building, parsing and judging: their result is the row.
- The Gemini and Anthropic tool translators and the parsing of JSON text, which is injected.
- Routes, mail, WhatsApp, storage and prompts: only their outcome matters here.
