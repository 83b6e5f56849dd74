# Verified model of the assessment platform's protocols

The platform sends coding assessments to candidates, has an external agent grade them, and
reports to the interviewer. Its server code is a set of small concurrent protocols over
database rows, kept correct by conditional UPDATEs and unique keys rather than by locks. This
project models those protocols and proves what they keep over every run.

How to read it:

- A protocol is a `State`, an `Event` for every atomic step of the database (or of browser
  storage), and a total `Apply`; an event that is not enabled changes nothing. `Run` folds any
  sequence of events, so a lemma about `Run` holds for every interleaving of any number of
  workers.
- Code that updates rows in place appears again as a class whose methods are proved equal to
  the functions that specify a step, and lemmas tie the undisturbed method to the interleaved
  steps.
- Clocks, minted values, the agent, the network and rival requests are parameters or events.

| file | protocol |
|---|---|
| `Grading.dfy`, `GradingRuns.dfy`, `GradingPasses.dfy`, `GradingTable.dfy` | submit, reaper, manual retry and agent callbacks over the `(status, attempts)` token |
| `AgentClient.dfy` | transport retries of one trigger, and how long one can stay on the wire |
| `Notify.dfy` | telling the interviewer once that a sitting is over |
| `Billing.dfy`, `SittingStart.dfy` | monthly allowances, carried overruns, and billing a sitting once |
| `Privacy.dfy`, `Retention.dfy`, `RecipientLists.dfy`, `Lifecycle.dfy` | erasure, the retention purge, and a candidate's access over time |
| `OrgPurge.dfy` | deleting an organisation or an account under foreign keys |
| `RateLimit.dfy`, `DbRateLimit.dfy` | the in-memory sliding window and the shared fixed window |
| `Variants.dfy` | handing out question variants |
| `SittingLock.dfy` | one sitting, one browser tab |

Places where the code does less than its comments say. Each is kept as the code has it, with a
failing run and the exact condition under which the promise holds:

- *Grading, two ways out of done.* A trigger is documented as never a regression of a graded row
  (`assessment_platform/api.py:5139-5141`) and a worker error as never overwriting a grade
  (`assessment_platform/api.py:5814-5818`). The manual retry commits between its status check
  and the read that forms its token, so a verdict landing there is taken from done back to
  pending: `RetryRaceRegradesADoneRow`. And a callback decides on the row it read and writes
  later without a condition, so a worker error that read "running" re-queues a row graded since:
  `StaleRequeueRegradesADoneRow`; with the attempts used up the same write turns it into an error.
  `WaysOutOfDone` is the complete list, and `DoneNeverRegresses` the promise for every run in which
  neither race happens.
- *Notification, a shared question.* Graded submissions are counted against slots, and a
  submission is unique per question. A fixed slot whose question is also a variant of another
  slot's set passes `_membership_rows` (`assessment_platform/api.py:3103-3126`); when both slots
  resolve to it the sitting is never reported: `SharedQuestionRun`. `CountMeansComplete` is the
  equivalence.
- *Notification, a submission taken back.* A retry clears the stamp in one commit and claims the
  row in a later one. If another callback's swap is outstanding at the claim, or was done since
  the stamp was cleared, a stale notice goes out or stands, and the new grade is never sent:
  `StaleNoticeRun`, `StampSetBeforeTheClaimRun`. `WithdrawalIsSafeExactlyWhenClear` gives the
  exact condition, at the claim and for a stale worker error alike.
- *Billing a sitting once.* The give-back of a lost insert reads the counter and writes back an
  absolute figure, so a claim in between is lost: `GiveBackErasesAClaim`.
  `WriteBackConservesExactly` gives the exact condition.
- *Metering without enforcing* reads the counter and adds to it in two statements:
  `RacingClaimsLoseAnOverrun`. `AddKeepsAccountExactlyWhenFair` gives the exact condition, and a
  release does not undo a recorded overrun: `ReleaseUndoesClaimExactlyWhen`.
- *The turn of the month.* An add picks its month before it writes; one that lands after the new
  month was settled leaves a debt nobody carries: `LateAddLeavesADebtBehind`.
  `SettledExactlyUntilALateAdd` gives the exact condition.
- *Erasure and retention, a request in between.* A candidate request passes its gates in one
  transaction and inserts in a later one. A purge or an erasure that commits in between leaves a
  live sitting whose candidate is turned away, or brings an erased address back:
  `RetentionRaceLocksOut`, `ErasureRaceRecreates`. `LockedOutExactlyWhenCaught` and
  `ErasedStaysErased` give the exact conditions.
- *Erasures side by side.* An erasure writes an invite's whole recipient list as computed from
  the list it read, so of two overlapping erasures the later can list the other's address again:
  `OverlappingErasuresRelist`. `HonouredExactlyUntilARelisting` gives the exact condition.
- *The browser lock's re-read* is documented as the arbitration
  (`web/src/sittingLock.ts:106-108`). It is not: `TwoTabsCanBothWin`, `NothingCountsAsWon`; and a
  release can remove a successor's item: `ReleaseCanHitTheSuccessor`. `NamedExactlyUntilClash`
  names the three steps that lose exclusivity, and `ClashEndsExclusivity` shows that each does.

## Model

| member | source | states |
|---|---|---|
| Grading.StepKeepsInv | assessment_platform/api.py:5069-5100 | Every step by any actor keeps: each claimed attempt number belongs to one task and is at most the row's `attempts`; a task on the wire holds a number it won; `attempts` stays within the budget plus won retries; a listed row that ended did so after it was listed, so its age protects it. |
| GradingRuns.RowStep | assessment_platform/api.py:5069-5311 | The complete list of writes to a submission row: a winning claim, a winning give-up, a winning answer, and a landing callback, which writes the columns that differ from the row it had read; nothing else moves it. |
| GradingRuns.AttemptsNeverDecrease | assessment_platform/api.py:5149-5163 | Over any stretch of any run no row is lost and `attempts` never decreases, which is what makes the pair a version token. |
| GradingRuns.EachAttemptOnWireOnce | assessment_platform/api.py:5149-5163 | For any number of workers: each attempt number is posted by at most one of them, only after it was stored, and `attempts` never exceeds MAX_TRIGGER_ATTEMPTS, or one where that is less, plus the manual retries that won on the row, counted along the run. |
| GradingRuns.WireIsWhatWasPosted | assessment_platform/api.py:5165-5167 | The record the fence speaks of grows exactly by what is posted: a claimed attempt, by the task that claimed it. |
| GradingRuns.SentJobsStayMatched | assessment_platform/api.py:5217-5224 | With an agent that echoes the id, a job once sent is matched in every later state by its own submission and by no other. |
| GradingRuns.HeardOnItsJobOnly | assessment_platform/api.py:5807-5813 | A callback whose job the row does not carry changes nothing. |
| GradingRuns.RecordingWritesWhatDiffers | assessment_platform/api.py:5844-5882 | Column by column, what a recorded callback writes on whatever the row is by then: nothing when another callback stored the first result meanwhile, otherwise the columns that differ from those it had read, and no attempt, job or reason. |
| GradingRuns.WaysOutOfDone | assessment_platform/api.py:5819-5845 | In every state satisfying the invariants: a graded row becomes an error exactly when an error verdict, or a worker error whose reader saw attempts used up, lands on it; it becomes pending exactly when a retry that re-read it graded claims it or a re-queue decided on an earlier status lands on it; no step takes it to running. |
| GradingRuns.LandingsOutOfDone | assessment_platform/api.py:5813-5845 | In every reachable state, a landing that takes a row out of done carries an error verdict or was decided by a callback that read the row before it was graded. |
| GradingRuns.DoneNeverRegresses | assessment_platform/api.py:5139-5141 | In every run in which no retry re-reads a graded row and no re-queue lands on one, no step takes done back to pending or running. |
| GradingRuns.ReloadOfDoneRegresses | assessment_platform/api.py:5391-5409 | The first exception is needed: a retry whose re-read finds done can claim it into pending at once. |
| GradingRuns.RequeueOnDoneRegresses | assessment_platform/api.py:5832-5835 | The second is needed: a re-queue that lands on done leaves it pending. |
| GradingRuns.StaleRequeueRegradesADoneRow | assessment_platform/api.py:5807-5835 | A concrete run without any retry: a worker error reads running, a verdict lands, and the worker error's write puts the graded row back to pending. |
| GradingRuns.AtomicRetrySeesError | assessment_platform/api.py:5390-5409 | A retry with nothing between its check and its read re-reads the error it checked, so it meets that condition. |
| GradingRuns.RetryRaceRegradesADoneRow | assessment_platform/api.py:5391-5409 | A concrete run in which a verdict lands between the retry's check and its read, and the graded row goes back to pending. |
| GradingRuns.ReaperTerminates | assessment_platform/api.py:5242-5311 | In any interleaving: once swaps of reaper passes have won on a row more often than it has attempts left, the row was terminal on the way, whatever the agent answered and however many worker errors re-queued it. |
| GradingPasses.UninterruptedReaperTerminates | assessment_platform/api.py:5262-5310 | With each pass's visit and swap uninterrupted and anything at all between passes, a row is terminal after at most its remaining attempts plus one passes that find it past grace. |
| GradingPasses.SequentialReaperTerminates | assessment_platform/api.py:5242-5311 | One reaper, with callbacks and late accepts free to beat its passes and no manual retry: from any reachable state the row is terminal before more than 3·(budget − attempts) + 2 passes over it have ended, won or lost. |
| GradingPasses.PassIsPaidFor | assessment_platform/api.py:5819-5845 | The potential behind it: every ended pass, won or lost, uses up a change of the row's token, of which an attempt has at most three (its claim, its accept, one re-queue). |
| GradingPasses.RunKeepsOffWire | assessment_platform/api.py:5217-5224 | In every reachable state a running row's latest trigger is off the wire, so a re-queued attempt can never be accepted again. |
| GradingPasses.PassLostToARequeue | assessment_platform/api.py:5832-5835 | A pass that loses although nobody acted: the row is re-queued between its visit and its claim. |
| GradingPasses.ReaperWaitsItsDelay | assessment_platform/api.py:5263-5269 | In every interleaving no reaper pass claims or gives up a pending row within TRIGGER_RETRY_AFTER_S of the claim, or a running one within REAP_RUNNING_AFTER_S of the acceptance, of the attempt the row is in. |
| GradingPasses.NoDelayNoReaper | assessment_platform/api.py:5268 | A delay of zero or less switches the reaper off for rows in that status, in every run. |
| GradingPasses.PassEndsExactlyAtItsSwap | assessment_platform/api.py:5277-5301 | A pass under way is over after a step if and only if the step was its own swap, won or lost. |
| GradingRuns.OpenRowSpendsAttempts | assessment_platform/api.py:5832-5845 | The measure behind it: while a row stays open, passes that acted plus attempts remaining never exceed the attempts remaining at the start; re-queueing gives none back. |
| GradingRuns.UncontestedPassActs | assessment_platform/api.py:5262-5310 | A pass that finds the row past grace and is not raced always acts: it spends one attempt or ends the row. |
| GradingRuns.NoClaimWhileOnWire | assessment_platform/config.py:300-306 | If a trigger takes at most the pending grace, in every run without manual retry a winning claim finds no earlier trigger of that row on the wire. |
| GradingTable.SubmissionTable.Cas | assessment_platform/api.py:5069-5100 | Wins exactly when the row carries the expected status and attempts; then writes that one row, otherwise nothing. |
| GradingTable.SubmissionTable.TriggerAgent | assessment_platform/api.py:5125-5239 | Undisturbed, all columns of the row: one attempt more, then running under the job the agent answered with, an error with the refusal as reason, or pending under its own id when the agent never answers; no other row changes. |
| GradingTable.SubmissionTable.ReapTick | assessment_platform/api.py:5242-5311 | In whatever order it visits them, a pass acts on exactly the pending rows untouched for longer than TRIGGER_RETRY_AFTER_S and the running ones untouched for longer than REAP_RUNNING_AFTER_S, a delay of zero or less meaning never; each spends an attempt while one is left and its question exists, and otherwise ends as an error; no other row changes. |
| GradingTable.SubmissionTable.Callback | assessment_platform/api.py:5779-5899 | Ignored exactly when no row carries the job. Without a verdict: a graded row stays as it is, an open one goes back to pending with its stored verdict if and only if attempts remain, and otherwise the row is an error with verdict ERROR. With one: an error if and only if the verdict is ERROR or empty or an error flag is set, done otherwise, the verdict stored as sent. Attempts, job, reason and every other row stay; the cost follows a recorded payload, and the age moves exactly with status or cost. |
| GradingTable.CallbackIsHearThenLand | assessment_platform/api.py:5804-5899 | With nothing in between, the protocol's read, look-up and write of a callback leave the row the method leaves. |
| GradingTable.TickComputesReapedTable | assessment_platform/api.py:5254-5310 | The protocol's own events, run for all selected rows one after the other in any order, leave exactly the table the sequential tick computes, each row judged by the moment of selection. |
| AgentClient.PostWithRetry | assessment_platform/agent_client.py:121-146 | Posts until an answer, a failure no retry can fix, or the last attempt, and stops at the first of these; between 1 and max(1, attempts) posts; the time is that of those posts and the linear sleeps between them. |
| AgentClient.RefusalEndsTheTrigger | assessment_platform/agent_client.py:274-306 | A 400, the agent refusing the job as sent, is never retried: it can only be the last post of a trigger. |
| AgentClient.RetriedExactlyForTheseFailures | assessment_platform/agent_client.py:274-306 | Everything a trigger was retried for is a connection failure, a time-out or one of five statuses; it stops before its last attempt only for an answer, another status or another failure. |
| AgentClient.TriggerIsBounded | assessment_platform/agent_client.py:121-146 | Whatever the network does, a trigger whose posts take at most P is over within A·P + B·A(A−1)/2. |
| AgentClient.DefaultGraceOutlastsTheWire | assessment_platform/config.py:300-306 | With the shipped defaults that bound is the 93 seconds the configuration comment names, and in every such run no claim doubles a trigger still on the wire. |
| Notify.CountMeansComplete | assessment_platform/notify.py:195-198 | The count reaches the slot count if and only if the slots resolve to distinct questions and each has a terminal submission (pigeonhole over the unique key). |
| Notify.OneSubmissionPerQuestion | assessment_platform/models.py:696-703 | Under the unique key, distinct submissions of one sitting answer distinct questions. |
| Notify.StatusMoves | assessment_platform/api.py:5149-5235 | Column by column: a claim re-opens an ungraded submission and counts one up, an acceptance and a re-queue move the status alone, and a final result or a repeated one leaves its callback to count the sitting. |
| Notify.StoredOncePerQuestion | assessment_platform/api.py:5390-5402 | A submission is stored for a started sitting, for a question of its plan, and the first per question only; a retry goes ahead on a failed submission only. |
| Notify.ReclaimReopens | assessment_platform/api.py:5403-5409 | A retry re-opens the row only as it re-read it, one claim up, and is over either way. |
| Notify.NotifiedAtMostOncePerOpening | assessment_platform/notify.py:270-290 | In every interleaving of commits, counts, swaps and the steps of retries a sitting is notified at most once plus once per cleared stamp, and every notice carries one submission per slot. |
| Notify.UntangledNoticeIsTrue | assessment_platform/notify.py:195-211 | In every run that takes graded submissions back only while the stamp is clear and no swap is outstanding, all slots are graded at the very step that notifies. |
| Notify.UntangledSittingIsTold | assessment_platform/api.py:5109-5122 | In such runs, once every slot is terminal and no worker is mid-step, a notice counted since the sitting's last withdrawal has been sent. |
| Notify.WithdrawalUnderAStampMutes | assessment_platform/api.py:5403-5409 | A submission taken back while the stamp is set: the stamp says told although nothing was sent since. |
| Notify.WithdrawalBeforeASwapMutes | assessment_platform/notify.py:195-211 | Taken back with a swap outstanding: that swap notifies while the slot is open, and the sitting is muted from then on. |
| Notify.MutedIsForGood | assessment_platform/notify.py:279-289 | A muted sitting stays muted in every continuation in which no retry clears the stamp again. |
| Notify.WithdrawalIsSafeExactlyWhenClear | assessment_platform/notify.py:216-239 | When a retry's claim or a stale worker error takes a graded submission back, its sitting is never muted in any continuation that reopens and takes back nothing more if and only if, at that very step, the stamp is clear and no swap is outstanding. |
| Notify.StaleNoticeRun | assessment_platform/api.py:5403-5409 | The run in which the retry claims between another callback's count and its swap: the stale notice goes out with the only slot pending, and when every slot is graded again nobody is at work and nothing more was sent. |
| Notify.StampSetBeforeTheClaimRun | assessment_platform/notify.py:239 | The run in which nobody is between count and swap when the stamp is cleared: a callback counts and swaps before the retry claims, and the new grade is never sent. |
| Notify.SharedQuestionIsNeverNotified | assessment_platform/notify.py:242-267 | If two slots resolve to one question, no run ever notifies that sitting. |
| Notify.SharedQuestionRun | assessment_platform/api.py:3103-3126 | The run: both slots resolve to one question, it is graded, nobody is at work, and nothing was sent. |
| Notify.SittingStore.Claim | assessment_platform/notify.py:270-290 | True exactly for the caller that found the stamp clear; the stamp is set either way. |
| Notify.SittingStore.ClaimSitting | assessment_platform/notify.py:180-213 | Reports the graded submissions exactly when the count is reached, an attempt exists and nobody was told; then and only then the stamp moves. |
| Notify.SittingStore.ReopenSitting | assessment_platform/notify.py:216-239 | Clears that sitting's stamp and no other; nothing happens for a submission with no attempt. |
| Notify.RequestIsCountThenSwap | assessment_platform/notify.py:195-211 | The method's effect is that of the protocol's count and swap run back to back. |
| Billing.FallbackNeverEnlarges | assessment_platform/billing.py:85-94 | A lapsed or misnamed subscription gets the free plan, which never exceeds the plan it names. |
| Billing.PlansInNumbers | assessment_platform/billing.py:57-94 | What each subscription buys, in numbers, and the three states in which a paid plan counts. |
| Billing.Previous | assessment_platform/billing.py:106-109 | The month before, on the calendar, across year ends. |
| Billing.UsageTable.EnsureRow | assessment_platform/billing.py:174-192 | The month has a row afterwards and no other row changes; a new one starts at nothing with the debt the previous calendar month recorded, so what a reader is shown is the same before and after. |
| Billing.UsageTable.Consume | assessment_platform/billing.py:256-302 | Enforced, a claim is granted if and only if what a reader was shown in use, the claim and the carried debt are together within the limit; a refusal names the limit less the debt, never below zero, and moves no counter; unenforced, exactly the part of the claim past that point is added to `over`. Nothing else moves. |
| Billing.UsageTable.Release | assessment_platform/billing.py:305-315 | Gives back the claim, or everything when less is in use; the overrun, the carried figure, the other metric and every other row stay, and no row is created. |
| Billing.ReleaseUndoesClaimExactlyWhen | assessment_platform/billing.py:305-315 | A granted claim that is given back leaves the settled row if and only if enforcement is on or the claim was within the allowance. |
| Billing.ReadThenWriteBackIsRelease | assessment_platform/billing.py:305-315 | With nothing between, a release's read and its absolute write are one call of release. |
| Billing.WriteBackIsAbsolute | assessment_platform/billing.py:305-315 | A release writes what it read less what it gives back, floored at zero, whatever the counter is by then, and nothing when that is the figure it read. |
| Billing.CarriedIsPreviousOver | assessment_platform/billing.py:146-171 | In every run whose adds land before the month after theirs is settled, each stored row's carried figure equals the previous calendar month's recorded over, zero when there is no such row. |
| Billing.SettledExactlyUntilALateAdd | assessment_platform/billing.py:346-355 | From settled rows a step leaves them settled if and only if it is not an add that records an overrun under a month whose successor already has a row. |
| Billing.FiledOnce | assessment_platform/billing.py:346 | The month a claim is filed under is read once and never again. |
| Billing.LateAddLeavesADebtBehind | assessment_platform/billing.py:346-355 | The run: a claim filed under January is added after February was settled, and February carries none of it. |
| Billing.ShownMovesExactlyWhen | assessment_platform/billing.py:124-143 | Within a month the carried figure a reader is shown moves exactly when a late add records an overrun under the previous month while this one has no row yet. |
| Billing.ShownAllowanceHoldsAllMonth | assessment_platform/billing.py:124-143 | Without such an add, the allowance shown from a transient row is the one every later claim of the month enforces, whatever runs in between. |
| Billing.ReadThenAddIsConsume | assessment_platform/billing.py:279-286 | With nothing between, the unenforced claim's read, its choice of month and its add are one call of consume. |
| Billing.UseIsAccountedFor | assessment_platform/billing.py:112-121 | On a fixed plan, for any interleaving of enforced claims, the steps of unenforced claims, the two halves of releases and month turns whose adds judge fairly, used ≤ allowance + over. |
| Billing.OtherAccountsAreFree | assessment_platform/billing.py:288-297 | The condition on such a run asks nothing of claims on another organisation or metric. |
| Billing.OverIsTheExcess | assessment_platform/billing.py:279-286 | With metering alone and adds that judge exactly, the recorded over is exactly the excess. |
| Billing.DebtIsSettled | assessment_platform/billing.py:112-121 | Over any consecutive months of any such run without a late add, total use is at most the monthly limits, plus what the last month still owes, plus the debts that exceeded a month's limit and were forgiven. |
| Billing.DebtIsConserved | assessment_platform/billing.py:112-171 | Metering alone, the books balance to the unit over any consecutive months: use, what was left unused and the debt the first month began with equal the limits, the debt the last month leaves and what was forgiven on the way. |
| Billing.RefusedExactlyWhenSpent | assessment_platform/billing.py:288-301 | After any run without a late add, an enforced claim is refused if and only if this month's use, the claim and what the month before went over by exceed the limit together. |
| Billing.AddKeepsAccountExactlyWhenFair | assessment_platform/billing.py:279-286 | From an account in order, an add judged on this month's allowance leaves it in order if and only if the figure read is past the allowance, is short of what is in use by no more than the over already recorded, or the claim fits anyway; releases in between included. |
| Billing.ExactExactlyWhen | assessment_platform/billing.py:279-286 | The recorded over stays equal to the excess if and only if the figure read is current, both it and the true figure are past the allowance, or both leave room for the claim. |
| Billing.RacingClaimsLoseAnOverrun | assessment_platform/billing.py:279-286 | The run: two claims that both read before either added leave use above allowance plus over. |
| SittingStart.CounterMovesAreBillings | assessment_platform/api.py:4369-4399 | The claim and the give-back of the start protocol are the billing module's consume and release of one sitting. |
| SittingStart.LooksBeforeClaiming | assessment_platform/api.py:4426-4452 | Nothing is claimed for a candidate who has a sitting or has not consented. |
| SittingStart.InsertStores | assessment_platform/api.py:4454-4479 | The insert that wins stores its own moment as the clock start; one that loses stores nothing and keeps its claim to give back. |
| SittingStart.EachStepAdvances | assessment_platform/api.py:4453-4479 | A request is over after at most four steps of its own, and only a claim that does not fit, an insert that wins and a write-back end one. |
| SittingStart.SittingsAreBilledOnce | assessment_platform/api.py:4402-4479 | For every interleaving of starts whose give-backs find the counter they read, the month's counter equals the sittings created plus the claims in flight; enforced, the sittings created never exceed the allowance. |
| SittingStart.WriteBackConservesExactly | assessment_platform/billing.py:305-315 | A give-back's write keeps that equality if and only if the counter still is the figure it read. |
| SittingStart.GiveBackErasesAClaim | assessment_platform/billing.py:305-315 | The run: another candidate claims between a give-back's read and its write; two sittings exist, nothing is in flight, and one is counted. |
| SittingStart.ClockStartIsFrozen | assessment_platform/api.py:4410-4415 | Once a sitting exists no later start moves its clock. |
| SittingStart.StartDesk.GetOrStart | assessment_platform/api.py:4402-4479 | Returns the stored clock start even when a sibling's insert won; the sitting counts only for the request whose row was stored, while an unenforced overrun the loser recorded stays; consent is asked for only where a sitting would be created. |
| Privacy.NormalizeIsIdempotent | assessment_platform/api.py:4184-4197 | On ASCII: a stored address compares equal to itself however it was typed. |
| Privacy.NormalizeInLetters | assessment_platform/api.py:626-628 | White space around an address is dropped, capitals become the small letters, and every other character stays (ASCII). |
| Privacy.ErasedCandidateIsForgotten | assessment_platform/privacy.py:313-352 | After a request no submission, attempt, slot variant, signal, draft or invite list of that organisation holds the address. |
| Privacy.RequestReaches | assessment_platform/privacy.py:311-345 | An attempt is reached exactly through the organisation of its invite, a submission through that or the organisation of its question, even without an invite. |
| Privacy.ErasureTouchesOnlyTheCandidate | assessment_platform/privacy.py:199-310 | Submissions, results and attempts, row by row: the candidate's take one shared new value and lose their text, keeping verdict, score, question and clock start; every other candidate's and organisation's is equal to what it was. |
| Privacy.ErasureScrubsOnlyTheAddress | assessment_platform/privacy.py:183-196 | An invite of the organisation loses that address from both lists and nothing else, every other entry as often as before; an invite of another organisation is unchanged. |
| Privacy.FeedbackMustGoFirst | assessment_platform/privacy.py:238-252 | Why the feedback is deleted before the attempts are anonymised: the other way round its condition would find nothing. |
| Privacy.ErasureKeepsTraces | assessment_platform/privacy.py:238-291 | Slot variants and signals change only their address; drafts and feedback go exactly with the address, and all others stay. |
| Privacy.ErasureKeepsUniqueKeys | assessment_platform/models.py:516-518 | With a fresh tombstone all unique keys of the candidate tables still hold after an erasure of any scope. |
| Privacy.RepeatReportsNothing | assessment_platform/privacy.py:134-162 | Once forgotten, a further request reports zero for every count and changes nothing. |
| Retention.OrgOfIsScope | assessment_platform/privacy.py:165-180 | For invites with one target, belonging to an organisation through the question or the assessment is having it as the one owner. |
| Retention.EraseSittingIsOne | assessment_platform/privacy.py:355-377 | Erasing one sitting is the set erasure of that one (invite, address) pair, table by table. |
| Retention.EraseAgain | assessment_platform/privacy.py:481-485 | Erasing some sittings and then others is erasing them together: the loop's order does not matter. |
| Retention.PurgeNext | assessment_platform/privacy.py:475-487 | Purging one organisation after others is purging them together, and their expired sittings are disjoint. |
| Retention.PurgeErasesExactlyTheExpired | assessment_platform/privacy.py:380-401 | On the attempts: a purge erases exactly the un-erased sittings older than their organisation's window and leaves every other attempt as it was. |
| Retention.WindowIsInDays | assessment_platform/privacy.py:393-400 | The same in numbers, for any set of organisations: erased at `now` exactly when un-erased and more than d · 86 400 seconds old, all columns given. |
| Retention.InvitesAgeInDays | assessment_platform/privacy.py:426-454 | An invitation no older than the window loses exactly the addresses of the sittings so erased; an older one keeps exactly those with a sitting left un-erased; the delivery log likewise. |
| Retention.PurgeKeepsUniqueKeys | assessment_platform/models.py:497-700 | Fresh tombstones keep every unique key of the candidate tables over a whole purge. |
| Retention.PurgeForgetsOrSpares | assessment_platform/privacy.py:355-377 | In all seven tables: nothing holds an expired sitting's address afterwards, with its verdicts and scores kept, and every row of any other sitting is as it was. |
| Retention.NoWindowKeepsEverything | assessment_platform/privacy.py:462-479 | Organisations without a window keep every row of every invite: lists, attempts, submissions, results, slot variants, signals, drafts and feedback. |
| Retention.LiveAddressesStayListed | assessment_platform/privacy.py:422-448 | No listed address with an un-erased sitting loses its place. |
| Retention.OldInvitesListOnlyLiveAddresses | assessment_platform/privacy.py:404-454 | An invitation past the window lists, afterwards, only addresses with an un-erased sitting. |
| Retention.SecondPurgeIsIdle | assessment_platform/privacy.py:457-493 | A second purge at the same time finds nothing and changes nothing. |
| Retention.CandidateStore.ScrubRecipients | assessment_platform/privacy.py:183-196 | Reports a change exactly when the address was listed or logged. |
| Retention.CandidateStore.ScrubAll | assessment_platform/privacy.py:293-299 | The loop amends every invite of the set and counts exactly those that listed the address. |
| Retention.CandidateStore.EraseRows | assessment_platform/privacy.py:199-310 | The seven statements in source order, each on the database its predecessors left, then the loop over invites, amount to the erasure of the scope as it was at the start, and report the rows it had then. |
| Retention.CandidateStore.EraseCandidateData | assessment_platform/privacy.py:313-352 | Afterwards nothing of the organisation holds the address, only the candidate's rows have changed, and asking again would report nothing. |
| Retention.CandidateStore.EraseSittings | assessment_platform/privacy.py:481-485 | The loop over sittings, in any order, equals the erasure of all of them together and counts them. |
| Retention.CandidateStore.ExpireRecipients | assessment_platform/privacy.py:404-454 | The loop over one organisation's old invitations, in any order, sheds exactly the addresses with nothing live behind them. |
| Retention.CandidateStore.PurgeOrganisation | assessment_platform/privacy.py:480-487 | One organisation's turn: its expired sittings are erased and counted, then its old invitations shed addresses. |
| Retention.CandidateStore.PurgeExpired | assessment_platform/privacy.py:457-495 | The loop over organisations, in any order, is the joint purge and counts its sittings; an attempt of an organisation that keeps d > 0 days is erased if and only if it was un-erased and began more than d · 86 400 seconds ago, and is otherwise as it was. |
| RecipientLists.UndisturbedScrubIsWhole | assessment_platform/privacy.py:183-196 | With nothing in between, an erasure's read and commit are the scrub of the list as it is. |
| RecipientLists.ReadsOnce | assessment_platform/privacy.py:183-196 | A transaction under way keeps the list it read, whatever commits meanwhile, and ends by its own commit only. |
| RecipientLists.HonouredExactlyUntilARelisting | assessment_platform/privacy.py:183-196 | While the list is what was sent less all that committed transactions dropped, a commit keeps it so if and only if it does not write back an address that was dropped since its transaction read the list. |
| RecipientLists.DroppedStaysDropped | assessment_platform/privacy.py:445-454 | In every interleaving of erasures and purges of one invite without such a commit, in whatever order they commit, no dropped address is listed again. |
| RecipientLists.OverlappingErasuresRelist | assessment_platform/privacy.py:183-196 | The run: two candidates of one invite are erased at once, both erasures commit, and the first address is listed again. |
| Lifecycle.RunKeepsSound | assessment_platform/api.py:4402-4479 | Over every run, races included: one sitting per invite and candidate, addresses normalised, erased sittings under tombstones. |
| Lifecycle.RunKeepsUniqueKeys | assessment_platform/models.py:497-700 | In every run of requests, races, erasures and purges: per candidate and invite one sitting, one submission and one draft a question, and one variant a slot. |
| Lifecycle.SendStores | assessment_platform/api.py:3439-3453 | An invitation is stored once, active, with the normalised addresses, the assessment's time limit as it is then and the moment it was sent. |
| Lifecycle.OfficeMovesNothingElse | assessment_platform/api.py:4314-4325 | An edit of an assessment's time limit touches no invite, and time and answers touch no row. |
| Lifecycle.RequestIsDated | assessment_platform/privacy.py:253-262 | An erasure request gives each sitting it reaches the tombstone, no name, and the moment it commits, and keeps its invite and start. |
| Lifecycle.GateOpensExactlyFor | assessment_platform/api.py:4142-4197 | A request passes exactly for a listed address on an active invite that has not expired, or has expired but is timed and the candidate has a sitting. |
| Lifecycle.RevokedForGood | assessment_platform/api.py:4165-4173 | After a revocation nobody passes the gates of that invite in any later state of any run, a sitting under way included. |
| Lifecycle.BeginStores | assessment_platform/api.py:4416-4479 | A sitting is stored, with the clock of that step, unless the candidate has one; the request holds it if there is one now. |
| Lifecycle.SubmitStores | assessment_platform/api.py:4788-4830 | A submission is stored for a request that holds its sitting, the first per question only. |
| Lifecycle.DraftStores | assessment_platform/api.py:5008-5028 | A draft is stored once per question and overwritten after that. |
| Lifecycle.TraceStores | assessment_platform/api.py:4876-4889 | Every signal is stored, and a slot's variant once. |
| Lifecycle.CaughtIsUnlisted | assessment_platform/privacy.py:404-454 | An erasure or purge takes a waiting request's address off its invite if and only if it catches it: the request is for that address, or its sitting has expired, or the invite is past the window with nothing live behind the address. |
| Lifecycle.RunKeepsGood | assessment_platform/privacy.py:404-454 | Over every run in which no erasure catches a request between gate and answer, each un-erased sitting's address is on its invite and every request in flight would still be let in. |
| Lifecycle.StartedSittingIsAdmitted | assessment_platform/api.py:4142-4197 | In every state such runs reach, a candidate with an un-erased timed sitting passes both gates, link expired or not, as long as the invite is not revoked. |
| Lifecycle.LockedOutExactlyWhenCaught | assessment_platform/privacy.py:415-425 | The condition is exact: a step makes some request's next start a live sitting its candidate cannot get back into if and only if it catches a request in flight. |
| Lifecycle.RetentionRaceLocksOut | assessment_platform/api.py:4653-4666 | The run: gate, purge, insert; the sitting is live and locked out. |
| Lifecycle.ErasureRaceRecreates | assessment_platform/api.py:4788-4801 | The run: gate, erasure, insert; the erased address has a sitting again. |
| Lifecycle.WaysASittingEnds | assessment_platform/privacy.py:404-454 | Any step leaves a sitting exactly as it was or erases it, and it erases it only for a request naming that address in that organisation or a purge it outlived. |
| Lifecycle.WaysAnInviteChanges | assessment_platform/api.py:4101-4123 | No step changes an invite's time limit or expiry, revives it, or lists a new address; only its own revocation deactivates it. |
| Lifecycle.DeadlineIsFrozen | assessment_platform/api.py:4311-4353 | Over any run at all of edits, reloads, expiry, purges and erasures, races included, an un-erased sitting keeps its clock start and its deadline. |
| Lifecycle.DeadlineRunsFromTheStart | assessment_platform/api.py:4349-4353 | A sitting on an invite of m minutes ends 60 · m seconds after the step that began it, one on an untimed invite never, in every later state while it is not erased. |
| Lifecycle.ErasedStaysErased | assessment_platform/privacy.py:183-196 | After an erasure request, on any invite the organisation had, no attempt, submission, slot variant, signal or draft of that address exists in any later state of any run, if and only if none of its requests there was in flight. |
| Lifecycle.ExpiredStaysErased | assessment_platform/privacy.py:355-377 | The same equivalence, on its invite, for a sitting that retention erased. |
| OrgPurge.ChildrenFirst | assessment_platform/api.py:911-933 | The delete order puts every table before every table it has a foreign key to. |
| OrgPurge.CondemnedIsOwned | assessment_platform/api.py:897-910 | When a table's turn comes, its delete condition, with subqueries evaluated on what is left, selects exactly the organisation's rows. |
| OrgPurge.EveryPrefixIsSafe | assessment_platform/api.py:953-954 | After every prefix of the deletes exactly the organisation's rows of those tables are gone and no foreign key dangles. |
| OrgPurge.PurgeRemovesExactlyTheOrganisation | assessment_platform/api.py:897-954 | At the end no row of the organisation remains and all other rows are unchanged. |
| OrgPurge.Store.PurgeOrg | assessment_platform/api.py:953-954 | The loop is the ordered deletes, all of them. |
| OrgPurge.AllAuthorsCovered | assessment_platform/api.py:957-973 | The six updates reach every table that can name an author. |
| OrgPurge.Store.Disown | assessment_platform/api.py:957-973 | Removes the person's authorship everywhere and leaves the rows otherwise as they were. |
| OrgPurge.SoleSeatTakesAll | assessment_platform/api.py:1011-1012 | When nobody else has a seat, the deletes remove everything the seat's organisation owns. |
| OrgPurge.VacatedLeavesNoTrace | assessment_platform/api.py:1011-1023 | On either branch, nothing refers to the deleted person afterwards and no foreign key dangles. |
| OrgPurge.DeletionSpares | assessment_platform/api.py:986-1023 | The rows a deletion leaves, said of memberships and owners alone: all but the person, the seat and, when no other membership names its organisation, that organisation's rows; each as it was up to its author. |
| OrgPurge.LastAdminMeansNoOther | assessment_platform/api.py:1400-1412 | The admin count of the guard is at most one exactly when no colleague is an admin. |
| OrgPurge.Store.PurgeAccount | assessment_platform/api.py:976-1023 | Refused if and only if the seat is an admin's, somebody else has a membership of its organisation, and no other membership of it is an admin's; then nothing changes. Otherwise the person is gone without a trace. While anyone else has a membership there, in any role, every other row stays and loses at most the person's name; with nobody else, exactly the organisation's rows go too. |
| RateLimit.RateLimiter.PurgeExpired | assessment_platform/ratelimit.py:43-46 | Drops exactly the keys with no hit inside the window. |
| RateLimit.RateLimiter.Check | assessment_platform/ratelimit.py:48-64 | Refuses exactly when the hits inside the window reach the limit, whether or not the table was trimmed, and a refused hit is not recorded. |
| RateLimit.ForgettingIsInvisible | assessment_platform/ratelimit.py:38-64 | For non-decreasing times and one window length, the pruning limiter answers every call as one that keeps the full history. |
| RateLimit.AcceptedIsHistory | assessment_platform/ratelimit.py:38-64 | The hits the forgetful limiter accepted are the full history's. |
| RateLimit.AtMostMaxPerWindow | assessment_platform/ratelimit.py:48-64 | No half-open interval one window long holds more than `max` accepted hits of a key. |
| RateLimit.RefusedExactlyAtTheLimit | assessment_platform/ratelimit.py:48-64 | After any ordered trace a call is refused if and only if its limit is above zero and at least that many accepted hits lie within the window before it. |
| RateLimit.ForgetsOnlyWhenCrowded | assessment_platform/ratelimit.py:30-46 | Other keys are forgotten exactly when more than 10 000 are tracked and they have no hit inside the window. |
| DbRateLimit.CounterEqualsAcceptedHits | assessment_platform/ratelimit.py:88-143 | For every statement-level interleaving, a live window's counter is the number of hits accepted in it, and no window ever accepts more than `max`. |
| DbRateLimit.SweepSparesLiveWindows | assessment_platform/ratelimit.py:71-75 | A sweep leaves the present window and the window of every check in flight, as long as a window is no longer than the grace. |
| DbRateLimit.AtMostTwiceMaxInAnyInterval | assessment_platform/ratelimit.py:94-105 | Any interval one window long holds at most twice `max` accepted hits. |
| DbRateLimit.WaysACheckEnds | assessment_platform/ratelimit.py:108-140 | Exactly three statements accept a request and exactly two refuse it, each on what it finds at that moment; no statement moves another check. |
| DbRateLimit.EachStatementAdvances | assessment_platform/ratelimit.py:108-140 | A check is over after at most four statements of its own, whatever its siblings do. |
| DbRateLimit.TimePasses | assessment_platform/ratelimit.py:98-99 | Time passes by its own event only, and a check works with the moment it began at. |
| DbRateLimit.LoneCheck | assessment_platform/ratelimit.py:88-143 | The statements with nobody in between sweep the rows older than the grace and refuse exactly at the limit, count one up below it, or store the window's first hit. |
| DbRateLimit.CounterTable.Check | assessment_platform/ratelimit.py:88-143 | Alone, a check refuses exactly at the limit and then leaves the counter; dead rows are swept either way. |
| Variants.CreateInvites | assessment_platform/api.py:3497-3534 | A bad pin or an empty set rejects the whole batch; otherwise each recipient gets the pin or the next variant, and a pin spends no turn. |
| Variants.DealtInPlaces | assessment_platform/api.py:3504-3521 | Recipient by recipient: a pin gives its own question, the others the set's variants in turn, as many places on as there were unpinned recipients before them. |
| Variants.RotationCounts | assessment_platform/api.py:4252-4257 | After any number of hand-outs a rotation has used each variant exactly its share. |
| Variants.RepeatedCallsRotate | assessment_platform/api.py:3504-3521 | Repeated invite calls without pins continue one rotation over the whole set. |
| Variants.VariantIsFrozen | assessment_platform/api.py:2990-3002 | A candidate's variant is the same at every later resolution, whatever is asked, deleted or erased for others. |
| Variants.SlotIsBalanced | assessment_platform/api.py:4228-4275 | With a fixed pool and sequential assignment, use counts for a slot differ by at most one after any number of candidates, erasures included. |
| Variants.HandedIsTheRows | assessment_platform/api.py:4248-4257 | What a slot has handed out is each question as often as the slot's rows name it. |
| Variants.DeletedOrRenamed | assessment_platform/api.py:2990-3002 | A question goes exactly when nothing refuses it and no row assigns it; an erasure changes the candidate of their rows and nothing else. |
| Variants.SlotTable.ResolveSlot | assessment_platform/api.py:4228-4275 | The first resolution stores what it returns; a later one returns the stored row. |
| SittingLock.LockStorage.TryClaim | web/src/sittingLock.ts:69-111 | Refused exactly when storage holds another tab's claim stamped between 7 000 ms ago and now; otherwise the tab's claim is stored, and a refusal writes nothing. |
| SittingLock.LockStorage.Release | web/src/sittingLock.ts:113-123 | The item is gone afterwards exactly when there was none or it was the tab's own; a claim of another tab is untouched. |
| SittingLock.AtMostOneHolder | web/src/sittingLock.ts:62-67 | With atomic claims and a shared clock, two tabs never both hold an unreleased claim that is not stale. |
| SittingLock.OnlySilenceLosesTheSitting | web/src/sittingLock.ts:101-123 | Another tab's claim succeeds only after the holder released or fell silent past the stale limit, and then at its next heartbeat. |
| SittingLock.UndisturbedClaimIsAtomic | web/src/sittingLock.ts:101-111 | Read, write and re-read with nothing in between are the atomic claim. |
| SittingLock.OneCallAtATime | web/src/sittingLock.ts:101-123 | A tab inside one call starts no other. |
| SittingLock.RereadDecides | web/src/sittingLock.ts:106-111 | The re-read ends the call, and the tab holds the sitting, as of its write, exactly if it reads its own item back or none. |
| SittingLock.UndisturbedReleaseIsAtomic | web/src/sittingLock.ts:113-123 | Look and remove with nothing in between are the atomic release. |
| SittingLock.NamedExactlyUntilClash | web/src/sittingLock.ts:101-123 | Storage goes on naming every holder after a step if and only if the step does not clash: no write lands while another tab holds, no re-read takes a missing item for a win, no removal lands while another tab holds. |
| SittingLock.PeacefulClaimsAreExclusive | web/src/sittingLock.ts:101-123 | Over every interleaving of reads, writes, re-reads, looks, removals and time without a clash, two tabs never hold at once. |
| SittingLock.ClashEndsExclusivity | web/src/sittingLock.ts:105-110 | After each clash there is a continuation, at most one re-read and one heartbeat long, in which two tabs hold. |
| SittingLock.TwoTabsCanBothWin | web/src/sittingLock.ts:106-110 | A run with the first kind of clash: two interleaved claims both read back as won. |
| SittingLock.NothingCountsAsWon | web/src/sittingLock.ts:109-110 | A run with the second: a tab that reads back nothing holds unnamed, and another claims beside it. |
| SittingLock.ReleaseCanHitTheSuccessor | web/src/sittingLock.ts:113-123 | A run with the third: a silent tab looks, is replaced, and then removes its successor's item; another tab claims beside that one. |
| SittingLock.ExclusivityReturns | web/src/sittingLock.ts:101-143 | From whatever interleaved claims left behind, once none is mid-flight and each tab has run one more, at most one holds. |

## Left out

- Lifecycle.DeadlineIsFrozen: speaks of deadlines only; that a late submit is recorded and flagged rather than refused is one comparison on top of it.
- Lifecycle.LockedOutExactlyWhenCaught: a request's gates are one step, and so is each of its writes; the order of a request's writes is free, except that a submission needs its sitting.
- Lifecycle.ErasedStaysErased: an erasure and a purge each read and commit in one step there; what two overlapping ones do to a recipient list is in `RecipientLists.dfy`, and a candidate listed again that way could start again. It does not cover stored result text, which a late callback may rewrite, nor a new invitation sent to the address afterwards.
- Lifecycle.WaysAnInviteChanges: deleting a question together with invites nobody has opened, and sending by question, are not steps of that model; deletion is refused once there is a sitting. An invitation's delivery log is stored with it, where the code writes it in a second commit once the e-mails are out.
- Billing.UseIsAccountedFor: an enforced claim is one conditional UPDATE in the month it began in.
- SittingStart.SittingsAreBilledOnce: a release that finds the next month's row, because the month turned between claim and insert, is not modelled, and neither are the two halves of an unenforced claim.
- Notify.NotifiedAtMostOncePerOpening: rows change status as freely as `Grading.dfy` allows or more, a sitting's slots are taken as fixed once an invite exists, and erasure during a sitting's grading is not modelled.
- GradingPasses.SequentialReaperTerminates: speaks of a single reaper; with several, whose passes may all load one token, only the passes that win are bounded (GradingRuns.ReaperTerminates).
- GradingRuns.SentJobsStayMatched: an agent that mints its own job id is not covered; the code tolerates one as a legacy path.
- DbRateLimit.CounterEqualsAcceptedHits: assumes no check outlives the purge grace less one window (the grace is a day), and that workers share a clock; that a refusal happens only at the limit is not claimed, since the SELECT can see a sibling's fresh row.
- RateLimit.ForgettingIsInvisible: times are those at which calls take the lock; the code reads the clock just before it, so two waiting threads could swap by that much.
- Variants.SlotIsBalanced: assignment is sequential; two candidates resolving at the same instant may read the same cursor. The allowance check at the head of the invite route is not modelled.
- SittingLock.PeacefulClaimsAreExclusive: storage that throws (private mode, quota) is not modelled; the code then decides for the candidate.
- OrgPurge.PurgeRemovesExactlyTheOrganisation: assumes rows closed under organisation, including the question named by an integrity event, which the browser reports; cancelling the subscription is not modelled.
- Retention.CandidateStore.PurgeExpired: the rollback of one organisation whose purge raises is not modelled; tombstones are parameters assumed fresh, where the code mints random ones.
- Privacy.NormalizeIsIdempotent: ASCII letters and four whitespace characters; Unicode case folding is not modelled. Identifiers are numbers.
- Erasure's `updated_at` stamp, display names after a resubmission, and consent records: they steer nothing modelled here.
- Process crashes between commits, and clock skew between workers: the code does not claim to handle them.
- The agent, SMTP, Stripe, webhooks and DNS: foreign. The agent is an environment that may accept, refuse, fail, and call back any number of times.
- HTTP routing, request schemas, tokens, password hashing, signatures and images: no protocol of their own.
- Costs, except that a changed figure moves a row's age; the roll-up is a telescoping sum.
- Analytics, reports, e-mail texts, migrations and the rest of the user interface.
