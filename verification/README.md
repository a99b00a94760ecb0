# Durable AI jobs and the data around them

This project models the durable AI jobs of `backend/ai_gateway`: the row a job lives in, the requests and workers that
write it concurrently, the metered provider exchanges behind each round, and the algorithms that keep the job's data
honest: where each proposed window comes from, what of the attached files was sent, what a page of history shows, what
«undo all» puts back, what a receipt may claim, and how often a provider may be asked. `dafny verify dfyconfig.toml`
checks all of it.

## How it is built

* **The job row.** `JobTypes` and `JobUpdates` give the row and one function per guarded SQL write; `JobRecords` is the
  row as an object whose methods write it step by step and are proved equal to those functions. `AgentRounds` is what
  the act transaction saves and decides, `Approvals` what an approval applies, `FollowUps` the message and retry
  requests with their enqueue.
* **The protocol.** `JobProtocol` is a step system of requests, the run queue and workers, one event per commit. A run
  is any sequence of events, so stale workers, re-deliveries and cancels interleave freely. `JobSafety` holds for every
  run. `JobOrderly` states the discipline under which the stored transcript only grows, `JobOutcomes` what the recorded
  outcomes keep under it, and `JobHazards` has, for each rule of the discipline, a run that breaks it and loses turns.
  `JobBudget`, `JobPickup`, `JobStranding` and `JobSettling` say exactly when four things the protocol is for fail: the
  error budget, that a follow-up is executed, that a busy row goes on, and that SUCCEEDED leaves nothing undecided.
* **Metering.** `UsageLedger` and `UsageSummary` are the attempts, the monthly budget and its summary. `Metering` is
  the step system of concurrent `invoke` calls with holds, wallet, sweeps, expiries and agent rounds that commit or
  roll back several settlements at once; `MeteringRecords` is its imperative form. `MeteringSafety`, `MeteringResults`,
  `MeteringHolds` and `HoldCover` prove it; `HoldKept` says when a call keeps its hold, `HoldHazard` has, for each of its
  rules, a run that breaks it alone and loses the payment, and `MeteringRollback` follows the keys of a round that rolls
  back.
* **Origins.** `Origins` folds and locates phrases, `OriginBinding` cuts clauses and finds the shortest that states a
  window, `OriginWindows` splits and re-binds origins to windows. `NumberScanner` is the pattern for numbers,
  `NumberEdges` says which numbers and count words of a piece of a text are those of the text, and `OriginEdges` when a
  located phrase proves that its source states the window.
* **The rest.** `Attachments`, `Timeline`, `Cursor`, `UndoAll`, `Postconditions`, `Providers` and `QueryBudget` each
  model one file or one loop, imperative where the source is and proved against functions.

## What was found

* A request is one transaction: `authenticated_rls_context` opens `transaction.atomic()`
  (`backend/authentication/rls.py:130-147`). The comments on `mark_queued` (`backend/ai_gateway/jobs.py:479-488`) and in
  the views speak of writes that commit one by one. The model follows the code; `FollowUps` states both readings.
  The retry request restores nothing after a refused enqueue, which is harmless exactly in the first reading.
* The lease check before a re-claim counts the caller's own run, so a worker that holds its lease never takes over a
  PLANNING or RUNNING row: when a worker dies after its claim and the re-delivered run is refused, the row stays busy
  until somebody cancels it or the old worker comes back (`JobStranding`).
* `store_approval` is the one write that leaves FAILED or CANCELED. «Canceled» is therefore final only until an approval,
  and a job whose FAILED row is approved may fail with more than three errors (`JobBudget`).
* The stored transcript does not only grow in general. Six rules together are enough, and each of them is needed.
* `record_outcome` does not know quote drafts: a report may settle a row whose quote draft still waits. `store_approval`
  looks at the marks of the latest round only: it may settle a row with an earlier round undecided, and leave one waiting
  whose steps are all decided (`JobSettling`).
* Errors are counted over the whole transcript, not consecutively.
* An accepted message whose idempotency key names a run of the same text that succeeded leaves the row QUEUED, and nobody
  claims it, unless a worker of that run that lost its lease has not claimed yet (`JobPickup`). A key that names another
  job's run does the same.
* The second replay check of `invoke` never finds anything, and a key whose settled round was rolled back stays unpaid.
* A second call of a key may release the first call's hold, so admission no longer covers it; with one open call per key,
  caretakers that leave open calls alone, no reuse of a settled hold and no expiry it always does (`HoldKept`). A
  timed-out exchange that is reconciled as paid leaves a settled hold, and the same call sent again takes it although it
  retains nothing (`HoldHazard`).
* A member who reads that the budget is not blocked may still be refused: their summary compares their own share with the
  whole budget (`UsageSummary`).
* Locating a phrase has no word boundaries, against its own promise of «never to different words or numbers»: a cited
  number may be found inside a longer one, and `bind` then keeps a window whose height the request never states. When
  no digit or decimal mark touches a number at the phrase's edge, no letter a count word, and no unit follows, that
  cannot happen (`NumberEdges`, `OriginEdges`).
* A receipt may say «complete» while a drafted change waits, or when the work it created cannot be read again.


## Model

| member | source | states |
|---|---|---|
| `JobRecords.JobRecord.Claim` | backend/ai_gateway/jobs.py:181-217 | A claim takes a queued row, or a PLANNING/RUNNING one whose lease is dead, to PLANNING, and no other. |
| `JobRecords.JobRecord.MarkRunning` | backend/ai_gateway/jobs.py:220-233 | Only PLANNING becomes RUNNING; the answer says whether it did. |
| `JobRecords.JobRecord.Resume` | backend/ai_gateway/jobs.py:522-551 | A follow-up claim takes only a queued row and writes back the transcript its worker read. |
| `JobRecords.JobRecord.Finish` | backend/ai_gateway/jobs.py:452-476 | Only a RUNNING row takes the round: state, transcript and appended outcomes together, or nothing. |
| `JobRecords.JobRecord.RecordFailure` | backend/ai_gateway/jobs.py:584-615 | A failed follow-up replaces the transcript by what it read plus the failure turns; the third error is FAILED. |
| `JobRecords.JobRecord.CountErrors` | backend/ai_gateway/jobs.py:593-615 | Counts the error turns of the whole transcript. |
| `JobRecords.JobRecord.FailQueued` | backend/ai_gateway/jobs.py:253-267 | A failed first run leaves FAILED_RETRYABLE with its two turns, on a live row only. |
| `JobRecords.JobRecord.ExpireLease` | backend/jobs/repository.py:263-308 | A run given up on its last attempt leaves a live row FAILED_RETRYABLE. |
| `JobRecords.JobRecord.MarkQueued` | backend/ai_gateway/jobs.py:479-498 | A follow-up flips a settled row to QUEUED and answers the state it left. |
| `JobRecords.JobRecord.RestoreQueued` | backend/ai_gateway/jobs.py:501-519 | The compensation puts that state back only on a row still QUEUED. |
| `JobRecords.JobRecord.CancelJob` | backend/ai_gateway/jobs.py:618-629 | Cancels any row that is not terminal. |
| `JobRecords.JobRecord.RequestCancel` | backend/ai_gateway/jobs.py:300-349 | Cancels at once a row nobody holds, leaves a signal on a busy one, and answers which. |
| `JobRecords.JobRecord.EveryReportableDecided` | backend/ai_gateway/jobs.py:685-745 | Tells whether every step of the kinds `record_outcome` knows has a decision, over the whole transcript. |
| `JobRecords.JobRecord.RecordOutcome` | backend/ai_gateway/jobs.py:632-744 | Refuses an outcome for a missing step, a repeated or contradicting decision and an undo of nothing; records the rest and settles the row when nothing it knows is left. |
| `JobRecords.JobRecord.RecordAssistantOutcomes` | backend/ai_gateway/jobs.py:747-756 | Appends, whatever the state. |
| `JobRecords.JobRecord.StoreApproval` | backend/ai_gateway/jobs.py:759-779 | Replaces the transcript, appends the entries and settles every row that is not live, terminal ones included. |
| `JobUpdates.RestoreUndoesMark` | backend/ai_gateway/jobs.py:479-519 | A refused enqueue leaves no trace, whatever settled state the row had. |
| `JobUpdates.RestoreKeepsCancel` | backend/ai_gateway/jobs.py:501-519 | A cancel between the flip and the restore survives it. |
| `JobUpdates.ReportSettlesEarlyIffQuoteOpen` | backend/ai_gateway/jobs.py:685-745 | A report settles a waiting row, as SUCCEEDED, exactly when it is recorded and decides the last undecided step of the kinds it knows; by `act`'s list of kinds that is too early exactly when an undecided quote draft remains. |
| `JobUpdates.ReportSettlesWithOpenQuote` | backend/ai_gateway/jobs.py:685-745 | The concrete row: one window step, one quote draft; applying the window settles it. |
| `JobUpdates.ReportIsFirstDecision` | backend/ai_gateway/jobs.py:632-684 | A recorded report never contradicts a decision, repeats itself or undoes what was not applied. |
| `JobUpdates.FailureCountsErrors` | backend/ai_gateway/jobs.py:584-615 | After a recorded failure the row is FAILED exactly when its transcript has three errors in all. |
| `AgentRounds.SaveSubtasks` | backend/ai_gateway/agent.py:1770-1785 | The first pass marks and records exactly the requested subtasks. |
| `AgentRounds.SaveChanges` | backend/ai_gateway/agent.py:1786-1800 | The second pass saves the requested reversible changes; a refusal stays on its step, unrecorded. |
| `AgentRounds.SaveDrafts` | backend/ai_gateway/agent.py:1770-1800 | Both passes together give the steps and outcomes of the round; nothing is saved when the run may not. |
| `AgentRounds.OutcomesMatchSavedSteps` | backend/ai_gateway/agent.py:1770-1863 | A round records one «applied» per saved step, in step order, and nothing else. |
| `AgentRounds.SucceededLeavesNothingPending` | backend/ai_gateway/agent.py:1802-1828 | A round that settles as SUCCEEDED leaves no gated step of the whole transcript undecided. |
| `Approvals.ApplySteps` | backend/ai_gateway/copilot_views.py:294-339 | The loop over the latest round marks and records exactly the steps one approval applies or refuses. |
| `Approvals.ApprovalKeepsTurns` | backend/ai_gateway/copilot_views.py:294-339 | A pass changes apply marks only: every turn and step stays in place. |
| `Approvals.ApprovalDecidesFreshSteps` | backend/ai_gateway/copilot_views.py:294-339 | The entries of a pass decide distinct, undecided, gated steps of the transcript. |
| `Approvals.QuotesUntouchedByFirstPass` | backend/ai_gateway/copilot_views.py:294-364 | The second pass finds every quote draft as the request did. |
| `FollowUps.RunQueue.Enqueue` | backend/jobs/service.py:69-128 | A new key or the key of a failed run gives a runnable run; any other key answers for itself. |
| `FollowUps.PostMessage` | backend/ai_gateway/views.py:472-653 | A refused follow-up restores the row unless a cancel landed; an accepted one leaves QUEUED, and a queued run of this job exactly when its key named no run, an ended one or this job's own queued run: another job's run is accepted too. |
| `FollowUps.PostRetry` | backend/ai_gateway/views.py:669-749 | A retry has no compensation: after a refusal the row is as it was exactly when the request is one transaction. |
| `JobSafety.EachEpisodeCommitsOnce` | backend/ai_gateway/handlers.py:97-169 | Over every interleaving, no two committed rounds belong to the same RUNNING episode. |
| `JobSafety.OnlyApprovalLeavesTheEnd` | backend/ai_gateway/jobs.py:759-779 | On a FAILED or CANCELED row a step changes the state if and only if it is an approval that decides something. |
| `JobSafety.TheEndIsFinal` | backend/ai_gateway/jobs.py:452-629 | Without such an approval, FAILED and CANCELED keep state, transcript and rounds for ever. |
| `JobSafety.CanceledRunsNeverCommit` | backend/ai_gateway/handlers.py:134-195 | After «canceled» no act transaction in flight ever commits, unless an approval revives the row. |
| `JobSafety.CancelAnswersWhatItDid` | backend/ai_gateway/jobs.py:300-349 | «canceled» is answered exactly when the row flips, «signaled» exactly when it is busy and not terminal. |
| `JobSafety.ErrorBudget` | backend/ai_gateway/jobs.py:584-615 | In every run in which no approval decides anything on a FAILED row, FAILED_RETRYABLE has fewer than three error turns and FAILED exactly three. |
| `JobBudget.SettledBudgetIff` | backend/ai_gateway/jobs.py:522-615 | From a settled row, the budget holds over every continuation that approves no FAILED row if and only if neither the row, nor a worker that has not written back what it read, nor an approval that would decide something carries three errors. |
| `JobBudget.BudgetExactly` | backend/ai_gateway/jobs.py:759-779 | From any world so reached, a step keeps that budget over every continuation that approves no FAILED row, if and only if it is not an approval that decides something on a FAILED row while three errors are carried past it: by itself, by another such approval or by a worker. |
| `JobBudget.ApprovingFailedLosesTheBudget` | backend/ai_gateway/jobs.py:759-779 | Whenever such an approval had read the three errors itself, some continuation that approves no FAILED row breaks the budget. |
| `JobBudget.FourthError` | backend/ai_gateway/jobs.py:584-615 | A run from the start that fails for good with four error turns: three failed follow-ups, an approval of the FAILED row, a fourth failure. |
| `JobSafety.OnlyTheFlipEnqueues` | backend/ai_gateway/views.py:578-643 | A run appears or gets new work only by the request that flipped a settled row, or by resending the first one. |
| `JobPickup.FollowUpIsPickedUpIff` | backend/ai_gateway/views.py:578-643 | After an accepted message some continuation claims the waiting row for its run and text if and only if the key names no run, one that is not over or failed, or one whose worker has not claimed yet; a waiting cancel signal is the one thing that can still stop it. |
| `JobPickup.AMessageNobodyPicksUp` | backend/ai_gateway/views.py:628-643 | A run from the start in which an accepted message leaves the row QUEUED and no continuation claims it, for any run or text. |
| `JobStranding.BusyRowMovesIff` | backend/ai_gateway/jobs.py:181-217 | The state of a PLANNING or RUNNING row changes if and only if the event is a landing cancel, the next step of a worker past its claim, the queue giving a leased run up, or a claim that found no lease; otherwise the transcript stays too. |
| `JobStranding.StrandedStays` | backend/ai_gateway/jobs.py:158-217 | A busy row whose runs are all over and that no worker is about to claim keeps state, transcript and runs over every continuation, until a cancel, a late step of its old worker or the first request sent again. |
| `JobStranding.ReplayDoesNotHelp` | backend/ai_gateway/jobs.py:158-178 | The first request sent again does not free it: the lease its claim finds live is its own, the claim is refused and the run is over once more. |
| `JobStranding.AStrandedRow` | backend/jobs/repository.py:263-308 | A run from the start that leaves a row stranded in PLANNING: the first worker dies after its claim and the re-delivered run is refused. |
| `JobOrderly.StepKeepsDiscipline` | backend/ai_gateway/handlers.py:57-233 | Leases, the one run in play and what each lease holder carries stay in step with the row, whatever permitted event comes. |
| `JobOrderly.TranscriptOnlyGrows` | backend/ai_gateway/jobs.py:452-615 | In every orderly run the stored transcript only grows by suffixes, up to apply marks. |
| `JobOrderly.RoundExtendsItsClaim` | backend/ai_gateway/handlers.py:97-169 | A round that commits extends exactly the transcript its run claimed. |
| `JobOutcomes.OutcomesStaySound` | backend/ai_gateway/jobs.py:632-779 | In every orderly run each outcome names a gated step, no step is decided twice and what is undone was applied. |
| `JobOutcomes.RecordOnlyGrows` | backend/ai_gateway/jobs.py:452-779 | In every run, orderly or not, no recorded outcome is ever dropped or changed and what is undone was recorded as applied before. |
| `JobSettling.SucceededIsDecided` | backend/ai_gateway/jobs.py:632-779 | In every orderly run in which no approval settles early, a SUCCEEDED row, whoever settled it, has every gated step of its whole transcript decided, quote drafts aside. |
| `JobSettling.SettledEarlyIff` | backend/ai_gateway/jobs.py:759-779 | In every orderly run an approval leaves an undecided step behind on a SUCCEEDED row if and only if it marks all of the latest round while an earlier round has such a step. |
| `JobSettling.ApprovalSettlesEarlyIff` | backend/ai_gateway/jobs.py:759-779 | The same for any row whose apply marks are recorded, quote drafts counted or not. |
| `JobSettling.ApprovalSettlesEarly` | backend/ai_gateway/jobs.py:759-779 | A row of two rounds that one approval settles with a window undecided. |
| `JobSettling.ApprovalWaitsForNothingIff` | backend/ai_gateway/jobs.py:759-779 | An approval leaves a row waiting with nothing to decide if and only if, before it, no earlier round has an undecided step, it applies every undecided step of the latest round, and a step of that round had been decided without an apply mark. |
| `JobSettling.ApprovalWaitsForNothing` | backend/ai_gateway/jobs.py:759-779 | A row of one declined and one approved window that stays waiting. |
| `JobSettling.StepRecordsMarks` | backend/ai_gateway/jobs.py:452-779 | Under every permitted event a step that carries an apply mark was recorded as applied. |
| `JobHazards.LateFaultLosesTurns` | backend/ai_gateway/handlers.py:183-213 | A first run that fails after its commit overwrites a follow-up. |
| `JobHazards.ReplayLosesTurns` | backend/jobs/repository.py:73-116 | Resending the first request over its failed run overwrites a retry. |
| `JobHazards.StaleWorkerLosesTurns` | backend/ai_gateway/jobs.py:452-476 | A worker past its lease commits over a later round. |
| `JobHazards.LateLeaseLossLosesTurns` | backend/jobs/repository.py:263-308 | A lease lost after the round is over settles another run's row, whose claim later writes an old transcript back. |
| `JobHazards.StaleApprovalLosesTurns` | backend/ai_gateway/jobs.py:759-779 | An approval stores the transcript it read before a follow-up committed. |
| `JobHazards.CanceledApprovalLosesTurns` | backend/ai_gateway/jobs.py:775-779 | An approval of a canceled row puts two rounds in flight; the second drops the first one's turns. |
| `JobHazards.CanceledRoundMayCommit` | backend/ai_gateway/jobs.py:775-779 | A canceled round commits after an approval revived its row. |
| `JobHazards.EachRuleIsNeeded` | backend/ai_gateway/jobs.py:452-779 | No rule of the discipline can be dropped: each one has a run that loses turns without it. |
| `UsageLedger.EarlierAttemptsFailed` | backend/ai_gateway/usage.py:87-107 | Along a key numbers count up and every attempt but the last failed unmeasured. |
| `UsageLedger.OneExchangePerKey` | backend/ai_gateway/usage.py:87-107 | At most one exchange of a key runs or was ever measured. |
| `UsageLedger.BeginKeepsNumbered` | backend/ai_gateway/usage.py:79-112 | `begin` keeps that order whatever it answers. |
| `UsageLedger.FinishKeepsNumbered` | backend/ai_gateway/usage.py:115-133 | `finish` keeps it too. |
| `UsageLedger.BudgetHolds` | backend/ai_gateway/usage.py:79-133 | Under a constant budget no month counts more than it, in whatever order exchanges begin and finish. |
| `UsageSummary.Ledger.Begin` | backend/ai_gateway/usage.py:79-112 | The reservation as rows are written: conflict, in progress, blocked with the owner's notice, or a new attempt. |
| `UsageSummary.Ledger.CountConsumed` | backend/ai_gateway/usage.py:97-98 | The two sums of the month: attempts that may have been paid and debited audits nothing measures. |
| `UsageSummary.Ledger.Finish` | backend/ai_gateway/usage.py:115-133 | Only a running exchange is finished. |
| `UsageSummary.CapacityIsConsumed` | backend/ai_gateway/usage.py:151-178 | The organization's capacity is exactly the sum `begin` checks. |
| `UsageSummary.PerUserCapacitiesAddUp` | backend/ai_gateway/usage.py:161-178 | Each person appears once, in order, and their capacities add up to the total. |
| `UsageSummary.BlockedIffEveryExchangeIsRefused` | backend/ai_gateway/usage.py:151-178 | Blocked means every priced exchange is refused; not blocked means a fresh one of one credit is not. |
| `UsageSummary.MemberBlockedImpliesRefused` | backend/ai_gateway/usage.py:151-178 | On a member's own summary blocked still means that every priced exchange is refused. |
| `UsageSummary.AnUnblockedMemberIsRefused` | backend/ai_gateway/usage.py:151-178 | But not the other way round: of two members who spent one and nine of ten credits neither reads blocked, and every priced exchange is refused. |
| `UsageSummary.MemberReadsTheirRow` | backend/ai_gateway/usage.py:151-178 | The totals a member reads are their row of the owner's summary. |
| `MeteringRecords.Account.Open` | backend/ai_gateway/service.py:257-290 | The first transaction of a call is the protocol's step: replay, entitlement, route, balance. |
| `MeteringRecords.Account.Admit` | backend/billing/holds.py:76-147 | Taking a hold: reuse, refuse or retain against the balance less what others hold. |
| `MeteringRecords.Account.FinishWithoutDebit` | backend/billing/holds.py:162-182 | Only an active hold is released, or left uncertain after a timeout. |
| `MeteringRecords.Account.Settle` | backend/ai_gateway/service.py:335-383 | Audit and debit are written together or not at all; then the hold settles. |
| `MeteringRecords.Account.SumHeld` | backend/billing/holds.py:67-73 | What active and uncertain holds of other keys retain. |
| `MeteringSafety.BusyKeyRefuses` | backend/ai_gateway/usage.py:87-96 | A key with an exchange under way or succeeded is refused by `begin`. |
| `MeteringSafety.SettleFindsNoAudit` | backend/ai_gateway/service.py:335-351 | The replay check repeated before the debit never finds an audit: no two calls of a key get that far. |
| `MeteringSafety.OnePayer` | backend/ai_gateway/service.py:305-333 | No two calls pay for one key at a time. |
| `MeteringSafety.SettleWritesBothOrNothing` | backend/ai_gateway/service.py:352-383 | A settlement writes its audit and its debit, or neither. |
| `MeteringSafety.StepKeepsSound` | backend/ai_gateway/service.py:235-383 | Attempts, payers, audits and books stay consistent under every event, rounds and rollbacks included. |
| `MeteringResults.EachKeyIsPaidOnce` | backend/ai_gateway/service.py:235-383 | Over every interleaving a key has at most one running exchange and one audit, each audit exactly one debit of its points, and no debit lacks its audit. |
| `MeteringResults.CreditsAreConserved` | backend/billing/wallet.py:38-116 | Balance, debits and expiries add up to what was granted, and the balance is never negative. |
| `MeteringResults.LaterCallsReplay` | backend/ai_gateway/service.py:136-168 | While an answered call's audit stands, a later call of the key reads that answer verbatim if its capability, tool and input are the same, a conflict otherwise, and nothing else changes. |
| `MeteringResults.AuditsAreNeverLost` | backend/ai_gateway/service.py:171-232 | What other connections read of the audits is never taken back. |
| `MeteringResults.SpentKeyIsNeverPaidAgain` | backend/ai_gateway/usage.py:92-96 | An exchange that succeeded and whose settlement did not stand is never asked, audited or debited again under its key. |
| `MeteringRollback.RolledBackKeysStayUnpaid` | backend/ai_gateway/service.py:352-383 | Over every run, each key the open round settled is spent and unpaid once that round rolls back, and stays so in every continuation. |
| `MeteringRollback.ARoundLeavesAKeyUnpaid` | backend/ai_gateway/service.py:235-383 | One such round from ten credits: a call settles in it, it rolls back, and the key is never paid again. |
| `MeteringHolds.ForeignStepTouchesOnlyItsHold` | backend/ai_gateway/service.py:280-310 | A step of a call whose key holds another request's exchange changes no exchange, audit, balance or other key's hold. |
| `MeteringHolds.ForeignCallChangesNothing` | backend/ai_gateway/service.py:257-310 | In every run such a call never pays and changes nothing but the hold of its key. |
| `MeteringHolds.NoMonthPassesTheBudget` | backend/ai_gateway/usage.py:97-104 | Over the whole protocol no month passes the budget: a settled exchange counts once. |
| `HoldCover.KeptHoldsCanPay` | backend/billing/holds.py:1-17 | In a run without expiries in which every settlement finds its own active and sufficient hold, an entitled settlement that does is answered. |
| `HoldKept.AdmissionOwnsIff` | backend/billing/holds.py:76-147 | An admitted call has a hold that covers it unless it reused a settled hold or a smaller one. |
| `HoldKept.HoldIsKept` | backend/billing/holds.py:76-223 | A call admitted with such a hold still has it when it settles, in every run in which nobody sweeps or releases its key's hold and no other call of the key releases it. |
| `HoldKept.UndisturbedRunsAreCalm` | backend/billing/holds.py:1-223 | When no two open calls share a key, caretakers leave the holds of open calls alone, no admission reuses the settled hold of an exchange that never succeeded and nothing expires, every settlement of the run finds its own hold. |
| `HoldKept.AdmittedCallsCanPay` | backend/billing/holds.py:1-17 | In every such run an entitled call that reaches its settlement is answered: what was admitted can be paid. |
| `HoldHazard.EachRuleIsNeeded` | backend/billing/holds.py:39-223 | For each of these rules, on arrivals, sweeps, releases, reuse and expiry, a run from ten credits that breaks it alone brings an entitled call, paid at the provider, to a settlement that is refused. |
| `HoldHazard.ASecondCallCanTakeTheHold` | backend/ai_gateway/service.py:305-310 | The run that breaks only the rule on arrivals: a second call of the key releases the first one's hold, a third is admitted on it and the first, paid at the provider, is refused. |
| `HoldHazard.TheHoldIsReused` | backend/billing/holds.py:76-223 | The run that breaks only the rule on reuse: a timed-out exchange reconciled as paid leaves a settled hold, the same call sent again takes it, and another call is admitted on the credits it does not retain. |
| `Origins.ComputeFolded` | backend/ai_gateway/origins.py:40-50 | The folding loops give the folded text and where each folded character came from. |
| `Origins.FoldedConcat` | backend/ai_gateway/origins.py:40-50 | Folding a concatenation folds its parts and shifts the origins. |
| `Origins.FindSpan` | backend/ai_gateway/origins.py:57-70 | The search over sources gives the first one that has the words, and the span the match maps back to. |
| `Origins.LocateIsSound` | backend/ai_gateway/origins.py:57-70 | A located span is in range, quotes its source, folds to a text that has the cited words in order, and no earlier source has them. |
| `Origins.LocatedWordsAreTheCited` | backend/ai_gateway/origins.py:57-70 | When no character folds to several, the span has exactly the cited words. |
| `Origins.LiteralSlicesAreLocated` | backend/ai_gateway/origins.py:57-70 | Every literal slice of at most 400 characters that folds to some word is located. |
| `OriginBinding.Measures` | backend/ai_gateway/origins.py:80-102 | The set of values a phrase states is exactly what its numbers can mean. |
| `OriginBinding.ComputeClauses` | backend/ai_gateway/origins.py:148-161 | The loops over segments, cuts and runs list the runs of every segment, in order. |
| `OriginBinding.ClausesAreTheRuns` | backend/ai_gateway/origins.py:148-161 | A span is listed if and only if it is a run of pieces of some segment. |
| `OriginBinding.ClausesStayInside` | backend/ai_gateway/origins.py:148-161 | Every clause is a piece of the text. |
| `OriginBinding.StrippedIsFoundInPlace` | backend/ai_gateway/origins.py:171-176 | Looking for the stripped clause in its segment finds it where stripping left it. |
| `OriginBinding.FindOrigin` | backend/ai_gateway/origins.py:164-177 | The search over all sources keeps the best offer. |
| `OriginBinding.ShortestIsFirst` | backend/ai_gateway/origins.py:164-177 | The best is the first of the shortest offers, and there is none exactly when nothing offers. |
| `OriginBinding.OffersSupport` | backend/ai_gateway/origins.py:118-131 | Every offer is a literal piece of a source that passes the check. |
| `OriginWindows.BindOrigins` | backend/ai_gateway/origins.py:180-211 | The loop over operations splits them into kept, origins and refused. |
| `OriginWindows.BindKeepsOrder` | backend/ai_gateway/origins.py:180-211 | The kept operations are the originals without their citation, in order, and each other one is a refused window, in order. |
| `OriginWindows.EveryWindowIsJudgedOnce` | backend/ai_gateway/origins.py:180-211 | Each proposed window is kept with one origin or refused, once. |
| `OriginWindows.BindIsSound` | backend/ai_gateway/origins.py:118-211 | Origins name kept windows at strictly increasing places, and each phrase is a literal slice that states the window's width, height and quantity. |
| `OriginWindows.UncitedIsRefusedIffNothingStatesIt` | backend/ai_gateway/origins.py:164-205 | A window without citation is refused exactly when no clause states it. |
| `OriginWindows.AttachOrigins` | backend/ai_gateway/origins.py:225-250 | The prefix sums and the lookups, with Python's indexing. |
| `OriginWindows.OriginsFindTheirWindows` | backend/ai_gateway/origins.py:214-250 | When the preview appends each operation's windows in turn, every origin is bound to the very window its operation created. |
| `OriginWindows.AttachIsConservative` | backend/ai_gateway/origins.py:225-250 | When no operation counts negative, attaching never fails, binds distinct origins to distinct places, and binds none when the counts differ. |
| `OriginWindows.BindAligns` | backend/ai_gateway/origins.py:180-250 | What `bind` leaves is what `attach` expects. |
| `OriginWindows.AttachFailsIff` | backend/ai_gateway/origins.py:225-250 | Attaching fails if and only if the totals agree and the counts before some origin's operation add up to a place outside the list, from its start or from its end. |
| `OriginWindows.ValidatedNeverFails` | engine/src/dekopen_engine/design_operations.py:262-272 | On operations that passed the registry, whose counts are one to a hundred, that never happens. |
| `OriginWindows.ANegativeCountLosesAWindow` | backend/ai_gateway/origins.py:214-250 | Without that validation a negative duplicate count would make the lookup leave the list. |
| `NumberScanner.EveryNumberIsFound` | backend/ai_gateway/origins.py:25-29 | The left-to-right search that goes on past each match lists exactly the numbers that start somewhere. |
| `NumberScanner.NumbersDoNotOverlap` | backend/ai_gateway/origins.py:25-29 | No number starts inside another one or its unit. |
| `NumberEdges.NumberSurvivesIff` | backend/ai_gateway/origins.py:25-29 | A number of a piece of a text is that number of the text if and only if no digit or decimal mark stands before a number at its start, the digits do not go on behind it, by a digit or by a mark with decimals, and no other unit follows it. |
| `NumberEdges.WordSurvivesIff` | backend/ai_gateway/origins.py:105-110 | A word of a piece is a word of the text if and only if no letter stands next to it there. |
| `NumberEdges.MeasuresMove` | backend/ai_gateway/origins.py:80-102 | What a piece whose numbers have such edges states the text states. |
| `NumberEdges.CountsMove` | backend/ai_gateway/origins.py:105-110 | So with the quantities, in digits or in words. |
| `NumberEdges.ClausesAreIntact` | backend/ai_gateway/origins.py:148-161 | A stretch between characters that fold to no letter, with neither digit nor decimal mark before it and neither digit, letter nor a mark with a digit behind it, as a clause that ends at a comma or a full stop, has such edges if no unit follows. |
| `NumberEdges.WordsAreIntact` | backend/ai_gateway/origins.py:57-70 | So has a stretch between whitespace. |
| `OriginEdges.CitedWordsAreWholeIff` | backend/ai_gateway/origins.py:57-70 | For every located match of the folded source: it has exactly the cited words, and they are whole words of the source if and only if whitespace or an end of the text stands on both its sides. |
| `OriginEdges.SpanIsCleanIffWordsAreWhole` | backend/ai_gateway/origins.py:57-70 | Where each character folds to one, the span in the source has clean edges exactly then. |
| `OriginEdges.CleanPhrasesAreStated` | backend/ai_gateway/origins.py:118-131 | For any reader that looks at words only, a window kept with a phrase between whitespace has measures and a quantity its source states. |
| `OriginEdges.IntactPiecesAreLocal` | backend/ai_gateway/origins.py:80-110 | What the module's own scanner reads in a piece with such edges it reads in the text. |
| `OriginEdges.BoundWindowsAreStated` | backend/ai_gateway/origins.py:1-211 | Every window `bind` keeps with a phrase, cited or found, whose numbers and count words have clear edges has the width, height and quantity its source states. |
| `OriginEdges.AWindowNobodyAskedFor` | backend/ai_gateway/origins.py:57-211 | From a source that says 120x150, `bind` keeps a window 15 mm high with the phrase «Ventana 120x15»; the source states no such height. |
| `OriginEdges.AUnitMayBeCutOff` | backend/ai_gateway/origins.py:25-29 | A phrase between whitespace that stops before «cm» reads 120 mm where the source says 120 cm. |
| `Attachments.Extract` | backend/ai_gateway/attachments.py:167-184 | The longest prefix of parts within the limit is kept; the rest is counted and named, up to 200. |
| `Attachments.WireParts` | backend/ai_gateway/attachments.py:364-427 | The loop over files stops at a changed hash and otherwise gives the greedy selection. |
| `Attachments.SendOne` | backend/ai_gateway/attachments.py:386-422 | The loops over one file's texts and pages under the three budgets. |
| `Attachments.BudgetsAreNeverExceeded` | backend/ai_gateway/attachments.py:378-422 | What is sent of all files together stays within 120000 characters, 12 images and 12 MiB. |
| `Attachments.ManifestCoversEveryFile` | backend/ai_gateway/attachments.py:384-427 | Each thing of each file is sent or declared, once, and the parts on the wire are the ones declared sent. |
| `Attachments.CompleteIffAllWasSent` | backend/ai_gateway/attachments.py:423-426 | A file is complete exactly when extraction left nothing out and all of it was sent. |
| `Attachments.NothingSkippedWouldStillFit` | backend/ai_gateway/attachments.py:386-422 | Nothing skipped of a readable file would fit what is left of the budgets. |
| `Timeline.PageIsTheTrueTop` | backend/ai_gateway/threads.py:240-269 | Merging two tops of limit + 1 gives the true top of both tables below the cursor, and the next cursor exactly when there is more. |
| `Timeline.RestOfHistory` | backend/ai_gateway/threads.py:240-269 | Below a page's last entry stands exactly the rest. |
| `Timeline.AWalkListsEverythingOnce` | backend/ai_gateway/threads.py:240-269 | Walking to the end lists every entry once, strictly descending, for any page size. |
| `Timeline.ArrivalsAboveDoNotDisturb` | backend/ai_gateway/threads.py:240-269 | Entries arriving above the cursor leave the pages below it as they are. |
| `Cursor.Base64RoundTrips` | backend/ai_gateway/threads.py:64-79 | Decoding the encoded bytes gives them back for every length modulo three. |
| `Cursor.PaddingReturns` | backend/ai_gateway/threads.py:64-79 | The padding put back is the padding stripped. |
| `Cursor.CursorRoundTrips` | backend/ai_gateway/threads.py:64-79 | A cursor decodes to the pair it was made of. |
| `Cursor.CursorsAreDistinct` | backend/ai_gateway/threads.py:64-79 | Two pairs never share a cursor. |
| `Cursor.DecodedIsAccepted` | backend/ai_gateway/threads.py:69-79 | What decodes is a moment and an identifier the platform accepts, the moment without a bar. |
| `UndoAll.Workshop.FindItems` | backend/ai_gateway/undo_all.py:20-38 | The standing operations of the job, newest first. |
| `UndoAll.Workshop.UndoItems` | backend/ai_gateway/undo_all.py:97-105 | The chain loop stops at the first refusal. |
| `UndoAll.Workshop.RestorePreferences` | backend/ai_gateway/undo_all.py:106-116 | Preferences still as saved go back; changed ones stay. |
| `UndoAll.Workshop.UndoAll` | backend/ai_gateway/undo_all.py:89-128 | The whole call: chain, preferences, record, draft. |
| `UndoAll.ChainStopsAtTheFirstRefusal` | backend/ai_gateway/undo_all.py:97-105 | What was undone is a newest-first run and the next item was refused. |
| `UndoAll.TheCallReturnsToTheStart` | backend/ai_gateway/undo_all.py:89-128 | When nobody edited the projects after the job, the whole call gives every project back its value from before the job, whatever the order of its operations, and keeps no operation. |
| `UndoAll.TheCallUndoesEverything` | backend/ai_gateway/undo_all.py:89-128 | With the preferences as the job left them too, nothing is kept, the preferences go back to before the first and nothing stands afterwards. |
| `UndoAll.TheCallLeavesEdits` | backend/projects/project_ops.py:408-411 | When somebody edited a project before any number of the job's newest operations, none of them included, the call undoes exactly these and perhaps other projects' older ones, never the older operation the edit put out of date; the project keeps exactly the value the edit left, something is counted as kept and the created draft stays. |
| `UndoAll.PreferencesReturnToTheStart` | backend/ai_gateway/undo_all.py:106-116 | Preferences saved one over the other go back to before the first. |
| `UndoAll.EntriesUndoWhatWasApplied` | backend/ai_gateway/undo_all.py:116-122 | Every entry undoes a step recorded as applied and not undone: what the job protocol asks. |
| `UndoAll.ASecondCallUndoesNothing` | backend/ai_gateway/undo_all.py:89-128 | After an answer that kept nothing a second call changes nothing. |
| `UndoAll.DraftGoesOnlyEmpty` | backend/ai_gateway/undo_all.py:67-86 | The created work goes exactly when nothing was kept and it is an empty, unreferenced draft. |
| `Postconditions.ProjectOpsCheck` | backend/ai_gateway/postconditions.py:30-75 | Passes if and only if an injective choice of saved windows fulfils the new ones, removed ones are gone and edited ones are there with their quantity. |
| `Postconditions.EnoughIsWindows` | backend/ai_gateway/postconditions.py:45-58 | Counting enough windows of each look is having distinct windows for all. |
| `Postconditions.BuildReceipt` | backend/ai_gateway/postconditions.py:84-226 | The loops and flags give the outcome. |
| `Postconditions.CompleteHasNothingBlockedOrOpen` | backend/ai_gateway/postconditions.py:178-209 | Complete means no blocked step, no open question, no partly read file, and settled steps except those waiting in a drafting run. |
| `Postconditions.CompleteExactly` | backend/ai_gateway/postconditions.py:178-209 | Among runs that change something, exactly when complete is said. |
| `Postconditions.CompleteMayWait` | backend/ai_gateway/postconditions.py:166-209 | A drafted change nobody decided leaves the run complete. |
| `Postconditions.CompleteMayLackItsWork` | backend/ai_gateway/postconditions.py:96-104 | So does a created work that cannot be read again. |
| `Providers.Session.Request` | backend/ai_gateway/providers.py:301-336 | One request tries each address at most once, in order, after a failed connection only, each with the time left. |
| `Providers.Session.Invoke` | backend/ai_gateway/providers.py:427-460 | The retry loop ends; requests, waits, timeouts and total backoff stay within their bounds. |
| `Providers.BackoffIsSmall` | backend/ai_gateway/providers.py:456 | Two retries wait at most three quarters of a second. |
| `Providers.NoAddressTwice` | backend/ai_gateway/providers.py:312-336 | Two sends of one request go to different addresses and the earlier one could not connect. |
| `Providers.SendsAreBounded` | backend/ai_gateway/providers.py:301-460 | Sends are at most requests times addresses. |
| `QueryBudget.Queries` | backend/ai_gateway/agent.py:596-661 | One batch: at most the limit, each key spent once, only queries whose references were shown before. |
| `QueryBudget.EngineTools.Call` | backend/ai_gateway/engine_tools.py:120-164 | Cache, budget and validation calls, with what each leaves behind. |
| `QueryBudget.Run.Prime` | backend/ai_gateway/agent.py:1024-1032 | The two looks before the first round spend the same budget. |
| `QueryBudget.Run.Round` | backend/ai_gateway/agent.py:1166-1204 | A round keeps queries plus calls within the budget and every execution grounded and unique. |
| `QueryBudget.Run.Work` | backend/ai_gateway/agent.py:1041-1227 | So do all rounds together. |
| `QueryBudget.BatchIsGrounded` | backend/ai_gateway/agent.py:596-661 | Every reference a batch carried out was shown before it. |

## Left out

- The columns of `ai_jobs` that no guard reads: plan, warnings, artifacts, result, receipt, error code, timestamps.
- HTTP, serializers, rate limits, row-level security, roles and claims: a request that fails them writes nothing.
- `create_failed_job` and the synchronous first request: the model starts from the submitted, queued job.
- The run queue's renewals and back-off times: a lease is held, lost or over; when it is lost is the environment's choice.
- Within one commit the model has one step: the three statements of a claim, or the read and the flip of a follow-up,
  are not interleaved, because the row lock or the guarded update serializes them.
- Prompts, grounding of numbers, artifacts and warnings of a round: they decide what a draft contains, which the model
  takes as any draft.
- Credit lots and plan reconciliation: grants and expiries are arbitrary events that change the balance by ledger entries.
- Reserved input keys and source documents of `invoke`: they end a call before it writes anything.
- Two invocations of one agent round inside one transaction are modelled; savepoints inside a settlement are not, since
  a refused debit takes only its own audit back.
- Currency, token prices and `note` events of the usage ledger: they are written and never read by a decision.
- The regular expressions for sentences and clauses, the Unicode folding and whitespace tables: parameters. Of the
  sentence and clause patterns only their order and range are used. The number pattern is spelled out for ASCII digits
  and for the letters it lists, without the few other characters that equal them when case is ignored.
- JobProtocol's runs are this job's own. A key that names another job's run is modelled where the request is, in
  `FollowUps.PostMessage`; in the protocol such a message would leave the row QUEUED and add no run.
- `assumptions` and the reasons kept with an origin: labels computed from what is modelled.
- Reading formats (PDF, DOCX, XLSX), rendering pages and storage: a file is what its reader found.
- OriginWindows.OriginsFindTheirWindows: takes the preview's order of appended windows as given, because the preview
  engine is a program of its own.
- Attachments.ManifestCoversEveryFile: speaks of the lists before the manifest shortens them to 400 and 200 names.
- Thread listing (`list_threads`): the one-table case of the timeline page.
- Postconditions.BuildReceipt: gives the outcome, not the texts, objects and checks beside it.
- UndoAll.TheCallReturnsToTheStart: a project's state is one value; that restoring its positions restores it is the
  project service's.
- Providers.Session.Invoke: the body of a request, its signature and the parsing of its answer are any reply.
- QueryBudget.Run.Work: which projection or tool returns which references is any function of the query or call; that
  the model stops asking when a round brings no observation is left to the caller.
- Metrics, time saved and presence: they would add only easy members.
