# Credit, cancellation and selection logic: a verified model

This project models the parts of the system that move money and guard work,
and proves what they keep.

- **Credit bank** (`CreditPolicy`, `CreditRecords`, `CreditLifecycle`,
  `CreditAccounting`): prices, 30-day cycles, plans, grants, holds,
  settlement and the append-only ledger of one user. A call is a function
  from the user's rows to new rows and a receipt, or to an error; an error
  means the savepoint was rolled back. `CreditLoops` and the class
  `CreditStore.Store` are the same calls as loops and in-place updates, each
  proved equal to its specification.
- **What every run keeps** (`CreditInvariant`, `LifecycleInvariant`,
  `AccountingInvariant`, `SettlementInvariant`, `TerminalCalls`,
  `CreditHistory`): one invariant, kept by every call and so true of every
  reachable state: coherence of account, cycle and base grant; counters equal
  to ledger sums; holds equal to the allocations of held reservations; no
  credit on an expired grant; ledger shape and uniqueness; bounded balances.
  `FirstUse` starts from sign-up and shows that the guards can be passed, so
  the states the other theorems speak of exist; `WorkedRuns` has the single
  steps from which concrete runs are put together.
- **Reading the ledger** (`LedgerOrder`, `PunctualRuns`, `TiedInstants`): the
  comparison of the ledger with the grants, exactly when it can refuse, the
  runs on which it cannot, and a run on which it does.
- **Laws** (`CreditReplay`, `LazyRenewal`, `GreedyAllocation`,
  `SettlementLaws`, `HoldTotals`, `Admissions`, `GrantHistory`, `PlanChanges`,
  `UsageViews`, `ViewMeaning`, `HiddenView`): replay after any history,
  path-independent renewal, optimal allocation, conservation and commutation,
  when requests and commands go through and what they do, and the agreement of
  the writing and the non-writing read model.
- **Protocols on top** (`PromptProtocol`, `PromptBilling`, `OverrunRun`,
  `GenerationUsage`, `GenerationCredit`, `JobBills`, `JobStates`,
  `SuspensionSweep`, `JobCreation`, `MasterAdmin`): the two-transaction provider
  call and what it charges, the reservation shared by a pipeline's two jobs and
  what their end costs asset by asset, the cancellation sweep, the ways jobs
  are created, and audited administration.
- **Independent cores**: the write-ahead budget ledger (`BudgetLedger`,
  `BudgetWorstCase`), the migration lineage (`SchemaLineage`) and the impact
  selector (`ImpactSelector`, `ImpactMeaning`).

Time is an integer number of microseconds, amounts are integers with the
bound 2^63-1 written out, rows are identified by their position in tables
that never shrink, and a random row id appears only as a tie-breaking tag or
as the order in which the ledger is read.

Four findings about the code, each with a run that shows it and the exact
condition.

- A renewal that applies a pending downgrade can leave more requests held than
  the new plan allows, and the personal usage view then refuses
  (`HiddenView.DowngradeHides`). `UsageViews.ReadTotal` says exactly when the
  view exists.
- The sweep leaves a job's reservation to its parent when the parent has failed.
  The runner can mark a pipeline's parent failed without a credit call
  (`backend/app/services/jobs/runner.py:347-372`); a suspension then cancels the
  child and the shared hold stays held
  (`JobCreation.RunnerFailureStrandsHold`). `SuspensionSweep.NothingLeftHeld`
  is the exact condition: nothing stays held exactly when every earlier failure
  of a parent had closed its reservation, which the job handlers see to
  (`JobCreation.PaidSuspension`).
- The comparison of the ledger with the grants adds deltas up by time with ties
  in random order, so several large holds of one instant can overflow a running
  total although every balance is in range, and a held reservation can then not
  be released (`TiedInstants.TiesDecide`). `LedgerOrder.PassesExactly` is the
  exact condition; with ties in the order of writing the comparison never
  refuses (`PunctualRuns.WrittenOrderPasses`).

- The compensating release of a prompt reports the provider's tokens, and a
  release refuses usage above the reservation just as a settlement does. When
  the provider reports more tokens than were reserved, both are refused and the
  credit stays held (`OverrunRun.OverrunHappens`). `PromptBilling.StoredWhen`
  says exactly when an answer is stored, and `PromptBilling.OverrunStays` that
  nothing closes such a reservation later.

A remark on the sweep's rule, not on any input the code can receive: its test on
parents looks one level up, so on a chain of three waiting jobs it would cancel
the last one and leave the middle one pending
(`SuspensionSweep.ChainOfThreeStrandsParent`, with the exact condition in
`ChildrenFollowParents`). No way of creating jobs makes such a chain
(`JobCreation.CreatedJobsLinked`).

## Model

| member | source | states |
|---|---|---|
| CreditPolicy.BoundsTile | backend/app/credit_policy.py:65-79 | 30-day cycles tile time from sign-up: an instant has the bounds of cycle i exactly when it lies in cycle i |
| CreditPolicy.BoundsConstantOnCycle | backend/app/credit_policy.py:65-79 | every instant of a cycle, its start included, has that cycle's bounds |
| CreditPolicy.BoundsMonotone | backend/app/credit_policy.py:65-79 | later instants never have an earlier cycle index |
| CreditPolicy.QuoteLinear | backend/app/credit_policy.py:45-55 | a quote is linear in the units, and when a quote fits every smaller one fits and costs no more |
| CreditPolicy.PlansGrow | backend/app/credit_policy.py:30-36 | a meter is permitted exactly from its lowest plan up, and a higher plan permits more meters, grants more and allows more requests at once |
| CreditRecords.TotalsPermutation | backend/app/credit_accounting.py:207-220 | a grant's ledger total does not depend on the order in which events are read |
| CreditRecords.PostAllEffect | backend/app/credit_lifecycle.py:91-96 | recording events moves each grant's four counters by exactly the events' sums and appends exactly those events |
| CreditRecords.PostAllOutstanding | backend/app/credit_lifecycle.py:99-102 | the outstanding balance moves by the events' own outstanding amounts |
| CreditInvariant.InvCoherent | backend/app/credit_lifecycle.py:105-125 | in every state kept by the invariant the coherence check passes, and its base grant is the newest cycle's |
| LifecycleInvariant.PostedBook | backend/app/credit_accounting.py:221-226 | whatever events are posted, counters stay the sums of the ledger |
| LifecycleInvariant.PostedLedger | backend/app/credit_models.py:208-225 | well-shaped events under new keys keep the ledger's shape check and its uniqueness constraint |
| LifecycleInvariant.AgedBook | backend/app/credit_lifecycle.py:153-159 | expiry changes a grant exactly when it is due, by exactly what it had left |
| LifecycleInvariant.AgedCore | backend/app/credit_lifecycle.py:153-159 | expiry keeps the whole invariant: balances, holds, ledger, no resurrection |
| LifecycleInvariant.ClockGuardUnreachable | backend/app/credit_lifecycle.py:149-150 | the guard on a stored cycle ahead of the clock never fires once the clock has not gone back |
| LifecycleInvariant.EnsureKeeps | backend/app/credit_lifecycle.py:128-181 | renewal keeps the invariant and ends with the current cycle, its base grant and the clock in place |
| LifecycleInvariant.EnsureTotal | backend/app/credit_lifecycle.py:128-181 | from any reachable state renewal succeeds exactly when time is representable, has not gone back, and the balance bound holds for a new cycle |
| LifecycleInvariant.ChangePlanKeeps | backend/app/credit_lifecycle.py:231-263 | every plan change keeps the invariant and adds only its own key to the recorded commands |
| LifecycleInvariant.GrantBonusKeeps | backend/app/credit_lifecycle.py:266-294 | every bonus grant keeps the invariant and records its key |
| AccountingInvariant.PriorityDistinct | backend/app/credit_accounting.py:328-333 | the spending order lists every grant exactly once |
| AccountingInvariant.AllocateFits | backend/app/credit_accounting.py:334-346 | each allocation takes a positive amount the grant has, and no grant twice |
| AccountingInvariant.SortedEstimates | backend/app/credit_accounting.py:143-155 | sorting a valid request keeps it valid |
| AccountingInvariant.SortedLines | backend/app/credit_accounting.py:158-172 | sorting a valid usage report keeps it valid |
| AccountingInvariant.HoldCore | backend/app/credit_accounting.py:350-374 | placing a hold keeps the invariant |
| AccountingInvariant.AdmitKeeps | backend/app/credit_accounting.py:296-376 | admission keeps the invariant, adds exactly one held reservation and ends within the plan's request limit |
| AccountingInvariant.ReserveKeeps | backend/app/credit_accounting.py:271-376 | `reserve`, fresh or replayed, keeps the invariant |
| SettlementInvariant.ChargesWithinHold | backend/app/credit_accounting.py:451-455 | charges of distinct lines within their estimates never exceed the hold: the explicit comparison is redundant |
| SettlementInvariant.ChargesSucceed | backend/app/credit_accounting.py:435-450 | pricing lines that are within their estimates never overflows |
| SettlementInvariant.DischargeSucceeds | backend/app/credit_accounting.py:460-481 | handing a held reservation's allocations back never meets the under-reserved or overflow guard, and posts exactly the closing events |
| SettlementInvariant.NothingLeft | backend/app/credit_accounting.py:482-483 | nothing remains to be spent after the last allocation |
| SettlementInvariant.ClosedGrant | backend/app/credit_accounting.py:462-481 | per grant: the hold goes, what was spent is consumed, the rest is available again or, on an expired grant, expired |
| SettlementInvariant.ClosedCore | backend/app/credit_accounting.py:457-500 | closing a reservation keeps the whole invariant, no resurrection included |
| TerminalCalls.CloseTotal | backend/app/credit_accounting.py:414-501 | past the replay test a terminal call succeeds exactly when the reservation is held, the clock and the lines fit, and a settlement charges something |
| TerminalCalls.CloseEffect | backend/app/credit_accounting.py:457-501 | its effect and receipt, exactly |
| LedgerOrder.LedgerCheckPasses | backend/app/credit_accounting.py:207-226 | in any time order of the ledger, however ties come out, the comparison passes while the stated bounds per grant and instant hold |
| LedgerOrder.PassesExactly | backend/app/credit_accounting.py:207-226 | it passes for every order of ties exactly when, for each grant and instant, reserved deltas before the instant plus the raises at it stay within 2^63-1 and those before plus the reductions at it within the mirrored bound |
| LedgerOrder.RefusalIsOverflow | backend/app/credit_accounting.py:215-226 | a refusal is always the overflow of a running total and never a disagreement |
| PunctualRuns.PunctualTimely | backend/app/credit_accounting.py:207-226 | over every run whose calls each come later than all recorded events the bounds hold, however much was held and returned |
| PunctualRuns.PunctualRelease | backend/app/credit_accounting.py:261-268 | after such a run any held reservation can be released, whatever the order of reading |
| PunctualRuns.WrittenOrderPasses | backend/app/credit_accounting.py:207-226 | after every run of any calls the comparison passes on the ledger read in the order of writing |
| PunctualRuns.PatientPasses | backend/app/credit_accounting.py:208-209 | if no call goes back behind a recorded event, reading by time with ties in the order of writing is a faithful order and is never refused |
| TiedInstants.TiesDecide | backend/app/credit_accounting.py:208-220 | a run from sign-up after which one held reservation is refused release when ties come out one way and is released when they come out another way |
| TerminalCalls.TerminateKeeps | backend/app/credit_accounting.py:379-501 | `settle` and `release`, fresh or replayed, keep the invariant |
| TerminalCalls.HeldRelease | backend/app/credit_accounting.py:379-501 | with a fresh key and a clock that has not gone back a held reservation is released in full, unless the ledger comparison refuses |
| TerminalCalls.HeldCanBeReleased | backend/app/credit_accounting.py:261-268 | it is released for every order of ties exactly when the ledger's bounds per grant and instant hold |
| MasterAdmin.AdministerKeeps | backend/app/master_admin.py:159-182 | promotion, plan change and bonus keep the invariant: a master ends on the top plan with nothing pending |
| CreditHistory.SignedUpInv | backend/app/credit_lifecycle.py:133-139 | a user who has just signed up satisfies the invariant |
| CreditHistory.StepKeeps | backend/app/credit_accounting.py:242-268 | one call of any kind keeps the invariant |
| CreditHistory.RunKeeps | backend/app/credit_accounting.py:175-187 | every run of calls keeps it, failing calls being rolled back |
| CreditHistory.ReachableInv | backend/app/credit_lifecycle.py:62-75 | so every reachable state satisfies it |
| FirstUse.FirstCycle | backend/app/credit_lifecycle.py:133-181 | a new user's first call opens one cycle on the starting plan, its base grant, and the one ledger event that explains it |
| FirstUse.FirstReserve | backend/app/credit_accounting.py:271-376 | a new user's first request is admitted exactly when the starting plan permits its meters and its quote fits the plan's allowance |
| CreditReplay.RunExtends | backend/app/credit_accounting.py:276-285 | no run changes or loses a recorded reservation, command or audit |
| CreditReplay.ReserveReplay | backend/app/credit_accounting.py:276-285 | repeating a reserve after any history returns the original receipt and changes nothing; other estimates under the key are refused |
| CreditReplay.TerminateReplay | backend/app/credit_accounting.py:379-412 | the same for settle and release, whatever differs in a conflicting call; only the ledger comparison comes before that answer |
| CreditReplay.ChangePlanReplay | backend/app/credit_lifecycle.py:210-218 | the same for a plan change: another plan or a bonus under its key is refused |
| CreditReplay.GrantBonusReplay | backend/app/credit_lifecycle.py:210-218 | the same for a bonus: another amount, expiry, reason or a plan change under its key is refused |
| CreditReplay.AdministerReplay | backend/app/master_admin.py:124-128 | an audited command answers its repetition and refuses another actor, action or reason under its id |
| CreditReplay.ClosedForGood | backend/app/credit_accounting.py:427-428 | a reservation leaves `held` once; afterwards no call changes its row |
| LazyRenewal.ExpireAllTwice | backend/app/credit_lifecycle.py:153-159 | expiring at an earlier instant first changes nothing about expiring later |
| LazyRenewal.EnsureSpelledOut | backend/app/credit_lifecycle.py:128-181 | renewal, table by table: cycle, plan, pending plan and every grant |
| WorkedRuns.EnsureIdle | backend/app/credit_lifecycle.py:128-181 | bringing rows up to date twice at one instant changes nothing the second time |
| LazyRenewal.PathIndependent | backend/app/credit_lifecycle.py:128-181 | after a successful stop at an earlier time, renewing later shows the same plan, pending plan, cycle, held and available credit as renewing once, however many cycles were skipped |
| LazyRenewal.PathSameSuccess | backend/app/credit_lifecycle.py:160-178 | and it succeeds exactly when renewing once does |
| GreedyAllocation.GreedyTakesMost | backend/app/credit_accounting.py:334-346 | from grants that lead the order the walk takes all they have or all that is needed |
| GreedyAllocation.GreedyExact | backend/app/credit_accounting.py:334-348 | what is allocated is the request or everything available, whichever is less |
| GreedyAllocation.GreedyFeasible | backend/app/credit_accounting.py:336-346 | an allocation never takes more than a grant has |
| GreedyAllocation.GreedyOptimal | backend/app/credit_accounting.py:326-348 | for every deadline no other feasible allocation of the same total takes more from grants expiring by then |
| GreedyAllocation.SpentInOrder | backend/app/credit_accounting.py:328-346 | what the walk takes from each grant, exactly: what the grants before it leave uncovered, sooner expiry first, then the older, never-expiring last |
| GreedyAllocation.AdmitTotal | backend/app/credit_accounting.py:326-348 | past the other guards a reserve succeeds exactly when available credit covers the quote, and otherwise says the credit is exhausted |
| GreedyAllocation.NeverFromExpired | backend/app/credit_accounting.py:336-346 | the walk, which never tests expiry, takes nothing from an expired grant |
| Admissions.ReservePrice | backend/app/credit_accounting.py:296-326 | a reservation, fresh or replayed, is held for exactly the price of the estimates asked for |
| Admissions.ReserveTotal | backend/app/credit_accounting.py:271-348 | a new request is admitted exactly when the user is active and signed up, the rows can be renewed, and then the plan permits its meters and one more request, the ledger comparison passes and the credit covers the price |
| Admissions.ReserveRefusal | backend/app/credit_accounting.py:271-348 | and otherwise refused for the first reason in the order of the guards, a plan refusal before the request limit, both before the balance |
| Admissions.ReserveSpendsInOrder | backend/app/credit_accounting.py:326-372 | a new reservation is held, dated by the call, and allocated on each grant exactly what the grants to be spent before it leave uncovered |
| GrantHistory.RunKeepsGrants | backend/app/credit_lifecycle.py:128-294 | no run drops a grant or changes its kind, age or expiry, nor what a bonus granted |
| GrantHistory.BonusRaises | backend/app/credit_lifecycle.py:266-294 | a fresh bonus adds one grant with the command's amount and expiry and raises the available credit by its amount |
| GrantHistory.BonusOverRuns | backend/app/credit_lifecycle.py:266-294 | after every later run the bonus keeps its terms, its amount is split into available, held, consumed and expired, and nothing of it is available once the clock has reached its expiry |
| PlanChanges.ChangePlanMeans | backend/app/credit_lifecycle.py:231-263 | a fresh plan change is answered upgraded, scheduled, cancelled or unchanged exactly by the plan and the pending plan in force; plan, pending plan and credit afterwards |
| PlanChanges.ChangePlanTotal | backend/app/credit_lifecycle.py:231-252 | it goes through exactly when the user is active, a master stays on the top plan, the rows can be renewed and an upgrade's difference fits |
| PlanChanges.GrantBonusTotal | backend/app/credit_lifecycle.py:266-284 | a fresh bonus goes through exactly when its amount and expiry are valid, the user is active, the rows can be renewed and it fits |
| PlanChanges.DowngradeTakesEffect | backend/app/credit_lifecycle.py:160-178 | over every run that asks for no other plan, the plan in force at any later instant is the old one within the cycle of the downgrade and the new one from the next cycle on |
| PlanChanges.AdministerMeans | backend/app/master_admin.py:124-182 | a new audited command renews the account, does once what its action says (promotion with the top plan, plan change, bonus) and leaves its audit |
| SettlementLaws.SettlementConserves | backend/app/credit_accounting.py:457-483 | consumed plus released is the hold, and what is released splits into newly available and newly expired credit |
| SettlementLaws.TerminalCallsCommute | backend/app/credit_accounting.py:457-483 | terminal calls on two held reservations commute on every grant and on the ledger's contents |
| SettlementLaws.WholeCallsCommute | backend/app/credit_accounting.py:379-501 | whole first settle and release calls on two reservations commute: each order succeeds and leaves the same grants and reservations and the same ledger events |
| HoldTotals.HeldAgrees | backend/app/personal_usage.py:215-218 | credit held by grants equals credit held by reservations |
| HoldTotals.BalancesBounded | backend/app/credit_lifecycle.py:99-102 | available plus held stays within 0..2^63-1 and every grant's counters are storable |
| HoldTotals.ExpiresOnce | backend/app/credit_models.py:213 | each grant has at most one expiry event, although its key carries no cycle number |
| UsageViews.GrantTotals | backend/app/personal_usage.py:129-142 | available and held totals exist exactly when every grant is in range and both sums are |
| UsageViews.ReservationTotals | backend/app/personal_usage.py:145-151 | the held count and total exist exactly when every row is held and in range and the sum is, and are the count and the sum |
| UsageViews.UsageTotals | backend/app/personal_usage.py:154-174 | per-meter and overall totals exist exactly when nothing undelivered was charged and every running sum fits, and are the sums |
| UsageViews.ReadTotal | backend/app/personal_usage.py:215-227 | after a successful renewal the view exists exactly when the held requests are within the plan in force at that time and the usage sums of the cycle fit |
| ViewMeaning.ViewMeans | backend/app/personal_usage.py:177-242 | when the view exists it shows the plan, pending plan, bounds, credit and charge of the projection, the held requests counted one by one within the plan's limit, its allowance, and per meter what ended within the cycle; reading leaves the renewed rows |
| ViewMeaning.ReadTables | backend/app/personal_usage.py:183-242 | the reading in place: three loops and the comparisons between them give the specified view or the refusal |
| ViewMeaning.ReadUsage | backend/app/personal_usage.py:177-242 | `read_personal_usage` under its savepoint: the specified view and renewed rows, or the old rows |
| UsageViews.DowngradeHidesView | backend/app/personal_usage.py:217-218 | a due downgrade below the number of held requests makes the view unavailable |
| HiddenView.DowngradeHides | backend/app/personal_usage.py:217-218 | a run from sign-up that gets there: upgrade, two requests, downgrade asked for, next cycle |
| UsageViews.ProjectUser | backend/app/master_read.py:67-98 | the projecting loop computes the projection, and refuses exactly when it is not projectable |
| UsageViews.ProjectionTotal | backend/app/master_read.py:72-93 | in reachable states the projection exists for every representable time not before the account's clock |
| UsageViews.ProjectionAgrees | backend/app/master_read.py:67-98 | the projection shows, without writing, the plan, pending plan, bounds, available and held credit that a successful renewal would show |
| UsageViews.ChargedAgrees | backend/app/master_read.py:123-135 | and the charged amount given to it is the one the personal view shows |
| CreditLoops.NormalizedEstimates | backend/app/credit_accounting.py:143-155 | the input loop accepts exactly the valid requests and sorts them |
| CreditLoops.NormalizedUsage | backend/app/credit_accounting.py:158-172 | the same for usage reports |
| CreditLoops.LedgerCoherent | backend/app/credit_accounting.py:207-226 | the running-total loop decides the ledger comparison with the source's error |
| CreditLoops.QuoteAll | backend/app/credit_accounting.py:318-325 | the quoting loop stops at the first refusal and otherwise prices every line |
| CreditLoops.AllocateGreedily | backend/app/credit_accounting.py:334-346 | the loop over grants in spending order computes the greedy allocation and what is left uncovered |
| CreditLoops.ChargeAll | backend/app/credit_accounting.py:435-450 | the pricing loop stops at the first refusal and otherwise records every line |
| CreditStore.Store.ExpireDue | backend/app/credit_lifecycle.py:153-159 | in-place expiry posts exactly the due expiry events and refuses an overspent grant |
| CreditStore.Store.EnsureRows | backend/app/credit_lifecycle.py:128-181 | the in-place renewal ends in the specified rows or with the specified error |
| CreditStore.Store.Ensure | backend/app/credit_lifecycle.py:190-195 | `ensure_cycle` with its savepoint: the specified step, the old rows on error, the invariant kept |
| CreditStore.Store.SwitchPlan | backend/app/credit_lifecycle.py:231-263 | `change_plan` in place: the specified step and receipt, the old rows on error |
| CreditStore.Store.AddBonus | backend/app/credit_lifecycle.py:266-294 | `grant_bonus` in place: the specified step and receipt, the old rows on error |
| CreditStore.Store.MakeReservation | backend/app/credit_accounting.py:242-248 | `reserve` in place: the specified step and receipt, the old rows on error |
| CreditStore.Store.DischargeRows | backend/app/credit_accounting.py:457-481 | the discharge loop updates grants and ledger together and stops at the first refusal |
| CreditStore.Store.SettleReservation | backend/app/credit_accounting.py:251-258 | `settle` in place: the specified step and receipt, the old rows on error |
| CreditStore.Store.ReleaseReservation | backend/app/credit_accounting.py:261-268 | `release` in place: the specified step and receipt, the old rows on error |
| CreditStore.Store.Execute | backend/app/master_admin.py:124-182 | audited credit commands in place: the specified step, the old rows on error |
| PromptProtocol.StepMoves | backend/app/credit_accounting.py:271-376 | a credit call leaves the reservations alone, opens one, or closes the one it names |
| PromptProtocol.NextKeeps | backend/app/prompt_credit.py:145-295 | every step of every task, and every unrelated credit call, keeps the protocol invariant |
| PromptProtocol.AtMostOneCall | backend/app/prompt_credit.py:161-203 | each (user, request) reaches the provider at most once over all interleavings, retries and crashes |
| PromptProtocol.RowIffSettled | backend/app/prompt_credit.py:252-264 | a user's enhancement row exists exactly when that user's reservation for the request is settled |
| PromptProtocol.AnswersAreStored | backend/app/prompt_credit.py:92-105 | an answered task has a stored row of its own user and payload |
| PromptProtocol.LostCommitStands | backend/app/prompt_credit.py:252-288 | once the second transaction took effect, row and settlement stay, even when its commit was reported as failed |
| PromptProtocol.CompensationInert | backend/app/prompt_credit.py:119-142 | the compensating release shares the terminal key, so after such a commit it changes nothing |
| PromptProtocol.RetryInert | backend/app/prompt_credit.py:180-192 | a retry of a request that was ever reserved changes nothing and makes no provider call |
| PromptBilling.NextBilled | backend/app/prompt_credit.py:145-295 | every step of every task, and every unrelated credit call, keeps charges and provider answers together |
| PromptBilling.StoredAnswerIsBilled | backend/app/prompt_credit.py:108-116 | after every run a stored answer's reservation is settled for 1000 per input and 4000 per output token the provider reported, with these tokens on record on these meters |
| PromptBilling.EndIsBilled | backend/app/prompt_credit.py:205-288 | however a prompt reservation ended, it ended as the provider's answer says: charged only for a usable one, otherwise given back uncharged for the reason at fault |
| PromptBilling.AdmitHolds | backend/app/prompt_credit.py:161-185 | the first transaction reserves the stated maxima of input and output tokens at their price, one item each |
| PromptBilling.StoredWhen | backend/app/prompt_credit.py:252-275 | with no row yet, the answer is stored exactly when the commit takes effect, the ledger comparison passes, the hold is open, and the tokens are some and no more than reserved |
| PromptBilling.RepeatIsAnswered | backend/app/prompt_credit.py:92-105 | a request with a stored row is answered from it for its own user and payload, refused for others, and nothing else changes |
| PromptBilling.OverrunStays | backend/app/prompt_credit.py:262-288 | a reservation for which more tokens were reported than reserved is closed neither by the settlement nor by the compensation, whatever happens next |
| OverrunRun.OverrunHappens | backend/app/prompt_credit.py:161-288 | a run that gets there: one token more than reserved, both attempts made, the task done, and the credit held for good |
| GenerationUsage.PipelineMetersDiffer | backend/app/generation_credit.py:95-105 | a pipeline's two estimates use different meters, so only the size of the numbers can make the request invalid |
| GenerationUsage.RoundHalfEven | backend/app/generation_credit.py:171 | rounding goes to the nearest millisecond, halves to even |
| GenerationUsage.CollectUsage | backend/app/generation_credit.py:151-175 | the asset loop reports the summed units per meter in meter order, or the first refusal |
| GenerationUsage.ReportPrice | backend/app/generation_credit.py:151-175 | the report costs exactly what the assets cost one by one |
| GenerationUsage.ReportOrderIndependent | backend/app/generation_credit.py:151-175 | the report does not depend on the order of the assets |
| GenerationCredit.MetadataRoundTrip | backend/app/generation_credit.py:75-148 | written metadata reads back, leaves other parameters alone, and is removed by stripping |
| GenerationCredit.AdmissionReserves | backend/app/generation_credit.py:106-124 | the receipt names the reservation made under the job's own key, with its total; it is new and held unless the call repeats an earlier one |
| GenerationCredit.AdmitJob | backend/app/generation_credit.py:91-124 | admission of one job in place: that reservation, its receipt and metadata naming it, or nothing changed |
| GenerationCredit.AdmitPipeline | backend/app/generation_credit.py:91-124 | admission of a pipeline in place: one reservation, its receipt and metadata that pairs parent and child on it, or nothing changed |
| GenerationCredit.AdmittedOnce | backend/app/generation_credit.py:91-214 | from a fresh pipeline admission on, over every run of terminal calls on both jobs and unrelated calls, exactly one outcome takes effect on the reservation just made if it was closed and none otherwise |
| GenerationCredit.TerminalizeJob | backend/app/generation_credit.py:178-214 | terminal accounting in place does what is specified, or changes nothing |
| GenerationCredit.SettleTotal | backend/app/credit_accounting.py:251-258 | with a fresh key a settlement succeeds exactly when the ledger comparison passes, the hold is open, every line is within its estimate and something is charged |
| GenerationCredit.TerminalCost | backend/app/generation_credit.py:178-214 | an outcome that takes effect charges the price of what was delivered for a success or a pipeline's child, and nothing for a failed parent or single job; the rest returns |
| GenerationCredit.OneOutcome | backend/app/generation_credit.py:178-214 | over every run of terminal calls on both jobs and unrelated calls, exactly one outcome takes effect if the hold ended and none otherwise |
| GenerationCredit.ParentAloneHolds | backend/app/generation_credit.py:187-190 | while only the parent's success is reported, however often and with unrelated calls in between, the hold stays |
| JobBills.ChildBill | backend/app/generation_credit.py:178-214 | the end of a pipeline's child charges every asset of the parent and of the child by job id, none of other jobs, at the price of its model; delivered, partial or given back accordingly |
| JobBills.StandaloneBill | backend/app/generation_credit.py:178-214 | the end of a single job charges its own assets if it succeeded and nothing otherwise |
| JobBills.ParentBill | backend/app/generation_credit.py:187-214 | a parent's success leaves the hold and takes delivered assets, its failure gives everything back |
| JobBills.ChildTotal | backend/app/generation_credit.py:151-214 | with an unused key the end of a child goes through exactly when all assets of both jobs can be measured, the ledger comparison passes, the hold is open, and what is due is within it or nothing is due and the child failed |
| JobBills.AdmissionHolds | backend/app/generation_credit.py:58-124 | an admission holds the most its jobs can cost by their own parameters, image and video of a pipeline together |
| JobStates.TransitionAdvances | backend/app/state_machine.py:17-49 | every allowed transition moves to a later stage, except polling again, and never leaves a terminal state |
| JobStates.ExactlyForward | backend/app/state_machine.py:17-49 | the transitions, exactly: an unfinished job may fail, be cancelled, poll again, or move to the next stage or past an optional one |
| JobStates.CompletedPassesThrough | backend/app/state_machine.py:17-49 | a job that completes has been queued, generated and downloaded |
| JobStates.NeverReturns | backend/app/state_machine.py:69-97 | no job returns to a state it has left: a repeated state is an unbroken stretch of polling |
| JobStates.TerminalIsLast | backend/app/state_machine.py:10-12 | a terminal state ends a job's history |
| SuspensionSweep.Workshop.ScanPending | backend/app/master_work.py:37-47 | the scan finds the published jobs and reports busy exactly when there are more than 500 pending jobs or events |
| SuspensionSweep.Workshop.Choose | backend/app/master_work.py:51-62 | the choosing loop picks exactly the jobs to cancel, or refuses exactly when a waiting job's parent is missing or foreign |
| SuspensionSweep.Workshop.CancelUnpublished | backend/app/master_work.py:35-76 | the sweep in place: the specified jobs and credit calls, an outbox that follows the jobs, and the number of cancelled jobs, or nothing at all |
| SuspensionSweep.OutboxFollowsJobs | backend/app/master_work.py:72-76 | the outbox follows the jobs: events of cancelled jobs, none handed out, are withdrawn, all others are unchanged, a waiting event changes exactly when its job does, and the count is that of the cancelled jobs |
| SuspensionSweep.SweepWritesOff | backend/app/master_work.py:65-70 | what a sweep closes it gives back as cancelled before delivery or charges for what a parent had delivered; no other reservation changes |
| SuspensionSweep.SweepTransitions | backend/app/master_work.py:29-32 | only pending, unpublished jobs of the user change, by an allowed transition that keeps their history lawful |
| SuspensionSweep.ChildrenFollowParents | backend/app/master_work.py:55-62 | every cancelled child has a finished parent afterwards, exactly when no waiting job has a waiting parent that must itself wait |
| SuspensionSweep.DepthOneNeverChains | backend/app/master_work.py:55-62 | with parent chains of depth one that always holds |
| SuspensionSweep.SweepCloses | backend/app/master_work.py:65-70 | whatever the tables, a reservation is closed after the sweep exactly when it was before or the sweep made its call on a job naming it |
| SuspensionSweep.CancelledCallSucceeds | backend/app/master_work.py:69-70 | the call for a job that delivered nothing, with the hold open under an unused key, succeeds and releases everything exactly when the ledger comparison passes |
| SuspensionSweep.OneCallPerReservation | backend/app/master_work.py:65-70 | the sweep makes at most one terminal call per reservation |
| SuspensionSweep.DoomedClosed | backend/app/master_work.py:65-70 | a cancelled job's reservation is closed afterwards exactly when it was before or its parent had not failed or been cancelled earlier |
| SuspensionSweep.NothingLeftHeld | backend/app/master_work.py:65-70 | no cancelled job's reservation is held afterwards, exactly when every earlier failure of a parent had closed its reservation |
| JobCreation.NextKeeps | backend/app/api/generations.py:64-165 | every creation of a job, transition and unrelated call keeps jobs and reservations woven together: one fresh reservation per single job or pipeline |
| JobCreation.FreshAdmission | backend/app/generation_credit.py:106-116 | a new job's admission always makes a new reservation under the job's key |
| JobCreation.PipelineKeeps | backend/app/api/pipelines.py:29-97 | creating a pipeline adds a parent without a parent and its one child on the same new reservation, and keeps everything else woven together |
| JobCreation.CreatedJobsLinked | backend/app/api/generations.py:214-288 | after every history reservations are shared only within a pipeline, single jobs have completed parents and no parent has a parent |
| JobCreation.SuspensionAfterAnyHistory | backend/app/master_work.py:35-76 | a suspension at the end of any history cancels children only with finished parents, and leaves no hold of theirs exactly when failed parents had closed theirs |
| JobCreation.PaidSuspension | backend/app/services/jobs/handlers.py:184-201 | if every failure or cancellation of a pipeline's parent comes with its reservation closed, as the handlers do it, a suspension after any history leaves no hold of a cancelled job |
| JobCreation.RunnerFailureStrandsHold | backend/app/services/jobs/runner.py:347-372 | a history after which a suspension leaves a hold behind: the runner marks a pipeline's parent failed without a credit call |
| BudgetLedger.UpdatesKeepCost | evals/prompt_enhancement/run_vertex_pilot.py:312-326 | answers and status polls change neither the committed cost nor any count |
| BudgetLedger.NextKeeps | evals/prompt_enhancement/run_vertex_pilot.py:132-170 | every step, failed write, crash and restart keeps the ledger within policy and ahead of the file |
| BudgetLedger.SentOnceAndRecorded | evals/prompt_enhancement/run_vertex_pilot.py:142-165 | over every run a billable request is sent only after its event is in the file, and each step at most once |
| BudgetLedger.LimitsHold | evals/prompt_enhancement/run_vertex_pilot.py:219-238 | request, image and conservative-cost limits hold of the file after every run |
| BudgetLedger.AnswerIsRecorded | evals/prompt_enhancement/run_vertex_pilot.py:241-275 | an answer is recorded on the event in flight and on no other, and a written one is in the file |
| BudgetLedger.PollIsRecorded | evals/prompt_enhancement/run_vertex_pilot.py:276-310 | a poll refuses too many attempts and otherwise changes only the first generation with its id: attempts, charge, state and, once ended, time and failure code |
| BudgetWorstCase.NeverOverBudget | evals/prompt_enhancement/run_vertex_pilot.py:528-553 | after every run, whatever the recorded requests led to within the token, call-group, retry and image maxima costs no more than was committed and than the amount to stop at |
| BudgetWorstCase.CommittedIsTight | evals/prompt_enhancement/run_vertex_pilot.py:528-553 | and requests that use up every maximum cost exactly what was committed |
| BudgetLedger.StepNeverGrantedAgain | evals/prompt_enhancement/run_vertex_pilot.py:192-196 | a step in the file is never granted again, before or after a restart |
| BudgetLedger.BudgetedClient.Reserve | evals/prompt_enhancement/run_vertex_pilot.py:191-240 | the reservation in place: checked, recorded and written before it may be sent |
| BudgetLedger.BudgetedClient.RequestBillable | evals/prompt_enhancement/run_vertex_pilot.py:132-170 | a billable request is sent exactly when its reservation was written, and then recorded |
| BudgetLedger.BudgetedClient.UpdateGenerationStatus | evals/prompt_enhancement/run_vertex_pilot.py:276-310 | a status poll updates the first matching event if anything in it changed, the time of an ended job included, and refuses too many attempts |
| SchemaLineage.NoBranches | backend/app/schema_revision.py:31-36 | one root and one head leave no two revisions with the same parent (pigeonhole) |
| SchemaLineage.NeverSeenTwice | backend/app/schema_revision.py:40-44 | a walk from the only head never meets a revision twice, so that guard cannot fire and the walk ends |
| SchemaLineage.HeadUnique | backend/app/schema_revision.py:37 | a lineage has one newest revision |
| SchemaLineage.ReadParents | backend/app/schema_revision.py:10-30 | the file loop builds the parent map or refuses a malformed or repeated revision |
| SchemaLineage.ResolveRevision | backend/app/schema_revision.py:7-47 | a head is returned exactly when the parent map is a single linear chain, and it is the chain's last element |
| ImpactSelector.CanonicalChanges | qa/impact/selector.py:140-163 | the change loop refuses the first invalid or overlapping change and otherwise sorts |
| ImpactSelector.DeriveManifest | qa/impact/selector.py:176-268 | the selector's loops compute the derived manifest |
| ImpactMeaning.ManifestMeans | qa/impact/selector.py:176-268 | told from changes, registry and rules: when the classification is full, targeted or none, which scenarios are selected and why, what is unmatched, and the digests |
| ImpactSelector.OrderIndependent | qa/impact/selector.py:176-268 | the derived manifest does not depend on the order of the changes |
| ImpactSelector.Monotone | qa/impact/selector.py:219-232 | adding a valid change never deselects a scenario |
| ImpactSelector.UnmatchedForcesAll | qa/impact/selector.py:216-224 | one unmatched path selects every scenario and records the fallback rule |
| ImpactSelector.CountsFit | qa/impact/selector.py:330-333 | the number of selected scenarios is what the classification says |
| ImpactSelector.DerivedIsValid | qa/impact/selector.py:271-335 | every derived manifest passes the structural check and the full validation |
| ImpactSelector.ValidIffDerived | qa/impact/selector.py:357-368 | validation accepts exactly the manifests some list of changes derives |
| Strings.ListingSorted | qa/impact/selector.py:263 | a set's sorted listing is sorted and has no repetition |

## Left out

- Database sessions, SQL, row locks, timeouts and the busy errors: one user's rows are serialised by the user row lock, so every call is one atomic step.
- Identity and input typing: missing users, type checks, regular expressions of keys and reason codes, rate-card version strings, time zones. The model starts from normalised values.
- Row objects and aliasing: rows are values in sequence fields of a class, identified by position, so sharing of row objects between calls is not modelled.
- Operation keys: the callers' key prefixes are separate constructors, so keys of different callers never collide.
- Random ids: the ledger is read by time with ties in any order; ids are otherwise fresh.
- MasterAdmin.AdministerKeeps: suspension and reactivation change the user's status only (`CreditHistory.StepKeeps` covers that) and their audit rows are not modelled.
- CreditReplay.AdministerReplay: request ids are looked up among one account's own audit rows, where the source has one table for all accounts.
- CreditStore.Store.Execute: covers promotion, plan change and bonus, with one account's own audit rows; who may act, session revocation, reactivation and the last-master rule are not modelled.
- UsageViews.ProjectUser: takes the held and charged totals as given, as the source does, and leaves out the identity columns.
- PromptProtocol.NextKeeps: other calls of the program are assumed to leave prompt keys and prompt reservations alone; prompt texts, presets and the stored answer are one opaque payload.
- Admissions.ReserveRefusal: a renewal's own error is passed on as the source maps it; which errors a renewal has is stated in `LifecycleInvariant.EnsureTotal` only as when it succeeds.
- GrantHistory.RunKeepsGrants: base grants keep their terms too, but an upgrade raises what the current one granted.
- BudgetWorstCase.NeverOverBudget: the provider's use is bounded by the policy's own maxima; that it keeps to them is not modelled, except that a poll refuses too many attempts.
- GenerationUsage.RoundHalfEven: exact real arithmetic stands for floating-point seconds.
- GenerationCredit.OneOutcome: unrelated calls are assumed not to name the shared reservation or its terminal key.
- SuspensionSweep.NothingLeftHeld: assumes the user's jobs are linked to reservations the way admission links them, which `JobCreation.CreatedJobsLinked` proves of every history; jobs without credit metadata are free of that.
- JobCreation.NextKeeps: prompts, assets other than "the image job has completed", duplicate guards and the deletion of jobs are left out; the model allows every retry and image-to-video job the source allows.
- SuspensionSweep.Workshop.CancelUnpublished: runs the terminal calls against the suspended user's own rows; job error texts and timestamps are one flag.
- Pipeline linking, the job handlers, the runner and the outbox dispatcher: a job moves by any allowed transition, with or without a credit call.
- BudgetLedger.NextKeeps: one client process at a time; free requests, latency, token counts, the answer's own timestamps and the usage summary are left out, and decimal money is real arithmetic.
- SchemaLineage.ReadParents: starts from the top-level assignments of each file; parsing and the file system are not modelled.
- ImpactSelector.DerivedIsValid: the path check and the digest are parameters (any digest of 64 hexadecimal digits); JSON typing of a stored manifest and loading of the policy file are not modelled.
- Overview and audit queries, routers, authentication, evaluation statistics, seeds and the user interface: queries and plumbing without rules of their own.
