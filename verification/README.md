# Check Station: billing, store ownership, attendance and account addresses

This project models the parts of the Check Station backend in which several pieces of
state have to stay consistent over many calls, and proves what they keep.

* **Subscription lifecycle.** One workspace is an `Account`: the subscription row, the
  effective plan of the organization and the write-once free week. `BillingServices` gives
  every guarded transition as a function, `Reconciliation` the mapping of a provider
  snapshot onto them, `Workspace` the same code as methods that assign the row column by
  column. `BillingRuns`, `ReconciliationFixedPoint`, `BillingSweep` and `FreeWeekBatch`
  prove what holds over runs, repeated snapshots, sweeps and batches; `ReconciliationBlocks`
  what holds when a reconciliation breaks off. `BillingTimeline` says of every transition
  how the account goes on: until when it stays as it is, and what the first sweep from then
  on makes of it; `SnapshotOutcomes` says the same of a snapshot, status by status and
  branch by branch. `TenantResolution` is the search for the workspace a Stripe object
  belongs to.
* **Store deliveries.** `StoreEntitlements` and `StoreOwnership` are the Google and Apple
  entitlement code over all workspaces, `StoreDesk` the same code in place, and
  `StoreOutcomes` what a delivery entitles to, by state, date and kind of notice. `EventLease`
  is the fifteen-minute lease on notifications.
* **Checkout.** `CheckoutModel` cuts one checkout request where its transactions and
  provider calls end. `CheckoutProtocol` interleaves any number of requests with crashes,
  payments, expiries and webhooks; `CheckoutRetries` and `CheckoutPlanChange` prove the two
  promises of the protocol, `CheckoutStatuses` how finished attempts may still change, and
  `CheckoutLiveness` what a request that runs alone is answered, whichever of its calls fail;
  `CheckoutDesk` is the code itself, shown to take those steps. `CheckoutPurchase` leads
  from a paid session through the reconciliation to the plan in force.
* **Attendance.** `Attendance` computes the kiosk state from the log and studies the logs
  it lets through, `Kiosk` is the scan and the append. `ReportCalendar`,
  `AttendanceReport`, `ReportSections`, `ReportOrder` and `ReportBuilder` are the report,
  `ReportScope` what it shows of which records, read off the request and the tables,
  `ReportKeys` and `ReportTwins` the question which records share a row of it.
* **Accounts.** `EmailOwnership` is the ownership of addresses, `FailureThrottle` the lock
  after wrong two-factor codes.

A step that raises is a step too: its outcome carries the error and whatever it had
already stored. Times are integers (microseconds); only the throttle and the calendar
depend on the unit. One database transaction, or one write outside a transaction, is one
atomic step. A snapshot reconciliation has no transaction of its own, so there are three
forms of it: `SyncOrNothing` inside the webhook's transaction (an error rolls back),
`Sync` outside one and undisturbed, and its single blocks, between which a run may stop
or take any other step.

## What turned out not to hold

Each of these has a lemma with the exact condition or a concrete run.

* A second identical Google or Apple delivery is not always a no-op. The first may take the
  early return of an activation and then cancel or put into grace a row with stale columns;
  the second then rewrites the row in full. `GoogleRedeliveryIff`, `AppleRedeliveryIff` and
  `AppleNoticeRedeliveryIff` say exactly when, `ReplacementIsHalfWritten` and
  `CurrencyChangeIsHalfWritten` show that it happens, and the third delivery never adds
  anything to the second (`GoogleThirdDeliveryIsSecond`, `AppleThirdDeliveryIsSecond`). In
  the same code the branches that clear a cancellation or recover a payment after an
  activation can never be reached.
* One snapshot is not enough: an upgrade drops the cancel flag and keeps the interval
  (`UpgradeNeedsTwoDeliveries`), and a repeated ended snapshot leaves the source `stripe` on
  a row without a subscription (`RepeatedEndLeavesStripe`). Of a well-formed snapshot (its
  price is in the price table, and if it is active its period is ordered: `WellFormed`)
  three always are. Two are enough exactly unless Business is in force on a Plus row and a
  cancelling Plus snapshot finds that row held by a scheduled change, or confirms it with
  stale columns (`SecondDeliverySettlesIff`, `RedeliverySettles`, `ThirdDeliveryMayDiffer`).
  The second delivery raises although the first did not exactly if a held Business row under
  the plan Plus is cancelled. Neither happens where the effective plan is the paid plan
  (`MatchingPlansSettleAtTwo`). Of an active snapshot without an ordered period one delivery
  is enough, or the second is refused, exactly after an upgrade or a cancellation
  (`UnorderedSettlesIff`).
* Sweep timing matters if and only if a paid change falls due before the row's own deadline,
  or work that would set another plan falls due within the free week, which keeps the plan
  in force (`SweepTimingIrrelevantIff`). For a given pair of times an early sweep shows
  exactly if they straddle that deadline or the end of that week (`EarlySweepShowsIff`). The
  first case covers past-due rows, which lose their grace (`DueChangeEndsGrace`), and
  delayed rows with a change before the delay ends.
* The effective plan is justified only under the hypotheses in `Permitted`, each of them
  exact. An undisturbed reconciliation loses the plan's reason exactly if it is a downgrade
  in the free week, or one whose period is missing or not ordered: it writes the plan before
  the activation refuses the period (`SyncKeepsPlanIff`; `RefusedDowngradeLosesItsReason` is
  such an input, a settled Business workspace left on Plus). Inside a transaction the
  refused downgrade leaves nothing behind, so that only the free week remains
  (`WholeSyncKeepsPlanIff`). An active snapshot in the free week puts Plus in force exactly
  if it is priced Plus, and if the subscription then ends within the week, Plus stays in
  force without a reason (`PlusInFreeWeekLosesItsReason`). A denial of the free week
  separates plan and subscription exactly if something is paid (`DenialKeepsPlanIff`), a
  sweep exactly if a change of the interval alone falls due before the delay ends
  (`SweepKeepsPlanIff`).
* A reconciliation outside a transaction that breaks off right after it has written the
  downgraded plan leaves a plan without a reason, exactly unless the row is a paid Plus row
  already and the free week is over. Breaking off anywhere else keeps the reason, and taken
  to its end the reconciliation keeps it exactly unless it loses the plan as above
  (`BrokenOffKeepsPlanIff`). The next delivery of the snapshot finishes a downgrade that
  broke off (`BrokenOffDowngradeIsFinished`).
* Two checkout requests at the same time, for different plans, can leave two recorded
  sessions that can both be paid (`OverlappingRequestsLeaveTwo`). Paid and reconciled one
  after the other in one currency, they leave an account that names the second subscription
  only (`PaidTwiceKeptOnce`); in another currency the second is refused, and where it is an
  upgrade the first interval stays (`SecondPurchaseReplacesIff`). The hypothesis on payments
  between the status check and the expiry is not needed for requests one after another.
* A checkout attempt marked expired becomes open again exactly when a persist was still
  outstanding and no other attempt is active (`ReopensIff`, `ExpiredAttemptReopens`). A
  replaced attempt is completed exactly by a request that saw its session paid
  (`CompletesReplacedIff`, `ReplacedAttemptCompletes`). So only COMPLETED is final.
* Even alone and with nothing failing, a checkout request can be answered with a session that
  cannot be paid: exactly if an earlier request opened a session for the same attempt, did
  not come to record it, and it is not open any more (`RequestAloneIsAnswered`).
* A handler that outlives its lease turns a processed event back into a failed one
  (`OverrunReopensTheEvent`). Of all steps in any state, a settled event is taken back
  exactly by a failing handler that still holds it (`UnsettlesIff`).
* The documented limit on breaks per check-in cycle holds only before the first check-out of
  the reset window. Afterwards the break query is empty: breaks can be started without limit
  and never be ended. The computed state is wrong exactly if the window holds a check-out and
  a break was started since the last check-in (`MatchesFollowedStateIff`,
  `BreakLimitIsLostAfterCheckOut`). The logs the kiosk can write are exactly those of one
  disciplined stay, followed after a check-out by alternating moves with any number of
  break starts while checked in (`WholeLogIff`).
* `this_month` fails in December 9999 and `this_week` after 26 December 9999.
* Report rows of participants known only by their snapshot can merge. A record shares its row
  with a different snapshot, or with another class of the same one, exactly if its name or
  identifier holds a colon that no blank touches, or where classes are shown its class name
  ends in a bar and what reads as a class key; in a member's report over all groups every
  record shown with its class can, and every other whose identifier ends in `|unknown`
  (`SharedRowIff`, with the merging records in `ColonsMergeRows`, `BarsMergeRows`,
  `ClassesMergeRows` and `UnknownMergesRows`).
* A backup and a login change to the same address, both checked before either is saved, can
  put that address in force twice (`OverlappingRequestsCollide`).

## Model

| member | source | states |
|---|---|---|
| WorkspaceBilling.Workspace.RecordDeferredPaidStart | backend/billing/services.py:141-243 | Stores exactly the deferred start: refuses bad sales and running subscriptions, returns early on an equal row, else writes the delay window and no entitlement |
| WorkspaceBilling.Workspace.ActivatePaidSubscription | backend/billing/services.py:246-322 | Stores exactly the activation, with its early return for a confirmed row and Business kept in force during the free week |
| WorkspaceBilling.Workspace.ApplySuccessfulUpgrade | backend/billing/services.py:326-385 | Stores exactly the upgrade; only to a higher plan, columns the provider did not send keep their value |
| WorkspaceBilling.Workspace.ScheduleBillingChange | backend/billing/services.py:388-449 | Stores exactly the scheduled change, with its eight refusals in their order |
| WorkspaceBilling.Workspace.ScheduleCancel | backend/billing/services.py:469-492 | Stores exactly the cancellation at the given time or the end of access |
| WorkspaceBilling.Workspace.ClearPendingCancellation | backend/billing/services.py:495-511 | Drops a cancellation whose access has not ended; the pending interval stays stored |
| WorkspaceBilling.Workspace.ClearPendingScheduledChange | backend/billing/services.py:514-535 | Drops a scheduled paid change and nothing else |
| WorkspaceBilling.Workspace.MarkPaymentFailure | backend/billing/services.py:568-594 | Moves a paid row to past due with a grace deadline; refuses every other row |
| WorkspaceBilling.Workspace.RecordPaymentWarning | backend/billing/services.py:597-609 | Counts a warning inside the grace period only |
| WorkspaceBilling.Workspace.MarkPaymentRecovered | backend/billing/services.py:612-631 | Ends a payment failure and forgets its traces |
| WorkspaceBilling.Workspace.FinalizeSubscriptionEnd | backend/billing/services.py:634-674 | Ends the subscription unless it has ended already; Business survives while the free week runs |
| WorkspaceBilling.Workspace.ApplyDueBillingTransitions | backend/billing/services.py:678-761 | Does the one piece of due work that comes first in the order grace, delay, cancellation, change |
| WorkspaceBilling.Workspace.GrantBuiltinTrial | backend/billing/builtin_trial.py:105-135 | Grants the free week once; a second call changes nothing |
| WorkspaceBilling.Workspace.MarkIneligibleWithoutGrant | backend/billing/builtin_trial.py:138-161 | Records that the week was never granted and drops the plan to Basic |
| WorkspaceBilling.Workspace.ExpireDueBuiltinTrial | backend/billing/builtin_trial.py:164-215 | After the week: the paid plan, or still Business while the paid plan has not started, or Basic |
| WorkspaceBilling.Workspace.SetFuturePaidIntent | backend/billing/operations.py:581-653 | Stores a plan chosen during the free week without any subscription |
| WorkspaceBilling.Workspace.ClearFuturePaidIntent | backend/billing/operations.py:656-708 | Drops such a choice, and refuses once a provider bills the workspace |
| WorkspaceBilling.Workspace.RequestScheduleBillingChange | backend/billing/operations.py:485-543 | The owner's guards, among them no scheduling in the free week, before the change is stored |
| WorkspaceBilling.Workspace.ReconcileCurrentSnapshot | backend/billing/reconciliation.py:190-307 | The ordered branches for an active snapshot: keep, leave alone, downgrade, upgrade, activate |
| WorkspaceBilling.Workspace.ReconcileSubscriptionSnapshot | backend/billing/reconciliation.py:81-307 | The whole reconciliation with the writes an error leaves behind |
| WorkspaceBilling.Workspace.ClearDeferredTrialSelection | backend/billing/operations.py:276-307 | Reconciles the provider's answer to the cancellation, then ends the subscription |
| BillingRuns.RunsStayCoherent | backend/billing/services.py:73-674 | In every state reached by any interleaving of transitions, owner steps, reconciliations and single blocks of them the row is coherent: live implies paid plan, interval and source; past due implies a deadline; cancel flag iff pending Basic; pending time implies live; ordered delay window |
| BillingRuns.ReconcileKeepsCoherence | backend/billing/reconciliation.py:99-307 | A snapshot of any status keeps the row coherent, also when a later block raises |
| BillingRuns.EffectivePlanIsJustified | backend/billing/builtin_trial.py:105-215 | From a new workspace on, under `Permitted`, the plan is Basic, or the plan of a paid subscription, or Business in an unsettled free week; afterwards it equals the paid plan |
| BillingRuns.RunsStayEntitled | backend/billing/services.py:141-761 | The stronger invariant behind it, kept by every permitted step at non-decreasing times; a reconciliation of any snapshot is permitted exactly unless it loses the plan |
| BillingRuns.SyncKeepsPlanIff | backend/billing/reconciliation.py:99-307 | An undisturbed reconciliation of any snapshot keeps the guarantee exactly unless it downgrades in the free week, or downgrades with a period that is refused onto a row that is not paid Plus |
| BillingRuns.WholeSyncKeepsPlanIff | backend/billing/webhooks.py:260-262 | Inside a transaction it keeps it exactly unless it downgrades in the free week with an ordered period |
| BillingRuns.RefusedDowngradeLosesItsReason | backend/billing/services.py:268-269 | A concrete downgrade without a period: refused after the plan was written, and rolled back inside a transaction |
| BillingRuns.ClearedSelectionMayBeChosenAgain | backend/billing/operations.py:276-307 | Clearing a selection in the free week keeps Business in force and lets the owner choose again |
| BillingRuns.ActiveSnapshotInFreeWeek | backend/billing/reconciliation.py:232-253 | During the free week an active snapshot keeps Business exactly when it is not priced Plus |
| BillingRuns.PlusInFreeWeekLosesItsReason | backend/billing/reconciliation.py:232-253 | If the subscription then ends within the week, the plan is still justified exactly when the price was not Plus |
| BillingRuns.DenialKeepsPlanIff | backend/billing/builtin_trial.py:158-160 | Denying the grant keeps plan and subscription together exactly when nothing is paid |
| BillingRuns.SweepKeepsPlanIff | backend/billing/services.py:728-747 | A sweep keeps plan and subscription together exactly unless an interval change falls due before the delay ends |
| BillingRuns.PlanWriteKeepsPlanIff | backend/billing/reconciliation.py:238-240 | The downgraded plan written ahead of the row keeps the guarantee exactly on a paid Plus row |
| ReconciliationBlocks.BlocksAreTheReconciliation | backend/billing/reconciliation.py:99-307 | The blocks taken one after another do what the reconciliation does, for every status and every error |
| ReconciliationBlocks.BrokenOffIsCoherent | backend/billing/reconciliation.py:99-307 | Wherever a reconciliation breaks off, the row is coherent |
| ReconciliationBlocks.BrokenOffKeepsPlanIff | backend/billing/reconciliation.py:232-252 | Breaking off keeps the plan guarantee, except right after the plan write, where it holds exactly on a paid Plus row outside the free week; taken to the end it holds exactly unless the reconciliation loses the plan; for every snapshot |
| ReconciliationBlocks.BrokenOffDowngradeIsFinished | backend/billing/reconciliation.py:293-307 | The next delivery finishes a broken-off downgrade, and adds the cancellation the undisturbed one drops |
| ReconciliationFixedPoint.SecondDeliverySettlesIff | backend/billing/reconciliation.py:99-307 | For every well-formed snapshot and coherent row with the week settled: the second delivery raises exactly on a held Business row cancelled under Plus; otherwise it is a fixed point exactly if the account does not waver, and then carries an active snapshot exactly if no scheduled change blocks it |
| ReconciliationFixedPoint.ThirdDeliverySettles | backend/billing/reconciliation.py:99-307 | For well-formed snapshots: the third delivery is always a fixed point and carries an active snapshot exactly if no scheduled change blocks it |
| ReconciliationFixedPoint.RedeliverySettles | backend/billing/reconciliation.py:99-307 | For well-formed snapshots: any larger number of deliveries does what three do, and what two do exactly if the account does not waver |
| ReconciliationFixedPoint.MatchingPlansSettleAtTwo | backend/billing/reconciliation.py:99-307 | For well-formed snapshots: where the effective plan is the paid plan, two deliveries do what any larger number does and none raises |
| ReconciliationFixedPoint.UnorderedSettlesIff | backend/billing/reconciliation.py:190-307 | For active snapshots without an ordered period that get through once: the second delivery is refused exactly after an upgrade or a cancellation, otherwise the first is a fixed point |
| ReconciliationFixedPoint.ThirdDeliveryMayDiffer | backend/billing/reconciliation.py:232-253 | A concrete wavering account whose third delivery still changes the row |
| ReconciliationFixedPoint.UpgradeNeedsTwoDeliveries | backend/billing/reconciliation.py:255-265 | One delivery of an upgrade drops the cancel flag and keeps the interval, the second sets both right |
| ReconciliationFixedPoint.RepeatedEndLeavesStripe | backend/billing/reconciliation.py:81-96 | A repeated ended snapshot leaves the source stripe; the first one leaves none exactly when there was something to end |
| SnapshotOutcomes.UnusableSnapshotChangesNothing | backend/billing/reconciliation.py:128-151 | A snapshot without a known price, or in another currency than a running Stripe subscription, changes nothing |
| SnapshotOutcomes.EndedSnapshotWaitsForAccess | backend/billing/reconciliation.py:114-125 | A cancelled one with access left ends the subscription where the access ends |
| SnapshotOutcomes.EndedSnapshotEnds | backend/billing/reconciliation.py:114-126 | Otherwise an ended snapshot ends it at once |
| SnapshotOutcomes.ClearedSelectionIsOver | backend/billing/operations.py:276-307 | A selection cleared in the free week is over whatever the provider answers, and stays so; an answer that is refused is passed on |
| SnapshotOutcomes.OverdueSnapshotGivesGrace | backend/billing/reconciliation.py:161-163 | An overdue snapshot leaves plan, interval, periods and schedule alone for exactly three days from now, and then the subscription is over |
| SnapshotOutcomes.OverdueSnapshotMovesNoDeadline | backend/billing/reconciliation.py:161-163 | Delivered again it moves no deadline; where no payment can fail it raises |
| SnapshotOutcomes.DelayedSnapshotIsNoted | backend/billing/reconciliation.py:170-188 | A delayed snapshot notes plan and delay, with its cancellation, and changes no plan in force |
| SnapshotOutcomes.EnteringIsNamed | backend/billing/reconciliation.py:154-168 | Before the branches only identifiers, currency and a recovery are stored |
| SnapshotOutcomes.WaitingChangeIsKept | backend/billing/reconciliation.py:203-230 | While a change waits, the old pair only moves the period and a pair that is neither moves nothing |
| SnapshotOutcomes.LowerPriceTakesBusiness | backend/billing/reconciliation.py:232-253 | A lower price puts Plus in force, and the row then carries the snapshot |
| SnapshotOutcomes.HigherPriceRaises | backend/billing/reconciliation.py:255-265 | A higher price puts Business in force exactly on a paid Plus row, at the old interval |
| SnapshotOutcomes.WaitingDowngradeIsKept | backend/billing/reconciliation.py:274-291 | A downgrade that waits keeps Business, and only the period moves |
| SnapshotOutcomes.UnorderedIsRefused | backend/billing/reconciliation.py:293-307 | Any other active snapshot is refused exactly if its period is missing or not ordered |
| SnapshotOutcomes.OtherwiseTheSnapshotIsCarried | backend/billing/reconciliation.py:293-307 | And otherwise the row carries exactly what the snapshot says, for good or until its cancellation |
| BillingSweep.SweepTimingIrrelevantIff | backend/billing/services.py:678-761 | For every coherent row: sweeping at t1 and t2 equals sweeping at t2 for all t1 <= t2, if and only if no paid change falls due before the row's own deadline and no work that would set another plan falls due within the free week |
| BillingSweep.EarlySweepShowsIff | backend/billing/services.py:678-761 | For one pair of times: the early sweep makes a difference exactly if the two straddle the deadline of such a row, or the end of a week that shielded the plan |
| BillingSweep.OnlyTheLastSweepCounts | backend/billing/services.py:678-761 | On such rows any history of sweeps equals its last sweep |
| BillingSweep.DueChangeEndsGrace | backend/billing/services.py:728-747 | A due change makes a past-due row active for good without a recovery |
| BillingTimeline.GraceLastsThreeDays | backend/billing/services.py:568-594 | After a payment failure the account stays as it is for exactly three days from the failure, or until the deadline given, and is over from then on |
| BillingTimeline.FailureIsTakenOnce | backend/billing/services.py:568-594 | A failure on a past-due row moves nothing; without an active subscription it is refused |
| BillingTimeline.RecoveryWipesTheFailure | backend/billing/services.py:612-631 | A recovered row is active as sold, without a trace of the failure, and no sweep ends it any more |
| BillingTimeline.WarningsAreCounted | backend/billing/services.py:597-609 | A warning is counted exactly while past due, and only counted |
| BillingTimeline.DueChangeTakesEffect | backend/billing/services.py:728-761 | The swept row has the scheduled plan and interval (the old interval if none was scheduled), starts its period at the instant of the change, and has nothing pending |
| BillingTimeline.ChangeIsNoted | backend/billing/services.py:388-449 | Exactly when a change can be scheduled, and that scheduling stores the change and nothing else |
| BillingTimeline.RefusedChangesSayWhy | backend/billing/services.py:397-436 | Which refusal a change meets: cancelled, no time, nothing to change, an upgrade that is due at once, or a change scheduled already |
| BillingTimeline.ScheduledChangeArrives | backend/billing/services.py:388-449 | End to end: before its time a scheduled pair changes nothing, from then on the sweep leaves exactly that pair |
| BillingTimeline.OwnersChangeIsTakenIff | backend/billing/operations.py:485-543 | Exactly when an owner may schedule a change: what can be scheduled at all, on a Stripe subscription outside the free week |
| BillingTimeline.OwnersChangeArrives | backend/billing/operations.py:485-543 | The same for the change an owner asks for, at the end of the period |
| BillingTimeline.DroppedChangeNeverHappens | backend/billing/services.py:514-535 | A change taken back leaves the row as if never scheduled, for all sweeps |
| BillingTimeline.CancellationIsNoted | backend/billing/services.py:469-492 | A cancellation is noted for the instant given, or the end of access, in place of a scheduled change |
| BillingTimeline.CancellationArrives | backend/billing/services.py:724-726 | It then ends the subscription at that instant and not before, unless a delay or a grace runs out first |
| BillingTimeline.OnlySubscriptionsAreCancelled | backend/billing/services.py:469-492 | Cancelling is refused exactly where nothing is subscribed |
| BillingTimeline.RevokedCancellationNeverEnds | backend/billing/services.py:495-511 | A cancellation taken back ends nothing at any later time |
| BillingTimeline.EndIsOver | backend/billing/services.py:634-674 | After the end nothing is left but history, the plan is Basic unless the free week runs, and nothing is ended twice |
| BillingTimeline.SaleIsCarried | backend/billing/services.py:246-322 | After an activation the row carries exactly plan, interval, period and seller of the sale, whichever way it was written |
| BillingTimeline.DeferredSaleIsNoted | backend/billing/services.py:141-243 | Exactly when a deferred sale is taken, and that it changes no plan in force |
| BillingTimeline.DeferredSaleStarts | backend/billing/services.py:692-721 | Its plan is in force with the first sweep from its start on, and not before |
| BillingTimeline.DelayTurnsIntoPeriod | backend/billing/services.py:692-721 | The period of a delayed plan starts where the delay ended, and keeps its end exactly if that is later |
| BillingTimeline.OnlyPlusIsRaised | backend/billing/services.py:326-385 | An immediate upgrade goes from a paid Plus row to Business, or confirms what is in force |
| BillingTimeline.UpgradeRaisesThePlan | backend/billing/services.py:326-385 | It takes effect at once, over the period reported, and drops schedule and failure |
| BillingTimeline.UpgradeKeepsTheSale | backend/billing/services.py:326-385 | It keeps interval, seller and everything the provider did not send |
| BillingTimeline.SettledRowsStand | backend/billing/services.py:678-761 | Where nothing is scheduled and no phase runs out, no sweep ever finds anything to do |
| BillingTimeline.WeekIsSevenDays | backend/billing/builtin_trial.py:105-215 | The free week is Business for exactly seven days; then what is paid for, or Basic, settled once and for all |
| BillingTimeline.DeniedWeekStaysDenied | backend/billing/builtin_trial.py:138-161 | A week denied is never granted later |
| BillingTimeline.ChoiceIsOnlyNoted | backend/billing/operations.py:581-653 | Exactly when a plan can be chosen in the free week, and that nothing is in force, sold or due because of it |
| BillingTimeline.ChoiceIsDropped | backend/billing/operations.py:656-708 | A choice dropped leaves nothing; refused exactly where something is sold |
| FreeWeekBatch.ExpireDueBuiltinTrials | backend/billing/builtin_trial.py:230-268 | The batch settles every due week it can and counts exactly the settled and the skipped ones |
| FreeWeekBatch.LeftOpenIff | backend/billing/builtin_trial.py:195-210 | A due week stays open exactly while a bought plan has not started |
| FreeWeekBatch.BatchMeans | backend/billing/builtin_trial.py:195-210 | What the batch leaves of each workspace: closed with the paid plan or Basic, or untouched |
| FreeWeekBatch.BatchTwice | backend/billing/builtin_trial.py:230-268 | A second batch does not touch settled weeks, and two batches give the plan of the later one |
| FreeWeekBatch.BatchAndSweepCommute | backend/billing/builtin_trial.py:164-215 | When the delayed plan starts, batch and sweep lead to the same account in either order |
| TenantResolution.ResolveOrganizationFromMapping | backend/billing/reconciliation.py:28-78 | A workspace is found exactly when some reference leads to it, none leads elsewhere and the workspace id matches; otherwise unmapped or refused |
| TenantResolution.NamedWorkspaceOrNone | backend/billing/reconciliation.py:38-70 | An object naming an existing workspace is never given to another |
| TenantResolution.SoleHolderIsFound | backend/billing/reconciliation.py:44-49 | An id held by one workspace alone leads there |
| TenantResolution.SoleCustomerIsFound | backend/billing/reconciliation.py:51-56 | So does a customer held by one workspace alone |
| TenantResolution.NamedIsFoundIff | backend/billing/reconciliation.py:38-70 | A workspace that does not hold the subscription is found by its id exactly if the customer leads nowhere else |
| TenantResolution.DisagreementIsRefused | backend/billing/reconciliation.py:64-70 | Two workspaces that two references lead to are never chosen between |
| StoreEntitlements.GoogleRedeliveryIff | backend/billing/google_verify.py:259-380 | A second Google delivery changes nothing, exactly unless the first was half written; for every subscription state |
| StoreEntitlements.GoogleThirdDeliveryIsSecond | backend/billing/google_verify.py:275-380 | The third delivery equals the second |
| StoreEntitlements.GoogleAccountIsARun | backend/billing/google_verify.py:327-363 | A delivery is a run of ordinary billing steps |
| StoreEntitlements.AppleRedeliveryIff | backend/billing/apple_verify.py:217-326 | The same for an Apple entitlement, whatever account token the second call would make up |
| StoreEntitlements.AppleNoticeRedeliveryIff | backend/billing/apple_verify.py:351-403 | The same for a server notification of any kind |
| StoreEntitlements.AppleThirdDeliveryIsSecond | backend/billing/apple_verify.py:217-326 | For Apple too the third delivery equals the second |
| StoreEntitlements.ReplacementIsHalfWritten | backend/billing/google_verify.py:327-363 | For every renewing purchase and its replacement without renewal: the row keeps the old token until the third delivery |
| StoreEntitlements.CurrencyChangeIsHalfWritten | backend/billing/apple_verify.py:217-326 | For every transaction reported again in another currency without renewal: the row keeps the old currency until the third delivery |
| StoreOutcomes.RunningPurchaseEntitles | backend/billing/google_verify.py:259-353 | An active, canceled or unknown purchase with time left: its plan, interval, period and details; if canceled or not renewing the subscription ends exactly where the purchase does, else no sweep ends it |
| StoreOutcomes.GracePurchaseIsPastDue | backend/billing/google_verify.py:355-361 | In grace the same, past due, and over where the purchase ends |
| StoreOutcomes.EndedPurchaseEnds | backend/billing/google_verify.py:259-319 | On hold, paused, expired, pending, run out, or canceled or unknown without an end: what Google bills ends at once, anything else stands |
| StoreOutcomes.GoogleRefusals | backend/billing/google_verify.py:285-344 | Everything else is refused, with which error, and changes nothing |
| StoreOutcomes.RunningTransactionEntitles | backend/billing/apple_verify.py:282-325 | An entitled transaction: its plan, interval, period and details; without renewal it ends exactly where it expires |
| StoreOutcomes.RevokedTransactionEnds | backend/billing/apple_verify.py:263-275 | A revoked one ends what Apple bills, and says so in the details |
| StoreOutcomes.ExpiredTransactionEnds | backend/billing/apple_verify.py:277-280 | An expired one ends what Apple bills, or what is known under its identifier |
| StoreOutcomes.AppleRefusals | backend/billing/apple_verify.py:228-286 | Everything else is refused, with which error, and changes nothing |
| StoreOutcomes.NoticesMean | backend/billing/apple_verify.py:351-403 | What each kind of notification does |
| StoreOutcomes.FailedRenewalGivesGrace | backend/billing/apple_verify.py:351-403 | A failed renewal gives exactly three days of grace |
| StoreOwnership.ClearIff | backend/billing/google_verify.py:187-222 | Looking at first hits is enough: the ownership check passes exactly when no other workspace holds the token |
| StoreOwnership.DeliveryBindsOnlyFreeIds | backend/billing/google_verify.py:225-256 | A delivery leaves a workspace only identifiers that no other workspace holds |
| StoreOwnership.OwnershipStaysDisjoint | backend/billing/apple_verify.py:174-261 | Over any run no purchase token, linked token or original transaction belongs to two workspaces |
| StoreOwnership.ResolvesToTheHolder | backend/billing/google_verify.py:166-184 | A token resolves to a workspace exactly when that workspace holds it |
| StoreOwnership.ServerReconcileTouchesOnlyTheOwner | backend/billing/google_verify.py:401-435 | A server notification changes at most the workspace that held the token or the one it continues |
| StoreOwnership.ServerReconcileFinds | backend/billing/google_verify.py:401-435 | It is applied to the holder of the token, and only if nobody holds it to the holder of the token it continues; with neither it is ignored, without an answer from the store refused |
| StoreOwnership.PurchasesAreChecked | backend/billing/google_verify.py:187-222 | A purchase is free exactly if no other workspace holds one of its tokens |
| StoreOwnership.TransactionsAreChecked | backend/billing/apple_verify.py:250-261 | A transaction is free exactly if no other workspace bought it |
| StoreOwnership.OtherDeliveriesBindNothing | backend/billing/apple_verify.py:88-99 | The billing page makes up an account token once; billing steps leave all identifiers alone |
| StoreOwnership.NoticeResolvesIff | backend/billing/apple_notifications.py:141-148 | A notification resolves exactly to the buyer of its transaction, or if nobody bought it to the workspace its account token names, and to none exactly if there is neither |
| StoreOwnership.NoticeTouchesOnlyTheAddressed | backend/billing/apple_notifications.py:196-211 | A notification of any kind changes at most that workspace and keeps all identifiers disjoint |
| StoreOwnership.AccountTokensStayApart | backend/billing/apple_verify.py:88-99 | Over any run that makes up fresh account tokens, no token names two workspaces, and the one in the details is the workspace's own |
| StoreDeskModule.StoreDesk.AssertTokenOwnership | backend/billing/google_verify.py:187-222 | The candidate loop accepts exactly when both tokens are clear |
| StoreDeskModule.StoreDesk.ApplyGoogleEntitlement | backend/billing/google_verify.py:275-380 | Does in place what the delivery specifies for its workspace and leaves all others |
| StoreDeskModule.StoreDesk.ApplyAppleEntitlement | backend/billing/apple_verify.py:217-326 | The same for Apple |
| StoreDeskModule.StoreDesk.ReconcileAppleFromNotification | backend/billing/apple_verify.py:351-403 | The same for a notification |
| StoreDeskModule.StoreDesk.FindOrganizationForPurchaseToken | backend/billing/google_verify.py:166-184 | Finds the workspace the token resolves to |
| StoreDeskModule.StoreDesk.FindOrganizationForAppAccountToken | backend/billing/apple_verify.py:420-437 | Finds the workspace an account token names, its own token before the details |
| StoreDeskModule.StoreDesk.ResolveOrganization | backend/billing/apple_notifications.py:141-148 | Finds the workspace a notification resolves to |
| StoreDeskModule.StoreDesk.ProcessAppleNotification | backend/billing/apple_notifications.py:196-218 | Resolves, then reconciles in place or ignores |
| StoreDeskModule.StoreDesk.EnsureAppleAppAccountToken | backend/billing/apple_verify.py:88-99 | Returns the account token and stores a new one exactly if there was none |
| StoreDeskModule.StoreDesk.ReconcileGoogleFromPurchaseToken | backend/billing/google_verify.py:401-435 | Resolves, fetches and applies, in that order |
| EventLease.AtMostOneHolder | backend/billing/apple_notifications.py:47-138 | If handlers end within the window, no two of them ever hold the same event |
| EventLease.SettledForGood | backend/billing/apple_notifications.py:69-73 | A processed or ignored event never changes and is never held again |
| EventLease.NeverStuck | backend/billing/google_notifications.py:48-111 | In every reachable state, a delivery one window later is admitted exactly if the event is not settled |
| EventLease.FailureIsRetriedAtOnce | backend/billing/google_notifications.py:94-111 | A failed event is admitted without waiting |
| EventLease.OverrunReopensTheEvent | backend/billing/apple_notifications.py:133-138 | A handler that outlives the window makes a processed event failed |
| EventLease.UnsettlesIff | backend/billing/apple_notifications.py:133-138 | In any state, a step takes a settled event back exactly if a handler holding it fails |
| EventLease.ClaimHoldsFifteenMinutes | backend/billing/apple_notifications.py:27-112 | A claim keeps every other delivery out for exactly fifteen minutes |
| EventLease.ClaimWrites | backend/billing/apple_notifications.py:47-112 | Exactly when a claim, a duplicate or a running handler is reported, and what a claim writes |
| EventLease.MarkWrites | backend/billing/apple_notifications.py:115-138 | What the end of the work writes, verdict by verdict, and that it writes nothing else |
| EventStoreModule.EventStore.ClaimEventRow | backend/billing/apple_notifications.py:47-112 | Claims the row, or reports a duplicate or a running handler |
| EventStoreModule.EventStore.ProcessNotification | backend/billing/apple_notifications.py:168-228 | Claim, work, mark: without a claim nothing is written |
| CheckoutProtocol.RunsAreSafe | backend/billing/checkout_attempts.py:112-242 | Under every interleaving a recorded session is the one the provider holds for the attempt's key, COMPLETED is final, and no attempt goes from REPLACED to PENDING or OPEN |
| CheckoutProtocol.SessionsAreNeverShared | backend/billing/models.py:247-257 | Two attempts never record the same session |
| CheckoutProtocol.AdvanceIsIsolated | backend/billing/checkout_attempts.py:340-588 | A request changes no attempt and no session of another workspace |
| CheckoutRetries.RetriesShareOneSession | backend/billing/checkout_attempts.py:340-444 | Any number of equal requests, interleaved and crashing anywhere, lead to at most one session, and each answer is that session |
| CheckoutPlanChange.AtMostOnePayableSession | backend/billing/checkout_attempts.py:447-514 | For requests one after another a workspace never has two recorded sessions that can be paid, and is sent to a session for what it asked |
| CheckoutPlanChange.OverlappingRequestsLeaveTwo | backend/billing/checkout_attempts.py:145-180 | Two overlapping requests leave two payable sessions although nothing fails |
| CheckoutStatuses.ReopensIff | backend/billing/checkout_attempts.py:216-242 | An expired attempt opens exactly by an outstanding persist while no other attempt of the workspace is active |
| CheckoutStatuses.ExpiredAttemptReopens | backend/billing/checkout_attempts.py:374-402 | A run of three equal requests in which it does, with a session nobody can pay |
| CheckoutStatuses.CompletesReplacedIff | backend/billing/checkout_attempts.py:316-324 | A replaced attempt is completed exactly by a request that saw its session paid |
| CheckoutStatuses.ReplacedAttemptCompletes | backend/billing/checkout_attempts.py:316-324 | A run in which it is |
| CheckoutLiveness.FirstRequestIsAnswered | backend/billing/checkout_attempts.py:256-313 | Without an active attempt a request ends with a new attempt that has recorded a new session for what was asked |
| CheckoutLiveness.NextRequestIsAnswered | backend/billing/checkout_attempts.py:340-514 | With one, it is completed exactly if its recorded session is paid; else its session is used again or, lapsed or for another plan, put aside for a new attempt and session |
| CheckoutLiveness.RequestAloneIsAnswered | backend/billing/checkout_attempts.py:256-313 | In every safe state: never refused, being processed exactly if a paid session is recorded, else sent to a session, which can be paid exactly unless an earlier request lost it |
| CheckoutLiveness.AnswerIsForWhatWasAsked | backend/billing/checkout_attempts.py:256-313 | The session returned was created for the plan and interval asked for |
| CheckoutLiveness.SubscribedIsRefused | backend/billing/checkout_attempts.py:112-115 | A subscribed workspace is refused and nothing changes, whatever fails |
| CheckoutLiveness.UnseenSessionIsUsedAgain | backend/billing/checkout_attempts.py:358-369 | A session of the same plan that cannot be looked up is found again by its key |
| CheckoutLiveness.UnseenSessionIsReplaced | backend/billing/checkout_attempts.py:463-500 | One of another plan that cannot be looked up or expired is replaced all the same |
| CheckoutLiveness.RequestFailsIff | backend/billing/checkout_attempts.py:256-313 | Of all combinations of failing calls, a request alone fails exactly if no session can be created and the recorded one is not seen to serve |
| CheckoutLiveness.AskingAgainIsAnswered | backend/billing/checkout_attempts.py:256-313 | Whatever failed, asking once more is answered |
| CheckoutLiveness.ConfirmCompletes | backend/billing/checkout_attempts.py:569-588 | The webhook completes exactly the active attempt that recorded the session |
| CheckoutLiveness.PaidAnswerIsCompleted | backend/billing/checkout_attempts.py:569-588 | From the request through payment and webhook: the attempt that asked is completed with its session paid |
| CheckoutLiveness.AloneIsARun | backend/billing/checkout_attempts.py:256-313 | What is said of a request alone is said of its steps taken one after another in the interleaved protocol, whichever calls fail |
| CheckoutLiveness.OutsideSteps | backend/billing/fake_provider.py:116-124 | A crashed request does nothing any more, a session lapses unless it is paid, a subscribed workspace is refused until it no longer is |
| CheckoutDeskModule.CheckoutProvider.CreateCheckoutSession | backend/billing/fake_provider.py:55-114 | The same key is answered with the same session, a new key with a new one |
| CheckoutDeskModule.CheckoutProvider.ExpireCheckoutSession | backend/billing/fake_provider.py:116-124 | Expires a session unless it is paid |
| CheckoutDeskModule.CheckoutProvider.CompleteCheckout | backend/billing/fake_provider.py:126-162 | Pays a session unless it has expired or is unknown, and stores and returns the subscription it turns into |
| CheckoutPurchase.PurchaseTakesEffect | backend/billing/fake_provider.py:126-162 | Reconciled, that subscription gives a workspace without one what was paid for: the plan at once, or deferred with the plan in force left alone |
| CheckoutPurchase.PurchaseKeepsItsTerms | backend/billing/fake_provider.py:133-158 | In the currency and for the customer it was bought, delayed from now, or for thirty days from now |
| CheckoutPurchase.DeferredPurchaseStarts | backend/billing/services.py:692-721 | The deferred plan comes into force with the first sweep after its start and the free week |
| CheckoutPurchase.SecondPurchaseReplacesIff | backend/billing/reconciliation.py:134-307 | A second purchase is taken over exactly if it is in the same currency; the first subscription is then named nowhere, and an upgrade keeps its interval |
| CheckoutPurchase.PaidTwiceKeptOnce | backend/billing/checkout_attempts.py:145-180 | A run in which two overlapping checkouts are both paid, and the account left by any two such purchases |
| CheckoutDeskModule.CheckoutDesk.ActiveAttemptForUpdate | backend/billing/checkout_attempts.py:92-98 | Finds the newest active attempt of the workspace |
| CheckoutDeskModule.CheckoutDesk.ClaimCheckoutAttempt | backend/billing/checkout_attempts.py:111-141 | Reuses the active attempt or adds one, unless the workspace is subscribed |
| CheckoutDeskModule.CheckoutDesk.ReplaceActiveAttempt | backend/billing/checkout_attempts.py:144-180 | Replaces the old attempt if active, then claims |
| CheckoutDeskModule.CheckoutDesk.PersistOpenSession | backend/billing/checkout_attempts.py:216-242 | Records the session, keeps a completed attempt, refuses a replaced one or a second active one |
| CheckoutDeskModule.CheckoutDesk.MarkAttemptCompletedForSession | backend/billing/checkout_attempts.py:569-588 | Completes the active attempt that recorded the session, if any |
| CheckoutDeskModule.CheckoutDesk.HandlePlanChange | backend/billing/checkout_attempts.py:447-514 | Alone, it takes the protocol's steps for a request with another identity |
| CheckoutDeskModule.CheckoutDesk.ResumeOrCreateSamePlan | backend/billing/checkout_attempts.py:340-444 | Alone, it takes the protocol's steps for a request with the same identity |
| CheckoutDeskModule.CheckoutDesk.CreateOrResumeCheckoutSession | backend/billing/checkout_attempts.py:256-313 | A request nothing interrupts ends exactly where its steps taken one by one end |
| Attendance.FlagIsLastMove | backend/attendance/services.py:86-119 | For every log: checked in iff the last check-in or check-out of the window is a check-in |
| Attendance.NoBreaksAfterCheckOut | backend/attendance/services.py:121-142 | For every log: a check-out in the window makes the break count zero and the break flag false for good |
| Attendance.MatchesFollowedStateIff | backend/attendance/services.py:37-142 | For every log the kiosk writes, the computed state equals the step-by-step state, except exactly when there is a check-out in it and a break was started since the last check-in |
| Attendance.BreakLimitIsLostAfterCheckOut | backend/attendance/services.py:218-222 | After a check-out a break may always be started and never ended |
| Attendance.MovesAlternate | backend/attendance/services.py:208-217 | With check-in enabled, check-ins and check-outs take turns, check-in first |
| Attendance.BreaksAreDisciplined | backend/attendance/services.py:208-223 | Up to the first check-out: one check-in, breaks start and end in turn, within the limit, closed before the check-out |
| Attendance.FirstStayIff | backend/attendance/services.py:208-223 | And exactly the logs of that shape can be written before a first check-out |
| Attendance.WholeLogIff | backend/attendance/services.py:208-223 | With check-in enabled, exactly these logs can be written: one disciplined stay, and after a check-out alternating moves with break starts without limit and no break end |
| Attendance.CheckOutOnlyIff | backend/attendance/services.py:211-217 | Without check-in, exactly the logs of nothing but check-outs can be written |
| Attendance.ResetStartsAfresh | backend/attendance/services.py:66-84 | What was recorded before the reset boundary does not count |
| Kiosk.ComputeCurrentAttendanceState | backend/attendance/services.py:86-142 | The one-pass scan computes that state |
| Kiosk.GetValidActionsForState | backend/attendance/services.py:208-223 | The list holds exactly the permitted actions, in their order |
| Kiosk.PerformedIff | backend/attendance/services.py:239-345 | An action is taken exactly if group and participant are in order and it is on offer; otherwise the first thing amiss is named |
| Kiosk.Participant.PerformActionRecordFromKiosk | backend/attendance/services.py:239-345 | Refuses archived groups, missing and inactive participants in this order, appends the action exactly if it is on offer, in log order, and keeps the log one the kiosk can write |
| ReportCalendar.OrdinalsOrderDates | backend/attendance/attendance_report.py:94-105 | The day numbers order the dates and tell them apart |
| ReportCalendar.DateAtInverts | backend/attendance/attendance_report.py:94-105 | Date arithmetic finds back every date |
| ReportCalendar.ThisWeekIsTheWeek | backend/attendance/attendance_report.py:94-98 | this_week is exactly the Monday-to-Sunday week of today; it fails only at the end of the calendar |
| ReportCalendar.ThisMonthIsTheMonth | backend/attendance/attendance_report.py:99-106 | this_month is exactly the dates of today's year and month; it fails only in December 9999 |
| ReportCalendar.OtherPresetsMean | backend/attendance/attendance_report.py:91-120 | today is today, a custom range holds exactly its dates and needs them in order, and anything else is invalid |
| ReportCalendar.SelectedIffInRange | backend/attendance/attendance_report.py:123-126 | An instant is selected exactly when its local date lies in the range |
| ReportCalendar.SelectedHasADate | backend/attendance/attendance_report.py:575 | A selected instant has a date in the range |
| AttendanceReport.CellValuesForDay | backend/attendance/attendance_report.py:185-212 | Shows the earliest check-in and the latest check-out by time and id, and all break starts in order, each exactly when there is one |
| AttendanceReport.CellsMean | backend/attendance/attendance_report.py:185-212 | No check-in of the day is earlier than the one shown and no check-out later, and break starts are shown as often as recorded |
| ReportSections.FillDays | backend/attendance/attendance_report.py:567-583 | The dictionaries hold for each day and key exactly its records and no empty entry, and for each key the heading of its first record |
| ReportSections.BuildSections | backend/attendance/attendance_report.py:594-632 | Days strictly descend; within a day rows strictly ascend by group, class and name as displayed and then by key; no row is empty, every record's row is there with the right cells |
| ReportSections.RowsAreDetermined | backend/attendance/attendance_report.py:594-632 | The records determine the report: days, rows and their places |
| ReportSections.NothingLostNothingTwice | backend/attendance/attendance_report.py:566-632 | The rows use every record but the break ends exactly as often as it was given, and no other |
| ReportBuilder.BuildAttendanceReport | backend/attendance/attendance_report.py:495-632 | Missing exactly if a group, member or participant looked up is not there; built exactly if the request is answerable and the range valid; then range, columns, sections and their order, of the records the request asks for |
| ReportBuilder.SelectedIsTheQuery | backend/attendance/attendance_report.py:503-552 | The query gives each admitted record as often as the table holds it, newest first |
| ReportBuilder.LatestHeads | backend/attendance/attendance_report.py:584-592 | A row is headed on every day by the latest record of its key |
| ReportBuilder.OnlyAllowedGroups | backend/attendance/attendance_report.py:508-509 | A viewer limited to some groups is shown records of these only |
| ReportBuilder.VisibleColumns | backend/attendance/attendance_report.py:177-182 | A column for exactly the actions that occur, break ends excepted, in display order |
| ReportBuilder.SectionsLieInRange | backend/attendance/attendance_report.py:594-632 | No section lies outside the range |
| ReportBuilder.RowIffInRange | backend/attendance/attendance_report.py:503-583 | A record the filter admits has its row exactly when its local date is in the range |
| ReportBuilder.ColumnIffShown | backend/attendance/attendance_report.py:554-557 | A column is there exactly when some row has something to show in it |
| ReportScope.QueryMeans | backend/attendance/attendance_report.py:503-552 | A record is reported, as often as stored and newest first, exactly if the request is answerable, its local date is in the range, its group is permitted and asked for, and it is of the member, membership or visitor asked for |
| ReportScope.MemberInGroupIff | backend/attendance/attendance_report.py:483-493 | A member may be asked for in exactly the permitted groups with a membership or a record of it |
| ReportScope.MembersReportIsTheirOwn | backend/attendance/attendance_report.py:516-517 | A member's report shows that member alone |
| ReportScope.RequestedRowsIff | backend/attendance/attendance_report.py:559-582 | For each request: when two known records share a row, and when class and group count |
| ReportScope.GroupsHaveOwnRowsIff | backend/attendance/attendance_report.py:559-582 | Records of different groups never share a row exactly in a member's report over all groups |
| ReportScope.EveryRecordIsAccountedFor | backend/attendance/attendance_report.py:566-632 | Every record asked for is in its row under its local date, shown or preceded in its cell |
| ReportScope.NothingElseIsShown | backend/attendance/attendance_report.py:566-632 | Every record shown was asked for, on that day and in that row |
| ReportScope.ReportIsInOrder | backend/attendance/attendance_report.py:595-612 | Days go back in time; the rows of a day are in alphabetical order of the group, class and name of their latest record, and last of their key |
| ReportKeys.KnownRowsAreTheirOwn | backend/attendance/attendance_report.py:146-169 | In every layout, two records of members or group-only participants share a row exactly if participant and, where shown, group and class are the same |
| ReportKeys.SnapshotsStayApart | backend/attendance/attendance_report.py:146-153 | In every layout, a record known only by its snapshot shares no row with one of a member or group-only participant |
| ReportKeys.SnapshotRowsIff | backend/attendance/attendance_report.py:151-169 | Records known only by their snapshot share a row exactly if the snapshots are equal, unless a kind or name holds a colon, or with classes shown the key a bar |
| ReportTwins.SharedRowIff | backend/attendance/attendance_report.py:146-169 | In every layout, a record known only by its snapshot shares its row with a different snapshot, or another class of its own, exactly on the condition above |
| ReportTwins.ColonsMergeRows | backend/attendance/attendance_report.py:151-153 | In every layout, every colon at which name and identifier can be cut otherwise gives a different snapshot with the same row |
| ReportTwins.BarsMergeRows | backend/attendance/attendance_report.py:156-169 | With classes shown, every class name ending in a bar and a class key gives a longer identifier with the same row |
| ReportTwins.ClassesMergeRows | backend/attendance/attendance_report.py:572-582 | In a member's report over all groups, a record with its class shares its row with one whose identifier spells it |
| ReportTwins.UnknownMergesRows | backend/attendance/attendance_report.py:572-582 | There a record whose identifier spells the unknown class shares its row with one of that class |
| EmailOwnership.NoAddressIsInForceTwice | backend/accounts/email_uniqueness.py:14-37 | Over any run no address is in force for two accounts, nor as login and backup of one |
| EmailOwnership.StepKeepsApart | backend/accounts/email_management.py:98-299 | Every step keeps the addresses in force disjoint and each account's pending addresses apart from them and from each other |
| EmailOwnership.ProviderJoinIsFree | backend/accounts/google_oauth.py:321-328 | A provider sign-up that passes its weaker check and the unique index takes no claimed address |
| EmailOwnership.FirstToConfirmGetsIt | backend/accounts/email_management.py:176-201 | A pending address reserves nothing: the first to confirm gets it, the other is refused and unchanged |
| EmailOwnership.AskedBackupComesInForce | backend/accounts/email_management.py:98-202 | Exactly the free addresses may be asked for as backup; confirmed, exactly that address is the backup |
| EmailOwnership.AskedLoginComesInForce | backend/accounts/email_management.py:205-299 | The same for a login address, which is then verified |
| EmailOwnership.RecoveredLoginComesInForce | backend/accounts/account_recovery.py:395-526 | The same in recovery, which drops a pending backup; no other address can be confirmed |
| EmailOwnership.TakenBackIsDead | backend/accounts/email_management.py:133-162 | A request taken back leaves no link that works and touches no other request |
| EmailOwnership.InactiveConfirmsNothing | backend/accounts/email_management.py:165-180 | Accounts that are not active confirm nothing |
| EmailOwnership.SignUpTakesAFreeAddress | backend/accounts/email_uniqueness.py:14-37 | A password sign-up is accepted exactly for a free address |
| EmailOwnership.ProviderSignUpTakesAnAddress | backend/accounts/google_oauth.py:321-328 | When a provider sign-up makes an account or takes a provisional one over, and what it leaves |
| EmailOwnership.OverlappingRequestsCollide | backend/accounts/email_management.py:98-113 | Two requests checked before either is saved put one address in force twice |
| AccountDirectory.Directory.RequestBackupEmail | backend/accounts/email_management.py:98-113 | Stores a pending backup exactly if the validator accepts it |
| AccountDirectory.Directory.RemoveBackupEmail | backend/accounts/email_management.py:147-162 | Drops the backup and the pending one |
| AccountDirectory.Directory.VerifyBackupEmail | backend/accounts/email_management.py:165-202 | Puts the pending backup in force unless another account has it by now |
| AccountDirectory.Directory.RequestPrimaryEmailChange | backend/accounts/email_management.py:205-222 | Stores a pending login address exactly if the validator accepts it |
| AccountDirectory.Directory.VerifyPrimaryEmail | backend/accounts/email_management.py:258-299 | Puts the pending login address in force unless another account has it by now |
| AccountDirectory.Directory.SubmitRecoveryCredentials | backend/accounts/account_recovery.py:395-434 | Stores the recovery address as pending and drops a pending backup |
| AccountDirectory.Directory.VerifyRecoveryPrimaryEmail | backend/accounts/account_recovery.py:499-526 | Puts it in force if it is still the pending one and unclaimed |
| FailureThrottle.ThrottleBound | backend/accounts/owner_two_factor.py:136-153 | Whatever happened before, L seconds without success see at most 5*(L/30) + 5 failed verifications |
| FailureThrottle.ThrottleBoundIsReached | backend/accounts/two_factor.py:35-36 | The bound is reached for every whole number of locks |
| FailureThrottle.FifthFailureLocks | backend/accounts/owner_two_factor.py:136-142 | The fifth failure locks for exactly thirty seconds, in which no code is looked at |
| FailureThrottle.EarlierFailuresCount | backend/accounts/owner_two_factor.py:136-142 | Fewer only count |
| FailureThrottle.SuccessStartsOver | backend/accounts/owner_two_factor.py:145-153 | After a success it takes five new failures to lock again; the time step is noted |
| ThrottledDevice.TotpDevice.RegisterFailureOnDevice | backend/accounts/owner_two_factor.py:136-142 | Counts, and at the fifth failure locks for thirty seconds and starts over |
| ThrottledDevice.TotpDevice.RegisterSuccessOnDevice | backend/accounts/owner_two_factor.py:145-153 | Forgets failures and lock |

## Left out

- Plan, interval and currency texts are assumed trimmed and in lower case, and a missing subscription row is the default row; parsing and normalising are easy.
- CheckStation-managed workspaces: every commercial step refuses them, so they add no behaviour.
- `schedule_downgrade` and `clear_pending_downgrade` (`backend/billing/services.py:452-565`): nothing else calls them.
- The administrative lifecycle that sets a plan by hand, and `apply_effective_plan` beyond setting the plan: `backend/organizations/lifecycle.py` is not part of this model.
- The remaining owner operations (preview, upgrade, downgrade, resume, portal, invoices): guard sequences around a provider call and one of the modelled steps.
- Stripe, Apple and Google clients, signature checks, token verification, mail, passwords, hashing: claims, snapshots and verdicts are arbitrary inputs.
- Stale objects: a caller that reads a row outside the lock and saves it later is modelled only where it matters, in the checkout protocol and in `OverlappingRequestsCollide`.
- Checkout expiry times. Customer, currency and start of billing are parameters of a completed session; in the interleaved protocol billing becoming live is a step of its own.
- A checkout request's `checkout_processing` answer carries only the session id.
- The wall-clock reset boundary of attendance and the snapshots stored with a record: the boundary is a parameter, one run is about one reset window with times that do not go back.
- The report's texts: how a heading is made of names and labels is a parameter, and so is the type of a deleted group; time formatting, daylight saving (zones are fixed offsets).
- Sign-up restarts, sessions and recovery challenges beyond the address they carry; superuser creation can take another account's backup address and is not a step.
- Concurrent wrong codes with lost updates of the device counter: one verification is one step.
- WorkspaceBilling.Workspace.ReconcileSubscriptionSnapshot: the row is one record reassigned column by column, not twenty separate fields; `update_fields` is modelled by what each step stores.
- StoreOwnership.OwnershipStaysDisjoint: deliveries name their purchase, as the parsers guarantee; a blank identifier owns nothing.
