/**
  One workspace's stored billing state, updated in place: the entitlement plan,
  the free-week record and the columns of the subscription row. Each method is
  one locked block of the service layer and is proved to do what the
  corresponding function of BillingServices or Reconciliation says; the lemmas
  about those functions are therefore about these methods. An assignment
  `row := row.(c := v)` is the saved column c.
 */
module WorkspaceBilling {
  import opened BillingTypes
  import opened BillingServices
  import opened Reconciliation

  class Workspace {
    var plan: Plan
    var week: FreeWeek
    var row: Row

    function View(): Account
      reads this
    {
      Account(row, plan, week)
    }

    /** A new workspace: no commercial terms, Basic, and no free-week record yet. */
    constructor ()
      ensures View() == Account(DEFAULT_ROW, Basic, NoRecord)
    {
      row, plan, week := DEFAULT_ROW, Basic, NoRecord;
    }

    method ClearPendingFields()
      modifies this`row
      ensures row == ClearPending(old(row))
    {
      row := row.(pendingPlan := NoPlan);
      row := row.(pendingInterval := NoInterval);
      row := row.(pendingAt := None);
      row := row.(cancel := false);
    }

    method ClearPaymentFailureFields(recovered: Option<Time>)
      modifies this`row
      ensures row == ClearPaymentFailure(old(row), recovered)
    {
      row := row.(failedAt := None);
      row := row.(graceDeadline := None);
      row := row.(warnedAt := None);
      row := row.(warnings := 0);
      row := row.(recoveredAt := recovered);
    }

    method StampProviderFields(seller: Source, inCurrency: Currency, customerId: string, subscriptionId: string)
      modifies this`row
      ensures row == StampProvider(old(row), seller, inCurrency, customerId, subscriptionId)
    {
      row := row.(source := seller);
      row := row.(currency := inCurrency);
      if customerId != "" {
        row := row.(customer := customerId);
      }
      if subscriptionId != "" {
        row := row.(subscription := subscriptionId);
      }
    }

    method RecordDeferredPaidStart(s: Sale, now: Time) returns (result: Result)
      modifies this
      ensures Outcome(View(), result) == DeferredStart(old(View()), s, now)
    {
      result := SaleWindow(s, now);
      if result != Done {
        return;
      }
      var started := OrTime(s.start, Some(now));
      if && row.status == Trialing && row.plan == s.plan && row.delayStart == started && row.delayEnd == s.end
         && row.interval == s.interval && !row.cancel
      {
        StampProviderFields(s.source, s.currency, s.customer, s.subscription);
        return;
      }
      if Paid(row.status) {
        return Raised(AlreadyPaid);
      }
      StampProviderFields(s.source, s.currency, s.customer, s.subscription);
      row := row.(status := Trialing);
      row := row.(interval := s.interval);
      row := row.(plan := s.plan);
      row := row.(delayStart := started, delayEnd := s.end);
      row := row.(periodStart := started, periodEnd := s.end);
      ClearPendingFields();
      ClearPaymentFailureFields(None);
    }

    method ActivatePaidSubscription(s: Sale, now: Time) returns (result: Result)
      modifies this
      ensures Outcome(View(), result) == Activate(old(View()), s, now)
    {
      result := SaleWindow(s, now);
      if result != Done {
        return;
      }
      var start := OrTime(s.start, Some(now));
      if Confirmed(View(), s, now) {
        return;
      }
      if !WeekActive(week, now) {
        plan := s.plan;
      }
      StampProviderFields(s.source, s.currency, s.customer, s.subscription);
      row := row.(status := Active);
      row := row.(interval := s.interval);
      row := row.(plan := s.plan);
      row := row.(periodStart := start, periodEnd := s.end);
      ClearPendingFields();
      ClearPaymentFailureFields(None);
    }

    /** What the provider did not send keeps its value. */
    method StampGivenPeriod(start: Option<Time>, end: Option<Time>, subscriptionId: string)
      modifies this`row
      ensures row == old(row).(periodStart := OrTime(start, old(row).periodStart),
                               periodEnd := OrTime(end, old(row).periodEnd),
                               subscription := OrElse(subscriptionId, old(row).subscription))
    {
      if start.Some? {
        row := row.(periodStart := start);
      }
      if end.Some? {
        row := row.(periodEnd := end);
      }
      if subscriptionId != "" {
        row := row.(subscription := subscriptionId);
      }
    }

    method ApplySuccessfulUpgrade(target: Plan, start: Option<Time>, end: Option<Time>, subscriptionId: string,
                                  inCurrency: Currency)
      returns (result: Result)
      modifies this
      ensures Outcome(View(), result) == Upgrade(old(View()), target, start, end, subscriptionId, inCurrency)
    {
      if !PaidPlan(target) {
        return Raised(NotPaidPlan);
      }
      if !Paid(row.status) {
        return Raised(NotSubscribed);
      }
      result := Done;
      if row.plan == target && plan == target && row.pendingPlan == NoPlan {
        return;
      }
      if Rank(target) <= Rank(row.plan) {
        return Raised(NotAnUpgrade);
      }
      if inCurrency != NoCurrency {
        if !KnownCurrency(inCurrency) {
          return Raised(UnsupportedCurrency);
        }
        row := row.(currency := inCurrency);
      }
      WriteUpgrade(target, start, end, subscriptionId);
    }

    method WriteUpgrade(target: Plan, start: Option<Time>, end: Option<Time>, subscriptionId: string)
      modifies this
      ensures plan == target && week == old(week)
      ensures row == UpgradedRow(old(row), target, start, end, subscriptionId, NoCurrency)
    {
      plan := target;
      row := row.(plan := target);
      row := row.(status := Active);
      StampGivenPeriod(start, end, subscriptionId);
      ClearPendingFields();
      ClearPaymentFailureFields(None);
    }

    method ScheduleBillingChange(target: Plan, every: Interval, effectiveAt: Option<Time>) returns (result: Result)
      modifies this`row
      ensures Outcome(View(), result) == ScheduleChange(old(View()), target, every, effectiveAt)
    {
      if !PaidPlan(target) {
        return Raised(NotPaidPlan);
      }
      if !PaidInterval(every) {
        return Raised(NotPaidInterval);
      }
      if !Live(row.status) {
        return Raised(NotSubscribed);
      }
      if row.cancel {
        return Raised(CancellationPending);
      }
      var when := OrTime(effectiveAt, row.periodEnd);
      if when.None? {
        return Raised(NoEffectiveTime);
      }
      if target == Business && row.plan == Plus && every == row.interval {
        return Raised(UseImmediateUpgrade);
      }
      if target == row.plan && every == row.interval {
        return Raised(NothingToChange);
      }
      if row.pendingPlan == target && row.pendingInterval == every && row.pendingAt == when {
        return Done;
      }
      if ScheduledChangePending(row) {
        return Raised(ChangePending);
      }
      row := row.(pendingPlan := target);
      row := row.(pendingInterval := every);
      row := row.(pendingAt := when);
      row := row.(cancel := false);
      return Done;
    }

    method ScheduleCancel(effectiveAt: Option<Time>) returns (result: Result)
      modifies this`row
      ensures Outcome(View(), result) == ScheduleCancellation(old(View()), effectiveAt)
    {
      if !Live(row.status) {
        return Raised(NotSubscribed);
      }
      var when := OrTime(effectiveAt, AccessEnd(row));
      if when.None? {
        return Raised(NoEffectiveTime);
      }
      if row.cancel && row.pendingAt == when && (row.pendingPlan == NoPlan || row.pendingPlan == Basic) {
        return Done;
      }
      row := row.(cancel := true);
      row := row.(pendingPlan := Basic);
      row := row.(pendingAt := when);
      return Done;
    }

    method ClearPendingCancellation() returns (result: Result)
      modifies this`row
      ensures Outcome(View(), result) == ClearCancellation(old(View()))
    {
      if !row.cancel {
        return Done;
      }
      if !Live(row.status) {
        return Raised(AccessEnded);
      }
      row := row.(cancel := false);
      if row.pendingPlan == Basic {
        row := row.(pendingPlan := NoPlan);
        row := row.(pendingAt := None);
      }
      return Done;
    }

    method ClearPendingScheduledChange() returns (result: Result)
      modifies this`row
      ensures Outcome(View(), result) == ClearScheduledChange(old(View()))
    {
      if row.cancel {
        return Raised(CancellationPending);
      }
      if !ScheduledChangePending(row) {
        return Done;
      }
      if !Live(row.status) {
        return Raised(AccessEnded);
      }
      row := row.(pendingPlan := NoPlan);
      row := row.(pendingInterval := NoInterval);
      row := row.(pendingAt := None);
      return Done;
    }

    method MarkPaymentFailure(failed: Option<Time>, deadline: Option<Time>, now: Time) returns (result: Result)
      modifies this`row
      ensures Outcome(View(), result) == PaymentFailure(old(View()), failed, deadline, now)
    {
      if !Paid(row.status) {
        return Raised(NotSubscribed);
      }
      if row.status == PastDue && row.graceDeadline.Some? {
        return Done;
      }
      var moment := OrTime(failed, Some(now)).value;
      row := row.(status := PastDue);
      row := row.(failedAt := Some(moment));
      row := row.(graceDeadline := OrTime(deadline, Some(moment + GRACE)));
      row := row.(recoveredAt := None);
      return Done;
    }

    method RecordPaymentWarning(warned: Option<Time>, now: Time) returns (result: Result)
      modifies this`row
      ensures Outcome(View(), result) == PaymentWarning(old(View()), warned, now)
    {
      if row.status != PastDue {
        return Raised(OutsideGrace);
      }
      row := row.(warnedAt := OrTime(warned, Some(now)));
      row := row.(warnings := row.warnings + 1);
      return Done;
    }

    method MarkPaymentRecovered(recovered: Option<Time>, now: Time)
      modifies this
      ensures Outcome(View(), Done) == PaymentRecovered(old(View()), recovered, now)
    {
      if row.status == PastDue {
        row := row.(status := Active);
        ClearPaymentFailureFields(OrTime(recovered, Some(now)));
      }
    }

    method FinalizeSubscriptionEnd(now: Time)
      modifies this
      ensures Outcome(View(), Done) == FinalizeEnd(old(View()), now)
    {
      if AlreadyEnded(View()) {
        return;
      }
      if !WeekActive(week, now) {
        plan := Basic;
      }
      row := row.(status := Canceled);
      row := row.(source := NoSource);
      row := row.(interval := NoInterval);
      row := row.(plan := NoPlan);
      ClearPendingFields();
      ClearPaymentFailureFields(None);
    }

    method ApplyDueBillingTransitions(now: Time)
      modifies this
      ensures Outcome(View(), Done) == SweepDue(old(View()), now)
    {
      if row.status == PastDue && row.graceDeadline.Some? && now >= row.graceDeadline.value {
        FinalizeSubscriptionEnd(now);
        return;
      }
      if row.status == Trialing && row.delayEnd.Some? && now >= row.delayEnd.value {
        if row.cancel {
          FinalizeSubscriptionEnd(now);
          return;
        }
        var paidPlan := if PaidPlan(row.plan) then row.plan else Business;
        if !WeekActive(week, now) {
          plan := paidPlan;
        }
        var paidEnd := row.periodEnd;
        if paidEnd.None? || paidEnd.value <= row.delayEnd.value {
          paidEnd := None;
        }
        row := row.(status := Active);
        row := row.(plan := paidPlan);
        row := row.(periodStart := row.delayEnd);
        row := row.(periodEnd := paidEnd);
        // The saved columns leave the pending interval as it was.
        row := row.(cancel := false);
        row := row.(pendingPlan := NoPlan);
        row := row.(pendingAt := None);
        return;
      }
      if row.cancel && row.pendingAt.Some? && now >= row.pendingAt.value {
        FinalizeSubscriptionEnd(now);
        return;
      }
      if && row.pendingAt.Some? && now >= row.pendingAt.value && !row.cancel
         && row.pendingPlan != NoPlan && row.pendingPlan != Basic
      {
        if row.pendingPlan != row.plan {
          plan := row.pendingPlan;
        }
        row := row.(plan := row.pendingPlan);
        row := row.(interval := OrInterval(row.pendingInterval, row.interval));
        row := row.(status := Active);
        row := row.(periodStart := row.pendingAt);
        ClearPendingFields();
      }
    }

    // ---- the built-in free week ----

    method GrantBuiltinTrial(now: Time)
      modifies this`plan, this`week
      ensures Outcome(View(), Done) == GrantWeek(old(View()), now)
    {
      if week == NoRecord {
        week := Granted(now, now + FREE_WEEK, None);
        plan := Business;
      }
    }

    method MarkIneligibleWithoutGrant()
      modifies this`plan, this`week
      ensures Outcome(View(), Done) == MarkIneligible(old(View()))
    {
      if week == NoRecord {
        week := Ineligible;
      }
      if week == Ineligible && plan != Basic {
        plan := Basic;
      }
    }

    method ExpireDueBuiltinTrial(now: Time)
      modifies this`plan, this`week
      ensures Outcome(View(), Done) == ExpireWeek(old(View()), now)
    {
      if !week.Granted? || now < week.endsAt {
        return;
      }
      if Paid(row.status) && PaidPlan(row.plan) {
        plan := row.plan;
      } else if row.status == Trialing && PaidPlan(row.plan) {
        return;
      } else {
        plan := Basic;
      }
      if week.settledAt.None? {
        week := week.(settledAt := Some(now));
      }
    }

    // ---- owner operations ----

    method ClearCommercialTerms()
      modifies this`row
      ensures row == NoCommercialTerms(old(row))
    {
      row := row.(delayStart := None, delayEnd := None, periodStart := None, periodEnd := None);
      ClearPendingFields();
    }

    method SetFuturePaidIntent(wanted: Plan, every: Interval, now: Time) returns (result: Result)
      modifies this
      ensures Outcome(View(), result) == SetIntent(old(View()), wanted, every, now)
    {
      if !PaidPlan(wanted) {
        return Raised(NotPaidPlan);
      }
      if !PaidInterval(every) {
        return Raised(NotPaidInterval);
      }
      if !WeekActive(week, now) {
        return Raised(FreeWeekOnly);
      }
      if row.source != NoSource {
        return Raised(SourceLocked);
      }
      if Live(row.status) {
        return Raised(AlreadyPaid);
      }
      row := row.(status := NoStatus);
      row := row.(plan := wanted);
      row := row.(interval := every);
      row := row.(customer := "", subscription := "");
      ClearCommercialTerms();
      return Done;
    }

    method ClearFuturePaidIntent() returns (result: Result)
      modifies this
      ensures Outcome(View(), result) == ClearIntent(old(View()))
    {
      if row.source != NoSource {
        return Raised(SourceLocked);
      }
      if Live(row.status) {
        return Raised(AlreadyPaid);
      }
      if row.plan != NoPlan {
        row := row.(plan := NoPlan);
        row := row.(interval := NoInterval);
        ClearCommercialTerms();
      }
      return Done;
    }

    method RequestScheduleBillingChange(wanted: Plan, every: Interval, now: Time) returns (result: Result)
      modifies this`row
      ensures Outcome(View(), result) == OwnerScheduleChange(old(View()), wanted, every, now)
    {
      if WeekActive(week, now) {
        return Raised(FreeWeekRunning);
      }
      if row.source != Stripe {
        return Raised(SourceLocked);
      }
      if !Live(row.status) {
        return Raised(NotSubscribed);
      }
      if row.cancel {
        return Raised(CancellationPending);
      }
      if row.subscription == "" {
        return Raised(NotSubscribed);
      }
      var target, targetInterval := OrPlan(wanted, row.plan), OrInterval(every, row.interval);
      if !PaidPlan(target) {
        return Raised(NotPaidPlan);
      }
      if !PaidInterval(targetInterval) {
        return Raised(NotPaidInterval);
      }
      if target == row.plan && targetInterval == row.interval {
        return Raised(NothingToChange);
      }
      result := ScheduleBillingChange(target, targetInterval, None);
    }

    // ---- reconciliation: a sequence of blocks, not one ----

    method StoreProviderIds(s: Snapshot)
      modifies this`row
      ensures View() == StoreIds(old(View()), s)
    {
      row := row.(source := Stripe);
      if s.customer != "" {
        row := row.(customer := s.customer);
      }
      if s.subscription != "" {
        row := row.(subscription := s.subscription);
      }
    }

    method MoveProviderPeriod(s: Snapshot) returns (result: Result)
      modifies this`row
      ensures Outcome(View(), result) == CancelIf(Outcome(MovePeriod(old(View()), s), Done), s.cancel, s.periodEnd)
    {
      row := row.(periodStart := s.periodStart, periodEnd := s.periodEnd);
      row := row.(subscription := s.subscription, customer := s.customer);
      result := Done;
      if s.cancel {
        result := ScheduleCancel(s.periodEnd);
      }
    }

    method ReconcileCurrentSnapshot(s: Snapshot, p: Price, now: Time) returns (result: Result)
      modifies this
      ensures Outcome(View(), result) == ReconcileCurrent(old(View()), s, p, now)
    {
      var sale := SaleOf(s, p, s.periodStart, s.periodEnd);
      var pendingChange := ScheduledChangePending(row);
      var target, targetInterval := OrPlan(row.pendingPlan, row.plan), OrInterval(row.pendingInterval, row.interval);
      var pendingDowngrade :=
        row.pendingPlan == Plus && row.plan == Business && targetInterval == row.interval && !row.cancel;
      var held := pendingChange && s.periodEnd.Some? && s.periodEnd.value > now;
      if held {
        if p.plan == row.plan && p.interval == row.interval {
          result := MoveProviderPeriod(s);
          return;
        }
        if p.plan != target || p.interval != targetInterval {
          return Done;
        }
      }
      if p.plan == Plus && plan == Business {
        plan := Plus;
        result := ActivatePaidSubscription(sale, now);
        return;
      }
      if p.plan == Business && plan == Plus {
        result := ApplySuccessfulUpgrade(Business, s.periodStart, s.periodEnd, s.subscription, p.currency);
        return;
      }
      if pendingDowngrade && p.plan == Business {
        result := MoveProviderPeriod(s);
        return;
      }
      result := ActivatePaidSubscription(sale, now);
      if result == Done && s.cancel {
        result := ScheduleCancel(s.periodEnd);
      }
    }

    method ReconcileSubscriptionSnapshot(s: Snapshot, now: Time) returns (result: Result)
      modifies this
      ensures Outcome(View(), result) == Reconcile(old(View()), s, now)
    {
      result := Done;
      if s.status == Ended {
        StoreProviderIds(s);
        if s.cancel && s.periodEnd.Some? && s.periodEnd.value > now {
          result := ScheduleCancel(s.periodEnd);
        } else {
          FinalizeSubscriptionEnd(now);
        }
        return;
      }
      if s.price.None? {
        return Raised(PriceUnmapped);
      }
      var p := s.price.value;
      if && row.source == Stripe && row.subscription != "" && Live(row.status)
         && KnownCurrency(row.currency) && row.currency != p.currency
      {
        return Raised(MarketMismatch);
      }
      StoreProviderIds(s);
      if row.currency != p.currency {
        row := row.(currency := p.currency);
      }
      if s.status == Overdue {
        result := MarkPaymentFailure(Some(now), None, now);
        return;
      }
      MarkPaymentRecovered(Some(now), now);
      if s.status == Delayed {
        var end := OrTime(s.delayEnd, s.periodEnd);
        result := RecordDeferredPaidStart(SaleOf(s, p, OrTime(s.delayStart, s.periodStart), end), now);
        if result == Done && s.cancel {
          result := ScheduleCancel(end);
        }
        return;
      }
      result := ReconcileCurrentSnapshot(s, p, now);
    }

    method ClearDeferredTrialSelection(s: Snapshot, now: Time) returns (result: Result)
      modifies this
      ensures Outcome(View(), result) == ClearSelection(old(View()), s, now)
    {
      if !WeekActive(week, now) {
        return Raised(FreeWeekOnly);
      }
      if row.source != Stripe {
        return Raised(SourceLocked);
      }
      if row.subscription == "" {
        return Raised(NotSubscribed);
      }
      result := ReconcileSubscriptionSnapshot(s, now);
      if result == Done {
        FinalizeSubscriptionEnd(now);
      }
    }
  }
}
