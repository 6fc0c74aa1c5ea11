/**
  Every way the stored account of a workspace changes, as one step type, and what
  holds in every state a run of such steps reaches.
 */
module BillingRuns {
  import opened BillingTypes
  import opened BillingServices
  import opened Reconciliation
  import opened ReconciliationFixedPoint

  /**
    Sync is a reconciliation that nothing interrupts, SyncOrNothing one inside a transaction that an error
    rolls back. The last four are the blocks of a reconciliation that are no transitions of their own.
   */
  datatype Step =
    | StartDeferred(sale: Sale)
    | StartPaid(sale: Sale)
    | ApplyUpgrade(target: Plan, start: Option<Time>, end: Option<Time>, subscription: string, currency: Currency)
    | Schedule(target: Plan, interval: Interval, effectiveAt: Option<Time>)
    | OwnerSchedule(target: Plan, interval: Interval)
    | Cancel(effectiveAt: Option<Time>)
    | RevokeCancel
    | RevokeSchedule
    | FailPayment(failedAt: Option<Time>, deadline: Option<Time>)
    | WarnPayment(warnedAt: Option<Time>)
    | RecoverPayment(recoveredAt: Option<Time>)
    | End
    | Sweep
    | Grant
    | Expire
    | DenyGrant
    | ChooseIntent(plan: Plan, interval: Interval)
    | DropIntent
    | Sync(snapshot: Snapshot)
    | SyncOrNothing(snapshot: Snapshot)
    | KeepIds(snapshot: Snapshot)
    | KeepCurrency(currency: Currency)
    | ShiftPeriod(snapshot: Snapshot)
    | WritePlus

  function Apply(a: Account, step: Step, now: Time): Outcome {
    match step
    case StartDeferred(sale) => DeferredStart(a, sale, now)
    case StartPaid(sale) => Activate(a, sale, now)
    case ApplyUpgrade(target, start, end, subscription, currency) =>
      Upgrade(a, target, start, end, subscription, currency)
    case Schedule(target, interval, at) => ScheduleChange(a, target, interval, at)
    case OwnerSchedule(target, interval) => OwnerScheduleChange(a, target, interval, now)
    case Cancel(at) => ScheduleCancellation(a, at)
    case RevokeCancel => ClearCancellation(a)
    case RevokeSchedule => ClearScheduledChange(a)
    case FailPayment(failedAt, deadline) => PaymentFailure(a, failedAt, deadline, now)
    case WarnPayment(at) => PaymentWarning(a, at, now)
    case RecoverPayment(at) => PaymentRecovered(a, at, now)
    case End => FinalizeEnd(a, now)
    case Sweep => SweepDue(a, now)
    case Grant => GrantWeek(a, now)
    case Expire => ExpireWeek(a, now)
    case DenyGrant => MarkIneligible(a)
    case ChooseIntent(plan, interval) => SetIntent(a, plan, interval, now)
    case DropIntent => ClearIntent(a)
    case Sync(s) => Reconcile(a, s, now)
    case SyncOrNothing(s) =>
      var o := Reconcile(a, s, now);
      if o.result == Done then o else Outcome(a, o.result)
    case KeepIds(s) => Outcome(StoreIds(a, s), Done)
    case KeepCurrency(currency) => Save(a, a.row.(currency := currency))
    case ShiftPeriod(s) => Outcome(MovePeriod(a, s), Done)
    case WritePlus => Outcome(a.(plan := Plus), Done)
  }

  datatype Event = Event(step: Step, at: Time)

  /** The stored account after a run; a step that raises keeps what it had already stored. */
  function Run(a: Account, events: seq<Event>): Account {
    if events == [] then a
    else
      var before := Run(a, events[..|events| - 1]);
      var last := events[|events| - 1];
      Apply(before, last.step, last.at).account
  }

  /** The price a snapshot resolves to is always an entry of the price table, and so is a currency taken from it. */
  predicate Priced(step: Step) {
    && ((step.Sync? || step.SyncOrNothing?) && step.snapshot.price.Some? ==> Catalogued(step.snapshot.price.value))
    && (step.KeepCurrency? ==> KnownCurrency(step.currency))
  }

  lemma DeferredStartKeepsCoherence(a: Account, sale: Sale, now: Time)
    requires Coherent(a.row)
    ensures Coherent(DeferredStart(a, sale, now).account.row)
  {}

  lemma ActivateKeepsCoherence(a: Account, sale: Sale, now: Time)
    requires Coherent(a.row)
    ensures Coherent(Activate(a, sale, now).account.row)
  {}

  lemma UpgradeKeepsCoherence(a: Account, target: Plan, start: Option<Time>, end: Option<Time>,
          subscription: string, currency: Currency)
    requires Coherent(a.row)
    ensures Coherent(Upgrade(a, target, start, end, subscription, currency).account.row)
  {}

  lemma CancelKeepsCoherence(o: Outcome, cancel: bool, at: Option<Time>)
    requires Coherent(o.account.row)
    ensures Coherent(CancelIf(o, cancel, at).account.row)
  {}

  lemma SweepKeepsCoherence(a: Account, now: Time)
    requires Coherent(a.row)
    ensures Coherent(SweepDue(a, now).account.row)
  {}

  lemma ScheduleKeepsCoherence(a: Account, target: Plan, interval: Interval, at: Option<Time>)
    requires Coherent(a.row)
    ensures Coherent(ScheduleChange(a, target, interval, at).account.row)
  {}

  lemma IntentKeepsCoherence(a: Account, plan: Plan, interval: Interval, now: Time)
    requires Coherent(a.row)
    ensures Coherent(SetIntent(a, plan, interval, now).account.row) && Coherent(ClearIntent(a).account.row)
  {}

  lemma DelayedKeepsCoherence(c: Account, s: Snapshot, p: Price, now: Time)
    requires Coherent(c.row)
    ensures Coherent(ReconcileDelayed(c, s, p, now).account.row)
  {
    var end := OrTime(s.delayEnd, s.periodEnd);
    var sale := SaleOf(s, p, OrTime(s.delayStart, s.periodStart), end);
    DeferredStartKeepsCoherence(c, sale, now);
    CancelKeepsCoherence(DeferredStart(c, sale, now), s.cancel, end);
  }

  lemma EndedKeepsCoherence(a: Account, s: Snapshot, now: Time)
    requires Coherent(a.row) && s.status == Ended
    ensures Coherent(Reconcile(a, s, now).account.row)
  {
    CancelKeepsCoherence(Outcome(StoreIds(a, s), Done), true, s.periodEnd);
  }

  lemma ReconcileKeepsCoherence(a: Account, s: Snapshot, now: Time)
    requires Coherent(a.row) && (s.status != Ended && s.price.Some? ==> Catalogued(s.price.value))
    ensures Coherent(Reconcile(a, s, now).account.row)
  {
    if s.status == Ended {
      EndedKeepsCoherence(a, s, now);
    } else if s.price.Some? && !WrongMarket(a.row, s.price.value) {
      var p := s.price.value;
      var c := PaymentRecovered(Adopt(a, s, p), Some(now), now).account;
      assert Coherent(c.row);
      if s.status == Delayed {
        DelayedKeepsCoherence(c, s, p, now);
      } else if s.status == Current {
        CurrentKeepsCoherence(c, s, p, now);
      }
    }
  }

  lemma CurrentKeepsCoherence(c: Account, s: Snapshot, p: Price, now: Time)
    requires Coherent(c.row) && Catalogued(p)
    ensures Coherent(ReconcileCurrent(c, s, p, now).account.row)
  {
    var sale, o := SaleOf(s, p, s.periodStart, s.periodEnd), ReconcileCurrent(c, s, p, now);
    if o == CancelIf(Outcome(MovePeriod(c, s), Done), s.cancel, s.periodEnd) {
      CancelKeepsCoherence(Outcome(MovePeriod(c, s), Done), s.cancel, s.periodEnd);
    } else if o == CancelIf(Activate(c, sale, now), s.cancel, s.periodEnd) {
      ActivateKeepsCoherence(c, sale, now);
      CancelKeepsCoherence(Activate(c, sale, now), s.cancel, s.periodEnd);
    } else if o == Activate(c.(plan := Plus), sale, now) {
      ActivateKeepsCoherence(c.(plan := Plus), sale, now);
    } else {
      UpgradeKeepsCoherence(c, Business, s.periodStart, s.periodEnd, s.subscription, p.currency);
    }
  }

  predicate Sells(step: Step) {
    step.StartDeferred? || step.StartPaid? || step.ApplyUpgrade? || step.Schedule? || step.OwnerSchedule?
  }

  predicate Reconciles(step: Step) {
    step.Sync? || step.SyncOrNothing?
  }

  lemma SaleKeepsCoherence(a: Account, step: Step, now: Time)
    requires Coherent(a.row) && Sells(step)
    ensures Coherent(Apply(a, step, now).account.row)
  {
    match step
    case StartDeferred(sale) => DeferredStartKeepsCoherence(a, sale, now);
    case StartPaid(sale) => ActivateKeepsCoherence(a, sale, now);
    case ApplyUpgrade(target, start, end, subscription, currency) =>
      UpgradeKeepsCoherence(a, target, start, end, subscription, currency);
    case Schedule(target, interval, at) => ScheduleKeepsCoherence(a, target, interval, at);
    case OwnerSchedule(target, interval) =>
      ScheduleKeepsCoherence(a, OrPlan(target, a.row.plan), OrInterval(interval, a.row.interval), None);
  }

  lemma OtherStepKeepsCoherence(a: Account, step: Step, now: Time)
    requires Coherent(a.row) && Priced(step) && !Sells(step) && !Reconciles(step)
    ensures Coherent(Apply(a, step, now).account.row)
  {
    match step
    case Sweep => SweepKeepsCoherence(a, now);
    case ChooseIntent(plan, interval) => IntentKeepsCoherence(a, plan, interval, now);
    case DropIntent => IntentKeepsCoherence(a, NoPlan, NoInterval, now);
    case _ =>
  }

  lemma StepKeepsCoherence(a: Account, step: Step, now: Time)
    requires Coherent(a.row) && Priced(step)
    ensures Coherent(Apply(a, step, now).account.row)
  {
    if Sells(step) {
      SaleKeepsCoherence(a, step, now);
    } else if Reconciles(step) {
      ReconcileKeepsCoherence(a, step.snapshot, now);
    } else {
      OtherStepKeepsCoherence(a, step, now);
    }
  }

  /** In every reachable state the row is coherent. */
  lemma {:induction false} RunsStayCoherent(a: Account, events: seq<Event>)
    requires Coherent(a.row) && forall e :: e in events ==> Priced(e.step)
    ensures Coherent(Run(a, events).row)
  {
    if events != [] {
      var front, last := events[..|events| - 1], events[|events| - 1];
      RunsStayCoherent(a, front);
      StepKeepsCoherence(Run(a, front), last.step, last.at);
    }
  }

  // ---- the effective plan ----

  /** What the effective plan may be, and why. */
  predicate Justified(a: Account) {
    || a.plan == Basic
    || (Paid(a.row.status) && a.plan == a.row.plan)
    || (a.plan == Business && Unsettled(a.week))
  }

  /** A change that leaves the plan of a provider-delayed row alone falls due when the delay ends, or later. */
  predicate DelayRespected(r: Row) {
    r.status == Trialing && PaidPlan(r.pendingPlan) && r.pendingPlan == r.plan ==>
      r.delayEnd.Some? && r.pendingAt.Some? && r.delayEnd.value <= r.pendingAt.value
  }

  /** The invariant behind Justified: during the free week Business with nothing scheduled, later the paid plan. */
  predicate Entitled(a: Account, clock: Time) {
    && Coherent(a.row) && DelayRespected(a.row)
    && if WeekActive(a.week, clock) then a.plan == Business && !PaidPlan(a.row.pendingPlan)
       else if Unsettled(a.week) then
         a.plan == Basic || a.plan == Business || (Paid(a.row.status) && a.plan == a.row.plan)
       else PlanMatches(a)
  }

  /** A change of the interval alone, scheduled on a delayed row, would fall due before the delay ends. */
  predicate TooEarly(r: Row, target: Plan, at: Option<Time>) {
    var when := OrTime(at, r.periodEnd);
    r.status == Trialing && target == r.plan && when.Some? && r.delayEnd.Some? && when.value < r.delayEnd.value
  }

  /** The steps the plan guarantee is about, in the state and at the time they are taken. */
  predicate Permitted(a: Account, step: Step, now: Time) {
    match step
    case Schedule(target, _, at) => !WeekActive(a.week, now) && !TooEarly(a.row, target, at)
    case OwnerSchedule(target, _) => !TooEarly(a.row, OrPlan(target, a.row.plan), None)
    case Grant => a.week != NoRecord || !PaidPlan(a.row.pendingPlan)
    case DenyGrant => a.week.Granted? || !Paid(a.row.status)
    case Sync(s) => Priced(step) && !LosesPlan(a, s, now)
    case SyncOrNothing(s) => Priced(step) && !LosesPlanWhole(a, s, now)
    case WritePlus => !WeekActive(a.week, now) && Paid(a.row.status) && a.row.plan == Plus
    case KeepCurrency(currency) => KnownCurrency(currency)
    case _ => true
  }

  /** The snapshot is at the price of Plus while Business is in force, and no scheduled change holds the row. */
  predicate Downgrades(a: Account, s: Snapshot, now: Time) {
    && s.status == Current && s.price.Some? && !WrongMarket(a.row, s.price.value)
    && s.price.value.plan == Plus && a.plan == Business
    && (Held(a.row, s, now) ==>
          var pair := (s.price.value.plan, s.price.value.interval);
          pair != (a.row.plan, a.row.interval) && pair == Target(a.row))
  }

  /** A downgrade in the free week, or one that writes the plan and is then refused for its period. */
  predicate LosesPlan(a: Account, s: Snapshot, now: Time) {
    && Downgrades(a, s, now)
    && (WeekActive(a.week, now) || (!Windowed(s, now) && !(Paid(a.row.status) && a.row.plan == Plus)))
  }

  /** Inside a transaction a refused downgrade leaves nothing behind. */
  predicate LosesPlanWhole(a: Account, s: Snapshot, now: Time) {
    Downgrades(a, s, now) && WeekActive(a.week, now) && Windowed(s, now)
  }

  lemma DeferredStartKeepsPlan(a: Account, sale: Sale, now: Time)
    requires Entitled(a, now)
    ensures Entitled(DeferredStart(a, sale, now).account, now)
  {
    DeferredStartKeepsCoherence(a, sale, now);
  }

  lemma ActivateKeepsPlan(a: Account, sale: Sale, now: Time)
    requires Entitled(a, now)
    ensures Entitled(Activate(a, sale, now).account, now)
  {
    ActivateKeepsCoherence(a, sale, now);
  }

  lemma UpgradeKeepsPlan(a: Account, target: Plan, start: Option<Time>, end: Option<Time>, subscription: string,
          currency: Currency, now: Time)
    requires Entitled(a, now)
    ensures Entitled(Upgrade(a, target, start, end, subscription, currency).account, now)
  {
    UpgradeKeepsCoherence(a, target, start, end, subscription, currency);
  }

  lemma ScheduleKeepsPlan(a: Account, target: Plan, interval: Interval, at: Option<Time>, now: Time)
    requires Entitled(a, now) && Permitted(a, Schedule(target, interval, at), now)
    ensures Entitled(ScheduleChange(a, target, interval, at).account, now)
  {
    ScheduleKeepsCoherence(a, target, interval, at);
  }

  lemma CancelKeepsPlan(o: Outcome, cancel: bool, at: Option<Time>, now: Time)
    requires Entitled(o.account, now)
    ensures Entitled(CancelIf(o, cancel, at).account, now)
  {
    CancelKeepsCoherence(o, cancel, at);
  }

  lemma SweepKeepsPlan(a: Account, now: Time)
    requires Entitled(a, now)
    ensures Entitled(SweepDue(a, now).account, now)
  {
    SweepKeepsCoherence(a, now);
  }

  lemma IntentKeepsPlan(a: Account, plan: Plan, interval: Interval, now: Time)
    requires Entitled(a, now)
    ensures Entitled(SetIntent(a, plan, interval, now).account, now) && Entitled(ClearIntent(a).account, now)
  {
    IntentKeepsCoherence(a, plan, interval, now);
  }

  /** The local downgrade writes the plan before the row; together they agree again. */
  lemma DowngradeKeepsPlan(c: Account, sale: Sale, now: Time)
    requires Entitled(c, now) && !WeekActive(c.week, now) && sale.plan == Plus && SaleWindow(sale, now) == Done
    ensures Entitled(Activate(c.(plan := Plus), sale, now).account, now)
  {
    ActivateKeepsCoherence(c.(plan := Plus), sale, now);
  }

  /**
    Writing the downgraded plan ahead of the row keeps the guarantee exactly when the row is a
    paid Plus row already.
   */
  lemma PlanWriteKeepsPlanIff(a: Account, now: Time)
    requires Entitled(a, now)
    ensures Entitled(Apply(a, WritePlus, now).account, now) <==>
              !WeekActive(a.week, now) && Paid(a.row.status) && a.row.plan == Plus
    ensures Justified(Apply(a, WritePlus, now).account) <==> Paid(a.row.status) && a.row.plan == Plus
  {}

  lemma MovePeriodKeepsPlan(c: Account, s: Snapshot, now: Time)
    requires Entitled(c, now)
    ensures Entitled(CancelIf(Outcome(MovePeriod(c, s), Done), s.cancel, s.periodEnd).account, now)
  {
    CancelKeepsPlan(Outcome(MovePeriod(c, s), Done), s.cancel, s.periodEnd, now);
  }

  lemma CurrentKeepsPlan(c: Account, s: Snapshot, p: Price, now: Time)
    requires Entitled(c, now) && Catalogued(p) && s.status == Current && s.price == Some(p)
    requires !WrongMarket(c.row, p) && !Downgrades(c, s, now)
    ensures Entitled(ReconcileCurrent(c, s, p, now).account, now)
  {
    var sale := SaleOf(s, p, s.periodStart, s.periodEnd);
    MovePeriodKeepsPlan(c, s, now);
    UpgradeKeepsPlan(c, Business, s.periodStart, s.periodEnd, s.subscription, p.currency, now);
    ActivateKeepsPlan(c, sale, now);
    CancelKeepsPlan(Activate(c, sale, now), s.cancel, s.periodEnd, now);
  }

  /** The downgrade branch: plan first, then the activation, which an unordered period refuses. */
  lemma DowngradeKeepsPlanIff(c: Account, s: Snapshot, p: Price, now: Time)
    requires Entitled(c, now) && Catalogued(p) && s.price == Some(p) && Downgrades(c, s, now)
    ensures var d := ReconcileCurrent(c, s, p, now);
            && (d.result == Done <==> Windowed(s, now))
            && (Entitled(d.account, now) <==> !LosesPlan(c, s, now))
            && (!WeekActive(c.week, now) ==> (Justified(d.account) <==> !LosesPlan(c, s, now)))
  {
    var sale := SaleOf(s, p, s.periodStart, s.periodEnd);
    assert ReconcileCurrent(c, s, p, now) == Activate(c.(plan := Plus), sale, now);
    if Windowed(s, now) {
      if !WeekActive(c.week, now) { DowngradeKeepsPlan(c, sale, now); }
    } else {
      PlanWriteKeepsPlanIff(c, now);
    }
  }

  lemma DelayedKeepsPlan(c: Account, s: Snapshot, p: Price, now: Time)
    requires Entitled(c, now)
    ensures Entitled(ReconcileDelayed(c, s, p, now).account, now)
  {
    var end := OrTime(s.delayEnd, s.periodEnd);
    var sale := SaleOf(s, p, OrTime(s.delayStart, s.periodStart), end);
    DeferredStartKeepsPlan(c, sale, now);
    CancelKeepsPlan(DeferredStart(c, sale, now), s.cancel, end, now);
  }

  lemma EnteringKeepsPlan(a: Account, s: Snapshot, p: Price, now: Time)
    requires Entitled(a, now) && Catalogued(p)
    ensures Entitled(Adopt(a, s, p), now)
    ensures Entitled(PaymentRecovered(Adopt(a, s, p), Some(now), now).account, now)
    ensures Entitled(PaymentFailure(Adopt(a, s, p), Some(now), None, now).account, now)
    ensures PaymentRecovered(Adopt(a, s, p), Some(now), now).account.week == a.week
  {}

  lemma EndedKeepsPlan(a: Account, s: Snapshot, now: Time)
    requires Entitled(a, now) && s.status == Ended
    ensures Entitled(Reconcile(a, s, now).account, now)
  {
    assert Entitled(StoreIds(a, s), now);
    CancelKeepsPlan(Outcome(StoreIds(a, s), Done), true, s.periodEnd, now);
  }

  lemma EntitledIsJustified(a: Account, now: Time)
    requires Entitled(a, now)
    ensures Justified(a)
  {}

  lemma ActiveKeepsPlanIff(a: Account, s: Snapshot, p: Price, now: Time)
    requires Entitled(a, now) && s.status == Current && s.price == Some(p) && Catalogued(p) && !WrongMarket(a.row, p)
    ensures var o := Reconcile(a, s, now);
            && (Entitled(o.account, now) <==> !LosesPlan(a, s, now))
            && (!WeekActive(a.week, now) ==> (Justified(o.account) <==> !LosesPlan(a, s, now)))
            && (Downgrades(a, s, now) ==> (o.result == Done <==> Windowed(s, now)))
  {
    var c := Entering(a, s, p, now);
    EnteringKeepsPlan(a, s, p, now);
    assert Reconcile(a, s, now) == ReconcileCurrent(c, s, p, now);
    assert !WrongMarket(c.row, p) && Downgrades(c, s, now) == Downgrades(a, s, now);
    if Downgrades(a, s, now) {
      DowngradeKeepsPlanIff(c, s, p, now);
    } else {
      CurrentKeepsPlan(c, s, p, now);
      EntitledIsJustified(Reconcile(a, s, now).account, now);
    }
  }

  /**
    An undisturbed reconciliation keeps the guarantee exactly unless it downgrades in the
    free week or writes the plan of a downgrade that is then refused.
   */
  lemma SyncKeepsPlanIff(a: Account, s: Snapshot, now: Time)
    requires Entitled(a, now) && Priced(Sync(s))
    ensures Entitled(Reconcile(a, s, now).account, now) <==> !LosesPlan(a, s, now)
    ensures !WeekActive(a.week, now) ==> (Justified(Reconcile(a, s, now).account) <==> !LosesPlan(a, s, now))
  {
    if s.status == Current && s.price.Some? && !WrongMarket(a.row, s.price.value) {
      ActiveKeepsPlanIff(a, s, s.price.value, now);
    } else {
      if s.status == Ended {
        EndedKeepsPlan(a, s, now);
      } else if s.price.Some? && !WrongMarket(a.row, s.price.value) {
        EnteringKeepsPlan(a, s, s.price.value, now);
        if s.status == Delayed {
          DelayedKeepsPlan(Entering(a, s, s.price.value, now), s, s.price.value, now);
        }
      }
      EntitledIsJustified(Reconcile(a, s, now).account, now);
    }
  }

  /** Inside a transaction an ordered period makes no difference outside the free week. */
  lemma WholeSyncKeepsPlanIff(a: Account, s: Snapshot, now: Time)
    requires Entitled(a, now) && Priced(SyncOrNothing(s))
    ensures Entitled(Apply(a, SyncOrNothing(s), now).account, now) <==> !LosesPlanWhole(a, s, now)
  {
    SyncKeepsPlanIff(a, s, now);
    if Downgrades(a, s, now) {
      ActiveKeepsPlanIff(a, s, s.price.value, now);
    }
  }

  /** The steps that touch a few columns of the row and leave the plan alone. */
  predicate Small(step: Step) {
    || step.RevokeCancel? || step.RevokeSchedule? || step.FailPayment? || step.WarnPayment? || step.RecoverPayment?
    || step.KeepIds? || step.KeepCurrency? || step.ShiftPeriod?
  }

  lemma EndKeepsPlan(a: Account, now: Time)
    requires Entitled(a, now)
    ensures Entitled(FinalizeEnd(a, now).account, now)
  {}

  lemma WeekStepKeepsPlan(a: Account, step: Step, now: Time)
    requires Entitled(a, now) && Permitted(a, step, now) && (step.Grant? || step.Expire? || step.DenyGrant?)
    ensures Entitled(Apply(a, step, now).account, now)
  {}

  lemma SmallStepKeepsPlan(a: Account, step: Step, now: Time)
    requires Entitled(a, now) && Permitted(a, step, now) && Small(step)
    ensures Entitled(Apply(a, step, now).account, now)
  {}

  lemma StepKeepsPlan(a: Account, step: Step, now: Time)
    requires Entitled(a, now) && Permitted(a, step, now)
    ensures Entitled(Apply(a, step, now).account, now)
  {
    match step
    case StartDeferred(sale) => DeferredStartKeepsPlan(a, sale, now);
    case StartPaid(sale) => ActivateKeepsPlan(a, sale, now);
    case ApplyUpgrade(target, start, end, subscription, currency) =>
      UpgradeKeepsPlan(a, target, start, end, subscription, currency, now);
    case Schedule(target, interval, at) => ScheduleKeepsPlan(a, target, interval, at, now);
    case OwnerSchedule(target, interval) =>
      if !WeekActive(a.week, now) {
        ScheduleKeepsPlan(a, OrPlan(target, a.row.plan), OrInterval(interval, a.row.interval), None, now);
      }
    case Cancel(at) => CancelKeepsPlan(Outcome(a, Done), true, at, now);
    case Sweep => SweepKeepsPlan(a, now);
    case ChooseIntent(plan, interval) => IntentKeepsPlan(a, plan, interval, now);
    case DropIntent => IntentKeepsPlan(a, NoPlan, NoInterval, now);
    case Sync(s) => SyncKeepsPlanIff(a, s, now);
    case SyncOrNothing(s) => WholeSyncKeepsPlanIff(a, s, now);
    case End => EndKeepsPlan(a, now);
    case WritePlus => PlanWriteKeepsPlanIff(a, now);
    case Grant | Expire | DenyGrant => WeekStepKeepsPlan(a, step, now);
    case _ => SmallStepKeepsPlan(a, step, now);
  }

  /** Time alone only ends the free week. */
  lemma EntitledLater(a: Account, earlier: Time, later: Time)
    requires Entitled(a, earlier) && earlier <= later
    ensures Entitled(a, later)
  {}

  predicate InOrder(events: seq<Event>) {
    forall i, j :: 0 <= i < j < |events| ==> events[i].at <= events[j].at
  }

  predicate PermittedRun(a: Account, events: seq<Event>) {
    forall i :: 0 <= i < |events| ==> Permitted(Run(a, events[..i]), events[i].step, events[i].at)
  }

  lemma FrontIsPermitted(a: Account, events: seq<Event>)
    requires InOrder(events) && PermittedRun(a, events) && events != []
    ensures var front, last := events[..|events| - 1], events[|events| - 1];
            && InOrder(front) && PermittedRun(a, front) && Permitted(Run(a, front), last.step, last.at)
            && (front != [] ==> front[0] == events[0] && front[|front| - 1].at <= last.at)
  {
    var front := events[..|events| - 1];
    assert forall i :: 0 <= i < |front| ==> front[..i] == events[..i];
  }

  lemma {:induction false} RunsStayEntitled(a: Account, events: seq<Event>, clock: Time)
    requires Entitled(a, clock) && InOrder(events) && PermittedRun(a, events)
    requires events != [] ==> clock <= events[0].at
    ensures Entitled(Run(a, events), if events == [] then clock else events[|events| - 1].at)
  {
    if events != [] {
      var front, last := events[..|events| - 1], events[|events| - 1];
      FrontIsPermitted(a, events);
      RunsStayEntitled(a, front, clock);
      EntitledLater(Run(a, front), if front == [] then clock else front[|front| - 1].at, last.at);
      StepKeepsPlan(Run(a, front), last.step, last.at);
    }
  }

  const NEW_WORKSPACE := Account(DEFAULT_ROW, Basic, NoRecord)

  /** From a new workspace on, the effective plan always has a reason, and after the free week it is the paid plan. */
  lemma EffectivePlanIsJustified(events: seq<Event>)
    requires InOrder(events) && PermittedRun(NEW_WORKSPACE, events)
    ensures Justified(Run(NEW_WORKSPACE, events))
    ensures var a := Run(NEW_WORKSPACE, events);
            !Unsettled(a.week) ==> a.plan == if Paid(a.row.status) then a.row.plan else Basic
  {
    RunsStayEntitled(NEW_WORKSPACE, events, if events == [] then 0 else events[0].at);
  }

  /** Dropping the plan chosen in the free week keeps Business in force and lets the owner choose again. */
  lemma ClearedSelectionMayBeChosenAgain(a: Account, s: Snapshot, plan: Plan, interval: Interval, now: Time)
    requires Entitled(a, now) && WeekActive(a.week, now) && a.row.source == Stripe && a.row.subscription != ""
    requires s.status == Ended && !s.cancel && PaidPlan(plan) && PaidInterval(interval)
    ensures var cleared := ClearSelection(a, s, now);
            && cleared.result == Done && cleared.account.plan == Business && Entitled(cleared.account, now)
            && SetIntent(cleared.account, plan, interval, now).result == Done
  {
    EndedKeepsPlan(a, s, now);
    var o := Reconcile(a, s, now);
    assert o == FinalizeEnd(StoreIds(a, s), now);
    assert ClearSelection(a, s, now) == FinalizeEnd(o.account, now);
  }

  // ---- the hypotheses are needed ----

  /** During the free week an active snapshot leaves Business in force exactly when it is not priced Plus. */
  lemma ActiveSnapshotInFreeWeek(a: Account, s: Snapshot, now: Time)
    requires Entitled(a, now) && WeekActive(a.week, now)
    requires s.status == Current && s.price.Some? && Catalogued(s.price.value) && !WrongMarket(a.row, s.price.value)
    ensures Reconcile(a, s, now).account.plan == Business <==> s.price.value.plan != Plus
  {
    var p := s.price.value;
    var c := PaymentRecovered(Adopt(a, s, p), Some(now), now).account;
    assert c.plan == Business && !Held(c.row, s, now) && !DowngradePending(c.row);
  }

  /** If the subscription then ends within the week, the plan has lost its reason exactly when the price was Plus. */
  lemma PlusInFreeWeekLosesItsReason(a: Account, s: Snapshot, now: Time, later: Time)
    requires Entitled(a, now) && WeekActive(a.week, now) && WeekActive(a.week, later)
    requires s.status == Current && s.price.Some? && Catalogued(s.price.value) && !WrongMarket(a.row, s.price.value)
    ensures var active := Reconcile(a, s, now).account;
            Justified(FinalizeEnd(active, later).account) <==> s.price.value.plan != Plus
  {
    ActiveSnapshotInFreeWeek(a, s, now);
    var c := PaymentRecovered(Adopt(a, s, s.price.value), Some(now), now).account;
    assert c.plan == Business && !Held(c.row, s, now) && !DowngradePending(c.row);
  }

  /** Denying a grant keeps plan and subscription together exactly when nothing is paid. */
  lemma DenialKeepsPlanIff(a: Account)
    requires Coherent(a.row) && PlanMatches(a) && !a.week.Granted?
    ensures PlanMatches(MarkIneligible(a).account) <==> !Paid(a.row.status)
  {}

  /** A change of the interval alone falls due before the provider delay has ended. */
  predicate EarlyIntervalChange(r: Row, now: Time) {
    && r.status == Trialing && !r.cancel && r.pendingPlan == r.plan
    && Due(r.pendingAt, now) && !Due(r.delayEnd, now)
  }

  /**
    A sweep keeps plan and subscription together exactly when no such change is due: it activates
    the row and not the plan.
   */
  lemma SweepKeepsPlanIff(a: Account, now: Time)
    requires Coherent(a.row) && PlanMatches(a)
    ensures PlanMatches(SweepDue(a, now).account) <==> !EarlyIntervalChange(a.row, now)
  {}

  /** A workspace paying for Business, its free week never granted. */
  const PAYING := Account(
    DEFAULT_ROW.(source := Stripe, subscription := "sub", status := Active, plan := Business, interval := Monthly),
    Business, Ineligible)

  /** An active subscription at the price of Plus, its period missing. */
  const OPEN_ENDED := Snapshot("sub", "", Current, Some(Price(Plus, Monthly, Usd)), false, None, None, None, None)

  /**
    The downgrade is refused after the plan was written: the workspace is left on Plus
    without a reason. Inside a transaction nothing is left behind.
   */
  lemma RefusedDowngradeLosesItsReason(a: Account, s: Snapshot, now: Time)
    requires a == PAYING && s == OPEN_ENDED
    ensures Entitled(a, now) && Reconcile(a, s, now).result == Raised(BadWindow)
    ensures Reconcile(a, s, now).account == a.(plan := Plus) && !Justified(a.(plan := Plus))
    ensures Apply(a, SyncOrNothing(s), now).account == a
  {
    assert Entering(a, s, s.price.value, now) == a;
    assert Reconcile(a, s, now) == ReconcileCurrent(a, s, s.price.value, now);
  }
}
