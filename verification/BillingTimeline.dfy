/**
  What each billing transition means for the time after it: until when the account stays
  as it is, and what the first sweep from then on makes of it.
 */
module BillingTimeline {
  import opened BillingTypes
  import opened BillingServices
  import opened BillingRuns

  /** The account as a sweep at `t` leaves it. */
  function Later(a: Account, t: Time): Account { SweepDue(a, t).account }

  /** No sweep ever finds anything to do. */
  ghost predicate Stands(a: Account) { forall t :: Later(a, t) == a }

  predicate NothingScheduled(r: Row) {
    r.pendingPlan == NoPlan && r.pendingInterval == NoInterval && r.pendingAt == None && !r.cancel
  }

  predicate NoFailure(r: Row) {
    r.failedAt == None && r.graceDeadline == None && r.warnedAt == None && r.warnings == 0
  }

  /** Who sells what to whom, in which currency. */
  predicate SameSale(r: Row, s: Row) {
    && r.plan == s.plan && r.interval == s.interval
    && r.source == s.source && r.currency == s.currency && r.customer == s.customer && r.subscription == s.subscription
  }

  predicate SamePeriods(r: Row, s: Row) {
    && r.periodStart == s.periodStart && r.periodEnd == s.periodEnd
    && r.delayStart == s.delayStart && r.delayEnd == s.delayEnd
  }

  predicate SameSchedule(r: Row, s: Row) {
    && r.pendingPlan == s.pendingPlan && r.pendingInterval == s.pendingInterval
    && r.pendingAt == s.pendingAt && r.cancel == s.cancel
  }

  predicate SameFailure(r: Row, s: Row) {
    && r.failedAt == s.failedAt && r.graceDeadline == s.graceDeadline
    && r.warnedAt == s.warnedAt && r.warnings == s.warnings && r.recoveredAt == s.recoveredAt
  }

  /** The subscription of `before` is over: only its history is left; the plan is Basic unless the free week runs. */
  predicate Over(a: Account, before: Account, now: Time) {
    && a.row.status == Canceled && a.row.plan == NoPlan && a.row.interval == NoInterval && a.row.source == NoSource
    && NothingScheduled(a.row) && NoFailure(a.row) && a.row.recoveredAt == None
    && SamePeriods(a.row, before.row) && a.row.currency == before.row.currency
    && a.row.customer == before.row.customer && a.row.subscription == before.row.subscription
    && a.week == before.week && a.plan == if WeekActive(a.week, now) then before.plan else Basic
  }

  /** The account stays as it is before `end`, and is over from then on. */
  ghost predicate EndsAt(a: Account, end: Time) {
    forall t :: (t < end ==> Later(a, t) == a) && (t >= end ==> Over(Later(a, t), a, t))
  }

  // ---- payment failures ----

  /** Without another deadline the grace lasts three days from the failure, and ends the subscription then. */
  lemma GraceLastsThreeDays(a: Account, failedAt: Option<Time>, deadline: Option<Time>, now: Time)
    requires Coherent(a.row) && a.row.status == Active && a.row.pendingPlan == NoPlan
    ensures var o := Apply(a, FailPayment(failedAt, deadline), now);
            var failed := if failedAt.Some? then failedAt.value else now;
            && o.result == Done && o.account.plan == a.plan && o.account.week == a.week
            && o.account.row.status == PastDue && o.account.row.failedAt == Some(failed)
            && o.account.row.warnedAt == a.row.warnedAt && o.account.row.warnings == a.row.warnings
            && o.account.row.recoveredAt == None
            && SameSale(o.account.row, a.row) && SamePeriods(o.account.row, a.row) && SameSchedule(o.account.row, a.row)
            && EndsAt(o.account, if deadline.Some? then deadline.value else failed + 3 * 86_400_000_000)
  {}

  /** A failure reported again moves nothing, and none is taken where nothing is paid. */
  lemma FailureIsTakenOnce(a: Account, failedAt: Option<Time>, deadline: Option<Time>, now: Time)
    requires Coherent(a.row) && a.row.status != Active
    ensures Apply(a, FailPayment(failedAt, deadline), now)
            == Outcome(a, if a.row.status == PastDue then Done else Raised(NotSubscribed))
  {}

  /** A payment that comes in leaves the row as sold, with nothing of the failure. */
  lemma RecoveryWipesTheFailure(a: Account, recoveredAt: Option<Time>, now: Time)
    requires Coherent(a.row)
    ensures var o := Apply(a, RecoverPayment(recoveredAt), now);
            && o.result == Done && o.account.plan == a.plan && o.account.week == a.week
            && (a.row.status != PastDue ==> o.account == a)
            && (a.row.status == PastDue ==>
                  && o.account.row.status == Active && NoFailure(o.account.row)
                  && o.account.row.recoveredAt == Some(if recoveredAt.Some? then recoveredAt.value else now)
                  && SameSale(o.account.row, a.row) && SamePeriods(o.account.row, a.row)
                  && SameSchedule(o.account.row, a.row)
                  && (a.row.pendingPlan == NoPlan ==> Stands(o.account)))
  {}

  /** A warning is counted while a payment is due, and changes nothing else. */
  lemma WarningsAreCounted(a: Account, warnedAt: Option<Time>, now: Time)
    ensures var o := Apply(a, WarnPayment(warnedAt), now);
            && (o.result == Done <==> a.row.status == PastDue) && (o.result != Done ==> o.account == a)
            && (o.result == Done ==>
                  && o.account.row.warnings == a.row.warnings + 1
                  && o.account.row.warnedAt == Some(if warnedAt.Some? then warnedAt.value else now)
                  && o.account
                     == a.(row := a.row.(warnings := o.account.row.warnings, warnedAt := o.account.row.warnedAt)))
  {}

  // ---- scheduled changes ----

  /** Grace or provider delay has run out. */
  predicate PhaseOver(r: Row, t: Time) {
    || (r.status == PastDue && r.graceDeadline.Some? && r.graceDeadline.value <= t)
    || (r.status == Trialing && r.delayEnd.Some? && r.delayEnd.value <= t)
  }

  /** The row after the change: the new pair, from the change's own instant on, with nothing pending. */
  predicate ChangedTo(r: Row, before: Row, plan: Plan, interval: Interval, at: Option<Time>) {
    && r.status == Active && r.plan == plan && r.interval == interval
    && r.periodStart == at && r.periodEnd == before.periodEnd
    && r.delayStart == before.delayStart && r.delayEnd == before.delayEnd
    && NothingScheduled(r) && SameFailure(r, before)
    && r.source == before.source && r.currency == before.currency
    && r.customer == before.customer && r.subscription == before.subscription
  }

  /** A due paid change takes effect: the scheduled plan and interval, or the old interval if none was scheduled. */
  lemma DueChangeTakesEffect(a: Account, t: Time)
    requires Coherent(a.row) && PaidPlan(a.row.pendingPlan) && a.row.pendingAt.value <= t && !PhaseOver(a.row, t)
    ensures var b := Later(a, t);
            && ChangedTo(b.row, a.row, a.row.pendingPlan,
                         if a.row.pendingInterval == NoInterval then a.row.interval else a.row.pendingInterval,
                         a.row.pendingAt)
            && b.week == a.week
            && b.plan == if a.row.pendingPlan == a.row.plan then a.plan else a.row.pendingPlan
  {}

  /** What a request for a change asks of the subscription, and what it may not ask. */
  predicate Schedulable(r: Row, plan: Plan, interval: Interval, at: Option<Time>) {
    && (plan == Plus || plan == Business) && interval != NoInterval
    && (r.status == Trialing || r.status == Active || r.status == PastDue) && !r.cancel && at.Some?
    && !(plan == Business && r.plan == Plus && interval == r.interval)
    && (plan, interval) != (r.plan, r.interval)
  }

  /** Nothing is scheduled already, or exactly this, or the plan the row has anyway. */
  predicate RoomFor(r: Row, plan: Plan, interval: Interval, at: Option<Time>) {
    || r.pendingPlan == NoPlan || (r.pendingPlan, r.pendingInterval, r.pendingAt) == (plan, interval, at)
    || (r.pendingPlan == r.plan && r.pendingInterval == NoInterval)
  }

  /** When a request for a change is taken; all it does is to note the change. */
  lemma ChangeIsNoted(a: Account, plan: Plan, interval: Interval, at: Option<Time>, now: Time)
    requires Coherent(a.row)
    ensures var o := Apply(a, Schedule(plan, interval, at), now);
            var r, when := o.account.row, if at.Some? then at else a.row.periodEnd;
            && (o.result == Done <==>
                  Schedulable(a.row, plan, interval, when) && RoomFor(a.row, plan, interval, when))
            && (o.result != Done ==> o.account == a)
            && o.account.plan == a.plan && o.account.week == a.week && r.status == a.row.status
            && SameSale(r, a.row) && SamePeriods(r, a.row) && SameFailure(r, a.row)
            && (o.result == Done ==>
                  !r.cancel && (r.pendingPlan, r.pendingInterval, r.pendingAt) == (plan, interval, when))
  {}

  /** A refusal says why: the immediate upgrade, the pair the row has, or a change that is scheduled already. */
  lemma RefusedChangesSayWhy(a: Account, plan: Plan, interval: Interval, at: Option<Time>, now: Time)
    requires Coherent(a.row) && PaidPlan(plan) && interval != NoInterval && Live(a.row.status)
    ensures var result := Apply(a, Schedule(plan, interval, at), now).result;
            var when := if at.Some? then at else a.row.periodEnd;
            && (result == Raised(CancellationPending) <==> a.row.cancel)
            && (result == Raised(NoEffectiveTime) <==> !a.row.cancel && when.None?)
            && (!a.row.cancel && when.Some? ==>
                  && (result == Raised(NothingToChange) <==> (plan, interval) == (a.row.plan, a.row.interval))
                  && (result == Raised(UseImmediateUpgrade)
                      <==> plan == Business && a.row.plan == Plus && interval == a.row.interval)
                  && (result == Raised(ChangePending)
                      <==> Schedulable(a.row, plan, interval, when) && !RoomFor(a.row, plan, interval, when)))
  {}

  /** A change that is taken leaves exactly what was asked for from its instant on, and changes nothing before. */
  lemma ScheduledChangeArrives(a: Account, plan: Plan, interval: Interval, at: Option<Time>, now: Time, t: Time)
    requires Coherent(a.row) && Apply(a, Schedule(plan, interval, at), now).result == Done
    ensures var b := Apply(a, Schedule(plan, interval, at), now).account;
            var when := if at.Some? then at else a.row.periodEnd;
            !PhaseOver(b.row, t) ==>
              if t < when.value then Later(b, t) == b
              else ChangedTo(Later(b, t).row, a.row, plan, interval, when)
                   && Later(b, t).plan == if plan == a.row.plan then a.plan else plan
  {
    ChangeIsNoted(a, plan, interval, at, now);
    ScheduleKeepsCoherence(a, plan, interval, at);
    var b := Apply(a, Schedule(plan, interval, at), now).account;
    if b.row.pendingAt.value <= t && !PhaseOver(b.row, t) {
      DueChangeTakesEffect(b, t);
    }
  }

  /** The owner may schedule exactly what can be scheduled, on a Stripe subscription after the free week. */
  lemma OwnersChangeIsTakenIff(a: Account, plan: Plan, interval: Interval, now: Time)
    requires Coherent(a.row)
    ensures var o := Apply(a, OwnerSchedule(plan, interval), now);
            var newPlan := if plan == NoPlan then a.row.plan else plan;
            var newInterval := if interval == NoInterval then a.row.interval else interval;
            && (o.result == Done <==>
                  && !WeekActive(a.week, now) && a.row.source == Stripe && a.row.subscription != ""
                  && Schedulable(a.row, newPlan, newInterval, a.row.periodEnd)
                  && RoomFor(a.row, newPlan, newInterval, a.row.periodEnd))
            && (o.result != Done ==> o.account == a)
            && (o.result == Done ==> o == Apply(a, Schedule(newPlan, newInterval, None), now))
  {
    ChangeIsNoted(a, OrPlan(plan, a.row.plan), OrInterval(interval, a.row.interval), None, now);
  }

  /** The owner's request leaves out what should stay as it is, and takes effect at the end of the period. */
  lemma OwnersChangeArrives(a: Account, plan: Plan, interval: Interval, now: Time)
    requires Coherent(a.row) && a.row.status == Active
    ensures var o := Apply(a, OwnerSchedule(plan, interval), now);
            var newPlan := if plan == NoPlan then a.row.plan else plan;
            var newInterval := if interval == NoInterval then a.row.interval else interval;
            && (o.result != Done ==> o.account == a)
            && (o.result == Done ==>
                  && !WeekActive(a.week, now) && a.row.source == Stripe && a.row.subscription != ""
                  && a.row.periodEnd.Some? && (newPlan, newInterval) != (a.row.plan, a.row.interval)
                  && forall t ::
                       if t < a.row.periodEnd.value then Later(o.account, t) == o.account
                       else ChangedTo(Later(o.account, t).row, a.row, newPlan, newInterval, a.row.periodEnd))
  {
    var o := Apply(a, OwnerSchedule(plan, interval), now);
    if o.result == Done {
      var newPlan, newInterval := OrPlan(plan, a.row.plan), OrInterval(interval, a.row.interval);
      assert o == Apply(a, Schedule(newPlan, newInterval, None), now);
      ChangeIsNoted(a, newPlan, newInterval, None, now);
      forall t
        ensures if t < a.row.periodEnd.value then Later(o.account, t) == o.account
                else ChangedTo(Later(o.account, t).row, a.row, newPlan, newInterval, a.row.periodEnd)
      {
        ScheduledChangeArrives(a, newPlan, newInterval, None, now, t);
      }
    }
  }

  /** A scheduled change that is dropped never happens. */
  lemma DroppedChangeNeverHappens(a: Account, now: Time)
    requires Coherent(a.row) && a.row.status == Active
    ensures var o := Apply(a, RevokeSchedule, now);
            && (o.result == Done <==> !a.row.cancel) && (o.result != Done ==> o.account == a)
            && (o.result == Done ==>
                  if a.row.pendingAt.Some? && (a.row.pendingInterval != NoInterval || a.row.pendingPlan != a.row.plan)
                  then NothingScheduled(o.account.row) && Stands(o.account) else o.account == a)
            && o.account.plan == a.plan && o.account.week == a.week
            && SameSale(o.account.row, a.row) && SamePeriods(o.account.row, a.row) && SameFailure(o.account.row, a.row)
  {}

  // ---- cancellations ----

  /** A cancellation is noted for the given instant, or where access ends, in place of a scheduled change. */
  lemma CancellationIsNoted(a: Account, at: Option<Time>, now: Time)
    requires Coherent(a.row)
    ensures var o := Apply(a, Cancel(at), now);
            var end := if a.row.status == Trialing then a.row.delayEnd else a.row.periodEnd;
            var when := if at.Some? then at else end;
            && (o.result == Done <==>
                  when.Some? && (a.row.status == Trialing || a.row.status == Active || a.row.status == PastDue))
            && (o.result != Done ==> o.account == a)
            && o.account.plan == a.plan && o.account.week == a.week && o.account.row.status == a.row.status
            && SameSale(o.account.row, a.row) && SamePeriods(o.account.row, a.row) && SameFailure(o.account.row, a.row)
            && (o.result == Done ==>
                  o.account.row.cancel && o.account.row.pendingPlan == Basic && o.account.row.pendingAt == when)
  {}

  /** The subscription then ends at that instant and not before, unless a delay or a grace is over first. */
  lemma CancellationArrives(a: Account, t: Time)
    requires Coherent(a.row) && a.row.cancel
    ensures if t >= a.row.pendingAt.value || PhaseOver(a.row, t) then Over(Later(a, t), a, t) else Later(a, t) == a
  {}

  /** Nothing paid can be cancelled where nothing is subscribed. */
  lemma OnlySubscriptionsAreCancelled(a: Account, at: Option<Time>, now: Time)
    requires Coherent(a.row) && (a.row.status == NoStatus || a.row.status == Canceled)
    ensures Apply(a, Cancel(at), now) == Outcome(a, Raised(NotSubscribed))
  {}

  /** A cancellation that is taken back never ends anything; only the schedule has changed. */
  lemma RevokedCancellationNeverEnds(a: Account, now: Time)
    requires Coherent(a.row)
    ensures var o := Apply(a, RevokeCancel, now);
            && o.result == Done && (!a.row.cancel ==> o.account == a)
            && (a.row.cancel ==>
                  && !o.account.row.cancel && o.account.row.pendingPlan == NoPlan && o.account.row.pendingAt == None
                  && o.account.row.pendingInterval == a.row.pendingInterval
                  && (a.row.status == Active ==> Stands(o.account)))
            && o.account.plan == a.plan && o.account.week == a.week && o.account.row.status == a.row.status
            && SameSale(o.account.row, a.row) && SamePeriods(o.account.row, a.row) && SameFailure(o.account.row, a.row)
  {}

  /** Ending a subscription ends it, and ends nothing twice. */
  lemma EndIsOver(a: Account, now: Time)
    requires Coherent(a.row)
    ensures var o := Apply(a, End, now);
            && o.result == Done && Stands(o.account)
            && if (a.row.status == NoStatus || a.row.status == Canceled) && a.plan == Basic
               then o.account == a else Over(o.account, a, now)
  {}

  // ---- sales ----

  predicate Valid(s: Sale, now: Time) {
    && (s.plan == Plus || s.plan == Business) && s.interval != NoInterval && s.source != NoSource
    && (s.currency == Usd || s.currency == Jpy)
    && s.end.Some? && s.end.value > (if s.start.Some? then s.start.value else now)
  }

  /** The row carries plan, interval and period of the sale. */
  predicate Carries(r: Row, s: Sale, now: Time) {
    && r.status == Active && r.plan == s.plan && r.interval == s.interval
    && r.periodStart == Some(if s.start.Some? then s.start.value else now) && r.periodEnd == s.end
    && !r.cancel && r.pendingPlan == NoPlan
  }

  /** And who sold it, with nothing left of an earlier failure or schedule. */
  predicate Fresh(r: Row, s: Sale, before: Row) {
    && r.source == s.source && r.currency == s.currency
    && r.customer == (if s.customer != "" then s.customer else before.customer)
    && r.subscription == (if s.subscription != "" then s.subscription else before.subscription)
    && NothingScheduled(r) && NoFailure(r) && r.recoveredAt == None
  }

  /**
    A sale that starts at once is refused or carried, and puts its plan in force, except
    that the plan of the free week outlasts it.
   */
  lemma SaleIsCarried(a: Account, s: Sale, now: Time)
    requires Coherent(a.row)
    ensures var o := Apply(a, StartPaid(s), now);
            && (o.result == Done <==> Valid(s, now)) && (o.result != Done ==> o.account == a)
            && (o.result == Done ==>
                  && Carries(o.account.row, s, now) && o.account.week == a.week
                  && (if Carries(a.row, s, now) && a.plan == s.plan then o.account == a
                      else Fresh(o.account.row, s, a.row))
                  && o.account.row.delayStart == a.row.delayStart && o.account.row.delayEnd == a.row.delayEnd
                  && o.account.plan == if WeekActive(a.week, now) then a.plan else s.plan)
  {}

  /** The same deferred sale is noted already. */
  predicate Awaits(r: Row, s: Sale, now: Time) {
    && r.status == Trialing && r.plan == s.plan && r.interval == s.interval && !r.cancel
    && r.delayStart == Some(if s.start.Some? then s.start.value else now) && r.delayEnd == s.end
  }

  /** A deferred sale is noted with its delay, over anything but a running subscription, and changes no plan. */
  lemma DeferredSaleIsNoted(a: Account, s: Sale, now: Time)
    requires Coherent(a.row)
    ensures var o := Apply(a, StartDeferred(s), now);
            var r := o.account.row;
            && (Valid(s, now) && !(a.row.status == Active || a.row.status == PastDue) <==> o.result == Done)
            && (o.result != Done ==> o.account == a) && o.account.plan == a.plan && o.account.week == a.week
            && (o.result == Done ==>
                  && Awaits(r, s, now) && r.source == s.source && r.currency == s.currency
                  && r.customer == (if s.customer != "" then s.customer else a.row.customer)
                  && r.subscription == (if s.subscription != "" then s.subscription else a.row.subscription)
                  && if Awaits(a.row, s, now)
                     then SamePeriods(r, a.row) && SameSchedule(r, a.row) && SameFailure(r, a.row)
                     else NothingScheduled(r) && NoFailure(r) && r.recoveredAt == None
                          && r.periodStart == r.delayStart && r.periodEnd == r.delayEnd)
  {}

  /** Its plan is in force with the first sweep from its start on, and not before. */
  lemma DeferredSaleStarts(a: Account, s: Sale, now: Time, t: Time)
    requires Coherent(a.row) && a.row.pendingPlan == NoPlan && Apply(a, StartDeferred(s), now).result == Done
    ensures var b := Apply(a, StartDeferred(s), now).account;
            if t < s.end.value then Later(b, t) == b
            else Later(b, t).row.status == Active && Later(b, t).row.plan == s.plan
                 && Later(b, t).row.interval == s.interval && Later(b, t).row.periodStart == s.end
                 && Later(b, t).plan == if WeekActive(a.week, t) then a.plan else s.plan
  {
    DeferredSaleIsNoted(a, s, now);
  }

  /** The start of a delayed plan: the period begins where the delay ended, and keeps its end only if that is later. */
  lemma DelayTurnsIntoPeriod(a: Account, t: Time)
    requires Coherent(a.row) && a.row.status == Trialing && a.row.delayEnd.value <= t && !a.row.cancel
    ensures var b := Later(a, t);
            && b.row.status == Active && SameSale(b.row, a.row) && SameFailure(b.row, a.row)
            && b.row.periodStart == a.row.delayEnd
            && b.row.periodEnd == (if a.row.periodEnd.Some? && a.row.periodEnd.value > a.row.delayEnd.value
                                   then a.row.periodEnd else None)
            && b.row.delayStart == a.row.delayStart && b.row.delayEnd == a.row.delayEnd
            && !b.row.cancel && b.row.pendingPlan == NoPlan && b.row.pendingAt == None
            && b.row.pendingInterval == a.row.pendingInterval
            && b.week == a.week && Stands(b)
            && b.plan == if WeekActive(a.week, t) then a.plan else a.row.plan
  {}

  /** An immediate upgrade is from a paid Plus row to Business; what is in force already is not refused. */
  predicate Raises(r: Row, target: Plan, currency: Currency) {
    r.plan == Plus && target == Business && (r.status == Active || r.status == PastDue) && currency != Unsupported
  }

  lemma OnlyPlusIsRaised(a: Account, target: Plan, start: Option<Time>, end: Option<Time>, subscription: string,
                         currency: Currency, now: Time)
    requires Coherent(a.row) && !Raises(a.row, target, currency)
    ensures var o := Apply(a, ApplyUpgrade(target, start, end, subscription, currency), now);
            && o.account == a
            && (o.result == Done <==>
                  && (target == Plus || target == Business) && (a.row.status == Active || a.row.status == PastDue)
                  && a.row.plan == target && a.plan == target && a.row.pendingPlan == NoPlan)
  {}

  lemma RaisedAtOnce(a: Account, start: Option<Time>, end: Option<Time>, subscription: string, currency: Currency,
                     now: Time)
    requires Coherent(a.row) && Raises(a.row, Business, currency)
    ensures Apply(a, ApplyUpgrade(Business, start, end, subscription, currency), now)
            == Outcome(a.(plan := Business, row := UpgradedRow(a.row, Business, start, end, subscription, currency)),
                       Done)
  {}

  /** It takes effect at once, over whatever period is reported, and wipes schedule and failure. */
  lemma UpgradeRaisesThePlan(a: Account, start: Option<Time>, end: Option<Time>, subscription: string,
                             currency: Currency, now: Time)
    requires Coherent(a.row) && Raises(a.row, Business, currency)
    ensures var o := Apply(a, ApplyUpgrade(Business, start, end, subscription, currency), now);
            var r := o.account.row;
            && o.result == Done && o.account.plan == Business && r.plan == Business && r.status == Active
            && r.periodStart == (if start.Some? then start else a.row.periodStart)
            && r.periodEnd == (if end.Some? then end else a.row.periodEnd)
            && NothingScheduled(r) && NoFailure(r) && r.recoveredAt == None
  {
    RaisedAtOnce(a, start, end, subscription, currency, now);
  }

  /** It leaves the interval, the seller and what the provider did not send. */
  lemma UpgradeKeepsTheSale(a: Account, start: Option<Time>, end: Option<Time>, subscription: string,
                            currency: Currency, now: Time)
    requires Coherent(a.row) && Raises(a.row, Business, currency)
    ensures var o := Apply(a, ApplyUpgrade(Business, start, end, subscription, currency), now);
            var r := o.account.row;
            && o.account.week == a.week && r.interval == a.row.interval
            && r.source == a.row.source && r.customer == a.row.customer
            && r.subscription == (if subscription != "" then subscription else a.row.subscription)
            && r.currency == (if currency != NoCurrency then currency else a.row.currency)
            && r.delayStart == a.row.delayStart && r.delayEnd == a.row.delayEnd
  {
    RaisedAtOnce(a, start, end, subscription, currency, now);
  }

  /** Wherever nothing is scheduled and no phase runs out, no sweep finds anything to do. */
  lemma SettledRowsStand(a: Account)
    requires Coherent(a.row) && a.row.pendingPlan == NoPlan && a.row.status != PastDue && a.row.status != Trialing
    ensures Stands(a)
  {}

  // ---- the free week ----

  /** Business for seven days from the grant, once; from then on what is paid for, or nothing. */
  lemma WeekIsSevenDays(a: Account, now: Time)
    requires Coherent(a.row) && a.week == NoRecord
    ensures var o := Apply(a, Grant, now);
            && o.result == Done && o.account.row == a.row && o.account.plan == Business
            && Apply(o.account, Grant, now) == o
            && (forall t :: WeekActive(o.account.week, t) <==> t < now + 7 * 86_400_000_000)
            && (forall t :: t < now + 7 * 86_400_000_000 ==> Apply(o.account, Expire, t).account == o.account)
            && (forall t :: t >= now + 7 * 86_400_000_000 ==>
                  var ended := Apply(o.account, Expire, t).account;
                  && ended.row == a.row
                  && ended.plan == (if a.row.status == Active || a.row.status == PastDue then a.row.plan
                                    else if a.row.status == Trialing then Business else Basic)
                  && (Unsettled(ended.week) <==> a.row.status == Trialing)
                  && (a.row.status != Trialing ==>
                        ended.week.Granted? && ended.week.settledAt == Some(t)
                        && forall later :: Apply(ended, Expire, later).account == ended))
  {}

  /** A week that is denied is never granted later. */
  lemma DeniedWeekStaysDenied(a: Account, now: Time)
    ensures var o := Apply(a, DenyGrant, now);
            && o.result == Done && o.account.row == a.row
            && (a.week.Granted? ==> o.account == a)
            && (!a.week.Granted? ==> o.account.plan == Basic && o.account.week == Ineligible
                                     && forall t :: Apply(o.account, Grant, t).account == o.account)
  {}

  /** A plan chosen in the free week is only noted: nothing is in force, sold or due because of it. */
  lemma ChoiceIsOnlyNoted(a: Account, plan: Plan, interval: Interval, now: Time)
    requires Coherent(a.row)
    ensures var o := Apply(a, ChooseIntent(plan, interval), now);
            var r := o.account.row;
            && (o.result == Done <==>
                  && (plan == Plus || plan == Business) && interval != NoInterval && WeekActive(a.week, now)
                  && a.row.source == NoSource && (a.row.status == NoStatus || a.row.status == Canceled))
            && (o.result != Done ==> o.account == a)
            && o.account.plan == a.plan && o.account.week == a.week
            && (o.result == Done ==>
                  && r.status == NoStatus && r.plan == plan && r.interval == interval && r.source == NoSource
                  && r.customer == "" && r.subscription == "" && r.currency == a.row.currency
                  && NothingScheduled(r) && NoTerms(r) && SameFailure(r, a.row) && Stands(o.account))
  {}

  predicate NoTerms(r: Row) {
    r.delayStart == None && r.delayEnd == None && r.periodStart == None && r.periodEnd == None
  }

  /** Dropping is refused where something is sold, and does nothing where nothing was chosen. */
  lemma ChoiceIsDropped(a: Account, now: Time)
    requires Coherent(a.row)
    ensures var o := Apply(a, DropIntent, now);
            && (o.result == Done
                <==> a.row.source == NoSource && (a.row.status == NoStatus || a.row.status == Canceled))
            && (o.result != Done ==> o.account == a) && o.account.plan == a.plan && o.account.week == a.week
            && (o.result == Done ==> o.account.row.plan == NoPlan && o.account.row.status == a.row.status)
            && (a.row.plan == NoPlan ==> o.account == a)
            && (o.result == Done && a.row.plan != NoPlan ==>
                  && o.account.row.interval == NoInterval && NothingScheduled(o.account.row)
                  && NoTerms(o.account.row) && SameFailure(o.account.row, a.row)
                  && o.account.row.customer == a.row.customer && o.account.row.subscription == a.row.subscription)
  {}
}
