/**
  Provider-neutral billing transitions as functions on the stored account.
  Every function is one atomic block: when it raises, the account is unchanged.
 */
module BillingServices {
  import opened BillingTypes

  const GRACE: Time := 3 * DAY
  const FREE_WEEK: Time := 7 * DAY

  function Raise(a: Account, e: Error): Outcome { Outcome(a, Raised(e)) }

  function Save(a: Account, r: Row): Outcome { Outcome(a.(row := r), Done) }

  function ClearPending(r: Row): Row {
    r.(pendingPlan := NoPlan, pendingInterval := NoInterval, pendingAt := None, cancel := false)
  }

  function ClearPaymentFailure(r: Row, recoveredAt: Option<Time>): Row {
    r.(failedAt := None, graceDeadline := None, warnedAt := None, warnings := 0, recoveredAt := recoveredAt)
  }

  /** A paid plan or interval change is scheduled and not overridden by a cancellation. */
  predicate ScheduledChangePending(r: Row) {
    && !r.cancel
    && r.pendingAt.Some?
    && r.pendingPlan != Basic
    && (r.pendingInterval != NoInterval || (r.pendingPlan != NoPlan && r.pendingPlan != r.plan))
  }

  function AccessEnd(r: Row): Option<Time> {
    if r.status == Trialing then r.delayEnd else r.periodEnd
  }

  /** The identifying half of a commercial write: who sells, in what currency. */
  function StampProvider(r: Row, source: Source, currency: Currency, customer: string, subscription: string): Row {
    r.(source := source, currency := currency,
       customer := OrElse(customer, r.customer), subscription := OrElse(subscription, r.subscription))
  }

  function ValidateSale(plan: Plan, interval: Interval, source: Source, currency: Currency): Result {
    if !PaidPlan(plan) then Raised(NotPaidPlan)
    else if !PaidInterval(interval) then Raised(NotPaidInterval)
    else if !PaidSource(source) then Raised(NotPaidSource)
    else if !KnownCurrency(currency) then Raised(UnsupportedCurrency)
    else Done
  }

  /** Terms of a sale as a provider reports them. */
  datatype Sale = Sale(
    plan: Plan, interval: Interval, source: Source,
    start: Option<Time>, end: Option<Time>,
    customer: string, subscription: string, currency: Currency)

  function SaleWindow(s: Sale, now: Time): Result {
    var checked := ValidateSale(s.plan, s.interval, s.source, s.currency);
    if checked != Done then checked
    else if s.end.None? || s.end.value <= OrTime(s.start, Some(now)).value then Raised(BadWindow)
    else Done
  }

  /** The same deferred start is stored already. */
  predicate Deferred(r: Row, s: Sale, now: Time) {
    && r.status == Trialing && r.plan == s.plan && r.delayStart == OrTime(s.start, Some(now)) && r.delayEnd == s.end
    && r.interval == s.interval && !r.cancel
  }

  function DeferredRow(r: Row, s: Sale, now: Time): Row {
    var started := OrTime(s.start, Some(now));
    var stamped := StampProvider(r, s.source, s.currency, s.customer, s.subscription);
    var delayed := stamped.(status := Trialing, interval := s.interval, plan := s.plan,
                            delayStart := started, delayEnd := s.end, periodStart := started, periodEnd := s.end);
    ClearPaymentFailure(ClearPending(delayed), None)
  }

  function DeferredStart(a: Account, s: Sale, now: Time): Outcome {
    var checked := SaleWindow(s, now);
    var r := a.row;
    if checked != Done then Outcome(a, checked)
    else if Deferred(r, s, now) then Save(a, StampProvider(r, s.source, s.currency, s.customer, s.subscription))
    else if Paid(r.status) then Raise(a, AlreadyPaid)
    else Save(a, DeferredRow(r, s, now))
  }

  /** The account already is what activation would make of it. */
  predicate Confirmed(a: Account, s: Sale, now: Time) {
    && a.row.status == Active && a.row.plan == s.plan && a.plan == s.plan && a.row.interval == s.interval
    && a.row.periodStart == OrTime(s.start, Some(now)) && a.row.periodEnd == s.end
    && !a.row.cancel && a.row.pendingPlan == NoPlan
  }

  function ActivatedRow(r: Row, s: Sale, now: Time): Row {
    var stamped := StampProvider(r, s.source, s.currency, s.customer, s.subscription);
    var active := stamped.(status := Active, interval := s.interval, plan := s.plan,
                           periodStart := OrTime(s.start, Some(now)), periodEnd := s.end);
    ClearPaymentFailure(ClearPending(active), None)
  }

  function Activate(a: Account, s: Sale, now: Time): Outcome {
    var checked := SaleWindow(s, now);
    if checked != Done then Outcome(a, checked)
    else if Confirmed(a, s, now) then Outcome(a, Done)
    else
      var plan := if WeekActive(a.week, now) then a.plan else s.plan;
      Outcome(a.(plan := plan, row := ActivatedRow(a.row, s, now)), Done)
  }

  function Rank(p: Plan): nat {
    match p
    case Plus => 1
    case Business => 2
    case _ => 0
  }

  function UpgradedRow(r: Row, target: Plan, start: Option<Time>, end: Option<Time>,
                       subscription: string, currency: Currency): Row
  {
    var upgraded := r.(plan := target, currency := if currency == NoCurrency then r.currency else currency,
                       status := Active, periodStart := OrTime(start, r.periodStart),
                       periodEnd := OrTime(end, r.periodEnd), subscription := OrElse(subscription, r.subscription));
    ClearPaymentFailure(ClearPending(upgraded), None)
  }

  function Upgrade(a: Account, target: Plan, start: Option<Time>, end: Option<Time>,
                   subscription: string, currency: Currency): Outcome
  {
    var r := a.row;
    if !PaidPlan(target) then Raise(a, NotPaidPlan)
    else if !Paid(r.status) then Raise(a, NotSubscribed)
    else if r.plan == target && a.plan == target && r.pendingPlan == NoPlan then Outcome(a, Done)
    else if Rank(target) <= Rank(r.plan) then Raise(a, NotAnUpgrade)
    else if currency != NoCurrency && !KnownCurrency(currency) then Raise(a, UnsupportedCurrency)
    else Outcome(a.(plan := target, row := UpgradedRow(r, target, start, end, subscription, currency)), Done)
  }

  function ScheduleChange(a: Account, target: Plan, interval: Interval, effectiveAt: Option<Time>): Outcome {
    var r := a.row;
    var when := OrTime(effectiveAt, r.periodEnd);
    if !PaidPlan(target) then Raise(a, NotPaidPlan)
    else if !PaidInterval(interval) then Raise(a, NotPaidInterval)
    else if !Live(r.status) then Raise(a, NotSubscribed)
    else if r.cancel then Raise(a, CancellationPending)
    else if when.None? then Raise(a, NoEffectiveTime)
    else if target == Business && r.plan == Plus && interval == r.interval then Raise(a, UseImmediateUpgrade)
    else if target == r.plan && interval == r.interval then Raise(a, NothingToChange)
    else if r.pendingPlan == target && r.pendingInterval == interval && r.pendingAt == when then Outcome(a, Done)
    else if ScheduledChangePending(r) then Raise(a, ChangePending)
    else Save(a, r.(pendingPlan := target, pendingInterval := interval, pendingAt := when, cancel := false))
  }

  function ScheduleCancellation(a: Account, effectiveAt: Option<Time>): Outcome {
    var r := a.row;
    var when := OrTime(effectiveAt, AccessEnd(r));
    if !Live(r.status) then Raise(a, NotSubscribed)
    else if when.None? then Raise(a, NoEffectiveTime)
    else if r.cancel && r.pendingAt == when && (r.pendingPlan == NoPlan || r.pendingPlan == Basic)
    then Outcome(a, Done)
    else Save(a, r.(cancel := true, pendingPlan := Basic, pendingAt := when))
  }

  function ClearCancellation(a: Account): Outcome {
    var r := a.row;
    if !r.cancel then Outcome(a, Done)
    else if !Live(r.status) then Raise(a, AccessEnded)
    else if r.pendingPlan == Basic then Save(a, r.(cancel := false, pendingPlan := NoPlan, pendingAt := None))
    else Save(a, r.(cancel := false))
  }

  function ClearScheduledChange(a: Account): Outcome {
    var r := a.row;
    if r.cancel then Raise(a, CancellationPending)
    else if !ScheduledChangePending(r) then Outcome(a, Done)
    else if !Live(r.status) then Raise(a, AccessEnded)
    else Save(a, r.(pendingPlan := NoPlan, pendingInterval := NoInterval, pendingAt := None))
  }

  function PaymentFailure(a: Account, failedAt: Option<Time>, deadline: Option<Time>, now: Time): Outcome {
    var r := a.row;
    var moment := OrTime(failedAt, Some(now)).value;
    if !Paid(r.status) then Raise(a, NotSubscribed)
    else if r.status == PastDue && r.graceDeadline.Some? then Outcome(a, Done)
    else Save(a, r.(status := PastDue, failedAt := Some(moment),
                    graceDeadline := OrTime(deadline, Some(moment + GRACE)), recoveredAt := None))
  }

  function PaymentWarning(a: Account, warnedAt: Option<Time>, now: Time): Outcome {
    if a.row.status != PastDue then Raise(a, OutsideGrace)
    else Save(a, a.row.(warnedAt := OrTime(warnedAt, Some(now)), warnings := a.row.warnings + 1))
  }

  function PaymentRecovered(a: Account, recoveredAt: Option<Time>, now: Time): Outcome {
    if a.row.status != PastDue then Outcome(a, Done)
    else Save(a, ClearPaymentFailure(a.row.(status := Active), OrTime(recoveredAt, Some(now))))
  }

  /** Nothing is left to end. */
  predicate AlreadyEnded(a: Account) {
    && (a.row.status == NoStatus || a.row.status == Canceled)
    && a.plan == Basic && !a.row.cancel && a.row.pendingPlan == NoPlan
  }

  function EndedRow(r: Row): Row {
    var ended := r.(status := Canceled, source := NoSource, interval := NoInterval, plan := NoPlan);
    ClearPaymentFailure(ClearPending(ended), None)
  }

  function FinalizeEnd(a: Account, now: Time): Outcome {
    if AlreadyEnded(a) then Outcome(a, Done)
    else
      var plan := if WeekActive(a.week, now) then a.plan else Basic;
      Outcome(a.(plan := plan, row := EndedRow(a.row)), Done)
  }

  /** The provider delay is over: the deferred plan starts. The stale pending interval stays stored. */
  function ConvertDelay(a: Account, now: Time): Account
    requires a.row.delayEnd.Some?
  {
    var r := a.row;
    var start := r.delayEnd.value;
    var paidPlan := if PaidPlan(r.plan) then r.plan else Business;
    var end := if r.periodEnd.Some? && r.periodEnd.value > start then r.periodEnd else None;
    a.(plan := if WeekActive(a.week, now) then a.plan else paidPlan,
       row := r.(status := Active, plan := paidPlan, periodStart := Some(start), periodEnd := end,
                 cancel := false, pendingPlan := NoPlan, pendingAt := None))
  }

  /** A scheduled paid change falls due. The grace fields stay stored. */
  function ApplyScheduledChange(a: Account): Account {
    var r := a.row;
    a.(plan := if r.pendingPlan != r.plan then r.pendingPlan else a.plan,
       row := ClearPending(r.(plan := r.pendingPlan, interval := OrInterval(r.pendingInterval, r.interval),
                              status := Active, periodStart := r.pendingAt)))
  }

  predicate Due(t: Option<Time>, now: Time) { t.Some? && t.value <= now }

  function SweepDue(a: Account, now: Time): Outcome {
    var r := a.row;
    if r.status == PastDue && Due(r.graceDeadline, now) then FinalizeEnd(a, now)
    else if r.status == Trialing && Due(r.delayEnd, now) then
      if r.cancel then FinalizeEnd(a, now) else Outcome(ConvertDelay(a, now), Done)
    else if r.cancel && Due(r.pendingAt, now) then FinalizeEnd(a, now)
    else if Due(r.pendingAt, now) && !r.cancel && r.pendingPlan != NoPlan && r.pendingPlan != Basic then
      Outcome(ApplyScheduledChange(a), Done)
    else Outcome(a, Done)
  }

  // ---- the built-in free week ----

  function GrantWeek(a: Account, now: Time): Outcome {
    if a.week != NoRecord then Outcome(a, Done)
    else Outcome(a.(plan := Business, week := Granted(now, now + FREE_WEEK, None)), Done)
  }

  function MarkIneligible(a: Account): Outcome {
    var week := if a.week == NoRecord then Ineligible else a.week;
    Outcome(a.(week := week, plan := if week == Ineligible then Basic else a.plan), Done)
  }

  function Settle(w: FreeWeek, now: Time): FreeWeek
    requires w.Granted?
  {
    if w.settledAt.Some? then w else w.(settledAt := Some(now))
  }

  function ExpireWeek(a: Account, now: Time): Outcome {
    if !a.week.Granted? || now < a.week.endsAt then Outcome(a, Done)
    else if Paid(a.row.status) && PaidPlan(a.row.plan) then
      Outcome(a.(plan := a.row.plan, week := Settle(a.week, now)), Done)
    else if a.row.status == Trialing && PaidPlan(a.row.plan) then Outcome(a, Done)
    else Outcome(a.(plan := Basic, week := Settle(a.week, now)), Done)
  }

  // ---- owner operations that write the row themselves, or guard a transition ----

  function NoCommercialTerms(r: Row): Row {
    ClearPending(r.(delayStart := None, delayEnd := None, periodStart := None, periodEnd := None))
  }

  function SetIntent(a: Account, plan: Plan, interval: Interval, now: Time): Outcome {
    if !PaidPlan(plan) then Raise(a, NotPaidPlan)
    else if !PaidInterval(interval) then Raise(a, NotPaidInterval)
    else if !WeekActive(a.week, now) then Raise(a, FreeWeekOnly)
    else if a.row.source != NoSource then Raise(a, SourceLocked)
    else if Live(a.row.status) then Raise(a, AlreadyPaid)
    else Save(a, NoCommercialTerms(a.row.(status := NoStatus, plan := plan, interval := interval,
                                          customer := "", subscription := "")))
  }

  function ClearIntent(a: Account): Outcome {
    if a.row.source != NoSource then Raise(a, SourceLocked)
    else if Live(a.row.status) then Raise(a, AlreadyPaid)
    else if a.row.plan == NoPlan then Outcome(a, Done)
    else Save(a, NoCommercialTerms(a.row.(plan := NoPlan, interval := NoInterval)))
  }

  /** The owner asks for a plan or interval change at period end. */
  function OwnerScheduleChange(a: Account, plan: Plan, interval: Interval, now: Time): Outcome {
    var target := OrPlan(plan, a.row.plan);
    var every := OrInterval(interval, a.row.interval);
    if WeekActive(a.week, now) then Raise(a, FreeWeekRunning)
    else if a.row.source != Stripe then Raise(a, SourceLocked)
    else if !Live(a.row.status) then Raise(a, NotSubscribed)
    else if a.row.cancel then Raise(a, CancellationPending)
    else if a.row.subscription == "" then Raise(a, NotSubscribed)
    else if !PaidPlan(target) then Raise(a, NotPaidPlan)
    else if !PaidInterval(every) then Raise(a, NotPaidInterval)
    else if target == a.row.plan && every == a.row.interval then Raise(a, NothingToChange)
    else ScheduleChange(a, target, every, None)
  }

  /** Whether a workspace billed by `current` may begin with `wanted`. */
  predicate CanStart(current: Source, wanted: Source) {
    PaidSource(wanted) && (current == NoSource || current == wanted)
  }
}
