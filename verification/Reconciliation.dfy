/**
  Mapping a provider subscription snapshot onto the billing transitions.
  Unlike a transition, a reconciliation is a sequence of atomic blocks: when a
  later block raises, the writes of the earlier ones stay.
 */
module Reconciliation {
  import opened BillingTypes
  import opened BillingServices

  /** Ended: canceled, unpaid, incomplete_expired. Current: active and every other status. */
  datatype SnapshotStatus = Ended | Overdue | Delayed | Current

  /** What the provider's price id stands for. */
  datatype Price = Price(plan: Plan, interval: Interval, currency: Currency)

  datatype Snapshot = Snapshot(
    subscription: string, customer: string, status: SnapshotStatus, price: Option<Price>, cancel: bool,
    periodStart: Option<Time>, periodEnd: Option<Time>, delayStart: Option<Time>, delayEnd: Option<Time>)

  /** Every entry of the price table names a paid plan, a paid interval and a known currency. */
  predicate Catalogued(p: Price) { PaidPlan(p.plan) && PaidInterval(p.interval) && KnownCurrency(p.currency) }

  function StoreIds(a: Account, s: Snapshot): Account {
    a.(row := a.row.(source := Stripe, customer := OrElse(s.customer, a.row.customer),
                     subscription := OrElse(s.subscription, a.row.subscription)))
  }

  predicate Future(t: Option<Time>, now: Time) { t.Some? && t.value > now }

  function CancelIf(o: Outcome, cancel: bool, at: Option<Time>): Outcome {
    if o.result == Done && cancel then ScheduleCancellation(o.account, at) else o
  }

  function SaleOf(s: Snapshot, p: Price, start: Option<Time>, end: Option<Time>): Sale {
    Sale(p.plan, p.interval, Stripe, start, end, s.customer, s.subscription, p.currency)
  }

  function ReconcileEnded(a: Account, s: Snapshot, now: Time): Outcome {
    var b := StoreIds(a, s);
    if s.cancel && Future(s.periodEnd, now) then ScheduleCancellation(b, s.periodEnd) else FinalizeEnd(b, now)
  }

  /** The row is sold by Stripe in one known currency and the snapshot is priced in another. */
  predicate WrongMarket(r: Row, p: Price) {
    && r.source == Stripe && r.subscription != "" && Live(r.status)
    && KnownCurrency(r.currency) && r.currency != p.currency
  }

  function Adopt(a: Account, s: Snapshot, p: Price): Account {
    var b := StoreIds(a, s);
    b.(row := b.row.(currency := p.currency))
  }

  function ReconcileDelayed(a: Account, s: Snapshot, p: Price, now: Time): Outcome {
    var end := OrTime(s.delayEnd, s.periodEnd);
    CancelIf(DeferredStart(a, SaleOf(s, p, OrTime(s.delayStart, s.periodStart), end), now), s.cancel, end)
  }

  /** Only the period and the provider's identifiers move. */
  function MovePeriod(a: Account, s: Snapshot): Account {
    a.(row := a.row.(periodStart := s.periodStart, periodEnd := s.periodEnd,
                     subscription := s.subscription, customer := s.customer))
  }

  function Target(r: Row): (Plan, Interval) {
    (OrPlan(r.pendingPlan, r.plan), OrInterval(r.pendingInterval, r.interval))
  }

  predicate DowngradePending(r: Row) {
    r.pendingPlan == Plus && r.plan == Business && Target(r).1 == r.interval && !r.cancel
  }

  /** A scheduled change keeps the snapshot from rewriting the plan. */
  predicate Held(r: Row, s: Snapshot, now: Time) { ScheduledChangePending(r) && Future(s.periodEnd, now) }

  function ReconcileCurrent(a: Account, s: Snapshot, p: Price, now: Time): Outcome {
    var r := a.row;
    var pair := (p.plan, p.interval);
    var sale := SaleOf(s, p, s.periodStart, s.periodEnd);
    if Held(r, s, now) && pair == (r.plan, r.interval) then
      CancelIf(Outcome(MovePeriod(a, s), Done), s.cancel, s.periodEnd)
    else if Held(r, s, now) && pair != Target(r) then Outcome(a, Done)
    else if p.plan == Plus && a.plan == Business then Activate(a.(plan := Plus), sale, now)
    else if p.plan == Business && a.plan == Plus then
      Upgrade(a, Business, s.periodStart, s.periodEnd, s.subscription, p.currency)
    else if Held(r, s, now) && p.plan != a.plan && pair != Target(r) then Outcome(a, Done)
    else if DowngradePending(r) && p.plan == Business then
      CancelIf(Outcome(MovePeriod(a, s), Done), s.cancel, s.periodEnd)
    else CancelIf(Activate(a, sale, now), s.cancel, s.periodEnd)
  }

  function ReconcilePriced(a: Account, s: Snapshot, p: Price, now: Time): Outcome {
    if WrongMarket(a.row, p) then Raise(a, MarketMismatch)
    else
      var b := Adopt(a, s, p);
      if s.status == Overdue then PaymentFailure(b, Some(now), None, now)
      else
        var c := PaymentRecovered(b, Some(now), now).account;
        if s.status == Delayed then ReconcileDelayed(c, s, p, now) else ReconcileCurrent(c, s, p, now)
  }

  function Reconcile(a: Account, s: Snapshot, now: Time): Outcome {
    if s.status == Ended then ReconcileEnded(a, s, now)
    else if s.price.None? then Raise(a, PriceUnmapped)
    else ReconcilePriced(a, s, s.price.value, now)
  }

  /**
    The owner drops the plan chosen during the free week; `s` is the provider's answer to the
    immediate cancellation.
   */
  function ClearSelection(a: Account, s: Snapshot, now: Time): Outcome {
    if !WeekActive(a.week, now) then Raise(a, FreeWeekOnly)
    else if a.row.source != Stripe then Raise(a, SourceLocked)
    else if a.row.subscription == "" then Raise(a, NotSubscribed)
    else
      var o := Reconcile(a, s, now);
      if o.result == Done then FinalizeEnd(o.account, now) else o
  }
}
