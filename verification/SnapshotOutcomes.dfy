/** What one delivery of a provider snapshot leaves, status by status and branch by branch. */
module SnapshotOutcomes {
  import opened BillingTypes
  import opened BillingServices
  import opened Reconciliation
  import opened ReconciliationFixedPoint
  import opened BillingTimeline
  import opened BillingRuns

  /** The row is Stripe's, under the snapshot's identifiers where it names any. */
  predicate Named(r: Row, before: Row, s: Snapshot) {
    && r.source == Stripe
    && r.customer == (if s.customer != "" then s.customer else before.customer)
    && r.subscription == (if s.subscription != "" then s.subscription else before.subscription)
  }

  /** A running subscription of Stripe in one currency, and a price in another. */
  predicate OtherMarket(r: Row, p: Price) {
    && r.source == Stripe && r.subscription != "" && r.currency != p.currency
    && (r.status == Trialing || r.status == Active || r.status == PastDue)
  }

  /** A snapshot whose price is not known, or is in another currency, changes nothing at all. */
  lemma UnusableSnapshotChangesNothing(a: Account, s: Snapshot, now: Time)
    requires Coherent(a.row) && s.status != Ended
    requires s.price.None? || OtherMarket(a.row, s.price.value)
    ensures Reconcile(a, s, now).account == a
    ensures Reconcile(a, s, now).result == Raised(if s.price.None? then PriceUnmapped else MarketMismatch)
  {}

  // ---- ended and overdue ----

  /** The account under the snapshot's identifiers, and otherwise as it was. */
  function Renamed(a: Account, s: Snapshot): (b: Account)
    ensures Named(b.row, a.row, s) && b.plan == a.plan && b.week == a.week
    ensures b.row == a.row.(source := b.row.source, customer := b.row.customer, subscription := b.row.subscription)
  {
    a.(row := a.row.(source := Stripe,
                     customer := if s.customer != "" then s.customer else a.row.customer,
                     subscription := if s.subscription != "" then s.subscription else a.row.subscription))
  }

  /** Cancelled, with access still running: the subscription ends where the access does. */
  lemma EndedSnapshotWaitsForAccess(a: Account, s: Snapshot, now: Time)
    requires Coherent(a.row) && s.status == Ended && s.cancel && s.periodEnd.Some? && s.periodEnd.value > now
    ensures var o := Reconcile(a, s, now);
            && (o.result == Done <==> Live(a.row.status)) && (o.result != Done ==> o.account == Renamed(a, s))
            && (o.result == Done ==>
                  && Named(o.account.row, a.row, s) && o.account.row.cancel && o.account.row.pendingAt == s.periodEnd
                  && o.account.plan == a.plan && o.account.week == a.week && o.account.row.status == a.row.status
                  && (a.row.status == Active ==> EndsAt(o.account, s.periodEnd.value)))
  {
    var b := Renamed(a, s);
    assert b == StoreIds(a, s);
    assert Reconcile(a, s, now) == Apply(b, Cancel(s.periodEnd), now);
    CancellationIsNoted(b, s.periodEnd, now);
    if a.row.status == Active {
      StoredCancellationEnds(b, s.periodEnd.value);
    }
  }

  lemma CancelledRowEnds(c: Account, end: Time)
    requires Coherent(c.row) && c.row.cancel && c.row.status == Active && c.row.pendingAt == Some(end)
    ensures EndsAt(c, end)
  {
    forall t
      ensures (t < end ==> Later(c, t) == c) && (t >= end ==> Over(Later(c, t), c, t))
    {
      CancellationArrives(c, t);
    }
  }

  /** Otherwise it ends at once, under the snapshot's identifiers; where nothing is left to end, these are stored. */
  lemma EndedSnapshotEnds(a: Account, s: Snapshot, now: Time)
    requires Coherent(a.row) && s.status == Ended && !(s.cancel && s.periodEnd.Some? && s.periodEnd.value > now)
    ensures var o := Reconcile(a, s, now);
            && o.result == Done
            && if !Live(a.row.status) && a.plan == Basic then o.account == Renamed(a, s)
               else Over(o.account, Renamed(a, s), now)
  {
    assert Renamed(a, s) == StoreIds(a, s);
    EndIsOver(StoreIds(a, s), now);
  }

  /** A selection cleared in the free week is over whatever the provider answers, unless its answer is refused. */
  lemma ClearedSelectionIsOver(a: Account, s: Snapshot, now: Time)
    requires Coherent(a.row) && (s.status != Ended && s.price.Some? ==> Catalogued(s.price.value))
    ensures var o, told := ClearSelection(a, s, now), Reconcile(a, s, now);
            if !WeekActive(a.week, now) || a.row.source != Stripe || a.row.subscription == ""
            then o.account == a && o.result != Done
            else
              && (o.result == Done <==> told.result == Done) && (o.result != Done ==> o == told)
              && (o.result == Done ==>
                    && Stands(o.account)
                    && if !Live(told.account.row.status) && told.account.plan == Basic then o.account == told.account
                       else Over(o.account, told.account, now))
  {
    ReconcileKeepsCoherence(a, s, now);
    var told := Reconcile(a, s, now);
    if WeekActive(a.week, now) && a.row.source == Stripe && a.row.subscription != "" && told.result == Done {
      assert ClearSelection(a, s, now) == Apply(told.account, End, now);
      EndIsOver(told.account, now);
    }
  }

  /** An overdue snapshot gives a running subscription three days of grace from now, under its own plan and period. */
  lemma OverdueSnapshotGivesGrace(a: Account, s: Snapshot, now: Time)
    requires Coherent(a.row) && s.status == Overdue && a.row.status == Active && a.row.pendingPlan == NoPlan
    ensures var o := Reconcile(a, s, now);
            && (o.result == Done <==> s.price.Some? && !OtherMarket(a.row, s.price.value))
            && (o.result == Done ==>
                  && Named(o.account.row, a.row, s) && o.account.row.currency == s.price.value.currency
                  && o.account.row.plan == a.row.plan && o.account.row.interval == a.row.interval
                  && o.account.plan == a.plan && o.account.week == a.week
                  && SamePeriods(o.account.row, a.row) && SameSchedule(o.account.row, a.row)
                  && EndsAt(o.account, now + 3 * 86_400_000_000))
  {
    if s.price.Some? && !OtherMarket(a.row, s.price.value) {
      var b := Adopt(a, s, s.price.value);
      assert Reconcile(a, s, now) == Apply(b, FailPayment(Some(now), None), now);
      assert EndsAt(Reconcile(a, s, now).account, now + 3 * 86_400_000_000);
    }
  }

  /** Delivered again, or while no payment can fail, it moves no deadline. */
  lemma OverdueSnapshotMovesNoDeadline(a: Account, s: Snapshot, now: Time)
    requires Coherent(a.row) && s.status == Overdue && a.row.status != Active
    ensures var o := Reconcile(a, s, now);
            && (o.result == Done ==> a.row.status == PastDue)
            && o.account.row.status == a.row.status && SameFailure(o.account.row, a.row)
            && o.account.row.plan == a.row.plan && o.account.row.interval == a.row.interval
            && o.account.plan == a.plan && o.account.week == a.week
            && SamePeriods(o.account.row, a.row) && SameSchedule(o.account.row, a.row)
            && (o.account == a || (Named(o.account.row, a.row, s) && o.account.row.currency == s.price.value.currency))
  {
    if s.price.None? || OtherMarket(a.row, s.price.value) {
      UnusableSnapshotChangesNothing(a, s, now);
    } else {
      var b := Adopt(a, s, s.price.value);
      FailureIsTakenAgain(b, now);
      assert Reconcile(a, s, now) == Apply(b, FailPayment(Some(now), None), now);
    }
  }

  lemma FailureIsTakenAgain(b: Account, now: Time)
    requires b.row.status != Active && (b.row.status == PastDue ==> b.row.graceDeadline.Some?)
    ensures Apply(b, FailPayment(Some(now), None), now)
            == Outcome(b, if b.row.status == PastDue then Done else Raised(NotSubscribed))
  {}

  // ---- delayed ----

  /** A delayed snapshot notes plan and delay, and changes no plan in force. */
  lemma DelayedSnapshotIsNoted(a: Account, s: Snapshot, p: Price, now: Time)
    requires Coherent(a.row) && s.status == Delayed && s.price == Some(p) && Catalogued(p) && !OtherMarket(a.row, p)
    ensures var o := Reconcile(a, s, now);
            var start := if s.delayStart.Some? then s.delayStart
                         else if s.periodStart.Some? then s.periodStart else Some(now);
            var end := if s.delayEnd.Some? then s.delayEnd else s.periodEnd;
            && (o.result == Done <==>
                  && end.Some? && start.value < end.value
                  && a.row.status != Active && a.row.status != PastDue)
            && o.account.plan == a.plan && o.account.week == a.week
            && (o.result == Done ==>
                  && Named(o.account.row, a.row, s) && o.account.row.currency == p.currency
                  && o.account.row.status == Trialing
                  && o.account.row.plan == p.plan && o.account.row.interval == p.interval
                  && o.account.row.delayStart == start && o.account.row.delayEnd == end
                  && o.account.row.cancel == s.cancel
                  && (s.cancel ==> o.account.row.pendingAt == end))
  {
    var c := Entering(a, s, p, now);
    var start, end := OrTime(s.delayStart, s.periodStart), OrTime(s.delayEnd, s.periodEnd);
    var sale := SaleOf(s, p, start, end);
    EnteringIsNamed(a, s, p, now);
    DeferredSaleIsNoted(c, sale, now);
    DeferredStartKeepsCoherence(c, sale, now);
    var d := Apply(c, StartDeferred(sale), now);
    CancellationIsNoted(d.account, end, now);
    assert Reconcile(a, s, now) == CancelIf(d, s.cancel, end);
  }

  /** Past the identifiers, the currency and the recovery of a payment; nothing else has changed. */
  lemma EnteringIsNamed(a: Account, s: Snapshot, p: Price, now: Time)
    requires Coherent(a.row) && Catalogued(p)
    ensures var c := Entering(a, s, p, now);
            && Coherent(c.row) && Named(c.row, a.row, s) && c.row.currency == p.currency
            && c.row.plan == a.row.plan && c.row.interval == a.row.interval
            && c.plan == a.plan && c.week == a.week
            && SamePeriods(c.row, a.row) && SameSchedule(c.row, a.row)
            && (if a.row.status == PastDue
                then c.row.status == Active && NoFailure(c.row) && c.row.recoveredAt == Some(now)
                else c.row.status == a.row.status && SameFailure(c.row, a.row))
  {}

  // ---- active ----

  /** A paid change waits on the row, and the snapshot's period still runs. */
  predicate ChangeWaits(r: Row, s: Snapshot, now: Time) {
    && !r.cancel && r.pendingAt.Some? && (r.pendingInterval != NoInterval || r.pendingPlan != r.plan)
    && s.periodEnd.Some? && s.periodEnd.value > now
  }

  function WaitingPair(r: Row): (Plan, Interval) {
    (if r.pendingPlan != NoPlan then r.pendingPlan else r.plan,
     if r.pendingInterval != NoInterval then r.pendingInterval else r.interval)
  }

  predicate ForActive(a: Account, s: Snapshot, p: Price) {
    Coherent(a.row) && s.status == Current && s.price == Some(p) && Catalogued(p) && !OtherMarket(a.row, p)
  }

  /** Between change and old pair: the row keeps plan, interval and schedule, and takes period and identifiers. */
  predicate PeriodMoves(a: Account, o: Outcome, s: Snapshot, p: Price) {
    var r := o.account.row;
    && o.account.plan == a.plan && o.account.week == a.week
    && r.plan == a.row.plan && r.interval == a.row.interval && r.currency == p.currency
    && r.source == Stripe && r.customer == s.customer && r.subscription == s.subscription
    && r.periodStart == s.periodStart && r.periodEnd == s.periodEnd
    && r.delayStart == a.row.delayStart && r.delayEnd == a.row.delayEnd
    && (!s.cancel ==> o.result == Done && SameSchedule(r, a.row))
    && (s.cancel && o.result == Done ==> r.cancel && r.pendingPlan == Basic)
  }

  /** While a change waits, its old pair only moves the period; a pair that is neither moves nothing. */
  lemma WaitingChangeIsKept(a: Account, s: Snapshot, p: Price, now: Time)
    requires ForActive(a, s, p) && ChangeWaits(a.row, s, now)
    ensures var o, pair := Reconcile(a, s, now), (p.plan, p.interval);
            && (pair == (a.row.plan, a.row.interval) ==> PeriodMoves(a, o, s, p))
            && (pair != (a.row.plan, a.row.interval) && pair != WaitingPair(a.row) ==>
                  && o.result == Done && Named(o.account.row, a.row, s) && o.account.row.currency == p.currency
                  && o.account.plan == a.plan && o.account.week == a.week
                  && o.account.row.plan == a.row.plan && o.account.row.interval == a.row.interval
                  && SamePeriods(o.account.row, a.row) && SameSchedule(o.account.row, a.row))
  {
    var c := Entering(a, s, p, now);
    EnteringIsNamed(a, s, p, now);
    assert Reconcile(a, s, now) == ReconcileCurrent(c, s, p, now) && Held(c.row, s, now);
    if (p.plan, p.interval) == (a.row.plan, a.row.interval) {
      WaitingPeriodMoves(c, s, p, now);
    }
  }

  lemma WaitingPeriodMoves(c: Account, s: Snapshot, p: Price, now: Time)
    requires Coherent(c.row) && c.row.currency == p.currency && c.row.source == Stripe
    ensures PeriodMoves(c, CancelIf(Outcome(MovePeriod(c, s), Done), s.cancel, s.periodEnd), s, p)
  {}

  /** Neither kept by a waiting change nor by a pending downgrade. */
  predicate Unkept(a: Account, s: Snapshot, p: Price, now: Time) {
    ChangeWaits(a.row, s, now) ==>
      (p.plan, p.interval) != (a.row.plan, a.row.interval) && (p.plan, p.interval) == WaitingPair(a.row)
  }

  /** A lower price takes Business out of force; the row then carries the snapshot, without its cancellation. */
  lemma LowerPriceTakesBusiness(a: Account, s: Snapshot, p: Price, now: Time)
    requires ForActive(a, s, p) && Unkept(a, s, p, now) && p.plan == Plus && a.plan == Business
    ensures var o := Reconcile(a, s, now);
            var sale := Sale(p.plan, p.interval, Stripe, s.periodStart, s.periodEnd, s.customer, s.subscription,
                             p.currency);
            && (o.result == Done <==> Valid(sale, now)) && o.account.plan == Plus && o.account.week == a.week
            && (o.result == Done ==>
                  && Carries(o.account.row, sale, now)
                  && o.account.row.source == Stripe && o.account.row.currency == p.currency
                  && Named(o.account.row, a.row, s))
  {
    var c := Entering(a, s, p, now);
    EnteringIsNamed(a, s, p, now);
    var sale := SaleOf(s, p, s.periodStart, s.periodEnd);
    SaleIsCarried(c.(plan := Plus), sale, now);
    assert Reconcile(a, s, now) == Apply(c.(plan := Plus), StartPaid(sale), now);
  }

  /** A higher price puts Business in force at once, on a paid Plus row; the interval stays until the next delivery. */
  lemma HigherPriceRaises(a: Account, s: Snapshot, p: Price, now: Time)
    requires ForActive(a, s, p) && Unkept(a, s, p, now) && p.plan == Business && a.plan == Plus
    ensures var o := Reconcile(a, s, now);
            var r := o.account.row;
            && (o.result == Done <==> a.row.plan == Plus && (a.row.status == Active || a.row.status == PastDue))
            && (o.result == Done ==>
                  && o.account.plan == Business && o.account.week == a.week
                  && r.status == Active && r.plan == Business && r.interval == a.row.interval
                  && Named(r, a.row, s) && r.currency == p.currency && NothingScheduled(r) && NoFailure(r)
                  && r.periodStart == (if s.periodStart.Some? then s.periodStart else a.row.periodStart)
                  && r.periodEnd == (if s.periodEnd.Some? then s.periodEnd else a.row.periodEnd))
            && (o.result != Done ==> o.account.plan == Plus && o.account.row.plan == a.row.plan)
  {
    var c := Entering(a, s, p, now);
    EnteringIsNamed(a, s, p, now);
    assert Reconcile(a, s, now)
           == Apply(c, ApplyUpgrade(Business, s.periodStart, s.periodEnd, s.subscription, p.currency), now);
    if Raises(c.row, Business, p.currency) {
      UpgradeRaisesThePlan(c, s.periodStart, s.periodEnd, s.subscription, p.currency, now);
    } else {
      OnlyPlusIsRaised(c, Business, s.periodStart, s.periodEnd, s.subscription, p.currency, now);
    }
  }

  /** A downgrade that waits past the period the snapshot reports keeps Business: only the period moves. */
  lemma WaitingDowngradeIsKept(a: Account, s: Snapshot, p: Price, now: Time)
    requires ForActive(a, s, p) && !ChangeWaits(a.row, s, now) && p.plan == Business && a.plan != Plus
    requires a.row.pendingPlan == Plus && a.row.plan == Business
    requires a.row.pendingInterval == NoInterval || a.row.pendingInterval == a.row.interval
    ensures PeriodMoves(a, Reconcile(a, s, now), s, p)
  {
    var c := Entering(a, s, p, now);
    EnteringIsNamed(a, s, p, now);
    WaitingPeriodMoves(c, s, p, now);
  }

  /** No branch of its own: not a switch of the plan in force, nor kept. */
  predicate PlainDelivery(a: Account, s: Snapshot, p: Price, now: Time) {
    && ForActive(a, s, p) && Unkept(a, s, p, now)
    && !(p.plan == Plus && a.plan == Business) && !(p.plan == Business && a.plan == Plus)
    && !(p.plan == Business && a.row.pendingPlan == Plus && a.row.plan == Business
         && WaitingPair(a.row).1 == a.row.interval)
  }

  predicate PeriodOrdered(s: Snapshot, now: Time) {
    s.periodEnd.Some? && (if s.periodStart.Some? then s.periodStart.value else now) < s.periodEnd.value
  }

  /** Plan, interval, period, seller and currency of the snapshot; its plan is in force unless the free week's is. */
  predicate Carried(b: Account, a: Account, s: Snapshot, p: Price, now: Time) {
    && b.row.status == Active && b.row.plan == p.plan && b.row.interval == p.interval
    && Named(b.row, a.row, s) && b.row.currency == p.currency
    && b.row.periodStart == (if s.periodStart.Some? then s.periodStart else Some(now))
    && b.row.periodEnd == s.periodEnd && b.row.cancel == s.cancel
    && b.week == a.week && b.plan == if WeekActive(a.week, now) then a.plan else p.plan
  }

  lemma PlainIsASale(a: Account, s: Snapshot, p: Price, sale: Sale, now: Time)
    requires PlainDelivery(a, s, p, now) && sale == SaleOf(s, p, s.periodStart, s.periodEnd)
    ensures var c := Entering(a, s, p, now);
            Reconcile(a, s, now) == CancelIf(Apply(c, StartPaid(sale), now), s.cancel, s.periodEnd)
  {}

  /** A plain delivery is refused where the period is missing or not ordered, and then only enters. */
  lemma UnorderedIsRefused(a: Account, s: Snapshot, p: Price, now: Time)
    requires PlainDelivery(a, s, p, now)
    ensures Reconcile(a, s, now).result == Done <==> PeriodOrdered(s, now)
    ensures !PeriodOrdered(s, now) ==> Reconcile(a, s, now).account == Entering(a, s, p, now)
  {
    var c, sale := Entering(a, s, p, now), SaleOf(s, p, s.periodStart, s.periodEnd);
    EnteringIsNamed(a, s, p, now);
    PlainIsASale(a, s, p, sale, now);
    SaleIsCarried(c, sale, now);
    ActivateKeepsCoherence(c, sale, now);
    CancellationIsNoted(Apply(c, StartPaid(sale), now).account, s.periodEnd, now);
  }

  lemma SaleIsCarriedOn(a: Account, s: Snapshot, p: Price, sale: Sale, now: Time)
    requires PlainDelivery(a, s, p, now) && PeriodOrdered(s, now) && sale == SaleOf(s, p, s.periodStart, s.periodEnd)
    ensures var d := Apply(Entering(a, s, p, now), StartPaid(sale), now);
            && d.result == Done && Coherent(d.account.row) && d.account.row.pendingPlan == NoPlan
            && Carried(d.account, a, s.(cancel := false), p, now)
  {
    var c := Entering(a, s, p, now);
    EnteringIsNamed(a, s, p, now);
    SaleIsCarried(c, sale, now);
    ActivateKeepsCoherence(c, sale, now);
  }

  /** The account with a cancellation noted for `at`. */
  function Cancelled(d: Account, at: Time): Account { CancelIf(Outcome(d, Done), true, Some(at)).account }

  lemma CancellationIsStored(d: Account, at: Time)
    requires Coherent(d.row) && d.row.status == Active
    ensures CancelIf(Outcome(d, Done), true, Some(at)).result == Done
    ensures var e := Cancelled(d, at);
            && e.plan == d.plan && e.week == d.week && e.row.status == Active
            && e.row.cancel && e.row.pendingAt == Some(at) && Coherent(e.row)
            && SameSale(e.row, d.row) && SamePeriods(e.row, d.row)
  {}

  lemma StoredCancellationEnds(d: Account, at: Time)
    requires Coherent(d.row) && d.row.status == Active
    ensures EndsAt(Cancelled(d, at), at)
  {
    CancellationIsStored(d, at);
    CancelledRowEnds(Cancelled(d, at), at);
  }

  /** Otherwise the account carries exactly what the snapshot says, for good or until its cancellation. */
  lemma OtherwiseTheSnapshotIsCarried(a: Account, s: Snapshot, p: Price, now: Time)
    requires PlainDelivery(a, s, p, now) && PeriodOrdered(s, now)
    ensures var b := Reconcile(a, s, now).account;
            Carried(b, a, s, p, now) && if s.cancel then EndsAt(b, s.periodEnd.value) else Stands(b)
  {
    var sale := SaleOf(s, p, s.periodStart, s.periodEnd);
    PlainIsASale(a, s, p, sale, now);
    SaleIsCarriedOn(a, s, p, sale, now);
    var d := Apply(Entering(a, s, p, now), StartPaid(sale), now).account;
    if s.cancel {
      CancellationIsStored(d, s.periodEnd.value);
      StoredCancellationEnds(d, s.periodEnd.value);
    } else {
      SettledRowsStand(d);
    }
  }
}
