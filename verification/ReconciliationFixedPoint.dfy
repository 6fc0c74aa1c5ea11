/**
  Reconciling the same snapshot again and again, at one clock reading: the third
  application settles it, and when the second one does.
 */
module ReconciliationFixedPoint {
  import opened BillingTypes
  import opened BillingServices
  import opened Reconciliation

  predicate Windowed(s: Snapshot, now: Time) {
    s.periodEnd.Some? && OrTime(s.periodStart, Some(now)).value < s.periodEnd.value
  }

  predicate WellFormed(s: Snapshot, now: Time) {
    && (s.status != Ended ==> s.price.Some? && Catalogued(s.price.value))
    && (s.status == Current ==> Windowed(s, now))
  }

  /** The snapshot delivered `n` times; a delivery that raises stops the sequence. */
  function Deliver(a: Account, s: Snapshot, now: Time, n: nat): Outcome {
    if n == 0 then Outcome(a, Done)
    else
      var before := Deliver(a, s, now, n - 1);
      if before.result == Done then Reconcile(before.account, s, now) else before
  }

  predicate Stable(a: Account, s: Snapshot, now: Time) { Reconcile(a, s, now) == Outcome(a, Done) }

  /** The row already carries the snapshot's source, currency and identifiers. */
  predicate Adopted(r: Row, s: Snapshot, p: Price) {
    && r.source == Stripe && r.currency == p.currency
    && (s.customer == "" || s.customer == r.customer)
    && (s.subscription == "" || s.subscription == r.subscription)
  }

  /** The account carries exactly what an active snapshot says. */
  predicate Synced(a: Account, s: Snapshot, p: Price, now: Time) {
    var r := a.row;
    && Adopted(r, s, p) && r.status == Active && r.plan == p.plan && a.plan == p.plan && r.interval == p.interval
    && r.periodStart == OrTime(s.periodStart, Some(now)) && r.periodEnd == s.periodEnd
    && r.cancel == s.cancel
    && (if s.cancel then r.pendingPlan == Basic && r.pendingAt == s.periodEnd else r.pendingPlan == NoPlan)
  }

  /** Nothing of an earlier payment failure or schedule would be wiped by a full activation. */
  predicate Clean(r: Row) { r.pendingInterval == NoInterval && r == ClearPaymentFailure(r, None) }

  /** A scheduled change makes the reconciliation keep the row's own plan and interval. */
  predicate Blocked(r: Row, s: Snapshot, p: Price, now: Time) {
    var pair := (p.plan, p.interval);
    if Held(r, s, now) then
      if pair == (r.plan, r.interval) then !s.cancel else pair != Target(r)
    else !s.cancel && DowngradePending(r) && p.plan == Business
  }

  lemma EndedSettles(a: Account, s: Snapshot, now: Time)
    requires Coherent(a.row) && !Unsettled(a.week) && s.status == Ended && Reconcile(a, s, now).result == Done
    ensures var once := Reconcile(a, s, now).account;
            var twice := Reconcile(once, s, now);
            twice.result == Done && Stable(twice.account, s, now)
  {
    if s.cancel && Future(s.periodEnd, now) {
      CancelledEndSettles(a, s, now);
    } else {
      FinalEndSettles(a, s, now);
    }
  }

  lemma CancelledEndSettles(a: Account, s: Snapshot, now: Time)
    requires Coherent(a.row) && s.status == Ended && s.cancel && Future(s.periodEnd, now)
    requires Reconcile(a, s, now).result == Done
    ensures Stable(Reconcile(a, s, now).account, s, now)
  {
    assert Reconcile(a, s, now) == ScheduleCancellation(StoreIds(a, s), s.periodEnd);
  }

  /**
    The first delivery ends the subscription; if it was ended already, the second restores what
    the identifiers overwrote.
   */
  lemma FinalEndSettles(a: Account, s: Snapshot, now: Time)
    requires Coherent(a.row) && !Unsettled(a.week) && s.status == Ended && !(s.cancel && Future(s.periodEnd, now))
    ensures var once := Reconcile(a, s, now).account;
            var twice := Reconcile(once, s, now);
            twice.result == Done && Stable(twice.account, s, now)
  {
    var once := Reconcile(a, s, now).account;
    assert once == FinalizeEnd(StoreIds(a, s), now).account;
    assert Reconcile(once, s, now) == FinalizeEnd(StoreIds(once, s), now);
  }

  lemma OverdueSettles(a: Account, s: Snapshot, now: Time)
    requires Coherent(a.row) && s.status == Overdue && WellFormed(s, now) && Reconcile(a, s, now).result == Done
    ensures Stable(Reconcile(a, s, now).account, s, now)
  {}

  /** What a full deferred start followed by the snapshot's cancellation leaves. */
  predicate DelayRecorded(c: Account, s: Snapshot, p: Price, now: Time) {
    var start, end := OrTime(OrTime(s.delayStart, s.periodStart), Some(now)), OrTime(s.delayEnd, s.periodEnd);
    && Adopted(c.row, s, p) && c.row.status == Trialing && c.row.plan == p.plan && c.row.interval == p.interval
    && c.row.delayStart == start && c.row.delayEnd == end && end.Some? && start.value < end.value
    && (s.cancel ==> c.row.cancel)
  }

  predicate DelayStored(r: Row, s: Snapshot, p: Price, sale: Sale, now: Time) {
    && Coherent(r) && Adopted(r, s, p) && r.status == Trialing && !r.cancel
    && r.plan == p.plan && r.interval == p.interval
    && r.delayStart == OrTime(sale.start, Some(now)) && r.delayEnd == sale.end
  }

  lemma StampedDelay(r: Row, s: Snapshot, p: Price, sale: Sale, now: Time)
    requires Coherent(r) && Catalogued(p) && sale == SaleOf(s, p, sale.start, sale.end) && Adopted(r, s, p)
    requires Deferred(r, sale, now)
    ensures DelayStored(StampProvider(r, sale.source, sale.currency, sale.customer, sale.subscription), s, p, sale, now)
  {}

  lemma FullDelay(r: Row, s: Snapshot, p: Price, sale: Sale, now: Time)
    requires Coherent(r) && Catalogued(p) && sale == SaleOf(s, p, sale.start, sale.end) && Adopted(r, s, p)
    requires SaleWindow(sale, now) == Done
    ensures DelayStored(DeferredRow(r, sale, now), s, p, sale, now)
  {}

  lemma DeferredStartRecords(c: Account, s: Snapshot, p: Price, sale: Sale, now: Time)
    requires Coherent(c.row) && Catalogued(p) && sale == SaleOf(s, p, sale.start, sale.end) && Adopted(c.row, s, p)
    requires DeferredStart(c, sale, now).result == Done
    ensures DelayStored(DeferredStart(c, sale, now).account.row, s, p, sale, now)
  {
    if Deferred(c.row, sale, now) {
      StampedDelay(c.row, s, p, sale, now);
    } else {
      FullDelay(c.row, s, p, sale, now);
    }
  }

  lemma DelayIsRecorded(c: Account, s: Snapshot, p: Price, now: Time)
    requires Coherent(c.row) && s.status == Delayed && s.price == Some(p) && Catalogued(p)
    requires Adopted(c.row, s, p) && ReconcileDelayed(c, s, p, now).result == Done
    ensures DelayRecorded(ReconcileDelayed(c, s, p, now).account, s, p, now)
    ensures Coherent(ReconcileDelayed(c, s, p, now).account.row)
  {
    var sale := SaleOf(s, p, OrTime(s.delayStart, s.periodStart), OrTime(s.delayEnd, s.periodEnd));
    DeferredStartRecords(c, s, p, sale, now);
  }

  lemma RecordedDelaySettles(c: Account, s: Snapshot, p: Price, now: Time)
    requires s.status == Delayed && s.price == Some(p) && Catalogued(p)
    requires Coherent(c.row) && DelayRecorded(c, s, p, now)
    ensures var o := Reconcile(c, s, now);
            o.result == Done && Stable(o.account, s, now)
  {
    var o := Reconcile(c, s, now);
    assert !WrongMarket(c.row, p);
    assert o == ReconcileDelayed(c, s, p, now);
    if c.row.cancel {
      assert DelayRecorded(o.account, s, p, now);
      assert !WrongMarket(o.account.row, p);
      assert Reconcile(o.account, s, now) == ReconcileDelayed(o.account, s, p, now);
    } else {
      assert o.account == c;
    }
  }

  // ---- active snapshots ----

  /** What the reconciliation goes on with: past the identifiers, the currency and the payment recovery. */
  function Entering(a: Account, s: Snapshot, p: Price, now: Time): Account {
    PaymentRecovered(Adopt(a, s, p), Some(now), now).account
  }

  predicate Entered(c: Account, s: Snapshot, p: Price) {
    && s.status == Current && s.price == Some(p) && Catalogued(p)
    && Adopted(c.row, s, p) && c.row.status != PastDue && Coherent(c.row) && !Unsettled(c.week)
  }

  lemma Enter(a: Account, s: Snapshot, p: Price, now: Time) returns (c: Account)
    requires Coherent(a.row) && !Unsettled(a.week) && !WrongMarket(a.row, p)
    requires s.status == Current && s.price == Some(p) && Catalogued(p)
    ensures c == Entering(a, s, p, now) && Entered(c, s, p) && Reconcile(a, s, now) == ReconcileCurrent(c, s, p, now)
    ensures Held(c.row, s, now) == Held(a.row, s, now) && Target(c.row) == Target(a.row)
    ensures DowngradePending(c.row) == DowngradePending(a.row) && c.row.plan == a.row.plan
    ensures c.row.interval == a.row.interval
    ensures c.plan == a.plan && (Paid(a.row.status) ==> c.row.status == Active)
  {
    c := Entering(a, s, p, now);
  }

  lemma EnteredReconciles(c: Account, s: Snapshot, p: Price, now: Time)
    requires Entered(c, s, p)
    ensures Reconcile(c, s, now) == ReconcileCurrent(c, s, p, now) && Entering(c, s, p, now) == c
  {}

  lemma SyncedIsStable(c: Account, s: Snapshot, p: Price, now: Time)
    requires Entered(c, s, p) && Windowed(s, now) && Synced(c, s, p, now)
    ensures Stable(c, s, now) <==> s.cancel ==> Clean(c.row)
  {
    EnteredReconciles(c, s, p, now);
  }

  /** The effective plan sends the reconciliation neither into the downgrade nor into the upgrade. */
  predicate NoSwitch(c: Account, p: Price) {
    !(p.plan == Plus && c.plan == Business) && !(p.plan == Business && c.plan == Plus)
  }

  /** One application syncs an account whose plan needs no switch and which has nothing scheduled. */
  lemma Syncs(c: Account, s: Snapshot, p: Price, now: Time)
    requires Entered(c, s, p) && Windowed(s, now) && NoSwitch(c, p)
    requires !ScheduledChangePending(c.row) && !DowngradePending(c.row)
    ensures var o := Reconcile(c, s, now);
            && o.result == Done && Synced(o.account, s, p, now) && Entered(o.account, s, p)
            && (Stable(o.account, s, now) <==>
                  (s.cancel && Confirmed(c, SaleOf(s, p, s.periodStart, s.periodEnd), now) ==> Clean(c.row)))
  {
    EnteredReconciles(c, s, p, now);
    var sale := SaleOf(s, p, s.periodStart, s.periodEnd);
    var o := CancelIf(Activate(c, sale, now), s.cancel, s.periodEnd);
    assert Reconcile(c, s, now) == o;
    SyncedIsStable(o.account, s, p, now);
  }

  /** A kept row with a cancellation is activated in full next time, so nothing stale survives. */
  lemma CancelledSyncs(c: Account, s: Snapshot, p: Price, now: Time)
    requires Entered(c, s, p) && Windowed(s, now) && NoSwitch(c, p) && c.row.cancel
    ensures var o := Reconcile(c, s, now);
            o.result == Done && Synced(o.account, s, p, now) && Stable(o.account, s, now)
  {
    Syncs(c, s, p, now);
  }

  /** A scheduled change holds the row at the snapshot's own plan and interval. */
  predicate KeptByChange(r: Row, s: Snapshot, p: Price, now: Time) {
    Held(r, s, now) && (p.plan, p.interval) == (r.plan, r.interval)
  }

  /** The second delivery is an upgrade to the plan the row already has, which is refused. */
  predicate SecondRaises(a: Account, s: Snapshot, p: Price, now: Time) {
    KeptByChange(a.row, s, p, now) && s.cancel && p.plan == Business && a.plan == Plus
  }

  /**
    The second delivery is not the last to change something: Business is in force on a
    Plus row that a cancelling Plus snapshot either finds held, or confirms with stale columns.
   */
  predicate Wavers(a: Account, s: Snapshot, p: Price, now: Time) {
    && p.plan == Plus && a.plan == Business && s.cancel && (p.plan, p.interval) == (a.row.plan, a.row.interval)
    && (Held(a.row, s, now) || ConfirmsStale(Entering(a, s, p, now).(plan := Plus), s, p, now))
  }

  predicate ConfirmsStale(c: Account, s: Snapshot, p: Price, now: Time) {
    Confirmed(c, SaleOf(s, p, s.periodStart, s.periodEnd), now) && !Clean(c.row)
  }

  /** How a sequence of deliveries goes on from the account after the first. */
  ghost predicate Settling(a: Account, once: Account, s: Snapshot, p: Price, now: Time) {
    var twice := Reconcile(once, s, now);
    && (twice.result == Done <==> !SecondRaises(a, s, p, now))
    && (twice.result == Done ==>
          var thrice := Reconcile(twice.account, s, now);
          && (Stable(twice.account, s, now) <==> !Wavers(a, s, p, now))
          && (Synced(twice.account, s, p, now) <==>
                !Blocked(a.row, s, p, now) && !(Wavers(a, s, p, now) && Held(a.row, s, now)))
          && thrice.result == Done && Stable(thrice.account, s, now)
          && (Synced(thrice.account, s, p, now) <==> !Blocked(a.row, s, p, now)))
  }

  /** Once the second delivery is stable, so is the third, which equals it. */
  lemma StableSettles(a: Account, once: Account, s: Snapshot, p: Price, now: Time)
    requires !SecondRaises(a, s, p, now) && !Wavers(a, s, p, now)
    requires var twice := Reconcile(once, s, now);
             && twice.result == Done && Stable(twice.account, s, now)
             && (Synced(twice.account, s, p, now) <==> !Blocked(a.row, s, p, now))
    ensures Settling(a, once, s, p, now)
  {}

  lemma KeptByChangeSettles(c: Account, s: Snapshot, p: Price, now: Time)
    requires Entered(c, s, p) && Windowed(s, now) && KeptByChange(c.row, s, p, now)
    ensures Reconcile(c, s, now).result == Done && Settling(c, Reconcile(c, s, now).account, s, p, now)
  {
    EnteredReconciles(c, s, p, now);
    var once := CancelIf(Outcome(MovePeriod(c, s), Done), s.cancel, s.periodEnd);
    assert Reconcile(c, s, now) == once;
    var b := once.account;
    if !s.cancel {
      StableSettles(c, b, s, p, now);
    } else if NoSwitch(c, p) {
      CancelledSyncs(b, s, p, now);
      StableSettles(c, b, s, p, now);
    } else {
      assert Entered(b, s, p);
      EnteredReconciles(b, s, p, now);
      if p.plan == Plus {
        KeptDowngradeTakesThree(c, b, s, p, now);
      }
    }
  }

  /** The downgrade of a cancelled row drops the cancellation; only the third delivery brings it back. */
  lemma KeptDowngradeTakesThree(c: Account, b: Account, s: Snapshot, p: Price, now: Time)
    requires Entered(b, s, p) && Windowed(s, now) && s.cancel && b.row.cancel && p.plan == Plus
    requires b.plan == c.plan == Business
    requires KeptByChange(c.row, s, p, now)
    ensures Settling(c, b, s, p, now)
  {
    EnteredReconciles(b, s, p, now);
    var twice := Activate(b.(plan := Plus), SaleOf(s, p, s.periodStart, s.periodEnd), now);
    assert Reconcile(b, s, now) == twice;
    assert Entered(twice.account, s, p) && Clean(twice.account.row) && !twice.account.row.cancel;
    Syncs(twice.account, s, p, now);
  }

  lemma KeptByDowngradeSettles(c: Account, s: Snapshot, p: Price, now: Time)
    requires Entered(c, s, p) && Windowed(s, now) && NoSwitch(c, p) && DowngradePending(c.row) && p.plan == Business
    requires !KeptByChange(c.row, s, p, now)
    requires Reconcile(c, s, now) == CancelIf(Outcome(MovePeriod(c, s), Done), s.cancel, s.periodEnd)
    requires Held(c.row, s, now) ==> (p.plan, p.interval) == Target(c.row)
    ensures Reconcile(c, s, now).result == Done && Settling(c, Reconcile(c, s, now).account, s, p, now)
  {
    var b := Reconcile(c, s, now).account;
    if s.cancel {
      CancelledSyncs(b, s, p, now);
    }
    StableSettles(c, b, s, p, now);
  }

  lemma ActivationEnters(c: Account, s: Snapshot, p: Price, now: Time)
    requires Entered(c, s, p) && Windowed(s, now) && NoSwitch(c, p)
    ensures var o := CancelIf(Activate(c, SaleOf(s, p, s.periodStart, s.periodEnd), now), s.cancel, s.periodEnd);
            && o.result == Done && Entered(o.account, s, p) && NoSwitch(o.account, p)
            && o.account.row.cancel == s.cancel && (!s.cancel ==> o.account.row.pendingPlan == NoPlan)
  {
    var sale := SaleOf(s, p, s.periodStart, s.periodEnd);
    var o := Activate(c, sale, now);
    if !Confirmed(c, sale, now) {
      ActivatedRowEnters(c, s, p, sale, now);
    }
    assert o.result == Done && Entered(o.account, s, p) && NoSwitch(o.account, p);
    assert o.account.row.pendingPlan == NoPlan;
    CancelEnters(o.account, s, p);
  }

  lemma ActivatedRowEnters(c: Account, s: Snapshot, p: Price, sale: Sale, now: Time)
    requires Entered(c, s, p) && sale == SaleOf(s, p, s.periodStart, s.periodEnd)
    ensures Entered(c.(plan := p.plan, row := ActivatedRow(c.row, sale, now)), s, p)
  {}

  lemma CancelEnters(c: Account, s: Snapshot, p: Price)
    requires Entered(c, s, p) && c.row.pendingPlan == NoPlan && c.row.status == Active && s.periodEnd.Some?
    ensures var o := CancelIf(Outcome(c, Done), s.cancel, s.periodEnd);
            && o.result == Done && Entered(o.account, s, p) && o.account.plan == c.plan
            && o.account.row.cancel == s.cancel && (!s.cancel ==> o.account.row.pendingPlan == NoPlan)
  {}

  lemma ActivationSettles(c: Account, s: Snapshot, p: Price, now: Time)
    requires Entered(c, s, p) && Windowed(s, now) && NoSwitch(c, p)
    requires Reconcile(c, s, now)
             == CancelIf(Activate(c, SaleOf(s, p, s.periodStart, s.periodEnd), now), s.cancel, s.periodEnd)
    requires !KeptByChange(c.row, s, p, now) && !Blocked(c.row, s, p, now)
    ensures Reconcile(c, s, now).result == Done && Settling(c, Reconcile(c, s, now).account, s, p, now)
  {
    var b := Reconcile(c, s, now).account;
    ActivationEnters(c, s, p, now);
    Syncs(b, s, p, now);
    StableSettles(c, b, s, p, now);
  }

  lemma DowngradeSettles(c: Account, s: Snapshot, p: Price, now: Time)
    requires Entered(c, s, p) && Windowed(s, now) && p.plan == Plus && c.plan == Business
    requires Reconcile(c, s, now) == Activate(c.(plan := Plus), SaleOf(s, p, s.periodStart, s.periodEnd), now)
    requires !KeptByChange(c.row, s, p, now) && !Blocked(c.row, s, p, now)
    ensures Reconcile(c, s, now).result == Done && Settling(c, Reconcile(c, s, now).account, s, p, now)
  {
    EnteredReconciles(c, s, p, now);
    var b := Reconcile(c, s, now).account;
    Syncs(b, s, p, now);
    if !Wavers(c, s, p, now) {
      StableSettles(c, b, s, p, now);
    } else {
      var twice := Reconcile(b, s, now).account;
      CancelledSyncs(twice, s, p, now);
    }
  }

  lemma UpgradeSettles(c: Account, s: Snapshot, p: Price, now: Time)
    requires Entered(c, s, p) && Windowed(s, now) && p.plan == Business && c.plan == Plus
    requires Reconcile(c, s, now) == Upgrade(c, Business, s.periodStart, s.periodEnd, s.subscription, p.currency)
    requires Reconcile(c, s, now).result == Done && !KeptByChange(c.row, s, p, now) && !Blocked(c.row, s, p, now)
    ensures Settling(c, Reconcile(c, s, now).account, s, p, now)
  {
    var b := Reconcile(c, s, now).account;
    Syncs(b, s, p, now);
    StableSettles(c, b, s, p, now);
  }

  lemma CurrentSettles(c: Account, s: Snapshot, p: Price, now: Time)
    requires Entered(c, s, p) && Windowed(s, now) && Reconcile(c, s, now).result == Done
    ensures Settling(c, Reconcile(c, s, now).account, s, p, now)
  {
    EnteredReconciles(c, s, p, now);
    var r, pair := c.row, (p.plan, p.interval);
    if KeptByChange(r, s, p, now) {
      KeptByChangeSettles(c, s, p, now);
    } else if Held(r, s, now) && pair != Target(r) {
      assert Reconcile(c, s, now).account == c;
      StableSettles(c, c, s, p, now);
    } else if p.plan == Plus && c.plan == Business {
      DowngradeSettles(c, s, p, now);
    } else if p.plan == Business && c.plan == Plus {
      UpgradeSettles(c, s, p, now);
    } else if DowngradePending(r) && p.plan == Business {
      KeptByDowngradeSettles(c, s, p, now);
    } else {
      ActivationSettles(c, s, p, now);
    }
  }

  /** An active snapshot, in terms of the account it is first delivered to. */
  lemma ActiveSnapshotSettles(a: Account, s: Snapshot, now: Time)
    requires Coherent(a.row) && !Unsettled(a.week) && WellFormed(s, now) && s.status == Current
    requires Reconcile(a, s, now).result == Done
    ensures Settling(a, Reconcile(a, s, now).account, s, s.price.value, now)
  {
    var p := s.price.value;
    var c := Enter(a, s, p, now);
    EnteredReconciles(c, s, p, now);
    CurrentSettles(c, s, p, now);
    assert SecondRaises(a, s, p, now) == SecondRaises(c, s, p, now);
    assert Wavers(a, s, p, now) == Wavers(c, s, p, now);
    assert Blocked(a.row, s, p, now) == Blocked(c.row, s, p, now);
  }

  /** What keeps the second delivery of a snapshot from being a fixed point; for other statuses nothing does. */
  predicate Restless(a: Account, s: Snapshot, now: Time)
    requires s.status != Ended ==> s.price.Some?
  {
    s.status == Current && Wavers(a, s, s.price.value, now)
  }

  predicate Refused(a: Account, s: Snapshot, now: Time)
    requires s.status != Ended ==> s.price.Some?
  {
    s.status == Current && SecondRaises(a, s, s.price.value, now)
  }

  /**
    When no call raises, the second delivery is a fixed point exactly if the account
    does not waver; then an active snapshot is carried in full exactly if no scheduled change blocks it.
   */
  lemma SecondDeliverySettlesIff(a: Account, s: Snapshot, now: Time)
    requires Coherent(a.row) && !Unsettled(a.week) && WellFormed(s, now) && Reconcile(a, s, now).result == Done
    ensures Deliver(a, s, now, 2).result == Done <==> !Refused(a, s, now)
    ensures !Refused(a, s, now) ==> (Stable(Deliver(a, s, now, 2).account, s, now) <==> !Restless(a, s, now))
    ensures s.status == Current && !Refused(a, s, now) && !Restless(a, s, now) ==>
      (Synced(Deliver(a, s, now, 2).account, s, s.price.value, now) <==> !Blocked(a.row, s, s.price.value, now))
  {
    assert Deliver(a, s, now, 1) == Reconcile(a, s, now);
    match s.status
    case Ended => EndedSettles(a, s, now);
    case Overdue => OverdueSettles(a, s, now);
    case Delayed =>
      DelayIsRecorded(Entering(a, s, s.price.value, now), s, s.price.value, now);
      RecordedDelaySettles(Reconcile(a, s, now).account, s, s.price.value, now);
    case Current => ActiveSnapshotSettles(a, s, now);
  }

  /** The third delivery always is one. */
  lemma ThirdDeliverySettles(a: Account, s: Snapshot, now: Time)
    requires Coherent(a.row) && !Unsettled(a.week) && WellFormed(s, now) && Deliver(a, s, now, 2).result == Done
    ensures Deliver(a, s, now, 3).result == Done && Stable(Deliver(a, s, now, 3).account, s, now)
    ensures s.status == Current ==>
      (Synced(Deliver(a, s, now, 3).account, s, s.price.value, now) <==> !Blocked(a.row, s, s.price.value, now))
  {
    assert Deliver(a, s, now, 1) == Reconcile(a, s, now);
    SecondDeliverySettlesIff(a, s, now);
    if s.status == Current {
      ActiveSnapshotSettles(a, s, now);
    }
  }

  /** Three deliveries do what any larger number does; two do so exactly if the account does not waver. */
  lemma {:induction false} RedeliverySettles(a: Account, s: Snapshot, now: Time, n: nat)
    requires Coherent(a.row) && !Unsettled(a.week) && WellFormed(s, now) && Deliver(a, s, now, 2).result == Done
    requires 3 <= n
    ensures Deliver(a, s, now, n) == Deliver(a, s, now, 3) && Deliver(a, s, now, n).result == Done
    ensures Deliver(a, s, now, n) == Deliver(a, s, now, 2) <==> !Restless(a, s, now)
  {
    assert Deliver(a, s, now, 1) == Reconcile(a, s, now);
    SecondDeliverySettlesIff(a, s, now);
    ThirdDeliverySettles(a, s, now);
    if 3 < n {
      RedeliverySettles(a, s, now, n - 1);
    }
  }

  /** Where the effective plan is the paid plan, nothing wavers and no later delivery raises. */
  lemma MatchingPlansSettleAtTwo(a: Account, s: Snapshot, now: Time, n: nat)
    requires Coherent(a.row) && PlanMatches(a) && WellFormed(s, now) && Reconcile(a, s, now).result == Done && 2 <= n
    ensures Deliver(a, s, now, n) == Deliver(a, s, now, 2) && Deliver(a, s, now, n).result == Done
  {
    SecondDeliverySettlesIff(a, s, now);
    if s.status == Current {
      assert a.plan != Basic ==> a.plan == a.row.plan;
    }
    if 2 < n {
      RedeliverySettles(a, s, now, n);
    }
  }

  // ---- what two deliveries leave undone ----

  const WAVERING_ROW := DEFAULT_ROW.(
    source := Stripe, subscription := "sub", status := Active, plan := Plus, interval := Monthly,
    periodStart := Some(50), periodEnd := Some(200), recoveredAt := Some(60))

  const WAVERING_SNAPSHOT := Snapshot(
    "sub", "", Current, Some(Price(Plus, Monthly, Usd)), true, Some(50), Some(200), None, None)

  /**
    Business in force on a recovered Plus row: the third delivery of a cancelling Plus snapshot
    still changes the row.
   */
  lemma ThirdDeliveryMayDiffer()
    ensures var a := Account(WAVERING_ROW, Business, Ineligible);
            && Coherent(a.row) && !Unsettled(a.week) && WellFormed(WAVERING_SNAPSHOT, 100)
            && Deliver(a, WAVERING_SNAPSHOT, 100, 3).result == Done
            && Deliver(a, WAVERING_SNAPSHOT, 100, 2).account.row.recoveredAt == Some(60)
            && Deliver(a, WAVERING_SNAPSHOT, 100, 3).account.row.recoveredAt == None
  {
    var a := Account(WAVERING_ROW, Business, Ineligible);
    var s := WAVERING_SNAPSHOT;
    assert Deliver(a, s, 100, 0) == Outcome(a, Done);
    assert Deliver(a, s, 100, 1) == Outcome(a.(plan := Plus), Done);
    var cancelled := WAVERING_ROW.(cancel := true, pendingPlan := Basic, pendingAt := Some(200));
    assert Deliver(a, s, 100, 2) == Outcome(Account(cancelled, Plus, Ineligible), Done);
    assert Deliver(a, s, 100, 3) == Reconcile(Account(cancelled, Plus, Ineligible), s, 100);
  }

  // ---- active snapshots whose period is missing or not ordered ----

  /** The first delivery has done something that keeps the second from finding the account as it was. */
  predicate Spent(a: Account, s: Snapshot, p: Price, now: Time) {
    if KeptByChange(a.row, s, p, now) then s.cancel
    else if Held(a.row, s, now) && (p.plan, p.interval) != Target(a.row) then false
    else s.cancel || (p.plan == Business && a.plan == Plus)
  }

  /**
    Without an ordered period the second delivery is refused exactly after an upgrade or a
    cancellation; otherwise the first is a fixed point.
   */
  lemma UnorderedSettlesIff(a: Account, s: Snapshot, p: Price, now: Time)
    requires Coherent(a.row) && !Unsettled(a.week) && Reconcile(a, s, now).result == Done
    requires s.status == Current && s.price == Some(p) && Catalogued(p) && !Windowed(s, now)
    ensures var once := Reconcile(a, s, now).account;
            && (Reconcile(once, s, now).result == Done <==> !Spent(a, s, p, now))
            && (!Spent(a, s, p, now) ==> Stable(once, s, now))
  {
    var c := Enter(a, s, p, now);
    EnteredReconciles(c, s, p, now);
    var once := ReconcileCurrent(c, s, p, now).account;
    UnorderedEnters(c, s, p, now);
    EnteredReconciles(once, s, p, now);
    UnorderedAgain(c, s, p, now);
  }

  function Moved(c: Account, s: Snapshot): Outcome { CancelIf(Outcome(MovePeriod(c, s), Done), s.cancel, s.periodEnd) }

  function Upgraded(c: Account, s: Snapshot, p: Price): Outcome {
    Upgrade(c, Business, s.periodStart, s.periodEnd, s.subscription, p.currency)
  }

  lemma MovedEnters(c: Account, s: Snapshot, p: Price)
    requires Entered(c, s, p) && Moved(c, s).result == Done
    ensures Entered(Moved(c, s).account, s, p)
  {}

  lemma UpgradedEnters(c: Account, s: Snapshot, p: Price)
    requires Entered(c, s, p) && Upgraded(c, s, p).result == Done
    ensures Entered(Upgraded(c, s, p).account, s, p)
  {}

  lemma UnorderedEnters(c: Account, s: Snapshot, p: Price, now: Time)
    requires Entered(c, s, p) && !Windowed(s, now) && ReconcileCurrent(c, s, p, now).result == Done
    ensures Entered(ReconcileCurrent(c, s, p, now).account, s, p)
  {
    var o := ReconcileCurrent(c, s, p, now);
    assert o == Outcome(c, Done) || o == Moved(c, s) || o == Upgraded(c, s, p);
    if o == Moved(c, s) {
      MovedEnters(c, s, p);
    } else if o == Upgraded(c, s, p) {
      UpgradedEnters(c, s, p);
    }
  }

  lemma UnorderedAgain(c: Account, s: Snapshot, p: Price, now: Time)
    requires Entered(c, s, p) && !Windowed(s, now) && ReconcileCurrent(c, s, p, now).result == Done
    ensures var once := ReconcileCurrent(c, s, p, now).account;
            && (ReconcileCurrent(once, s, p, now).result == Done <==> !Spent(c, s, p, now))
            && (!Spent(c, s, p, now) ==> ReconcileCurrent(once, s, p, now) == Outcome(once, Done))
  {
    if KeptByChange(c.row, s, p, now) {
      MovedAgain(c, s, p, now);
    } else if Held(c.row, s, now) && (p.plan, p.interval) != Target(c.row) {
      assert ReconcileCurrent(c, s, p, now) == Outcome(c, Done);
    } else if p.plan == Business && c.plan == Plus {
      UpgradedAgain(c, s, p, now);
    } else {
      MovedAgain(c, s, p, now);
    }
  }

  lemma MovedAgain(c: Account, s: Snapshot, p: Price, now: Time)
    requires Entered(c, s, p) && !Windowed(s, now)
    requires ReconcileCurrent(c, s, p, now) == Moved(c, s) && Moved(c, s).result == Done
    requires KeptByChange(c.row, s, p, now) || (DowngradePending(c.row) && p.plan == Business && c.plan != Plus)
    ensures var once := Moved(c, s).account;
            && (ReconcileCurrent(once, s, p, now).result == Done <==> !s.cancel)
            && (!s.cancel ==> ReconcileCurrent(once, s, p, now) == Outcome(once, Done))
  {}

  lemma UpgradedAgain(c: Account, s: Snapshot, p: Price, now: Time)
    requires Entered(c, s, p) && !Windowed(s, now) && p.plan == Business && c.plan == Plus
    requires Upgraded(c, s, p).result == Done
    ensures ReconcileCurrent(Upgraded(c, s, p).account, s, p, now).result == Raised(BadWindow)
  {}

  // ---- what one delivery leaves undone ----

  lemma UpgradeOnce(a: Account, s: Snapshot, p: Price, now: Time)
    requires Coherent(a.row) && !Unsettled(a.week) && !WrongMarket(a.row, p) && a.plan == Plus
    requires a.row.pendingPlan == NoPlan
    requires Paid(a.row.status) && a.row.plan == Plus
    requires s.status == Current && s.price == Some(p) && Catalogued(p) && p.plan == Business
    ensures var once := Reconcile(a, s, now);
            once.result == Done && once.account.row.plan == Business && !once.account.row.cancel
            && once.account.row.interval == a.row.interval
  {
    var c := Enter(a, s, p, now);
    EnteredReconciles(c, s, p, now);
    assert Reconcile(a, s, now) == Upgrade(c, Business, s.periodStart, s.periodEnd, s.subscription, p.currency);
  }

  /**
    An upgrade delivered once drops the cancel flag and keeps the old interval; the second
    delivery sets both right.
   */
  lemma UpgradeNeedsTwoDeliveries(a: Account, s: Snapshot, p: Price, now: Time)
    requires Coherent(a.row) && PlanMatches(a) && !WrongMarket(a.row, p) && a.plan == Plus
    requires a.row.pendingPlan == NoPlan
    requires s.status == Current && s.price == Some(p) && Catalogued(p) && Windowed(s, now)
    requires p.plan == Business && s.cancel
    ensures var once, twice := Deliver(a, s, now, 1).account.row, Deliver(a, s, now, 2).account.row;
            && once.plan == Business && !once.cancel && once.interval == a.row.interval
            && twice.plan == Business && twice.cancel && twice.interval == p.interval
  {
    UpgradeOnce(a, s, p, now);
    SecondDeliverySettlesIff(a, s, now);
    assert Deliver(a, s, now, 1) == Reconcile(a, s, now);
    assert Synced(Deliver(a, s, now, 2).account, s, p, now);
  }

  /** A repeated ended snapshot finds the subscription ended already and leaves its own source behind. */
  lemma RepeatedEndLeavesStripe(a: Account, s: Snapshot, now: Time)
    requires Coherent(a.row) && !WeekActive(a.week, now) && s.status == Ended && !s.cancel
    ensures var once, twice := Deliver(a, s, now, 1).account, Deliver(a, s, now, 2).account;
            && (once.row.source == NoSource <==> !AlreadyEnded(StoreIds(a, s)))
            && twice.row.source == Stripe && !Live(twice.row.status) && twice.plan == Basic
  {
    assert Deliver(a, s, now, 1) == Reconcile(a, s, now);
  }
}
