/**
  From a paid checkout session to the plan in force: the subscription the provider
  makes of it, reconciled, and what two paid sessions of one workspace leave.
 */
module CheckoutPurchase {
  import opened BillingTypes
  import opened BillingServices
  import opened Reconciliation
  import opened BillingRuns
  import opened CheckoutModel
  import P = CheckoutProtocol
  import C = CheckoutPlanChange

  /** What a session was created with besides what it is for; billing may start later, at the end of a free week. */
  datatype Terms = Terms(customer: string, currency: Currency, startAt: Option<Time>)

  const MONTH: Time := 30 * DAY

  /** The subscription a completed session turns into. */
  function Purchased(want: Identity, terms: Terms, subscription: string, now: Time): Snapshot {
    var price := Some(Price(want.plan, want.interval, terms.currency));
    if Future(terms.startAt, now) then
      Snapshot(subscription, terms.customer, Delayed, price, false, Some(now), terms.startAt, Some(now), terms.startAt)
    else
      Snapshot(subscription, terms.customer, Current, price, false, Some(now), Some(now + MONTH), None, None)
  }

  predicate Sellable(want: Identity, terms: Terms, subscription: string) {
    PaidPlan(want.plan) && PaidInterval(want.interval) && KnownCurrency(terms.currency) && subscription != ""
  }

  /** The row names this subscription, sold by Stripe for this plan. */
  predicate Names(r: Row, want: Identity, subscription: string) {
    r.source == Stripe && r.subscription == subscription && r.plan == want.plan
  }

  /** A workspace without a subscription gets what it paid for: at once, or deferred with its plan left as it is. */
  lemma PurchaseTakesEffect(a: Account, want: Identity, terms: Terms, subscription: string, now: Time)
    requires Entitled(a, now) && !Live(a.row.status) && Sellable(want, terms, subscription)
    ensures var o := Reconcile(a, Purchased(want, terms, subscription, now), now);
            && o.result == Done && Names(o.account.row, want, subscription) && o.account.row.interval == want.interval
            && o.account.week == a.week
            && (if Future(terms.startAt, now)
                then o.account.row.status == Trialing && o.account.row.delayEnd == terms.startAt
                     && o.account.plan == a.plan
                else o.account.row.status == Active && o.account.plan == want.plan)
  {
    var s := Purchased(want, terms, subscription, now);
    var b := Adopt(a, s, s.price.value);
    assert !WrongMarket(a.row, s.price.value) && PaymentRecovered(b, Some(now), now).account == b;
    if Future(terms.startAt, now) {
      assert Reconcile(a, s, now) == ReconcileDelayed(b, s, s.price.value, now);
      assert !Deferred(b.row, SaleOf(s, s.price.value, s.delayStart, s.delayEnd), now);
    } else {
      assert Reconcile(a, s, now) == ReconcileCurrent(b, s, s.price.value, now);
    }
  }

  /** In the currency and for the customer it was bought; a deferred one is delayed from now, another runs a month. */
  lemma PurchaseKeepsItsTerms(a: Account, want: Identity, terms: Terms, subscription: string, now: Time)
    requires Entitled(a, now) && !Live(a.row.status) && Sellable(want, terms, subscription)
    ensures var r := Reconcile(a, Purchased(want, terms, subscription, now), now).account.row;
            && r.currency == terms.currency && (terms.customer != "" ==> r.customer == terms.customer)
            && if Future(terms.startAt, now) then r.delayStart == Some(now)
               else r.periodStart == Some(now) && r.periodEnd == Some(now + 30 * 86_400_000_000)
  {
    var s := Purchased(want, terms, subscription, now);
    var b := Adopt(a, s, s.price.value);
    assert !WrongMarket(a.row, s.price.value) && PaymentRecovered(b, Some(now), now).account == b;
    if Future(terms.startAt, now) {
      assert Reconcile(a, s, now) == ReconcileDelayed(b, s, s.price.value, now);
    } else {
      assert Reconcile(a, s, now) == ReconcileCurrent(b, s, s.price.value, now);
    }
  }

  /** A deferred purchase comes into force with the first sweep after its start, once the free week is over. */
  lemma DeferredPurchaseStarts(a: Account, want: Identity, terms: Terms, subscription: string, now: Time, later: Time)
    requires Entitled(a, now) && !Live(a.row.status) && Sellable(want, terms, subscription)
    requires Future(terms.startAt, now) && terms.startAt.value <= later && !WeekActive(a.week, later)
    ensures var o := SweepDue(Reconcile(a, Purchased(want, terms, subscription, now), now).account, later);
            && o.result == Done && o.account.row.status == Active && o.account.plan == want.plan
            && Names(o.account.row, want, subscription)
  {
    PurchaseTakesEffect(a, want, terms, subscription, now);
    PurchaseSchedulesNothing(a, want, terms, subscription, now);
  }

  lemma PurchaseSchedulesNothing(a: Account, want: Identity, terms: Terms, subscription: string, now: Time)
    requires Entitled(a, now) && !Live(a.row.status) && Sellable(want, terms, subscription)
    ensures var r := Reconcile(a, Purchased(want, terms, subscription, now), now).account.row;
            && !r.cancel && r.pendingPlan == NoPlan && r.pendingAt == None && r.pendingInterval == NoInterval
            && r.currency == terms.currency
  {
    var s := Purchased(want, terms, subscription, now);
    var b := Adopt(a, s, s.price.value);
    assert !WrongMarket(a.row, s.price.value) && PaymentRecovered(b, Some(now), now).account == b;
    if Future(terms.startAt, now) {
      assert Reconcile(a, s, now) == ReconcileDelayed(b, s, s.price.value, now);
    } else {
      assert Reconcile(a, s, now) == ReconcileCurrent(b, s, s.price.value, now);
    }
  }

  /**
    A second purchase is taken over exactly if it is in the same currency. The first
    subscription is then named nowhere; where it is an upgrade, even its interval stays.
   */
  lemma SecondPurchaseReplacesIff(
    a: Account, first: Identity, one: Terms, sub1: string, now: Time,
    second: Identity, two: Terms, sub2: string, later: Time)
    requires Entitled(a, now) && !Live(a.row.status) && now <= later
    requires Sellable(first, one, sub1) && !Future(one.startAt, now)
    requires Sellable(second, two, sub2) && !Future(two.startAt, later)
    ensures var b := Reconcile(a, Purchased(first, one, sub1, now), now).account;
            var o := Reconcile(b, Purchased(second, two, sub2, later), later);
            && (o.result == Done <==> one.currency == two.currency)
            && (o.result != Done ==> o == Outcome(b, Raised(MarketMismatch)) && Names(b.row, first, sub1))
            && (o.result == Done ==>
                  && Names(o.account.row, second, sub2) && o.account.plan == second.plan
                  && o.account.row.interval
                     == if first.plan == Plus && second.plan == Business then first.interval else second.interval)
  {
    PurchaseTakesEffect(a, first, one, sub1, now);
    PurchaseSchedulesNothing(a, first, one, sub1, now);
    var b := Reconcile(a, Purchased(first, one, sub1, now), now).account;
    if one.currency == two.currency {
      LaterPurchase(b, first, second, two, sub2, later);
    } else {
      assert WrongMarket(b.row, Price(second.plan, second.interval, two.currency));
    }
  }

  lemma LaterPurchase(b: Account, first: Identity, second: Identity, two: Terms, sub2: string, later: Time)
    requires b.row.status == Active && b.plan == b.row.plan == first.plan && b.row.interval == first.interval
    requires b.row.pendingPlan == NoPlan && b.row.pendingAt == None && !b.row.cancel && PaidPlan(first.plan)
    requires Sellable(second, two, sub2) && !Future(two.startAt, later) && b.row.currency == two.currency
    ensures var o := Reconcile(b, Purchased(second, two, sub2, later), later);
            && o.result == Done && Names(o.account.row, second, sub2) && o.account.plan == second.plan
            && o.account.row.interval
               == if first.plan == Plus && second.plan == Business then first.interval else second.interval
  {
    var s := Purchased(second, two, sub2, later);
    var c := Adopt(b, s, s.price.value);
    assert !WrongMarket(b.row, s.price.value) && PaymentRecovered(c, Some(later), later).account == c;
    assert Reconcile(b, s, later) == ReconcileCurrent(c, s, s.price.value, later);
  }

  /**
    Two overlapping checkouts for different plans can both be paid. The account then
    names the subscription reconciled last, and nothing stored refers to the other.
   */
  lemma PaidTwiceKeptOnce(
    org: nat, first: Identity, second: Identity, a: Account, one: Terms, two: Terms,
    sub1: string, sub2: string, now: Time, later: Time)
    requires first != second && Entitled(a, now) && !Live(a.row.status) && now <= later
    requires Sellable(first, one, sub1) && !Future(one.startAt, now)
    requires Sellable(second, two, sub2) && !Future(two.startAt, later)
    requires sub1 != sub2 && one.currency == two.currency
    ensures var begun := P.Run(P.EMPTY, [P.Begin(org, first), P.Begin(org, second)]);
            P.Run(begun, C.OVERLAP + [P.Pay(0), P.Pay(1)]).shop.provider.sessions
              == [Session(0, first, Paid), Session(1, second, Paid)]
    ensures var b := Reconcile(a, Purchased(first, one, sub1, now), now).account;
            var c := Reconcile(b, Purchased(second, two, sub2, later), later).account;
            c.row.subscription == sub2 && sub1 != c.row.subscription
  {
    SecondPurchaseReplacesIff(a, first, one, sub1, now, second, two, sub2, later);
    BothCanBePaid(org, first, second);
  }

  lemma RunGoesOn(s: P.System, acts: seq<P.Action>, act: P.Action, more: P.Action)
    ensures P.Run(s, acts + [act, more]) == P.Next(P.Next(P.Run(s, acts), act), more)
  {
    var all := acts + [act, more];
    assert all[..|all| - 1] == acts + [act] && (acts + [act])[..|acts|] == acts;
  }

  lemma BothCanBePaid(org: nat, first: Identity, second: Identity)
    requires first != second
    ensures var begun := P.Run(P.EMPTY, [P.Begin(org, first), P.Begin(org, second)]);
            P.Run(begun, C.OVERLAP + [P.Pay(0), P.Pay(1)]).shop.provider.sessions
              == [Session(0, first, Paid), Session(1, second, Paid)]
  {
    var begun := P.Run(P.EMPTY, [P.Begin(org, first), P.Begin(org, second)]);
    RunGoesOn(begun, C.OVERLAP, P.Pay(0), P.Pay(1));
    C.OverlapEnds(org, first, second);
  }
}
