/** What one store delivery leaves a workspace with, by state, by date and by kind of notification. */
module StoreOutcomes {
  import opened BillingTypes
  import opened BillingServices
  import opened BillingRuns
  import opened BillingTimeline
  import opened StoreEntitlements

  // ---- Google ----

  /** A purchase of a paid plan in a known currency, for a workspace that Google bills or nobody does. */
  predicate Billable(t: Tenant, p: Purchase) {
    && Coherent(t.account.row) && (t.account.row.source == NoSource || t.account.row.source == Google)
    && (p.plan == Plus || p.plan == Business) && p.interval != NoInterval && (p.currency == Usd || p.currency == Jpy)
  }

  function StartOf(p: Purchase, now: Time): Time { if p.startAt.Some? then p.startAt.value else now }

  /** The details name the purchase; what it does not say about renewal is kept. */
  predicate NamesPurchase(d: Option<GoogleDetails>, before: Option<GoogleDetails>, p: Purchase) {
    && d.Some? && d.value.token == p.token && d.value.linked == p.linked && d.value.product == p.product
    && d.value.expiresAt == p.expiresAt
    && d.value.autoRenew == (if p.autoRenew.Some? || before.None? then p.autoRenew else before.value.autoRenew)
  }

  /** The row is Google's for this purchase, and the plan in force its own unless the free week runs. */
  predicate Entitled(u: Tenant, t: Tenant, p: Purchase, now: Time) {
    && u.apple == t.apple && u.appToken == t.appToken && NamesPurchase(u.google, t.google, p)
    && u.account.row.source == Google && u.account.row.plan == p.plan && u.account.row.interval == p.interval
    && u.account.row.periodStart == Some(StartOf(p, now)) && u.account.row.periodEnd == p.expiresAt
    && u.account.week == t.account.week
    && u.account.plan == if WeekActive(t.account.week, now) then t.account.plan else p.plan
  }

  /** A purchase with time left, on a workspace whose delivery is free. */
  predicate Running(p: Purchase, now: Time) {
    && p.expiresAt.Some? && p.expiresAt.value > now && p.expiresAt.value > StartOf(p, now)
    && (p.state == GoogleActive || p.state == GoogleInGrace || p.state == GoogleCanceled || p.state == GoogleUnknown)
  }

  /** A row in force with nothing to come, except perhaps a cancellation or the end of a grace. */
  predicate InForce(r: Row) { r.status == Active && !r.cancel && r.pendingPlan == NoPlan && r.pendingAt == None }

  lemma CancelledRowEnds(a: Account, end: Time)
    requires InForce(a.row)
    ensures EndsAt(a.(row := a.row.(cancel := true, pendingPlan := Basic, pendingAt := Some(end))), end)
  {}

  lemma PastDueRowEnds(a: Account, end: Time)
    requires a.row.status == PastDue && a.row.graceDeadline == Some(end)
    requires (a.row.pendingPlan == NoPlan && a.row.pendingAt == None && !a.row.cancel)
             || (a.row.cancel && a.row.pendingAt == Some(end))
    ensures EndsAt(a, end)
  {}

  lemma RunningPurchaseIsSold(t: Tenant, p: Purchase, now: Time) returns (b: Account)
    requires Billable(t, p) && Running(p, now)
    ensures ApplyGoogle(t, p, true, now)
              == StoreOutcome(t.(account := b.(row := GoogleEffects(b.row, p, now)),
                                 google := Some(BoundGoogle(t.google, p))), Done)
    ensures Coherent(b.row) && InForce(b.row) && b.row.source == Google
    ensures b.row.plan == p.plan && b.row.interval == p.interval
    ensures b.row.periodStart == Some(StartOf(p, now)) && b.row.periodEnd == p.expiresAt
    ensures b.week == t.account.week && b.plan == if WeekActive(t.account.week, now) then t.account.plan else p.plan
  {
    var sale := GoogleSale(p, now);
    SaleIsCarried(t.account, sale, now);
    ActivateKeepsCoherence(t.account, sale, now);
    GoogleAccountIsEffects(t.account, p, now);
    b := Activate(t.account, sale, now).account;
    assert b == Apply(t.account, StartPaid(sale), now).account;
  }

  /**
    Active, canceled and unknown purchases that still run: the plan until they run out.
    A canceled one, and renewal switched off, is noted as a cancellation then.
   */
  lemma RunningPurchaseEntitles(t: Tenant, p: Purchase, now: Time)
    requires Billable(t, p) && Running(p, now) && p.state != GoogleInGrace
    ensures var o := ApplyGoogle(t, p, true, now);
            var ends := p.state == GoogleCanceled || p.autoRenew == Some(false);
            && o.result == Done && Entitled(o.tenant, t, p, now)
            && o.tenant.account.row.status == Active && o.tenant.account.row.cancel == ends
            && if ends then EndsAt(o.tenant.account, p.expiresAt.value) else Stands(o.tenant.account)
  {
    var b := RunningPurchaseIsSold(t, p, now);
    CancelledRowEnds(b, p.expiresAt.value);
    SettledRowsStand(b);
  }

  /** In grace the same plan is past due, and ends where the purchase does. */
  lemma GracePurchaseIsPastDue(t: Tenant, p: Purchase, now: Time)
    requires Billable(t, p) && Running(p, now) && p.state == GoogleInGrace
    ensures var o := ApplyGoogle(t, p, true, now);
            && o.result == Done && Entitled(o.tenant, t, p, now)
            && o.tenant.account.row.status == PastDue && o.tenant.account.row.failedAt == Some(now)
            && o.tenant.account.row.graceDeadline == p.expiresAt
            && o.tenant.account.row.cancel == (p.autoRenew == Some(false))
            && EndsAt(o.tenant.account, p.expiresAt.value)
  {
    var b := RunningPurchaseIsSold(t, p, now);
    PastDueRowEnds(b.(row := GoogleEffects(b.row, p, now)), p.expiresAt.value);
  }

  /** A purchase without access: on hold, paused, expired, pending, run out, or canceled or unknown without an end. */
  predicate GivesNothing(p: Purchase, now: Time) {
    || p.state == GoogleOnHold || p.state == GooglePaused || p.state == GoogleExpired
    || p.state == GooglePending || p.state == GooglePendingCanceled
    || (p.expiresAt.Some? && p.expiresAt.value <= now)
    || (p.expiresAt.None? && (p.state == GoogleCanceled || p.state == GoogleUnknown))
  }

  /** It ends a subscription of Google's at once, and does nothing to a workspace Google does not bill. */
  lemma EndedPurchaseEnds(t: Tenant, p: Purchase, now: Time)
    requires Coherent(t.account.row) && GivesNothing(p, now)
    requires t.account.row.source == NoSource || t.account.row.source == Google
    ensures var o := ApplyGoogle(t, p, true, now);
            && o.result == Done && o.tenant.apple == t.apple && o.tenant.appToken == t.appToken
            && (t.account.row.source == NoSource ==> o.tenant == t)
            && (t.account.row.source == Google ==>
                  && (if !Live(t.account.row.status) && t.account.plan == Basic then o.tenant.account == t.account
                      else Over(o.tenant.account, t.account, now))
                  && (t.google.None? ==> o.tenant.google.None?)
                  && (t.google.Some? ==>
                        NamesPurchase(o.tenant.google, t.google, p.(autoRenew := Some(false)))))
  {
    EndIsOver(t.account, now);
  }

  /** Everything else is refused and changes nothing. */
  lemma GoogleRefusals(t: Tenant, p: Purchase, free: bool, now: Time)
    ensures var o := ApplyGoogle(t, p, free, now);
            && (o.result != Done ==> o.tenant == t)
            && (t.account.row.source != NoSource && t.account.row.source != Google ==> o == Refuse(t, SourceLocked))
            && (t.account.row.source == NoSource || t.account.row.source == Google ==>
                  && (!free ==> o == Refuse(t, BoundElsewhere))
                  && (free && p.expiresAt.None? && (p.state == GoogleActive || p.state == GoogleInGrace) ==>
                        o == Refuse(t, Incomplete)))
            && (Billable(t, p) && free && p.expiresAt.Some? && !GivesNothing(p, now) && !Running(p, now) ==>
                  o == Refuse(t, BadWindow))
  {}

  // ---- Apple ----

  predicate AppleBillable(t: Tenant, n: Transaction) {
    && Coherent(t.account.row) && (t.account.row.source == NoSource || t.account.row.source == Apple)
    && (n.plan == Plus || n.plan == Business) && n.interval != NoInterval && (n.currency == Usd || n.currency == Jpy)
  }

  /** The workspace's own account token, or the one made up for it. */
  function TokenFor(t: Tenant, spare: string): string { if t.appToken != "" then t.appToken else spare }

  /** The transaction names no account token, or this workspace's. */
  predicate ForThis(t: Tenant, n: Transaction, spare: string) {
    n.appToken == "" || TokenFor(t, spare) == "" || n.appToken == TokenFor(t, spare)
  }

  predicate RevokedBy(n: Transaction, now: Time) { n.revokedAt.Some? && n.revokedAt.value <= now }

  predicate ExpiredBy(n: Transaction, now: Time) { n.expiresAt.Some? && n.expiresAt.value <= now }

  predicate NamesTransaction(d: Option<AppleDetails>, t: Tenant, n: Transaction, autoRenew: Option<bool>,
        token: string)
  {
    && d.Some? && d.value.original == n.original && d.value.product == n.product && d.value.expiresAt == n.expiresAt
    && d.value.autoRenew == (if autoRenew.Some? || t.apple.None? then autoRenew else t.apple.value.autoRenew)
    && (token != "" ==> d.value.appToken == token)
  }

  predicate AppleRunning(n: Transaction, now: Time) {
    && !RevokedBy(n, now) && n.expiresAt.Some? && n.expiresAt.value > now
    && n.expiresAt.value > (if n.purchasedAt.Some? then n.purchasedAt.value else now)
  }

  lemma RunningTransactionIsSold(
    t: Tenant, n: Transaction, autoRenew: Option<bool>, known: bool, spare: string, now: Time) returns (b: Account)
    requires AppleBillable(t, n) && ForThis(t, n, spare) && AppleRunning(n, now)
    ensures var token := if n.appToken != "" then n.appToken else TokenFor(t, spare);
            ApplyApple(t, n, autoRenew, known, true, spare, now)
              == StoreOutcome(t.(account := b.(row := AppleEffects(b.row, n, autoRenew)),
                                 appToken := TokenFor(t, spare),
                                 apple := Some(BoundApple(t.apple, n, autoRenew, token))), Done)
    ensures Coherent(b.row) && InForce(b.row) && b.row.source == Apple
    ensures b.row.plan == n.plan && b.row.interval == n.interval
    ensures b.row.periodStart == Some(if n.purchasedAt.Some? then n.purchasedAt.value else now)
    ensures b.row.periodEnd == n.expiresAt
    ensures b.week == t.account.week && b.plan == if WeekActive(t.account.week, now) then t.account.plan else n.plan
  {
    var sale := AppleSale(n, now);
    SaleIsCarried(t.account, sale, now);
    ActivateKeepsCoherence(t.account, sale, now);
    AppleAccountIsEffects(t.account, n, autoRenew, now);
    b := Activate(t.account, sale, now).account;
    assert b == Apply(t.account, StartPaid(sale), now).account;
  }

  /** An entitled transaction: the plan until it expires; renewal off is noted as a cancellation then. */
  lemma RunningTransactionEntitles(
    t: Tenant, n: Transaction, autoRenew: Option<bool>, known: bool, spare: string, now: Time)
    requires AppleBillable(t, n) && ForThis(t, n, spare) && AppleRunning(n, now)
    ensures var o := ApplyApple(t, n, autoRenew, known, true, spare, now);
            var u := o.tenant;
            && o.result == Done && u.google == t.google && u.appToken == TokenFor(t, spare)
            && NamesTransaction(u.apple, t, n, autoRenew, TokenFor(t, spare))
            && u.account.row.source == Apple && u.account.row.status == Active
            && u.account.row.plan == n.plan && u.account.row.interval == n.interval
            && u.account.row.periodStart == Some(if n.purchasedAt.Some? then n.purchasedAt.value else now)
            && u.account.row.periodEnd == n.expiresAt && u.account.row.cancel == (autoRenew == Some(false))
            && u.account.plan == (if WeekActive(t.account.week, now) then t.account.plan else n.plan)
            && u.account.week == t.account.week
            && if autoRenew == Some(false) then EndsAt(u.account, n.expiresAt.value) else Stands(u.account)
  {
    var b := RunningTransactionIsSold(t, n, autoRenew, known, spare, now);
    CancelledRowEnds(b, n.expiresAt.value);
    SettledRowsStand(b);
  }

  /** A revoked one ends a subscription of Apple's at once, and says so in the details. */
  lemma RevokedTransactionEnds(
    t: Tenant, n: Transaction, autoRenew: Option<bool>, known: bool, spare: string, now: Time)
    requires AppleBillable(t, n) && ForThis(t, n, spare) && RevokedBy(n, now)
    ensures var o := ApplyApple(t, n, autoRenew, known, true, spare, now);
            var u := o.tenant;
            && o.result == Done && u.google == t.google && u.appToken == TokenFor(t, spare)
            && (t.account.row.source == NoSource ==> u.account == t.account && u.apple == t.apple)
            && (t.account.row.source == Apple ==>
                  && (if !Live(t.account.row.status) && t.account.plan == Basic then u.account == t.account
                      else Over(u.account, t.account, now))
                  && u.apple == if t.apple.None? then None
                                else Some(t.apple.value.(autoRenew := Some(false), expiresAt := n.revokedAt)))
  {
    EndIsOver(t.account, now);
  }

  /** An expired one ends what Apple bills, or what is known under its identifier. */
  lemma ExpiredTransactionEnds(
    t: Tenant, n: Transaction, autoRenew: Option<bool>, known: bool, spare: string, now: Time)
    requires AppleBillable(t, n) && ForThis(t, n, spare) && !RevokedBy(n, now) && ExpiredBy(n, now)
    ensures var o := ApplyApple(t, n, autoRenew, known, true, spare, now);
            var u := o.tenant;
            && o.result == Done && u.google == t.google && u.apple == t.apple && u.appToken == TokenFor(t, spare)
            && if t.account.row.source == NoSource && !known then u.account == t.account
               else if !Live(t.account.row.status) && t.account.plan == Basic then u.account == t.account
               else Over(u.account, t.account, now)
  {
    EndIsOver(t.account, now);
  }

  /** Everything else is refused and changes nothing. */
  lemma AppleRefusals(
    t: Tenant, n: Transaction, autoRenew: Option<bool>, known: bool, free: bool, spare: string, now: Time)
    ensures var o := ApplyApple(t, n, autoRenew, known, free, spare, now);
            && (o.result != Done ==> o.tenant == t)
            && (t.account.row.source != NoSource && t.account.row.source != Apple ==> o == Refuse(t, SourceLocked))
            && (t.account.row.source == NoSource || t.account.row.source == Apple ==>
                  && (!ForThis(t, n, spare) ==> o == Refuse(t, TokenMismatch))
                  && (ForThis(t, n, spare) && !free ==> o == Refuse(t, BoundElsewhere))
                  && (ForThis(t, n, spare) && free && !RevokedBy(n, now) && n.expiresAt.None? ==>
                        o == Refuse(t, Incomplete)))
  {}

  // ---- App Store notifications ----

  /** An expiry ends what Apple bills; a refund revokes, now unless it says since when; a renewal is a delivery. */
  lemma NoticesMean(
    t: Tenant, kind: Notice, n: Transaction, autoRenew: Option<bool>, known: bool, free: bool, spare: string, now: Time)
    requires Coherent(t.account.row)
    ensures var o := NotifyApple(t, kind, n, autoRenew, known, free, spare, now);
            match kind
            case Expiry =>
              && o.result == Done && o.tenant == t.(account := o.tenant.account)
              && if t.account.row.source != Apple || (!Live(t.account.row.status) && t.account.plan == Basic)
                 then o.tenant == t else Over(o.tenant.account, t.account, now)
            case Refund =>
              var revoked := n.(revokedAt := if n.revokedAt.Some? then n.revokedAt else Some(now));
              o == ApplyApple(t, revoked, Some(false), known, free, spare, now)
            case Renewal => o == ApplyApple(t, n, autoRenew, known, free, spare, now)
            case RenewalFailure =>
              && (t.account.row.source != Apple ==> o == StoreOutcome(t, Done))
              && o.tenant.google == t.google && o.tenant.appToken == t.appToken
              && (t.account.row.source == Apple && t.account.row.status == PastDue ==>
                    o.result == Done && o.tenant.account == t.account)
              && (t.account.row.source == Apple && !Paid(t.account.row.status) ==> o == Refuse(t, NotSubscribed))
  {
    EndIsOver(t.account, now);
  }

  /** A failed renewal gives three days of grace, and notes what it says about renewal. */
  lemma FailedRenewalGivesGrace(
    t: Tenant, n: Transaction, autoRenew: Option<bool>, known: bool, free: bool, spare: string, now: Time)
    requires Coherent(t.account.row) && t.account.row.source == Apple
    requires t.account.row.status == Active && t.account.row.pendingPlan == NoPlan
    ensures var o := NotifyApple(t, RenewalFailure, n, autoRenew, known, free, spare, now);
            && o.result == Done && o.tenant.account.plan == t.account.plan && o.tenant.account.row.status == PastDue
            && SameSale(o.tenant.account.row, t.account.row) && SamePeriods(o.tenant.account.row, t.account.row)
            && EndsAt(o.tenant.account, now + 3 * 86_400_000_000)
            && o.tenant.apple == if autoRenew.Some? && t.apple.Some?
                                 then Some(t.apple.value.(autoRenew := autoRenew)) else t.apple
  {
    GraceLastsThreeDays(t.account, None, None, now);
    var failed := Apply(t.account, FailPayment(None, None), now).account;
    assert NotifyApple(t, RenewalFailure, n, autoRenew, known, free, spare, now).tenant.account == failed;
  }
}
