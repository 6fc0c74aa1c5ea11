/**
  Google Play and App Store entitlements for one workspace: what a verified
  purchase does to the account and to the store's own identifiers, and what a
  second delivery of the same purchase at the same instant adds.
 */
module StoreEntitlements {
  import opened BillingTypes
  import opened BillingServices
  import opened BillingRuns

  datatype GoogleState =
    | GoogleActive | GoogleCanceled | GoogleInGrace | GoogleOnHold | GooglePaused
    | GoogleExpired | GooglePending | GooglePendingCanceled | GoogleUnknown

  /** A verified Google Play subscription. */
  datatype Purchase = Purchase(
    token: string, linked: string, product: string, plan: Plan, interval: Interval, currency: Currency,
    state: GoogleState, startAt: Option<Time>, expiresAt: Option<Time>, autoRenew: Option<bool>)

  datatype GoogleDetails = GoogleDetails(
    token: string, linked: string, product: string, expiresAt: Option<Time>, autoRenew: Option<bool>)

  /** A verified App Store transaction. */
  datatype Transaction = Transaction(
    original: string, product: string, plan: Plan, interval: Interval, currency: Currency, appToken: string,
    purchasedAt: Option<Time>, expiresAt: Option<Time>, revokedAt: Option<Time>)

  datatype AppleDetails = AppleDetails(
    original: string, product: string, expiresAt: Option<Time>, autoRenew: Option<bool>, appToken: string)

  /** Everything stored for one workspace. `appToken` is the workspace's own App Store account token. */
  datatype Tenant = Tenant(
    account: Account, google: Option<GoogleDetails>, apple: Option<AppleDetails>, appToken: string)

  datatype StoreOutcome = StoreOutcome(tenant: Tenant, result: Result)

  function Refuse(t: Tenant, e: Error): StoreOutcome { StoreOutcome(t, Raised(e)) }

  // ---- Google ----

  predicate GoogleEntitles(p: Purchase, now: Time) {
    match p.state
    case GoogleOnHold | GooglePaused | GoogleExpired | GooglePending | GooglePendingCanceled => false
    case GoogleActive | GoogleInGrace => p.expiresAt.None? || p.expiresAt.value > now
    case GoogleCanceled | GoogleUnknown => p.expiresAt.Some? && p.expiresAt.value > now
  }

  function GoogleSale(p: Purchase, now: Time): Sale {
    Sale(p.plan, p.interval, Google, OrTime(p.startAt, Some(now)), p.expiresAt, "", p.token, p.currency)
  }

  predicate GoogleCancels(p: Purchase) { p.state == GoogleCanceled || p.autoRenew == Some(false) }

  /** The account after activation, cancellation and grace, in this order. */
  function GoogleAccount(a: Account, p: Purchase, now: Time): Outcome {
    var activated := Activate(a, GoogleSale(p, now), now);
    if activated.result != Done then Outcome(a, activated.result)
    else
      var b := activated.account;
      var c := if GoogleCancels(p) then ScheduleCancellation(b, p.expiresAt).account
               else if p.autoRenew == Some(true) && b.row.cancel then ClearCancellation(b).account
               else b;
      var d := if p.state == GoogleInGrace then PaymentFailure(c, Some(now), p.expiresAt, now).account
               else if p.state == GoogleActive && b.row.status == PastDue then PaymentRecovered(c, None, now).account
               else c;
      Outcome(d, Done)
  }

  function BoundGoogle(stored: Option<GoogleDetails>, p: Purchase): GoogleDetails {
    var renew := if p.autoRenew.Some? || stored.None? then p.autoRenew else stored.value.autoRenew;
    GoogleDetails(p.token, p.linked, p.product, p.expiresAt, renew)
  }

  /** `free`: neither token of the purchase is stored for another workspace. */
  function ApplyGoogle(t: Tenant, p: Purchase, free: bool, now: Time): StoreOutcome {
    if !CanStart(t.account.row.source, Google) then Refuse(t, SourceLocked)
    else if !free then Refuse(t, BoundElsewhere)
    else if !GoogleEntitles(p, now) then
      if t.account.row.source != Google then StoreOutcome(t, Done)
      else
        var ended := t.(account := FinalizeEnd(t.account, now).account);
        StoreOutcome(
          if t.google.None? then ended
          else ended.(google := Some(BoundGoogle(None, p.(autoRenew := Some(false))))), Done)
    else if p.expiresAt.None? then Refuse(t, Incomplete)
    else
      var o := GoogleAccount(t.account, p, now);
      if o.result != Done then StoreOutcome(t, o.result)
      else StoreOutcome(t.(account := o.account, google := Some(BoundGoogle(t.google, p))), Done)
  }

  /**
    The confirmed row differs from what a full activation would write, in a
    column that survives the cancellation and the grace of the same purchase.
   */
  predicate GoogleStale(r: Row, p: Purchase) {
    || r.currency != p.currency || (p.token != "" && r.subscription != p.token) || r.pendingInterval != NoInterval
    || r.warnedAt.Some? || r.warnings != 0
    || (p.state != GoogleInGrace && (r.failedAt.Some? || r.graceDeadline.Some? || r.recoveredAt.Some?))
  }

  /** The first delivery confirms the row, then changes it, and leaves a stale column behind. */
  predicate GoogleHalfWritten(t: Tenant, p: Purchase, now: Time) {
    && GoogleEntitles(p, now) && Confirmed(t.account, GoogleSale(p, now), now)
    && (GoogleCancels(p) || p.state == GoogleInGrace) && GoogleStale(t.account.row, p)
  }

  /** What cancellation and grace add to a freshly active row. */
  function GoogleEffects(r: Row, p: Purchase, now: Time): Row {
    var c := if GoogleCancels(p) then r.(cancel := true, pendingPlan := Basic, pendingAt := p.expiresAt) else r;
    if p.state == GoogleInGrace
    then c.(status := PastDue, failedAt := Some(now), graceDeadline := p.expiresAt, recoveredAt := None)
    else c
  }

  predicate Fresh(r: Row) { r.status == Active && !r.cancel && r.pendingPlan == NoPlan }

  lemma GoogleAccountIsEffects(a: Account, p: Purchase, now: Time)
    requires Activate(a, GoogleSale(p, now), now).result == Done
    ensures var b := Activate(a, GoogleSale(p, now), now).account;
            Fresh(b.row) && GoogleAccount(a, p, now) == Outcome(b.(row := GoogleEffects(b.row, p, now)), Done)
  {}

  /** A full activation forgets the effects of the previous delivery. */
  lemma ActivationForgetsEffects(r: Row, p: Purchase, now: Time)
    ensures ActivatedRow(GoogleEffects(r, p, now), GoogleSale(p, now), now) == ActivatedRow(r, GoogleSale(p, now), now)
    ensures ActivatedRow(ActivatedRow(r, GoogleSale(p, now), now), GoogleSale(p, now), now)
            == ActivatedRow(r, GoogleSale(p, now), now)
  {}

  lemma StaleColumnsSurvive(a: Account, p: Purchase, now: Time)
    requires Coherent(a.row) && Confirmed(a, GoogleSale(p, now), now) && CanStart(a.row.source, Google)
    requires GoogleCancels(p) || p.state == GoogleInGrace
    ensures GoogleEffects(ActivatedRow(a.row, GoogleSale(p, now), now), p, now) == GoogleEffects(a.row, p, now)
            <==> !GoogleStale(a.row, p)
  {}

  /** The account after one more delivery to an account a delivery has left. */
  lemma GoogleAccountAgain(a: Account, p: Purchase, now: Time)
    requires Activate(a, GoogleSale(p, now), now).result == Done
    ensures var b := Activate(a, GoogleSale(p, now), now).account;
            var once := GoogleAccount(a, p, now).account;
            var touched := GoogleCancels(p) || p.state == GoogleInGrace;
            GoogleAccount(once, p, now) ==
              Outcome(if touched
                      then b.(row := GoogleEffects(ActivatedRow(b.row, GoogleSale(p, now), now), p, now))
                      else once, Done)
  {
    var sale := GoogleSale(p, now);
    var b := Activate(a, sale, now).account;
    GoogleAccountIsEffects(a, p, now);
    var once := GoogleAccount(a, p, now).account;
    GoogleAccountIsEffects(once, p, now);
    ActivationForgetsEffects(b.row, p, now);
  }

  /** An entitled delivery leaves an account of the shape the next delivery starts from. */
  lemma GoogleDeliveryShape(t: Tenant, p: Purchase, now: Time)
    requires GoogleEntitles(p, now) && ApplyGoogle(t, p, true, now).result == Done
    ensures var o := GoogleAccount(t.account, p, now);
            && o.result == Done && p.expiresAt.Some? && Activate(t.account, GoogleSale(p, now), now).result == Done
            && ApplyGoogle(t, p, true, now)
               == StoreOutcome(t.(account := o.account, google := Some(BoundGoogle(t.google, p))), Done)
  {}

  lemma GoogleKeepsCoherence(a: Account, p: Purchase, now: Time)
    requires Coherent(a.row)
    ensures Coherent(GoogleAccount(a, p, now).account.row)
  {
    if Activate(a, GoogleSale(p, now), now).result == Done {
      GoogleAccountIsEffects(a, p, now);
      ActivateKeepsCoherence(a, GoogleSale(p, now), now);
    }
  }

  lemma SellerStays(a: Account, p: Purchase, now: Time)
    requires Coherent(a.row) && CanStart(a.row.source, Google) && GoogleAccount(a, p, now).result == Done
    ensures GoogleAccount(a, p, now).account.row.source == Google
  {
    GoogleAccountIsEffects(a, p, now);
  }

  lemma EntitledRedelivery(t: Tenant, p: Purchase, now: Time)
    requires Coherent(t.account.row) && GoogleEntitles(p, now) && ApplyGoogle(t, p, true, now).result == Done
    ensures var once := ApplyGoogle(t, p, true, now).tenant;
            ApplyGoogle(once, p, true, now)
              == StoreOutcome(once.(account := GoogleAccount(once.account, p, now).account), Done)
  {
    GoogleDeliveryShape(t, p, now);
    SellerStays(t.account, p, now);
    GoogleAccountAgain(t.account, p, now);
  }

  lemma EndedRedelivery(t: Tenant, p: Purchase, now: Time)
    requires !GoogleEntitles(p, now) && ApplyGoogle(t, p, true, now).result == Done
    ensures ApplyGoogle(ApplyGoogle(t, p, true, now).tenant, p, true, now) == ApplyGoogle(t, p, true, now)
  {}

  /** A second delivery at the same instant changes nothing, except after a half-written first one. */
  lemma GoogleRedeliveryIff(t: Tenant, p: Purchase, now: Time)
    requires Coherent(t.account.row) && ApplyGoogle(t, p, true, now).result == Done
    ensures var once := ApplyGoogle(t, p, true, now);
            ApplyGoogle(once.tenant, p, true, now) == once <==> !GoogleHalfWritten(t, p, now)
  {
    if GoogleEntitles(p, now) {
      var a, sale := t.account, GoogleSale(p, now);
      GoogleDeliveryShape(t, p, now);
      EntitledRedelivery(t, p, now);
      GoogleAccountIsEffects(a, p, now);
      GoogleAccountAgain(a, p, now);
      if Confirmed(a, sale, now) {
        if GoogleCancels(p) || p.state == GoogleInGrace {
          StaleColumnsSurvive(a, p, now);
        }
      } else {
        ActivationForgetsEffects(a.row, p, now);
        assert Activate(a, sale, now).account.row == ActivatedRow(a.row, sale, now);
      }
    } else {
      EndedRedelivery(t, p, now);
    }
  }

  /** A third delivery never adds anything to the second. */
  lemma GoogleThirdDeliveryIsSecond(t: Tenant, p: Purchase, now: Time)
    requires Coherent(t.account.row) && ApplyGoogle(t, p, true, now).result == Done
    ensures var once := ApplyGoogle(t, p, true, now);
            var twice := ApplyGoogle(once.tenant, p, true, now);
            twice.result == Done && ApplyGoogle(twice.tenant, p, true, now) == twice
  {
    var once := ApplyGoogle(t, p, true, now).tenant;
    if GoogleEntitles(p, now) {
      EntitledRedelivery(t, p, now);
      GoogleDeliveryShape(t, p, now);
      GoogleAccountIsEffects(t.account, p, now);
      GoogleKeepsCoherence(t.account, p, now);
      GoogleRedeliveryIff(once, p, now);
    } else {
      EndedRedelivery(t, p, now);
    }
  }

  /** A run that goes on with one more step, or stays as it is. */
  lemma RunGoesOn(a: Account, events: seq<Event>, goesOn: bool, step: Step, now: Time) returns (more: seq<Event>)
    ensures Run(a, more) == if goesOn then Apply(Run(a, events), step, now).account else Run(a, events)
    ensures forall e :: e in more ==> e in events || e == Event(step, now)
  {
    more := if goesOn then events + [Event(step, now)] else events;
    assert goesOn ==> more[..|events|] == events;
  }

  /** A store delivery is nothing but a run of ordinary billing steps, so all that holds of runs holds of it. */
  lemma GoogleAccountIsARun(a: Account, p: Purchase, now: Time) returns (events: seq<Event>)
    requires GoogleAccount(a, p, now).result == Done
    ensures Run(a, events) == GoogleAccount(a, p, now).account
    ensures forall e :: e in events ==> e.at == now && (e.step.StartPaid? || e.step.Cancel? || e.step.FailPayment?)
  {
    GoogleAccountIsEffects(a, p, now);
    var started := RunGoesOn(a, [], true, StartPaid(GoogleSale(p, now)), now);
    var cancelled := RunGoesOn(a, started, GoogleCancels(p), Cancel(p.expiresAt), now);
    events := RunGoesOn(a, cancelled, p.state == GoogleInGrace, FailPayment(Some(now), p.expiresAt), now);
  }

  // ---- Apple ----

  function AppleSale(n: Transaction, now: Time): Sale {
    Sale(n.plan, n.interval, Apple, OrTime(n.purchasedAt, Some(now)), n.expiresAt, "", n.original, n.currency)
  }

  function AppleAccount(a: Account, n: Transaction, autoRenew: Option<bool>, now: Time): Outcome {
    var activated := Activate(a, AppleSale(n, now), now);
    if activated.result != Done then Outcome(a, activated.result)
    else
      var b := activated.account;
      var c := if autoRenew == Some(false) then ScheduleCancellation(b, n.expiresAt).account
               else if autoRenew == Some(true) && b.row.cancel then ClearCancellation(b).account
               else b;
      var d := if b.row.status == PastDue && autoRenew != Some(false) then PaymentRecovered(c, None, now).account
               else c;
      Outcome(d, Done)
  }

  /** The details after a revocation. */
  function AppleEnded(stored: AppleDetails, revokedAt: Option<Time>): AppleDetails {
    stored.(autoRenew := Some(false), expiresAt := revokedAt)
  }

  function BoundApple(stored: Option<AppleDetails>, n: Transaction, autoRenew: Option<bool>,
          token: string): AppleDetails {
    var renew := if autoRenew.Some? || stored.None? then autoRenew else stored.value.autoRenew;
    var bound := if token != "" || stored.None? then token else stored.value.appToken;
    AppleDetails(n.original, n.product, n.expiresAt, renew, bound)
  }

  /** A transaction that may be applied here, by its dates; `token` is the workspace's account token. */
  function SettledApple(t: Tenant, n: Transaction, autoRenew: Option<bool>, known: bool, token: string,
          now: Time): StoreOutcome {
    var u := t.(appToken := token);
    if n.revokedAt.Some? && n.revokedAt.value <= now then
      if t.account.row.source != Apple then StoreOutcome(u, Done)
      else
        var ended := u.(account := FinalizeEnd(t.account, now).account);
        StoreOutcome(
          if t.apple.None? then ended
          else ended.(apple := Some(AppleEnded(t.apple.value, n.revokedAt))), Done)
    else if n.expiresAt.Some? && n.expiresAt.value <= now then
      if t.account.row.source == Apple || known
      then StoreOutcome(u.(account := FinalizeEnd(t.account, now).account), Done)
      else StoreOutcome(u, Done)
    else if n.expiresAt.None? then Refuse(t, Incomplete)
    else
      var o := AppleAccount(t.account, n, autoRenew, now);
      if o.result != Done then Refuse(t, o.result.error)
      else
        var bound := BoundApple(t.apple, n, autoRenew, OrElse(n.appToken, token));
        StoreOutcome(u.(account := o.account, apple := Some(bound)), Done)
  }

  /**
    `known`: the transaction is already stored for this workspace; `free`: it is
    stored for no other. `spare` is the account token made up if there is none yet.
   */
  function ApplyApple(t: Tenant, n: Transaction, autoRenew: Option<bool>, known: bool, free: bool, spare: string,
          now: Time): StoreOutcome {
    var token := if t.appToken != "" then t.appToken else spare;
    if !CanStart(t.account.row.source, Apple) then Refuse(t, SourceLocked)
    else if n.appToken != "" && token != "" && n.appToken != token then Refuse(t, TokenMismatch)
    else if !free then Refuse(t, BoundElsewhere)
    else SettledApple(t, n, autoRenew, known, token, now)
  }

  function Revoked(n: Transaction, now: Time): Transaction { n.(revokedAt := OrTime(n.revokedAt, Some(now))) }

  datatype Notice = Expiry | Refund | RenewalFailure | Renewal

  /** A server notification for a resolved workspace. */
  function NotifyApple(t: Tenant, kind: Notice, n: Transaction, autoRenew: Option<bool>, known: bool, free: bool,
          spare: string, now: Time): StoreOutcome {
    match kind
    case Expiry =>
      if t.account.row.source == Apple then StoreOutcome(t.(account := FinalizeEnd(t.account, now).account), Done)
      else StoreOutcome(t, Done)
    case Refund =>
      ApplyApple(t, Revoked(n, now), Some(false), known, free, spare, now)
    case RenewalFailure =>
      if t.account.row.source != Apple then StoreOutcome(t, Done)
      else
        var failed := PaymentFailure(t.account, None, None, now);
        if failed.result != Done then Refuse(t, failed.result.error)
        else
          var u := t.(account := failed.account);
          StoreOutcome(
            if autoRenew.Some? && t.apple.Some? then u.(apple := Some(t.apple.value.(autoRenew := autoRenew)))
            else u, Done)
    case Renewal => ApplyApple(t, n, autoRenew, known, free, spare, now)
  }

  predicate AppleEntitles(n: Transaction, now: Time) {
    && (n.revokedAt.None? || n.revokedAt.value > now)
    && (n.expiresAt.None? || n.expiresAt.value > now)
  }

  predicate AppleStale(r: Row, n: Transaction) {
    || r.currency != n.currency || (n.original != "" && r.subscription != n.original) || r.pendingInterval != NoInterval
    || r != ClearPaymentFailure(r, None)
  }

  /** The delivery confirms the row and then only schedules its cancellation, leaving a stale column behind. */
  predicate AppleHalfWritten(t: Tenant, n: Transaction, autoRenew: Option<bool>, now: Time) {
    && AppleEntitles(n, now) && Confirmed(t.account, AppleSale(n, now), now)
    && autoRenew == Some(false) && AppleStale(t.account.row, n)
  }

  function AppleEffects(r: Row, n: Transaction, autoRenew: Option<bool>): Row {
    if autoRenew == Some(false) then r.(cancel := true, pendingPlan := Basic, pendingAt := n.expiresAt) else r
  }

  lemma AppleAccountIsEffects(a: Account, n: Transaction, autoRenew: Option<bool>, now: Time)
    requires Activate(a, AppleSale(n, now), now).result == Done
    ensures var b := Activate(a, AppleSale(n, now), now).account;
            && Fresh(b.row)
            && AppleAccount(a, n, autoRenew, now) == Outcome(b.(row := AppleEffects(b.row, n, autoRenew)), Done)
  {}

  lemma AppleActivationForgets(r: Row, n: Transaction, autoRenew: Option<bool>, now: Time)
    ensures ActivatedRow(AppleEffects(r, n, autoRenew), AppleSale(n, now), now)
            == ActivatedRow(r, AppleSale(n, now), now)
    ensures ActivatedRow(ActivatedRow(r, AppleSale(n, now), now), AppleSale(n, now), now)
            == ActivatedRow(r, AppleSale(n, now), now)
  {}

  lemma AppleStaleSurvives(a: Account, n: Transaction, now: Time)
    requires Coherent(a.row) && Confirmed(a, AppleSale(n, now), now) && CanStart(a.row.source, Apple)
    ensures var cancelled := Some(false);
            AppleEffects(ActivatedRow(a.row, AppleSale(n, now), now), n, cancelled) == AppleEffects(a.row, n, cancelled)
            <==> !AppleStale(a.row, n)
  {}

  lemma AppleAccountAgain(a: Account, n: Transaction, autoRenew: Option<bool>, now: Time)
    requires Activate(a, AppleSale(n, now), now).result == Done
    ensures var b := Activate(a, AppleSale(n, now), now).account;
            var once := AppleAccount(a, n, autoRenew, now).account;
            AppleAccount(once, n, autoRenew, now) ==
              Outcome(if autoRenew == Some(false)
                      then b.(row := AppleEffects(ActivatedRow(b.row, AppleSale(n, now), now), n, autoRenew))
                      else once, Done)
  {
    var b := Activate(a, AppleSale(n, now), now).account;
    AppleAccountIsEffects(a, n, autoRenew, now);
    AppleAccountIsEffects(AppleAccount(a, n, autoRenew, now).account, n, autoRenew, now);
    AppleActivationForgets(b.row, n, autoRenew, now);
  }

  lemma AppleSellerStays(a: Account, n: Transaction, autoRenew: Option<bool>, now: Time)
    requires Coherent(a.row) && CanStart(a.row.source, Apple) && AppleAccount(a, n, autoRenew, now).result == Done
    ensures AppleAccount(a, n, autoRenew, now).account.row.source == Apple
  {
    AppleAccountIsEffects(a, n, autoRenew, now);
  }

  lemma AppleDeliveryShape(t: Tenant, n: Transaction, autoRenew: Option<bool>, known: bool, spare: string, now: Time)
    requires AppleEntitles(n, now) && ApplyApple(t, n, autoRenew, known, true, spare, now).result == Done
    ensures var o := AppleAccount(t.account, n, autoRenew, now);
            var token := if t.appToken != "" then t.appToken else spare;
            && o.result == Done && n.expiresAt.Some? && Activate(t.account, AppleSale(n, now), now).result == Done
            && ApplyApple(t, n, autoRenew, known, true, spare, now)
               == StoreOutcome(t.(account := o.account, appToken := token,
                                  apple := Some(BoundApple(t.apple, n, autoRenew, OrElse(n.appToken, token)))), Done)
  {}

  lemma AppleEntitledAgain(t: Tenant, n: Transaction, autoRenew: Option<bool>, known: bool, spare: string, now: Time)
    requires Coherent(t.account.row) && AppleEntitles(n, now) && spare != ""
    requires ApplyApple(t, n, autoRenew, known, true, spare, now).result == Done
    ensures var once := ApplyApple(t, n, autoRenew, known, true, spare, now).tenant;
            forall known', spare' :: ApplyApple(once, n, autoRenew, known', true, spare', now)
              == StoreOutcome(once.(account := AppleAccount(once.account, n, autoRenew, now).account), Done)
  {
    AppleDeliveryShape(t, n, autoRenew, known, spare, now);
    AppleSellerStays(t.account, n, autoRenew, now);
    AppleAccountAgain(t.account, n, autoRenew, now);
  }

  /** What a delivery past its dates settles, it has settled. */
  lemma SettledEndedAgain(t: Tenant, n: Transaction, autoRenew: Option<bool>, known: bool, token: string, now: Time)
    requires !AppleEntitles(n, now) && token != ""
    ensures var once := SettledApple(t, n, autoRenew, known, token, now);
            && once.result == Done && once.tenant.appToken == token
            && SettledApple(once.tenant, n, autoRenew, known, token, now) == once
  {}

  lemma SettledEndedStarts(t: Tenant, n: Transaction, autoRenew: Option<bool>, known: bool, token: string, now: Time)
    requires !AppleEntitles(n, now) && CanStart(t.account.row.source, Apple)
    ensures CanStart(SettledApple(t, n, autoRenew, known, token, now).tenant.account.row.source, Apple)
  {}

  lemma AppleEndedAgain(t: Tenant, n: Transaction, autoRenew: Option<bool>, known: bool, spare: string, now: Time)
    requires !AppleEntitles(n, now) && spare != ""
    requires ApplyApple(t, n, autoRenew, known, true, spare, now).result == Done
    ensures var once := ApplyApple(t, n, autoRenew, known, true, spare, now);
            forall spare' :: ApplyApple(once.tenant, n, autoRenew, known, true, spare', now) == once
  {
    var token := if t.appToken != "" then t.appToken else spare;
    SettledEndedAgain(t, n, autoRenew, known, token, now);
    SettledEndedStarts(t, n, autoRenew, known, token, now);
  }

  /**
    A second delivery changes nothing, except after a half-written first one,
    whatever account token the second delivery would make up. A delivery that
    entitles binds the transaction, so it is known to the second one.
   */
  lemma AppleRedeliveryIff(t: Tenant, n: Transaction, autoRenew: Option<bool>, known: bool, spare: string,
          spare': string, now: Time)
    requires Coherent(t.account.row) && spare != ""
    requires ApplyApple(t, n, autoRenew, known, true, spare, now).result == Done
    ensures var once := ApplyApple(t, n, autoRenew, known, true, spare, now);
            ApplyApple(once.tenant, n, autoRenew, known || AppleEntitles(n, now), true, spare', now) == once
            <==> !AppleHalfWritten(t, n, autoRenew, now)
  {
    if AppleEntitles(n, now) {
      var a, sale := t.account, AppleSale(n, now);
      AppleDeliveryShape(t, n, autoRenew, known, spare, now);
      AppleEntitledAgain(t, n, autoRenew, known, spare, now);
      AppleAccountIsEffects(a, n, autoRenew, now);
      AppleAccountAgain(a, n, autoRenew, now);
      if Confirmed(a, sale, now) {
        AppleStaleSurvives(a, n, now);
      } else {
        AppleActivationForgets(a.row, n, autoRenew, now);
        assert Activate(a, sale, now).account.row == ActivatedRow(a.row, sale, now);
      }
    } else {
      AppleEndedAgain(t, n, autoRenew, known, spare, now);
    }
  }

  /** Here too a third delivery never adds anything to the second. */
  lemma AppleThirdDeliveryIsSecond(t: Tenant, n: Transaction, autoRenew: Option<bool>, known: bool, spare: string,
          now: Time)
    requires Coherent(t.account.row) && spare != ""
    requires ApplyApple(t, n, autoRenew, known, true, spare, now).result == Done
    ensures var still := known || AppleEntitles(n, now);
            var once := ApplyApple(t, n, autoRenew, known, true, spare, now);
            var twice := ApplyApple(once.tenant, n, autoRenew, still, true, spare, now);
            twice.result == Done && ApplyApple(twice.tenant, n, autoRenew, still, true, spare, now) == twice
  {
    var once := ApplyApple(t, n, autoRenew, known, true, spare, now).tenant;
    if AppleEntitles(n, now) {
      AppleEntitledAgain(t, n, autoRenew, known, spare, now);
      AppleDeliveryShape(t, n, autoRenew, known, spare, now);
      AppleAccountIsEffects(t.account, n, autoRenew, now);
      AppleKeepsCoherence(t.account, n, autoRenew, now);
      AppleRedeliveryIff(once, n, autoRenew, true, spare, spare, now);
    } else {
      AppleEndedAgain(t, n, autoRenew, known, spare, now);
    }
  }

  lemma AppleKeepsCoherence(a: Account, n: Transaction, autoRenew: Option<bool>, now: Time)
    requires Coherent(a.row)
    ensures Coherent(AppleAccount(a, n, autoRenew, now).account.row)
  {
    if Activate(a, AppleSale(n, now), now).result == Done {
      AppleAccountIsEffects(a, n, autoRenew, now);
      ActivateKeepsCoherence(a, AppleSale(n, now), now);
    }
  }

  /** A refund whose revocation lies in the future is delivered as a cancelled entitlement. */
  predicate NoticeHalfWritten(t: Tenant, kind: Notice, n: Transaction, autoRenew: Option<bool>, now: Time) {
    match kind
    case Renewal => AppleHalfWritten(t, n, autoRenew, now)
    case Refund => AppleHalfWritten(t, Revoked(n, now), Some(false), now)
    case _ => false
  }

  predicate NoticeBinds(kind: Notice, n: Transaction, now: Time) {
    (kind == Renewal && AppleEntitles(n, now)) || (kind == Refund && AppleEntitles(Revoked(n, now), now))
  }

  /** The same for a server notification of any kind. */
  lemma AppleNoticeRedeliveryIff(t: Tenant, kind: Notice, n: Transaction, autoRenew: Option<bool>, known: bool,
          spare: string, spare': string, now: Time)
    requires Coherent(t.account.row) && spare != ""
    requires NotifyApple(t, kind, n, autoRenew, known, true, spare, now).result == Done
    ensures var once := NotifyApple(t, kind, n, autoRenew, known, true, spare, now);
            NotifyApple(once.tenant, kind, n, autoRenew, known || NoticeBinds(kind, n, now), true, spare', now) == once
            <==> !NoticeHalfWritten(t, kind, n, autoRenew, now)
  {
    match kind
    case Refund => AppleRedeliveryIff(t, Revoked(n, now), Some(false), known, spare, spare', now);
    case Renewal => AppleRedeliveryIff(t, n, autoRenew, known, spare, spare', now);
    case _ =>
  }

  // ---- half-written deliveries do happen ----

  /** A workspace without any subscription, its free week over. */
  const UNSUBSCRIBED := Tenant(Account(DEFAULT_ROW, Basic, Ineligible), None, None, "")

  /**
    A renewing purchase, then its replacement for the same period with renewal off: the
    row keeps the first token while the details name the second, until a third delivery.
   */
  lemma ReplacementIsHalfWritten(p: Purchase, token: string, now: Time)
    requires PaidPlan(p.plan) && PaidInterval(p.interval) && KnownCurrency(p.currency) && p.state == GoogleActive
    requires p.autoRenew == Some(true) && p.startAt.Some? && p.expiresAt.Some?
    requires p.startAt.value < p.expiresAt.value && now < p.expiresAt.value
    requires p.token != "" && token != "" && token != p.token
    ensures var q := p.(token := token, linked := p.token, autoRenew := Some(false));
            var first := ApplyGoogle(UNSUBSCRIBED, p, true, now);
            var second := ApplyGoogle(first.tenant, q, true, now);
            var third := ApplyGoogle(second.tenant, q, true, now);
            && first.result == second.result == third.result == Done && GoogleHalfWritten(first.tenant, q, now)
            && second.tenant.google.Some? && second.tenant.google.value.token == token
            && second.tenant.account.row.subscription == p.token && third.tenant.account.row.subscription == token
  {
    var first := ApplyGoogle(UNSUBSCRIBED, p, true, now).tenant;
    assert first.account.row == ActivatedRow(DEFAULT_ROW, GoogleSale(p, now), now);
  }

  /**
    The same transaction reported in another currency, with renewal off: the row keeps the old
    currency until a third delivery.
   */
  lemma CurrencyChangeIsHalfWritten(n: Transaction, currency: Currency, spare: string, now: Time)
    requires PaidPlan(n.plan) && PaidInterval(n.interval) && KnownCurrency(n.currency)
    requires KnownCurrency(currency) && currency != n.currency
    requires n.purchasedAt.Some? && n.expiresAt.Some? && n.purchasedAt.value < n.expiresAt.value
    requires now < n.expiresAt.value
    requires n.revokedAt.None? && n.appToken == "" && spare != ""
    ensures var m := n.(currency := currency);
            var first := ApplyApple(UNSUBSCRIBED, n, Some(true), false, true, spare, now);
            var second := ApplyApple(first.tenant, m, Some(false), true, true, spare, now);
            var third := ApplyApple(second.tenant, m, Some(false), true, true, spare, now);
            && first.result == second.result == third.result == Done
            && AppleHalfWritten(first.tenant, m, Some(false), now)
            && second.tenant.account.row.currency == n.currency && third.tenant.account.row.currency == currency
  {
    var first := ApplyApple(UNSUBSCRIBED, n, Some(true), false, true, spare, now).tenant;
    assert first.account.row == ActivatedRow(DEFAULT_ROW, AppleSale(n, now), now);
  }
}
