/**
  The persisted state of one workspace's billing: the subscription row, the
  effective entitlement plan of the organization, and the write-once free week.
  A missing subscription row is represented by DEFAULT_ROW, which is what every
  locking operation creates before it looks at anything.
 */
module BillingTypes {

  /** An instant, counted in microseconds. */
  type Time = int

  datatype Option<+T> = None | Some(value: T)

  /** NoPlan is the blank string of `subscribed_plan` and `pending_plan`. */
  datatype Plan = NoPlan | Basic | Plus | Business

  /** NoInterval stands for both `none` (billed interval) and blank (pending interval). */
  datatype Interval = NoInterval | Monthly | Yearly

  datatype Status = NoStatus | Trialing | Active | PastDue | Canceled

  datatype Source = NoSource | Stripe | Apple | Google

  /** Unsupported is any code other than `usd` and `jpy`; NoCurrency is a currency not given. */
  datatype Currency = NoCurrency | Usd | Jpy | Unsupported

  datatype Row = Row(
    source: Source,
    customer: string,
    subscription: string,
    status: Status,
    interval: Interval,
    plan: Plan,
    currency: Currency,
    periodStart: Option<Time>,
    periodEnd: Option<Time>,
    delayStart: Option<Time>,
    delayEnd: Option<Time>,
    cancel: bool,
    pendingPlan: Plan,
    pendingInterval: Interval,
    pendingAt: Option<Time>,
    failedAt: Option<Time>,
    graceDeadline: Option<Time>,
    warnedAt: Option<Time>,
    warnings: nat,
    recoveredAt: Option<Time>)

  const DEFAULT_ROW := Row(
    NoSource, "", "", NoStatus, NoInterval, NoPlan, Usd, None, None, None, None,
    false, NoPlan, NoInterval, None, None, None, None, 0, None)

  /** NoRecord: no row yet. Ineligible: consumed without a grant. */
  datatype FreeWeek =
    | NoRecord
    | Ineligible
    | Granted(startedAt: Time, endsAt: Time, settledAt: Option<Time>)

  datatype Account = Account(row: Row, plan: Plan, week: FreeWeek)

  datatype Error =
    | NotPaidPlan
    | NotPaidInterval
    | NotPaidSource
    | UnsupportedCurrency
    | BadWindow
    | AlreadyPaid
    | NotSubscribed
    | NotAnUpgrade
    | CancellationPending
    | ChangePending
    | UseImmediateUpgrade
    | NothingToChange
    | NoEffectiveTime
    | AccessEnded
    | OutsideGrace
    | FreeWeekOnly
    | FreeWeekRunning
    | SourceLocked
    | PriceUnmapped
    | MarketMismatch
    | BoundElsewhere
    | TokenMismatch
    | TokenRequired
    | Incomplete

  datatype Result = Done | Raised(error: Error)

  /** What one call leaves behind: the stored account, and whether the call raised. */
  datatype Outcome = Outcome(account: Account, result: Result)

  const DAY: Time := 86_400_000_000

  predicate PaidPlan(p: Plan) { p == Plus || p == Business }

  predicate PaidInterval(i: Interval) { i != NoInterval }

  predicate PaidSource(s: Source) { s != NoSource }

  /** Statuses with commercial access, which are also those a change may be scheduled in. */
  predicate Live(s: Status) { s == Trialing || s == Active || s == PastDue }

  predicate Paid(s: Status) { s == Active || s == PastDue }

  predicate KnownCurrency(c: Currency) { c == Usd || c == Jpy }

  /** The first of the two that is not blank, or blank. */
  function OrElse(a: string, b: string): string { if a != "" then a else b }

  /** The first of the two that is given; likewise for intervals and plans. */
  function OrTime(a: Option<Time>, b: Option<Time>): Option<Time> { if a.Some? then a else b }

  function OrInterval(a: Interval, b: Interval): Interval { if a != NoInterval then a else b }

  function OrPlan(a: Plan, b: Plan): Plan { if a != NoPlan then a else b }

  predicate Unsettled(w: FreeWeek) { w.Granted? && w.settledAt.None? }

  /** The free week is entitling the workspace to Business at `now`. */
  predicate WeekActive(w: FreeWeek, now: Time) { Unsettled(w) && now < w.endsAt }

  /** What every stored subscription row satisfies. */
  predicate Coherent(r: Row) {
    && r.plan != Basic
    && KnownCurrency(r.currency)
    && (Live(r.status) ==> PaidPlan(r.plan) && PaidInterval(r.interval) && PaidSource(r.source))
    && (r.status == PastDue ==> r.graceDeadline.Some?)
    && (r.cancel <==> r.pendingPlan == Basic)
    && (r.pendingPlan != NoPlan <==> r.pendingAt.Some?)
    && (r.pendingAt.Some? ==> Live(r.status))
    && (r.delayStart.Some? <==> r.delayEnd.Some?)
    && (r.delayStart.Some? ==> r.delayStart.value < r.delayEnd.value)
    && (r.status == Trialing ==> r.delayEnd.Some?)
  }

  /** Once the free week is settled, the effective plan is the paid plan, or Basic without one. */
  predicate PlanMatches(a: Account) {
    !Unsettled(a.week) && a.plan == if Paid(a.row.status) then a.row.plan else Basic
  }
}
