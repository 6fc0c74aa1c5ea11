/**
  The due-work sweep may run early, late, or many times: when the difference
  becomes visible.
 */
module BillingSweep {
  import opened BillingTypes
  import opened BillingServices

  /** The instant at which the row's current phase ends by itself, whatever is scheduled. */
  function Deadline(r: Row): Option<Time> {
    match r.status
    case PastDue => r.graceDeadline
    case Trialing => r.delayEnd
    case _ => None
  }

  /** A scheduled paid change falls due before the phase ends, so the order of the two matters. */
  predicate Racing(r: Row) {
    PaidPlan(r.pendingPlan) && r.pendingAt.Some? && Deadline(r).Some? && r.pendingAt.value < Deadline(r).value
  }

  function SweepTwice(a: Account, first: Time, second: Time): Account {
    SweepDue(SweepDue(a, first).account, second).account
  }

  /** The first sweep comes between the change and the deadline, the second after it. */
  predicate Straddles(r: Row, first: Time, second: Time) {
    Racing(r) && r.pendingAt.value <= first < Deadline(r).value <= second
  }

  /** A sweep ends the subscription: the grace is over, or access is over and a cancellation stands. */
  predicate EndsBy(r: Row, now: Time) {
    (r.status == PastDue && Due(r.graceDeadline, now)) || (r.cancel && (Due(r.pendingAt, now) || DelayOver(r, now)))
  }

  predicate DelayOver(r: Row, now: Time) { r.status == Trialing && Due(r.delayEnd, now) }

  /** A sweep at `now` would set another plan, if the free week did not keep the one in force. */
  predicate Shielded(a: Account, now: Time) {
    (EndsBy(a.row, now) && a.plan != Basic) || (DelayOver(a.row, now) && !a.row.cancel && a.plan != a.row.plan)
  }

  /** The first sweep does its work under the free week, which is over at the second. */
  predicate OutlivesWeek(a: Account, first: Time, second: Time) {
    WeekActive(a.week, first) && !WeekActive(a.week, second) && Shielded(a, first)
  }

  /**
    For every pair of times: the early sweep shows exactly if the two straddle the deadline
    of a racing row, or the early one leaves a plan in force that the free week shields.
   */
  lemma EarlySweepShowsIff(a: Account, first: Time, second: Time)
    requires Coherent(a.row) && first <= second
    ensures SweepTwice(a, first, second) != SweepDue(a, second).account
            <==> Straddles(a.row, first, second) || OutlivesWeek(a, first, second)
  {
    var early := SweepDue(a, first).account;
    if Straddles(a.row, first, second) {
      assert early == ApplyScheduledChange(a);
      assert SweepDue(early, second).account == early;
    } else if EndsBy(a.row, first) {
      assert early == FinalizeEnd(a, first).account && SweepDue(early, second).account == early;
    }
  }

  /** Work that falls due within the free week and would set another plan. */
  predicate DueInWeek(a: Account) {
    Unsettled(a.week) && Shielded(a, a.week.endsAt - 1)
  }

  /**
    Sweep timing does not matter if and only if no paid change falls due before the row's
    own deadline, and nothing that the free week shields falls due within it.
   */
  lemma SweepTimingIrrelevantIff(a: Account)
    requires Coherent(a.row)
    ensures (forall first, second :: first <= second ==> SweepTwice(a, first, second) == SweepDue(a, second).account)
            <==> !Racing(a.row) && !DueInWeek(a)
  {
    if Racing(a.row) {
      EarlySweepShowsIff(a, a.row.pendingAt.value, Deadline(a.row).value);
    } else if DueInWeek(a) {
      EarlySweepShowsIff(a, a.week.endsAt - 1, a.week.endsAt);
    } else {
      forall first, second | first <= second
        ensures SweepTwice(a, first, second) == SweepDue(a, second).account
      {
        EarlySweepShowsIff(a, first, second);
      }
    }
  }

  function SweepAll(a: Account, times: seq<Time>): Account {
    if times == [] then a
    else SweepDue(SweepAll(a, times[..|times| - 1]), times[|times| - 1]).account
  }

  /** Any history of sweeps comes to the same as the last of them alone. */
  lemma {:induction false} OnlyTheLastSweepCounts(a: Account, times: seq<Time>)
    requires Coherent(a.row) && !Racing(a.row) && !DueInWeek(a) && times != []
    requires forall i, j :: 0 <= i < j < |times| ==> times[i] <= times[j]
    ensures SweepAll(a, times) == SweepDue(a, times[|times| - 1]).account
  {
    var front, last := times[..|times| - 1], times[|times| - 1];
    if front == [] {
      assert SweepAll(a, front) == a;
    } else {
      OnlyTheLastSweepCounts(a, front);
      EarlySweepShowsIff(a, front[|front| - 1], last);
    }
  }

  /** A past-due row with a scheduled change becomes active without recovering: the grace is lost. */
  lemma DueChangeEndsGrace(a: Account, now: Time)
    requires Coherent(a.row) && a.row.status == PastDue && Racing(a.row)
    requires a.row.pendingAt.value <= now < a.row.graceDeadline.value
    ensures var b := SweepDue(a, now).account;
            && b.row.status == Active && b.row.graceDeadline == a.row.graceDeadline
            && forall later :: SweepDue(b, later).account == b
  {}
}
