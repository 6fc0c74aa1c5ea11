/** The command that ends every free week that is over, workspace by workspace. */
module FreeWeekBatch {
  import opened BillingTypes
  import opened BillingServices
  import opened WorkspaceBilling

  /** The batch picks the grants that have ended and are not settled. */
  predicate DueWeek(a: Account, now: Time) {
    Unsettled(a.week) && a.week.endsAt <= now
  }

  function BatchOne(a: Account, now: Time): Account {
    if DueWeek(a, now) then ExpireWeek(a, now).account else a
  }

  /** What the batch counts: weeks it settled, and weeks it had to leave open. */
  predicate SettlesNow(a: Account, now: Time) {
    DueWeek(a, now) && !Unsettled(BatchOne(a, now).week)
  }

  function CountDue(accounts: seq<Account>, now: Time, settles: bool): nat {
    if accounts == [] then 0
    else
      var last := accounts[|accounts| - 1];
      CountDue(accounts[..|accounts| - 1], now, settles)
      + if DueWeek(last, now) && SettlesNow(last, now) == settles then 1 else 0
  }

  /** A due week stays open exactly while a paid plan has been bought but has not started. */
  lemma LeftOpenIff(a: Account, now: Time)
    requires DueWeek(a, now)
    ensures !SettlesNow(a, now) <==> a.row.status == Trialing && PaidPlan(a.row.plan)
    ensures !SettlesNow(a, now) ==> BatchOne(a, now) == a
  {}

  /**
    What the batch does to a workspace: a granted week that is over and open is closed, the
    plan is what is paid for or Basic, and everything else stands. A plan bought for later
    keeps its week open.
   */
  lemma BatchMeans(a: Account, now: Time)
    ensures var b := BatchOne(a, now);
            && b.row == a.row
            && (a.week.Granted? && a.week.settledAt == None && now >= a.week.endsAt
                && !(a.row.status == Trialing && (a.row.plan == Plus || a.row.plan == Business)) ==>
                  && b.week == a.week.(settledAt := Some(now))
                  && b.plan == if (a.row.status == Active || a.row.status == PastDue)
                                  && (a.row.plan == Plus || a.row.plan == Business) then a.row.plan else Basic)
            && (!a.week.Granted? || a.week.settledAt.Some? || now < a.week.endsAt
                || (a.row.status == Trialing && (a.row.plan == Plus || a.row.plan == Business)) ==>
                  b == a)
  {}

  /**
    A second batch, however much later, changes nothing but the weeks left open, and gives no
    other plan than one late batch.
   */
  lemma BatchTwice(a: Account, first: Time, second: Time)
    requires first <= second
    ensures SettlesNow(a, first) ==> BatchOne(BatchOne(a, first), second) == BatchOne(a, first)
    ensures BatchOne(BatchOne(a, first), second).plan == BatchOne(a, second).plan
    ensures Unsettled(BatchOne(BatchOne(a, first), second).week) == Unsettled(BatchOne(a, second).week)
  {}

  /** The paid plan that starts after the week ended is what the sweep and the batch agree on, in either order. */
  lemma BatchAndSweepCommute(a: Account, now: Time)
    requires Coherent(a.row) && DueWeek(a, now) && a.row.status == Trialing && Due(a.row.delayEnd, now) && !a.row.cancel
    ensures var swept := BatchOne(SweepDue(BatchOne(a, now), now).account, now);
            && swept.plan == a.row.plan && swept.row.status == Active && !Unsettled(swept.week)
            && SweepDue(BatchOne(SweepDue(a, now).account, now), now).account == swept
  {
    LeftOpenIff(a, now);
  }

  lemma CountOneMore(accounts: seq<Account>, i: nat, now: Time, settles: bool)
    requires i < |accounts|
    ensures CountDue(accounts[..i + 1], now, settles) ==
              CountDue(accounts[..i], now, settles)
              + if DueWeek(accounts[i], now) && SettlesNow(accounts[i], now) == settles then 1 else 0
  {
    assert accounts[..i + 1][..i] == accounts[..i];
  }

  ghost function Views(workspaces: seq<Workspace>): seq<Account>
    reads workspaces
  {
    seq(|workspaces|, i requires 0 <= i < |workspaces| reads workspaces => workspaces[i].View())
  }

  method ExpireDueBuiltinTrials(workspaces: seq<Workspace>, now: Time) returns (expired: nat, skipped: nat)
    requires forall i, j :: 0 <= i < j < |workspaces| ==> workspaces[i] != workspaces[j]
    modifies workspaces
    ensures forall i :: 0 <= i < |workspaces| ==> workspaces[i].View() == BatchOne(old(Views(workspaces))[i], now)
    ensures expired == CountDue(old(Views(workspaces)), now, true)
    ensures skipped == CountDue(old(Views(workspaces)), now, false)
  {
    ghost var before := Views(workspaces);
    expired, skipped := 0, 0;
    for i := 0 to |workspaces|
      invariant forall k :: 0 <= k < i ==> workspaces[k].View() == BatchOne(before[k], now)
      invariant forall k :: i <= k < |workspaces| ==> workspaces[k].View() == before[k]
      invariant expired == CountDue(before[..i], now, true) && skipped == CountDue(before[..i], now, false)
    {
      CountOneMore(before, i, now, true);
      CountOneMore(before, i, now, false);
      var w := workspaces[i];
      assert w.View() == before[i];
      if w.week.Granted? && w.week.settledAt.None? && w.week.endsAt <= now {
        w.ExpireDueBuiltinTrial(now);
        if w.week.settledAt.Some? {
          expired := expired + 1;
        } else {
          skipped := skipped + 1;
        }
      }
      assert w.View() == BatchOne(before[i], now);
    }
    assert before[..|workspaces|] == before;
  }
}
