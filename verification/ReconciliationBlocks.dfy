/**
  A reconciliation that is not inside a transaction is a sequence of blocks, each
  stored by itself. It may stop between any two of them, and other steps may come in.
 */
module ReconciliationBlocks {
  import opened BillingTypes
  import opened BillingServices
  import opened Reconciliation
  import opened ReconciliationFixedPoint
  import opened BillingRuns

  /** Steps taken one after another at one clock reading. */
  function RunSteps(a: Account, steps: seq<Step>, now: Time): Account
    decreases |steps|
  {
    if steps == [] then a else RunSteps(Apply(a, steps[0], now).account, steps[1..], now)
  }

  function CancelBlock(cancel: bool, at: Option<Time>): seq<Step> {
    if cancel then [Cancel(at)] else []
  }

  function ShiftBlocks(s: Snapshot): seq<Step> {
    [ShiftPeriod(s)] + CancelBlock(s.cancel, s.periodEnd)
  }

  /** The blocks for an active snapshot; a sale that is refused stops them. */
  function CurrentBlocks(a: Account, s: Snapshot, p: Price, now: Time): seq<Step> {
    var r := a.row;
    var pair := (p.plan, p.interval);
    var sale := SaleOf(s, p, s.periodStart, s.periodEnd);
    if Held(r, s, now) && pair == (r.plan, r.interval) then ShiftBlocks(s)
    else if Held(r, s, now) && pair != Target(r) then []
    else if p.plan == Plus && a.plan == Business then [WritePlus, StartPaid(sale)]
    else if p.plan == Business && a.plan == Plus then
      [ApplyUpgrade(Business, s.periodStart, s.periodEnd, s.subscription, p.currency)]
    else if Held(r, s, now) && p.plan != a.plan && pair != Target(r) then []
    else if DowngradePending(r) && p.plan == Business then ShiftBlocks(s)
    else [StartPaid(sale)] + CancelBlock(s.cancel && SaleWindow(sale, now) == Done, s.periodEnd)
  }

  function DelayedBlocks(a: Account, s: Snapshot, p: Price, now: Time): seq<Step> {
    var end := OrTime(s.delayEnd, s.periodEnd);
    var sale := SaleOf(s, p, OrTime(s.delayStart, s.periodStart), end);
    [StartDeferred(sale)] + CancelBlock(s.cancel && DeferredStart(a, sale, now).result == Done, end)
  }

  /** What a reconciliation does to the account, block by block. */
  function Blocks(a: Account, s: Snapshot, now: Time): seq<Step> {
    if s.status == Ended then
      [KeepIds(s), if s.cancel && Future(s.periodEnd, now) then Cancel(s.periodEnd) else End]
    else if s.price.None? || WrongMarket(a.row, s.price.value) then
      []
    else
      var p := s.price.value;
      if s.status == Overdue then [KeepIds(s), KeepCurrency(p.currency), FailPayment(Some(now), None)]
      else
        var c := Entering(a, s, p, now);
        [KeepIds(s), KeepCurrency(p.currency), RecoverPayment(Some(now))]
        + if s.status == Delayed then DelayedBlocks(c, s, p, now) else CurrentBlocks(c, s, p, now)
  }

  lemma OneStep(a: Account, step: Step, rest: seq<Step>, now: Time)
    ensures RunSteps(a, [step] + rest, now) == RunSteps(Apply(a, step, now).account, rest, now)
  {
    assert ([step] + rest)[1..] == rest;
  }

  lemma CancelBlockRuns(a: Account, cancel: bool, at: Option<Time>, now: Time)
    ensures RunSteps(a, CancelBlock(cancel, at), now) == CancelIf(Outcome(a, Done), cancel, at).account
  {
    if cancel { OneStep(a, Cancel(at), [], now); }
  }

  lemma CurrentBlocksRun(a: Account, s: Snapshot, p: Price, now: Time)
    ensures RunSteps(a, CurrentBlocks(a, s, p, now), now) == ReconcileCurrent(a, s, p, now).account
  {
    var sale := SaleOf(s, p, s.periodStart, s.periodEnd);
    var steps := CurrentBlocks(a, s, p, now);
    if steps != [] {
      OneStep(a, steps[0], steps[1..], now);
      assert [steps[0]] + steps[1..] == steps;
      if steps[0] == ShiftPeriod(s) {
        assert steps[1..] == CancelBlock(s.cancel, s.periodEnd);
        CancelBlockRuns(MovePeriod(a, s), s.cancel, s.periodEnd, now);
      } else if steps[0] == WritePlus {
        OneStep(a.(plan := Plus), StartPaid(sale), [], now);
        assert steps[1..] == [StartPaid(sale)] + [];
      } else if steps[0] == StartPaid(sale) {
        assert steps[1..] == CancelBlock(s.cancel && SaleWindow(sale, now) == Done, s.periodEnd);
        CancelBlockRuns(Activate(a, sale, now).account, s.cancel && SaleWindow(sale, now) == Done, s.periodEnd, now);
      } else {
        assert steps[1..] == [];
      }
    }
  }

  lemma DelayedBlocksRun(a: Account, s: Snapshot, p: Price, now: Time)
    ensures RunSteps(a, DelayedBlocks(a, s, p, now), now) == ReconcileDelayed(a, s, p, now).account
  {
    var end := OrTime(s.delayEnd, s.periodEnd);
    var sale := SaleOf(s, p, OrTime(s.delayStart, s.periodStart), end);
    var cancel := s.cancel && DeferredStart(a, sale, now).result == Done;
    OneStep(a, StartDeferred(sale), CancelBlock(cancel, end), now);
    CancelBlockRuns(DeferredStart(a, sale, now).account, cancel, end, now);
  }

  lemma EndedBlocksRun(a: Account, s: Snapshot, now: Time)
    requires s.status == Ended
    ensures RunSteps(a, Blocks(a, s, now), now) == Reconcile(a, s, now).account
  {
    var last := if s.cancel && Future(s.periodEnd, now) then Cancel(s.periodEnd) else End;
    OneStep(a, KeepIds(s), [last], now);
    OneStep(StoreIds(a, s), last, [], now);
  }

  lemma EnteringRuns(a: Account, s: Snapshot, p: Price, third: Step, rest: seq<Step>, now: Time)
    ensures RunSteps(a, [KeepIds(s), KeepCurrency(p.currency), third] + rest, now)
              == RunSteps(Apply(Adopt(a, s, p), third, now).account, rest, now)
  {
    var first, second := KeepIds(s), KeepCurrency(p.currency);
    ThreeSteps(a, first, second, third, rest, now);
    assert Apply(StoreIds(a, s), second, now).account == Adopt(a, s, p);
  }

  lemma ThreeSteps(a: Account, first: Step, second: Step, third: Step, rest: seq<Step>, now: Time)
    ensures var b := Apply(Apply(a, first, now).account, second, now).account;
            RunSteps(a, [first, second, third] + rest, now) == RunSteps(Apply(b, third, now).account, rest, now)
  {
    var b := Apply(a, first, now).account;
    OneStep(a, first, [second, third] + rest, now);
    OneStep(b, second, [third] + rest, now);
    OneStep(Apply(b, second, now).account, third, rest, now);
    assert [first] + ([second, third] + rest) == [first, second, third] + rest;
    assert [second] + ([third] + rest) == [second, third] + rest;
  }

  /** Undisturbed, the blocks one after another are the reconciliation. */
  lemma BlocksAreTheReconciliation(a: Account, s: Snapshot, now: Time)
    ensures RunSteps(a, Blocks(a, s, now), now) == Reconcile(a, s, now).account
  {
    if s.status == Ended {
      EndedBlocksRun(a, s, now);
    } else if s.price.Some? && !WrongMarket(a.row, s.price.value) {
      var p := s.price.value;
      var c := Entering(a, s, p, now);
      if s.status == Overdue {
        EnteringRuns(a, s, p, FailPayment(Some(now), None), [], now);
        assert Blocks(a, s, now) == Blocks(a, s, now) + [];
      } else if s.status == Delayed {
        EnteringRuns(a, s, p, RecoverPayment(Some(now)), DelayedBlocks(c, s, p, now), now);
        DelayedBlocksRun(c, s, p, now);
      } else {
        EnteringRuns(a, s, p, RecoverPayment(Some(now)), CurrentBlocks(c, s, p, now), now);
        CurrentBlocksRun(c, s, p, now);
      }
    }
  }

  /** Steps as events, so that all that holds of runs holds of any part of a reconciliation. */
  function At(steps: seq<Step>, now: Time): seq<Event> {
    if steps == [] then [] else At(steps[..|steps| - 1], now) + [Event(steps[|steps| - 1], now)]
  }

  lemma {:induction false} RunStepsSplits(a: Account, steps: seq<Step>, last: Step, now: Time)
    ensures RunSteps(a, steps + [last], now) == Apply(RunSteps(a, steps, now), last, now).account
    decreases |steps|
  {
    if steps == [] {
      OneStep(a, last, [], now);
      assert [] + [last] == [last] + [];
    } else {
      assert (steps + [last])[1..] == steps[1..] + [last];
      RunStepsSplits(Apply(a, steps[0], now).account, steps[1..], last, now);
    }
  }

  lemma {:induction false} StepsAreARun(a: Account, steps: seq<Step>, now: Time)
    ensures Run(a, At(steps, now)) == RunSteps(a, steps, now)
    ensures forall e :: e in At(steps, now) ==> e.step in steps && e.at == now
  {
    if steps != [] {
      var front, last := steps[..|steps| - 1], steps[|steps| - 1];
      StepsAreARun(a, front, now);
      RunStepsSplits(a, front, last, now);
      assert front + [last] == steps;
      assert At(steps, now)[..|At(steps, now)| - 1] == At(front, now);
    }
  }

  lemma BlocksArePriced(a: Account, s: Snapshot, now: Time)
    requires s.price.Some? ==> Catalogued(s.price.value)
    ensures forall step :: step in Blocks(a, s, now) ==> Priced(step)
  {
  }

  /** Wherever a reconciliation breaks off, the row it leaves is coherent. */
  lemma BrokenOffIsCoherent(a: Account, s: Snapshot, now: Time, n: nat)
    requires Coherent(a.row) && (s.price.Some? ==> Catalogued(s.price.value)) && n <= |Blocks(a, s, now)|
    ensures Coherent(RunSteps(a, Blocks(a, s, now)[..n], now).row)
  {
    var part := Blocks(a, s, now)[..n];
    BlocksArePriced(a, s, now);
    StepsAreARun(a, part, now);
    RunsStayCoherent(a, At(part, now));
  }

  // ---- the effective plan between the blocks ----

  /** The last block done is the downgraded plan, written ahead of its row. */
  predicate PlanAhead(steps: seq<Step>) {
    steps != [] && steps[|steps| - 1] == WritePlus
  }

  /** Blocks that keep the plan guarantee in whatever state they are taken. */
  predicate Harmless(step: Step) {
    || step.KeepIds? || step.ShiftPeriod? || step.Cancel? || step.End? || step.FailPayment? || step.RecoverPayment?
    || step.StartDeferred? || step.StartPaid? || step.ApplyUpgrade?
    || (step.KeepCurrency? && KnownCurrency(step.currency))
  }

  lemma HarmlessKeepsPlan(a: Account, step: Step, now: Time)
    requires Entitled(a, now) && Harmless(step)
    ensures Entitled(Apply(a, step, now).account, now)
  {
    StepKeepsPlan(a, step, now);
  }

  /** Block n of these is harmless, or it is the plan write and the last but one. */
  predicate HarmlessAt(steps: seq<Step>, n: nat)
    requires n < |steps|
  {
    Harmless(steps[n]) || (steps[n] == WritePlus && n == |steps| - 2)
  }

  lemma CurrentBlocksAreHarmless(c: Account, s: Snapshot, p: Price, now: Time, n: nat)
    requires n < |CurrentBlocks(c, s, p, now)|
    ensures HarmlessAt(CurrentBlocks(c, s, p, now), n)
  {}

  lemma DelayedBlocksAreHarmless(c: Account, s: Snapshot, p: Price, now: Time, n: nat)
    requires n < |DelayedBlocks(c, s, p, now)|
    ensures HarmlessAt(DelayedBlocks(c, s, p, now), n)
  {}

  /** The plan write is the last block but one, and only a downgrade has it. */
  lemma BlocksAreHarmless(a: Account, s: Snapshot, now: Time, n: nat)
    requires s.price.Some? ==> Catalogued(s.price.value)
    requires n < |Blocks(a, s, now)|
    ensures HarmlessAt(Blocks(a, s, now), n)
  {
    if n >= 3 {
      var c := Entering(a, s, s.price.value, now);
      if s.status == Delayed {
        DelayedBlocksAreHarmless(c, s, s.price.value, now, n - 3);
      } else {
        CurrentBlocksAreHarmless(c, s, s.price.value, now, n - 3);
      }
    }
  }

  lemma WeekIsKept(a: Account, step: Step, now: Time)
    requires Harmless(step) || step == WritePlus
    ensures Apply(a, step, now).account.week == a.week
  {
  }

  /** What is left when a reconciliation breaks off after n blocks. */
  function BrokenOff(a: Account, s: Snapshot, now: Time, n: nat): Account
    requires n <= |Blocks(a, s, now)|
  {
    RunSteps(a, Blocks(a, s, now)[..n], now)
  }

  lemma BreaksOffLater(a: Account, s: Snapshot, now: Time, n: nat)
    requires n < |Blocks(a, s, now)|
    ensures BrokenOff(a, s, now, n + 1) == Apply(BrokenOff(a, s, now, n), Blocks(a, s, now)[n], now).account
  {
    var blocks := Blocks(a, s, now);
    RunStepsSplits(a, blocks[..n], blocks[n], now);
    assert blocks[..n] + [blocks[n]] == blocks[..n + 1];
  }

  /** No block before the last two can cost the plan its reason. */
  lemma {:induction false} EarlyBlocksKeepPlan(a: Account, s: Snapshot, now: Time, n: nat)
    requires Entitled(a, now) && Priced(Sync(s)) && n < |Blocks(a, s, now)|
    requires n > 0 ==> n < |Blocks(a, s, now)| - 1 || Blocks(a, s, now)[n - 1] != WritePlus
    ensures Entitled(BrokenOff(a, s, now, n), now) && BrokenOff(a, s, now, n).week == a.week
  {
    var blocks := Blocks(a, s, now);
    if n > 0 {
      var before, step := BrokenOff(a, s, now, n - 1), blocks[n - 1];
      BlocksAreHarmless(a, s, now, n - 1);
      if n > 1 { BlocksAreHarmless(a, s, now, n - 2); }
      EarlyBlocksKeepPlan(a, s, now, n - 1);
      BreaksOffLater(a, s, now, n - 1);
      WeekIsKept(before, step, now);
      HarmlessKeepsPlan(before, step, now);
    }
  }

  lemma FinishedKeepsPlanIff(a: Account, s: Snapshot, now: Time)
    requires Entitled(a, now) && Priced(Sync(s))
    ensures Entitled(BrokenOff(a, s, now, |Blocks(a, s, now)|), now) <==> !LosesPlan(a, s, now)
  {
    var blocks := Blocks(a, s, now);
    assert blocks[..|blocks|] == blocks;
    BlocksAreTheReconciliation(a, s, now);
    SyncKeepsPlanIff(a, s, now);
  }

  lemma AheadKeepsPlanIff(a: Account, s: Snapshot, now: Time, n: nat)
    requires Entitled(a, now) && Priced(Sync(s)) && 0 < n < |Blocks(a, s, now)|
    requires Blocks(a, s, now)[n - 1] == WritePlus
    ensures var b := BrokenOff(a, s, now, n);
            && (Entitled(b, now) <==> !WeekActive(a.week, now) && Paid(b.row.status) && b.row.plan == Plus)
            && (Justified(b) <==> Paid(b.row.status) && b.row.plan == Plus)
  {
    BlocksAreHarmless(a, s, now, n - 1);
    if n > 1 { BlocksAreHarmless(a, s, now, n - 2); }
    EarlyBlocksKeepPlan(a, s, now, n - 1);
    BreaksOffLater(a, s, now, n - 1);
    PlanWriteKeepsPlanIff(BrokenOff(a, s, now, n - 1), now);
  }

  /**
    A reconciliation that breaks off keeps the plan guarantee, except right after the
    downgraded plan was written: there exactly if the row is a paid Plus row already and the
    free week is over. Taken to the end it keeps it exactly unless it loses the plan itself.
   */
  lemma BrokenOffKeepsPlanIff(a: Account, s: Snapshot, now: Time, n: nat)
    requires Entitled(a, now) && Priced(Sync(s)) && n <= |Blocks(a, s, now)|
    ensures var b := BrokenOff(a, s, now, n);
            var ahead := PlanAhead(Blocks(a, s, now)[..n]);
            var settledPlus := !WeekActive(a.week, now) && Paid(b.row.status) && b.row.plan == Plus;
            && (n < |Blocks(a, s, now)| ==> (Entitled(b, now) <==> !ahead || settledPlus))
            && (ahead ==> n < |Blocks(a, s, now)| && (Justified(b) <==> Paid(b.row.status) && b.row.plan == Plus))
            && (n == |Blocks(a, s, now)| ==> (Entitled(b, now) <==> !LosesPlan(a, s, now)))
  {
    var blocks := Blocks(a, s, now);
    assert PlanAhead(blocks[..n]) <==> n > 0 && blocks[n - 1] == WritePlus;
    if n > 0 { BlocksAreHarmless(a, s, now, n - 1); }
    if n == |blocks| {
      FinishedKeepsPlanIff(a, s, now);
    } else if PlanAhead(blocks[..n]) {
      AheadKeepsPlanIff(a, s, now, n);
    } else {
      EarlyBlocksKeepPlan(a, s, now, n);
    }
  }

  /** The next delivery of the snapshot finishes a downgrade that broke off there, and does not drop the cancel flag. */
  lemma BrokenOffDowngradeIsFinished(c: Account, s: Snapshot, p: Price, now: Time)
    requires Entered(c, s, p) && Windowed(s, now) && p.plan == Plus && c.plan == Business
    requires Held(c.row, s, now) ==>
               (p.plan, p.interval) != (c.row.plan, c.row.interval) && (p.plan, p.interval) == Target(c.row)
    ensures Reconcile(c.(plan := Plus), s, now) == CancelIf(Reconcile(c, s, now), s.cancel, s.periodEnd)
  {
    EnteredReconciles(c, s, p, now);
    EnteredReconciles(c.(plan := Plus), s, p, now);
  }
}
