/** Two ways in which an attempt that looked finished changes once more, and when the first of them happens. */
module CheckoutStatuses {
  import opened BillingTypes
  import opened CheckoutModel
  import opened CheckoutProtocol

  /** The action lets a request record its session on this attempt. */
  predicate Persists(s: System, act: Action, id: nat) {
    act.Continue? && act.request < |s.requests| && s.requests[act.request].phase.ToPersist?
    && s.requests[act.request].phase.id == id
  }

  /**
    An expired attempt is reopened exactly by an outstanding persist, while no other attempt of
    the workspace is active.
   */
  lemma ReopensIff(s: System, act: Action, id: nat)
    requires id < |s.shop.attempts| && s.shop.attempts[id].status == Expired
    ensures id < |Next(s, act).shop.attempts|
    ensures Next(s, act).shop.attempts[id].status == Open <==>
              Persists(s, act, id) && !OtherActive(s.shop.attempts, id, s.shop.attempts[id].org)
  {
    if act.Continue? && act.request < |s.requests| {
      var r := s.requests[act.request];
      if !r.phase.ToPersist? {
        OnlyPersistReopens(s.shop, r.org, r.want, r.phase, act.fault, id);
      }
    }
  }

  lemma OnlyPersistReopens(shop: Shop, org: nat, want: Identity, phase: Phase, fault: bool, id: nat)
    requires id < |shop.attempts| && shop.attempts[id].status == Expired && !phase.ToPersist?
    ensures var after := Advance(shop, org, want, phase, fault).shop.attempts;
            id < |after| && after[id].status != Open
  {
  }

  /** A replaced attempt is completed exactly by a request that saw its session paid before the replacement. */
  lemma CompletesReplacedIff(s: System, act: Action, id: nat)
    requires id < |s.shop.attempts| && s.shop.attempts[id].status == Replaced
    ensures id < |Next(s, act).shop.attempts|
    ensures Next(s, act).shop.attempts[id].status == Completed <==>
              act.Continue? && act.request < |s.requests|
              && s.requests[act.request].phase.ToComplete? && s.requests[act.request].phase.id == id
  {
    if act.Continue? && act.request < |s.requests| {
      var r := s.requests[act.request];
      if !r.phase.ToComplete? {
        OnlyCompleteCompletes(s.shop, r.org, r.want, r.phase, act.fault, id);
      }
    }
  }

  lemma OnlyCompleteCompletes(shop: Shop, org: nat, want: Identity, phase: Phase, fault: bool, id: nat)
    requires id < |shop.attempts| && shop.attempts[id].status == Replaced && !phase.ToComplete?
    ensures var after := Advance(shop, org, want, phase, fault).shop.attempts;
            id < |after| && after[id].status == Replaced
  {
  }

  // Both do happen

  /** One attempt with session 0. */
  function OneAttempt(org: nat, want: Identity, status: AttemptStatus, session: Option<nat>,
          held: Option<SessionStatus>): Shop {
    Shop([Attempt(org, want, status, session)],
         if held.Some? then Provider([Session(0, want, held.value)], map[0 := 0]) else EMPTY.shop.provider, {})
  }

  /**
    Request 1 creates again after a failed inspection, the session lapses, request 2 marks the
    attempt expired, request 1 persists.
   */
  const REOPENING: seq<Action> := [
    Continue(0, false), Continue(0, false), Continue(0, false),
    Continue(1, false), Continue(1, true), Continue(1, false), Lapse(0),
    Continue(2, false), Continue(2, false), Continue(2, false), Continue(1, false)]

  function Reopened(org: nat, want: Identity, k: nat): System {
    var known := Some(0);
    var shop :=
      if k == 0 then EMPTY.shop
      else if k == 1 then OneAttempt(org, want, Pending, None, None)
      else if k == 2 then OneAttempt(org, want, Pending, None, Some(Unpaid))
      else if k <= 6 then OneAttempt(org, want, Open, known, Some(Unpaid))
      else if k <= 9 then OneAttempt(org, want, Open, known, Some(Lapsed))
      else if k == 10 then OneAttempt(org, want, Expired, known, Some(Lapsed))
      else OneAttempt(org, want, Open, known, Some(Lapsed));
    var p := if k == 0 then ToClaim else if k == 1 then ToCreate(0) else if k == 2 then ToPersist(0, 0)
             else Returned(known);
    var q := if k <= 3 then ToClaim else if k == 4 then ToInspect(0, 0) else if k == 5 then ToCreate(0)
             else if k <= 10 then ToPersist(0, 0) else Returned(known);
    var r := if k <= 7 then ToClaim else if k == 8 then ToInspect(0, 0) else if k == 9 then ToMarkExpired(0)
             else ToReclaim;
    System(shop, [Request(org, want, p), Request(org, want, q), Request(org, want, r)])
  }

  lemma ReopeningStep(org: nat, want: Identity, k: nat)
    requires k < |REOPENING|
    ensures Next(Reopened(org, want, k), REOPENING[k]) == Reopened(org, want, k + 1)
  {
    var s, t := Reopened(org, want, k), Reopened(org, want, k + 1);
    if REOPENING[k].Continue? {
      var r := s.requests[REOPENING[k].request];
      assert Advance(s.shop, r.org, r.want, r.phase, REOPENING[k].fault)
             == Progress(t.shop, t.requests[REOPENING[k].request].phase);
    }
  }

  /** An attempt marked expired is open again, with a session nobody can pay. */
  lemma ExpiredAttemptReopens(org: nat, want: Identity)
    ensures var begun := Run(EMPTY, [Begin(org, want), Begin(org, want), Begin(org, want)]);
            && Run(begun, REOPENING[..10]).shop.attempts == [Attempt(org, want, Expired, Some(0))]
            && Run(begun, REOPENING).shop.attempts == [Attempt(org, want, Open, Some(0))]
            && Run(begun, REOPENING).shop.provider.sessions == [Session(0, want, Lapsed)]
  {
    ThreeBegin(org, want, want, want);
    var states := seq(12, k requires 0 <= k < 12 => Reopened(org, want, k));
    forall k | 0 <= k < |REOPENING|
      ensures Next(states[k], REOPENING[k]) == states[k + 1]
    {
      ReopeningStep(org, want, k);
    }
    PassesIsRun(states, REOPENING);
    PassesIsRun(states[..11], REOPENING[..10]);
  }

  lemma ThreeBegin(org: nat, a: Identity, b: Identity, c: Identity)
    ensures Run(EMPTY, [Begin(org, a), Begin(org, b), Begin(org, c)]) ==
              System(EMPTY.shop, [Request(org, a, ToClaim), Request(org, b, ToClaim), Request(org, c, ToClaim)])
  {
    var p, q, r := Request(org, a, ToClaim), Request(org, b, ToClaim), Request(org, c, ToClaim);
    PassesIsRun([EMPTY, System(EMPTY.shop, [p]), System(EMPTY.shop, [p, q]), System(EMPTY.shop, [p, q, r])],
                [Begin(org, a), Begin(org, b), Begin(org, c)]);
  }

  /** Request 2 wants another plan; the session is paid between its inspection and request 1's, which completes last. */
  const LATE_PAYMENT: seq<Action> := [
    Continue(0, false), Continue(0, false), Continue(0, false),
    Continue(1, false), Continue(2, false), Continue(2, false), Pay(0),
    Continue(1, false), Continue(2, false), Continue(2, false), Continue(1, false)]

  function PaidLate(org: nat, want: Identity, other: Identity, k: nat): System {
    var known := Some(0);
    var next := Attempt(org, other, Pending, None);
    var paid := OneAttempt(org, want, Replaced, known, Some(Paid));
    var shop :=
      if k == 0 then EMPTY.shop
      else if k == 1 then OneAttempt(org, want, Pending, None, None)
      else if k == 2 then OneAttempt(org, want, Pending, None, Some(Unpaid))
      else if k <= 6 then OneAttempt(org, want, Open, known, Some(Unpaid))
      else if k <= 9 then OneAttempt(org, want, Open, known, Some(Paid))
      else if k == 10 then paid.(attempts := [Attempt(org, want, Replaced, known), next])
      else paid.(attempts := [Attempt(org, want, Completed, known), next]);
    var p := if k == 0 then ToClaim else if k == 1 then ToCreate(0) else if k == 2 then ToPersist(0, 0)
             else Returned(known);
    var q := if k <= 3 then ToClaim else if k <= 7 then ToInspect(0, 0) else if k <= 10 then ToComplete(0, 0)
             else Processing(0);
    var r := if k <= 4 then ToClaim else if k == 5 then ToInspectOld(0, 0) else if k <= 8 then ToExpireOld(0, 0)
             else if k == 9 then ToReplace(0) else ToCreate(1);
    System(shop, [Request(org, want, p), Request(org, want, q), Request(org, other, r)])
  }

  lemma LatePaymentStep(org: nat, want: Identity, other: Identity, k: nat)
    requires want != other && k < |LATE_PAYMENT|
    ensures Next(PaidLate(org, want, other, k), LATE_PAYMENT[k]) == PaidLate(org, want, other, k + 1)
  {
    var s, t, act := PaidLate(org, want, other, k), PaidLate(org, want, other, k + 1), LATE_PAYMENT[k];
    if act.Continue? {
      var r := s.requests[act.request];
      LatePaymentAdvance(org, want, other, k, s, t, r, act.request);
      assert t.requests == s.requests[act.request := r.(phase := t.requests[act.request].phase)];
    }
  }

  lemma LatePaymentAdvance(
    org: nat, want: Identity, other: Identity, k: nat, s: System, t: System, r: Request, i: nat)
    requires want != other && k < |LATE_PAYMENT| && LATE_PAYMENT[k] == Continue(i, false)
    requires s == PaidLate(org, want, other, k) && t == PaidLate(org, want, other, k + 1) && r == s.requests[i]
    ensures Advance(s.shop, r.org, r.want, r.phase, false) == Progress(t.shop, t.requests[i].phase)
  {
    if k == 3 || k == 4 {
      assert LatestActive(s.shop.attempts, org) == Some(0);
    } else if k == 9 {
      assert MarkIfActive(s.shop.attempts, 0, Replaced) == [t.shop.attempts[0]];
      assert LatestActive([t.shop.attempts[0]], org) == None;
    }
  }

  /** A replaced attempt is completed after all, beside the attempt that replaced it. */
  lemma ReplacedAttemptCompletes(org: nat, want: Identity, other: Identity)
    requires want != other
    ensures var begun := Run(EMPTY, [Begin(org, want), Begin(org, want), Begin(org, other)]);
            && Run(begun, LATE_PAYMENT[..10]).shop.attempts ==
               [Attempt(org, want, Replaced, Some(0)), Attempt(org, other, Pending, None)]
            && Run(begun, LATE_PAYMENT).shop.attempts ==
               [Attempt(org, want, Completed, Some(0)), Attempt(org, other, Pending, None)]
  {
    ThreeBegin(org, want, want, other);
    var states := seq(12, k requires 0 <= k < 12 => PaidLate(org, want, other, k));
    forall k | 0 <= k < |LATE_PAYMENT|
      ensures Next(states[k], LATE_PAYMENT[k]) == states[k + 1]
    {
      LatePaymentStep(org, want, other, k);
    }
    PassesIsRun(states, LATE_PAYMENT);
    PassesIsRun(states[..11], LATE_PAYMENT[..10]);
  }
}
