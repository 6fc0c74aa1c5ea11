/**
  A workspace that changes its mind about the plan must not end up with two payable
  checkout pages. This holds when its requests follow one another (each may crash
  anywhere) and the provider expires sessions when asked; it fails for two requests at once.
 */
module CheckoutPlanChange {
  import opened BillingTypes
  import opened CheckoutModel
  import opened CheckoutProtocol

  /** Every earlier request of the workspace has ended, if only by crashing. */
  predicate Quiet(s: System, org: nat) {
    forall r :: 0 <= r < |s.requests| && s.requests[r].org == org ==> Finished(s.requests[r].phase)
  }

  predicate SessionIs(shop: Shop, sid: nat, status: SessionStatus) {
    sid < |shop.provider.sessions| && shop.provider.sessions[sid].status == status
  }

  /**
    Requests of `org` run one after another, expiring a session does not fail, and the
    webhook speaks only of paid sessions. Payments and lapses may come at any moment.
   */
  predicate Careful(s: System, act: Action, org: nat) {
    match act
    case Begin(o, _) => o == org ==> Quiet(s, org)
    case Continue(r, fault) =>
      r < |s.requests| && s.requests[r].org == org && s.requests[r].phase.ToExpireOld? ==> !fault
    case Confirm(o, sid) => o == org ==> SessionIs(s.shop, sid, Paid)
    case _ => true
  }

  predicate CarefulRun(s: System, acts: seq<Action>, org: nat) {
    acts != [] ==>
      var before := acts[..|acts| - 1];
      CarefulRun(s, before, org) && Careful(Run(s, before), acts[|acts| - 1], org)
  }

  /** The session is recorded on an attempt of the workspace and can still be paid. */
  predicate Payable(shop: Shop, org: nat, id: nat) {
    Owns(shop, org, id) && shop.attempts[id].session.Some? && SessionIs(shop, shop.attempts[id].session.value, Unpaid)
  }

  /** No attempt of the workspace but this one is active. */
  ghost predicate OnlyActive(shop: Shop, org: nat, id: nat) {
    forall a :: 0 <= a < |shop.attempts| && shop.attempts[a].org == org && IsActive(shop.attempts[a]) ==> a == id
  }

  ghost predicate OrderlyShop(shop: Shop, org: nat) {
    && (forall a: nat :: Payable(shop, org, a) ==> IsActive(shop.attempts[a]))
    && (forall i: nat :: BelongsTo(shop, org, i) ==>
          shop.provider.sessions[i].identity == shop.attempts[shop.provider.sessions[i].key].identity)
  }

  predicate Wants(shop: Shop, org: nat, id: nat, want: Identity) {
    Owns(shop, org, id) && shop.attempts[id].identity == want
  }

  /** What a request knows while no other request of its workspace is running. */
  ghost predicate OrderlyPhase(shop: Shop, org: nat, want: Identity, p: Phase) {
    match p
    case ToInspect(id, _) => Wants(shop, org, id, want) && OnlyActive(shop, org, id)
    case ToRecord(id, _) => Wants(shop, org, id, want) && OnlyActive(shop, org, id)
    case ToCreate(id) => Wants(shop, org, id, want)
    case ToPersist(id, _) => Wants(shop, org, id, want)
    case ToComplete(_, sid) => SessionIs(shop, sid, Paid)
    case ToMarkExpired(id) => OnlyActive(shop, org, id) && !Payable(shop, org, id)
    case ToReclaim => forall a :: 0 <= a < |shop.attempts| && shop.attempts[a].org == org ==>
      !IsActive(shop.attempts[a])
    case ToInspectOld(id, _) => OnlyActive(shop, org, id)
    case ToExpireOld(id, _) => OnlyActive(shop, org, id)
    case ToMarkOldExpired(id) => OnlyActive(shop, org, id) && !Payable(shop, org, id)
    case ToReplace(id) => OnlyActive(shop, org, id) && !Payable(shop, org, id)
    case Returned(session) => session.Some? ==> SessionWanted(shop, session.value, want)
    case _ => true
  }

  predicate SessionWanted(shop: Shop, sid: nat, want: Identity) {
    sid < |shop.provider.sessions| && shop.provider.sessions[sid].identity == want
  }

  ghost predicate OneAtATime(s: System, org: nat) {
    forall q, r :: 0 <= q < r < |s.requests| && s.requests[q].org == s.requests[r].org == org ==>
      Finished(s.requests[q].phase) || Finished(s.requests[r].phase)
  }

  ghost predicate Orderly(s: System, org: nat) {
    && OrderlyShop(s.shop, org)
    && OneAtATime(s, org)
    && forall r :: 0 <= r < |s.requests| && s.requests[r].org == org ==>
         OrderlyPhase(s.shop, org, s.requests[r].want, s.requests[r].phase)
  }

  // The steps of the workspace's own request

  ghost predicate OrderlyProgress(next: Progress, org: nat, want: Identity) {
    OrderlyShop(next.shop, org) && OrderlyPhase(next.shop, org, want, next.phase)
  }

  lemma ClaimedShopIsOrderly(shop: Shop, org: nat, want: Identity)
    requires ShopOk(shop) && OrderlyShop(shop, org)
    ensures OrderlyShop(shop.(attempts := ClaimAttempt(shop.attempts, org, want).attempts), org)
  {
    var after := shop.(attempts := ClaimAttempt(shop.attempts, org, want).attempts);
    forall a: nat | Payable(after, org, a)
      ensures IsActive(after.attempts[a])
    {
      assert a < |shop.attempts| ==> Payable(shop, org, a);
    }
    forall i: nat | BelongsTo(after, org, i)
      ensures after.provider.sessions[i].identity == after.attempts[after.provider.sessions[i].key].identity
    {
      assert after.provider.sessions[i].key in shop.provider.byKey;
      assert BelongsTo(shop, org, i);
    }
  }

  lemma ClaimIsOrderly(shop: Shop, org: nat, want: Identity, phase: Phase, fault: bool)
    requires ShopOk(shop) && OrderlyShop(shop, org) && OrderlyPhase(shop, org, want, phase)
    requires phase.ToClaim? || phase.ToReclaim?
    ensures OrderlyProgress(Advance(shop, org, want, phase, fault), org, want)
  {
    if org !in shop.live {
      var c := ClaimAttempt(shop.attempts, org, want);
      ClaimedShopIsOrderly(shop, org, want);
      ClaimIsExclusive(shop, org, want);
      if phase.ToClaim? {
        RouteIsOrderly(shop.(attempts := c.attempts), org, want, c.id);
      }
    }
  }

  lemma ClaimIsExclusive(shop: Shop, org: nat, want: Identity)
    requires ShopOk(shop)
    ensures var c := ClaimAttempt(shop.attempts, org, want);
            && Owns(shop.(attempts := c.attempts), org, c.id) && OnlyActive(shop.(attempts := c.attempts), org, c.id)
  {
  }

  lemma RouteIsOrderly(shop: Shop, org: nat, want: Identity, id: nat)
    requires Owns(shop, org, id) && OnlyActive(shop, org, id)
    ensures OrderlyPhase(shop, org, want, Route(shop.attempts[id], id, want))
  {
  }

  lemma MarkIsOrderly(shop: Shop, org: nat, id: nat, status: AttemptStatus)
    requires ShopOk(shop) && OrderlyShop(shop, org) && Owns(shop, org, id) && OnlyActive(shop, org, id)
    requires !Payable(shop, org, id)
    requires status == Expired || status == Replaced
    ensures var after := shop.(attempts := MarkIfActive(shop.attempts, id, status));
            OrderlyShop(after, org) && !Payable(after, org, id)
            && forall a :: 0 <= a < |after.attempts| && after.attempts[a].org == org ==> !IsActive(after.attempts[a])
  {
    var after := shop.(attempts := MarkIfActive(shop.attempts, id, status));
    assert forall a: nat :: Payable(after, org, a) ==> Payable(shop, org, a);
    forall i: nat | BelongsTo(after, org, i)
      ensures after.provider.sessions[i].identity == after.attempts[after.provider.sessions[i].key].identity
    {
      assert BelongsTo(shop, org, i);
    }
  }

  lemma CompleteIsOrderly(shop: Shop, org: nat, id: nat)
    requires ShopOk(shop) && OrderlyShop(shop, org) && Owns(shop, org, id) && !Payable(shop, org, id)
    ensures OrderlyShop(shop.(attempts := MarkCompleted(shop.attempts, id)), org)
  {
    var after := shop.(attempts := MarkCompleted(shop.attempts, id));
    forall a: nat | Payable(after, org, a)
      ensures IsActive(after.attempts[a])
    {
      assert Payable(shop, org, a);
    }
    forall i: nat | BelongsTo(after, org, i)
      ensures after.provider.sessions[i].identity == after.attempts[after.provider.sessions[i].key].identity
    {
      assert BelongsTo(shop, org, i);
    }
  }

  lemma PersistIsOrderly(shop: Shop, org: nat, want: Identity, id: nat, sid: nat)
    requires ShopOk(shop) && OrderlyShop(shop, org) && Wants(shop, org, id, want) && HeldFor(shop, id, sid)
    requires PersistOpen(shop.attempts, id, sid).Saved?
    ensures var saved := PersistOpen(shop.attempts, id, sid);
            OrderlyProgress(Progress(shop.(attempts := saved.attempts), Returned(saved.session)), org, want)
  {
    var saved := PersistOpen(shop.attempts, id, sid);
    var after := shop.(attempts := saved.attempts);
    forall a: nat | Payable(after, org, a)
      ensures IsActive(after.attempts[a])
    {
      assert a != id ==> Payable(shop, org, a);
      assert Payable(after, org, id) && shop.attempts == after.attempts ==> Payable(shop, org, id);
    }
    forall i: nat | BelongsTo(after, org, i)
      ensures after.provider.sessions[i].identity == after.attempts[after.provider.sessions[i].key].identity
    {
      assert BelongsTo(shop, org, i);
    }
    assert BelongsTo(shop, org, sid);
  }

  lemma CreateIsOrderly(shop: Shop, org: nat, want: Identity, id: nat)
    requires ShopOk(shop) && OrderlyShop(shop, org) && Wants(shop, org, id, want)
    ensures OrderlyShop(shop.(provider := CreateSession(shop.provider, id, want).provider), org)
  {
    var after := shop.(provider := CreateSession(shop.provider, id, want).provider);
    forall a: nat | Payable(after, org, a)
      ensures IsActive(after.attempts[a])
    {
      assert a in shop.provider.byKey;
      assert Payable(shop, org, a);
    }
    forall i: nat | BelongsTo(after, org, i)
      ensures after.provider.sessions[i].identity == after.attempts[after.provider.sessions[i].key].identity
    {
      assert i < |shop.provider.sessions| ==> BelongsTo(shop, org, i);
    }
  }

  lemma SettleIsOrderly(shop: Shop, org: nat, sid: nat)
    requires ShopOk(shop) && OrderlyShop(shop, org)
    ensures OrderlyShop(shop.(provider := ExpireSession(shop.provider, sid)), org)
    ensures OrderlyShop(shop.(provider := PaySession(shop.provider, sid)), org)
  {
    forall after | || after == shop.(provider := ExpireSession(shop.provider, sid))
                   || after == shop.(provider := PaySession(shop.provider, sid))
      ensures OrderlyShop(after, org)
    {
      forall a: nat | Payable(after, org, a)
        ensures IsActive(after.attempts[a])
      {
        assert Payable(shop, org, a);
      }
      forall i: nat | BelongsTo(after, org, i)
        ensures after.provider.sessions[i].identity == after.attempts[after.provider.sessions[i].key].identity
      {
        assert BelongsTo(shop, org, i);
      }
    }
  }

  lemma ReplaceIsOrderly(shop: Shop, org: nat, want: Identity, id: nat, fault: bool)
    requires ShopOk(shop) && OrderlyShop(shop, org) && Owns(shop, org, id)
    requires OrderlyPhase(shop, org, want, ToReplace(id))
    ensures OrderlyProgress(Advance(shop, org, want, ToReplace(id), fault), org, want)
  {
    if org !in shop.live {
      MarkIsSafe(shop, id, Replaced);
      MarkIsOrderly(shop, org, id, Replaced);
      var marked := shop.(attempts := MarkIfActive(shop.attempts, id, Replaced));
      ClaimIsOrderly(marked, org, want, ToReclaim, fault);
    }
  }

  lemma OwnMarkIsOrderly(shop: Shop, org: nat, want: Identity, phase: Phase, fault: bool)
    requires ShopOk(shop) && Remembers(shop, org, phase)
    requires OrderlyShop(shop, org) && OrderlyPhase(shop, org, want, phase)
    requires phase.ToComplete? || phase.ToMarkExpired? || phase.ToMarkOldExpired?
    ensures OrderlyProgress(Advance(shop, org, want, phase, fault), org, want)
  {
    if phase.ToComplete? {
      CompleteIsOrderly(shop, org, phase.id);
    } else {
      MarkIsOrderly(shop, org, phase.id, Expired);
    }
  }

  lemma OwnStepIsOrderly(shop: Shop, org: nat, want: Identity, phase: Phase, fault: bool)
    requires ShopOk(shop) && Remembers(shop, org, phase)
    requires OrderlyShop(shop, org) && OrderlyPhase(shop, org, want, phase)
    requires phase.ToExpireOld? ==> !fault
    ensures OrderlyProgress(Advance(shop, org, want, phase, fault), org, want)
  {
    if phase.ToClaim? || phase.ToReclaim? {
      ClaimIsOrderly(shop, org, want, phase, fault);
    } else if phase.ToReplace? {
      ReplaceIsOrderly(shop, org, want, phase.id, fault);
    } else if phase.ToComplete? || phase.ToMarkExpired? || phase.ToMarkOldExpired? {
      OwnMarkIsOrderly(shop, org, want, phase, fault);
    } else if phase.ToRecord? || phase.ToPersist? {
      OwnPersistIsOrderly(shop, org, want, phase, fault);
    } else {
      OwnCallIsOrderly(shop, org, want, phase, fault);
    }
  }

  lemma OwnPersistIsOrderly(shop: Shop, org: nat, want: Identity, phase: Phase, fault: bool)
    requires ShopOk(shop) && Remembers(shop, org, phase)
    requires OrderlyShop(shop, org) && OrderlyPhase(shop, org, want, phase)
    requires phase.ToRecord? || phase.ToPersist?
    ensures OrderlyProgress(Advance(shop, org, want, phase, fault), org, want)
  {
    assert BelongsTo(shop, org, phase.sid);
    if PersistOpen(shop.attempts, phase.id, phase.sid).Saved? {
      PersistIsOrderly(shop, org, want, phase.id, phase.sid);
    }
  }

  /** Calls of the provider, and requests that are done. */
  lemma OwnCallIsOrderly(shop: Shop, org: nat, want: Identity, phase: Phase, fault: bool)
    requires ShopOk(shop) && Remembers(shop, org, phase)
    requires OrderlyShop(shop, org) && OrderlyPhase(shop, org, want, phase)
    requires phase.ToCreate? || phase.ToExpireOld? || phase.ToInspect? || phase.ToInspectOld? || Finished(phase)
    requires phase.ToExpireOld? ==> !fault
    ensures OrderlyProgress(Advance(shop, org, want, phase, fault), org, want)
  {
    if phase.ToCreate? {
      CreateIsOrderly(shop, org, want, phase.id);
    } else if phase.ToExpireOld? {
      ExpireOldIsOrderly(shop, org, want, phase.id, phase.sid);
    } else if phase.ToInspect? {
      InspectIsOrderly(shop, org, want, phase.id, phase.sid, fault);
    } else if phase.ToInspectOld? {
      InspectOldIsOrderly(shop, org, want, phase.id, phase.sid, fault);
    }
  }

  lemma ExpireOldIsOrderly(shop: Shop, org: nat, want: Identity, id: nat, sid: nat)
    requires ShopOk(shop) && RecordedAs(shop, org, id, sid) && OrderlyShop(shop, org) && OnlyActive(shop, org, id)
    ensures OrderlyProgress(Advance(shop, org, want, ToExpireOld(id, sid), false), org, want)
  {
    SettleIsOrderly(shop, org, sid);
    var after := shop.(provider := ExpireSession(shop.provider, sid));
    assert OnlyActive(after, org, id) && !Payable(after, org, id);
  }

  lemma InspectIsOrderly(shop: Shop, org: nat, want: Identity, id: nat, sid: nat, fault: bool)
    requires RecordedAs(shop, org, id, sid) && OrderlyPhase(shop, org, want, ToInspect(id, sid))
    ensures OrderlyPhase(shop, org, want, Advance(shop, org, want, ToInspect(id, sid), fault).phase)
  {}

  lemma InspectOldIsOrderly(shop: Shop, org: nat, want: Identity, id: nat, sid: nat, fault: bool)
    requires RecordedAs(shop, org, id, sid) && OrderlyPhase(shop, org, want, ToInspectOld(id, sid))
    ensures OrderlyPhase(shop, org, want, Advance(shop, org, want, ToInspectOld(id, sid), fault).phase)
  {}

  // Everything else that may happen meanwhile

  /** The workspace's attempts are as before, except that one with a settled session may have been completed. */
  ghost predicate Undisturbed(before: Shop, after: Shop, org: nat) {
    && Evolves(before, after)
    && (forall a :: |before.attempts| <= a < |after.attempts| ==> after.attempts[a].org != org)
    && (forall i :: |before.provider.sessions| <= i < |after.provider.sessions| ==> !BelongsTo(after, org, i))
    && (forall a :: 0 <= a < |before.attempts| && before.attempts[a].org == org ==>
          after.attempts[a] == before.attempts[a]
          || (after.attempts[a] == before.attempts[a].(status := Completed) && !Payable(before, org, a)))
  }

  lemma StillUnpayable(before: Shop, after: Shop, org: nat, id: nat)
    requires ShopOk(before) && Undisturbed(before, after, org) && Owns(before, org, id)
    requires Payable(after, org, id)
    ensures Payable(before, org, id)
  {
    assert AttemptEvolves(before.attempts[id], after.attempts[id]);
    assert after.attempts[id].session == before.attempts[id].session;
    var sid := before.attempts[id].session.value;
    assert SessionEvolves(before.provider.sessions[sid], after.provider.sessions[sid]);
  }

  lemma ShopStaysOrderly(before: Shop, after: Shop, org: nat)
    requires ShopOk(before) && OrderlyShop(before, org) && Undisturbed(before, after, org)
    ensures OrderlyShop(after, org)
  {
    forall a: nat | Payable(after, org, a)
      ensures IsActive(after.attempts[a])
    {
      assert a < |before.attempts| && AttemptEvolves(before.attempts[a], after.attempts[a]);
      StillUnpayable(before, after, org, a);
    }
    forall i: nat | BelongsTo(after, org, i)
      ensures after.provider.sessions[i].identity == after.attempts[after.provider.sessions[i].key].identity
    {
      assert i < |before.provider.sessions|;
      assert SessionEvolves(before.provider.sessions[i], after.provider.sessions[i]);
      var key := before.provider.sessions[i].key;
      assert key in before.provider.byKey;
      assert AttemptEvolves(before.attempts[key], after.attempts[key]);
      assert BelongsTo(before, org, i);
    }
  }

  lemma PhaseStaysOrderly(before: Shop, after: Shop, org: nat, want: Identity, p: Phase)
    requires ShopOk(before) && Remembers(before, org, p) && OrderlyPhase(before, org, want, p)
    requires Undisturbed(before, after, org)
    ensures OrderlyPhase(after, org, want, p)
  {
    if p.ToComplete? {
      assert SessionEvolves(before.provider.sessions[p.sid], after.provider.sessions[p.sid]);
    } else if p.Returned? && p.session.Some? {
      assert SessionEvolves(before.provider.sessions[p.session.value], after.provider.sessions[p.session.value]);
    } else if !Finished(p) && !p.ToClaim? {
      forall a | 0 <= a < |after.attempts| && after.attempts[a].org == org && IsActive(after.attempts[a])
        ensures a < |before.attempts| && before.attempts[a].org == org && IsActive(before.attempts[a])
      {
        assert a < |before.attempts| && AttemptEvolves(before.attempts[a], after.attempts[a]);
      }
      if !p.ToReclaim? {
        assert AttemptEvolves(before.attempts[p.id], after.attempts[p.id]);
        if Payable(after, org, p.id) { StillUnpayable(before, after, org, p.id); }
      }
    }
  }

  lemma ElsewhereIsUndisturbed(before: Shop, after: Shop, other: nat, org: nat)
    requires other != org && Isolated(before, after, other) && Evolves(before, after)
    ensures Undisturbed(before, after, org)
  {
    forall i | |before.provider.sessions| <= i < |after.provider.sessions|
      ensures !BelongsTo(after, org, i)
    {
      assert BelongsTo(after, other, i);
    }
  }

  lemma ConfirmIsUndisturbed(shop: Shop, o: nat, sid: nat, org: nat)
    requires ShopOk(shop) && (o == org ==> SessionIs(shop, sid, Paid))
    requires Evolves(shop, shop.(attempts := CompleteForSession(shop.attempts, o, sid)))
    ensures Undisturbed(shop, shop.(attempts := CompleteForSession(shop.attempts, o, sid)), org)
  {
  }

  lemma OthersDoNotDisturb(s: System, act: Action, org: nat)
    requires Safe(s) && Careful(s, act, org) && Evolves(s.shop, Next(s, act).shop)
    requires act.Continue? && act.request < |s.requests| ==> s.requests[act.request].org != org
    ensures Undisturbed(s.shop, Next(s, act).shop, org)
  {
    if act.Continue? && act.request < |s.requests| {
      var r := s.requests[act.request];
      AdvanceIsIsolated(s.shop, r.org, r.want, r.phase, act.fault);
      ElsewhereIsUndisturbed(s.shop, Next(s, act).shop, r.org, org);
    } else if act.Confirm? {
      ConfirmIsUndisturbed(s.shop, act.org, act.sid, org);
    } else {
      assert Next(s, act).shop.attempts == s.shop.attempts;
    }
  }

  lemma NextIsOrderly(s: System, act: Action, org: nat)
    requires Safe(s) && Orderly(s, org) && Careful(s, act, org)
    ensures Orderly(Next(s, act), org)
  {
    var after := Next(s, act);
    ShopIsSafe(s, act);
    if act.Continue? && act.request < |s.requests| && s.requests[act.request].org == org {
      OwnContinueIsOrderly(s, act.request, act.fault, org);
    } else {
      OthersDoNotDisturb(s, act, org);
      ShopStaysOrderly(s.shop, after.shop, org);
      forall r | 0 <= r < |after.requests| && after.requests[r].org == org
        ensures OrderlyPhase(after.shop, org, after.requests[r].want, after.requests[r].phase)
      {
        if r < |s.requests| && after.requests[r] == s.requests[r] {
          PhaseStaysOrderly(s.shop, after.shop, org, s.requests[r].want, s.requests[r].phase);
        }
      }
    }
  }

  lemma OwnContinueIsOrderly(s: System, i: nat, fault: bool, org: nat)
    requires Safe(s) && Orderly(s, org) && i < |s.requests| && s.requests[i].org == org
    requires Careful(s, Continue(i, fault), org)
    requires Evolves(s.shop, Next(s, Continue(i, fault)).shop)
    ensures Orderly(Next(s, Continue(i, fault)), org)
  {
    var after := Next(s, Continue(i, fault));
    var q := s.requests[i];
    if Finished(q.phase) {
      assert after.requests == s.requests;
    } else {
      OwnStepIsOrderly(s.shop, org, q.want, q.phase, fault);
      forall r | 0 <= r < |after.requests| && r != i && after.requests[r].org == org
        ensures OrderlyPhase(after.shop, org, after.requests[r].want, after.requests[r].phase)
        ensures Finished(after.requests[r].phase)
      {
        var p := s.requests[r].phase;
        assert Finished(p);
        if p.Returned? && p.session.Some? {
          var sid := p.session.value;
          assert SessionEvolves(s.shop.provider.sessions[sid], after.shop.provider.sessions[sid]);
        }
      }
      assert OneAtATime(after, org);
    }
  }

  predicate AnswersItsRequest(shop: Shop, r: Request) {
    r.phase.Returned? && r.phase.session.Some? ==> SessionWanted(shop, r.phase.session.value, r.want)
  }

  lemma {:induction false} CarefulRunsAreOrderly(acts: seq<Action>, org: nat)
    requires CarefulRun(EMPTY, acts, org)
    ensures Safe(Run(EMPTY, acts)) && Orderly(Run(EMPTY, acts), org)
  {
    RunsAreSafe(EMPTY, acts);
    if acts != [] {
      var before := acts[..|acts| - 1];
      CarefulRunsAreOrderly(before, org);
      NextIsOrderly(Run(EMPTY, before), acts[|acts| - 1], org);
    }
  }

  /**
    A workspace never has two recorded sessions that can still be paid, and the
    session it is sent to is for the plan, interval, market and coupon it asked for.
   */
  lemma AtMostOnePayableSession(acts: seq<Action>, org: nat)
    requires CarefulRun(EMPTY, acts, org)
    ensures var s := Run(EMPTY, acts);
            && (forall a: nat, b: nat :: Payable(s.shop, org, a) && Payable(s.shop, org, b) ==> a == b)
            && (forall r :: 0 <= r < |s.requests| && s.requests[r].org == org ==>
                  AnswersItsRequest(s.shop, s.requests[r]))
  {
    CarefulRunsAreOrderly(acts, org);
    var shop := Run(EMPTY, acts).shop;
    forall a: nat, b: nat | Payable(shop, org, a) && Payable(shop, org, b)
      ensures a == b
    {
      assert IsActive(shop.attempts[a]) && IsActive(shop.attempts[b]);
    }
  }

  // Two requests at once

  /** Requests 0 and 1; the second claims before the first has recorded its session, and replaces after. */
  const OVERLAP: seq<Action> := [
    Continue(0, false), Continue(1, false), Continue(0, false), Continue(0, false),
    Continue(1, false), Continue(1, false), Continue(1, false)]

  /** The system after the first k of those steps. */
  function Overlapped(org: nat, first: Identity, second: Identity, k: nat): System {
    var a, b := Attempt(org, first, Pending, None), Attempt(org, second, Pending, None);
    var none, one := EMPTY.shop.provider, Provider([Session(0, first, Unpaid)], map[0 := 0]);
    var two := Provider([Session(0, first, Unpaid), Session(1, second, Unpaid)], map[0 := 0, 1 := 1]);
    var replaced := Attempt(org, first, Replaced, Some(0));
    if k == 0 then Pair(org, first, second, [], none, ToClaim, ToClaim)
    else if k == 1 then Pair(org, first, second, [a], none, ToCreate(0), ToClaim)
    else if k == 2 then Pair(org, first, second, [a], none, ToCreate(0), ToReplace(0))
    else if k == 3 then Pair(org, first, second, [a], one, ToPersist(0, 0), ToReplace(0))
    else if k == 4 then
      Pair(org, first, second, [a.(status := Open, session := Some(0))], one, Returned(Some(0)), ToReplace(0))
    else if k == 5 then Pair(org, first, second, [replaced, b], one, Returned(Some(0)), ToCreate(1))
    else if k == 6 then Pair(org, first, second, [replaced, b], two, Returned(Some(0)), ToPersist(1, 1))
    else
      Pair(org, first, second, [replaced, b.(status := Open, session := Some(1))], two,
           Returned(Some(0)), Returned(Some(1)))
  }

  function Pair(org: nat, first: Identity, second: Identity, attempts: seq<Attempt>, provider: Provider, p: Phase,
          q: Phase): System {
    System(Shop(attempts, provider, {}), [Request(org, first, p), Request(org, second, q)])
  }

  lemma OverlapsStep(org: nat, first: Identity, second: Identity, k: nat)
    requires first != second && k < |OVERLAP|
    ensures Next(Overlapped(org, first, second, k), OVERLAP[k]) == Overlapped(org, first, second, k + 1)
  {
    var s, t, i := Overlapped(org, first, second, k), Overlapped(org, first, second, k + 1), OVERLAP[k].request;
    var r := s.requests[i];
    OverlapsAdvance(org, first, second, k, s, t, r, i);
    assert t.requests == s.requests[i := r.(phase := t.requests[i].phase)];
  }

  lemma OverlapsAdvance(
    org: nat, first: Identity, second: Identity, k: nat, s: System, t: System, r: Request, i: nat)
    requires first != second && k < |OVERLAP| && OVERLAP[k] == Continue(i, false)
    requires s == Overlapped(org, first, second, k) && t == Overlapped(org, first, second, k + 1) && r == s.requests[i]
    ensures Advance(s.shop, r.org, r.want, r.phase, false) == Progress(t.shop, t.requests[i].phase)
  {
    if k == 1 {
      assert LatestActive(s.shop.attempts, org) == Some(0);
    } else if k == 4 {
      assert MarkIfActive(s.shop.attempts, 0, Replaced) == [t.shop.attempts[0]];
      assert LatestActive([t.shop.attempts[0]], org) == None;
    }
  }

  lemma TwoBegin(org: nat, first: Identity, second: Identity)
    ensures Run(EMPTY, [Begin(org, first), Begin(org, second)]) == Overlapped(org, first, second, 0)
  {
    var a, b := Request(org, first, ToClaim), Request(org, second, ToClaim);
    PassesIsRun([EMPTY, System(EMPTY.shop, [a]), System(EMPTY.shop, [a, b])], [Begin(org, first), Begin(org, second)]);
  }

  lemma OverlapEnds(org: nat, first: Identity, second: Identity)
    requires first != second
    ensures Run(Run(EMPTY, [Begin(org, first), Begin(org, second)]), OVERLAP) == Overlapped(org, first, second, 7)
  {
    TwoBegin(org, first, second);
    var states := seq(8, k requires 0 <= k < 8 => Overlapped(org, first, second, k));
    forall k | 0 <= k < |OVERLAP|
      ensures Next(states[k], OVERLAP[k]) == states[k + 1]
    {
      OverlapsStep(org, first, second, k);
    }
    PassesIsRun(states, OVERLAP);
  }

  /** With nothing failing, two overlapping requests for different plans leave two payable sessions. */
  lemma OverlappingRequestsLeaveTwo(org: nat, first: Identity, second: Identity)
    requires first != second
    ensures var begun := Run(EMPTY, [Begin(org, first), Begin(org, second)]);
            Payable(Run(begun, OVERLAP).shop, org, 0) && Payable(Run(begun, OVERLAP).shop, org, 1)
  {
    OverlapEnds(org, first, second);
  }
}
