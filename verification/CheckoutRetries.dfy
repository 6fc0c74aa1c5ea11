/**
  Repeating a checkout request, at once or after a crash, opens no second session:
  the attempt and its idempotency key outlive the request that claimed them.
 */
module CheckoutRetries {
  import opened CheckoutModel
  import opened CheckoutProtocol

  /**
    In workspace `org` every request asks for `want`, and its session is neither
    paid nor lapses. Other workspaces do as they like.
   */
  predicate Calm(s: System, act: Action, org: nat, want: Identity) {
    match act
    case Begin(o, w) => o == org ==> w == want
    case Pay(sid) => !BelongsTo(s.shop, org, sid)
    case Lapse(sid) => !BelongsTo(s.shop, org, sid)
    case Confirm(o, _) => o != org
    case _ => true
  }

  predicate CalmRun(s: System, acts: seq<Action>, org: nat, want: Identity) {
    acts != [] ==>
      var before := acts[..|acts| - 1];
      CalmRun(s, before, org, want) && Calm(Run(s, before), acts[|acts| - 1], org, want)
  }

  predicate CalmPhase(p: Phase) {
    p.ToClaim? || p.ToInspect? || p.ToRecord? || p.ToCreate? || p.ToPersist? || p.Returned? || p.Failed? || p.Crashed?
  }

  ghost predicate CalmShop(shop: Shop, org: nat, want: Identity) {
    && (forall a :: 0 <= a < |shop.attempts| && shop.attempts[a].org == org ==>
          shop.attempts[a].identity == want && IsActive(shop.attempts[a]))
    && (forall i :: 0 <= i < |shop.provider.sessions| && BelongsTo(shop, org, i) ==>
          shop.provider.sessions[i].status == Unpaid)
  }

  ghost predicate CalmRequests(s: System, org: nat, want: Identity) {
    forall i :: 0 <= i < |s.requests| && s.requests[i].org == org ==>
      s.requests[i].want == want && CalmPhase(s.requests[i].phase)
      && (s.requests[i].phase.Returned? ==> s.requests[i].phase.session.Some?)
  }

  ghost predicate CalmProgress(next: Progress, org: nat, want: Identity) {
    && CalmShop(next.shop, org, want) && CalmPhase(next.phase)
    && (next.phase.Returned? ==> next.phase.session.Some?)
  }

  lemma CalmClaim(shop: Shop, org: nat, want: Identity, fault: bool)
    requires CalmShop(shop, org, want)
    requires ShopOk(shop)
    ensures CalmProgress(Advance(shop, org, want, ToClaim, fault), org, want)
  {
    var c := ClaimAttempt(shop.attempts, org, want);
    assert c.attempts[c.id].identity == want;
    assert CalmShop(shop.(attempts := c.attempts), org, want);
  }

  lemma CalmCreate(shop: Shop, org: nat, want: Identity, id: nat, fault: bool)
    requires ShopOk(shop) && CalmShop(shop, org, want) && Owns(shop, org, id)
    ensures CalmProgress(Advance(shop, org, want, ToCreate(id), fault), org, want)
  {
  }

  lemma CalmAdvance(shop: Shop, org: nat, want: Identity, phase: Phase, fault: bool)
    requires ShopOk(shop) && CalmShop(shop, org, want) && Remembers(shop, org, phase) && CalmPhase(phase)
    requires phase.Returned? ==> phase.session.Some?
    ensures CalmProgress(Advance(shop, org, want, phase, fault), org, want)
  {
    if phase.ToClaim? {
      CalmClaim(shop, org, want, fault);
    } else if phase.ToCreate? {
      CalmCreate(shop, org, want, phase.id, fault);
    } else if phase.ToInspect? {
      assert BelongsTo(shop, org, phase.sid);
      assert Advance(shop, org, want, phase, fault).shop == shop;
    } else if phase.ToRecord? || phase.ToPersist? {
      assert IsActive(shop.attempts[phase.id]);
    }
  }

  lemma CalmElsewhere(before: Shop, after: Shop, other: nat, org: nat, want: Identity)
    requires other != org && CalmShop(before, org, want) && ShopOk(before)
    requires Isolated(before, after, other) && Evolves(before, after)
    ensures CalmShop(after, org, want)
  {
    forall a | 0 <= a < |after.attempts| && after.attempts[a].org == org
      ensures after.attempts[a].identity == want && IsActive(after.attempts[a])
    {
      assert a < |before.attempts| && AttemptEvolves(before.attempts[a], after.attempts[a]);
    }
    forall i | 0 <= i < |after.provider.sessions| && BelongsTo(after, org, i)
      ensures after.provider.sessions[i].status == Unpaid
    {
      assert i < |before.provider.sessions| || BelongsTo(after, other, i);
      var key := before.provider.sessions[i].key;
      assert SessionEvolves(before.provider.sessions[i], after.provider.sessions[i]);
      assert key in before.provider.byKey;
      assert AttemptEvolves(before.attempts[key], after.attempts[key]);
      assert BelongsTo(before, org, i) && !BelongsTo(before, other, i);
    }
  }

  lemma CalmNext(s: System, act: Action, org: nat, want: Identity)
    requires Safe(s) && CalmShop(s.shop, org, want) && CalmRequests(s, org, want) && Calm(s, act, org, want)
    ensures CalmShop(Next(s, act).shop, org, want) && CalmRequests(Next(s, act), org, want)
  {
    if act.Continue? && act.request < |s.requests| {
      CalmContinue(s, act.request, act.fault, org, want);
    }
  }

  lemma CalmContinue(s: System, i: nat, fault: bool, org: nat, want: Identity)
    requires Safe(s) && CalmShop(s.shop, org, want) && CalmRequests(s, org, want) && i < |s.requests|
    ensures CalmShop(Next(s, Continue(i, fault)).shop, org, want)
    ensures CalmRequests(Next(s, Continue(i, fault)), org, want)
  {
    var r := s.requests[i];
    if r.org == org {
      CalmAdvance(s.shop, org, want, r.phase, fault);
    } else {
      AdvanceIsSafe(s.shop, r.org, r.want, r.phase, fault);
      AdvanceIsIsolated(s.shop, r.org, r.want, r.phase, fault);
      CalmElsewhere(s.shop, Next(s, Continue(i, fault)).shop, r.org, org, want);
    }
  }

  lemma {:induction false} CalmRunsStayCalm(acts: seq<Action>, org: nat, want: Identity)
    requires CalmRun(EMPTY, acts, org, want)
    ensures Safe(Run(EMPTY, acts))
    ensures CalmShop(Run(EMPTY, acts).shop, org, want) && CalmRequests(Run(EMPTY, acts), org, want)
  {
    RunsAreSafe(EMPTY, acts);
    if acts != [] {
      var before := acts[..|acts| - 1];
      CalmRunsStayCalm(before, org, want);
      CalmNext(Run(EMPTY, before), acts[|acts| - 1], org, want);
    }
  }

  /**
    However many equal requests a workspace makes, wherever they crash and however
    they interleave, the provider holds at most one session for it, and every
    request that gets an answer gets that session.
   */
  lemma RetriesShareOneSession(acts: seq<Action>, org: nat, want: Identity)
    requires CalmRun(EMPTY, acts, org, want)
    ensures var s := Run(EMPTY, acts);
            && (forall i: nat, j: nat :: BelongsTo(s.shop, org, i) && BelongsTo(s.shop, org, j) ==> i == j)
            && (forall r :: 0 <= r < |s.requests| && s.requests[r].org == org && s.requests[r].phase.Returned? ==>
                  s.requests[r].phase.session.Some? && BelongsTo(s.shop, org, s.requests[r].phase.session.value))
  {
    CalmRunsStayCalm(acts, org, want);
    var shop := Run(EMPTY, acts).shop;
    forall i: nat, j: nat | BelongsTo(shop, org, i) && BelongsTo(shop, org, j)
      ensures i == j
    {
      var a, b := shop.provider.sessions[i].key, shop.provider.sessions[j].key;
      assert shop.attempts[a].org == shop.attempts[b].org == org;
      assert IsActive(shop.attempts[a]) && IsActive(shop.attempts[b]);
      assert a == b;
      assert shop.provider.byKey[a] == i && shop.provider.byKey[b] == j;
    }
  }
}
