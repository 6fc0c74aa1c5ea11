/**
  Checkout requests of any number of workspaces, interleaved between their
  transactions and provider calls, each allowed to crash anywhere, while
  customers pay, sessions lapse and webhooks arrive.
 */
module CheckoutProtocol {
  import opened BillingTypes
  import opened CheckoutModel

  datatype Request = Request(org: nat, want: Identity, phase: Phase)

  datatype System = System(shop: Shop, requests: seq<Request>)

  /** Confirm is the webhook of a finished checkout; Live and Idle are billing changing state. */
  datatype Action =
    | Begin(org: nat, want: Identity)
    | Continue(request: nat, fault: bool)
    | Crash(request: nat)
    | Pay(sid: nat)
    | Lapse(sid: nat)
    | Confirm(org: nat, sid: nat)
    | Live(org: nat)
    | Idle(org: nat)

  const EMPTY := System(Shop([], Provider([], map[]), {}), [])

  function Next(s: System, act: Action): System {
    match act
    case Begin(org, want) => s.(requests := s.requests + [Request(org, want, ToClaim)])
    case Continue(i, fault) =>
      if i >= |s.requests| then s else
        var r := s.requests[i];
        var next := Advance(s.shop, r.org, r.want, r.phase, fault);
        System(next.shop, s.requests[i := r.(phase := next.phase)])
    case Crash(i) =>
      if i >= |s.requests| || Finished(s.requests[i].phase) then s
      else s.(requests := s.requests[i := s.requests[i].(phase := Crashed)])
    case Pay(sid) => s.(shop := s.shop.(provider := PaySession(s.shop.provider, sid)))
    case Lapse(sid) => s.(shop := s.shop.(provider := ExpireSession(s.shop.provider, sid)))
    case Confirm(org, sid) => s.(shop := s.shop.(attempts := CompleteForSession(s.shop.attempts, org, sid)))
    case Live(org) => s.(shop := s.shop.(live := s.shop.live + {org}))
    case Idle(org) => s.(shop := s.shop.(live := s.shop.live - {org}))
  }

  function Run(s: System, acts: seq<Action>): System {
    if acts == [] then s else Next(Run(s, acts[..|acts| - 1]), acts[|acts| - 1])
  }

  /** The states a run passes through, one more than its actions. */
  predicate Passes(states: seq<System>, acts: seq<Action>) {
    |states| == |acts| + 1 && forall k :: 0 <= k < |acts| ==> Next(states[k], acts[k]) == states[k + 1]
  }

  lemma {:induction false} PassesIsRun(states: seq<System>, acts: seq<Action>)
    requires Passes(states, acts)
    ensures Run(states[0], acts) == states[|acts|]
  {
    if acts != [] {
      PassesIsRun(states[..|acts|], acts[..|acts| - 1]);
    }
  }

  // What holds between the steps

  /** The provider's sessions and the keys they were created under correspond one to one. */
  ghost predicate KeysMatch(p: Provider) {
    && (forall k :: k in p.byKey ==> p.byKey[k] < |p.sessions| && p.sessions[p.byKey[k]].key == k)
    && (forall i :: 0 <= i < |p.sessions| ==> p.sessions[i].key in p.byKey && p.byKey[p.sessions[i].key] == i)
  }

  /** A recorded session is the one the provider holds for the attempt's key. */
  ghost predicate RecordsMatch(shop: Shop) {
    && (forall k :: k in shop.provider.byKey ==> k < |shop.attempts|)
    && (forall a :: 0 <= a < |shop.attempts| && shop.attempts[a].session.Some? ==>
          a in shop.provider.byKey && shop.provider.byKey[a] == shop.attempts[a].session.value)
  }

  ghost predicate OneActive(attempts: seq<Attempt>) {
    forall a, b :: 0 <= a < b < |attempts| && attempts[a].org == attempts[b].org && IsActive(attempts[a]) ==>
      !IsActive(attempts[b])
  }

  ghost predicate ShopOk(shop: Shop) {
    KeysMatch(shop.provider) && RecordsMatch(shop) && OneActive(shop.attempts)
  }

  predicate Owns(shop: Shop, org: nat, id: nat) {
    id < |shop.attempts| && shop.attempts[id].org == org
  }

  predicate RecordedAs(shop: Shop, org: nat, id: nat, sid: nat) {
    Owns(shop, org, id) && shop.attempts[id].session == Some(sid)
  }

  predicate HeldFor(shop: Shop, id: nat, sid: nat) {
    id in shop.provider.byKey && shop.provider.byKey[id] == sid
  }

  /** The session was created for an attempt of this workspace. */
  predicate BelongsTo(shop: Shop, org: nat, sid: nat) {
    sid < |shop.provider.sessions| && Owns(shop, org, shop.provider.sessions[sid].key)
  }

  /** What a request remembers from its earlier steps is still so, and concerns its own workspace. */
  predicate Remembers(shop: Shop, org: nat, p: Phase) {
    match p
    case ToInspect(id, sid) => RecordedAs(shop, org, id, sid)
    case ToComplete(id, sid) => RecordedAs(shop, org, id, sid)
    case ToRecord(id, sid) => RecordedAs(shop, org, id, sid)
    case ToInspectOld(id, sid) => RecordedAs(shop, org, id, sid)
    case ToExpireOld(id, sid) => RecordedAs(shop, org, id, sid)
    case ToMarkExpired(id) => Owns(shop, org, id)
    case ToMarkOldExpired(id) => Owns(shop, org, id)
    case ToReplace(id) => Owns(shop, org, id)
    case ToCreate(id) => Owns(shop, org, id)
    case ToPersist(id, sid) => Owns(shop, org, id) && HeldFor(shop, id, sid)
    case Returned(session) => session.Some? ==> BelongsTo(shop, org, session.value)
    case Processing(sid) => BelongsTo(shop, org, sid)
    case _ => true
  }

  ghost predicate Safe(s: System) {
    && ShopOk(s.shop)
    && forall i :: 0 <= i < |s.requests| ==> Remembers(s.shop, s.requests[i].org, s.requests[i].phase)
  }

  /** How an attempt may change: COMPLETED is final, REPLACED and EXPIRED never go back to PENDING. */
  predicate AttemptEvolves(a: Attempt, b: Attempt) {
    && a.org == b.org && a.identity == b.identity
    && (a.session.Some? ==> b.session == a.session)
    && (a.status == Completed ==> b.status == Completed)
    && (a.status == Replaced ==> b.status == Replaced || b.status == Completed)
    && (b.status == Pending ==> a.status == Pending)
  }

  predicate SessionEvolves(a: Session, b: Session) {
    && a.key == b.key && a.identity == b.identity
    && (a.status == b.status || a.status == Unpaid)
  }

  ghost predicate Evolves(before: Shop, after: Shop) {
    && |before.attempts| <= |after.attempts|
    && (forall a :: 0 <= a < |before.attempts| ==> AttemptEvolves(before.attempts[a], after.attempts[a]))
    && |before.provider.sessions| <= |after.provider.sessions|
    && (forall i :: 0 <= i < |before.provider.sessions| ==>
          SessionEvolves(before.provider.sessions[i], after.provider.sessions[i]))
    && (forall k :: k in before.provider.byKey ==>
          k in after.provider.byKey && after.provider.byKey[k] == before.provider.byKey[k])
  }

  // One transaction or provider call

  lemma ClaimIsSafe(shop: Shop, org: nat, want: Identity)
    requires ShopOk(shop)
    ensures var c := ClaimAttempt(shop.attempts, org, want);
            var after := shop.(attempts := c.attempts);
            ShopOk(after) && Evolves(shop, after)
  {
  }

  lemma MarkIsSafe(shop: Shop, id: nat, status: AttemptStatus)
    requires ShopOk(shop)
    requires status == Expired || status == Replaced
    ensures var after := shop.(attempts := MarkIfActive(shop.attempts, id, status));
            ShopOk(after) && Evolves(shop, after)
  {
  }

  lemma CompleteIsSafe(shop: Shop, id: nat)
    requires ShopOk(shop)
    ensures var after := shop.(attempts := MarkCompleted(shop.attempts, id));
            ShopOk(after) && Evolves(shop, after)
  {
  }

  lemma PersistIsSafe(shop: Shop, id: nat, sid: nat)
    requires ShopOk(shop) && HeldFor(shop, id, sid)
    requires PersistOpen(shop.attempts, id, sid).Saved?
    ensures var saved := PersistOpen(shop.attempts, id, sid);
            var after := shop.(attempts := saved.attempts);
            ShopOk(after) && Evolves(shop, after)
            && (saved.session.Some? ==> saved.session == Some(sid))
  {
  }

  lemma CreateIsSafe(shop: Shop, id: nat, want: Identity)
    requires ShopOk(shop) && id < |shop.attempts|
    ensures var made := CreateSession(shop.provider, id, want);
            var after := shop.(provider := made.provider);
            ShopOk(after) && Evolves(shop, after) && HeldFor(after, id, made.sid)
  {
    CreateKeepsKeys(shop.provider, id, want);
  }

  lemma CreateKeepsKeys(p: Provider, id: nat, want: Identity)
    requires KeysMatch(p)
    ensures var made := CreateSession(p, id, want);
            && KeysMatch(made.provider) && id in made.provider.byKey && made.provider.byKey[id] == made.sid
            && made.provider.byKey.Keys == p.byKey.Keys + {id} && p.sessions <= made.provider.sessions
            && forall k :: k in p.byKey ==> made.provider.byKey[k] == p.byKey[k]
  {}

  lemma ExpireIsSafe(shop: Shop, sid: nat)
    requires ShopOk(shop)
    ensures var after := shop.(provider := ExpireSession(shop.provider, sid));
            ShopOk(after) && Evolves(shop, after)
  {
    var after := shop.(provider := ExpireSession(shop.provider, sid));
    assert KeysMatch(after.provider);
  }

  lemma PayIsSafe(shop: Shop, sid: nat)
    requires ShopOk(shop)
    ensures var after := shop.(provider := PaySession(shop.provider, sid));
            ShopOk(after) && Evolves(shop, after)
  {
    var after := shop.(provider := PaySession(shop.provider, sid));
    assert KeysMatch(after.provider);
  }

  lemma EvolvesNot(shop: Shop)
    ensures Evolves(shop, shop)
  {
  }

  lemma EvolvesTwice(a: Shop, b: Shop, c: Shop)
    requires Evolves(a, b) && Evolves(b, c)
    ensures Evolves(a, c)
  {
    forall i | 0 <= i < |a.attempts|
      ensures AttemptEvolves(a.attempts[i], c.attempts[i])
    {
      assert AttemptEvolves(a.attempts[i], b.attempts[i]);
      assert AttemptEvolves(b.attempts[i], c.attempts[i]);
    }
    forall i | 0 <= i < |a.provider.sessions|
      ensures SessionEvolves(a.provider.sessions[i], c.provider.sessions[i])
    {
      assert SessionEvolves(a.provider.sessions[i], b.provider.sessions[i]);
      assert SessionEvolves(b.provider.sessions[i], c.provider.sessions[i]);
    }
  }

  lemma StillBelongs(before: Shop, after: Shop, org: nat, sid: nat)
    requires Evolves(before, after) && BelongsTo(before, org, sid)
    ensures BelongsTo(after, org, sid)
  {
    var key := before.provider.sessions[sid].key;
    assert SessionEvolves(before.provider.sessions[sid], after.provider.sessions[sid]);
    assert AttemptEvolves(before.attempts[key], after.attempts[key]);
  }

  lemma StillRemembers(before: Shop, after: Shop, org: nat, p: Phase)
    requires Evolves(before, after) && Remembers(before, org, p)
    ensures Remembers(after, org, p)
  {
    if p.Returned? && p.session.Some? {
      StillBelongs(before, after, org, p.session.value);
    } else if p.Processing? {
      StillBelongs(before, after, org, p.sid);
    } else if !Finished(p) && !p.ToClaim? && !p.ToReclaim? {
      assert AttemptEvolves(before.attempts[p.id], after.attempts[p.id]);
    }
  }

  ghost predicate SafeStep(before: Shop, org: nat, next: Progress) {
    ShopOk(next.shop) && Evolves(before, next.shop) && Remembers(next.shop, org, next.phase)
  }

  lemma ClaimStep(shop: Shop, org: nat, want: Identity, phase: Phase, fault: bool)
    requires ShopOk(shop) && Remembers(shop, org, phase)
    requires phase.ToClaim? || phase.ToReclaim?
    ensures SafeStep(shop, org, Advance(shop, org, want, phase, fault))
  {
    if org in shop.live {
      EvolvesNot(shop);
    } else {
      ClaimIsSafe(shop, org, want);
    }
  }

  lemma ReplaceStep(shop: Shop, org: nat, want: Identity, phase: Phase, fault: bool)
    requires ShopOk(shop) && phase.ToReplace?
    ensures SafeStep(shop, org, Advance(shop, org, want, phase, fault))
  {
    MarkIsSafe(shop, phase.id, Replaced);
    var marked := shop.(attempts := MarkIfActive(shop.attempts, phase.id, Replaced));
    ClaimIsSafe(marked, org, want);
    EvolvesTwice(shop, marked, marked.(attempts := ClaimAttempt(marked.attempts, org, want).attempts));
  }

  lemma MarkStep(shop: Shop, org: nat, want: Identity, phase: Phase, fault: bool)
    requires ShopOk(shop) && Remembers(shop, org, phase)
    requires phase.ToComplete? || phase.ToMarkExpired? || phase.ToMarkOldExpired?
    ensures SafeStep(shop, org, Advance(shop, org, want, phase, fault))
  {
    if phase.ToComplete? {
      CompleteIsSafe(shop, phase.id);
    } else {
      MarkIsSafe(shop, phase.id, Expired);
    }
  }

  lemma PersistStep(shop: Shop, org: nat, want: Identity, phase: Phase, fault: bool)
    requires ShopOk(shop) && Remembers(shop, org, phase)
    requires phase.ToRecord? || phase.ToPersist?
    ensures SafeStep(shop, org, Advance(shop, org, want, phase, fault))
  {
    EvolvesNot(shop);
    if PersistOpen(shop.attempts, phase.id, phase.sid).Saved? {
      PersistIsSafe(shop, phase.id, phase.sid);
    }
  }

  lemma ProviderStep(shop: Shop, org: nat, want: Identity, phase: Phase, fault: bool)
    requires ShopOk(shop) && Remembers(shop, org, phase)
    requires phase.ToCreate? || phase.ToExpireOld? || phase.ToInspect? || phase.ToInspectOld? || Finished(phase)
    ensures SafeStep(shop, org, Advance(shop, org, want, phase, fault))
  {
    if phase.ToCreate? {
      CreateIsSafe(shop, phase.id, want);
    } else if phase.ToExpireOld? && !fault {
      ExpireIsSafe(shop, phase.sid);
    } else {
      assert Advance(shop, org, want, phase, fault).shop == shop;
      EvolvesNot(shop);
    }
  }

  lemma AdvanceIsSafe(shop: Shop, org: nat, want: Identity, phase: Phase, fault: bool)
    requires ShopOk(shop) && Remembers(shop, org, phase)
    ensures SafeStep(shop, org, Advance(shop, org, want, phase, fault))
  {
    if phase.ToClaim? || phase.ToReclaim? {
      ClaimStep(shop, org, want, phase, fault);
    } else if phase.ToReplace? {
      ReplaceStep(shop, org, want, phase, fault);
    } else if phase.ToComplete? || phase.ToMarkExpired? || phase.ToMarkOldExpired? {
      MarkStep(shop, org, want, phase, fault);
    } else if phase.ToRecord? || phase.ToPersist? {
      PersistStep(shop, org, want, phase, fault);
    } else {
      ProviderStep(shop, org, want, phase, fault);
    }
  }

  lemma ShopIsSafe(s: System, act: Action)
    requires Safe(s)
    ensures ShopOk(Next(s, act).shop) && Evolves(s.shop, Next(s, act).shop)
  {
    match act
    case Continue(i, fault) =>
      if i < |s.requests| {
        var r := s.requests[i];
        AdvanceIsSafe(s.shop, r.org, r.want, r.phase, fault);
      }
    case Pay(sid) => PayIsSafe(s.shop, sid);
    case Lapse(sid) => ExpireIsSafe(s.shop, sid);
    case Confirm(org, sid) =>
      var found := LatestActive(s.shop.attempts, org);
      if found.Some? { CompleteIsSafe(s.shop, found.value); }
      EvolvesNot(s.shop);
    case _ => EvolvesNot(s.shop);
  }

  lemma NextIsSafe(s: System, act: Action)
    requires Safe(s)
    ensures Safe(Next(s, act)) && Evolves(s.shop, Next(s, act).shop)
  {
    ShopIsSafe(s, act);
    var after := Next(s, act);
    forall i | 0 <= i < |after.requests|
      ensures Remembers(after.shop, after.requests[i].org, after.requests[i].phase)
    {
      if i < |s.requests| && after.requests[i] == s.requests[i] {
        StillRemembers(s.shop, after.shop, s.requests[i].org, s.requests[i].phase);
      } else if act.Continue? {
        AdvanceIsSafe(s.shop, s.requests[i].org, s.requests[i].want, s.requests[i].phase, act.fault);
      }
    }
  }

  /**
    Under every interleaving: each recorded session is the one the provider holds
    for that attempt's key, and no attempt ever leaves COMPLETED or revives from REPLACED.
   */
  lemma {:induction false} RunsAreSafe(s: System, acts: seq<Action>)
    requires Safe(s)
    ensures Safe(Run(s, acts)) && Evolves(s.shop, Run(s, acts).shop)
  {
    if acts != [] {
      var before := Run(s, acts[..|acts| - 1]);
      RunsAreSafe(s, acts[..|acts| - 1]);
      NextIsSafe(before, acts[|acts| - 1]);
      EvolvesTwice(s.shop, before.shop, Run(s, acts).shop);
    }
  }

  /** Hence two attempts never share a session, whatever happened before. */
  lemma SessionsAreNeverShared(acts: seq<Action>, a: nat, b: nat)
    requires var attempts := Run(EMPTY, acts).shop.attempts;
             a < |attempts| && b < |attempts| && attempts[a].session.Some? && attempts[a].session == attempts[b].session
    ensures a == b
  {
    RunsAreSafe(EMPTY, acts);
    var shop := Run(EMPTY, acts).shop;
    assert shop.provider.sessions[shop.attempts[a].session.value].key == a;
  }

  // Workspaces do not disturb each other

  /** Nothing of the workspaces other than `org` changed. */
  ghost predicate Isolated(before: Shop, after: Shop, org: nat) {
    && |before.attempts| <= |after.attempts|
    && (forall a :: 0 <= a < |before.attempts| && before.attempts[a].org != org ==>
          after.attempts[a] == before.attempts[a])
    && (forall a :: |before.attempts| <= a < |after.attempts| ==> after.attempts[a].org == org)
    && |before.provider.sessions| <= |after.provider.sessions|
    && (forall i :: 0 <= i < |before.provider.sessions| && !BelongsTo(before, org, i) ==>
          after.provider.sessions[i] == before.provider.sessions[i])
    && (forall i :: |before.provider.sessions| <= i < |after.provider.sessions| ==> BelongsTo(after, org, i))
  }

  lemma DeskIsIsolated(shop: Shop, org: nat, want: Identity, phase: Phase, fault: bool)
    requires ShopOk(shop) && Remembers(shop, org, phase)
    requires !phase.ToCreate? && !phase.ToExpireOld?
    ensures Isolated(shop, Advance(shop, org, want, phase, fault).shop, org)
  {
    assert Advance(shop, org, want, phase, fault).shop.provider == shop.provider;
    if phase.ToReplace? {
      ReplaceIsIsolated(shop, org, want, phase.id);
    }
  }

  lemma ReplaceIsIsolated(shop: Shop, org: nat, want: Identity, id: nat)
    requires ShopOk(shop) && Owns(shop, org, id)
    ensures var marked := MarkIfActive(shop.attempts, id, Replaced);
            && Isolated(shop, shop.(attempts := marked), org)
            && Isolated(shop, shop.(attempts := ClaimAttempt(marked, org, want).attempts), org)
  {}

  lemma AdvanceIsIsolated(shop: Shop, org: nat, want: Identity, phase: Phase, fault: bool)
    requires ShopOk(shop) && Remembers(shop, org, phase)
    ensures Isolated(shop, Advance(shop, org, want, phase, fault).shop, org)
  {
    if phase.ToCreate? || phase.ToExpireOld? {
      assert Advance(shop, org, want, phase, fault).shop.attempts == shop.attempts;
    } else {
      DeskIsIsolated(shop, org, want, phase, fault);
    }
  }
}
