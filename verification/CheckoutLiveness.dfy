/**
  A checkout request that runs alone is answered: what with, and what it leaves for the
  payment and its webhook to find.
 */
module CheckoutLiveness {
  import opened BillingTypes
  import opened CheckoutModel
  import opened CheckoutProtocol

  const NO_FAULTS := Faults(false, false, false)

  /** A request from one of its phases on, no other one running and no call failing. */
  function Alone(shop: Shop, org: nat, want: Identity, phase: Phase): Progress {
    Drive(shop, org, want, phase, NO_FAULTS)
  }

  predicate ActiveAt(shop: Shop, org: nat, id: nat) {
    Owns(shop, org, id) && IsActive(shop.attempts[id])
  }

  predicate Holds(shop: Shop, sid: nat, status: SessionStatus) {
    sid < |shop.provider.sessions| && shop.provider.sessions[sid].status == status
  }

  /** The active attempt has recorded a session that is paid: the payment is only waiting to be processed. */
  ghost predicate PaidAlready(shop: Shop, org: nat) {
    exists id: nat, sid: nat ::
      ActiveAt(shop, org, id) && shop.attempts[id].session == Some(sid) && Holds(shop, sid, Paid)
  }

  /** The attempt is for this identity and its session can be used: recorded and unpaid, or not recorded at all. */
  predicate Resumable(shop: Shop, org: nat, want: Identity, id: nat) {
    && ActiveAt(shop, org, id) && shop.attempts[id].identity == want
    && id in shop.provider.byKey
    && (shop.attempts[id].session.Some? ==> Holds(shop, shop.provider.byKey[id], Unpaid))
  }

  /** An earlier request opened a session for this attempt and did not come to record it; it is not open any more. */
  predicate LostSession(shop: Shop, org: nat, want: Identity, id: nat) {
    && ActiveAt(shop, org, id) && shop.attempts[id].identity == want && shop.attempts[id].session.None?
    && id in shop.provider.byKey && !Holds(shop, shop.provider.byKey[id], Unpaid)
  }

  /** The one active attempt of the workspace has recorded this session of its own and is for this identity. */
  ghost predicate Awaiting(shop: Shop, org: nat, want: Identity, id: nat, sid: nat) {
    && ActiveAt(shop, org, id) && shop.attempts[id] == Attempt(org, want, Open, Some(sid))
    && sid < |shop.provider.sessions| && shop.provider.sessions[sid].key == id
    && forall b :: ActiveAt(shop, org, b) ==> b == id
  }

  /** The attempts after the request: the old one goes on, or is put aside for a new one. */
  predicate Continues(before: Shop, after: seq<Attempt>, org: nat, want: Identity, id: nat, sid: nat) {
    var mine := Attempt(org, want, Open, Some(sid));
    if id < |before.attempts| then after == before.attempts[id := mine]
    else
      && |after| == |before.attempts| + 1 && after[|before.attempts|] == mine
      && forall a :: 0 <= a < |before.attempts| ==>
           after[a] == if ActiveAt(before, org, a) then PutAside(before, a, want) else before.attempts[a]
  }

  /** An attempt whose session has lapsed is expired; one for something else, still to be paid, is replaced. */
  function PutAside(shop: Shop, id: nat, want: Identity): Attempt
    requires id < |shop.attempts|
  {
    var a := shop.attempts[id];
    a.(status := if a.session.Some? && Holds(shop, a.session.value, Lapsed) then Expired else Replaced)
  }

  /** What a request answered with a session leaves: an old one of this attempt, or a new one for this identity. */
  ghost predicate Answered(before: Shop, end: Progress, org: nat, want: Identity, id: nat, sid: nat) {
    && end.phase == Returned(Some(sid)) && ShopOk(end.shop) && Awaiting(end.shop, org, want, id, sid)
    && Continues(before, end.shop.attempts, org, want, id, sid)
    && if Resumable(before, org, want, id)
       then sid == before.provider.byKey[id] && end.shop.provider == before.provider
       else sid == |before.provider.sessions| && end.shop.provider.sessions[sid] == Session(id, want, Unpaid)
  }

  // ---- from each phase on ----

  lemma FromPersist(shop: Shop, org: nat, want: Identity, id: nat, sid: nat)
    requires ShopOk(shop) && ActiveAt(shop, org, id) && shop.attempts[id].identity == want && HeldFor(shop, id, sid)
    ensures var end := Alone(shop, org, want, ToPersist(id, sid));
            && end == Progress(shop.(attempts := shop.attempts[id := Attempt(org, want, Open, Some(sid))]),
                               Returned(Some(sid)))
            && ShopOk(end.shop) && Awaiting(end.shop, org, want, id, sid)
  {
    DriveEnds(shop, org, want, ToPersist(id, sid), NO_FAULTS);
    assert !OtherActive(shop.attempts, id, org);
    PersistIsSafe(shop, id, sid);
  }

  lemma FromCreate(shop: Shop, org: nat, want: Identity, id: nat)
    requires ShopOk(shop) && ActiveAt(shop, org, id) && shop.attempts[id].identity == want
    ensures var end := Alone(shop, org, want, ToCreate(id));
            var sid := if id in shop.provider.byKey then shop.provider.byKey[id] else |shop.provider.sessions|;
            && end.phase == Returned(Some(sid)) && ShopOk(end.shop) && Awaiting(end.shop, org, want, id, sid)
            && end.shop.attempts == shop.attempts[id := Attempt(org, want, Open, Some(sid))]
            && if id in shop.provider.byKey then end.shop.provider == shop.provider
               else end.shop.provider.sessions == shop.provider.sessions + [Session(id, want, Unpaid)]
  {
    var made := CreateSession(shop.provider, id, want);
    CreateIsSafe(shop, id, want);
    var after := shop.(provider := made.provider);
    assert Alone(shop, org, want, ToCreate(id)) == Alone(after, org, want, ToPersist(id, made.sid));
    FromPersist(after, org, want, id, made.sid);
  }

  predicate NoneActive(shop: Shop, org: nat) {
    forall a :: 0 <= a < |shop.attempts| && shop.attempts[a].org == org ==> !IsActive(shop.attempts[a])
  }

  lemma NewAttempt(shop: Shop, org: nat, want: Identity)
    requires ShopOk(shop) && NoneActive(shop, org)
    ensures var c := ClaimAttempt(shop.attempts, org, want);
            var after := shop.(attempts := c.attempts);
            && c.id == |shop.attempts| && ShopOk(after) && ActiveAt(after, org, c.id)
            && after.attempts[c.id] == Attempt(org, want, Pending, None) && c.id !in after.provider.byKey
  {
    ClaimIsSafe(shop, org, want);
    assert LatestActive(shop.attempts, org) == None;
  }

  /** With no attempt active, a new one gets a new session. */
  lemma FromReclaim(shop: Shop, org: nat, want: Identity)
    requires ShopOk(shop) && NoneActive(shop, org) && org !in shop.live
    ensures var end := Alone(shop, org, want, ToReclaim);
            && end.phase == Returned(Some(|shop.provider.sessions|)) && ShopOk(end.shop)
            && Awaiting(end.shop, org, want, |shop.attempts|, |shop.provider.sessions|)
            && end.shop.provider.sessions == shop.provider.sessions + [Session(|shop.attempts|, want, Unpaid)]
            && end.shop.attempts == shop.attempts + [Attempt(org, want, Open, Some(|shop.provider.sessions|))]
  {
    NewAttempt(shop, org, want);
    var c := ClaimAttempt(shop.attempts, org, want);
    var after := shop.(attempts := c.attempts);
    assert Alone(shop, org, want, ToReclaim) == Alone(after, org, want, ToCreate(c.id));
    FromCreate(after, org, want, c.id);
  }

  lemma NoneLeftActive(shop: Shop, org: nat, id: nat, status: AttemptStatus)
    requires ShopOk(shop) && ActiveAt(shop, org, id) && (status == Expired || status == Replaced)
    ensures var after := shop.(attempts := MarkIfActive(shop.attempts, id, status));
            ShopOk(after) && NoneActive(after, org) && |after.attempts| == |shop.attempts|
  {
    MarkIsSafe(shop, id, status);
  }

  lemma FromMarkExpired(shop: Shop, org: nat, want: Identity, id: nat)
    requires ShopOk(shop) && ActiveAt(shop, org, id) && org !in shop.live
    ensures var end := Alone(shop, org, want, ToMarkExpired(id));
            && end.phase == Returned(Some(|shop.provider.sessions|)) && ShopOk(end.shop)
            && Awaiting(end.shop, org, want, |shop.attempts|, |shop.provider.sessions|)
            && end.shop.provider.sessions == shop.provider.sessions + [Session(|shop.attempts|, want, Unpaid)]
            && end.shop.attempts == shop.attempts[id := shop.attempts[id].(status := Expired)]
                                    + [Attempt(org, want, Open, Some(|shop.provider.sessions|))]
  {
    NoneLeftActive(shop, org, id, Expired);
    var after := shop.(attempts := MarkIfActive(shop.attempts, id, Expired));
    assert Alone(shop, org, want, ToMarkExpired(id)) == Alone(after, org, want, ToReclaim);
    FromReclaim(after, org, want);
  }

  lemma FromReplace(shop: Shop, org: nat, want: Identity, id: nat)
    requires ShopOk(shop) && org !in shop.live && Owns(shop, org, id)
    requires forall b :: ActiveAt(shop, org, b) ==> b == id
    ensures var end := Alone(shop, org, want, ToReplace(id));
            && end.phase == Returned(Some(|shop.provider.sessions|)) && ShopOk(end.shop)
            && Awaiting(end.shop, org, want, |shop.attempts|, |shop.provider.sessions|)
            && end.shop.provider.sessions == shop.provider.sessions + [Session(|shop.attempts|, want, Unpaid)]
            && end.shop.attempts == MarkIfActive(shop.attempts, id, Replaced)
                                    + [Attempt(org, want, Open, Some(|shop.provider.sessions|))]
  {
    var marked := shop.(attempts := MarkIfActive(shop.attempts, id, Replaced));
    MarkIsSafe(shop, id, Replaced);
    assert NoneActive(marked, org) by {
      if ActiveAt(shop, org, id) { NoneLeftActive(shop, org, id, Replaced); }
      forall a | 0 <= a < |marked.attempts| && marked.attempts[a].org == org
        ensures !IsActive(marked.attempts[a])
      {
        assert a != id ==> !ActiveAt(shop, org, a);
      }
    }
    NewAttempt(marked, org, want);
    var c := ReplaceAttempt(shop.attempts, org, want, id);
    var after := shop.(attempts := c.attempts);
    assert Alone(shop, org, want, ToReplace(id)) == Alone(after, org, want, ToCreate(c.id));
    FromCreate(after, org, want, c.id);
  }

  lemma FromComplete(shop: Shop, org: nat, want: Identity, id: nat, sid: nat)
    ensures Alone(shop, org, want, ToComplete(id, sid))
            == Progress(shop.(attempts := MarkCompleted(shop.attempts, id)), Processing(sid))
  {
    DriveEnds(shop, org, want, ToComplete(id, sid), NO_FAULTS);
  }

  /** The same plan asked for again, with a recorded session. */
  lemma FromInspect(shop: Shop, org: nat, want: Identity, id: nat, sid: nat)
    requires ShopOk(shop) && org !in shop.live && ActiveAt(shop, org, id)
    requires shop.attempts[id].identity == want && shop.attempts[id].session == Some(sid)
    ensures var end := Alone(shop, org, want, ToInspect(id, sid));
            if Holds(shop, sid, Paid)
            then end == Progress(shop.(attempts := MarkCompleted(shop.attempts, id)), Processing(sid))
            else Answered(shop, end, org, want, if Holds(shop, sid, Unpaid) then id else |shop.attempts|,
                          if Holds(shop, sid, Unpaid) then sid else |shop.provider.sessions|)
  {
    match shop.provider.sessions[sid].status
    case Paid =>
      assert Alone(shop, org, want, ToInspect(id, sid)) == Alone(shop, org, want, ToComplete(id, sid));
      FromComplete(shop, org, want, id, sid);
    case Lapsed =>
      assert Alone(shop, org, want, ToInspect(id, sid)) == Alone(shop, org, want, ToMarkExpired(id));
      FromMarkExpired(shop, org, want, id);
    case Unpaid =>
      assert Alone(shop, org, want, ToInspect(id, sid)) == Alone(shop, org, want, ToRecord(id, sid));
      FromRecord(shop, org, want, id, sid);
  }

  lemma FromRecord(shop: Shop, org: nat, want: Identity, id: nat, sid: nat)
    requires ShopOk(shop) && ActiveAt(shop, org, id)
    requires shop.attempts[id].identity == want && shop.attempts[id].session == Some(sid)
    ensures var end := Alone(shop, org, want, ToRecord(id, sid));
            && end.phase == Returned(Some(sid)) && end.shop.provider == shop.provider && ShopOk(end.shop)
            && Awaiting(end.shop, org, want, id, sid)
            && end.shop.attempts == shop.attempts[id := Attempt(org, want, Open, Some(sid))]
  {
    DriveEnds(shop, org, want, ToRecord(id, sid), NO_FAULTS);
    if shop.attempts[id].status == Pending {
      assert !OtherActive(shop.attempts, id, org);
      PersistIsSafe(shop, id, sid);
    }
  }

  /** Another plan, with a recorded session of the old one: it is expired and replaced, unless it is paid. */
  lemma FromInspectOld(shop: Shop, org: nat, want: Identity, id: nat, sid: nat)
    requires ShopOk(shop) && org !in shop.live && ActiveAt(shop, org, id) && shop.attempts[id].session == Some(sid)
    requires shop.attempts[id].identity != want
    ensures var end := Alone(shop, org, want, ToInspectOld(id, sid));
            if Holds(shop, sid, Paid)
            then end == Progress(shop.(attempts := MarkCompleted(shop.attempts, id)), Processing(sid))
            else Answered(shop, end, org, want, |shop.attempts|, |shop.provider.sessions|)
                 && Holds(end.shop, sid, Lapsed)
  {
    match shop.provider.sessions[sid].status
    case Paid =>
      assert Alone(shop, org, want, ToInspectOld(id, sid)) == Alone(shop, org, want, ToComplete(id, sid));
      FromComplete(shop, org, want, id, sid);
    case Lapsed =>
      assert Alone(shop, org, want, ToInspectOld(id, sid)) == Alone(shop, org, want, ToMarkOldExpired(id));
      FromMarkOldExpired(shop, org, want, id, sid);
    case Unpaid =>
      assert Alone(shop, org, want, ToInspectOld(id, sid)) == Alone(shop, org, want, ToExpireOld(id, sid));
      FromExpireOld(shop, org, want, id, sid);
  }

  lemma NewTakesOver(before: Shop, after: seq<Attempt>, org: nat, want: Identity, id: nat, sid: nat)
    requires ShopOk(before) && ActiveAt(before, org, id)
    requires after == before.attempts[id := PutAside(before, id, want)] + [Attempt(org, want, Open, Some(sid))]
    ensures Continues(before, after, org, want, |before.attempts|, sid)
  {
    ActiveIsFound(before, org, id);
  }

  lemma FromMarkOldExpired(shop: Shop, org: nat, want: Identity, id: nat, sid: nat)
    requires ShopOk(shop) && org !in shop.live && ActiveAt(shop, org, id) && shop.attempts[id].identity != want
    requires shop.attempts[id].session == Some(sid) && Holds(shop, sid, Lapsed)
    ensures var end := Alone(shop, org, want, ToMarkOldExpired(id));
            && Answered(shop, end, org, want, |shop.attempts|, |shop.provider.sessions|)
            && Holds(end.shop, sid, Lapsed)
  {
    var after := shop.(attempts := MarkIfActive(shop.attempts, id, Expired));
    NoneLeftActive(shop, org, id, Expired);
    assert Alone(shop, org, want, ToMarkOldExpired(id)) == Alone(after, org, want, ToReplace(id));
    FromReplace(after, org, want, id);
    NewTakesOver(shop, Alone(after, org, want, ToReplace(id)).shop.attempts, org, want, id, |shop.provider.sessions|);
  }

  lemma FromExpireOld(shop: Shop, org: nat, want: Identity, id: nat, sid: nat)
    requires ShopOk(shop) && org !in shop.live && ActiveAt(shop, org, id) && shop.attempts[id].identity != want
    requires shop.attempts[id].session == Some(sid) && Holds(shop, sid, Unpaid)
    ensures var end := Alone(shop, org, want, ToExpireOld(id, sid));
            && Answered(shop, end, org, want, |shop.attempts|, |shop.provider.sessions|)
            && Holds(end.shop, sid, Lapsed)
  {
    var after := shop.(provider := ExpireSession(shop.provider, sid));
    ExpireIsSafe(shop, sid);
    ActiveIsFound(shop, org, id);
    assert forall b :: ActiveAt(after, org, b) ==> ActiveAt(shop, org, b);
    assert Alone(shop, org, want, ToExpireOld(id, sid)) == Alone(after, org, want, ToReplace(id));
    FromReplace(after, org, want, id);
    NewTakesOver(shop, Alone(after, org, want, ToReplace(id)).shop.attempts, org, want, id, |shop.provider.sessions|);
  }

  // ---- the request ----

  /** With no attempt active, a request opens one with a new session. */
  lemma FirstRequestIsAnswered(shop: Shop, org: nat, want: Identity)
    requires ShopOk(shop) && org !in shop.live && NoneActive(shop, org)
    ensures Answered(shop, Alone(shop, org, want, ToClaim), org, want, |shop.attempts|, |shop.provider.sessions|)
  {
    NewAttempt(shop, org, want);
    var c := ClaimAttempt(shop.attempts, org, want);
    var after := shop.(attempts := c.attempts);
    assert Alone(shop, org, want, ToClaim) == Alone(after, org, want, ToCreate(c.id));
    FromCreate(after, org, want, c.id);
  }

  /** The attempt that was active: its session is used again, or a new attempt takes its place. */
  function NextAttempt(shop: Shop, org: nat, want: Identity, id: nat): nat {
    if ActiveAt(shop, org, id) && shop.attempts[id].identity == want
       && (shop.attempts[id].session.None? || Holds(shop, shop.attempts[id].session.value, Unpaid))
    then id else |shop.attempts|
  }

  lemma ActiveIsFound(shop: Shop, org: nat, id: nat)
    requires ShopOk(shop) && ActiveAt(shop, org, id)
    ensures LatestActive(shop.attempts, org) == Some(id)
    ensures forall b :: ActiveAt(shop, org, b) ==> b == id
  {
    var found := LatestActive(shop.attempts, org);
    assert found.Some? && ActiveAt(shop, org, found.value);
  }

  /** With an attempt active, a request is processed if its session is paid, and answered otherwise. */
  lemma NextRequestIsAnswered(shop: Shop, org: nat, want: Identity, id: nat)
    requires ShopOk(shop) && org !in shop.live && ActiveAt(shop, org, id)
    ensures var end, session := Alone(shop, org, want, ToClaim), shop.attempts[id].session;
            if session.Some? && Holds(shop, session.value, Paid)
            then end == Progress(shop.(attempts := MarkCompleted(shop.attempts, id)), Processing(session.value))
            else end.phase.Returned? && end.phase.session.Some?
                 && Answered(shop, end, org, want, NextAttempt(shop, org, want, id), end.phase.session.value)
                 && (shop.attempts[id].identity != want && session.Some? ==> Holds(end.shop, session.value, Lapsed))
  {
    ActiveIsFound(shop, org, id);
    var a := shop.attempts[id];
    assert Alone(shop, org, want, ToClaim) == Alone(shop, org, want, Route(a, id, want));
    if a.identity == want && a.session.Some? {
      FromInspect(shop, org, want, id, a.session.value);
    } else if a.identity == want {
      FromCreate(shop, org, want, id);
    } else if a.session.Some? {
      FromInspectOld(shop, org, want, id, a.session.value);
    } else {
      FromReplace(shop, org, want, id);
    }
  }

  /**
    A request that runs alone, nothing failing, is never refused: it is told that a payment
    is being processed exactly if the active attempt has recorded a paid session, and is sent
    to a session otherwise. That session can be paid exactly unless an earlier request opened
    it without recording it and it is not open any more.
   */
  lemma RequestAloneIsAnswered(shop: Shop, org: nat, want: Identity)
    requires ShopOk(shop) && org !in shop.live
    ensures var end := Alone(shop, org, want, ToClaim);
            && (end.phase.Processing? <==> PaidAlready(shop, org))
            && (!PaidAlready(shop, org) ==>
                  && end.phase.Returned? && end.phase.session.Some?
                  && (exists id :: Answered(shop, end, org, want, id, end.phase.session.value))
                  && (Holds(end.shop, end.phase.session.value, Unpaid)
                      <==> !exists id :: LostSession(shop, org, want, id)))
  {
    if id: nat :| ActiveAt(shop, org, id) {
      ActiveIsFound(shop, org, id);
      NextRequestIsAnswered(shop, org, want, id);
      OnlyTheActiveCounts(shop, org, want, id);
    } else {
      forall a | 0 <= a < |shop.attempts| && shop.attempts[a].org == org
        ensures !IsActive(shop.attempts[a])
      {
        assert !ActiveAt(shop, org, a);
      }
      FirstRequestIsAnswered(shop, org, want);
    }
  }

  lemma OnlyTheActiveCounts(shop: Shop, org: nat, want: Identity, id: nat)
    requires ActiveAt(shop, org, id) && forall b :: ActiveAt(shop, org, b) ==> b == id
    ensures var session := shop.attempts[id].session;
            PaidAlready(shop, org) <==> session.Some? && Holds(shop, session.value, Paid)
    ensures (exists b :: LostSession(shop, org, want, b)) <==> LostSession(shop, org, want, id)
  {
  }

  /** Sessions were created for what their attempts are for. */
  ghost predicate Genuine(shop: Shop, org: nat) {
    forall id: nat :: ActiveAt(shop, org, id) && id in shop.provider.byKey ==>
      shop.provider.byKey[id] < |shop.provider.sessions|
      && shop.provider.sessions[shop.provider.byKey[id]].identity == shop.attempts[id].identity
  }

  /** The session is for what was asked. */
  lemma AnswerIsForWhatWasAsked(shop: Shop, org: nat, want: Identity)
    requires ShopOk(shop) && org !in shop.live && Genuine(shop, org) && !PaidAlready(shop, org)
    ensures var end := Alone(shop, org, want, ToClaim);
            && end.phase.Returned? && end.phase.session.Some?
            && end.phase.session.value < |end.shop.provider.sessions|
            && end.shop.provider.sessions[end.phase.session.value].identity == want
  {
    RequestAloneIsAnswered(shop, org, want);
    var end := Alone(shop, org, want, ToClaim);
    var id :| Answered(shop, end, org, want, id, end.phase.session.value);
  }

  /** A subscribed workspace is refused and nothing changes, whatever fails. */
  lemma SubscribedIsRefused(shop: Shop, org: nat, want: Identity, f: Faults)
    requires org in shop.live
    ensures Drive(shop, org, want, ToClaim, f) == Progress(shop, Failed)
  {
    DriveEnds(shop, org, want, ToClaim, f);
  }

  lemma AdvanceGoesOn(shop: Shop, org: nat, want: Identity, phase: Phase, fault: bool)
    requires !Finished(phase)
    ensures var next := Advance(shop, org, want, phase, fault);
            next.shop.live == shop.live && Rank(next.phase) < Rank(phase)
  {
  }

  lemma {:induction false} DriveIsSafe(shop: Shop, org: nat, want: Identity, phase: Phase, f: Faults)
    requires ShopOk(shop) && Remembers(shop, org, phase)
    ensures ShopOk(Drive(shop, org, want, phase, f).shop)
    ensures Drive(shop, org, want, phase, f).shop.live == shop.live
    decreases Rank(phase)
  {
    if !Finished(phase) {
      var next := Advance(shop, org, want, phase, FaultAt(phase, f));
      AdvanceIsSafe(shop, org, want, phase, FaultAt(phase, f));
      AdvanceGoesOn(shop, org, want, phase, FaultAt(phase, f));
      DriveIsSafe(next.shop, org, want, next.phase, f);
    }
  }

  /** Whatever failed in a request, asking once more is answered. */
  lemma AskingAgainIsAnswered(shop: Shop, org: nat, want: Identity, f: Faults)
    requires ShopOk(shop) && org !in shop.live
    ensures var again := Alone(Drive(shop, org, want, ToClaim, f).shop, org, want, ToClaim);
            again.phase.Processing? || (again.phase.Returned? && again.phase.session.Some?)
  {
    DriveIsSafe(shop, org, want, ToClaim, f);
    RequestAloneIsAnswered(Drive(shop, org, want, ToClaim, f).shop, org, want);
  }

  // ---- requests whose provider calls fail ----

  /** The provider is asked for nothing any more, but a session. */
  predicate PastLookups(p: Phase) {
    !p.ToClaim? && !p.ToInspect? && !p.ToInspectOld? && !p.ToExpireOld?
  }

  lemma {:induction false} FaultsArePast(shop: Shop, org: nat, want: Identity, phase: Phase, f: Faults)
    requires PastLookups(phase) && !f.create
    ensures Drive(shop, org, want, phase, f) == Alone(shop, org, want, phase)
    decreases Rank(phase)
  {
    if !Finished(phase) {
      var next := Advance(shop, org, want, phase, false);
      AdvanceGoesOn(shop, org, want, phase, false);
      FaultsArePast(next.shop, org, want, next.phase, f);
    }
  }

  /** From here on a session has to be created. */
  predicate NeedsSession(p: Phase) {
    p.ToMarkExpired? || p.ToReclaim? || p.ToCreate? || p.ToExpireOld? || p.ToMarkOldExpired? || p.ToReplace?
  }

  lemma {:induction false} WithoutSessionFails(shop: Shop, org: nat, want: Identity, phase: Phase, f: Faults)
    requires (NeedsSession(phase) || phase == Failed) && f.create
    ensures Drive(shop, org, want, phase, f).phase == Failed
    decreases Rank(phase)
  {
    if phase != Failed {
      var next := Advance(shop, org, want, phase, FaultAt(phase, f));
      AdvanceGoesOn(shop, org, want, phase, FaultAt(phase, f));
      WithoutSessionFails(next.shop, org, want, next.phase, f);
    }
  }

  lemma ClaimFindsActive(shop: Shop, org: nat, want: Identity, id: nat, f: Faults)
    requires ShopOk(shop) && org !in shop.live && ActiveAt(shop, org, id)
    ensures Drive(shop, org, want, ToClaim, f) == Drive(shop, org, want, Route(shop.attempts[id], id, want), f)
  {
    ActiveIsFound(shop, org, id);
    assert Advance(shop, org, want, ToClaim, false) == Progress(shop, Route(shop.attempts[id], id, want));
  }

  /** A session of the same plan that cannot be looked up is found again by its key. */
  lemma UnseenSessionIsUsedAgain(shop: Shop, org: nat, want: Identity, id: nat, sid: nat, f: Faults)
    requires ShopOk(shop) && org !in shop.live && ActiveAt(shop, org, id)
    requires shop.attempts[id].identity == want && shop.attempts[id].session == Some(sid)
    requires f.retrieve && !f.create
    ensures Drive(shop, org, want, ToClaim, f)
            == Progress(shop.(attempts := shop.attempts[id := Attempt(org, want, Open, Some(sid))]),
                        Returned(Some(sid)))
  {
    ClaimFindsActive(shop, org, want, id, f);
    assert Drive(shop, org, want, ToInspect(id, sid), f) == Drive(shop, org, want, ToCreate(id), f);
    FaultsArePast(shop, org, want, ToCreate(id), f);
    FromCreate(shop, org, want, id);
    DriveIsSafe(shop, org, want, ToCreate(id), NO_FAULTS);
  }

  /**
    A session of another plan that cannot be looked up, or not be expired, holds nothing up:
    its attempt is replaced, and it is expired where the provider does so.
   */
  lemma UnseenSessionIsReplaced(shop: Shop, org: nat, want: Identity, id: nat, sid: nat, f: Faults)
    requires ShopOk(shop) && org !in shop.live && ActiveAt(shop, org, id)
    requires shop.attempts[id].identity != want && shop.attempts[id].session == Some(sid)
    requires !f.create && (f.retrieve || (f.expire && Holds(shop, sid, Unpaid)))
    ensures var end, next := Drive(shop, org, want, ToClaim, f), |shop.provider.sessions|;
            && end.phase == Returned(Some(next))
            && end.shop.attempts == shop.attempts[id := shop.attempts[id].(status := Replaced)]
                                    + [Attempt(org, want, Open, Some(next))]
            && Holds(end.shop, next, Unpaid) && Awaiting(end.shop, org, want, |shop.attempts|, next)
            && end.shop.provider.sessions[sid]
               == if f.expire || Holds(shop, sid, Paid) then shop.provider.sessions[sid]
                  else shop.provider.sessions[sid].(status := Lapsed)
  {
    ClaimFindsActive(shop, org, want, id, f);
    ActiveIsFound(shop, org, id);
    assert Drive(shop, org, want, ToInspectOld(id, sid), f) == Drive(shop, org, want, ToExpireOld(id, sid), f);
    ExpireIsSafe(shop, sid);
    var after := if f.expire then shop else shop.(provider := ExpireSession(shop.provider, sid));
    assert Drive(shop, org, want, ToExpireOld(id, sid), f) == Drive(after, org, want, ToReplace(id), f);
    FaultsArePast(after, org, want, ToReplace(id), f);
    assert forall b :: ActiveAt(after, org, b) ==> ActiveAt(shop, org, b);
    FromReplace(after, org, want, id);
  }

  /** The active attempt's session could be looked up, and made a new one unnecessary. */
  ghost predicate SeenInTime(shop: Shop, org: nat, want: Identity, f: Faults) {
    && !f.retrieve
    && exists id: nat, sid: nat ::
         && ActiveAt(shop, org, id) && shop.attempts[id].session == Some(sid)
         && (Holds(shop, sid, Paid) || (shop.attempts[id].identity == want && Holds(shop, sid, Unpaid)))
  }

  /** Alone, a request fails exactly if no session can be created and it needs one; no other failure stops it. */
  lemma RequestFailsIff(shop: Shop, org: nat, want: Identity, f: Faults)
    requires ShopOk(shop) && org !in shop.live
    ensures var end := Drive(shop, org, want, ToClaim, f).phase;
            && (end.Failed? <==> f.create && !SeenInTime(shop, org, want, f))
            && (end.Processing? <==> !f.retrieve && PaidAlready(shop, org))
            && (end.Failed? || end.Processing? || (end.Returned? && end.session.Some?))
  {
    if id: nat :| ActiveAt(shop, org, id) {
      ActiveIsFound(shop, org, id);
      ClaimFindsActive(shop, org, want, id, f);
      FailsFromRoute(shop, org, want, id, f);
    } else {
      forall a | 0 <= a < |shop.attempts| && shop.attempts[a].org == org
        ensures !IsActive(shop.attempts[a])
      {
        assert !ActiveAt(shop, org, a);
      }
      NewAttempt(shop, org, want);
      var c := ClaimAttempt(shop.attempts, org, want);
      var after := shop.(attempts := c.attempts);
      assert Drive(shop, org, want, ToClaim, f) == Drive(after, org, want, ToCreate(c.id), f);
      if f.create {
        WithoutSessionFails(after, org, want, ToCreate(c.id), f);
      } else {
        FaultsArePast(after, org, want, ToCreate(c.id), f);
        FromCreate(after, org, want, c.id);
      }
    }
  }

  lemma FailsFromRoute(shop: Shop, org: nat, want: Identity, id: nat, f: Faults)
    requires ShopOk(shop) && org !in shop.live && ActiveAt(shop, org, id)
    ensures var end, a := Drive(shop, org, want, ToClaim, f).phase, shop.attempts[id];
            var paid := !f.retrieve && a.session.Some? && Holds(shop, a.session.value, Paid);
            var open := !f.retrieve && a.session.Some? && a.identity == want && Holds(shop, a.session.value, Unpaid);
            && (end.Processing? <==> paid) && (end.Failed? <==> f.create && !paid && !open)
            && (end.Failed? || end.Processing? || (end.Returned? && end.session.Some?))
  {
    ClaimFindsActive(shop, org, want, id, f);
    var a := shop.attempts[id];
    var start := Route(a, id, want);
    if a.session.Some? && !f.retrieve && Holds(shop, a.session.value, Paid) {
      assert Drive(shop, org, want, start, f) == Drive(shop, org, want, ToComplete(id, a.session.value), f);
      DriveEnds(shop, org, want, ToComplete(id, a.session.value), f);
    } else if a.session.Some? && !f.retrieve && a.identity == want && Holds(shop, a.session.value, Unpaid) {
      assert Drive(shop, org, want, start, f) == Drive(shop, org, want, ToRecord(id, a.session.value), f);
      DriveEnds(shop, org, want, ToRecord(id, a.session.value), f);
      FromRecord(shop, org, want, id, a.session.value);
      DriveEnds(shop, org, want, ToRecord(id, a.session.value), NO_FAULTS);
    } else if f.create {
      if a.session.Some? {
        var next := Advance(shop, org, want, start, f.retrieve);
        assert Drive(shop, org, want, start, f) == Drive(next.shop, org, want, next.phase, f);
        WithoutSessionFails(next.shop, org, want, next.phase, f);
      } else {
        WithoutSessionFails(shop, org, want, start, f);
      }
    } else {
      AnswersFromRoute(shop, org, want, id, f);
    }
  }

  lemma LapsedIsRenewed(shop: Shop, org: nat, want: Identity, id: nat, sid: nat, f: Faults)
    requires ShopOk(shop) && org !in shop.live && ActiveAt(shop, org, id) && !f.create && !f.retrieve
    requires shop.attempts[id].session == Some(sid) && Holds(shop, sid, Lapsed)
    ensures Drive(shop, org, want, Route(shop.attempts[id], id, want), f).phase
            == Returned(Some(|shop.provider.sessions|))
  {
    var start := Route(shop.attempts[id], id, want);
    var next := Advance(shop, org, want, start, false);
    assert Drive(shop, org, want, start, f) == Drive(shop, org, want, next.phase, f);
    FaultsArePast(shop, org, want, next.phase, f);
    if shop.attempts[id].identity == want {
      FromMarkExpired(shop, org, want, id);
    } else {
      FromMarkOldExpired(shop, org, want, id, sid);
    }
  }

  lemma UnrecordedIsCreated(shop: Shop, org: nat, want: Identity, id: nat, f: Faults)
    requires ShopOk(shop) && org !in shop.live && ActiveAt(shop, org, id) && !f.create
    requires shop.attempts[id].session.None?
    ensures var end := Drive(shop, org, want, Route(shop.attempts[id], id, want), f).phase;
            end.Returned? && end.session.Some?
  {
    FaultsArePast(shop, org, want, Route(shop.attempts[id], id, want), f);
    if shop.attempts[id].identity == want {
      FromCreate(shop, org, want, id);
    } else {
      ActiveIsFound(shop, org, id);
      FromReplace(shop, org, want, id);
    }
  }

  lemma AnswersFromRoute(shop: Shop, org: nat, want: Identity, id: nat, f: Faults)
    requires ShopOk(shop) && org !in shop.live && ActiveAt(shop, org, id) && !f.create
    requires var session := shop.attempts[id].session;
             session.Some? && !f.retrieve ==>
               Holds(shop, session.value, Lapsed)
               || (shop.attempts[id].identity != want && Holds(shop, session.value, Unpaid))
    ensures var end := Drive(shop, org, want, ToClaim, f).phase; end.Returned? && end.session.Some?
  {
    var a := shop.attempts[id];
    if a.session.None? {
      ClaimFindsActive(shop, org, want, id, f);
      UnrecordedIsCreated(shop, org, want, id, f);
    } else if f.retrieve && a.identity == want {
      UnseenSessionIsUsedAgain(shop, org, want, id, a.session.value, f);
    } else if f.retrieve || (f.expire && Holds(shop, a.session.value, Unpaid)) {
      UnseenSessionIsReplaced(shop, org, want, id, a.session.value, f);
    } else if Holds(shop, a.session.value, Lapsed) {
      ClaimFindsActive(shop, org, want, id, f);
      LapsedIsRenewed(shop, org, want, id, a.session.value, f);
    } else {
      NextRequestIsAnswered(shop, org, want, id);
    }
  }

  // ---- the request as a run ----

  lemma {:induction false} RunAfterFirst(s: System, first: Action, rest: seq<Action>)
    ensures Run(s, [first] + rest) == Run(Next(s, first), rest)
  {
    var acts := [first] + rest;
    if rest == [] {
      assert acts[..0] == [];
    } else {
      RunAfterFirst(s, first, rest[..|rest| - 1]);
      assert acts[..|acts| - 1] == [first] + rest[..|rest| - 1];
    }
  }

  /** The steps of one request, with its provider calls failing as given. */
  function StepsOf(shop: Shop, i: nat, org: nat, want: Identity, phase: Phase, f: Faults): seq<Action>
    decreases Rank(phase)
  {
    if Finished(phase) then []
    else
      var next := Advance(shop, org, want, phase, FaultAt(phase, f));
      [Continue(i, FaultAt(phase, f))] + StepsOf(next.shop, i, org, want, next.phase, f)
  }

  /** What is said of a request alone is said of its steps in the protocol, one after another, beside any others. */
  lemma {:induction false} AloneIsARun(s: System, i: nat, f: Faults)
    requires i < |s.requests|
    ensures var r := s.requests[i];
            var end := Drive(s.shop, r.org, r.want, r.phase, f);
            Run(s, StepsOf(s.shop, i, r.org, r.want, r.phase, f))
            == System(end.shop, s.requests[i := r.(phase := end.phase)])
    decreases Rank(s.requests[i].phase)
  {
    var r := s.requests[i];
    if Finished(r.phase) {
      assert s.requests[i := r] == s.requests;
    } else {
      var fault := FaultAt(r.phase, f);
      var next := Advance(s.shop, r.org, r.want, r.phase, fault);
      var t := Next(s, Continue(i, fault));
      AdvanceGoesOn(s.shop, r.org, r.want, r.phase, fault);
      AloneIsARun(t, i, f);
      RunAfterFirst(s, Continue(i, fault), StepsOf(next.shop, i, r.org, r.want, next.phase, f));
      var end := Drive(s.shop, r.org, r.want, r.phase, f);
      assert t.requests[i := r.(phase := end.phase)] == s.requests[i := r.(phase := end.phase)];
    }
  }

  // ---- what happens around a request ----

  /**
    A crashed request never does anything again; a session lapses unless it is paid; and a
    workspace that has become subscribed is refused until it no longer is.
   */
  lemma OutsideSteps(s: System, org: nat, want: Identity, i: nat, sid: nat, f: Faults, fault: bool)
    ensures Next(s, Begin(org, want)) == System(s.shop, s.requests + [Request(org, want, ToClaim)])
    ensures var crashed := Next(s, Crash(i));
            && crashed.shop == s.shop && |crashed.requests| == |s.requests|
            && (forall j :: 0 <= j < |s.requests| && j != i ==> crashed.requests[j] == s.requests[j])
            && Next(crashed, Continue(i, fault)) == crashed
            && (i < |s.requests| ==> Finished(crashed.requests[i].phase))
            && (i < |s.requests| && Finished(s.requests[i].phase) ==> crashed == s)
    ensures var lapsed := Next(s, Lapse(sid));
            && lapsed.requests == s.requests && lapsed.shop.attempts == s.shop.attempts
            && |lapsed.shop.provider.sessions| == |s.shop.provider.sessions|
            && (sid < |s.shop.provider.sessions| && !Holds(s.shop, sid, Paid) ==> Holds(lapsed.shop, sid, Lapsed))
            && forall t :: 0 <= t < |s.shop.provider.sessions| && (t != sid || Holds(s.shop, t, Paid)) ==>
                 lapsed.shop.provider.sessions[t] == s.shop.provider.sessions[t]
    ensures var live := Next(s, Live(org));
            && Drive(live.shop, org, want, ToClaim, f) == Progress(live.shop, Failed)
            && live.requests == s.requests && live.shop.attempts == s.shop.attempts
            && live.shop.provider == s.shop.provider
            && (org !in s.shop.live ==> Next(live, Idle(org)) == s)
  {
    var live := Next(s, Live(org));
    SubscribedIsRefused(live.shop, org, want, f);
    assert org !in s.shop.live ==> s.shop.live + {org} - {org} == s.shop.live;
  }

  // ---- the webhook ----

  /** The webhook of a session completes the active attempt that recorded it, and nothing where there is none. */
  lemma ConfirmCompletes(s: System, org: nat, sid: nat)
    requires ShopOk(s.shop)
    ensures var after := Next(s, Confirm(org, sid));
            && after.requests == s.requests && after.shop == s.shop.(attempts := after.shop.attempts)
            && |after.shop.attempts| == |s.shop.attempts|
            && forall id :: 0 <= id < |s.shop.attempts| ==>
                 after.shop.attempts[id]
                 == if ActiveAt(s.shop, org, id) && s.shop.attempts[id].session == Some(sid)
                    then s.shop.attempts[id].(status := Completed) else s.shop.attempts[id]
  {
    var found := LatestActive(s.shop.attempts, org);
    forall id | 0 <= id < |s.shop.attempts| && ActiveAt(s.shop, org, id)
      ensures found == Some(id)
    {
      ActiveIsFound(s.shop, org, id);
    }
  }

  /** From the answer to the end: the session is paid, the webhook comes, the attempt that asked is completed. */
  lemma PaidAnswerIsCompleted(shop: Shop, requests: seq<Request>, org: nat, want: Identity)
    requires ShopOk(shop) && org !in shop.live && !PaidAlready(shop, org)
    requires !exists id :: LostSession(shop, org, want, id)
    ensures var end := Alone(shop, org, want, ToClaim);
            && end.phase.Returned? && end.phase.session.Some?
            && var sid := end.phase.session.value;
               var paid := Next(Next(System(end.shop, requests), Pay(sid)), Confirm(org, sid)).shop;
               && Holds(paid, sid, Paid)
               && exists id ::
                    0 <= id < |paid.attempts| && paid.attempts[id] == Attempt(org, want, Completed, Some(sid))
  {
    RequestAloneIsAnswered(shop, org, want);
    var end := Alone(shop, org, want, ToClaim);
    var sid := end.phase.session.value;
    var id :| Answered(shop, end, org, want, id, sid);
    var s := Next(System(end.shop, requests), Pay(sid));
    PayIsSafe(end.shop, sid);
    ConfirmCompletes(s, org, sid);
    assert ActiveAt(s.shop, org, id);
  }
}
