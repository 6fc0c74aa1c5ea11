/**
  The checkout code itself: the attempt table and the provider are updated in
  place. A request that runs alone is shown to take exactly the steps that
  CheckoutProtocol interleaves.
 */
module CheckoutDeskModule {
  import opened BillingTypes
  import opened CheckoutModel
  import opened Reconciliation
  import opened CheckoutPurchase

  class CheckoutProvider {
    var checkouts: seq<Session>
    var checkoutByIdempotency: map<nat, nat>
    var subscriptions: map<string, Snapshot>

    function View(): Provider
      reads this
    {
      Provider(checkouts, checkoutByIdempotency)
    }

    /** Every key leads to one of the sessions. */
    predicate Valid()
      reads this
    {
      forall k :: k in checkoutByIdempotency ==> checkoutByIdempotency[k] < |checkouts|
    }

    constructor ()
      ensures Valid() && View() == Provider([], map[]) && subscriptions == map[]
    {
      checkouts, checkoutByIdempotency, subscriptions := [], map[], map[];
    }

    /** The same key is answered with the same session; None is the provider raising. */
    method CreateCheckoutSession(key: nat, want: Identity, fail: bool) returns (sid: Option<nat>)
      requires Valid()
      modifies this`checkouts, this`checkoutByIdempotency
      ensures Valid()
      ensures fail ==> sid == None && View() == old(View())
      ensures !fail ==> sid.Some? && Created(View(), sid.value) == CreateSession(old(View()), key, want)
    {
      if fail { return None; }
      if key in checkoutByIdempotency {
        return Some(checkoutByIdempotency[key]);
      }
      var fresh_id := |checkouts|;
      checkouts := checkouts + [Session(key, want, Unpaid)];
      checkoutByIdempotency := checkoutByIdempotency[key := fresh_id];
      return Some(fresh_id);
    }

    method ExpireCheckoutSession(sid: nat)
      requires Valid()
      modifies this`checkouts
      ensures Valid()
      ensures View() == ExpireSession(old(View()), sid)
    {
      if sid < |checkouts| {
        if checkouts[sid].status == Paid { return; }
        checkouts := checkouts[sid := checkouts[sid].(status := Lapsed)];
      }
    }

    /** `terms` is what the session was created with, `subscription` a fresh id; None is the provider raising. */
    method CompleteCheckout(sid: nat, terms: Terms, subscription: string, now: Time)
      returns (snapshot: Option<Snapshot>)
      requires Valid()
      modifies this`checkouts, this`subscriptions
      ensures Valid()
      ensures View() == PaySession(old(View()), sid)
      ensures snapshot == if sid < |old(checkouts)| && old(checkouts)[sid].status != Lapsed
                          then Some(Purchased(old(checkouts)[sid].identity, terms, subscription, now)) else None
      ensures subscriptions == if snapshot.Some? then old(subscriptions)[subscription := snapshot.value]
                               else old(subscriptions)
    {
      if sid >= |checkouts| || checkouts[sid].status == Lapsed { return None; }
      var bought := Purchased(checkouts[sid].identity, terms, subscription, now);
      subscriptions := subscriptions[subscription := bought];
      checkouts := checkouts[sid := checkouts[sid].(status := Paid)];
      return Some(bought);
    }

    /** None is the provider raising: the call failed or it knows no such session. */
    method RetrieveCheckoutSession(sid: nat, fail: bool) returns (status: Option<SessionStatus>)
      ensures status == if fail || sid >= |View().sessions| then None else Some(View().sessions[sid].status)
    {
      if fail || sid >= |checkouts| { return None; }
      return Some(checkouts[sid].status);
    }
  }

  class CheckoutDesk {
    var attempts: seq<Attempt>
    var live: set<nat>
    const provider: CheckoutProvider

    function View(): Shop
      reads this, provider
    {
      Shop(attempts, provider.View(), live)
    }

    predicate Valid()
      reads this, provider
    {
      provider.Valid()
    }

    constructor (p: CheckoutProvider)
      requires p.Valid()
      ensures Valid() && provider == p && attempts == [] && live == {}
    {
      provider, attempts, live := p, [], {};
    }

    method ActiveAttemptForUpdate(org: nat) returns (found: Option<nat>)
      ensures found == LatestActive(attempts, org)
    {
      var i := |attempts|;
      assert attempts[..i] == attempts;
      while i > 0
        invariant 0 <= i <= |attempts|
        invariant LatestActive(attempts, org) == LatestActive(attempts[..i], org)
      {
        i := i - 1;
        assert attempts[..i + 1][..i] == attempts[..i];
        if attempts[i].org == org && IsActive(attempts[i]) { return Some(i); }
      }
      return None;
    }

    /** None is the workspace having a subscription already. */
    method ClaimCheckoutAttempt(org: nat, want: Identity) returns (id: Option<nat>)
      modifies `attempts
      ensures org in live ==> id == None && attempts == old(attempts)
      ensures org !in live ==> id.Some? && Claim(attempts, id.value) == ClaimAttempt(old(attempts), org, want)
    {
      if org in live { return None; }
      var existing := ActiveAttemptForUpdate(org);
      if existing.Some? { return existing; }
      attempts := attempts + [Attempt(org, want, Pending, None)];
      return Some(|attempts| - 1);
    }

    method ReplaceActiveAttempt(org: nat, want: Identity, previous: nat) returns (id: Option<nat>)
      modifies `attempts
      ensures org in live ==> id == None && attempts == old(attempts)
      ensures org !in live ==>
                id.Some? && Claim(attempts, id.value) == ReplaceAttempt(old(attempts), org, want, previous)
    {
      if org in live { return None; }
      if previous < |attempts| && IsActive(attempts[previous]) {
        attempts := attempts[previous := attempts[previous].(status := Replaced)];
      }
      // The unique index refuses the insert when another attempt is active.
      var existing := ActiveAttemptForUpdate(org);
      if existing.Some? { return existing; }
      attempts := attempts + [Attempt(org, want, Pending, None)];
      return Some(|attempts| - 1);
    }

    method MarkExpired(id: nat)
      modifies `attempts
      ensures attempts == MarkIfActive(old(attempts), id, Expired)
    {
      if id < |attempts| && IsActive(attempts[id]) {
        attempts := attempts[id := attempts[id].(status := Expired)];
      }
    }

    method PersistOpenSession(id: nat, sid: nat) returns (saved: bool, session: Option<nat>)
      modifies `attempts
      ensures !saved ==> PersistOpen(old(attempts), id, sid) == Refused && attempts == old(attempts)
      ensures saved ==> PersistOpen(old(attempts), id, sid) == Saved(attempts, session)
    {
      if id >= |attempts| { return false, None; }
      if attempts[id].status == Completed { return true, attempts[id].session; }
      if attempts[id].status == Replaced { return false, None; }
      if OtherActive(attempts, id, attempts[id].org) { return false, None; }
      attempts := attempts[id := attempts[id].(session := Some(sid), status := Open)];
      return true, Some(sid);
    }

    method HandleCompletedAttempt(id: nat, sid: nat) returns (answer: Phase)
      modifies `attempts
      ensures attempts == MarkCompleted(old(attempts), id) && answer == Processing(sid)
    {
      if id < |attempts| {
        attempts := attempts[id := attempts[id].(status := Completed)];
      }
      return Processing(sid);
    }

    method MarkAttemptCompletedForSession(org: nat, sid: nat)
      modifies `attempts
      ensures attempts == CompleteForSession(old(attempts), org, sid)
    {
      var found := ActiveAttemptForUpdate(org);
      if found.Some? && attempts[found.value].session == Some(sid) {
        attempts := attempts[found.value := attempts[found.value].(status := Completed)];
      }
    }

    method CreateStripeSessionForAttempt(org: nat, want: Identity, id: nat, f: Faults) returns (answer: Phase)
      requires Valid() && id < |attempts|
      modifies this`attempts, provider
      ensures Valid()
      ensures Progress(View(), answer) == Drive(old(View()), org, want, ToCreate(id), f)
    {
      ghost var start := View();
      var sid := provider.CreateCheckoutSession(id, want, f.create);
      if sid == None { return Failed; }
      ghost var created := View();
      assert Drive(start, org, want, ToCreate(id), f) == Drive(created, org, want, ToPersist(id, sid.value), f);
      var saved, session := PersistOpenSession(id, sid.value);
      answer := if saved then Returned(session) else Failed;
      DriveEnds(created, org, want, ToPersist(id, sid.value), f);
    }

    method ResumeOrCreateSamePlan(org: nat, want: Identity, id: nat, f: Faults) returns (answer: Phase)
      requires Valid() && id < |attempts| && attempts[id].identity == want
      modifies this`attempts, provider
      ensures Valid()
      ensures Progress(View(), answer) == Drive(old(View()), org, want, Route(old(attempts)[id], id, want), f)
    {
      ghost var start := View();
      if attempts[id].session.Some? {
        var sid := attempts[id].session.value;
        var status := provider.RetrieveCheckoutSession(sid, f.retrieve);
        if status.Some? {
          match status.value {
            case Paid =>
              assert Drive(start, org, want, ToInspect(id, sid), f) == Drive(start, org, want, ToComplete(id, sid), f);
              answer := HandleCompletedAttempt(id, sid);
              DriveEnds(start, org, want, ToComplete(id, sid), f);
              return;
            case Lapsed =>
              assert Drive(start, org, want, ToInspect(id, sid), f) == Drive(start, org, want, ToMarkExpired(id), f);
              answer := ReclaimAfterExpiry(org, want, id, f);
              return;
            case Unpaid =>
              assert Drive(start, org, want, ToInspect(id, sid), f) == Drive(start, org, want, ToRecord(id, sid), f);
              answer := Returned(Some(sid));
              if attempts[id].status == Pending {
                var saved, _ := PersistOpenSession(id, sid);
                if !saved { answer := Failed; }
              }
              DriveEnds(start, org, want, ToRecord(id, sid), f);
              return;
          }
        }
        assert Drive(start, org, want, ToInspect(id, sid), f) == Drive(start, org, want, ToCreate(id), f);
      }
      answer := CreateStripeSessionForAttempt(org, want, id, f);
    }

    method ReclaimAfterExpiry(org: nat, want: Identity, id: nat, f: Faults) returns (answer: Phase)
      requires Valid() && id < |attempts|
      modifies this`attempts, provider
      ensures Valid()
      ensures Progress(View(), answer) == Drive(old(View()), org, want, ToMarkExpired(id), f)
    {
      ghost var start := View();
      MarkExpired(id);
      ghost var marked := View();
      assert Drive(start, org, want, ToMarkExpired(id), f) == Drive(marked, org, want, ToReclaim, f);
      var again := ClaimCheckoutAttempt(org, want);
      if again == None { return Failed; }
      assert Drive(marked, org, want, ToReclaim, f) == Drive(View(), org, want, ToCreate(again.value), f);
      answer := CreateStripeSessionForAttempt(org, want, again.value, f);
    }

    method ReplaceAndCreate(org: nat, want: Identity, id: nat, f: Faults) returns (answer: Phase)
      requires Valid()
      modifies this`attempts, provider
      ensures Valid()
      ensures Progress(View(), answer) == Drive(old(View()), org, want, ToReplace(id), f)
    {
      ghost var start := View();
      var next := ReplaceActiveAttempt(org, want, id);
      if next == None { return Failed; }
      assert Drive(start, org, want, ToReplace(id), f) == Drive(View(), org, want, ToCreate(next.value), f);
      answer := CreateStripeSessionForAttempt(org, want, next.value, f);
    }

    method HandlePlanChange(org: nat, want: Identity, id: nat, f: Faults) returns (answer: Phase)
      requires Valid() && id < |attempts| && attempts[id].identity != want
      modifies this`attempts, provider
      ensures Valid()
      ensures Progress(View(), answer) == Drive(old(View()), org, want, Route(old(attempts)[id], id, want), f)
    {
      ghost var start := View();
      if attempts[id].session.Some? {
        var sid := attempts[id].session.value;
        var status := provider.RetrieveCheckoutSession(sid, f.retrieve);
        if status == Some(Paid) {
          assert Drive(start, org, want, ToInspectOld(id, sid), f) == Drive(start, org, want, ToComplete(id, sid), f);
          answer := HandleCompletedAttempt(id, sid);
          DriveEnds(start, org, want, ToComplete(id, sid), f);
          return;
        }
        if status == Some(Lapsed) {
          assert Drive(start, org, want, ToInspectOld(id, sid), f) == Drive(start, org, want, ToMarkOldExpired(id), f);
          MarkExpired(id);
          assert Drive(start, org, want, ToMarkOldExpired(id), f) == Drive(View(), org, want, ToReplace(id), f);
        } else {
          assert Drive(start, org, want, ToInspectOld(id, sid), f) == Drive(start, org, want, ToExpireOld(id, sid), f);
          if !f.expire { provider.ExpireCheckoutSession(sid); }
          assert Drive(start, org, want, ToExpireOld(id, sid), f) == Drive(View(), org, want, ToReplace(id), f);
        }
      }
      answer := ReplaceAndCreate(org, want, id, f);
    }

    /** A request nothing interrupts does what its steps, taken one after another, do. */
    method CreateOrResumeCheckoutSession(org: nat, want: Identity, f: Faults) returns (answer: Phase)
      requires Valid()
      modifies this`attempts, provider
      ensures Valid()
      ensures Progress(View(), answer) == Drive(old(View()), org, want, ToClaim, f)
    {
      ghost var start := View();
      var id := ClaimCheckoutAttempt(org, want);
      if id == None { return Failed; }
      ghost var claimed := View();
      assert Drive(start, org, want, ToClaim, f) ==
          Drive(claimed, org, want, Route(claimed.attempts[id.value], id.value, want), f);
      if attempts[id.value].identity != want {
        answer := HandlePlanChange(org, want, id.value, f);
      } else {
        answer := ResumeOrCreateSamePlan(org, want, id.value, f);
      }
    }
  }
}
