/**
  Checkout attempts of every workspace together with the payment provider they
  open sessions at. Each database transaction and each provider call is one
  function here; CheckoutProtocol interleaves them, CheckoutDesk runs them.
 */
module CheckoutModel {
  import opened BillingTypes

  /** What must match for an attempt to be resumed; market and coupon already stripped. */
  datatype Identity = Identity(plan: Plan, interval: Interval, market: string, coupon: string)

  datatype AttemptStatus = Pending | Open | Completed | Expired | Replaced

  /**
    An attempt is identified by its position, which is also the part of its
    idempotency key that varies. Positions follow creation time. `session` is
    the recorded session id; the checkout URL is recorded with it and depends on it alone.
   */
  datatype Attempt = Attempt(org: nat, identity: Identity, status: AttemptStatus, session: Option<nat>)

  datatype SessionStatus = Unpaid | Paid | Lapsed

  datatype Session = Session(key: nat, identity: Identity, status: SessionStatus)

  /** Session ids are positions, so a new session has an id never seen before. */
  datatype Provider = Provider(sessions: seq<Session>, byKey: map<nat, nat>)

  /** `live` holds the workspaces whose billing is trialing, active or past due. */
  datatype Shop = Shop(attempts: seq<Attempt>, provider: Provider, live: set<nat>)

  predicate IsActive(a: Attempt) {
    a.status == Pending || a.status == Open
  }

  /** The active attempt of a workspace that was created last. */
  function LatestActive(attempts: seq<Attempt>, org: nat): (found: Option<nat>)
    ensures found.Some? ==>
              found.value < |attempts| && IsActive(attempts[found.value]) && attempts[found.value].org == org
    ensures forall b :: (if found.Some? then found.value + 1 else 0) <= b < |attempts| && attempts[b].org == org ==>
              !IsActive(attempts[b])
  {
    if attempts == [] then
      None
    else
      var last := |attempts| - 1;
      if attempts[last].org == org && IsActive(attempts[last]) then Some(last) else LatestActive(attempts[..last], org)
  }

  /** The partial unique index: at most one active attempt for each workspace. */
  predicate OtherActive(attempts: seq<Attempt>, id: nat, org: nat) {
    exists b :: 0 <= b < |attempts| && b != id && attempts[b].org == org && IsActive(attempts[b])
  }

  /** The attempts after a claim or replacement, and the attempt to go on with. */
  datatype Claim = Claim(attempts: seq<Attempt>, id: nat)

  function ClaimAttempt(attempts: seq<Attempt>, org: nat, want: Identity): (c: Claim)
    ensures c.id < |c.attempts|
  {
    match LatestActive(attempts, org)
    case Some(id) => Claim(attempts, id)
    case None => Claim(attempts + [Attempt(org, want, Pending, None)], |attempts|)
  }

  function MarkIfActive(attempts: seq<Attempt>, id: nat, status: AttemptStatus): seq<Attempt> {
    if id < |attempts| && IsActive(attempts[id]) then
      attempts[id := attempts[id].(status := status)]
    else
      attempts
  }

  function ReplaceAttempt(attempts: seq<Attempt>, org: nat, want: Identity, previous: nat): (c: Claim)
    ensures c.id < |c.attempts|
  {
    ClaimAttempt(MarkIfActive(attempts, previous, Replaced), org, want)
  }

  function MarkCompleted(attempts: seq<Attempt>, id: nat): seq<Attempt> {
    if id < |attempts| then attempts[id := attempts[id].(status := Completed)] else attempts
  }

  /** Refused: the row is missing or replaced, or the unique index rejects the write. */
  datatype Persisted = Refused | Saved(attempts: seq<Attempt>, session: Option<nat>)

  function PersistOpen(attempts: seq<Attempt>, id: nat, sid: nat): Persisted {
    if id >= |attempts| || attempts[id].status == Replaced then
      Refused
    else if attempts[id].status == Completed then
      Saved(attempts, attempts[id].session)
    else if OtherActive(attempts, id, attempts[id].org) then
      Refused
    else
      Saved(attempts[id := attempts[id].(status := Open, session := Some(sid))], Some(sid))
  }

  /** The webhook's lookup: an active attempt of the workspace that recorded this session. */
  predicate Awaits(a: Attempt, org: nat, sid: nat) {
    IsActive(a) && a.org == org && a.session == Some(sid)
  }

  function CompleteForSession(attempts: seq<Attempt>, org: nat, sid: nat): seq<Attempt> {
    match LatestActive(attempts, org)
    case Some(id) => if Awaits(attempts[id], org, sid) then MarkCompleted(attempts, id) else attempts
    case None => attempts
  }

  // The provider

  datatype Created = Created(provider: Provider, sid: nat)

  function CreateSession(p: Provider, key: nat, want: Identity): Created {
    if key in p.byKey then
      Created(p, p.byKey[key])
    else
      var sid := |p.sessions|;
      Created(Provider(p.sessions + [Session(key, want, Unpaid)], p.byKey[key := sid]), sid)
  }

  /** A paid session cannot be expired: the provider raises and nothing changes. */
  function ExpireSession(p: Provider, sid: nat): Provider {
    if sid < |p.sessions| && p.sessions[sid].status != Paid then
      p.(sessions := p.sessions[sid := p.sessions[sid].(status := Lapsed)])
    else
      p
  }

  /** A lapsed session cannot be paid: the provider raises and nothing changes. */
  function PaySession(p: Provider, sid: nat): Provider {
    if sid < |p.sessions| && p.sessions[sid].status != Lapsed then
      p.(sessions := p.sessions[sid := p.sessions[sid].(status := Paid)])
    else
      p
  }

  // One checkout request, cut where its transactions and provider calls end

  datatype Phase =
    | ToClaim
    | ToInspect(id: nat, sid: nat)
    | ToComplete(id: nat, sid: nat)
    | ToMarkExpired(id: nat)
    | ToReclaim
    | ToRecord(id: nat, sid: nat)
    | ToCreate(id: nat)
    | ToPersist(id: nat, sid: nat)
    | ToInspectOld(id: nat, sid: nat)
    | ToExpireOld(id: nat, sid: nat)
    | ToMarkOldExpired(id: nat)
    | ToReplace(id: nat)
    | Returned(session: Option<nat>)
    | Processing(sid: nat)
    | Failed
    | Crashed

  predicate Finished(p: Phase) {
    p.Returned? || p.Processing? || p.Failed? || p.Crashed?
  }

  datatype Progress = Progress(shop: Shop, phase: Phase)

  /** Where a request goes with the attempt it claimed. */
  function Route(a: Attempt, id: nat, want: Identity): Phase {
    if a.identity == want then
      if a.session.Some? then ToInspect(id, a.session.value) else ToCreate(id)
    else
      if a.session.Some? then ToInspectOld(id, a.session.value) else ToReplace(id)
  }

  /** One transaction or provider call. `fault` makes a provider call raise. */
  function Advance(shop: Shop, org: nat, want: Identity, phase: Phase, fault: bool): Progress {
    var sessions := shop.provider.sessions;
    match phase
    case ToClaim =>
      if org in shop.live then Progress(shop, Failed) else
        var c := ClaimAttempt(shop.attempts, org, want);
        Progress(shop.(attempts := c.attempts), Route(c.attempts[c.id], c.id, want))
    case ToInspect(id, sid) =>
      if fault || sid >= |sessions| then Progress(shop, ToCreate(id)) else
        (match sessions[sid].status
         case Paid => Progress(shop, ToComplete(id, sid))
         case Lapsed => Progress(shop, ToMarkExpired(id))
         case Unpaid => Progress(shop, ToRecord(id, sid)))
    case ToComplete(id, sid) =>
      Progress(shop.(attempts := MarkCompleted(shop.attempts, id)), Processing(sid))
    case ToMarkExpired(id) =>
      Progress(shop.(attempts := MarkIfActive(shop.attempts, id, Expired)), ToReclaim)
    case ToReclaim =>
      if org in shop.live then Progress(shop, Failed) else
        var c := ClaimAttempt(shop.attempts, org, want);
        Progress(shop.(attempts := c.attempts), ToCreate(c.id))
    case ToRecord(id, sid) =>
      if id < |shop.attempts| && shop.attempts[id].status == Pending then
        (match PersistOpen(shop.attempts, id, sid)
         case Refused => Progress(shop, Failed)
         case Saved(attempts, _) => Progress(shop.(attempts := attempts), Returned(Some(sid))))
      else
        Progress(shop, Returned(Some(sid)))
    case ToCreate(id) =>
      if fault || id >= |shop.attempts| then Progress(shop, Failed) else
        var made := CreateSession(shop.provider, id, want);
        Progress(shop.(provider := made.provider), ToPersist(id, made.sid))
    case ToPersist(id, sid) =>
      (match PersistOpen(shop.attempts, id, sid)
       case Refused => Progress(shop, Failed)
       case Saved(attempts, session) => Progress(shop.(attempts := attempts), Returned(session)))
    case ToInspectOld(id, sid) =>
      if fault || sid >= |sessions| then Progress(shop, ToExpireOld(id, sid)) else
        (match sessions[sid].status
         case Paid => Progress(shop, ToComplete(id, sid))
         case Lapsed => Progress(shop, ToMarkOldExpired(id))
         case Unpaid => Progress(shop, ToExpireOld(id, sid)))
    case ToExpireOld(id, sid) =>
      Progress(if fault then shop else shop.(provider := ExpireSession(shop.provider, sid)), ToReplace(id))
    case ToMarkOldExpired(id) =>
      Progress(shop.(attempts := MarkIfActive(shop.attempts, id, Expired)), ToReplace(id))
    case ToReplace(id) =>
      if org in shop.live then Progress(shop, Failed) else
        var c := ReplaceAttempt(shop.attempts, org, want, id);
        Progress(shop.(attempts := c.attempts), ToCreate(c.id))
    case _ => Progress(shop, phase)
  }

  /** How many calls a request can still make. */
  function Rank(p: Phase): (left: nat)
    ensures left == 0 <==> Finished(p)
  {
    match p
    case ToClaim => 7
    case ToInspectOld(_, _) => 6
    case ToExpireOld(_, _) => 5
    case ToMarkOldExpired(_) => 5
    case ToReplace(_) => 4
    case ToInspect(_, _) => 5
    case ToMarkExpired(_) => 4
    case ToReclaim => 3
    case ToCreate(_) => 2
    case ToPersist(_, _) => 1
    case ToRecord(_, _) => 1
    case ToComplete(_, _) => 1
    case _ => 0
  }

  /** Which provider calls raise during one request. */
  datatype Faults = Faults(retrieve: bool, expire: bool, create: bool)

  predicate FaultAt(p: Phase, f: Faults) {
    match p
    case ToInspect(_, _) => f.retrieve
    case ToInspectOld(_, _) => f.retrieve
    case ToExpireOld(_, _) => f.expire
    case ToCreate(_) => f.create
    case _ => false
  }

  /** A request that nothing interrupts. */
  function Drive(shop: Shop, org: nat, want: Identity, phase: Phase, f: Faults): (end: Progress)
    ensures Finished(end.phase)
    decreases Rank(phase)
  {
    if Finished(phase) then
      Progress(shop, phase)
    else
      var next := Advance(shop, org, want, phase, FaultAt(phase, f));
      Drive(next.shop, org, want, next.phase, f)
  }

  lemma DriveEnds(shop: Shop, org: nat, want: Identity, phase: Phase, f: Faults)
    requires !Finished(phase) && Finished(Advance(shop, org, want, phase, FaultAt(phase, f)).phase)
    ensures Drive(shop, org, want, phase, f) == Advance(shop, org, want, phase, FaultAt(phase, f))
  {
    var end := Advance(shop, org, want, phase, FaultAt(phase, f));
    assert Drive(end.shop, org, want, end.phase, f) == end;
  }
}
