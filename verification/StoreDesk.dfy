/**
  The store deliveries as the service performs them: billing rows and store
  details of all workspaces, updated in place. The details of workspace i are at
  index i.
 */
module StoreDeskModule {
  import opened BillingTypes
  import opened BillingServices
  import opened WorkspaceBilling
  import opened StoreEntitlements
  import opened StoreOwnership

  /** The commercial half of an entitled Google delivery, on the locked billing row. */
  method GrantGoogle(w: Workspace, p: Purchase, now: Time) returns (result: Result)
    modifies w
    ensures Outcome(w.View(), result) == GoogleAccount(old(w.View()), p, now)
  {
    result := w.ActivatePaidSubscription(GoogleSale(p, now), now);
    if result != Done {
      return;
    }
    var lockedCancel, lockedStatus := w.row.cancel, w.row.status;
    if GoogleCancels(p) {
      result := w.ScheduleCancel(p.expiresAt);
    } else if p.autoRenew == Some(true) && lockedCancel {
      assert false;  // a row just activated has no cancellation to clear
    }
    if p.state == GoogleInGrace {
      result := w.MarkPaymentFailure(Some(now), p.expiresAt, now);
    } else if p.state == GoogleActive && lockedStatus == PastDue {
      assert false;  // nor a payment failure to recover from
    }
  }

  /** The commercial half of an entitled Apple delivery. */
  method GrantApple(w: Workspace, n: Transaction, autoRenew: Option<bool>, now: Time) returns (result: Result)
    modifies w
    ensures Outcome(w.View(), result) == AppleAccount(old(w.View()), n, autoRenew, now)
  {
    result := w.ActivatePaidSubscription(AppleSale(n, now), now);
    if result != Done {
      return;
    }
    var lockedCancel, lockedStatus := w.row.cancel, w.row.status;
    if autoRenew == Some(false) {
      result := w.ScheduleCancel(n.expiresAt);
    } else if autoRenew == Some(true) && lockedCancel {
      assert false;  // a row just activated has no cancellation to clear
    }
    if lockedStatus == PastDue && autoRenew != Some(false) {
      assert false;  // nor a payment failure to recover from
    }
  }

  class StoreDesk {
    const workspaces: seq<Workspace>
    var google: seq<Option<GoogleDetails>>
    var apple: seq<Option<AppleDetails>>
    var appTokens: seq<string>

    ghost predicate Valid()
      reads this
    {
      && |google| == |apple| == |appTokens| == |workspaces|
      && forall i, j :: 0 <= i < j < |workspaces| ==> workspaces[i] != workspaces[j]
    }

    function TenantAt(i: nat): Tenant
      requires i < |workspaces| && |google| == |apple| == |appTokens| == |workspaces|
      reads this, workspaces
    {
      Tenant(workspaces[i].View(), google[i], apple[i], appTokens[i])
    }

    function View(): (w: World)
      requires |google| == |apple| == |appTokens| == |workspaces|
      reads this, workspaces
      ensures |w| == |workspaces| && forall i :: 0 <= i < |w| ==> w[i] == TenantAt(i)
    {
      seq(|workspaces|, i requires 0 <= i < |workspaces| && |google| == |apple| == |appTokens| == |workspaces|
                          reads this, workspaces => TenantAt(i))
    }

    constructor (all: seq<Workspace>)
      requires forall i, j :: 0 <= i < j < |all| ==> all[i] != all[j]
      ensures Valid() && workspaces == all
      ensures forall i :: 0 <= i < |all| ==> TenantAt(i) == Tenant(all[i].View(), None, None, "")
    {
      workspaces := all;
      google := seq(|all|, i => None);
      apple := seq(|all|, i => None);
      appTokens := seq(|all|, i => "");
    }

    method FindToken(token: string) returns (hit: Option<nat>)
      requires Valid()
      ensures hit == FirstBy(View(), TokenOf, token)
    {
      ghost var w := View();
      for n := 0 to |google|
        invariant FirstBy(w, TokenOf, token) == FirstBy(w, TokenOf, token, n)
      {
        if (if google[n].Some? then google[n].value.token else "") == token {
          return Some(n);
        }
      }
      return None;
    }

    method FindLinked(token: string) returns (hit: Option<nat>)
      requires Valid()
      ensures hit == FirstBy(View(), LinkedOf, token)
    {
      ghost var w := View();
      for n := 0 to |google|
        invariant FirstBy(w, LinkedOf, token) == FirstBy(w, LinkedOf, token, n)
      {
        if (if google[n].Some? then google[n].value.linked else "") == token {
          return Some(n);
        }
      }
      return None;
    }

    method FindOriginal(original: string) returns (hit: Option<nat>)
      requires Valid()
      ensures hit == FirstBy(View(), OriginalOf, original)
    {
      ghost var w := View();
      for n := 0 to |apple|
        invariant FirstBy(w, OriginalOf, original) == FirstBy(w, OriginalOf, original, n)
      {
        if (if apple[n].Some? then apple[n].value.original else "") == original {
          return Some(n);
        }
      }
      return None;
    }

    method FindOwnToken(token: string) returns (hit: Option<nat>)
      requires Valid()
      ensures hit == FirstBy(View(), OwnTokenOf, token)
    {
      ghost var w := View();
      for n := 0 to |appTokens|
        invariant FirstBy(w, OwnTokenOf, token) == FirstBy(w, OwnTokenOf, token, n)
      {
        if appTokens[n] == token {
          return Some(n);
        }
      }
      return None;
    }

    method FindBoundToken(token: string) returns (hit: Option<nat>)
      requires Valid()
      ensures hit == FirstBy(View(), BoundTokenOf, token)
    {
      ghost var w := View();
      for n := 0 to |apple|
        invariant FirstBy(w, BoundTokenOf, token) == FirstBy(w, BoundTokenOf, token, n)
      {
        if (if apple[n].Some? then apple[n].value.appToken else "") == token {
          return Some(n);
        }
      }
      return None;
    }

    /** The account token shown on the billing page, made up on the first visit. */
    method EnsureAppleAppAccountToken(ws: nat, spare: string, now: Time) returns (token: string)
      requires Valid() && ws < |workspaces|
      modifies this`appTokens
      ensures Valid()
      ensures View() == After(old(View()), ShowState(ws, spare), now)
      ensures token == OwnTokenOf(View()[ws])
    {
      ghost var before := View();
      if appTokens[ws] == "" {
        appTokens := appTokens[ws := spare];
      }
      assert View() == before[ws := TenantAt(ws)];
      return appTokens[ws];
    }

    method AssertUnbound(ws: nat, candidate: string) returns (free: bool)
      requires Valid() && ws < |workspaces|
      ensures free == Clear(View(), ws, candidate)
    {
      if candidate != "" {
        var existing := FindToken(candidate);
        if existing.Some? && existing.value != ws {
          return false;
        }
        var linkedHit := FindLinked(candidate);
        if linkedHit.Some? && linkedHit.value != ws {
          return false;
        }
      }
      return true;
    }

    method AssertTokenOwnership(ws: nat, token: string, linked: string) returns (free: bool)
      requires Valid() && ws < |workspaces|
      ensures free == (Clear(View(), ws, token) && Clear(View(), ws, linked))
    {
      var candidates := [token];
      if linked != "" {
        candidates := candidates + [linked];
      }
      ghost var world := View();
      for n := 0 to |candidates|
        invariant forall k :: 0 <= k < n ==> Clear(world, ws, candidates[k])
      {
        var unbound := AssertUnbound(ws, candidates[n]);
        if !unbound {
          return false;
        }
      }
      assert token == candidates[0] && (linked != "" ==> linked == candidates[1]);
      return true;
    }

    method SettleGoogle(ws: nat, p: Purchase, free: bool, now: Time) returns (result: Result)
      requires Valid() && ws < |workspaces|
      modifies this`google, workspaces[ws]
      ensures Valid()
      ensures StoreOutcome(TenantAt(ws), result) == ApplyGoogle(old(TenantAt(ws)), p, free, now)
      ensures forall i :: 0 <= i < |workspaces| && i != ws ==> google[i] == old(google[i])
    {
      var w := workspaces[ws];
      if !CanStart(w.row.source, Google) {
        return Raised(SourceLocked);
      }
      if !free {
        return Raised(BoundElsewhere);
      }
      if !GoogleEntitles(p, now) {
        if w.row.source == Google {
          w.FinalizeSubscriptionEnd(now);
          if google[ws].Some? {
            google := google[ws := Some(GoogleDetails(p.token, p.linked, p.product, p.expiresAt, Some(false)))];
          }
        }
        return Done;
      }
      if p.expiresAt.None? {
        return Raised(Incomplete);
      }
      result := GrantGoogle(w, p, now);
      if result == Done {
        google := google[ws := Some(BoundGoogle(google[ws], p))];
      }
    }

    method ApplyGoogleEntitlement(ws: nat, p: Purchase, now: Time) returns (result: Result)
      requires Valid() && ws < |workspaces|
      modifies this`google, workspaces[ws]
      ensures Valid()
      ensures View() == After(old(View()), FromGoogle(ws, p), now)
      ensures result == Deliver(old(View()), FromGoogle(ws, p), now).result
    {
      ghost var before := View();
      var free := AssertTokenOwnership(ws, p.token, p.linked);
      result := SettleGoogle(ws, p, free, now);
      assert View() == before[ws := TenantAt(ws)];
    }

    method RevokeApple(ws: nat, revokedAt: Option<Time>, now: Time)
      requires Valid() && ws < |workspaces|
      modifies this`apple, workspaces[ws]
      ensures Valid()
      ensures workspaces[ws].View() == FinalizeEnd(old(workspaces[ws].View()), now).account
      ensures apple == if old(apple)[ws].Some?
                       then old(apple)[ws := Some(AppleEnded(old(apple)[ws].value, revokedAt))]
                       else old(apple)
    {
      workspaces[ws].FinalizeSubscriptionEnd(now);
      if apple[ws].Some? {
        apple := apple[ws := Some(AppleEnded(apple[ws].value, revokedAt))];
      }
    }

    method BindApple(ws: nat, n: Transaction, autoRenew: Option<bool>, token: string)
      requires Valid() && ws < |workspaces|
      modifies this`apple, this`appTokens
      ensures Valid()
      ensures appTokens == old(appTokens)[ws := token]
      ensures apple == old(apple)[ws := Some(BoundApple(old(apple)[ws], n, autoRenew, OrElse(n.appToken, token)))]
    {
      appTokens := appTokens[ws := token];
      apple := apple[ws := Some(BoundApple(apple[ws], n, autoRenew, OrElse(n.appToken, token)))];
    }

    /** Revoked, expired, incomplete or entitled, in this order. */
    method SettleApple(ws: nat, n: Transaction, autoRenew: Option<bool>, known: bool, token: string, now: Time)
      returns (result: Result)
      requires Valid() && ws < |workspaces|
      modifies this`apple, this`appTokens, workspaces[ws]
      ensures Valid()
      ensures StoreOutcome(TenantAt(ws), result) == SettledApple(old(TenantAt(ws)), n, autoRenew, known, token, now)
      ensures forall i :: 0 <= i < |workspaces| && i != ws ==>
                apple[i] == old(apple[i]) && appTokens[i] == old(appTokens[i])
    {
      var w := workspaces[ws];
      if n.revokedAt.Some? && n.revokedAt.value <= now {
        appTokens := appTokens[ws := token];
        if w.row.source == Apple {
          RevokeApple(ws, n.revokedAt, now);
        }
        return Done;
      }
      if n.expiresAt.Some? && n.expiresAt.value <= now {
        appTokens := appTokens[ws := token];
        if w.row.source == Apple || known {
          w.FinalizeSubscriptionEnd(now);
        }
        return Done;
      }
      if n.expiresAt.None? {
        return Raised(Incomplete);
      }
      result := GrantApple(w, n, autoRenew, now);
      if result == Done {
        BindApple(ws, n, autoRenew, token);
      }
    }

    method CheckAndSettleApple(ws: nat, n: Transaction, autoRenew: Option<bool>, known: bool, free: bool,
            spare: string, now: Time)
      returns (result: Result)
      requires Valid() && ws < |workspaces|
      modifies this`apple, this`appTokens, workspaces[ws]
      ensures Valid()
      ensures StoreOutcome(TenantAt(ws), result) == ApplyApple(old(TenantAt(ws)), n, autoRenew, known, free, spare, now)
      ensures forall i :: 0 <= i < |workspaces| && i != ws ==>
                apple[i] == old(apple[i]) && appTokens[i] == old(appTokens[i])
    {
      if !CanStart(workspaces[ws].row.source, Apple) {
        return Raised(SourceLocked);
      }
      var token := if appTokens[ws] != "" then appTokens[ws] else spare;
      if n.appToken != "" && token != "" && n.appToken != token {
        return Raised(TokenMismatch);
      }
      if !free {
        return Raised(BoundElsewhere);
      }
      result := SettleApple(ws, n, autoRenew, known, token, now);
    }

    method ApplyAppleEntitlement(ws: nat, n: Transaction, autoRenew: Option<bool>, spare: string, now: Time)
      returns (result: Result)
      requires Valid() && ws < |workspaces|
      modifies this`apple, this`appTokens, workspaces[ws]
      ensures Valid()
      ensures View() == After(old(View()), FromApple(ws, n, autoRenew, spare), now)
      ensures result == Deliver(old(View()), FromApple(ws, n, autoRenew, spare), now).result
    {
      ghost var before := View();
      var existing := FindOriginal(n.original);
      result := CheckAndSettleApple(ws, n, autoRenew, existing.Some?, Mine(existing, ws), spare, now);
      assert View() == before[ws := TenantAt(ws)];
    }

    /** A server notification for the workspace it resolves to. */
    method ReconcileAppleFromNotification(ws: nat, kind: Notice, n: Transaction, autoRenew: Option<bool>,
            spare: string, now: Time)
      returns (result: Result)
      requires Valid() && ws < |workspaces|
      modifies this`apple, this`appTokens, workspaces[ws]
      ensures Valid()
      ensures View() == After(old(View()), FromAppleServer(ws, kind, n, autoRenew, spare), now)
      ensures result == Deliver(old(View()), FromAppleServer(ws, kind, n, autoRenew, spare), now).result
    {
      ghost var before := View();
      var w := workspaces[ws];
      result := Done;
      match kind {
        case Expiry =>
          if w.row.source == Apple {
            w.FinalizeSubscriptionEnd(now);
          }
        case Refund =>
          result := ApplyAppleEntitlement(ws, Revoked(n, now), Some(false), spare, now);
          return;
        case RenewalFailure =>
          if w.row.source == Apple {
            result := w.MarkPaymentFailure(None, None, now);
            if result == Done && autoRenew.Some? && apple[ws].Some? {
              apple := apple[ws := Some(apple[ws].value.(autoRenew := autoRenew))];
            }
          }
        case Renewal =>
          result := ApplyAppleEntitlement(ws, n, autoRenew, spare, now);
          return;
      }
      assert View() == before[ws := TenantAt(ws)];
    }

    method FindOrganizationForAppAccountToken(token: string) returns (owner: Option<nat>)
      requires Valid()
      ensures owner == ResolveAccountToken(View(), token)
    {
      if token == "" {
        return None;
      }
      owner := FindOwnToken(token);
      if owner.None? {
        owner := FindBoundToken(token);
      }
    }

    method ResolveOrganization(n: Transaction) returns (owner: Option<nat>)
      requires Valid()
      ensures owner == ResolveNotice(View(), n)
    {
      owner := None;
      if n.original != "" {
        owner := FindOriginal(n.original);
      }
      if owner.None? {
        owner := FindOrganizationForAppAccountToken(n.appToken);
      }
    }

    /** The notification of a verified transaction; it is ignored while no workspace is addressed. */
    method ProcessAppleNotification(
      kind: Notice, n: Transaction, autoRenew: Option<bool>, spare: string, now: Time) returns (result: Result)
      requires Valid()
      modifies this`apple, this`appTokens, workspaces
      ensures Valid()
      ensures (View(), result) == ReconcileNotice(old(View()), kind, n, autoRenew, spare, now)
    {
      var owner := ResolveOrganization(n);
      if owner.None? {
        return Done;
      }
      result := ReconcileAppleFromNotification(owner.value, kind, n, autoRenew, spare, now);
    }

    method FindOrganizationForPurchaseToken(token: string) returns (owner: Option<nat>)
      requires Valid()
      ensures owner == Resolve(View(), token)
    {
      if token == "" {
        return None;
      }
      owner := FindToken(token);
      if owner.None? {
        owner := FindLinked(token);
      }
    }

    /** `fetched` is the store's answer for the token. */
    method ReconcileGoogleFromPurchaseToken(token: string, fetched: Option<Purchase>,
            now: Time) returns (result: Result)
      requires Valid()
      modifies this`google, workspaces
      ensures Valid()
      ensures (View(), result) == ReconcileToken(old(View()), token, fetched, now)
    {
      var owner := FindOrganizationForPurchaseToken(token);
      if token != "" && owner.None? && fetched.Some? {
        owner := FindOrganizationForPurchaseToken(fetched.value.linked);
      }
      if owner.None? {
        return Done;
      }
      if fetched.None? {
        return Raised(Incomplete);
      }
      result := ApplyGoogleEntitlement(owner.value, fetched.value, now);
    }
  }
}
