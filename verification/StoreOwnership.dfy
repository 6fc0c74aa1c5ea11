/**
  Which workspace a store identifier belongs to, across all workspaces and over
  any run of deliveries.
 */
module StoreOwnership {
  import opened BillingTypes
  import opened StoreEntitlements
  import BillingRuns

  /** All workspaces, by index. */
  type World = seq<Tenant>

  function TokenOf(t: Tenant): string { if t.google.Some? then t.google.value.token else "" }

  function LinkedOf(t: Tenant): string { if t.google.Some? then t.google.value.linked else "" }

  function OriginalOf(t: Tenant): string { if t.apple.Some? then t.apple.value.original else "" }

  function OwnTokenOf(t: Tenant): string { t.appToken }

  function BoundTokenOf(t: Tenant): string { if t.apple.Some? then t.apple.value.appToken else "" }

  predicate Holds(t: Tenant, token: string) { token != "" && (TokenOf(t) == token || LinkedOf(t) == token) }

  predicate Bought(t: Tenant, original: string) { original != "" && OriginalOf(t) == original }

  /** No token and no transaction is stored for two workspaces. */
  ghost predicate Disjoint(w: World) {
    && (forall i, j, token :: 0 <= i < |w| && 0 <= j < |w| && i != j && Holds(w[i], token) ==> !Holds(w[j], token))
    && (forall i, j, id :: 0 <= i < |w| && 0 <= j < |w| && i != j && Bought(w[i], id) ==> !Bought(w[j], id))
  }

  // ---- queries that take the first matching row ----

  function FirstBy(w: World, column: Tenant -> string, text: string, n: nat := 0): (hit: Option<nat>)
    requires n <= |w|
    ensures hit.Some? ==> n <= hit.value < |w| && column(w[hit.value]) == text
    ensures forall i :: n <= i < (if hit.Some? then hit.value else |w|) ==> column(w[i]) != text
    decreases |w| - n
  {
    if n == |w| then None else if column(w[n]) == text then Some(n) else FirstBy(w, column, text, n + 1)
  }

  predicate Mine(hit: Option<nat>, ws: nat) { hit == None || hit == Some(ws) }

  /** The ownership check on one candidate token: only the first hits are looked at. */
  predicate Clear(w: World, ws: nat, token: string) {
    token == "" || (Mine(FirstBy(w, TokenOf, token), ws) && Mine(FirstBy(w, LinkedOf, token), ws))
  }

  predicate Free(w: World, ws: nat, p: Purchase) { Clear(w, ws, p.token) && Clear(w, ws, p.linked) }

  /** Looking at the first hits only is enough: the check passes exactly when no other workspace holds the token. */
  lemma ClearIff(w: World, ws: nat, token: string)
    requires Disjoint(w) && ws < |w|
    ensures Clear(w, ws, token) <==> forall j :: 0 <= j < |w| && j != ws ==> !Holds(w[j], token)
  {
    var own, linked := FirstBy(w, TokenOf, token), FirstBy(w, LinkedOf, token);
    if token != "" && own.Some? {
      assert Holds(w[own.value], token);
    }
    if token != "" && linked.Some? {
      assert Holds(w[linked.value], token);
    }
  }

  // ---- deliveries ----

  datatype Delivery =
    | FromGoogle(ws: nat, purchase: Purchase)
    | FromApple(ws: nat, transaction: Transaction, autoRenew: Option<bool>, spare: string)
    | FromAppleServer(ws: nat, kind: Notice, transaction: Transaction, autoRenew: Option<bool>, spare: string)
    | ShowState(ws: nat, spare: string)
    | Internal(ws: nat, step: BillingRuns.Step)

  /** Parsed transactions always carry their identifier. */
  predicate Identified(d: Delivery) {
    match d
    case FromApple(_, n, _, _) => n.original != ""
    case FromAppleServer(_, _, n, _, _) => n.original != ""
    case _ => true
  }

  /** `ShowState` is the billing page, which makes up the account token of a workspace that has none. */
  function Deliver(w: World, d: Delivery, now: Time): (o: StoreOutcome)
    requires d.ws < |w|
  {
    var t := w[d.ws];
    match d
    case FromGoogle(ws, p) => ApplyGoogle(t, p, Free(w, ws, p), now)
    case FromApple(ws, n, autoRenew, spare) =>
      var hit := FirstBy(w, OriginalOf, n.original);
      ApplyApple(t, n, autoRenew, hit.Some?, Mine(hit, ws), spare, now)
    case FromAppleServer(ws, kind, n, autoRenew, spare) =>
      var hit := FirstBy(w, OriginalOf, n.original);
      NotifyApple(t, kind, n, autoRenew, hit.Some?, Mine(hit, ws), spare, now)
    case ShowState(_, spare) =>
      StoreOutcome(t.(appToken := if t.appToken != "" then t.appToken else spare), Done)
    case Internal(_, step) =>
      var o := BillingRuns.Apply(t.account, step, now);
      StoreOutcome(t.(account := o.account), o.result)
  }

  function After(w: World, d: Delivery, now: Time): World
    requires d.ws < |w|
  {
    w[d.ws := Deliver(w, d, now).tenant]
  }

  lemma GoogleRebinds(t: Tenant, p: Purchase, free: bool, now: Time)
    ensures var u := ApplyGoogle(t, p, free, now).tenant;
            && OriginalOf(u) == OriginalOf(t)
            && ((TokenOf(u) == TokenOf(t) && LinkedOf(u) == LinkedOf(t))
                || (free && TokenOf(u) == p.token && LinkedOf(u) == p.linked))
  {}

  lemma AppleRebinds(t: Tenant, n: Transaction, autoRenew: Option<bool>, known: bool, free: bool, spare: string,
          now: Time)
    ensures var u := ApplyApple(t, n, autoRenew, known, free, spare, now).tenant;
            && TokenOf(u) == TokenOf(t) && LinkedOf(u) == LinkedOf(t)
            && (OriginalOf(u) == OriginalOf(t) || (free && OriginalOf(u) == n.original))
  {}

  lemma NoticeRebinds(t: Tenant, kind: Notice, n: Transaction, autoRenew: Option<bool>, known: bool, free: bool,
          spare: string, now: Time)
    ensures var u := NotifyApple(t, kind, n, autoRenew, known, free, spare, now).tenant;
            && TokenOf(u) == TokenOf(t) && LinkedOf(u) == LinkedOf(t)
            && (OriginalOf(u) == OriginalOf(t) || (free && OriginalOf(u) == n.original))
  {
    AppleRebinds(t, Revoked(n, now), Some(false), known, free, spare, now);
    AppleRebinds(t, n, autoRenew, known, free, spare, now);
  }

  /** No other workspace holds an identifier of this one. */
  ghost predicate Apart(w: World, ws: nat, u: Tenant) {
    forall j :: 0 <= j < |w| && j != ws ==>
      && (forall token :: Holds(u, token) ==> !Holds(w[j], token))
      && (forall id :: Bought(u, id) ==> !Bought(w[j], id))
  }

  lemma OriginalIsFree(w: World, ws: nat, original: string)
    requires Disjoint(w) && ws < |w| && original != ""
    ensures Mine(FirstBy(w, OriginalOf, original), ws)
            <==> forall j :: 0 <= j < |w| && j != ws ==> !Bought(w[j], original)
  {
    var hit := FirstBy(w, OriginalOf, original);
    if hit == Some(ws) {
      assert Bought(w[ws], original);
    } else if hit.Some? {
      assert Bought(w[hit.value], original);
    }
  }

  lemma SameIdsStayApart(w: World, ws: nat, u: Tenant)
    requires Disjoint(w) && ws < |w|
    requires TokenOf(u) == TokenOf(w[ws]) && LinkedOf(u) == LinkedOf(w[ws]) && OriginalOf(u) == OriginalOf(w[ws])
    ensures Apart(w, ws, u)
  {
    forall token
      ensures Holds(u, token) == Holds(w[ws], token)
    {}
    forall id
      ensures Bought(u, id) == Bought(w[ws], id)
    {}
  }

  lemma FreeTokensAreApart(w: World, ws: nat, u: Tenant)
    requires Disjoint(w) && ws < |w| && OriginalOf(u) == OriginalOf(w[ws])
    requires Clear(w, ws, TokenOf(u)) && Clear(w, ws, LinkedOf(u))
    ensures Apart(w, ws, u)
  {
    ClearIff(w, ws, TokenOf(u));
    ClearIff(w, ws, LinkedOf(u));
    forall id
      ensures Bought(u, id) == Bought(w[ws], id)
    {}
  }

  lemma FreeOriginalIsApart(w: World, ws: nat, u: Tenant)
    requires Disjoint(w) && ws < |w| && TokenOf(u) == TokenOf(w[ws]) && LinkedOf(u) == LinkedOf(w[ws])
    requires OriginalOf(u) != "" && Mine(FirstBy(w, OriginalOf, OriginalOf(u)), ws)
    ensures Apart(w, ws, u)
  {
    OriginalIsFree(w, ws, OriginalOf(u));
    forall token
      ensures Holds(u, token) == Holds(w[ws], token)
    {}
  }

  lemma AppleIdsAreApart(w: World, ws: nat, n: Transaction, u: Tenant)
    requires Disjoint(w) && ws < |w| && n.original != "" && TokenOf(u) == TokenOf(w[ws])
    requires LinkedOf(u) == LinkedOf(w[ws])
    requires OriginalOf(u) == OriginalOf(w[ws])
             || (Mine(FirstBy(w, OriginalOf, n.original), ws) && OriginalOf(u) == n.original)
    ensures Apart(w, ws, u)
  {
    if OriginalOf(u) == OriginalOf(w[ws]) {
      SameIdsStayApart(w, ws, u);
    } else {
      FreeOriginalIsApart(w, ws, u);
    }
  }

  /** A delivery leaves only identifiers that no other workspace holds. */
  lemma DeliveryBindsOnlyFreeIds(w: World, d: Delivery, now: Time)
    requires Disjoint(w) && d.ws < |w| && Identified(d)
    ensures Apart(w, d.ws, Deliver(w, d, now).tenant)
  {
    var t, u := w[d.ws], Deliver(w, d, now).tenant;
    match d
    case FromGoogle(ws, p) =>
      GoogleRebinds(t, p, Free(w, ws, p), now);
      if TokenOf(u) == TokenOf(t) && LinkedOf(u) == LinkedOf(t) {
        SameIdsStayApart(w, ws, u);
      } else {
        FreeTokensAreApart(w, ws, u);
      }
    case FromApple(ws, n, autoRenew, spare) =>
      var hit := FirstBy(w, OriginalOf, n.original);
      AppleRebinds(t, n, autoRenew, hit.Some?, Mine(hit, ws), spare, now);
      AppleIdsAreApart(w, ws, n, u);
    case FromAppleServer(ws, kind, n, autoRenew, spare) =>
      var hit := FirstBy(w, OriginalOf, n.original);
      NoticeRebinds(t, kind, n, autoRenew, hit.Some?, Mine(hit, ws), spare, now);
      AppleIdsAreApart(w, ws, n, u);
    case ShowState(ws, _) => SameIdsStayApart(w, ws, u);
    case Internal(ws, _) => SameIdsStayApart(w, ws, u);
  }

  datatype Timed = Timed(delivery: Delivery, at: Time)

  function Run(w: World, run: seq<Timed>): (w': World)
    requires forall e :: e in run ==> e.delivery.ws < |w|
    ensures |w'| == |w|
  {
    if run == [] then w
    else
      var before := Run(w, run[..|run| - 1]);
      After(before, run[|run| - 1].delivery, run[|run| - 1].at)
  }

  /** Over any run, no purchase token, linked token or transaction belongs to two workspaces. */
  lemma {:induction false} OwnershipStaysDisjoint(w: World, run: seq<Timed>)
    requires Disjoint(w) && forall e :: e in run ==> e.delivery.ws < |w| && Identified(e.delivery)
    ensures Disjoint(Run(w, run))
  {
    if run != [] {
      var front, last := run[..|run| - 1], run[|run| - 1];
      OwnershipStaysDisjoint(w, front);
      var before := Run(w, front);
      DeliveryBindsOnlyFreeIds(before, last.delivery, last.at);
      var after, ws := Run(w, run), last.delivery.ws;
      assert forall j :: 0 <= j < |w| && j != ws ==> after[j] == before[j];
    }
  }

  // ---- server-driven reconciliation ----

  function Resolve(w: World, token: string): Option<nat> {
    if token == "" then None
    else
      var hit := FirstBy(w, TokenOf, token);
      if hit.Some? then hit else FirstBy(w, LinkedOf, token)
  }

  /** A token resolves to a workspace exactly when that workspace holds it, so to at most one. */
  lemma ResolvesToTheHolder(w: World, token: string, ws: nat)
    requires Disjoint(w) && ws < |w|
    ensures Resolve(w, token) == Some(ws) <==> Holds(w[ws], token)
    ensures Resolve(w, token) == None <==> forall j :: 0 <= j < |w| ==> !Holds(w[j], token)
  {
    var hit := Resolve(w, token);
    if hit.Some? {
      assert Holds(w[hit.value], token);
    }
  }

  /** `fetched` is what the store answers for the token, if it answers. */
  function ReconcileToken(w: World, token: string, fetched: Option<Purchase>, now: Time): (World, Result) {
    var owner := Resolve(w, token);
    var ws := if token != "" && owner.None? && fetched.Some? then Resolve(w, fetched.value.linked) else owner;
    if ws.None? then (w, Done)
    else if fetched.None? then (w, Raised(Incomplete))
    else
      var o := Deliver(w, FromGoogle(ws.value, fetched.value), now);
      (w[ws.value := o.tenant], o.result)
  }

  /** A server notification changes at most the workspace that already held its token or the token it continues. */
  lemma ServerReconcileTouchesOnlyTheOwner(w: World, token: string, fetched: Option<Purchase>, now: Time)
    requires Disjoint(w) && (fetched.Some? ==> fetched.value.token == token)
    ensures var w' := ReconcileToken(w, token, fetched, now).0;
            && |w'| == |w| && Disjoint(w')
            && forall j :: 0 <= j < |w| && w'[j] != w[j] ==>
                 Holds(w[j], token) || (fetched.Some? && Holds(w[j], fetched.value.linked))
  {
    var owner := Resolve(w, token);
    var ws := if token != "" && owner.None? && fetched.Some? then Resolve(w, fetched.value.linked) else owner;
    if ws.Some? && fetched.Some? {
      var d := FromGoogle(ws.value, fetched.value);
      ResolvesToTheHolder(w, token, ws.value);
      ResolvesToTheHolder(w, fetched.value.linked, ws.value);
      OwnershipStaysDisjoint(w, [Timed(d, now)]);
      assert [Timed(d, now)][..0] == [];
      assert Run(w, [Timed(d, now)]) == After(w, d, now);
    }
  }

  /** It is applied to the workspace that holds the token; only if nobody does, to one that holds what it continues. */
  lemma ServerReconcileFinds(w: World, token: string, fetched: Option<Purchase>, now: Time, ws: nat)
    requires Disjoint(w) && ws < |w| && (fetched.Some? ==> fetched.value.token == token)
    ensures var o := ReconcileToken(w, token, fetched, now);
            && (Holds(w[ws], token) && fetched.None? ==> o == (w, Raised(Incomplete)))
            && (fetched.Some?
                && (Holds(w[ws], token)
                    || (token != "" && Unheld(w, token) && Holds(w[ws], fetched.value.linked))) ==>
                  var d := Deliver(w, FromGoogle(ws, fetched.value), now);
                  o == (w[ws := d.tenant], d.result))
            && (Unheld(w, token) && (fetched.None? || token == "" || Unheld(w, fetched.value.linked)) ==>
                  o == (w, Done))
  {
    ResolvesToTheHolder(w, token, ws);
    if fetched.Some? {
      ResolvesToTheHolder(w, fetched.value.linked, ws);
    }
  }

  ghost predicate Unheld(w: World, token: string) { forall j :: 0 <= j < |w| ==> !Holds(w[j], token) }

  // ---- what a delivery is given ----

  ghost predicate HeldBySome(w: World, ws: nat, token: string) {
    exists j :: 0 <= j < |w| && j != ws && Holds(w[j], token)
  }

  ghost predicate BoughtBySome(w: World, ws: nat, original: string) {
    exists j :: 0 <= j < |w| && j != ws && Bought(w[j], original)
  }

  /** A purchase is free exactly if no other workspace holds one of its tokens. */
  lemma PurchasesAreChecked(w: World, ws: nat, p: Purchase, now: Time)
    requires Disjoint(w) && ws < |w|
    ensures Deliver(w, FromGoogle(ws, p), now)
            == ApplyGoogle(w[ws], p, !HeldBySome(w, ws, p.token) && !HeldBySome(w, ws, p.linked), now)
  {
    ClearIff(w, ws, p.token);
    ClearIff(w, ws, p.linked);
    assert Free(w, ws, p) <==> !HeldBySome(w, ws, p.token) && !HeldBySome(w, ws, p.linked);
  }

  lemma BuyersAreFound(w: World, ws: nat, original: string)
    requires Disjoint(w) && ws < |w| && original != ""
    ensures var hit := FirstBy(w, OriginalOf, original);
            && (hit.Some? <==> BoughtBySome(w, ws, original) || Bought(w[ws], original))
            && (Mine(hit, ws) <==> !BoughtBySome(w, ws, original))
  {
    var hit := FirstBy(w, OriginalOf, original);
    assert hit.Some? ==> Bought(w[hit.value], original);
    assert forall j :: 0 <= j < |w| && Bought(w[j], original) ==> hit == Some(j);
  }

  /** A transaction is known if somebody bought it, and free exactly if no other workspace did. */
  lemma TransactionsAreChecked(w: World, ws: nat, n: Transaction, kind: Notice, autoRenew: Option<bool>, spare: string,
          now: Time)
    requires Disjoint(w) && ws < |w| && n.original != ""
    ensures var elsewhere := BoughtBySome(w, ws, n.original);
            var known := elsewhere || Bought(w[ws], n.original);
            && Deliver(w, FromApple(ws, n, autoRenew, spare), now)
               == ApplyApple(w[ws], n, autoRenew, known, !elsewhere, spare, now)
            && Deliver(w, FromAppleServer(ws, kind, n, autoRenew, spare), now)
               == NotifyApple(w[ws], kind, n, autoRenew, known, !elsewhere, spare, now)
  {
    BuyersAreFound(w, ws, n.original);
  }

  /** The billing page makes up an account token once; a billing step leaves all identifiers alone. */
  lemma OtherDeliveriesBindNothing(w: World, ws: nat, spare: string, other: string, step: BillingRuns.Step, now: Time)
    requires ws < |w|
    ensures var shown := After(w, ShowState(ws, spare), now);
            && shown == w[ws := w[ws].(appToken := if w[ws].appToken == "" then spare else w[ws].appToken)]
            && (spare != "" ==> After(shown, ShowState(ws, other), now) == shown)
    ensures After(w, Internal(ws, step), now)
            == w[ws := w[ws].(account := BillingRuns.Apply(w[ws].account, step, now).account)]
  {}

  // ---- App Store notifications ----

  /** The account token names a workspace as its own or through its store details. */
  predicate Answers(t: Tenant, token: string) { token != "" && (OwnTokenOf(t) == token || BoundTokenOf(t) == token) }

  /** The account token found in the details is the workspace's own. */
  predicate Linked(t: Tenant) { BoundTokenOf(t) == "" || BoundTokenOf(t) == OwnTokenOf(t) }

  /** No account token names two workspaces. */
  ghost predicate TokensApart(w: World) {
    && (forall i :: 0 <= i < |w| ==> Linked(w[i]))
    && forall i, j :: 0 <= i < j < |w| && OwnTokenOf(w[i]) != "" ==> OwnTokenOf(w[i]) != OwnTokenOf(w[j])
  }

  function ResolveAccountToken(w: World, token: string): Option<nat> {
    if token == "" then None
    else
      var hit := FirstBy(w, OwnTokenOf, token);
      if hit.Some? then hit else FirstBy(w, BoundTokenOf, token)
  }

  /** The workspace of a notification: by its original transaction first, then by its account token. */
  function ResolveNotice(w: World, n: Transaction): Option<nat> {
    var hit := if n.original == "" then None else FirstBy(w, OriginalOf, n.original);
    if hit.Some? then hit else ResolveAccountToken(w, n.appToken)
  }

  /** A notification that resolves to no workspace is ignored. */
  function ReconcileNotice(
    w: World, kind: Notice, n: Transaction, autoRenew: Option<bool>, spare: string, now: Time): (World, Result)
  {
    var owner := ResolveNotice(w, n);
    if owner.None? then (w, Done)
    else
      var o := Deliver(w, FromAppleServer(owner.value, kind, n, autoRenew, spare), now);
      (w[owner.value := o.tenant], o.result)
  }

  ghost predicate Unbought(w: World, original: string) { forall i :: 0 <= i < |w| ==> !Bought(w[i], original) }

  /** The buyer of the transaction if there is one; otherwise whoever the account token names. */
  ghost predicate Addressed(w: World, ws: nat, n: Transaction)
    requires ws < |w|
  {
    Bought(w[ws], n.original) || (Unbought(w, n.original) && Answers(w[ws], n.appToken))
  }

  lemma NoticeResolvesToTheAddressed(w: World, n: Transaction)
    requires ResolveNotice(w, n).Some?
    ensures Addressed(w, ResolveNotice(w, n).value, n)
  {}

  /** A notification resolves to the workspace it addresses, which is unique, and to none only if none is addressed. */
  lemma NoticeResolvesIff(w: World, n: Transaction, ws: nat)
    requires Disjoint(w) && TokensApart(w) && ws < |w|
    ensures ResolveNotice(w, n) == Some(ws) <==> Addressed(w, ws, n)
    ensures ResolveNotice(w, n) == None <==> forall j :: 0 <= j < |w| ==> !Addressed(w, j, n)
  {
    var hit := ResolveNotice(w, n);
    if hit.Some? {
      NoticeResolvesToTheAddressed(w, n);
      if Addressed(w, ws, n) {
        AddressedIsUnique(w, n, hit.value, ws);
      }
    } else {
      forall j | 0 <= j < |w|
        ensures !Addressed(w, j, n)
      {
        assert n.original != "" ==> FirstBy(w, OriginalOf, n.original).None?;
      }
    }
  }

  lemma AddressedIsUnique(w: World, n: Transaction, i: nat, j: nat)
    requires Disjoint(w) && TokensApart(w) && i < |w| && j < |w| && Addressed(w, i, n) && Addressed(w, j, n)
    ensures i == j
  {
    if !Bought(w[i], n.original) && !Bought(w[j], n.original) {
      assert Linked(w[i]) && Linked(w[j]);
      assert OwnTokenOf(w[i]) == n.appToken == OwnTokenOf(w[j]);
    }
  }

  /** A notification changes at most the workspace it addresses, and never one that has not bought what another has. */
  lemma NoticeTouchesOnlyTheAddressed(
    w: World, kind: Notice, n: Transaction, autoRenew: Option<bool>, spare: string, now: Time)
    requires Disjoint(w) && n.original != ""
    ensures var w' := ReconcileNotice(w, kind, n, autoRenew, spare, now).0;
            && |w'| == |w| && Disjoint(w')
            && forall j :: 0 <= j < |w| && w'[j] != w[j] ==> Addressed(w, j, n)
  {
    var owner := ResolveNotice(w, n);
    if owner.Some? {
      var d := FromAppleServer(owner.value, kind, n, autoRenew, spare);
      NoticeResolvesToTheAddressed(w, n);
      OwnershipStaysDisjoint(w, [Timed(d, now)]);
      assert [Timed(d, now)][..0] == [];
      assert Run(w, [Timed(d, now)]) == After(w, d, now);
    }
  }

  // ---- the account tokens stay apart ----

  /** The account token a delivery makes up for a workspace that has none. */
  function Spare(d: Delivery): string {
    match d
    case FromApple(_, _, _, spare) => spare
    case FromAppleServer(_, _, _, _, spare) => spare
    case ShowState(_, spare) => spare
    case _ => ""
  }

  predicate MakesUp(d: Delivery) { d.FromApple? || d.FromAppleServer? || d.ShowState? }

  lemma SettledKeepsLink(t: Tenant, n: Transaction, autoRenew: Option<bool>, known: bool, token: string, now: Time)
    requires Linked(t) && token != "" && (t.appToken == "" || t.appToken == token)
    requires n.appToken == "" || n.appToken == token
    ensures var u := SettledApple(t, n, autoRenew, known, token, now).tenant;
            Linked(u) && (OwnTokenOf(u) == OwnTokenOf(t) || OwnTokenOf(u) == token)
  {}

  lemma AppleKeepsLink(
    t: Tenant, n: Transaction, autoRenew: Option<bool>, known: bool, free: bool, spare: string, now: Time)
    requires Linked(t) && spare != ""
    ensures var u := ApplyApple(t, n, autoRenew, known, free, spare, now).tenant;
            Linked(u) && (OwnTokenOf(u) == OwnTokenOf(t) || (OwnTokenOf(t) == "" && OwnTokenOf(u) == spare))
  {
    var token := if t.appToken != "" then t.appToken else spare;
    if n.appToken == "" || n.appToken == token {
      SettledKeepsLink(t, n, autoRenew, known, token, now);
    }
  }

  lemma NoticeKeepsLink(
    t: Tenant, kind: Notice, n: Transaction, autoRenew: Option<bool>, known: bool, free: bool, spare: string, now: Time)
    requires Linked(t) && spare != ""
    ensures var u := NotifyApple(t, kind, n, autoRenew, known, free, spare, now).tenant;
            Linked(u) && (OwnTokenOf(u) == OwnTokenOf(t) || (OwnTokenOf(t) == "" && OwnTokenOf(u) == spare))
  {
    match kind
    case Refund => AppleKeepsLink(t, Revoked(n, now), Some(false), known, free, spare, now);
    case Renewal => AppleKeepsLink(t, n, autoRenew, known, free, spare, now);
    case _ =>
  }

  lemma GoogleLeavesApple(t: Tenant, p: Purchase, free: bool, now: Time)
    ensures var u := ApplyGoogle(t, p, free, now).tenant;
            u.apple == t.apple && u.appToken == t.appToken
  {}

  lemma DeliveryKeepsLink(w: World, d: Delivery, now: Time)
    requires d.ws < |w| && Linked(w[d.ws]) && (MakesUp(d) ==> Spare(d) != "")
    ensures var t, u := w[d.ws], Deliver(w, d, now).tenant;
            && Linked(u)
            && (OwnTokenOf(u) == OwnTokenOf(t) || (MakesUp(d) && OwnTokenOf(t) == "" && OwnTokenOf(u) == Spare(d)))
  {
    var t := w[d.ws];
    match d
    case FromGoogle(ws, p) => GoogleLeavesApple(t, p, Free(w, ws, p), now);
    case FromApple(ws, n, autoRenew, spare) =>
      var hit := FirstBy(w, OriginalOf, n.original);
      AppleKeepsLink(t, n, autoRenew, hit.Some?, Mine(hit, ws), spare, now);
    case FromAppleServer(ws, kind, n, autoRenew, spare) =>
      var hit := FirstBy(w, OriginalOf, n.original);
      NoticeKeepsLink(t, kind, n, autoRenew, hit.Some?, Mine(hit, ws), spare, now);
    case ShowState(_, _) =>
    case Internal(_, _) =>
  }

  /** No token is made up for two workspaces, nor one that another workspace already has. */
  ghost predicate SparesAreFresh(w: World, run: seq<Timed>) {
    forall e :: e in run && MakesUp(e.delivery) ==>
      && Spare(e.delivery) != ""
      && (forall j :: 0 <= j < |w| && j != e.delivery.ws ==> OwnTokenOf(w[j]) != Spare(e.delivery))
      && (forall f :: f in run && MakesUp(f.delivery) && f.delivery.ws != e.delivery.ws ==>
            Spare(f.delivery) != Spare(e.delivery))
  }

  /** Where an account token comes from: stored before the run or made up in it for this workspace. */
  ghost predicate Sourced(w: World, run: seq<Timed>, ws: nat, token: string)
    requires ws < |w|
  {
    token == OwnTokenOf(w[ws])
    || exists e :: e in run && MakesUp(e.delivery) && e.delivery.ws == ws && Spare(e.delivery) == token
  }

  lemma {:induction false} TokensAreSourced(w: World, run: seq<Timed>)
    requires forall i :: 0 <= i < |w| ==> Linked(w[i])
    requires SparesAreFresh(w, run) && forall e :: e in run ==> e.delivery.ws < |w|
    ensures forall i :: 0 <= i < |w| ==> Linked(Run(w, run)[i]) && Sourced(w, run, i, OwnTokenOf(Run(w, run)[i]))
  {
    if run != [] {
      var front, last := run[..|run| - 1], run[|run| - 1];
      assert last in run;
      assert forall e :: e in front ==> e in run;
      TokensAreSourced(w, front);
      DeliveryKeepsLink(Run(w, front), last.delivery, last.at);
    }
  }

  lemma SourcesAreApart(w: World, run: seq<Timed>, i: nat, j: nat, token: string)
    requires TokensApart(w) && SparesAreFresh(w, run) && i < j < |w| && token != ""
    requires Sourced(w, run, i, token)
    ensures !Sourced(w, run, j, token)
  {}

  /** Over any run, no account token names two workspaces, so that every notification has one addressee at most. */
  lemma AccountTokensStayApart(w: World, run: seq<Timed>)
    requires TokensApart(w) && SparesAreFresh(w, run) && forall e :: e in run ==> e.delivery.ws < |w|
    ensures TokensApart(Run(w, run))
  {
    TokensAreSourced(w, run);
    var after := Run(w, run);
    forall i, j | 0 <= i < j < |w| && OwnTokenOf(after[i]) != ""
      ensures OwnTokenOf(after[i]) != OwnTokenOf(after[j])
    {
      SourcesAreApart(w, run, i, j, OwnTokenOf(after[i]));
    }
  }
}
