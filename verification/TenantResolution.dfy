/** Which workspace a Stripe object belongs to, from its metadata and the ids stored earlier. */
module TenantResolution {
  import opened BillingTypes

  /** One workspace: its public id and the Stripe ids stored on its billing row, blank if none. */
  datatype Tenant = Tenant(workspaceId: string, subscription: string, customer: string)

  datatype Resolved = Found(org: nat) | Unmapped | Disagree | WrongWorkspace

  /** Lookups return the first row in key order; several rows may hold the same Stripe id. */
  function FirstWith(tenants: seq<Tenant>, holds: Tenant -> bool, n: nat := 0): (hit: Option<nat>)
    requires n <= |tenants|
    ensures hit.Some? ==> n <= hit.value < |tenants| && holds(tenants[hit.value])
    ensures forall i :: n <= i < (if hit.Some? then hit.value else |tenants|) ==> !holds(tenants[i])
    decreases |tenants| - n
  {
    if n == |tenants| then None else if holds(tenants[n]) then Some(n) else FirstWith(tenants, holds, n + 1)
  }

  function BySubscription(tenants: seq<Tenant>, id: string): Option<nat> {
    if id == "" then None else FirstWith(tenants, (t: Tenant) => t.subscription == id)
  }

  function ByCustomer(tenants: seq<Tenant>, id: string): Option<nat> {
    if id == "" then None else FirstWith(tenants, (t: Tenant) => t.customer == id)
  }

  /** `named` is the organization the metadata or client reference names, if the text is a number. */
  function ByName(tenants: seq<Tenant>, named: Option<nat>): Option<nat> {
    if named.Some? && named.value < |tenants| then named else None
  }

  predicate LeadsNowhereElse(hit: Option<nat>, org: nat) {
    hit == None || hit == Some(org)
  }

  /** Some reference leads to `org` and none leads elsewhere. */
  predicate Agreed(tenants: seq<Tenant>, named: Option<nat>, subscription: string, customer: string, org: nat) {
    var a, b, c := ByName(tenants, named), BySubscription(tenants, subscription), ByCustomer(tenants, customer);
    && (a == Some(org) || b == Some(org) || c == Some(org))
    && LeadsNowhereElse(a, org) && LeadsNowhereElse(b, org) && LeadsNowhereElse(c, org)
  }

  predicate Matches(tenants: seq<Tenant>, org: nat, workspaceId: string) {
    org < |tenants| && (workspaceId == "" || tenants[org].workspaceId == workspaceId)
  }

  /** The candidates are collected in order and compared with the first of them. */
  method ResolveOrganizationFromMapping(tenants: seq<Tenant>, named: Option<nat>, workspaceId: string,
          subscription: string, customer: string)
    returns (r: Resolved)
    ensures forall org: nat :: r == Found(org) <==>
              Agreed(tenants, named, subscription, customer, org) && Matches(tenants, org, workspaceId)
    ensures r.Unmapped? <==>
              && ByName(tenants, named) == None
              && BySubscription(tenants, subscription) == None && ByCustomer(tenants, customer) == None
  {
    var byName, bySubscription := ByName(tenants, named), BySubscription(tenants, subscription);
    var byCustomer := ByCustomer(tenants, customer);
    var candidates: seq<nat> := [];
    if byName.Some? {
      candidates := candidates + [byName.value];
    }
    if bySubscription.Some? {
      candidates := candidates + [bySubscription.value];
    }
    if byCustomer.Some? {
      candidates := candidates + [byCustomer.value];
    }
    assert forall org :: org in candidates <==>
             byName == Some(org) || bySubscription == Some(org) || byCustomer == Some(org);
    if candidates == [] {
      return Unmapped;
    }
    var org := candidates[0];
    assert org in candidates;
    for i := 1 to |candidates|
      invariant forall k :: 0 <= k < i ==> candidates[k] == org
    {
      if candidates[i] != org {
        assert candidates[i] in candidates;
        return Disagree;
      }
    }
    assert Agreed(tenants, named, subscription, customer, org);
    assert byName == None || byName == Some(org);
    if workspaceId != "" && tenants[org].workspaceId != workspaceId {
      return WrongWorkspace;
    }
    return Found(org);
  }

  /** An object that names an existing workspace is never handed to another one, whatever ids are stored. */
  lemma NamedWorkspaceOrNone(tenants: seq<Tenant>, named: nat, subscription: string, customer: string, org: nat)
    requires named < |tenants| && Agreed(tenants, Some(named), subscription, customer, org)
    ensures org == named
  {}

  /** Without a name, an id held by one workspace alone leads to that workspace. */
  lemma SoleHolderIsFound(tenants: seq<Tenant>, subscription: string, org: nat)
    requires org < |tenants| && subscription != "" && tenants[org].subscription == subscription
    requires forall i :: 0 <= i < |tenants| && i != org ==> tenants[i].subscription != subscription
    ensures Agreed(tenants, None, subscription, "", org)
  {
    var hit := FirstWith(tenants, (t: Tenant) => t.subscription == subscription);
    assert hit == Some(org);
  }

  /** And so does a customer held by one workspace alone, with or without a subscription that leads there too. */
  lemma SoleCustomerIsFound(tenants: seq<Tenant>, subscription: string, customer: string, org: nat)
    requires org < |tenants| && customer != "" && tenants[org].customer == customer
    requires forall i :: 0 <= i < |tenants| && i != org ==> tenants[i].customer != customer
    requires subscription == ""
          || forall i :: 0 <= i < |tenants| && i != org ==> tenants[i].subscription != subscription
    ensures Agreed(tenants, None, subscription, customer, org)
  {
    var hit := FirstWith(tenants, (t: Tenant) => t.customer == customer);
    assert hit == Some(org);
  }

  /** A workspace that holds neither id is found by its name alone, and only if no id leads elsewhere. */
  lemma NamedIsFoundIff(tenants: seq<Tenant>, named: nat, subscription: string, customer: string)
    requires named < |tenants|
    requires subscription != "" ==> forall i :: 0 <= i < |tenants| ==> tenants[i].subscription != subscription
    ensures Agreed(tenants, Some(named), subscription, customer, named) <==>
              customer == "" || (forall i :: 0 <= i < |tenants| ==> tenants[i].customer != customer)
              || (tenants[named].customer == customer && forall i :: 0 <= i < named ==> tenants[i].customer != customer)
  {
    var hit := FirstWith(tenants, (t: Tenant) => t.customer == customer);
    if hit.Some? {
      assert tenants[hit.value].customer == customer;
    }
  }

  /** Two workspaces that two references lead to are never chosen between. */
  lemma DisagreementIsRefused(tenants: seq<Tenant>, subscription: string, customer: string, i: nat, j: nat, org: nat)
    requires i < |tenants| && j < |tenants| && i != j && subscription != "" && customer != ""
    requires tenants[i].subscription == subscription && tenants[j].customer == customer
    requires forall k :: 0 <= k < |tenants| && k != i ==> tenants[k].subscription != subscription
    requires forall k :: 0 <= k < |tenants| && k != j ==> tenants[k].customer != customer
    ensures !Agreed(tenants, None, subscription, customer, org)
  {
    assert FirstWith(tenants, (t: Tenant) => t.subscription == subscription) == Some(i);
    assert FirstWith(tenants, (t: Tenant) => t.customer == customer) == Some(j);
  }
}
