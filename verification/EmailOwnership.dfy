/**
  Which account an e-mail address belongs to: as login address, as verified backup, or
  only asked for. Every step is taken to be atomic. The confirmations and the recovery
  steps are transactions; the two requests and the sign-up with a provider check before
  they write and open none, so for them this is an assumption, and
  OverlappingRequestsCollide shows what happens without it. A step whose password,
  token or challenge is not accepted changes nothing and is not listed.
 */
module EmailOwnership {
  import opened BillingTypes

  /** Addresses are stored normalised; `linked` says that a sign-in provider is attached. */
  datatype User = User(email: string, verified: bool, active: bool, operator: bool, linked: bool,
                       backup: Option<string>, pendingBackup: Option<string>, pendingPrimary: Option<string>)

  type Users = map<nat, User>

  datatype Reply =
    | Sent | ValidationError | NothingPending | Cancelled | Removed
    | InvalidLink | EmailUnavailable | Confirmed | Registered | Refused

  datatype Answer = Answer(users: Users, reply: Reply)

  /** The address is in force for this account. */
  predicate InForce(u: User, e: string) {
    u.email == e || u.backup == Some(e)
  }

  /** Another account than `self` has the address in force, verified or not. */
  predicate Claimed(users: Users, e: string, self: Option<nat>) {
    e != "" && exists v :: v in users && Some(v) != self && InForce(users[v], e)
  }

  predicate Owns(u: User, e: string) {
    (u.email == e && (u.verified || u.operator)) || u.backup == Some(e)
  }

  /** As Claimed, but an unverified login address of an ordinary account does not count. */
  predicate Established(users: Users, e: string, self: Option<nat>) {
    e != "" && exists v :: v in users && Some(v) != self && Owns(users[v], e)
  }

  predicate ValidBackup(users: Users, u: nat, e: string)
    requires u in users
  {
    e != "" && e != users[u].email && Some(e) != users[u].pendingPrimary && !Claimed(users, e, Some(u))
  }

  predicate ValidPrimary(users: Users, u: nat, e: string)
    requires u in users
  {
    && e != "" && e != users[u].email && Some(e) != users[u].backup && Some(e) != users[u].pendingBackup
    && !Claimed(users, e, Some(u))
  }

  function RequestBackup(users: Users, u: nat, e: string): Answer {
    if u !in users then Answer(users, Refused)
    else if !ValidBackup(users, u, e) then Answer(users, ValidationError)
    else Answer(users[u := users[u].(pendingBackup := Some(e))], Sent)
  }

  function CancelBackup(users: Users, u: nat): Answer {
    if u !in users then Answer(users, Refused)
    else if users[u].pendingBackup.None? then Answer(users, NothingPending)
    else Answer(users[u := users[u].(pendingBackup := None)], Cancelled)
  }

  function RemoveBackup(users: Users, u: nat): Answer {
    if u !in users then Answer(users, Refused)
    else Answer(users[u := users[u].(backup := None, pendingBackup := None)], Removed)
  }

  function VerifyBackup(users: Users, u: nat): Answer {
    if u !in users || !users[u].active || users[u].pendingBackup.None? then Answer(users, InvalidLink)
    else if Claimed(users, users[u].pendingBackup.value, Some(u)) then Answer(users, EmailUnavailable)
    else Answer(users[u := users[u].(backup := users[u].pendingBackup, pendingBackup := None)], Confirmed)
  }

  function RequestPrimary(users: Users, u: nat, e: string): Answer {
    if u !in users then Answer(users, Refused)
    else if !ValidPrimary(users, u, e) then Answer(users, ValidationError)
    else Answer(users[u := users[u].(pendingPrimary := Some(e))], Sent)
  }

  function CancelPrimary(users: Users, u: nat): Answer {
    if u !in users then Answer(users, Refused)
    else if users[u].pendingPrimary.None? then Answer(users, NothingPending)
    else Answer(users[u := users[u].(pendingPrimary := None)], Cancelled)
  }

  function VerifyPrimary(users: Users, u: nat): Answer {
    if u !in users || !users[u].active || users[u].pendingPrimary.None? then Answer(users, InvalidLink)
    else if Claimed(users, users[u].pendingPrimary.value, Some(u)) then Answer(users, EmailUnavailable)
    else
      var confirmed := users[u].(email := users[u].pendingPrimary.value, verified := true, pendingPrimary := None);
      Answer(users[u := confirmed], Confirmed)
  }

  /** New login address chosen in account recovery; a pending backup change is dropped. */
  function SubmitRecovery(users: Users, u: nat, e: string): Answer {
    if u !in users then Answer(users, Refused)
    else if e == "" || e == users[u].email || Some(e) == users[u].backup || Claimed(users, e, Some(u)) then
      Answer(users, ValidationError)
    else Answer(users[u := users[u].(pendingPrimary := Some(e), pendingBackup := None)], Sent)
  }

  /** `e` is the address the recovery challenge recorded; a later request may have replaced it. */
  function VerifyRecovery(users: Users, u: nat, e: string): Answer {
    if u !in users || !users[u].active || e == "" || users[u].pendingPrimary != Some(e) then Answer(users, InvalidLink)
    else if Claimed(users, e, Some(u)) then Answer(users, EmailUnavailable)
    else Answer(users[u := users[u].(email := e, verified := true, pendingPrimary := None)], Confirmed)
  }

  function NewUser(e: string, viaProvider: bool): User {
    User(e, viaProvider, true, false, viaProvider, None, None, None)
  }

  predicate Provisional(u: User) {
    !u.verified && !u.operator && !u.linked
  }

  /** The login address is unique in the table. */
  predicate HasLogin(users: Users, e: string) {
    exists v :: v in users && users[v].email == e
  }

  /** Password sign-up: an existing account of that address is restarted, which moves no address. */
  function SignUp(users: Users, id: nat, e: string): Answer {
    if e == "" || id in users || HasLogin(users, e) || Claimed(users, e, None) then Answer(users, Refused)
    else Answer(users[id := NewUser(e, false)], Registered)
  }

  /** Sign-up with a provider: `id` is a fresh account, or the provisional account of that address. */
  function SignUpWithProvider(users: Users, id: nat, e: string): Answer {
    if e == "" then Answer(users, Refused)
    else if id in users then
      if users[id].email != e || !Provisional(users[id]) || Established(users, e, Some(id)) then Answer(users, Refused)
      else Answer(users[id := users[id].(verified := true, active := true, linked := true)], Registered)
    else if Established(users, e, None) || HasLogin(users, e) then Answer(users, Refused)
    else Answer(users[id := NewUser(e, true)], Registered)
  }

  datatype Step =
    | AskBackup(u: nat, e: string) | DropBackup(u: nat) | TakeBackupAway(u: nat) | ConfirmBackup(u: nat)
    | AskPrimary(u: nat, e: string) | DropPrimary(u: nat) | ConfirmPrimary(u: nat)
    | Recover(u: nat, e: string) | ConfirmRecovery(u: nat, e: string)
    | Join(u: nat, e: string) | JoinWithProvider(u: nat, e: string)
    | Flag(u: nat, verified: bool, active: bool, operator: bool, linked: bool) | Delete(u: nat)

  function Apply(users: Users, step: Step): Users {
    match step
    case AskBackup(u, e) => RequestBackup(users, u, e).users
    case DropBackup(u) => CancelBackup(users, u).users
    case TakeBackupAway(u) => RemoveBackup(users, u).users
    case ConfirmBackup(u) => VerifyBackup(users, u).users
    case AskPrimary(u, e) => RequestPrimary(users, u, e).users
    case DropPrimary(u) => CancelPrimary(users, u).users
    case ConfirmPrimary(u) => VerifyPrimary(users, u).users
    case Recover(u, e) => SubmitRecovery(users, u, e).users
    case ConfirmRecovery(u, e) => VerifyRecovery(users, u, e).users
    case Join(u, e) => SignUp(users, u, e).users
    case JoinWithProvider(u, e) => SignUpWithProvider(users, u, e).users
    case Flag(u, verified, active, operator, linked) =>
      if u !in users then users
      else users[u := users[u].(verified := verified, active := active, operator := operator, linked := linked)]
    case Delete(u) => users - {u}
  }

  function Run(users: Users, steps: seq<Step>): Users {
    if steps == [] then users else Apply(Run(users, steps[..|steps| - 1]), steps[|steps| - 1])
  }

  // The invariant

  /** Within one account, the address in force and those asked for stay apart. */
  predicate KeepsApart(u: User) {
    && u.email != "" && u.backup != Some("") && u.pendingBackup != Some("") && u.pendingPrimary != Some("")
    && u.backup != Some(u.email)
    && (u.pendingBackup.Some? ==> u.pendingBackup != Some(u.email) && u.pendingBackup != u.pendingPrimary)
    && (u.pendingPrimary.Some? ==> u.pendingPrimary != Some(u.email) && u.pendingPrimary != u.backup)
  }

  ghost predicate Shared(a: User, b: User) {
    exists e :: InForce(a, e) && InForce(b, e)
  }

  ghost predicate Apart(users: Users) {
    && (forall u :: u in users ==> KeepsApart(users[u]))
    && (forall u, v :: u in users && v in users && u != v ==> !Shared(users[u], users[v]))
  }

  /** Changing one account keeps all apart when its addresses in force are its old ones or unclaimed. */
  lemma OneAccountChanges(users: Users, u: nat, after: User)
    requires Apart(users) && KeepsApart(after)
    requires forall e :: InForce(after, e) ==> (u in users && InForce(users[u], e)) || !Claimed(users, e, Some(u))
    ensures Apart(users[u := after])
  {
    var all := users[u := after];
    forall v | v in users && v != u
      ensures !Shared(after, users[v]) && !Shared(users[v], after)
    {
      assert u in users ==> !Shared(users[u], users[v]);
      assert forall e :: InForce(after, e) ==> e != "";
      assert forall e :: e != "" && InForce(users[v], e) ==> Claimed(users, e, Some(u));
    }
  }

  predicate Confirms(step: Step) { step.ConfirmBackup? || step.ConfirmPrimary? || step.ConfirmRecovery? }

  predicate Joins(step: Step) { step.Join? || step.JoinWithProvider? }

  lemma ConfirmKeepsApart(users: Users, step: Step)
    requires Apart(users) && Confirms(step)
    ensures Apart(Apply(users, step))
  {
    var after := Apply(users, step);
    if after != users { OneAccountChanges(users, step.u, after[step.u]); }
  }

  lemma JoinKeepsApart(users: Users, step: Step)
    requires Apart(users) && Joins(step)
    ensures Apart(Apply(users, step))
  {
    var after := Apply(users, step);
    if after != users {
      if step.JoinWithProvider? && step.u !in users { ProviderJoinIsFree(users, step.u, step.e); }
      OneAccountChanges(users, step.u, after[step.u]);
    }
  }

  /** Every other step leaves the addresses in force alone, or takes one away. */
  lemma OtherStepKeepsApart(users: Users, step: Step)
    requires Apart(users) && !Confirms(step) && !Joins(step) && !step.Delete?
    ensures Apart(Apply(users, step))
  {
    var after := Apply(users, step);
    if after != users { OneAccountChanges(users, step.u, after[step.u]); }
  }

  lemma StepKeepsApart(users: Users, step: Step)
    requires Apart(users)
    ensures Apart(Apply(users, step))
  {
    if Confirms(step) {
      ConfirmKeepsApart(users, step);
    } else if Joins(step) {
      JoinKeepsApart(users, step);
    } else if !step.Delete? {
      OtherStepKeepsApart(users, step);
    }
  }

  lemma ProviderJoinIsFree(users: Users, id: nat, e: string)
    requires id !in users && !Established(users, e, None) && !HasLogin(users, e)
    ensures !Claimed(users, e, Some(id))
  {
  }

  lemma {:induction false} RunsKeepApart(users: Users, steps: seq<Step>)
    requires Apart(users)
    ensures Apart(Run(users, steps))
  {
    if steps != [] {
      RunsKeepApart(users, steps[..|steps| - 1]);
      StepKeepsApart(Run(users, steps[..|steps| - 1]), steps[|steps| - 1]);
    }
  }

  /** No address is ever in force twice: not for two accounts, and not as login and backup of one. */
  lemma NoAddressIsInForceTwice(steps: seq<Step>, u: nat, v: nat, e: string)
    requires var users := Run(map[], steps); u in users && v in users && InForce(users[u], e) && InForce(users[v], e)
    ensures u == v
    ensures var user := Run(map[], steps)[u]; !(user.email == e && user.backup == Some(e))
  {
    RunsKeepApart(map[], steps);
    var users := Run(map[], steps);
    if u != v {
      assert Shared(users[u], users[v]);
    }
  }

  /** Asking reserves nothing: of two accounts that ask for the same backup, the first to confirm gets it. */
  lemma FirstToConfirmGetsIt(users: Users, u: nat, v: nat, e: string)
    requires Apart(users) && u in users && v in users && u != v && users[u].active && users[v].active
    requires users[u].pendingBackup == users[v].pendingBackup == Some(e)
    requires !Claimed(users, e, Some(u)) && !Claimed(users, e, Some(v))
    ensures var first := VerifyBackup(users, u);
            && first.reply == Confirmed && VerifyBackup(first.users, v) == Answer(first.users, EmailUnavailable)
  {
    var first := VerifyBackup(users, u).users;
    assert InForce(first[u], e) && u in first;
  }

  // From the request to the address in force

  /** Nobody else has the address in force. */
  predicate FreeFor(users: Users, u: nat, e: string) {
    e != "" && forall v :: v in users && v != u ==> users[v].email != e && users[v].backup != Some(e)
  }

  /** A backup that is asked for comes in force when it is confirmed, and nothing else about anybody changes. */
  lemma AskedBackupComesInForce(users: Users, u: nat, e: string)
    requires u in users && users[u].active
    ensures var asked := RequestBackup(users, u, e);
            && (asked.reply == Sent <==>
                  FreeFor(users, u, e) && users[u].email != e && users[u].pendingPrimary != Some(e))
            && (asked.reply != Sent ==> asked.users == users)
            && (asked.reply == Sent ==>
                  && asked.users == users[u := users[u].(pendingBackup := Some(e))]
                  && VerifyBackup(asked.users, u)
                     == Answer(users[u := users[u].(backup := Some(e), pendingBackup := None)], Confirmed))
  {
    var asked := users[u := users[u].(pendingBackup := Some(e))];
    assert FreeFor(users, u, e) <==> e != "" && !Claimed(users, e, Some(u));
    OwnClaimsDoNotCount(users, u, asked[u], e);
  }

  /** And so does a login address, which is then verified. */
  lemma AskedLoginComesInForce(users: Users, u: nat, e: string)
    requires u in users && users[u].active
    ensures var asked := RequestPrimary(users, u, e);
            && (asked.reply == Sent <==>
                  && FreeFor(users, u, e) && users[u].email != e
                  && users[u].backup != Some(e) && users[u].pendingBackup != Some(e))
            && (asked.reply != Sent ==> asked.users == users)
            && (asked.reply == Sent ==>
                  && asked.users == users[u := users[u].(pendingPrimary := Some(e))]
                  && VerifyPrimary(asked.users, u)
                     == Answer(users[u := users[u].(email := e, verified := true, pendingPrimary := None)], Confirmed))
  {
    var asked := users[u := users[u].(pendingPrimary := Some(e))];
    assert FreeFor(users, u, e) <==> e != "" && !Claimed(users, e, Some(u));
    OwnClaimsDoNotCount(users, u, asked[u], e);
  }

  /** Recovery gives a new login address the same way, and drops a backup that is only asked for. */
  lemma RecoveredLoginComesInForce(users: Users, u: nat, e: string)
    requires u in users && users[u].active
    ensures var asked := SubmitRecovery(users, u, e);
            && (asked.reply == Sent <==> FreeFor(users, u, e) && users[u].email != e && users[u].backup != Some(e))
            && (asked.reply != Sent ==> asked.users == users)
            && (asked.reply == Sent ==>
                  && VerifyRecovery(asked.users, u, e)
                     == Answer(users[u := users[u].(email := e, verified := true, pendingPrimary := None,
                                                    pendingBackup := None)], Confirmed)
                  && forall other :: other != e ==>
                       VerifyRecovery(asked.users, u, other) == Answer(asked.users, InvalidLink))
  {
    var asked := users[u := users[u].(pendingPrimary := Some(e), pendingBackup := None)];
    assert FreeFor(users, u, e) <==> e != "" && !Claimed(users, e, Some(u));
    OwnClaimsDoNotCount(users, u, asked[u], e);
  }

  /** A request that is taken back leaves no link that works, and no other request is touched. */
  lemma TakenBackIsDead(users: Users, u: nat)
    requires u in users
    ensures var c := CancelBackup(users, u);
            && (c.reply == Cancelled <==> users[u].pendingBackup.Some?)
            && c.users == users[u := users[u].(pendingBackup := None)] && VerifyBackup(c.users, u).reply == InvalidLink
    ensures var c := CancelPrimary(users, u);
            && (c.reply == Cancelled <==> users[u].pendingPrimary.Some?)
            && c.users == users[u := users[u].(pendingPrimary := None)]
            && VerifyPrimary(c.users, u).reply == InvalidLink
    ensures var c := RemoveBackup(users, u);
            && c.reply == Removed && c.users == users[u := users[u].(backup := None, pendingBackup := None)]
            && VerifyBackup(c.users, u).reply == InvalidLink
  {
    assert users[u].pendingBackup == None ==> users[u := users[u].(pendingBackup := None)] == users;
    assert users[u].pendingPrimary == None ==> users[u := users[u].(pendingPrimary := None)] == users;
  }

  /** Accounts that are not active confirm nothing. */
  lemma InactiveConfirmsNothing(users: Users, u: nat, e: string)
    requires u !in users || !users[u].active
    ensures VerifyBackup(users, u) == VerifyPrimary(users, u) == Answer(users, InvalidLink)
    ensures VerifyRecovery(users, u, e) == Answer(users, InvalidLink)
  {}

  /** A password sign-up takes an address nobody has; the account is active and not yet verified. */
  lemma SignUpTakesAFreeAddress(users: Users, id: nat, e: string)
    ensures var a := SignUp(users, id, e);
            && (a.reply == Registered <==> id !in users && FreeFor(users, id, e))
            && a.users == if a.reply == Registered
                          then users[id := User(e, false, true, false, false, None, None, None)] else users
  {}

  /** A provider sign-up gives it verified and linked; a provisional account of that address is taken over. */
  lemma ProviderSignUpTakesAnAddress(users: Users, id: nat, e: string)
    ensures var a := SignUpWithProvider(users, id, e);
            && (id !in users ==>
                  && (a.reply == Registered <==> FreeFor(users, id, e))
                  && a.users == if a.reply == Registered
                                then users[id := User(e, true, true, false, true, None, None, None)] else users)
            && (id in users ==>
                  && (a.reply == Registered <==>
                        && e != "" && users[id].email == e
                        && !users[id].verified && !users[id].operator && !users[id].linked
                        && forall v :: v in users && v != id ==>
                             && users[v].backup != Some(e)
                             && (users[v].email == e ==> !users[v].verified && !users[v].operator))
                  && a.users == if a.reply == Registered
                                then users[id := users[id].(verified := true, active := true, linked := true)]
                                else users)
  {
    if id !in users {
      assert FreeFor(users, id, e) <==> e != "" && !Established(users, e, None) && !HasLogin(users, e);
    }
  }

  /**
    The steps must not overlap: when a backup and a login change to the same address are
    both checked before either is saved, confirming both puts the address in force twice.
   */
  lemma OverlappingRequestsCollide(users: Users, u: nat, e: string)
    requires Apart(users) && u in users && users[u].active
    requires RequestBackup(users, u, e).reply == Sent && RequestPrimary(users, u, e).reply == Sent
    ensures var both := users[u := users[u].(pendingBackup := Some(e), pendingPrimary := Some(e))];
            var end := VerifyPrimary(VerifyBackup(both, u).users, u).users;
            u in end && end[u].email == e && end[u].backup == Some(e)
  {
    var both := users[u].(pendingBackup := Some(e), pendingPrimary := Some(e));
    OwnClaimsDoNotCount(users, u, both, e);
    var first := both.(backup := Some(e), pendingBackup := None);
    assert VerifyBackup(users[u := both], u).users == users[u := first];
    OwnClaimsDoNotCount(users, u, first, e);
  }

  lemma OwnClaimsDoNotCount(users: Users, u: nat, after: User, e: string)
    requires u in users
    ensures Claimed(users[u := after], e, Some(u)) == Claimed(users, e, Some(u))
  {
    forall v | v in users && v != u
      ensures users[u := after][v] == users[v]
    {}
  }
}

/** The account table, written account by account. */
module AccountDirectory {
  import opened BillingTypes
  import opened EmailOwnership

  class Directory {
    var users: Users

    constructor ()
      ensures users == map[]
    {
      users := map[];
    }

    method RequestBackupEmail(u: nat, e: string) returns (reply: Reply)
      requires u in users
      modifies this
      ensures Answer(users, reply) == RequestBackup(old(users), u, e)
    {
      var user := users[u];
      if e == "" || e == user.email || Some(e) == user.pendingPrimary { return ValidationError; }
      if Claimed(users, e, Some(u)) { return ValidationError; }
      user := user.(pendingBackup := Some(e));
      users := users[u := user];
      return Sent;
    }

    method CancelPendingBackup(u: nat) returns (reply: Reply)
      requires u in users
      modifies this
      ensures Answer(users, reply) == CancelBackup(old(users), u)
    {
      if users[u].pendingBackup.None? { return NothingPending; }
      users := users[u := users[u].(pendingBackup := None)];
      return Cancelled;
    }

    method RemoveBackupEmail(u: nat) returns (reply: Reply)
      requires u in users
      modifies this
      ensures Answer(users, reply) == RemoveBackup(old(users), u)
    {
      var user := users[u];
      user := user.(backup := None);
      user := user.(pendingBackup := None);
      users := users[u := user];
      return Removed;
    }

    method VerifyBackupEmail(u: nat) returns (reply: Reply)
      modifies this
      ensures Answer(users, reply) == VerifyBackup(old(users), u)
    {
      if u !in users || !users[u].active || users[u].pendingBackup.None? { return InvalidLink; }
      var locked := users[u];
      var pending := locked.pendingBackup;
      if Claimed(users, pending.value, Some(u)) { return EmailUnavailable; }
      locked := locked.(backup := pending);
      locked := locked.(pendingBackup := None);
      users := users[u := locked];
      return Confirmed;
    }

    method RequestPrimaryEmailChange(u: nat, e: string) returns (reply: Reply)
      requires u in users
      modifies this
      ensures Answer(users, reply) == RequestPrimary(old(users), u, e)
    {
      var user := users[u];
      if e == "" || e == user.email || Some(e) == user.backup || Some(e) == user.pendingBackup {
        return ValidationError;
      }
      if Claimed(users, e, Some(u)) { return ValidationError; }
      user := user.(pendingPrimary := Some(e));
      users := users[u := user];
      return Sent;
    }

    method CancelPendingPrimaryEmail(u: nat) returns (reply: Reply)
      requires u in users
      modifies this
      ensures Answer(users, reply) == CancelPrimary(old(users), u)
    {
      if users[u].pendingPrimary.None? { return NothingPending; }
      users := users[u := users[u].(pendingPrimary := None)];
      return Cancelled;
    }

    method VerifyPrimaryEmail(u: nat) returns (reply: Reply)
      modifies this
      ensures Answer(users, reply) == VerifyPrimary(old(users), u)
    {
      if u !in users || !users[u].active || users[u].pendingPrimary.None? { return InvalidLink; }
      var locked := users[u];
      var newEmail := locked.pendingPrimary.value;
      if Claimed(users, newEmail, Some(u)) { return EmailUnavailable; }
      locked := locked.(email := newEmail);
      locked := locked.(verified := true);
      locked := locked.(pendingPrimary := None);
      users := users[u := locked];
      return Confirmed;
    }

    method SubmitRecoveryCredentials(u: nat, e: string) returns (reply: Reply)
      requires u in users
      modifies this
      ensures Answer(users, reply) == SubmitRecovery(old(users), u, e)
    {
      var user := users[u];
      if e == "" { return ValidationError; }
      if e == user.email { return ValidationError; }
      if Some(e) == user.backup { return ValidationError; }
      if Claimed(users, e, Some(u)) { return ValidationError; }
      user := user.(pendingPrimary := Some(e));
      user := user.(pendingBackup := None);
      users := users[u := user];
      return Sent;
    }

    method VerifyRecoveryPrimaryEmail(u: nat, e: string) returns (reply: Reply)
      modifies this
      ensures Answer(users, reply) == VerifyRecovery(old(users), u, e)
    {
      if u !in users || !users[u].active { return InvalidLink; }
      if e == "" || Some(e) != users[u].pendingPrimary { return InvalidLink; }
      if Claimed(users, e, Some(u)) { return EmailUnavailable; }
      var locked := users[u];
      locked := locked.(email := e);
      locked := locked.(verified := true);
      locked := locked.(pendingPrimary := None);
      users := users[u := locked];
      return Confirmed;
    }
  }
}
