/** app/services/auth.py and app/services/dsgvo.py as far as they decide who may act and who is
    notified: signup, invitations, login across its separate transactions, and erasure. */
module AccountServices {
  import opened Wrappers
  import opened BerlinTime
  import opened Records
  import Outbox

  const SESSION_TTL := 14 * DAY
  const INVITATION_TTL := 72 * HOUR
  const ANON_NAME := "Gelöscht"

  // ----- admission (app/deps.py) -----

  /** `get_tenant_context`: the session is live and its user still active. */
  predicate Admitted(a: Accounts, sid: nat, now: Instant) {
    && sid < |a.sessions|
    && a.sessions[sid].revokedAt.None? && a.sessions[sid].expiresAt > now
    && a.sessions[sid].user < |a.users| && a.users[a.sessions[sid].user].active
  }

  predicate EmailTaken(users: seq<User>, email: Mail) {
    exists i | 0 <= i < |users| :: users[i].email == email
  }

  // ----- account transactions -----

  function NewUser(company: nat, email: string, role: Role, phone: Option<string>): User {
    User(company, Routable(email), role, phone, true, true)
  }

  /** `signup`: company and OWNER together, or nothing if the address is taken. */
  function AfterSignup(a: Accounts, name: string, email: string, phone: Option<string>): Accounts {
    if EmailTaken(a.users, Routable(email)) then a
    else a.(companies := a.companies + [Company(name, 12, None, None)],
            users := a.users + [NewUser(|a.companies|, email, OWNER, phone)])
  }

  /** `create_invitation`, which refuses the role OWNER. */
  function AfterInvite(a: Accounts, company: nat, email: string, role: Role, now: Instant): Accounts {
    if role == OWNER then a
    else a.(invitations := a.invitations + [Invitation(company, email, role, WallAdd(now, INVITATION_TTL), None)])
  }

  /** What `accept_invitation` reads: unspent and not expired. */
  predicate Acceptable(a: Accounts, inv: nat, now: Instant) {
    inv < |a.invitations| && a.invitations[inv].acceptedAt.None? && a.invitations[inv].expiresAt > now
  }

  /** The unique e-mail constraint at the time it writes. */
  predicate MayInsert(a: Accounts, inv: nat) {
    inv < |a.invitations| && !EmailTaken(a.users, Routable(a.invitations[inv].email))
  }

  predicate MayAccept(a: Accounts, inv: nat, now: Instant) {
    Acceptable(a, inv, now) && MayInsert(a, inv)
  }

  /** What it writes, whatever has happened since it read: the account and the spent invitation. */
  function AfterRead(a: Accounts, inv: nat, now: Instant): Accounts {
    if !MayInsert(a, inv) then a
    else
      var i := a.invitations[inv];
      a.(users := a.users + [NewUser(i.company, i.email, i.role, None)],
         invitations := a.invitations[inv := i.(acceptedAt := Some(now))])
  }

  /** `accept_invitation` in one go: the account and the spent invitation, or nothing. */
  function AfterAccept(a: Accounts, inv: nat, now: Instant): Accounts {
    if Acceptable(a, inv, now) then AfterRead(a, inv, now) else a
  }

  /** The last transaction of `login`: it trusts credentials verified in an earlier one. */
  function AfterLogin(a: Accounts, user: nat, company: nat, rehash: bool, now: Instant): Accounts {
    a.(users := if rehash && user < |a.users| then a.users[user := a.users[user].(hasPassword := true)] else a.users,
       sessions := a.sessions + [UserSession(user, company, WallAdd(now, SESSION_TTL), None)])
  }

  /** The signup request: the account and its first session in one transaction. */
  function SignedUp(a: Accounts, name: string, email: string, phone: Option<string>, now: Instant): Accounts {
    if EmailTaken(a.users, Routable(email)) then a
    else AfterLogin(AfterSignup(a, name, email, phone), |a.users|, |a.companies|, false, now)
  }

  function AfterDeletionRequest(a: Accounts, company: nat, now: Instant): Accounts {
    if company < |a.companies| && a.companies[company].deletionRequestedAt.None?
    then a.(companies := a.companies[company := a.companies[company].(deletionRequestedAt := Some(now))]) else a
  }

  // ----- the services -----

  /** `signup`, then `create_session`; a taken address raises and nothing is kept. */
  method Signup(s: Session, name: string, email: string, phone: Option<string>, now: Instant)
      returns (owner: Option<nat>)
    modifies s`accounts
    ensures s.accounts == SignedUp(old(s.accounts), name, email, phone, now)
    ensures owner == if EmailTaken(old(s.accounts.users), Routable(email)) then None else Some(|old(s.accounts.users)|)
  {
    hide WallAdd;
    if EmailTaken(s.accounts.users, Routable(email)) {
      return None;
    }
    var company, user := |s.accounts.companies|, |s.accounts.users|;
    s.accounts := s.accounts.(companies := s.accounts.companies + [Company(name, 12, None, None)]);
    s.accounts := s.accounts.(users := s.accounts.users + [User(company, Routable(email), OWNER, phone, true, true)]);
    CreateSession(s, user, company, now);
    return Some(user);
  }

  method CreateSession(s: Session, user: nat, company: nat, now: Instant)
    modifies s`accounts
    ensures s.accounts == AfterLogin(old(s.accounts), user, company, false, now)
  {
    s.accounts := s.accounts.(sessions := s.accounts.sessions + [UserSession(user, company, WallAdd(now, SESSION_TTL), None)]);
  }

  /** The last transaction of `login`; `rehash` says whether the stored hash was made with older parameters. */
  method FinishLogin(s: Session, user: nat, company: nat, rehash: bool, now: Instant)
    modifies s`accounts
    ensures s.accounts == AfterLogin(old(s.accounts), user, company, rehash, now)
  {
    hide WallAdd;
    if rehash && user < |s.accounts.users| {
      s.accounts := s.accounts.(users := s.accounts.users[user := s.accounts.users[user].(hasPassword := true)]);
    }
    CreateSession(s, user, company, now);
  }

  method CreateInvitation(s: Session, company: nat, email: string, role: Role, now: Instant) returns (created: bool)
    modifies s`accounts
    ensures s.accounts == AfterInvite(old(s.accounts), company, email, role, now)
    ensures created <==> role != OWNER
  {
    if role == OWNER {
      return false;
    }
    s.accounts := s.accounts.(invitations := s.accounts.invitations + [Invitation(company, email, role, WallAdd(now, INVITATION_TTL), None)]);
    return true;
  }

  method AcceptInvitation(s: Session, inv: nat, now: Instant) returns (user: Option<nat>)
    modifies s`accounts
    ensures s.accounts == AfterAccept(old(s.accounts), inv, now)
    ensures user.Some? <==> MayAccept(old(s.accounts), inv, now)
    ensures user.Some? ==> user.value == |old(s.accounts.users)|
  {
    if inv >= |s.accounts.invitations| || s.accounts.invitations[inv].acceptedAt.Some? {
      return None;
    }
    var i := s.accounts.invitations[inv];
    if i.expiresAt <= now {
      return None;
    }
    if EmailTaken(s.accounts.users, Routable(i.email)) {
      return None;
    }
    var id := |s.accounts.users|;
    s.accounts := s.accounts.(users := s.accounts.users + [User(i.company, Routable(i.email), i.role, None, true, true)]);
    s.accounts := s.accounts.(invitations := s.accounts.invitations[inv := i.(acceptedAt := Some(now))]);
    return Some(id);
  }

  // ----- erasure -----

  /** `anonymize_account_user`. */
  function ErasedUser(u: User, id: nat): User {
    u.(email := Erased(id), phone := None, active := false, hasPassword := false)
  }

  function ErasedUsers(users: seq<User>, company: nat): (r: seq<User>)
    ensures |r| == |users|
    ensures forall i | 0 <= i < |users| :: r[i] == if users[i].company == company then ErasedUser(users[i], i) else users[i]
  {
    seq(|users|, i requires 0 <= i < |users| => if users[i].company == company then ErasedUser(users[i], i) else users[i])
  }

  function RevokedSession(s: UserSession, company: nat, now: Instant): UserSession {
    if s.company == company && s.revokedAt.None? then s.(revokedAt := Some(now)) else s
  }

  function RevokedSessions(sessions: seq<UserSession>, company: nat, now: Instant): (r: seq<UserSession>)
    ensures |r| == |sessions|
    ensures forall i | 0 <= i < |sessions| :: r[i] == RevokedSession(sessions[i], company, now)
  {
    seq(|sessions|, i requires 0 <= i < |sessions| => RevokedSession(sessions[i], company, now))
  }

  function ClosedInvitation(i: Invitation, company: nat, now: Instant): Invitation {
    if i.company == company && i.acceptedAt.None? then i.(acceptedAt := Some(now)) else i
  }

  function ClosedInvitations(invs: seq<Invitation>, company: nat, now: Instant): (r: seq<Invitation>)
    ensures |r| == |invs|
    ensures forall i | 0 <= i < |invs| :: r[i] == ClosedInvitation(invs[i], company, now)
  {
    seq(|invs|, i requires 0 <= i < |invs| => ClosedInvitation(invs[i], company, now))
  }

  function ErasedAccounts(a: Accounts, company: nat, now: Instant): Accounts
    requires company < |a.companies|
  {
    Accounts(a.companies[company := a.companies[company].(name := ANON_NAME, deletedAt := Some(now))],
             ErasedUsers(a.users, company),
             RevokedSessions(a.sessions, company, now),
             ClosedInvitations(a.invitations, company, now))
  }

  // ----- invariant -----

  predicate UserOk(a: Accounts, u: User) {
    && u.company < |a.companies|
    && (u.active ==> u.email.Routable?)
    && (u.phone.Some? ==> u.role == OWNER)
    && (a.companies[u.company].deletedAt.Some? ==> !u.active && u.email.Erased? && u.phone.None?)
  }

  predicate SessionOk(a: Accounts, s: UserSession) {
    s.user < |a.users| && s.company == a.users[s.user].company
  }

  predicate InvitationOk(a: Accounts, i: Invitation) {
    && i.company < |a.companies| && i.role != OWNER
    && (a.companies[i.company].deletedAt.Some? ==> i.acceptedAt.Some?)
  }

  /** An erased address names its own row. */
  predicate MailOk(u: User, id: nat) { u.email.Erased? ==> u.email.user == id }

  ghost predicate AccountInv(a: Accounts) {
    && (forall i | 0 <= i < |a.users| :: UserOk(a, a.users[i]) && MailOk(a.users[i], i))
    && (forall i, j | 0 <= i < j < |a.users| :: a.users[i].email != a.users[j].email)
    && (forall i, j | 0 <= i < j < |a.users| ::
          a.users[i].role == OWNER && a.users[j].role == OWNER ==> a.users[i].company != a.users[j].company)
    && (forall i | 0 <= i < |a.sessions| :: SessionOk(a, a.sessions[i]))
    && (forall i | 0 <= i < |a.invitations| :: InvitationOk(a, a.invitations[i]))
  }

  lemma SignupKeeps(a: Accounts, name: string, email: string, phone: Option<string>)
    requires AccountInv(a)
    ensures AccountInv(AfterSignup(a, name, email, phone))
  {
    var b := AfterSignup(a, name, email, phone);
    forall i | 0 <= i < |b.users|
      ensures UserOk(b, b.users[i]) && MailOk(b.users[i], i)
    {
      assert i < |a.users| ==> UserOk(a, a.users[i]) && MailOk(a.users[i], i);
    }
    forall i | 0 <= i < |b.sessions|
      ensures SessionOk(b, b.sessions[i])
    {
      assert SessionOk(a, a.sessions[i]);
    }
    forall i | 0 <= i < |b.invitations|
      ensures InvitationOk(b, b.invitations[i])
    {
      assert InvitationOk(a, a.invitations[i]);
    }
  }

  lemma InviteKeeps(a: Accounts, company: nat, email: string, role: Role, now: Instant)
    requires AccountInv(a) && company < |a.companies| && a.companies[company].deletedAt.None?
    ensures AccountInv(AfterInvite(a, company, email, role, now))
  {
    hide WallAdd;
    var b := AfterInvite(a, company, email, role, now);
    forall i | 0 <= i < |b.users|
      ensures UserOk(b, b.users[i]) && MailOk(b.users[i], i)
    {
      assert UserOk(a, a.users[i]) && MailOk(a.users[i], i);
    }
    forall i | 0 <= i < |b.sessions|
      ensures SessionOk(b, b.sessions[i])
    {
      assert SessionOk(a, a.sessions[i]);
    }
    forall i | 0 <= i < |b.invitations|
      ensures InvitationOk(b, b.invitations[i])
    {
      assert i < |a.invitations| ==> InvitationOk(a, a.invitations[i]);
    }
  }

  lemma AcceptKeeps(a: Accounts, inv: nat, now: Instant)
    requires AccountInv(a) && inv < |a.invitations|
    requires a.companies[a.invitations[inv].company].deletedAt.None?
    ensures AccountInv(AfterRead(a, inv, now))
  {
    var b := AfterRead(a, inv, now);
    assert InvitationOk(a, a.invitations[inv]);
    forall i | 0 <= i < |b.users|
      ensures UserOk(b, b.users[i]) && MailOk(b.users[i], i)
    {
      assert i < |a.users| ==> UserOk(a, a.users[i]) && MailOk(a.users[i], i);
    }
    forall i | 0 <= i < |b.sessions|
      ensures SessionOk(b, b.sessions[i])
    {
      assert SessionOk(a, a.sessions[i]);
    }
    forall i | 0 <= i < |b.invitations|
      ensures InvitationOk(b, b.invitations[i])
    {
      assert InvitationOk(a, a.invitations[i]);
    }
  }

  /** An acceptance that writes keeps the erased silent if and only if its company is not erased by then:
      otherwise the erased company gets an active user, and the session that follows is admitted. */
  lemma AcceptInTime(a: Accounts, inv: nat, now: Instant)
    requires AccountInv(a) && MayInsert(a, inv)
    ensures var i, b := a.invitations[inv], AfterRead(a, inv, now);
      && i.company < |a.companies|
      && (AccountInv(b) <==> a.companies[i.company].deletedAt.None?)
      && b.users[|a.users|].company == i.company && b.users[|a.users|].active
      && Admitted(AfterLogin(b, |a.users|, i.company, false, now), |a.sessions|, now)
  {
    hide AccountInv;
    InvitationAt(a, inv);
    if a.companies[a.invitations[inv].company].deletedAt.None? {
      AcceptKeeps(a, inv, now);
    } else {
      ActiveInErased(AfterRead(a, inv, now), |a.users|);
    }
    SessionLasts(now);
  }

  lemma InvitationAt(a: Accounts, inv: nat)
    requires AccountInv(a) && inv < |a.invitations|
    ensures a.invitations[inv].company < |a.companies|
  {
    assert InvitationOk(a, a.invitations[inv]);
  }

  lemma ActiveInErased(a: Accounts, user: nat)
    requires user < |a.users| && a.users[user].active
    requires a.users[user].company < |a.companies| && a.companies[a.users[user].company].deletedAt.Some?
    ensures !AccountInv(a)
  {
    assert !UserOk(a, a.users[user]);
  }

  lemma SessionLasts(now: Instant)
    ensures WallAdd(now, SESSION_TTL) > now
  {
    hide WallAdd;
    WallAddNear(now, SESSION_TTL);
  }

  lemma LoginKeeps(a: Accounts, user: nat, company: nat, rehash: bool, now: Instant)
    requires AccountInv(a) && user < |a.users| && company == a.users[user].company
    ensures AccountInv(AfterLogin(a, user, company, rehash, now))
  {
    hide WallAdd;
    var b := AfterLogin(a, user, company, rehash, now);
    forall i | 0 <= i < |b.users|
      ensures UserOk(b, b.users[i]) && MailOk(b.users[i], i)
    {
      assert UserOk(a, a.users[i]) && MailOk(a.users[i], i);
    }
    forall i | 0 <= i < |b.sessions|
      ensures SessionOk(b, b.sessions[i])
    {
      assert i < |a.sessions| ==> SessionOk(a, a.sessions[i]);
    }
    forall i | 0 <= i < |b.invitations|
      ensures InvitationOk(b, b.invitations[i])
    {
      assert InvitationOk(a, a.invitations[i]);
    }
  }

  lemma DeletionRequestKeeps(a: Accounts, company: nat, now: Instant)
    requires AccountInv(a)
    ensures AccountInv(AfterDeletionRequest(a, company, now))
  {
    var b := AfterDeletionRequest(a, company, now);
    forall i | 0 <= i < |b.users|
      ensures UserOk(b, b.users[i]) && MailOk(b.users[i], i)
    {
      assert UserOk(a, a.users[i]) && MailOk(a.users[i], i);
    }
    forall i | 0 <= i < |b.sessions|
      ensures SessionOk(b, b.sessions[i])
    {
      assert SessionOk(a, a.sessions[i]);
    }
    forall i | 0 <= i < |b.invitations|
      ensures InvitationOk(b, b.invitations[i])
    {
      assert InvitationOk(a, a.invitations[i]);
    }
  }

  lemma EraseKeeps(a: Accounts, company: nat, now: Instant)
    requires AccountInv(a) && company < |a.companies|
    ensures AccountInv(ErasedAccounts(a, company, now))
  {
    var b := ErasedAccounts(a, company, now);
    forall i | 0 <= i < |b.users|
      ensures UserOk(b, b.users[i]) && MailOk(b.users[i], i)
    {
      assert UserOk(a, a.users[i]) && MailOk(a.users[i], i);
    }
    forall i, j | 0 <= i < j < |b.users|
      ensures b.users[i].email != b.users[j].email
    {
      assert MailOk(a.users[i], i) && MailOk(a.users[j], j);
      assert a.users[i].email != a.users[j].email;
    }
    forall i | 0 <= i < |b.sessions|
      ensures SessionOk(b, b.sessions[i])
    {
      assert SessionOk(a, a.sessions[i]);
    }
    forall i | 0 <= i < |b.invitations|
      ensures InvitationOk(b, b.invitations[i])
    {
      assert InvitationOk(a, a.invitations[i]);
    }
  }

  // ----- what follows for notifications and admission -----

  lemma {:induction false} NobodyToTell(users: seq<User>, company: nat)
    requires forall i | 0 <= i < |users| :: users[i].company == company ==> !users[i].active
    ensures Outbox.ResolveRecipients(users, company) == []
  {
    if users != [] {
      NobodyToTell(users[..|users| - 1], company);
    }
  }

  /** An erased company has nobody left to notify and no session that is admitted, not even one a
      login created after the erasure from credentials it had verified before. */
  lemma ErasedIsSilent(a: Accounts, company: nat, sid: nat, now: Instant)
    requires AccountInv(a) && company < |a.companies| && a.companies[company].deletedAt.Some?
    ensures Outbox.AddressesOf(a.users, company) == []
    ensures sid < |a.sessions| && a.sessions[sid].company == company ==> !Admitted(a, sid, now)
  {
    forall i | 0 <= i < |a.users| && a.users[i].company == company
      ensures !a.users[i].active
    {
      assert UserOk(a, a.users[i]);
    }
    NobodyToTell(a.users, company);
    if sid < |a.sessions| {
      assert SessionOk(a, a.sessions[sid]);
    }
  }

  /** A login that spans the erasure gives an erased user a password again exactly when it rehashes; the
      user stays inactive and the new session is never admitted. */
  lemma RehashAfterErasure(a: Accounts, user: nat, rehash: bool, now: Instant, later: Instant)
    requires AccountInv(a) && user < |a.users| && !a.users[user].hasPassword
    requires a.companies[a.users[user].company].deletedAt.Some?
    ensures var b := AfterLogin(a, user, a.users[user].company, rehash, now);
      && (b.users[user].hasPassword <==> rehash) && !b.users[user].active
      && b.sessions[|a.sessions|].user == user && !Admitted(b, |a.sessions|, later)
  {
    hide WallAdd;
    assert UserOk(a, a.users[user]);
  }
}
