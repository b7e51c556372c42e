/** What the erasure job does to every table, company by company. */
module ErasureEffects {
  import opened Wrappers
  import opened BerlinTime
  import opened Records
  import opened Dsgvo

  // ----- one row -----

  /** A user of the company ends deactivated, unreachable and without a password. */
  predicate UserErased(u: User, v: User, id: nat) {
    v == User(u.company, Erased(id), u.role, None, false, false)
  }

  /** A driver loses the name; the first date of anonymisation stays; the version moves with the row. */
  predicate DriverErased(d: Driver, e: Driver, now: Instant) {
    e == Driver(d.company, "Gelöscht", "Gelöscht", d.employmentEnd, if d.anonymizedAt == None then Some(now) else d.anonymizedAt,
                d.authorized, d.lockReason, d.lockedAt,
                if d.firstName == "Gelöscht" && d.lastName == "Gelöscht" && d.anonymizedAt != None then d.version else d.version + 1)
  }

  /** A live session is revoked now, an earlier revocation stands. */
  predicate SessionErased(s: UserSession, t: UserSession, now: Instant) {
    t == UserSession(s.user, s.company, s.expiresAt, if s.revokedAt == None then Some(now) else s.revokedAt)
  }

  /** A pending invitation is spent. */
  predicate InvitationErased(i: Invitation, j: Invitation, now: Instant) {
    j == Invitation(i.company, i.email, i.role, i.expiresAt, if i.acceptedAt == None then Some(now) else i.acceptedAt)
  }

  // ----- one company -----

  predicate SameSizes(a: Db, b: Db) {
    && |b.accounts.companies| == |a.accounts.companies| && |b.accounts.users| == |a.accounts.users|
    && |b.accounts.sessions| == |a.accounts.sessions| && |b.accounts.invitations| == |a.accounts.invitations|
    && |b.fleet.drivers| == |a.fleet.drivers|
  }

  /** Erasing never touches evidence, obligations, cases, vehicles or alerts, moves no row to another company,
      and adds no message. */
  predicate Frame(a: Db, b: Db) {
    && SameSizes(a, b)
    && b == a.(accounts := b.accounts, fleet := a.fleet.(drivers := b.fleet.drivers),
               queue := a.queue.(outbox := b.queue.outbox, archive := b.queue.archive))
    && (forall i | 0 <= i < |a.accounts.users| :: b.accounts.users[i].company == a.accounts.users[i].company)
    && (forall i | 0 <= i < |a.accounts.sessions| :: b.accounts.sessions[i].company == a.accounts.sessions[i].company)
    && (forall i | 0 <= i < |a.accounts.invitations| :: b.accounts.invitations[i].company == a.accounts.invitations[i].company)
    && (forall i | 0 <= i < |a.fleet.drivers| :: b.fleet.drivers[i].company == a.fleet.drivers[i].company)
    && (forall id | id in b.queue.outbox :: id in a.queue.outbox && b.queue.outbox[id] == a.queue.outbox[id])
  }

  /** Nothing of a company has changed. */
  predicate Untouched(a: Db, b: Db, c: nat)
    requires SameSizes(a, b) && c < |a.accounts.companies|
  {
    && b.accounts.companies[c] == a.accounts.companies[c]
    && (forall i | 0 <= i < |a.accounts.users| :: a.accounts.users[i].company == c ==> b.accounts.users[i] == a.accounts.users[i])
    && (forall i | 0 <= i < |a.accounts.sessions| :: a.accounts.sessions[i].company == c ==> b.accounts.sessions[i] == a.accounts.sessions[i])
    && (forall i | 0 <= i < |a.accounts.invitations| ::
          a.accounts.invitations[i].company == c ==> b.accounts.invitations[i] == a.accounts.invitations[i])
    && (forall i | 0 <= i < |a.fleet.drivers| :: a.fleet.drivers[i].company == c ==> b.fleet.drivers[i] == a.fleet.drivers[i])
    && (forall id | id in a.queue.outbox :: a.queue.outbox[id].company == c ==> id in b.queue.outbox)
  }

  /** A company has been erased: its name, its users, its drivers' names, its sessions, its invitations and
      its messages. */
  predicate CompanyErased(a: Db, b: Db, c: nat, now: Instant)
    requires SameSizes(a, b) && c < |a.accounts.companies|
  {
    && b.accounts.companies[c] == Company("Gelöscht", a.accounts.companies[c].retentionMonths,
                                          a.accounts.companies[c].deletionRequestedAt, Some(now))
    && (forall i | 0 <= i < |a.accounts.users| :: a.accounts.users[i].company == c ==> UserErased(a.accounts.users[i], b.accounts.users[i], i))
    && (forall i | 0 <= i < |a.accounts.sessions| ::
          a.accounts.sessions[i].company == c ==> SessionErased(a.accounts.sessions[i], b.accounts.sessions[i], now))
    && (forall i | 0 <= i < |a.accounts.invitations| ::
          a.accounts.invitations[i].company == c ==> InvitationErased(a.accounts.invitations[i], b.accounts.invitations[i], now))
    && (forall i | 0 <= i < |a.fleet.drivers| :: a.fleet.drivers[i].company == c ==> DriverErased(a.fleet.drivers[i], b.fleet.drivers[i], now))
    && (forall id | id in b.queue.outbox :: b.queue.outbox[id].company != c)
  }

  lemma TombstoneFrame(db: Db, company: nat, now: Instant)
    requires company < |db.accounts.companies|
    ensures Frame(db, AfterTombstone(db, company, now))
  {
  }

  /** `tombstone_company` erases its company and touches no other. */
  lemma TombstoneExactly(db: Db, company: nat, now: Instant, c: nat)
    requires company < |db.accounts.companies| && c < |db.accounts.companies|
    ensures var b := AfterTombstone(db, company, now);
      Frame(db, b) && if c == company then CompanyErased(db, b, c, now) else Untouched(db, b, c)
  {
    TombstoneFrame(db, company, now);
  }

  // ----- the job -----

  /** Deletion was requested more than thirty days ago, by the wall clock, and has not happened yet. */
  predicate GraceOver(c: Company, now: Instant) {
    c.deletedAt == None && c.deletionRequestedAt != None && c.deletionRequestedAt.value < WallAdd(now, -30 * DAY)
  }

  /** On the instant line: never before thirty days less an hour, always after thirty days and an hour. */
  lemma GraceInstants(c: Company, now: Instant)
    ensures GraceOver(c, now) ==> c.deletionRequestedAt.value < now - 30 * DAY + HOUR
    ensures c.deletedAt == None && c.deletionRequestedAt != None && c.deletionRequestedAt.value < now - 30 * DAY - HOUR ==> GraceOver(c, now)
  {
    hide WallAdd;
    WallAddNear(now, -30 * DAY);
  }

  /** The job erases a company if and only if its grace period is over, and touches nothing of any other. */
  lemma {:induction false} JobExactly(db: Db, now: Instant, n: nat, c: nat)
    requires c < n <= |db.accounts.companies|
    ensures var b := AfterTombstones(db, now, n);
      Frame(db, b) && if GraceOver(db.accounts.companies[c], now) then CompanyErased(db, b, c, now) else Untouched(db, b, c)
  {
    hide WallAdd, AfterTombstone, CompanyErased, Untouched, Frame;
    var mid := AfterTombstones(db, now, n - 1);
    if c < n - 1 {
      JobExactly(db, now, n - 1, c);
    } else {
      JobAhead(db, now, n - 1, c);
    }
    JobStep(db, mid, now, n - 1, c);
  }

  /** Companies further on are untouched so far. */
  lemma {:induction false} JobAhead(db: Db, now: Instant, n: nat, c: nat)
    requires n <= c < |db.accounts.companies|
    ensures var b := AfterTombstones(db, now, n); Frame(db, b) && Untouched(db, b, c)
  {
    hide WallAdd, AfterTombstone, CompanyErased, Untouched, Frame;
    if n > 0 {
      JobAhead(db, now, n - 1, c);
      JobStep(db, AfterTombstones(db, now, n - 1), now, n - 1, c);
    } else {
      NothingErased(db, c);
    }
  }

  lemma NothingErased(db: Db, c: nat)
    requires c < |db.accounts.companies|
    ensures Frame(db, db) && Untouched(db, db, c)
  {
  }

  /** One more company of the loop. */
  lemma JobStep(db: Db, mid: Db, now: Instant, company: nat, c: nat)
    requires Frame(db, mid) && company < |mid.accounts.companies| && c < |db.accounts.companies|
    requires c != company ==> Untouched(db, mid, c) || CompanyErased(db, mid, c, now)
    requires c == company ==> Untouched(db, mid, c)
    ensures var b := if DueForDeletion(mid.accounts.companies[company], now) then AfterTombstone(mid, company, now) else mid;
      && Frame(db, b)
      && (c != company && Untouched(db, mid, c) ==> Untouched(db, b, c))
      && (c != company && CompanyErased(db, mid, c, now) ==> CompanyErased(db, b, c, now))
      && (c == company ==> if GraceOver(db.accounts.companies[c], now) then CompanyErased(db, b, c, now) else Untouched(db, b, c))
  {
    hide WallAdd, AfterTombstone;
    TombstoneExactly(mid, company, now, c);
  }
}
