/** Who may act, what accounts a request creates, and that a request stays inside its own company. */
module AccessEffects {
  import opened Wrappers
  import opened Calendar
  import opened BerlinTime
  import MonthRules
  import opened Records
  import opened AccountServices
  import opened Evidence
  import opened Checks
  import Ledger
  import opened FleetInvariant
  import Dsgvo
  import opened Routes
  import opened RouteEffects
  import opened FleetSystem
  import FleetSteps

  // ----- gates -----

  /** The session exists, was not revoked, has not run out, and its user is still active. */
  predicate Live(a: Accounts, sid: nat, now: Instant) {
    && sid < |a.sessions| && a.sessions[sid].revokedAt == None && now < a.sessions[sid].expiresAt
    && a.sessions[sid].user < |a.users| && a.users[a.sessions[sid].user].active
  }

  /** What a caller's role lets a request do: a viewer nothing, a manager all but inviting, asking for
      deletion and erasing a driver. */
  predicate Entitled(role: Role, event: Event) {
    role == OWNER || (role == MANAGER && !event.Invite? && !event.RequestDeletion? && !event.EraseDriver?)
  }

  /** A request without a live session, or beyond the caller's role, changes nothing at all. */
  lemma Gate(sha: Digest, w: World, event: Event, clock: Clock)
    requires IsRequest(event)
    requires Live(w.db.accounts, event.sid, clock.now) ==> !Entitled(w.db.accounts.users[w.db.accounts.sessions[event.sid].user].role, event)
    ensures Transacted(sha, w, event, clock) == w.db
  {
    hide FailedCheck, PassedCheck, FleetSteps.WithDriver, FleetSteps.WithVehicle, WallAdd, Dsgvo.Anonymized, Completed,
         Recorded, AfterDeletionRequest, AfterInvite;
  }

  // ----- accounts -----

  /** Signing up adds a company with twelve months of retention, its active OWNER and a session of fourteen
      days, or nothing when the address is taken. */
  lemma SignedUpExactly(a: Accounts, name: string, email: string, phone: Option<string>, now: Instant)
    ensures var c, u := |a.companies|, |a.users|;
      SignedUp(a, name, email, phone, now) ==
      if exists i | 0 <= i < |a.users| :: a.users[i].email == Routable(email) then a
      else Accounts(a.companies + [Company(name, 12, None, None)],
                    a.users + [User(c, Routable(email), OWNER, phone, true, true)],
                    a.sessions + [UserSession(u, c, WallAdd(now, 14 * DAY), None)],
                    a.invitations)
  {
    hide WallAdd;
  }

  /** An invitation for a MANAGER or VIEWER of the inviting company, good for 72 hours. */
  lemma InvitedExactly(a: Accounts, company: nat, email: string, role: Role, now: Instant)
    ensures AfterInvite(a, company, email, role, now) ==
            if role == OWNER then a
            else Accounts(a.companies, a.users, a.sessions,
                          a.invitations + [Invitation(company, email, role, WallAdd(now, 72 * HOUR), None)])
  {
    hide WallAdd;
  }

  /** An acceptance in one go creates the invited account exactly when the invitation is unspent and still
      good and nobody has the address; it spends the invitation. */
  lemma AcceptedExactly(a: Accounts, inv: nat, now: Instant)
    ensures var good := inv < |a.invitations| && a.invitations[inv].acceptedAt == None && now < a.invitations[inv].expiresAt
                        && forall i | 0 <= i < |a.users| :: a.users[i].email != Routable(a.invitations[inv].email);
      AfterAccept(a, inv, now) ==
      if !good then a
      else var i := a.invitations[inv];
        Accounts(a.companies, a.users + [User(i.company, Routable(i.email), i.role, None, true, true)], a.sessions,
                 a.invitations[inv := Invitation(i.company, i.email, i.role, i.expiresAt, Some(now))])
  {
  }

  /** The first request for deletion stands. */
  lemma DeletionRequestedExactly(a: Accounts, company: nat, now: Instant)
    requires company < |a.companies|
    ensures var c := a.companies[company];
      AfterDeletionRequest(a, company, now) ==
      a.(companies := a.companies[company :=
        Company(c.name, c.retentionMonths, if c.deletionRequestedAt == None then Some(now) else c.deletionRequestedAt, c.deletedAt)])
  {
  }

  /** A login's last transaction adds a session of fourteen days; credentials are handed to it only for a user
      who was active when they were verified, or by an acceptance that created its account. */
  lemma LoginExactly(sha: Digest, w: World, s: Step)
    requires Enabled(w, s)
    ensures s.event.OpenSession? ==>
      && s.event.login < |w.logins|
      && var l := w.logins[s.event.login];
         Transacted(sha, w, s.event, s.clock).accounts.sessions ==
         w.db.accounts.sessions + [UserSession(l.user, l.company, WallAdd(s.clock.now, 14 * DAY), None)]
    ensures s.event.Verify? ==>
      && s.event.user < |w.db.accounts.users| && w.db.accounts.users[s.event.user].active
      && LoginsAfter(w, s.event, s.clock) == w.logins + [Login(s.event.user, w.db.accounts.users[s.event.user].company)]
      && Transacted(sha, w, s.event, s.clock) == w.db
    ensures s.event.Accept? ==>
      && s.event.read < |w.viewed| && w.viewed[s.event.read] < |w.db.accounts.invitations|
      && var i, users := w.db.accounts.invitations[w.viewed[s.event.read]], w.db.accounts.users;
         LoginsAfter(w, s.event, s.clock) ==
         if exists u | 0 <= u < |users| :: users[u].email == Routable(i.email) then w.logins else w.logins + [Login(|users|, i.company)]
    ensures s.event.ReadInvitation? ==>
      ViewedAfter(w, s.event, s.clock) ==
      if s.event.invitation < |w.db.accounts.invitations| && w.db.accounts.invitations[s.event.invitation].acceptedAt == None
         && s.clock.now < w.db.accounts.invitations[s.event.invitation].expiresAt
      then w.viewed + [s.event.invitation] else w.viewed
  {
    hide WallAdd, RecordsInOrder, LockedRows, Removed, BerlinDay;
  }

  // ----- one company at a time -----

  /** Rows of other companies are as they were, and new rows are this company's. */
  predicate Within<T(==)>(a: seq<T>, b: seq<T>, of: T -> nat, c: nat) {
    && |a| <= |b|
    && (forall i | 0 <= i < |a| :: b[i] == a[i] || (of(a[i]) == c && of(b[i]) == c))
    && (forall i | |a| <= i < |b| :: of(b[i]) == c)
  }

  /** A change confined to company `c`, table by table; evidence and alerts are only added to, no message is
      changed or removed. */
  predicate Confined(a: Db, b: Db, c: nat) {
    && |b.accounts.companies| == |a.accounts.companies|
    && (forall i | 0 <= i < |a.accounts.companies| :: i != c ==> b.accounts.companies[i] == a.accounts.companies[i])
    && b.accounts.users == a.accounts.users && b.accounts.sessions == a.accounts.sessions
    && Within(a.accounts.invitations, b.accounts.invitations, (i: Invitation) => i.company, c)
    && Within(a.fleet.drivers, b.fleet.drivers, (d: Driver) => d.company, c)
    && Within(a.fleet.vehicles, b.fleet.vehicles, (v: Vehicle) => v.company, c)
    && Within(a.fleet.deadlines, b.fleet.deadlines, (d: Deadline) => d.company, c)
    && Within(a.fleet.cases, b.fleet.cases, (k: EscalationCase) => k.company, c)
    && a.fleet.log <= b.fleet.log && Within(a.fleet.log, b.fleet.log, (e: LogEntry) => e.company, c)
    && a.alerts <= b.alerts && Within(a.alerts, b.alerts, (x: Alert) => x.company, c)
    && (forall id | id in a.queue.outbox :: id in b.queue.outbox && b.queue.outbox[id] == a.queue.outbox[id])
    && (forall id | id in b.queue.outbox :: id in a.queue.outbox || b.queue.outbox[id].company == c)
    && b.queue.archive == a.queue.archive
  }

  lemma Nothing(db: Db, c: nat)
    ensures Confined(db, db, c)
  {
  }

  /** One row is changed, or one added. */
  lemma OneRow<T>(a: seq<T>, i: nat, x: T, of: T -> nat, c: nat)
    requires of(x) == c
    ensures i < |a| && of(a[i]) == c ==> Within(a, a[i := x], of, c)
    ensures Within(a, a + [x], of, c)
  {
  }

  lemma SentBy(q: Queue, p: Queue, company: nat, trigger: nat, told: seq<Address>, clock: Clock)
    requires Sends(q, p, company, trigger, told, clock) && forall id | id in q.outbox :: id < q.nextRow
    ensures forall id | id in p.outbox :: id in q.outbox || p.outbox[id].company == company
    ensures forall id | id in q.outbox :: id in p.outbox && p.outbox[id] == q.outbox[id]
    ensures p.archive == q.archive
  {
    forall id | id in p.outbox && id !in q.outbox
      ensures p.outbox[id].company == company
    {
      var i := id - q.nextRow;
      assert E6Key(trigger, told[i]).to == told[i];
      assert HasRow(p, q.nextRow + i, OutboxRow(company, FskFailedCritical, 0, E6Key(trigger, told[i]), clock.began,
                                               BerlinDay(clock.began), 0, clock.began, None, None, None, []));
    }
  }

  lemma FailedConfined(sha: Digest, db: Db, caller: User, driver: nat, performedOn: Option<Day>, uuid: nat,
                       clock: Clock)
    requires forall id | id in db.queue.outbox :: id < db.queue.nextRow
    ensures Confined(db, DriverCheck(sha, db, caller, driver, "FAILED", performedOn, uuid, clock).db, caller.company)
  {
    hide DriverCheck, Local, BerlinDay, Sends;
    DriverCheckRefused(sha, db, caller, driver, "FAILED", performedOn, uuid, clock);
    if DriverCheck(sha, db, caller, driver, "FAILED", performedOn, uuid, clock).response == Done {
      FailedCheckRecorded(sha, db, caller, driver, performedOn, uuid, clock, OrToday(performedOn, clock));
      var b := DriverCheck(sha, db, caller, driver, "FAILED", performedOn, uuid, clock).db;
      if |b.fleet.cases| > |db.fleet.cases| {
        SentBy(db.queue, b.queue, caller.company, db.queue.triggers, b.fleet.cases[|db.fleet.cases|].told, clock);
      }
    } else {
      Nothing(db, caller.company);
    }
  }

  /** Completing one of the company's obligations stays within the company. */
  lemma ClosesWithin(before: seq<Deadline>, after: seq<Deadline>, id: nat, day: Day, c: nat)
    requires Closes(before, after, id, day) && before[id].company == c
    ensures Within(before, after, (d: Deadline) => d.company, c)
  {
    forall i | 0 <= i < |before|
      ensures after[i] == before[i] || (before[i].company == c && after[i].company == c)
    {
      assert after[..|before|][i] == after[i];
    }
  }

  lemma AddsWithin(before: seq<LogEntry>, after: seq<LogEntry>, uuid: nat, clock: Clock, company: nat, subject: Subject,
                   kind: string, result: string, performedOn: Day, means: string)
    requires Adds(before, after, uuid, clock, company, subject, kind, result, performedOn, means)
    ensures before <= after && Within(before, after, (e: LogEntry) => e.company, company)
  {
    assert after == before + [after[|before|]];
  }

  /** Clearing a driver resolves a case of the driver's own company. */
  lemma ClearedWithin(f: Fleet, alerts: seq<Alert>, driver: nat, clock: Clock)
    requires LockInv(f, alerts) && driver < |f.drivers|
    ensures var c, g := f.drivers[driver].company, Cleared(f, driver, clock);
      Within(f.drivers, g.drivers, (d: Driver) => d.company, c) && Within(f.cases, g.cases, (k: EscalationCase) => k.company, c)
  {
    hide DriverOk, HasAlert, LockInv, Cleared;
    ClearedExactly(f, driver, clock);
    var c, g := f.drivers[driver].company, Cleared(f, driver, clock);
    forall i | 0 <= i < |f.cases|
      ensures g.cases[i] == f.cases[i] || (f.cases[i].company == c && g.cases[i].company == c)
    {
      CaseCompany(f, alerts, i);
    }
  }

  lemma CaseCompany(f: Fleet, alerts: seq<Alert>, c: nat)
    requires LockInv(f, alerts) && c < |f.cases|
    ensures f.cases[c].driver < |f.drivers| && f.cases[c].company == f.drivers[f.cases[c].driver].company
  {
    hide DriverOk, HasAlert;
    assert CaseOk(f, alerts, c);
  }

  lemma PassedConfined(sha: Digest, db: Db, caller: User, driver: nat, result: string, performedOn: Option<Day>,
                       uuid: nat, clock: Clock)
    requires LockInv(db.fleet, db.alerts) && result != "FAILED"
    ensures Confined(db, DriverCheck(sha, db, caller, driver, result, performedOn, uuid, clock).db, caller.company)
  {
    hide DriverCheck, LockInv, Adds, Closes, MonthRules.MonthsLater, Cleared, Ledger.OpenDeadline;
    var e, c, day := DriverCheck(sha, db, caller, driver, result, performedOn, uuid, clock), caller.company, OrToday(performedOn, clock);
    DriverCheckRefused(sha, db, caller, driver, result, performedOn, uuid, clock);
    if e.response == Done {
      PassedCheckRecorded(sha, db, caller, driver, result, performedOn, uuid, clock, day);
      AddsWithin(db.fleet.log, e.db.fleet.log, uuid, clock, c, OfDriver(driver), "FSK", "PASSED", day, "SICHT");
      ClearedWithin(db.fleet, db.alerts, driver, clock);
      OpenColumns(db.fleet.deadlines, c, OfDriver(driver), FSK);
      var open := Ledger.OpenDeadline(db.fleet.deadlines, c, OfDriver(driver), FSK);
      if open.Some? {
        ClosesWithin(db.fleet.deadlines, e.db.fleet.deadlines, open.value, day, c);
      }
    } else {
      Nothing(db, c);
    }
  }

  lemma VehicleConfined(sha: Digest, db: Db, caller: User, vehicle: Subject, kind: string, result: string,
                        performedOn: Option<Day>, uuid: nat, clock: Clock)
    ensures Confined(db, VehicleCheck(sha, db, caller, vehicle, kind, result, performedOn, uuid, clock).db, caller.company)
  {
    hide VehicleCheck, Adds, Closes, MonthRules.MonthsLater, MonthRules.MonthEndLater, Ledger.OpenDeadline;
    var e, c, day := VehicleCheck(sha, db, caller, vehicle, kind, result, performedOn, uuid, clock), caller.company, OrToday(performedOn, clock);
    VehicleCheckRecorded(sha, db, caller, vehicle, kind, result, performedOn, uuid, clock, day);
    if e.response == Done {
      var k := if kind == "HU" then HU else UVV;
      OpenColumns(db.fleet.deadlines, c, vehicle, k);
      var open := Ledger.OpenDeadline(db.fleet.deadlines, c, vehicle, k);
      if open.Some? {
        ClosesWithin(db.fleet.deadlines, e.db.fleet.deadlines, open.value, day, c);
        AddsWithin(db.fleet.log, e.db.fleet.log, uuid, clock, c, vehicle, if kind == "HU" then "HU" else "UVV", result, day, "WERKSTATT");
      } else {
        AddsWithin(db.fleet.log, e.db.fleet.log, uuid, clock, c, vehicle, kind, result, day, "WERKSTATT");
      }
    } else {
      Nothing(db, c);
    }
  }

  /** A request changes rows of its caller's company only, whatever ids the client sends. */
  lemma RequestConfined(sha: Digest, db: Db, caller: User, event: Event, clock: Clock)
    requires LockInv(db.fleet, db.alerts) && forall id | id in db.queue.outbox :: id < db.queue.nextRow
    requires IsRequest(event) && caller.company < |db.accounts.companies|
    ensures Confined(db, Requested(sha, db, caller, event, clock), caller.company)
  {
    hide DriverCheck, VehicleCheck, LockInv, CreatedDriver, CreatedVehicle, WallAdd, Within;
    Nothing(db, caller.company);
    var c := caller.company;
    match event {
      case Invite(_, email, role) =>
        OneRow(db.accounts.invitations, 0, Invitation(c, email, role, WallAdd(clock.now, INVITATION_TTL), None), (i: Invitation) => i.company, c);
      case RequestDeletion(_) =>
      case AddDriver(_, first, last, start) => AddDriverConfined(db, caller, first, last, start, clock);
      case AddVehicle(_, plate, interval, registered) => AddVehicleConfined(db, caller, plate, interval, registered, clock);
      case CheckDriver(_, driver, result, performedOn, uuid) =>
        if result == "FAILED" {
          FailedConfined(sha, db, caller, driver, performedOn, uuid, clock);
        } else {
          PassedConfined(sha, db, caller, driver, result, performedOn, uuid, clock);
        }
      case CheckVehicle(_, vehicle, kind, result, performedOn, uuid) =>
        VehicleConfined(sha, db, caller, vehicle, kind, result, performedOn, uuid, clock);
      case EraseDriver(_, driver) =>
        if Visible(db.fleet, c, driver) {
          OneRow(db.fleet.drivers, driver, Dsgvo.Anonymized(db.fleet.drivers[driver], clock.now), (d: Driver) => d.company, c);
        }
    }
  }

  lemma AddDriverConfined(db: Db, caller: User, first: string, last: string, start: Option<Day>, clock: Clock)
    ensures Confined(db, CreatedDriver(db, caller, first, last, start, clock).db, caller.company)
  {
    hide CreatedDriver, MonthRules.MonthsLater;
    DriverCreated(db, caller, first, last, start, clock, OrToday(start, clock));
    Nothing(db, caller.company);
  }

  lemma AddVehicleConfined(db: Db, caller: User, plate: bool, interval: Option<int>, registered: Option<Day>,
                           clock: Clock)
    ensures Confined(db, CreatedVehicle(db, caller, plate, interval, registered, clock).db, caller.company)
  {
    hide CreatedVehicle, MonthRules.MonthsLater, MonthRules.MonthEndLater;
    VehicleCreated(db, caller, plate, interval, registered, clock, OrToday(registered, clock));
    Nothing(db, caller.company);
  }
}
