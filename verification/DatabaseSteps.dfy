/** Every request and every job keeps the database invariant. */
module DatabaseSteps {
  import opened Wrappers
  import opened Calendar
  import opened BerlinTime
  import opened Records
  import opened AccountServices
  import Dsgvo
  import opened Evidence
  import opened Checks
  import Ledger
  import opened FleetInvariant
  import opened FleetSteps
  import opened QueueInvariant
  import QueueSteps
  import opened Routes
  import opened RouteSteps
  import opened DatabaseInvariant
  import FleetSystem

  // ----- the two frames -----

  lemma AccountsStep(sha: Digest, a: Db, accounts: Accounts, today: Day, later: Day)
    requires DbInv(sha, a, today) && today <= later
    requires AccountInv(accounts) && KeepsCompanies(a.accounts.companies, accounts.companies)
    ensures DbInv(sha, a.(accounts := accounts), later)
  {
    hide AccountInv, LockInv, LedgerInv, ChainsOk, QueueInv, RowsOk, QueueSteps.TimesInv, ToldInv;
    var b := a.(accounts := accounts);
    SameKeys(a.fleet, a.fleet);
    QueueFrame(a, b, today, later);
    SameStoriesRefl(a.fleet.cases);
    TimesFrame(a.fleet.cases, a.fleet.cases, today, later);
    PersistRefl(a.queue);
    ToldFrame(a, b);
  }

  lemma FleetStep(sha: Digest, a: Db, f: Fleet, today: Day, later: Day)
    requires DbInv(sha, a, today) && today <= later
    requires LockInv(f, a.alerts) && LedgerInv(f) && ChainsOk(sha, f.log)
    requires KeepsKeys(a.fleet, f) && SameStories(a.fleet.cases, f.cases) && CompaniesOk(a.(fleet := f))
    ensures DbInv(sha, a.(fleet := f), later)
  {
    hide AccountInv, LockInv, LedgerInv, ChainsOk, QueueInv, RowsOk, QueueSteps.TimesInv, ToldInv, CompaniesOk,
         KeepsKeys, SameStories;
    var b := a.(fleet := f);
    SameCompanyTable(a.accounts.companies);
    QueueFrame(a, b, today, later);
    TimesFrame(a.fleet.cases, f.cases, today, later);
    PersistRefl(a.queue);
    ToldFrame(a, b);
  }

  /** Time passes. */
  lemma Wait(sha: Digest, a: Db, today: Day, later: Day)
    requires DbInv(sha, a, today) && today <= later
    ensures DbInv(sha, a, later)
  {
    hide DbInv, AccountInv;
    assert AccountInv(a.accounts) by { DbParts(sha, a, today); }
    SameCompanyTable(a.accounts.companies);
    AccountsStep(sha, a, a.accounts, today, later);
    assert a.(accounts := a.accounts) == a;
  }

  lemma DbParts(sha: Digest, a: Db, today: Day)
    requires DbInv(sha, a, today)
    ensures AccountInv(a.accounts) && LockInv(a.fleet, a.alerts) && LedgerInv(a.fleet) && ChainsOk(sha, a.fleet.log)
    ensures QueueInv(a, today) && RowsOk(a.queue) && QueueSteps.TimesInv(a.fleet.cases, today) && ToldInv(a)
    ensures CompaniesOk(a)
  {
  }

  // ----- accounts -----

  lemma SignupStep(sha: Digest, a: Db, name: string, email: string, phone: Option<string>, today: Day, clock: Clock)
    requires DbInv(sha, a, today) && today <= clock.today
    ensures DbInv(sha, a.(accounts := SignedUp(a.accounts, name, email, phone, clock.now)), clock.today)
  {
    hide DbInv, AccountInv, AfterLogin, EmailTaken;
    DbParts(sha, a, today);
    var mid := AfterSignup(a.accounts, name, email, phone);
    SignupKeeps(a.accounts, name, email, phone);
    SameCompanyTable(a.accounts.companies);
    if !EmailTaken(a.accounts.users, Routable(email)) {
      LoginKeeps(mid, |a.accounts.users|, |a.accounts.companies|, false, clock.now);
      LoginKeepsTable(mid, |a.accounts.users|, |a.accounts.companies|, false, clock.now);
    }
    AccountsStep(sha, a, SignedUp(a.accounts, name, email, phone, clock.now), today, clock.today);
  }

  lemma LoginKeepsTable(a: Accounts, user: nat, company: nat, rehash: bool, now: Instant)
    ensures AfterLogin(a, user, company, rehash, now).companies == a.companies
  {
  }

  lemma AcceptStep(sha: Digest, a: Db, inv: nat, today: Day, clock: Clock)
    requires DbInv(sha, a, today) && today <= clock.today && inv < |a.accounts.invitations|
    requires !Deleted(a.accounts.companies, a.accounts.invitations[inv].company)
    ensures DbInv(sha, a.(accounts := AfterRead(a.accounts, inv, clock.now)), clock.today)
  {
    hide DbInv, AccountInv, MayInsert;
    DbParts(sha, a, today);
    InvitationAt(a.accounts, inv);
    AcceptKeeps(a.accounts, inv, clock.now);
    SameCompanyTable(a.accounts.companies);
    AccountsStep(sha, a, AfterRead(a.accounts, inv, clock.now), today, clock.today);
  }

  lemma SessionStep(sha: Digest, a: Db, user: nat, company: nat, rehash: bool, today: Day, clock: Clock)
    requires DbInv(sha, a, today) && today <= clock.today
    requires user < |a.accounts.users| && company == a.accounts.users[user].company
    ensures DbInv(sha, a.(accounts := AfterLogin(a.accounts, user, company, rehash, clock.now)), clock.today)
  {
    hide DbInv, AccountInv, AfterLogin;
    DbParts(sha, a, today);
    LoginKeeps(a.accounts, user, company, rehash, clock.now);
    LoginKeepsTable(a.accounts, user, company, rehash, clock.now);
    SameCompanyTable(a.accounts.companies);
    AccountsStep(sha, a, AfterLogin(a.accounts, user, company, rehash, clock.now), today, clock.today);
  }

  /** An admitted caller's company exists and has not been erased. */
  lemma CallerOk(a: Accounts, sid: nat, now: Instant)
    requires AccountInv(a) && Admitted(a, sid, now)
    ensures var caller := FleetSystem.Caller(a, sid);
      caller in a.users && caller.active && caller.company == a.sessions[sid].company
      && caller.company < |a.companies| && a.companies[caller.company].deletedAt.None?
  {
  }

  lemma InviteStep(sha: Digest, a: Db, company: nat, email: string, role: Role, today: Day, clock: Clock)
    requires DbInv(sha, a, today) && today <= clock.today
    requires company < |a.accounts.companies| && a.accounts.companies[company].deletedAt.None?
    ensures DbInv(sha, a.(accounts := AfterInvite(a.accounts, company, email, role, clock.now)), clock.today)
  {
    hide DbInv, AccountInv, WallAdd;
    DbParts(sha, a, today);
    InviteKeeps(a.accounts, company, email, role, clock.now);
    SameCompanyTable(a.accounts.companies);
    AccountsStep(sha, a, AfterInvite(a.accounts, company, email, role, clock.now), today, clock.today);
  }

  lemma DeletionRequestStep(sha: Digest, a: Db, company: nat, today: Day, clock: Clock)
    requires DbInv(sha, a, today) && today <= clock.today
    ensures DbInv(sha, a.(accounts := AfterDeletionRequest(a.accounts, company, clock.now)), clock.today)
  {
    hide DbInv, AccountInv;
    DbParts(sha, a, today);
    DeletionRequestKeeps(a.accounts, company, clock.now);
    AccountsStep(sha, a, AfterDeletionRequest(a.accounts, company, clock.now), today, clock.today);
  }

  // ----- new subjects -----

  lemma AddDriverStep(sha: Digest, a: Db, d: Driver, dueOn: Day, today: Day, clock: Clock)
    requires DbInv(sha, a, today) && today <= clock.today
    requires d.authorized && d.company < |a.accounts.companies| && !Deleted(a.accounts.companies, d.company)
    ensures DbInv(sha, a.(fleet := WithDriver(a.fleet, d, dueOn)), clock.today)
  {
    hide DbInv, LockInv, LedgerInv, ChainsOk;
    DbParts(sha, a, today);
    DriverKeepsLock(a.fleet, a.alerts, d, dueOn);
    DriverKeepsLedger(a.fleet, d, dueOn);
    FleetStep(sha, a, WithDriver(a.fleet, d, dueOn), today, clock.today);
  }

  lemma AddVehicleStep(sha: Digest, a: Db, v: Vehicle, huDue: Day, uvvDue: Day, today: Day, clock: Clock)
    requires DbInv(sha, a, today) && today <= clock.today && v.company < |a.accounts.companies|
    ensures DbInv(sha, a.(fleet := WithVehicle(a.fleet, v, huDue, uvvDue)), clock.today)
  {
    hide DbInv, LockInv, LedgerInv, ChainsOk;
    DbParts(sha, a, today);
    var f := WithVehicle(a.fleet, v, huDue, uvvDue);
    assert SameStanding(a.fleet.drivers, f.drivers);
    LockFrame(a.fleet, f, a.alerts);
    VehicleKeepsLedger(a.fleet, v, huDue, uvvDue);
    FleetStep(sha, a, f, today, clock.today);
  }

  // ----- checks -----

  lemma LogStep(sha: Digest, log: seq<LogEntry>, f: Fields, uuid: nat, clock: Clock)
    requires ChainsOk(sha, log) && FleetSystem.RecordsInOrder(log, f.company, f.subject, uuid, clock)
    ensures ChainsOk(sha, Recorded(sha, log, f, uuid, clock))
  {
    hide Ordered, AllLinked, Recorded;
    RecordKeepsChains(sha, log, f, uuid, clock);
  }

  lemma PassedStep(sha: Digest, a: Db, company: nat, driver: nat, day: Day, uuid: nat, today: Day, clock: Clock)
    requires DbInv(sha, a, today) && today <= clock.today
    requires Visible(a.fleet, company, driver)
    requires FleetSystem.RecordsInOrder(a.fleet.log, company, OfDriver(driver), uuid, clock)
    ensures DbInv(sha, PassedCheck(sha, a, company, driver, day, uuid, clock).db, clock.today)
  {
    hide DbInv, LockInv, LedgerInv, ChainsOk, RolledForward, Recorded, Cleared, Ledger.OpenDeadline;
    DbParts(sha, a, today);
    PassedCheckKeepsFleet(sha, a, company, driver, day, uuid, clock);
    LogStep(sha, a.fleet.log, SightCheck(company, driver, PASSED, day), uuid, clock);
    AlwaysOpen(a.fleet, OfDriver(driver), FSK);
    var id := Ledger.OpenDeadline(a.fleet.deadlines, company, OfDriver(driver), FSK).value;
    var rolled := a.fleet.(deadlines := RolledForward(a.fleet, id, PASSED, day),
                           log := Recorded(sha, a.fleet.log, SightCheck(company, driver, PASSED, day), uuid, clock));
    RolledKeeps(a, rolled, id, PASSED, day);
    ClearedKeeps(a, rolled, driver, clock);
    FleetStep(sha, a, Cleared(rolled, driver, clock), today, clock.today);
  }

  lemma RolledKeeps(a: Db, f: Fleet, id: nat, result: string, day: Day)
    requires id < |a.fleet.deadlines| && CompaniesOk(a)
    requires f == a.fleet.(deadlines := RolledForward(a.fleet, id, result, day), log := f.log)
    ensures KeepsKeys(a.fleet, f) && SameStories(a.fleet.cases, f.cases) && CompaniesOk(a.(fleet := f))
  {
  }

  lemma ClearedKeeps(a: Db, f: Fleet, driver: nat, clock: Clock)
    requires driver < |f.drivers|
    requires KeepsKeys(a.fleet, f) && SameStories(a.fleet.cases, f.cases) && CompaniesOk(a.(fleet := f))
    ensures var g := Cleared(f, driver, clock);
      g.log == f.log && KeepsKeys(a.fleet, g) && SameStories(a.fleet.cases, g.cases) && CompaniesOk(a.(fleet := g))
  {
  }

  lemma VehicleStep(sha: Digest, a: Db, caller: User, vehicle: Subject, kind: string, result: string,
                    performedOn: Option<Day>, uuid: nat, today: Day, clock: Clock)
    requires DbInv(sha, a, today) && today <= clock.today
    requires NamesVehicle(a.fleet, vehicle)
    requires FleetSystem.RecordsInOrder(a.fleet.log, caller.company, vehicle, uuid, clock)
    ensures DbInv(sha, VehicleCheck(sha, a, caller, vehicle, kind, result, performedOn, uuid, clock).db, clock.today)
  {
    hide DbInv, LockInv, LedgerInv, ChainsOk, RolledForward, Recorded, Ledger.OpenDeadline, CompaniesOk, KeepsKeys;
    DbParts(sha, a, today);
    VehicleCheckKeepsFleet(sha, a, caller, vehicle, kind, result, performedOn, uuid, clock);
    var day, company := OrToday(performedOn, clock), caller.company;
    var k := if kind == "HU" then HU else UVV;
    var open := Ledger.OpenDeadline(a.fleet.deadlines, company, vehicle, k);
    var fields := Fields(company, vehicle, if open.Some? then KindText(k) else kind, result, day, Some(BY_WORKSHOP));
    var log := Recorded(sha, a.fleet.log, fields, uuid, clock);
    LogStep(sha, a.fleet.log, fields, uuid, clock);
    var b := VehicleCheck(sha, a, caller, vehicle, kind, result, performedOn, uuid, clock).db;
    if b == a {
      Wait(sha, a, today, clock.today);
    } else if open.Some? {
      RolledKeeps(a, a.fleet.(deadlines := RolledForward(a.fleet, open.value, result, day), log := log), open.value, result, day);
      FleetStep(sha, a, b.fleet, today, clock.today);
    } else {
      SameKeys(a.fleet, b.fleet);
      SameStoriesRefl(a.fleet.cases);
      CompaniesFrame(a, b);
      FleetStep(sha, a, b.fleet, today, clock.today);
    }
  }

  lemma CompaniesFrame(a: Db, b: Db)
    requires CompaniesOk(a) && b.accounts.companies == a.accounts.companies
    requires NamesKept(a.fleet.drivers, b.fleet.drivers) && b.fleet.vehicles == a.fleet.vehicles
    ensures CompaniesOk(b)
  {
  }

  // ----- scrubbing -----

  lemma ScrubStep(sha: Digest, a: Db, drivers: seq<Driver>, today: Day, clock: Clock)
    requires DbInv(sha, a, today) && today <= clock.today && SameStanding(a.fleet.drivers, drivers)
    requires NamesKept(a.fleet.drivers, drivers)
    ensures DbInv(sha, a.(fleet := a.fleet.(drivers := drivers)), clock.today)
  {
    hide DbInv, LockInv, LedgerInv, ChainsOk, CompaniesOk;
    DbParts(sha, a, today);
    var f := a.fleet.(drivers := drivers);
    LockFrame(a.fleet, f, a.alerts);
    LedgerFrame(a.fleet, f);
    SameKeys(a.fleet, f);
    SameStoriesRefl(a.fleet.cases);
    CompaniesFrame(a, a.(fleet := f));
    FleetStep(sha, a, f, today, clock.today);
  }

  lemma PurgeStep(sha: Digest, a: Db, today: Day, clock: Clock)
    requires DbInv(sha, a, today) && today <= clock.today
    ensures DbInv(sha, a.(fleet := a.fleet.(drivers := Dsgvo.Purged(a.accounts.companies, a.fleet.drivers, clock))), clock.today)
  {
    hide DbInv, Dsgvo.RetentionOver;
    var drivers := Dsgvo.Purged(a.accounts.companies, a.fleet.drivers, clock);
    assert SameStanding(a.fleet.drivers, drivers) && NamesKept(a.fleet.drivers, drivers);
    ScrubStep(sha, a, drivers, today, clock);
  }
}
