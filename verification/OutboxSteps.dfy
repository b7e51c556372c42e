/** The transactions that touch the outbox keep the database invariant: failed checks, the sweeps,
    pruning and erasure. */
module OutboxSteps {
  import opened Calendar
  import opened BerlinTime
  import opened Records
  import opened Outbox
  import opened AccountServices
  import opened Dsgvo
  import opened Sweeps
  import opened Evidence
  import Checks
  import opened FleetInvariant
  import FleetSteps
  import opened QueueInvariant
  import opened QueueSteps
  import opened Routes
  import RouteSteps
  import opened DatabaseInvariant
  import opened DatabaseSteps
  import FleetSystem
  import E6

  // ----- a failed check -----

  /** The batch of a fresh escalation is on record, one row per address. */
  lemma MessagesOnRecord(db: Db, today: Day, company: nat, told: seq<Address>, clock: Clock, i: nat)
    requires QueueInv(db, today) && i < |told|
    requires !Collides(db.queue.outbox, E6.Messages(company, db.queue.triggers, told, clock))
    ensures var p := EnqueueAll(db.queue, E6.Messages(company, db.queue.triggers, told, clock));
      exists id :: id in Rows(p) && Rows(p)[id] in E6.Messages(company, db.queue.triggers, told, clock)
        && Rows(p)[id].key == E6Key(db.queue.triggers, told[i])
  {
    hide QueueInv, EnqueueAll, Collides, KeyTaken;
    var q, rows := db.queue, E6.Messages(company, db.queue.triggers, told, clock);
    var key := E6Key(q.triggers, told[i]);
    var p := EnqueueAll(q, rows);
    Serials(db, today);
    EnqueueAllKeys(q, rows, key);
    AllGrown(q, rows);
    assert rows[i].key == key;
    var id := Holder(p, key);
    E6NeverRemoved(db, today, told[i]);
    NotHeld(q, key);
  }

  lemma Serials(db: Db, today: Day)
    requires QueueInv(db, today)
    ensures SerialsOk(db.queue) && forall id | id in db.queue.outbox :: id < db.queue.nextRow
  {
  }

  lemma Holder(p: Queue, key: DedupKey) returns (id: nat)
    requires KeyTaken(p.outbox, key)
    ensures id in Rows(p) && Rows(p)[id].key == key
  {
    id :| id in p.outbox && p.outbox[id].key == key;
  }

  lemma NotHeld(q: Queue, key: DedupKey)
    requires NeverRemoved(q, key) && !KeyTaken(q.outbox, key)
    ensures forall id | id in Rows(q) :: Rows(q)[id].key != key
  {
  }

  lemma NewCaseTold(db: Db, today: Day, company: nat, driver: nat, told: seq<Address>, clock: Clock)
    requires QueueInv(db, today)
    requires !Collides(db.queue.outbox, E6.Messages(company, db.queue.triggers, told, clock))
    ensures CaseTold(EnqueueAll(db.queue, E6.Messages(company, db.queue.triggers, told, clock)),
                     E6.NewCase(company, driver, db.queue.triggers, told, clock))
  {
    hide QueueInv, EnqueueAll, Collides, Rows, EscalationDeadline;
    var t := db.queue.triggers;
    var p := EnqueueAll(db.queue, E6.Messages(company, t, told, clock));
    var c := E6.NewCase(company, driver, t, told, clock);
    forall i | 0 <= i < |c.told|
      ensures HasToldRow(p, c, c.told[i])
    {
      MessagesOnRecord(db, today, company, told, clock, i);
      var id :| id in Rows(p) && Rows(p)[id] in E6.Messages(company, t, told, clock) && Rows(p)[id].key == E6Key(t, told[i]);
      assert IsToldRow(Rows(p)[id], c, c.told[i]);
    }
  }

  /** Evidence and a drawn trigger id, before E6 does anything. */
  lemma LoggedStep(sha: Digest, a: Db, company: nat, driver: nat, day: Day, uuid: nat, today: Day, clock: Clock)
    requires DbInv(sha, a, today) && today <= clock.today
    requires FleetSystem.RecordsInOrder(a.fleet.log, company, OfDriver(driver), uuid, clock)
    ensures var b := TriggerDrawn(WithEvidence(sha, a, SightCheck(company, driver, Checks.FAILED, day), uuid, clock));
      && AccountInv(b.accounts) && ChainsOk(sha, b.fleet.log) && QueueInv(b, clock.today) && RowsOk(b.queue)
      && TimesInv(b.fleet.cases, clock.today) && ToldInv(b) && CompaniesOk(b)
      && QueueInv(b.(queue := a.queue), clock.today)
  {
    hide AccountInv, LockInv, LedgerInv, ChainsOk, QueueInv, TimesInv, ToldInv, CompaniesOk, Recorded, RowsPersist;
    var fields := SightCheck(company, driver, Checks.FAILED, day);
    var mid := WithEvidence(sha, a, fields, uuid, clock);
    var b := TriggerDrawn(mid);
    LogStep(sha, a.fleet.log, fields, uuid, clock);
    RouteSteps.SameKeys(a.fleet, b.fleet);
    RouteSteps.SameCompanyTable(a.accounts.companies);
    QueueFrame(a, b, today, clock.today);
    QueueFrame(a, mid, today, clock.today);
    assert b.(queue := a.queue) == mid;
    SameStoriesRefl(a.fleet.cases);
    TimesFrame(a.fleet.cases, a.fleet.cases, today, clock.today);
    SameRows(a.queue, b.queue);
    ToldFrame(a, b);
    CompaniesFrame(a, b);
  }

  lemma SameRows(q: Queue, p: Queue)
    requires p.outbox == q.outbox && p.archive == q.archive
    ensures RowsPersist(q, p) && (RowsOk(q) ==> RowsOk(p))
  {
  }

  lemma FailedStep(sha: Digest, a: Db, company: nat, driver: nat, day: Day, uuid: nat, today: Day, clock: Clock)
    requires DbInv(sha, a, today) && today <= clock.today && clock.Valid()
    requires Visible(a.fleet, company, driver)
    requires FleetSystem.RecordsInOrder(a.fleet.log, company, OfDriver(driver), uuid, clock)
    requires !Deleted(a.accounts.companies, company)
    ensures DbInv(sha, FailedCheck(sha, a, company, driver, day, uuid, clock).db, clock.today)
  {
    hide DbInv, AccountInv, LockInv, LedgerInv, ChainsOk, QueueInv, RowsOk, TimesInv, ToldInv, CompaniesOk, Recorded,
         Collides, E6.OpenCase, AddressesOf, Deleted, E6.Escalated, E6.Messages;
    DbParts(sha, a, today);
    RouteSteps.FailedCheckKeepsFleet(sha, a, company, driver, day, uuid, clock);
    RouteSteps.FailedCheckKeepsQueue(sha, a, company, driver, day, uuid, today, clock);
    LoggedStep(sha, a, company, driver, day, uuid, today, clock);
    Wait(sha, a, today, clock.today);
    var b := TriggerDrawn(WithEvidence(sha, a, SightCheck(company, driver, Checks.FAILED, day), uuid, clock));
    var e := FailedCheck(sha, a, company, driver, day, uuid, clock).db;
    var told := AddressesOf(a.accounts.users, company);
    if e != a && e != b {
      FreshRest(sha, b, a.queue.triggers, company, driver, told, clock);
    }
    assert e != a ==> AccountInv(e.accounts) && ChainsOk(sha, e.fleet.log) && RowsOk(e.queue)
                      && TimesInv(e.fleet.cases, clock.today) && ToldInv(e) && CompaniesOk(e);
    DbWhole(sha, e, clock.today, e == a);
  }

  lemma DbWhole(sha: Digest, e: Db, today: Day, done: bool)
    requires done ==> DbInv(sha, e, today)
    requires LockInv(e.fleet, e.alerts) && LedgerInv(e.fleet) && QueueInv(e, today)
    requires !done ==> AccountInv(e.accounts) && ChainsOk(sha, e.fleet.log) && RowsOk(e.queue)
                       && TimesInv(e.fleet.cases, today) && ToldInv(e) && CompaniesOk(e)
    ensures DbInv(sha, e, today)
  {
  }

  /** What a fresh escalation does besides lock and ledger. */
  lemma FreshRest(sha: Digest, b: Db, t: nat, company: nat, driver: nat, told: seq<Address>, clock: Clock)
    requires AccountInv(b.accounts) && ChainsOk(sha, b.fleet.log) && RowsOk(b.queue)
    requires TimesInv(b.fleet.cases, clock.today) && ToldInv(b) && CompaniesOk(b) && clock.Valid()
    requires b.queue.triggers == t + 1 && QueueInv(b.(queue := b.queue.(triggers := t)), clock.today)
    requires driver < |b.fleet.drivers| && b.fleet.drivers[driver].company == company
    requires !Collides(b.queue.outbox, E6.Messages(company, t, told, clock))
    ensures var e := E6.Escalated(b, driver, company, told, t, clock);
      && AccountInv(e.accounts) && ChainsOk(sha, e.fleet.log) && RowsOk(e.queue)
      && TimesInv(e.fleet.cases, clock.today) && ToldInv(e) && CompaniesOk(e)
  {
    hide AccountInv, ChainsOk, QueueInv, RowsOk, TimesInv, ToldInv, CompaniesOk, Collides, EscalationDeadline,
         RowsPersist, Append, EnqueueAll;
    var e := E6.Escalated(b, driver, company, told, t, clock);
    var rows := E6.Messages(company, t, told, clock);
    var k := E6.NewCase(company, driver, t, told, clock);
    var was := b.(queue := b.queue.(triggers := t));
    Serials(was, clock.today);
    AppendIsEnqueue(b.queue, rows);
    assert SerialsOk(b.queue);
    EnqueueRowsOk(b.queue, rows);
    NewCaseTimes(company, driver, t, told, clock);
    MoreTimes(b.fleet.cases, k, clock.today);
    NewCaseTold(was, clock.today, company, driver, told, clock);
    TriggersApart(was.queue, rows, t + 1);
    MoreTold(b, e, k);
    LockedCompanies(b, e);
  }

  lemma {:induction false} TriggersApart(q: Queue, rows: seq<OutboxRow>, n: nat)
    ensures EnqueueAll(q.(triggers := n), rows) == EnqueueAll(q, rows).(triggers := n)
  {
    if rows != [] {
      TriggersApart(q, rows[..|rows| - 1], n);
    }
  }

  lemma MoreTimes(cases: seq<EscalationCase>, k: EscalationCase, today: Day)
    requires TimesInv(cases, today) && CaseTimes(k) && k.openedOn <= today
    ensures TimesInv(cases + [k], today)
  {
  }

  lemma MoreTold(a: Db, b: Db, k: EscalationCase)
    requires ToldInv(a) && RowsPersist(a.queue, b.queue)
    requires b.fleet.cases == a.fleet.cases + [k]
    requires exists p: Queue :: CaseTold(p, k) && p.outbox == b.queue.outbox && p.archive == b.queue.archive
    ensures ToldInv(b)
  {
    hide RowsPersist, CaseTold;
    var p: Queue :| CaseTold(p, k) && p.outbox == b.queue.outbox && p.archive == b.queue.archive;
    SameRows(p, b.queue);
    ToldPersists(k, p, b.queue);
    forall c | 0 <= c < |b.fleet.cases|
      ensures CaseTold(b.queue, b.fleet.cases[c])
    {
      if c < |a.fleet.cases| {
        ToldPersists(a.fleet.cases[c], a.queue, b.queue);
      }
    }
  }

  lemma LockedCompanies(b: Db, e: Db)
    requires CompaniesOk(b) && e.accounts == b.accounts && e.fleet.vehicles == b.fleet.vehicles
    requires NamesKept(b.fleet.drivers, e.fleet.drivers)
    ensures CompaniesOk(e)
  {
  }

  // ----- the sweeps -----

  lemma CasesInRange(a: Db)
    requires LockInv(a.fleet, a.alerts) && CompaniesOk(a)
    ensures forall c | 0 <= c < |a.fleet.cases| :: a.fleet.cases[c].company < |a.accounts.companies|
  {
    hide DriverOk;
    forall c | 0 <= c < |a.fleet.cases|
      ensures a.fleet.cases[c].company < |a.accounts.companies|
    {
      assert CaseOk(a.fleet, a.alerts, c);
    }
  }

  lemma DeadlinesInRange(a: Db)
    requires LedgerInv(a.fleet) && CompaniesOk(a)
    ensures forall d | 0 <= d < |a.fleet.deadlines| :: a.fleet.deadlines[d].company < |a.accounts.companies|
  {
  }

  lemma SweepFresh(cases: seq<EscalationCase>, users: seq<User>, clock: Clock, i: nat)
    requires i < |SweepRows(cases, users, clock, |cases|)|
    ensures FreshRow(SweepRows(cases, users, clock, |cases|)[i])
  {
    hide AddressesOf, SweepRows;
    var c, j := SweepRowSource(cases, users, clock, |cases|, i);
  }

  lemma SweepStories(cases: seq<EscalationCase>, clock: Clock)
    ensures SameStories(cases, SweptCases(cases, clock))
  {
  }

  lemma SweepStep(sha: Digest, a: Db, today: Day, clock: Clock)
    requires DbInv(sha, a, today) && today <= clock.today && clock.Frozen()
    ensures DbInv(sha, AfterEscalationSweep(a, clock), clock.today)
  {
    hide DbInv, AccountInv, LockInv, LedgerInv, ChainsOk, QueueInv, RowsOk, TimesInv, ToldInv, CompaniesOk,
         EnqueueAll, SweepRows, SweptCases, RowsPersist, SameStories;
    DbParts(sha, a, today);
    var cases, users := a.fleet.cases, a.accounts.users;
    var b := AfterEscalationSweep(a, clock);
    CasesInRange(a);
    EscalationSweepKeepsQueue(a, today, clock);
    SweptFromAll(cases, clock);
    FleetSteps.SweepKeepsLock(a.fleet, a.alerts, SweptCases(cases, clock));
    LedgerFrame(a.fleet, b.fleet);
    Serials(a, today);
    forall i | 0 <= i < |SweepRows(cases, users, clock, |cases|)|
      ensures FreshRow(SweepRows(cases, users, clock, |cases|)[i])
    {
      SweepFresh(cases, users, clock, i);
    }
    EnqueueRowsOk(a.queue, SweepRows(cases, users, clock, |cases|));
    SweepStories(cases, clock);
    TimesFrame(cases, b.fleet.cases, today, clock.today);
    ToldFrame(a, b);
    CompaniesFrame(a, b);
    DbWhole(sha, b, clock.today, false);
  }

  lemma SweptFromAll(cases: seq<EscalationCase>, clock: Clock)
    ensures forall c | 0 <= c < |cases| :: FleetSteps.SweptFrom(cases[c], SweptCases(cases, clock)[c])
  {
  }

  lemma ReminderFresh(ds: seq<Deadline>, users: seq<User>, clock: Clock, i: nat)
    requires i < |ReminderRows(ds, users, clock, |ds|)|
    ensures FreshRow(ReminderRows(ds, users, clock, |ds|)[i])
  {
    hide AddressesOf, ReminderRows;
    var d, j := ReminderRowSource(ds, users, clock, |ds|, i);
  }

  lemma RemindStep(sha: Digest, a: Db, today: Day, clock: Clock)
    requires DbInv(sha, a, today) && today <= clock.today && clock.Frozen()
    ensures DbInv(sha, AfterReminderSweep(a, clock), clock.today)
  {
    hide DbInv, AccountInv, LockInv, LedgerInv, ChainsOk, QueueInv, RowsOk, TimesInv, ToldInv, CompaniesOk,
         EnqueueAll, ReminderRows, RowsPersist;
    DbParts(sha, a, today);
    var ds, users := a.fleet.deadlines, a.accounts.users;
    var b := AfterReminderSweep(a, clock);
    DeadlinesInRange(a);
    ReminderSweepKeepsQueue(a, today, clock);
    Serials(a, today);
    forall i | 0 <= i < |ReminderRows(ds, users, clock, |ds|)|
      ensures FreshRow(ReminderRows(ds, users, clock, |ds|)[i])
    {
      ReminderFresh(ds, users, clock, i);
    }
    EnqueueRowsOk(a.queue, ReminderRows(ds, users, clock, |ds|));
    SameStoriesRefl(a.fleet.cases);
    TimesFrame(a.fleet.cases, a.fleet.cases, today, clock.today);
    ToldFrame(a, b);
    DbWhole(sha, b, clock.today, false) by { CompaniesFrame(a, b); }
  }

  // ----- rows leaving -----

  lemma LessRows(q: Queue, gone: set<nat>)
    requires SerialsOk(q) && RowsOk(q)
    ensures RowsOk(Without(q, gone)) && RowsPersist(q, Without(q, gone))
  {
    hide RowOk;
    RowsWithout(q, gone);
  }

  lemma PruneStep(sha: Digest, a: Db, today: Day, clock: Clock)
    requires DbInv(sha, a, today) && today <= clock.today && clock.Valid()
    ensures DbInv(sha, a.(queue := Pruned(a.queue, clock)), clock.today)
  {
    hide DbInv, AccountInv, LockInv, LedgerInv, ChainsOk, QueueInv, RowsOk, TimesInv, ToldInv, CompaniesOk,
         RowsPersist, Without, MonthsAgo;
    DbParts(sha, a, today);
    var b := a.(queue := Pruned(a.queue, clock));
    PruneKeepsQueue(a, today, clock);
    Serials(a, today);
    LessRows(a.queue, Expired(a.queue, MonthsAgo(clock.now, OUTBOX_RETENTION_MONTHS)));
    SameStoriesRefl(a.fleet.cases);
    TimesFrame(a.fleet.cases, a.fleet.cases, today, clock.today);
    ToldFrame(a, b);
    DbWhole(sha, b, clock.today, false) by { CompaniesFrame(a, b); }
  }

  lemma TombstoneStep(sha: Digest, a: Db, company: nat, today: Day, clock: Clock)
    requires DbInv(sha, a, today) && today <= clock.today && company < |a.accounts.companies|
    ensures DbInv(sha, AfterTombstone(a, company, clock.now), clock.today)
  {
    hide DbInv, AccountInv, LockInv, LedgerInv, ChainsOk, QueueInv, RowsOk, TimesInv, ToldInv, CompaniesOk,
         RowsPersist, Without, TombstonedDrivers, ErasedUsers, RevokedSessions, ClosedInvitations;
    DbParts(sha, a, today);
    var b := AfterTombstone(a, company, clock.now);
    TombstoneKeepsQueue(a, company, today, clock);
    EraseKeeps(a.accounts, company, clock.now);
    TombstoneStanding(a.fleet.drivers, company, clock.now);
    LockFrame(a.fleet, b.fleet, a.alerts);
    LedgerFrame(a.fleet, b.fleet);
    Serials(a, today);
    LessRows(a.queue, RowsOf(a.queue, company));
    SameStoriesRefl(a.fleet.cases);
    TimesFrame(a.fleet.cases, a.fleet.cases, today, clock.today);
    ToldFrame(a, b);
    ErasedCompanies(a, b, company);
    DbWhole(sha, b, clock.today, false);
  }

  lemma ErasedCompanies(a: Db, b: Db, company: nat)
    requires CompaniesOk(a) && |b.accounts.companies| == |a.accounts.companies|
    requires forall c | 0 <= c < |a.accounts.companies| :: c != company ==> b.accounts.companies[c] == a.accounts.companies[c]
    requires NamesKept(a.fleet.drivers, b.fleet.drivers) && b.fleet.vehicles == a.fleet.vehicles
    requires forall d | 0 <= d < |b.fleet.drivers| :: b.fleet.drivers[d].company == company ==> Scrubbed(b.fleet.drivers[d])
    ensures CompaniesOk(b)
  {
  }

  lemma TombstoneStanding(drivers: seq<Driver>, company: nat, now: Instant)
    ensures var scrubbed := TombstonedDrivers(drivers, company, now);
      && SameStanding(drivers, scrubbed) && NamesKept(drivers, scrubbed)
      && forall d | 0 <= d < |scrubbed| :: scrubbed[d].company == company ==> Scrubbed(scrubbed[d])
  {
  }

  lemma {:induction false} TombstonesStep(sha: Digest, a: Db, n: nat, today: Day, clock: Clock)
    requires DbInv(sha, a, today) && today <= clock.today && n <= |a.accounts.companies|
    ensures DbInv(sha, AfterTombstones(a, clock.now, n), clock.today)
  {
    hide DbInv, AfterTombstone, DueForDeletion;
    if n == 0 {
      Wait(sha, a, today, clock.today);
    } else {
      TombstonesStep(sha, a, n - 1, today, clock);
      var mid := AfterTombstones(a, clock.now, n - 1);
      TombstoneStep(sha, mid, n - 1, clock.today, clock);
    }
  }
}
