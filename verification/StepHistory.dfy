/** What one step can do to the past: nothing. Evidence, cases, rows and erasures only accumulate. */
module StepHistory {
  import opened Wrappers
  import opened Calendar
  import opened BerlinTime
  import opened Records
  import opened Outbox
  import opened AccountServices
  import opened Dsgvo
  import opened Sweeps
  import opened Evidence
  import MonthRules
  import opened Checks
  import Ledger
  import opened QueueInvariant
  import opened Relay
  import opened SmsQuota
  import opened Routes
  import opened DatabaseInvariant
  import DatabaseSteps
  import opened FleetSystem
  import opened QuietSteps
  import opened SystemInvariant
  import RelaySteps
  import CycleSteps
  import SystemRuns
  import E6

  // ----- evidence -----

  /** The log is extended by at most one entry, recorded for a company that has not been erased. */
  predicate LogGrown(a: Db, b: Db) {
    || b.fleet.log == a.fleet.log
    || (|b.fleet.log| == |a.fleet.log| + 1 && b.fleet.log[..|a.fleet.log|] == a.fleet.log
        && !Deleted(a.accounts.companies, b.fleet.log[|a.fleet.log|].company))
  }

  lemma RecordedGrows(sha: Digest, a: Db, b: Db, f: Fields, uuid: nat, clock: Clock)
    requires b.fleet.log == Recorded(sha, a.fleet.log, f, uuid, clock) && !Deleted(a.accounts.companies, f.company)
    ensures LogGrown(a, b)
  {
  }

  // ----- cases -----

  /** A case keeps its story; once resolved or breached it stays so. */
  predicate Onward(a: EscalationCase, b: EscalationCase) {
    SameStory(a, b) && (a.status != CaseOpen ==> b.status == a.status)
  }

  predicate CasesGrown(a: seq<EscalationCase>, b: seq<EscalationCase>) {
    |a| <= |b| && forall c | 0 <= c < |a| :: Onward(a[c], b[c])
  }

  lemma ClearedCases(f: Fleet, driver: nat, clock: Clock)
    requires driver < |f.drivers|
    ensures CasesGrown(f.cases, Cleared(f, driver, clock).cases) && Cleared(f, driver, clock).log == f.log
    ensures forall c | 0 <= c < |f.cases| :: Cleared(f, driver, clock).cases[c].status == Breached ==> f.cases[c].status == Breached
  {
  }

  /** No case but one past its deadline under a sweep turns BREACHED. */
  predicate NoBreach(a: seq<EscalationCase>, b: seq<EscalationCase>) {
    |a| <= |b| && forall c | 0 <= c < |a| :: b[c].status == Breached ==> a[c].status == Breached
  }

  predicate Steady(a: Db, b: Db) {
    LogGrown(a, b) && CasesGrown(a.fleet.cases, b.fleet.cases) && NoBreach(a.fleet.cases, b.fleet.cases)
  }

  lemma SameFleetSteady(a: Db, b: Db)
    requires b.fleet.log == a.fleet.log && b.fleet.cases == a.fleet.cases
    ensures Steady(a, b)
  {
  }

  lemma FailedSteady(sha: Digest, db: Db, company: nat, driver: nat, day: Day, uuid: nat, clock: Clock)
    requires driver < |db.fleet.drivers| && !Deleted(db.accounts.companies, company)
    ensures Steady(db, FailedCheck(sha, db, company, driver, day, uuid, clock).db)
  {
    hide Recorded, AddressesOf, Collides, E6.OpenCase, Append, E6.Messages, EscalationDeadline, Deleted, LogGrown;
    var b := FailedCheck(sha, db, company, driver, day, uuid, clock).db;
    LogSame(db, b);
    if b != db {
      RecordedGrows(sha, db, b, SightCheck(company, driver, FAILED, day), uuid, clock);
    }
  }

  lemma LogSame(a: Db, b: Db)
    ensures b.fleet.log == a.fleet.log ==> LogGrown(a, b)
  {
  }

  lemma PassedSteady(sha: Digest, db: Db, company: nat, driver: nat, day: Day, uuid: nat, clock: Clock)
    requires driver < |db.fleet.drivers| && !Deleted(db.accounts.companies, company)
    ensures Steady(db, PassedCheck(sha, db, company, driver, day, uuid, clock).db)
  {
    hide Recorded, Cleared, Deleted, LogGrown, RolledForward, Ledger.OpenDeadline;
    var b := PassedCheck(sha, db, company, driver, day, uuid, clock).db;
    LogSame(db, b);
    var log := Recorded(sha, db.fleet.log, SightCheck(company, driver, PASSED, day), uuid, clock);
    var open := Ledger.OpenDeadline(db.fleet.deadlines, company, OfDriver(driver), FSK);
    ClearedCases(db.fleet.(log := log), driver, clock);
    if open.Some? {
      ClearedCases(db.fleet.(deadlines := RolledForward(db.fleet, open.value, PASSED, day), log := log), driver, clock);
    }
    if b.fleet.log == log {
      RecordedGrows(sha, db, b, SightCheck(company, driver, PASSED, day), uuid, clock);
    }
  }

  lemma VehicleSteady(sha: Digest, db: Db, caller: User, vehicle: Subject, kind: string, result: string,
                      performedOn: Option<Day>, uuid: nat, clock: Clock)
    requires !vehicle.OfDriver? && !Deleted(db.accounts.companies, caller.company)
    ensures Steady(db, VehicleCheck(sha, db, caller, vehicle, kind, result, performedOn, uuid, clock).db)
  {
    hide Recorded, Deleted, LogGrown, RolledForward, Ledger.OpenDeadline;
    var b := VehicleCheck(sha, db, caller, vehicle, kind, result, performedOn, uuid, clock).db;
    LogSame(db, b);
    var k := if kind == "HU" then HU else UVV;
    var open := Ledger.OpenDeadline(db.fleet.deadlines, caller.company, vehicle, k);
    var fields := Fields(caller.company, vehicle, if open.Some? then KindText(k) else kind, result,
                         OrToday(performedOn, clock), Some(BY_WORKSHOP));
    if b.fleet.log == Recorded(sha, db.fleet.log, fields, uuid, clock) {
      RecordedGrows(sha, db, b, fields, uuid, clock);
    }
  }

  lemma RequestSteady(sha: Digest, db: Db, caller: User, event: Event, clock: Clock)
    requires !Deleted(db.accounts.companies, caller.company)
    requires event.CheckVehicle? ==> !event.vehicle.OfDriver?
    ensures Steady(db, Requested(sha, db, caller, event, clock))
  {
    hide Steady, FailedCheck, PassedCheck, VehicleCheck, AfterInvite, AfterDeletionRequest, Anonymized, Deleted,
         MonthRules.FirstFskDue, MonthRules.FirstHuDue, MonthRules.FirstUvvDue;
    var b := Requested(sha, db, caller, event, clock);
    SameFleetSteady(db, db);
    match event {
      case CheckDriver(_, driver, result, performedOn, uuid) =>
        if Visible(db.fleet, caller.company, driver) {
          var day := OrToday(performedOn, clock);
          FailedSteady(sha, db, caller.company, driver, day, uuid, clock);
          PassedSteady(sha, db, caller.company, driver, day, uuid, clock);
        }
      case CheckVehicle(_, vehicle, kind, result, performedOn, uuid) =>
        VehicleSteady(sha, db, caller, vehicle, kind, result, performedOn, uuid, clock);
      case _ => SameFleetSteady(db, b);
    }
  }

  lemma {:induction false} TombstonesSteady(db: Db, now: Instant, n: nat)
    requires n <= |db.accounts.companies|
    ensures AfterTombstones(db, now, n).fleet.log == db.fleet.log
    ensures AfterTombstones(db, now, n).fleet.cases == db.fleet.cases
  {
    hide DueForDeletion, ErasedAccounts, TombstonedDrivers, Without;
    if n > 0 {
      TombstonesSteady(db, now, n - 1);
    }
  }

  /** Every request and every job but the escalation sweep. */
  lemma TransactedSteady(sha: Digest, w: World, s: Step)
    requires AccountInv(w.db.accounts) && Enabled(w, s) && !s.event.SweepCases?
    ensures Steady(w.db, Transacted(sha, w, s.event, s.clock))
  {
    hide Steady, Requested, SignedUp, AfterRead, AfterLogin, EnqueueAll, ReminderRows, Purged, Pruned,
         AfterTombstones, AccountInv, RecordsInOrder, Removed, LockedRows, BerlinDay, IsBatch, Caller;
    var b := Transacted(sha, w, s.event, s.clock);
    SameFleetSteady(w.db, w.db);
    if IsRequest(s.event) {
      if Admitted(w.db.accounts, s.event.sid, s.clock.now) {
        DatabaseSteps.CallerOk(w.db.accounts, s.event.sid, s.clock.now);
        RequestSteady(sha, w.db, Caller(w.db.accounts, s.event.sid), s.event, s.clock);
      }
    } else {
      if s.event.Tombstone? {
        TombstonesSteady(w.db, s.clock.now, |w.db.accounts.companies|);
      }
      SameFleetSteady(w.db, b);
    }
  }

  // ----- companies -----

  predicate ErasureStays(a: seq<Company>, b: seq<Company>) {
    |a| <= |b| && forall c | 0 <= c < |a| :: a[c].deletedAt.Some? ==> b[c].deletedAt == a[c].deletedAt
  }

  lemma RequestErasure(sha: Digest, db: Db, caller: User, event: Event, clock: Clock)
    ensures ErasureStays(db.accounts.companies, Requested(sha, db, caller, event, clock).accounts.companies)
  {
    hide FailedCheck, PassedCheck, VehicleCheck, CreatedDriver, CreatedVehicle, WallAdd, Anonymized;
    match event {
      case AddDriver(_, first, last, start) => DriverTables(db, caller, first, last, start, clock);
      case AddVehicle(_, plate, interval, registered) => VehicleTables(db, caller, plate, interval, registered, clock);
      case CheckDriver(_, driver, result, performedOn, uuid) =>
        if Visible(db.fleet, caller.company, driver) {
          RelaySteps.FailedTables(sha, db, caller.company, driver, OrToday(performedOn, clock), uuid, clock);
          PassedTables(sha, db, caller.company, driver, OrToday(performedOn, clock), uuid, clock);
        }
      case CheckVehicle(_, vehicle, kind, result, performedOn, uuid) =>
        VehicleCheckTables(sha, db, caller, vehicle, kind, result, performedOn, uuid, clock);
      case _ =>
    }
  }

  /** The purge visits no company twice: an erasure keeps its first date. */
  lemma {:induction false} TombstonesErasure(db: Db, now: Instant, n: nat)
    requires n <= |db.accounts.companies|
    ensures ErasureStays(db.accounts.companies, AfterTombstones(db, now, n).accounts.companies)
  {
    hide WallAdd, ErasedUsers, RevokedSessions, ClosedInvitations, TombstonedDrivers, Without;
    if n > 0 {
      TombstonesErasure(db, now, n - 1);
    }
  }

  lemma TransactedErasure(sha: Digest, w: World, s: Step)
    requires Enabled(w, s)
    ensures ErasureStays(w.db.accounts.companies, Transacted(sha, w, s.event, s.clock).accounts.companies)
  {
    hide Requested, EmailTaken, WallAdd, AfterEscalationSweep, Purged, Pruned, AfterReminderSweep, AfterTombstones,
         IsBatch, RecordsInOrder, Removed, LockedRows, BerlinDay, MayInsert;
    if IsRequest(s.event) && Admitted(w.db.accounts, s.event.sid, s.clock.now) {
      RequestErasure(sha, w.db, Caller(w.db.accounts, s.event.sid), s.event, s.clock);
    }
    RelaySteps.SweepAccounts(w.db, s.clock);
    if s.event.Tombstone? {
      TombstonesErasure(w.db, s.clock.now, |w.db.accounts.companies|);
    }
  }

  // ----- rows -----

  /** No row is forgotten or rewritten, and a sent or dead-lettered row never changes again. */
  predicate RowOnward(r: OutboxRow, s: OutboxRow) {
    SameLetter(r, s) && (!r.Pending() ==> s == r)
  }

  predicate RowsOnward(q: Queue, p: Queue) {
    forall id | id in Rows(q) :: id in Rows(p) && RowOnward(Rows(q)[id], Rows(p)[id])
  }

  lemma QuietOnward(q: Queue, p: Queue, locked: set<nat>)
    requires QuietRows(q, p, locked)
    ensures RowsOnward(q, p)
  {
  }

  lemma CommitOnward(w: World, cycle: nat)
    requires RelayInv(w) && cycle in w.cycles && SerialsOk(w.db.queue)
    ensures RowsOnward(w.db.queue, Commit(w.db, w.cycles[cycle]).queue)
  {
    hide RelayInv, Undeliverable, Dead, Distinct;
    var c, q := w.cycles[cycle], w.db.queue;
    CycleSteps.StagedKeys(w, cycle);
    CycleSteps.CommittedRows(q, c.staged);
    SystemRuns.CycleAt(w, cycle);
    forall id | id in c.staged
      ensures RowOnward(Rows(q)[id], c.staged[id])
    {
      CycleSteps.OnlyOwner(w, cycle, id);
      assert StagedOk(q.outbox[id], c.staged[id], w.clock.now);
    }
  }

  // ----- all together -----

  ghost predicate Grows(a: Db, b: Db) {
    && a.fleet.log <= b.fleet.log
    && CasesGrown(a.fleet.cases, b.fleet.cases)
    && ErasureStays(a.accounts.companies, b.accounts.companies)
    && RowsOnward(a.queue, b.queue)
  }

  lemma SteadyPrefix(a: Db, b: Db)
    requires LogGrown(a, b)
    ensures a.fleet.log <= b.fleet.log
  {
  }

  lemma SweptCasesGrown(cases: seq<EscalationCase>, clock: Clock)
    ensures CasesGrown(cases, SweptCases(cases, clock))
  {
  }

  /** Every step only adds to the past. */
  lemma StepGrows(sha: Digest, cap: nat, w: World, s: Step)
    requires Inv(sha, w) && Enabled(w, s)
    ensures Grows(w.db, After(sha, cap, w, s).db)
    ensures LogGrown(w.db, After(sha, cap, w, s).db)
  {
    hide Inv, DbInv, RelayInv, DeadLettersOk, LoginsOk, Transacted, LoginsAfter, RecordsInOrder, Removed, LockedRows,
         BerlinDay, IsBatch, Bumped, AfterTombstones, Pruned, QueueInv, AccountInv, RowsOnward, CasesGrown,
         ErasureStays, LogGrown, Quiet, NoBreach, AfterSend, Answer, AfterSkip, Gated, EnqueueAll, SweepRows,
         SweptCases;
    SystemRuns.InvParts(sha, w);
    NothingNew(w.db);
    match s.event {
      case CommitCycle(cycle) =>
        CommitOnward(w, cycle);
        NoLog(w.db, Commit(w.db, w.cycles[cycle]));
      case Claim(_, _) =>
      case AbortCycle(_) =>
      case SendRow(cycle, asked, provider) =>
        NoLog(w.db, After(sha, cap, w, s).db);
      case _ => TransactGrows(sha, w, s);
    }
  }

  lemma NothingNew(db: Db)
    ensures CasesGrown(db.fleet.cases, db.fleet.cases) && ErasureStays(db.accounts.companies, db.accounts.companies)
    ensures RowsOnward(db.queue, db.queue) && LogGrown(db, db)
  {
  }

  lemma NoLog(a: Db, b: Db)
    requires b.fleet == a.fleet
    ensures LogGrown(a, b)
  {
  }

  lemma TransactGrows(sha: Digest, w: World, s: Step)
    requires Inv(sha, w) && Enabled(w, s)
    ensures Grows(w.db, Transacted(sha, w, s.event, s.clock)) && LogGrown(w.db, Transacted(sha, w, s.event, s.clock))
  {
    hide Inv, DbInv, Transacted, Enabled, QueueInv, AccountInv, RowsOnward, CasesGrown, ErasureStays, LogGrown,
         QuietRows, QuietAlerts, NoBreach, LockedRows, SerialsOk;
    SystemRuns.InvParts(sha, w);
    var b := Transacted(sha, w, s.event, s.clock);
    TransactedQuiet(sha, w, w.clock.today, s);
    QuietOnward(w.db.queue, b.queue, LockedRows(w.cycles));
    TransactedErasure(sha, w, s);
    if s.event.SweepCases? {
      SweepTables(sha, w, s);
      SweptCasesGrown(w.db.fleet.cases, s.clock);
      LogSame(w.db, b);
    } else {
      TransactedSteady(sha, w, s);
    }
    SteadyPrefix(w.db, b);
  }

  lemma SweepTables(sha: Digest, w: World, s: Step)
    requires s.event.SweepCases?
    ensures var b := Transacted(sha, w, s.event, s.clock);
      b.fleet == w.db.fleet.(cases := SweptCases(w.db.fleet.cases, s.clock)) && b.accounts == w.db.accounts && b.alerts == w.db.alerts
  {
    hide EnqueueAll, SweepRows;
  }

  /** A case turns BREACHED in exactly one way: a sweep after its deadline that finds it open, and the
      first such sweep breaches it. */
  lemma BreachExactly(sha: Digest, cap: nat, w: World, s: Step, c: nat)
    requires Inv(sha, w) && Enabled(w, s) && c < |w.db.fleet.cases| && w.db.fleet.cases[c].status == CaseOpen
    ensures c < |After(sha, cap, w, s).db.fleet.cases|
    ensures After(sha, cap, w, s).db.fleet.cases[c].status == Breached <==>
      s.event.SweepCases? && s.clock.now > w.db.fleet.cases[c].deadlineAt
  {
    hide Inv, DbInv, RelayInv, DeadLettersOk, LoginsOk, Transacted, LoginsAfter, RecordsInOrder, Removed, LockedRows,
         BerlinDay, IsBatch, Bumped, AfterTombstones, Pruned, QueueInv, AccountInv, LogGrown, CasesGrown, AfterSend,
         Answer, AfterSkip, Gated;
    SystemRuns.InvParts(sha, w);
    match s.event {
      case CommitCycle(_) =>
      case Claim(_, _) =>
      case AbortCycle(_) =>
      case SendRow(_, _, _) =>
      case SweepCases => SweepTables(sha, w, s);
      case _ => TransactedSteady(sha, w, s);
    }
  }
}
