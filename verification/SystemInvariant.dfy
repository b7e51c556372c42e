/** The invariant of the running system, and that every step keeps it. */
module SystemInvariant {
  import Wrappers
  import opened Calendar
  import opened BerlinTime
  import opened Records
  import opened AccountServices
  import opened Evidence
  import FleetInvariant
  import opened QueueInvariant
  import FleetSteps
  import MonthRules
  import Dsgvo
  import Sweeps
  import opened Relay
  import RelayProgress
  import opened Routes
  import RouteSteps
  import opened DatabaseInvariant
  import opened DatabaseSteps
  import opened OutboxSteps
  import opened FleetSystem
  import QuietSteps

  // ----- a relay cycle in flight -----

  /** No send of the row has been answered in the future. */
  predicate RowPast(r: OutboxRow, now: Instant) {
    && (r.attempts > 0 && |r.failedAt| == r.attempts ==> r.failedAt[r.attempts - 1] <= now)
    && (r.sentAt.Some? ==> r.sentAt.value <= now)
  }

  /** What a cycle may write over a claimed row. */
  predicate StagedOk(r: OutboxRow, s: OutboxRow, now: Instant) {
    SameLetter(r, s) && DeliveryOk(s) && RowOk(s) && RowPast(s, now) && RelayProgress.WorkedOff(r, s)
  }

  predicate HoldsRow(outbox: map<nat, OutboxRow>, id: nat, now: Instant) {
    id in outbox && IsPending(outbox[id]) && outbox[id].nextAttemptAt <= now
  }

  /** A cycle holds pending rows, each once; it has staged the first `done` of them. */
  ghost predicate CycleOk(outbox: map<nat, OutboxRow>, c: Cycle, now: Instant) {
    && c.done <= |c.batch| <= BATCH_SIZE && Wrappers.Distinct(c.batch)
    && (forall i | 0 <= i < |c.batch| :: HoldsRow(outbox, c.batch[i], now))
    && (forall id :: id in c.staged <==> id in c.batch[..c.done])
    && (forall id | id in c.staged :: id in outbox && StagedOk(outbox[id], c.staged[id], now))
    && (forall company :: QuietSteps.Undeliverable(c.raised, company) == |Dead(c.staged, company)|)
  }

  /** The dead-lettered rows of a company. */
  function Dead(rows: map<nat, OutboxRow>, company: nat): set<nat> {
    set id | id in rows && rows[id].company == company && rows[id].deadLetteredAt.Some?
  }

  predicate Apart(c: Cycle, d: Cycle) {
    forall i, j | 0 <= i < |c.batch| && 0 <= j < |d.batch| :: c.batch[i] != d.batch[j]
  }

  /** Claimed sets are pairwise disjoint. */
  predicate Disjoint(cycles: map<nat, Cycle>) {
    forall c, d | c in cycles && d in cycles :: c != d ==> Apart(cycles[c], cycles[d])
  }

  // ----- sends -----

  predicate IsMarkedSent(rows: map<nat, OutboxRow>, id: nat) {
    id in rows && rows[id].sentAt.Some?
  }

  predicate InFlight(cycles: map<nat, Cycle>, id: nat) {
    exists c | c in cycles :: IsMarkedSent(cycles[c].staged, id)
  }

  /** A row marked sent had a normal return of `send`; there are at most as many normal returns as
      aborted cycles that had claimed the row, plus one if it is sent or about to be. */
  predicate SendsOk(w: World, id: nat) {
    var marked := IsMarkedSent(Rows(w.db.queue), id) || InFlight(w.cycles, id);
    && (marked ==> Count(w.accepted, id) >= 1)
    && Count(w.accepted, id) <= Count(w.aborts, id) + if marked then 1 else 0
  }

  // ----- the whole -----

  predicate LoginOk(users: seq<User>, l: Login) {
    l.user < |users| && users[l.user].company == l.company
  }

  ghost predicate RelayInv(w: World) {
    && (forall c | c in w.cycles :: CycleOk(w.db.queue.outbox, w.cycles[c], w.clock.now))
    && Disjoint(w.cycles)
    && (forall id | id in Rows(w.db.queue) :: RowPast(Rows(w.db.queue)[id], w.clock.now))
    && (forall id :: SendsOk(w, id))
  }

  /** As many dead-letter alerts as dead-lettered rows, company by company. */
  ghost predicate DeadLettersOk(db: Db) {
    forall company :: QuietSteps.Undeliverable(db.alerts, company) == |Dead(Rows(db.queue), company)|
  }

  ghost predicate LoginsOk(w: World) {
    forall l | 0 <= l < |w.logins| :: LoginOk(w.db.accounts.users, w.logins[l])
  }

  ghost predicate Inv(sha: Digest, w: World) {
    w.clock.Valid() && DbInv(sha, w.db, w.clock.today) && RelayInv(w) && DeadLettersOk(w.db) && LoginsOk(w)
  }

  // ----- requests and jobs keep the database invariant -----

  lemma RequestKeepsDb(sha: Digest, db: Db, caller: User, event: Event, today: Day, clock: Clock)
    requires DbInv(sha, db, today) && today <= clock.today && clock.Valid()
    requires caller.company < |db.accounts.companies| && db.accounts.companies[caller.company].deletedAt.None?
    requires event.CheckDriver? ==> RecordsInOrder(db.fleet.log, caller.company, OfDriver(event.driver), event.uuid, clock)
    requires event.CheckVehicle? ==> RecordsInOrder(db.fleet.log, caller.company, event.vehicle, event.uuid, clock)
    requires event.CheckVehicle? ==> RouteSteps.NamesVehicle(db.fleet, event.vehicle)
    ensures DbInv(sha, Requested(sha, db, caller, event, clock), clock.today)
  {
    hide DbInv, FailedCheck, PassedCheck, VehicleCheck, FleetSteps.WithDriver, FleetSteps.WithVehicle, AfterInvite,
         AfterDeletionRequest, Dsgvo.Anonymized, RecordsInOrder, MonthRules.FirstFskDue, MonthRules.FirstHuDue,
         MonthRules.FirstUvvDue;
    Wait(sha, db, today, clock.today);
    match event {
      case Invite(_, email, role) => InviteStep(sha, db, caller.company, email, role, today, clock);
      case RequestDeletion(_) => DeletionRequestStep(sha, db, caller.company, today, clock);
      case AddDriver(_, first, last, start) =>
        AddDriverStep(sha, db, NewDriver(caller.company, first, last), MonthRules.FirstFskDue(OrToday(start, clock)), today, clock);
      case AddVehicle(_, _, interval, registered) =>
        var anchor := OrToday(registered, clock);
        var v := Vehicle(caller.company, if interval.Some? then interval.value else DEFAULT_HU_INTERVAL);
        AddVehicleStep(sha, db, v, MonthRules.FirstHuDue(anchor), MonthRules.FirstUvvDue(anchor), today, clock);
      case CheckDriver(_, driver, result, performedOn, uuid) =>
        if Visible(db.fleet, caller.company, driver) {
          FailedStep(sha, db, caller.company, driver, OrToday(performedOn, clock), uuid, today, clock);
          PassedStep(sha, db, caller.company, driver, OrToday(performedOn, clock), uuid, today, clock);
        }
      case CheckVehicle(_, vehicle, kind, result, performedOn, uuid) =>
        VehicleStep(sha, db, caller, vehicle, kind, result, performedOn, uuid, today, clock);
      case EraseDriver(_, driver) => EraseDriverStep(sha, db, caller.company, driver, today, clock);
      case _ =>
    }
  }

  lemma EraseDriverStep(sha: Digest, db: Db, company: nat, driver: nat, today: Day, clock: Clock)
    requires DbInv(sha, db, today) && today <= clock.today
    ensures Visible(db.fleet, company, driver) ==>
      DbInv(sha, db.(fleet := db.fleet.(drivers := db.fleet.drivers[driver := Dsgvo.Anonymized(db.fleet.drivers[driver], clock.now)])), clock.today)
  {
    hide DbInv;
    if Visible(db.fleet, company, driver) {
      var drivers := db.fleet.drivers[driver := Dsgvo.Anonymized(db.fleet.drivers[driver], clock.now)];
      assert FleetInvariant.SameStanding(db.fleet.drivers, drivers) && NamesKept(db.fleet.drivers, drivers);
      ScrubStep(sha, db, drivers, today, clock);
    }
  }

  lemma TransactedKeepsDb(sha: Digest, w: World, s: Step)
    requires w.clock.Valid() && DbInv(sha, w.db, w.clock.today) && LoginsOk(w) && Enabled(w, s)
    ensures DbInv(sha, Transacted(sha, w, s.event, s.clock), s.clock.today)
  {
    hide DbInv, Requested, RecordsInOrder, SignedUp, AfterRead, AfterLogin, Sweeps.AfterEscalationSweep,
         Sweeps.AfterReminderSweep, Dsgvo.Purged, Dsgvo.Pruned, Dsgvo.AfterTombstones, Removed, LockedRows, BerlinDay,
         IsBatch, AccountInv, Caller;
    var today, clock := w.clock.today, s.clock;
    BerlinDayMonotone(w.clock.now, clock.now);
    Wait(sha, w.db, today, clock.today);
    if IsRequest(s.event) {
      if Admitted(w.db.accounts, s.event.sid, clock.now) {
        DbParts(sha, w.db, today);
        CallerOk(w.db.accounts, s.event.sid, clock.now);
        RequestKeepsDb(sha, w.db, Caller(w.db.accounts, s.event.sid), s.event, today, clock);
      }
    } else {
      match s.event {
        case Signup(name, email, phone) => SignupStep(sha, w.db, name, email, phone, today, clock);
        case Accept(read) => AcceptStep(sha, w.db, w.viewed[read], today, clock);
        case OpenSession(login, rehash) =>
          assert LoginOk(w.db.accounts.users, w.logins[login]);
          SessionStep(sha, w.db, w.logins[login].user, w.logins[login].company, rehash, today, clock);
        case SweepCases => SweepStep(sha, w.db, today, clock);
        case Remind => RemindStep(sha, w.db, today, clock);
        case PurgeDrivers => PurgeStep(sha, w.db, today, clock);
        case Prune => PruneStep(sha, w.db, today, clock);
        case Tombstone => TombstonesStep(sha, w.db, |w.db.accounts.companies|, today, clock);
        case _ =>
      }
    }
  }
}
