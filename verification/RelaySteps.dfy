/** Claim, send, commit and abort keep the invariant of the running system, and so do requests and jobs
    that happen in between. */
module RelaySteps {
  import opened Calendar
  import opened BerlinTime
  import opened Records
  import opened AccountServices
  import opened Evidence
  import opened QueueInvariant
  import opened Dsgvo
  import Sweeps
  import opened Relay
  import opened Routes
  import DatabaseInvariant
  import opened FleetSystem
  import opened QuietSteps
  import opened SystemInvariant

  // ----- requests and jobs -----

  lemma LockedHas(cycles: map<nat, Cycle>, c: nat, i: nat)
    requires c in cycles && i < |cycles[c].batch|
    ensures cycles[c].batch[i] in LockedRows(cycles)
  {
  }

  /** A cycle is untouched by whatever leaves its rows alone. */
  lemma CycleFrame(outbox: map<nat, OutboxRow>, after: map<nat, OutboxRow>, c: Cycle, now: Instant, later: Instant)
    requires CycleOk(outbox, c, now) && now <= later
    requires forall i :: 0 <= i < |c.batch| ==> c.batch[i] in outbox && c.batch[i] in after && after[c.batch[i]] == outbox[c.batch[i]]
    ensures CycleOk(after, c, later)
  {
  }

  lemma QuietCycles(a: World, b: World)
    requires RelayInv(a) && a.clock.now <= b.clock.now && b.cycles == a.cycles
    requires QuietRows(a.db.queue, b.db.queue, LockedRows(a.cycles))
    ensures forall c | c in b.cycles :: CycleOk(b.db.queue.outbox, b.cycles[c], b.clock.now)
  {
    hide CycleOk, SendsOk, Disjoint, LockedRows, DatabaseInvariant.FreshRow, RowPast;
    forall c | c in b.cycles
      ensures CycleOk(b.db.queue.outbox, b.cycles[c], b.clock.now)
    {
      var k := b.cycles[c];
      forall i | 0 <= i < |k.batch|
        ensures k.batch[i] in a.db.queue.outbox && k.batch[i] in b.db.queue.outbox
        ensures b.db.queue.outbox[k.batch[i]] == a.db.queue.outbox[k.batch[i]]
      {
        LockedHas(a.cycles, c, i);
        CycleHolds(a.db.queue.outbox, k, a.clock.now, i);
      }
      CycleFrame(a.db.queue.outbox, b.db.queue.outbox, k, a.clock.now, b.clock.now);
    }
  }

  lemma CycleHolds(outbox: map<nat, OutboxRow>, c: Cycle, now: Instant, i: nat)
    requires CycleOk(outbox, c, now) && i < |c.batch|
    ensures HoldsRow(outbox, c.batch[i], now)
  {
  }

  lemma QuietPast(a: World, b: World)
    requires forall id | id in Rows(a.db.queue) :: RowPast(Rows(a.db.queue)[id], a.clock.now)
    requires a.clock.now <= b.clock.now && QuietRows(a.db.queue, b.db.queue, LockedRows(a.cycles))
    ensures forall id | id in Rows(b.db.queue) :: RowPast(Rows(b.db.queue)[id], b.clock.now)
  {
  }

  lemma QuietSends(a: World, b: World, id: nat)
    requires SendsOk(a, id) && b.cycles == a.cycles && b.accepted == a.accepted && b.aborts == a.aborts
    requires QuietRows(a.db.queue, b.db.queue, LockedRows(a.cycles))
    ensures SendsOk(b, id)
  {
  }

  lemma QuietRelay(a: World, b: World)
    requires RelayInv(a) && a.clock.now <= b.clock.now && b.cycles == a.cycles && b.accepted == a.accepted
    requires b.aborts == a.aborts
    requires QuietRows(a.db.queue, b.db.queue, LockedRows(a.cycles))
    ensures RelayInv(b)
  {
    hide CycleOk, SendsOk, Disjoint, QuietRows, RowPast, Rows;
    QuietCycles(a, b);
    QuietPast(a, b);
    forall id
      ensures SendsOk(b, id)
    {
      assert SendsOk(a, id);
      QuietSends(a, b, id);
    }
  }

  lemma QuietDeadLetters(a: Db, b: Db, locked: set<nat>)
    requires DeadLettersOk(a) && Quiet(a, b, locked)
    ensures DeadLettersOk(b)
  {
    hide Rows, Undeliverable;
    forall company
      ensures Undeliverable(b.alerts, company) == |Dead(Rows(b.queue), company)|
    {
      assert Dead(Rows(b.queue), company) == Dead(Rows(a.queue), company);
    }
  }

  /** Users are never removed and never change company. */
  predicate UsersStay(a: seq<User>, b: seq<User>) {
    |a| <= |b| && forall u | 0 <= u < |a| :: b[u].company == a[u].company
  }

  lemma {:induction false} TombstonesUsers(db: Db, now: Instant, n: nat)
    requires n <= |db.accounts.companies|
    ensures UsersStay(db.accounts.users, AfterTombstones(db, now, n).accounts.users)
  {
    hide DueForDeletion, TombstonedDrivers, Without, RevokedSessions, ClosedInvitations;
    if n > 0 {
      TombstonesUsers(db, now, n - 1);
    }
  }

  lemma TransactedUsers(sha: Digest, w: World, s: Step)
    requires Enabled(w, s)
    ensures UsersStay(w.db.accounts.users, Transacted(sha, w, s.event, s.clock).accounts.users)
  {
    hide DriverCheck, VehicleCheck, CreatedDriver, CreatedVehicle, EmailTaken, WallAdd, Sweeps.AfterEscalationSweep,
         Purged, Pruned, Sweeps.AfterReminderSweep, AfterTombstones, Anonymized, IsBatch, RecordsInOrder, Removed,
         LockedRows, BerlinDay, MayInsert;
    if IsRequest(s.event) && Admitted(w.db.accounts, s.event.sid, s.clock.now) {
      RequestUsers(sha, w.db, Caller(w.db.accounts, s.event.sid), s.event, s.clock);
    }
    hide Requested;
    SweepAccounts(w.db, s.clock);
    if s.event.Tombstone? {
      TombstonesUsers(w.db, s.clock.now, |w.db.accounts.companies|);
    }
  }

  lemma SweepAccounts(db: Db, clock: Clock)
    ensures Sweeps.AfterEscalationSweep(db, clock).accounts == db.accounts
    ensures Sweeps.AfterReminderSweep(db, clock).accounts == db.accounts
  {
  }

  lemma RequestUsers(sha: Digest, db: Db, caller: User, event: Event, clock: Clock)
    ensures Requested(sha, db, caller, event, clock).accounts.users == db.accounts.users
  {
    hide FailedCheck, PassedCheck, VehicleCheck, CreatedDriver, CreatedVehicle, WallAdd, Anonymized;
    match event {
      case AddDriver(_, first, last, start) => DriverTables(db, caller, first, last, start, clock);
      case AddVehicle(_, plate, interval, registered) => VehicleTables(db, caller, plate, interval, registered, clock);
      case CheckDriver(_, driver, result, performedOn, uuid) =>
        if Visible(db.fleet, caller.company, driver) {
          FailedTables(sha, db, caller.company, driver, OrToday(performedOn, clock), uuid, clock);
          PassedTables(sha, db, caller.company, driver, OrToday(performedOn, clock), uuid, clock);
        }
      case CheckVehicle(_, vehicle, kind, result, performedOn, uuid) =>
        VehicleCheckTables(sha, db, caller, vehicle, kind, result, performedOn, uuid, clock);
      case _ =>
    }
  }

  lemma FailedTables(sha: Digest, db: Db, company: nat, driver: nat, day: Day, uuid: nat, clock: Clock)
    requires driver < |db.fleet.drivers|
    ensures FailedCheck(sha, db, company, driver, day, uuid, clock).db.accounts == db.accounts
  {
  }

  lemma LoginsStep(sha: Digest, w: World, s: Step)
    requires LoginsOk(w) && AccountInv(w.db.accounts) && Enabled(w, s)
    requires !s.event.Claim? && !s.event.SendRow? && !s.event.CommitCycle? && !s.event.AbortCycle?
    ensures forall l | 0 <= l < |LoginsAfter(w, s.event, s.clock)| ::
      LoginOk(Transacted(sha, w, s.event, s.clock).accounts.users, LoginsAfter(w, s.event, s.clock)[l])
  {
    hide Transacted, EmailTaken, AccountInv, RecordsInOrder, Removed, LockedRows, BerlinDay, Pruned, AfterTombstones;
    TransactedUsers(sha, w, s);
    var users := Transacted(sha, w, s.event, s.clock).accounts.users;
    if s.event.Accept? && s.event.read < |w.viewed| && MayInsert(w.db.accounts, w.viewed[s.event.read]) {
      AcceptedUser(sha, w, s);
    }
    forall l | 0 <= l < |LoginsAfter(w, s.event, s.clock)|
      ensures LoginOk(users, LoginsAfter(w, s.event, s.clock)[l])
    {
      if l < |w.logins| {
        assert LoginOk(w.db.accounts.users, w.logins[l]);
      }
    }
  }

  lemma AcceptedUser(sha: Digest, w: World, s: Step)
    requires s.event.Accept? && s.event.read < |w.viewed| && MayInsert(w.db.accounts, w.viewed[s.event.read])
    ensures LoginOk(Transacted(sha, w, s.event, s.clock).accounts.users,
                    Login(|w.db.accounts.users|, w.db.accounts.invitations[w.viewed[s.event.read]].company))
  {
  }
}
