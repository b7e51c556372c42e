/** Requests and jobs never disturb a relay cycle in flight: they leave claimed rows alone, change no
    row already committed, and raise no alert about undeliverable messages. */
module QuietSteps {
  import opened Wrappers
  import opened Calendar
  import opened BerlinTime
  import opened Records
  import opened Outbox
  import opened AccountServices
  import opened Dsgvo
  import opened Sweeps
  import opened Evidence
  import Checks
  import opened QueueInvariant
  import opened Routes
  import opened DatabaseInvariant
  import OutboxSteps
  import opened FleetSystem
  import E6

  predicate IsUndeliverable(a: Alert, company: nat) {
    a.code == NotificationUndeliverable && a.severity == CRITICAL && a.company == company
  }

  /** The dead-letter alerts of one company. */
  function Undeliverable(alerts: seq<Alert>, company: nat): nat {
    if alerts == [] then 0
    else
      Undeliverable(alerts[..|alerts| - 1], company) + if IsUndeliverable(alerts[|alerts| - 1], company) then 1 else 0
  }

  lemma {:induction false} UndeliverableConcat(a: seq<Alert>, b: seq<Alert>, company: nat)
    ensures Undeliverable(a + b, company) == Undeliverable(a, company) + Undeliverable(b, company)
  {
    if b == [] {
      assert a + b == a;
    } else {
      assert (a + b)[..|a + b| - 1] == a + b[..|b| - 1];
      UndeliverableConcat(a, b[..|b| - 1], company);
    }
  }

  /** Rows outside a set may leave the table; no row changes, new rows are fresh. */
  predicate QuietRows(q: Queue, p: Queue, locked: set<nat>) {
    && (forall id | id in locked && id in q.outbox :: id in p.outbox && p.outbox[id] == q.outbox[id])
    && (forall id | id in Rows(q) :: id in Rows(p) && Rows(p)[id] == Rows(q)[id])
    && (forall id | id in Rows(p) :: id in Rows(q) || FreshRow(Rows(p)[id]))
    && q.archive.Keys <= p.archive.Keys
  }

  ghost predicate QuietAlerts(a: seq<Alert>, b: seq<Alert>) {
    forall company :: Undeliverable(b, company) == Undeliverable(a, company)
  }

  ghost predicate Quiet(a: Db, b: Db, locked: set<nat>) {
    QuietRows(a.queue, b.queue, locked) && QuietAlerts(a.alerts, b.alerts)
  }

  lemma SameIsQuiet(a: Db, b: Db, locked: set<nat>)
    requires b.queue.outbox == a.queue.outbox && b.queue.archive == a.queue.archive && b.alerts == a.alerts
    ensures Quiet(a, b, locked)
  {
  }

  lemma {:induction false} EnqueueKeepsArchive(q: Queue, rows: seq<OutboxRow>)
    ensures EnqueueAll(q, rows).archive == q.archive
  {
    if rows != [] {
      EnqueueKeepsArchive(q, rows[..|rows| - 1]);
    }
  }

  lemma EnqueueIsQuiet(q: Queue, rows: seq<OutboxRow>, locked: set<nat>)
    requires SerialsOk(q)
    requires forall i :: 0 <= i < |rows| ==> FreshRow(rows[i])
    ensures QuietRows(q, EnqueueAll(q, rows), locked)
  {
    hide EnqueueAll, FreshRow;
    var p := EnqueueAll(q, rows);
    AllGrown(q, rows);
    EnqueueKeepsArchive(q, rows);
    forall id | id in q.outbox
      ensures id in p.outbox && p.outbox[id] == q.outbox[id]
    {
      assert id in Rows(q) && Rows(p)[id] == Rows(q)[id];
    }
  }

  lemma WithoutIsQuiet(q: Queue, gone: set<nat>, locked: set<nat>)
    requires SerialsOk(q) && Removed(q, Without(q, gone)) !! locked
    ensures QuietRows(q, Without(q, gone), locked)
  {
  }

  lemma FailedIsQuiet(sha: Digest, db: Db, today: Day, company: nat, driver: nat, day: Day, uuid: nat, clock: Clock,
                      locked: set<nat>)
    requires QueueInv(db, today) && driver < |db.fleet.drivers|
    ensures Quiet(db, FailedCheck(sha, db, company, driver, day, uuid, clock).db, locked)
  {
    hide QueueInv, QuietRows, QuietAlerts, Recorded, AddressesOf, Collides, E6.OpenCase, Append, E6.Messages,
         EscalationDeadline;
    var told, t := AddressesOf(db.accounts.users, company), db.queue.triggers;
    var from := TriggerDrawn(WithEvidence(sha, db, SightCheck(company, driver, Checks.FAILED, day), uuid, clock));
    var rows := E6.Messages(company, t, told, clock);
    var alert := E6.LockAlert(company, driver, |from.fleet.cases|, clock);
    SameQueueQuiet(db.queue, locked);
    SameQueueQuiet(from.queue, locked);
    AlertQuiet(db.alerts, alert);
    if !Collides(from.queue.outbox, rows) {
      AppendIsEnqueue(from.queue, rows);
      OutboxSteps.Serials(db, today);
      MessagesQuiet(db.queue, from.queue, company, t, told, clock, locked);
    }
  }

  lemma SameQueueQuiet(q: Queue, locked: set<nat>)
    ensures QuietRows(q, q, locked)
    ensures QuietRows(q.(triggers := q.triggers - if q.triggers > 0 then 1 else 0), q, locked)
    ensures QuietRows(q, q.(triggers := q.triggers + 1), locked)
    ensures forall alerts :: QuietAlerts(alerts, alerts)
  {
  }

  lemma MessagesQuiet(q: Queue, from: Queue, company: nat, t: nat, told: seq<Address>, clock: Clock, locked: set<nat>)
    requires SerialsOk(q) && from == q.(triggers := from.triggers)
    ensures QuietRows(q, EnqueueAll(from, E6.Messages(company, t, told, clock)), locked)
  {
    hide EnqueueAll;
    assert SerialsOk(from);
    EnqueueIsQuiet(from, E6.Messages(company, t, told, clock), locked);
  }

  lemma AlertQuiet(alerts: seq<Alert>, alert: Alert)
    requires alert.code != NotificationUndeliverable
    ensures QuietAlerts(alerts, alerts + [alert])
  {
  }

  // ----- erasure -----

  lemma QuietRowsTrans(p: Queue, q: Queue, r: Queue, locked: set<nat>)
    requires QuietRows(p, q, locked) && QuietRows(q, r, locked)
    ensures QuietRows(p, r, locked)
  {
  }

  /** Later erasures only remove more, so what the whole job leaves was left by each of its steps. */
  lemma {:induction false} TombstonesQuiet(db: Db, now: Instant, n: nat, locked: set<nat>)
    requires SerialsOk(db.queue) && n <= |db.accounts.companies|
    requires Removed(db.queue, AfterTombstones(db, now, n).queue) !! locked
    ensures QuietRows(db.queue, AfterTombstones(db, now, n).queue, locked)
    ensures SerialsOk(AfterTombstones(db, now, n).queue) && AfterTombstones(db, now, n).alerts == db.alerts
    ensures AfterTombstones(db, now, n).queue.outbox.Keys <= db.queue.outbox.Keys
  {
    hide SerialsOk, QuietRows, DueForDeletion, ErasedAccounts, TombstonedDrivers, Without;
    if n == 0 {
      SameQueueQuiet(db.queue, locked);
    } else {
      var mid, end := AfterTombstones(db, now, n - 1), AfterTombstones(db, now, n);
      if end != mid {
        TombstoneShrinks(mid.queue, RowsOf(mid.queue, n - 1));
      }
      assert Removed(db.queue, mid.queue) <= Removed(db.queue, end.queue);
      TombstonesQuiet(db, now, n - 1, locked);
      if end != mid {
        SerialsWithout(mid.queue, RowsOf(mid.queue, n - 1));
        WithoutIsQuiet(mid.queue, RowsOf(mid.queue, n - 1), locked);
        QuietRowsTrans(db.queue, mid.queue, end.queue, locked);
      }
    }
  }

  lemma TombstoneShrinks(q: Queue, gone: set<nat>)
    ensures Without(q, gone).outbox.Keys <= q.outbox.Keys
  {
  }

  lemma SerialsWithout(q: Queue, gone: set<nat>)
    requires SerialsOk(q)
    ensures SerialsOk(Without(q, gone))
  {
  }

  // ----- every request and job -----

  lemma RequestQuiet(sha: Digest, db: Db, today: Day, caller: User, event: Event, clock: Clock, locked: set<nat>)
    requires QueueInv(db, today)
    ensures Quiet(db, Requested(sha, db, caller, event, clock), locked)
  {
    hide QueueInv, Quiet, FailedCheck, PassedCheck, VehicleCheck, AfterInvite, AfterDeletionRequest, Anonymized,
         CreatedDriver, CreatedVehicle;
    var b := Requested(sha, db, caller, event, clock);
    SameIsQuiet(db, db, locked);
    match event {
      case Invite(_, _, _) => SameIsQuiet(db, b, locked);
      case RequestDeletion(_) => SameIsQuiet(db, b, locked);
      case AddDriver(_, first, last, start) =>
        DriverTables(db, caller, first, last, start, clock);
        SameIsQuiet(db, b, locked);
      case AddVehicle(_, plate, interval, registered) =>
        VehicleTables(db, caller, plate, interval, registered, clock);
        SameIsQuiet(db, b, locked);
      case CheckDriver(_, driver, result, performedOn, uuid) =>
        if Visible(db.fleet, caller.company, driver) {
          var day := OrToday(performedOn, clock);
          FailedIsQuiet(sha, db, today, caller.company, driver, day, uuid, clock, locked);
          PassedTables(sha, db, caller.company, driver, day, uuid, clock);
          SameIsQuiet(db, PassedCheck(sha, db, caller.company, driver, day, uuid, clock).db, locked);
        }
      case CheckVehicle(_, vehicle, kind, result, performedOn, uuid) =>
        VehicleCheckTables(sha, db, caller, vehicle, kind, result, performedOn, uuid, clock);
        SameIsQuiet(db, b, locked);
      case EraseDriver(_, _) => SameIsQuiet(db, b, locked);
      case _ =>
    }
  }

  predicate SameTables(a: Db, b: Db) {
    b.queue == a.queue && b.alerts == a.alerts && b.accounts == a.accounts
  }

  lemma DriverTables(db: Db, caller: User, first: string, last: string, start: Option<Day>, clock: Clock)
    ensures SameTables(db, CreatedDriver(db, caller, first, last, start, clock).db)
  {
  }

  lemma VehicleTables(db: Db, caller: User, plate: bool, interval: Option<int>, registered: Option<Day>, clock: Clock)
    ensures SameTables(db, CreatedVehicle(db, caller, plate, interval, registered, clock).db)
  {
  }

  lemma PassedTables(sha: Digest, db: Db, company: nat, driver: nat, day: Day, uuid: nat, clock: Clock)
    requires driver < |db.fleet.drivers|
    ensures SameTables(db, PassedCheck(sha, db, company, driver, day, uuid, clock).db)
  {
  }

  lemma VehicleCheckTables(sha: Digest, db: Db, caller: User, vehicle: Subject, kind: string, result: string,
                           performedOn: Option<Day>, uuid: nat, clock: Clock)
    ensures SameTables(db, VehicleCheck(sha, db, caller, vehicle, kind, result, performedOn, uuid, clock).db)
  {
  }

  /** Every request and job is quiet towards the rows relay cycles hold. */
  lemma TransactedQuiet(sha: Digest, w: World, today: Day, s: Step)
    requires QueueInv(w.db, today) && Enabled(w, s)
    ensures Quiet(w.db, Transacted(sha, w, s.event, s.clock), LockedRows(w.cycles))
  {
    hide QueueInv, Quiet, Requested, Transacted, LockedRows, Removed, Relay.IsBatch, BerlinDay, RecordsInOrder,
         Serialised, AfterTombstones, Pruned;
    QuietTowards(sha, w, today, s, LockedRows(w.cycles));
  }

  /** They are quiet towards any rows the two deleting jobs do not delete. */
  lemma QuietTowards(sha: Digest, w: World, today: Day, s: Step, locked: set<nat>)
    requires QueueInv(w.db, today)
    requires s.event.Prune? ==> Removed(w.db.queue, Pruned(w.db.queue, s.clock)) !! locked
    requires s.event.Tombstone? ==>
      Removed(w.db.queue, AfterTombstones(w.db, s.clock.now, |w.db.accounts.companies|).queue) !! locked
    ensures Quiet(w.db, Transacted(sha, w, s.event, s.clock), locked)
  {
    hide QueueInv, QuietRows, QuietAlerts, Requested, SignedUp, AfterRead, AfterLogin, EnqueueAll, SweepRows,
         ReminderRows, Purged, AfterTombstones, Removed, MonthsAgo;
    var db := w.db;
    OutboxSteps.Serials(db, today);
    SameQueueQuiet(db.queue, locked);
    if IsRequest(s.event) {
      if Admitted(db.accounts, s.event.sid, s.clock.now) {
        RequestQuiet(sha, db, today, Caller(db.accounts, s.event.sid), s.event, s.clock, locked);
      }
    } else {
      match s.event {
        case SweepCases => SweepQuiet(db.queue, db.fleet.cases, db.accounts.users, s.clock, locked);
        case Remind => RemindQuiet(db.queue, db.fleet.deadlines, db.accounts.users, s.clock, locked);
        case Prune => PruneQuiet(db.queue, s.clock, locked);
        case Tombstone => TombstonesQuiet(db, s.clock.now, |db.accounts.companies|, locked);
        case _ =>
      }
    }
  }

  lemma PruneQuiet(q: Queue, clock: Clock, locked: set<nat>)
    requires SerialsOk(q) && Removed(q, Pruned(q, clock)) !! locked
    ensures QuietRows(q, Pruned(q, clock), locked)
  {
    hide MonthsAgo;
    WithoutIsQuiet(q, Expired(q, MonthsAgo(clock.now, OUTBOX_RETENTION_MONTHS)), locked);
  }

  lemma SweepQuiet(q: Queue, cases: seq<EscalationCase>, users: seq<User>, clock: Clock, locked: set<nat>)
    requires SerialsOk(q)
    ensures QuietRows(q, EnqueueAll(q, SweepRows(cases, users, clock, |cases|)), locked)
  {
    hide EnqueueAll, SweepRows, QuietRows, FreshRow, SerialsOk;
    var rows := SweepRows(cases, users, clock, |cases|);
    forall i | 0 <= i < |rows|
      ensures FreshRow(rows[i])
    {
      OutboxSteps.SweepFresh(cases, users, clock, i);
    }
    EnqueueIsQuiet(q, rows, locked);
  }

  lemma RemindQuiet(q: Queue, ds: seq<Deadline>, users: seq<User>, clock: Clock, locked: set<nat>)
    requires SerialsOk(q)
    ensures QuietRows(q, EnqueueAll(q, ReminderRows(ds, users, clock, |ds|)), locked)
  {
    hide EnqueueAll, ReminderRows, QuietRows, FreshRow, SerialsOk;
    var rows := ReminderRows(ds, users, clock, |ds|);
    forall i | 0 <= i < |rows|
      ensures FreshRow(rows[i])
    {
      OutboxSteps.ReminderFresh(ds, users, clock, i);
    }
    EnqueueIsQuiet(q, rows, locked);
  }
}
