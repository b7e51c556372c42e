/** Which messages a step stages, as a set; the queue of every run holds exactly what its steps staged. */
module KeyHistory {
  import opened Wrappers
  import opened Records
  import opened Outbox
  import Reminders
  import AccountServices
  import opened Sweeps
  import Checks
  import opened QueueInvariant
  import Routes
  import DatabaseInvariant
  import opened FleetSystem
  import QuietSteps
  import E6

  // ----- the specification: sets of keys -----

  /** The nags and breach notices of one sweep. */
  predicate SweptKey(db: Db, clock: Clock, key: DedupKey) {
    var cases, users := db.fleet.cases, db.accounts.users;
    match key
    case BreachKey(c, to) =>
      c < |cases| && cases[c].status == CaseOpen && clock.now > cases[c].deadlineAt && to in AddressesOf(users, cases[c].company)
    case NagKey(c, on, to) =>
      && c < |cases| && cases[c].status == CaseOpen && clock.now <= cases[c].deadlineAt
      && on == clock.today && cases[c].lastNagOn != Some(on) && to in AddressesOf(users, cases[c].company)
    case _ => false
  }

  /** The reminders of one sweep: open deadlines, today's token, today's recipients and channels. */
  predicate RemindedKey(db: Db, clock: Clock, key: DedupKey) {
    match key
    case ReminderKey(d, token, to) =>
      var ds := db.fleet.deadlines;
      && d < |ds| && ds[d].status == DeadlineOpen && Reminders.Applies(ds[d].dueOn, clock.today, token)
      && to in AddressesOf(db.accounts.users, ds[d].company)
    case _ => false
  }

  /** The broadcast of a fresh escalation. */
  predicate BroadcastKey(db: Db, event: Event, clock: Clock, key: DedupKey) {
    && event.CheckDriver? && AccountServices.Admitted(db.accounts, event.sid, clock.now)
    && var caller := Caller(db.accounts, event.sid);
    && caller.role != VIEWER && Routes.Visible(db.fleet, caller.company, event.driver)
    && event.result == Checks.FAILED && E6.OpenCase(db.fleet.cases, event.driver).None?
    && key.E6Key? && key.trigger == db.queue.triggers && key.to in AddressesOf(db.accounts.users, caller.company)
  }

  predicate Stages(w: World, s: Step, key: DedupKey) {
    || BroadcastKey(w.db, s.event, s.clock, key)
    || (s.event.SweepCases? && SweptKey(w.db, s.clock, key))
    || (s.event.Remind? && RemindedKey(w.db, s.clock, key))
  }

  predicate EverKey(q: Queue, key: DedupKey) {
    exists id | id in Rows(q) :: Rows(q)[id].key == key
  }

  predicate HasKey(rows: seq<OutboxRow>, key: DedupKey) {
    exists i | 0 <= i < |rows| :: rows[i].key == key
  }

  // ----- batches -----

  lemma EnqueueEver(q: Queue, rows: seq<OutboxRow>, key: DedupKey)
    requires SerialsOk(q)
    ensures EverKey(EnqueueAll(q, rows), key) <==> EverKey(q, key) || HasKey(rows, key)
  {
    hide EnqueueAll;
    EnqueueAllKeys(q, rows, key);
    QuietSteps.EnqueueKeepsArchive(q, rows);
    DatabaseInvariant.AllGrown(q, rows);
    var p := EnqueueAll(q, rows);
    EverSplit(q, key);
    EverSplit(p, key);
  }

  lemma EverSplit(q: Queue, key: DedupKey)
    requires SerialsOk(q)
    ensures EverKey(q, key) <==> KeyTaken(q.outbox, key) || exists id :: id in q.archive && q.archive[id].key == key
  {
    assert forall id | id in q.outbox :: id in Rows(q) && Rows(q)[id] == q.outbox[id];
    assert forall id | id in q.archive :: id in Rows(q) && Rows(q)[id] == q.archive[id];
    assert forall id | id in Rows(q) :: id in q.outbox || id in q.archive;
  }

  lemma ConcatKey(a: seq<OutboxRow>, b: seq<OutboxRow>, key: DedupKey)
    ensures HasKey(a + b, key) <==> HasKey(a, key) || HasKey(b, key)
  {
    if HasKey(a, key) {
      var i :| 0 <= i < |a| && a[i].key == key;
      assert (a + b)[i].key == key;
    }
    if HasKey(b, key) {
      var i :| 0 <= i < |b| && b[i].key == key;
      assert (a + b)[|a| + i].key == key;
    }
  }

  // ----- the escalation sweep -----

  predicate CaseKey(id: nat, c: EscalationCase, users: seq<User>, clock: Clock, key: DedupKey) {
    match key
    case BreachKey(e, to) => e == id && c.status == CaseOpen && clock.now > c.deadlineAt && to in AddressesOf(users, c.company)
    case NagKey(e, on, to) =>
      && e == id && c.status == CaseOpen && clock.now <= c.deadlineAt
      && on == clock.today && c.lastNagOn != Some(on) && to in AddressesOf(users, c.company)
    case _ => false
  }

  lemma CaseRowsKey(id: nat, c: EscalationCase, users: seq<User>, clock: Clock, key: DedupKey)
    ensures HasKey(CaseRows(id, c, users, clock), key) <==> CaseKey(id, c, users, clock, key)
  {
  }

  lemma NoKey(key: DedupKey)
    ensures !HasKey([], key)
  {
  }

  lemma {:induction false} SweepRowsKey(cases: seq<EscalationCase>, users: seq<User>, clock: Clock, n: nat,
                                        key: DedupKey)
    requires n <= |cases|
    ensures HasKey(SweepRows(cases, users, clock, n), key) <==> exists c | 0 <= c < n :: CaseKey(c, cases[c], users, clock, key)
  {
    hide CaseRows, HasKey, CaseKey;
    if n == 0 {
      NoKey(key);
    } else {
      SweepRowsKey(cases, users, clock, n - 1, key);
      ConcatKey(SweepRows(cases, users, clock, n - 1), CaseRows(n - 1, cases[n - 1], users, clock), key);
      CaseRowsKey(n - 1, cases[n - 1], users, clock, key);
    }
  }

  /** The escalation sweep adds exactly the keys of its set. */
  lemma SweepEver(db: Db, clock: Clock, key: DedupKey)
    requires SerialsOk(db.queue)
    ensures EverKey(AfterEscalationSweep(db, clock).queue, key) <==> EverKey(db.queue, key) || SweptKey(db, clock, key)
  {
    hide EnqueueAll, SweepRows, EverKey, HasKey, SerialsOk, AddressesOf;
    var cases, users := db.fleet.cases, db.accounts.users;
    EnqueueEver(db.queue, SweepRows(cases, users, clock, |cases|), key);
    SweepRowsKey(cases, users, clock, |cases|, key);
    SweptIsCaseKey(db, clock, key);
  }

  lemma SweptIsCaseKey(db: Db, clock: Clock, key: DedupKey)
    ensures SweptKey(db, clock, key) <==>
      exists c | 0 <= c < |db.fleet.cases| :: CaseKey(c, db.fleet.cases[c], db.accounts.users, clock, key)
  {
  }

  // ----- the reminder sweep -----

  predicate DeadlineKey(id: nat, d: Deadline, users: seq<User>, clock: Clock, key: DedupKey) {
    key.ReminderKey? && key.deadline == id && d.status == DeadlineOpen
    && Reminders.ReminderNotch(d.dueOn, clock.today) == Some(key.token) && key.to in AddressesOf(users, d.company)
  }

  lemma DeadlineRowsKey(id: nat, d: Deadline, users: seq<User>, clock: Clock, key: DedupKey)
    ensures HasKey(DeadlineRows(id, d, users, clock), key) <==> DeadlineKey(id, d, users, clock, key)
  {
  }

  lemma {:induction false} ReminderRowsKey(ds: seq<Deadline>, users: seq<User>, clock: Clock, n: nat, key: DedupKey)
    requires n <= |ds|
    ensures HasKey(ReminderRows(ds, users, clock, n), key) <==> exists d | 0 <= d < n :: DeadlineKey(d, ds[d], users, clock, key)
  {
    hide DeadlineRows, HasKey, DeadlineKey;
    if n == 0 {
      NoKey(key);
    } else {
      ReminderRowsKey(ds, users, clock, n - 1, key);
      ConcatKey(ReminderRows(ds, users, clock, n - 1), DeadlineRows(n - 1, ds[n - 1], users, clock), key);
      DeadlineRowsKey(n - 1, ds[n - 1], users, clock, key);
    }
  }

  /** The reminder sweep adds exactly the keys of its set. */
  lemma RemindEver(db: Db, clock: Clock, key: DedupKey)
    requires SerialsOk(db.queue)
    ensures EverKey(AfterReminderSweep(db, clock).queue, key) <==> EverKey(db.queue, key) || RemindedKey(db, clock, key)
  {
    hide EnqueueAll, ReminderRows, EverKey, HasKey, SerialsOk, AddressesOf, RemindedKey, DeadlineKey;
    var ds, users := db.fleet.deadlines, db.accounts.users;
    EnqueueEver(db.queue, ReminderRows(ds, users, clock, |ds|), key);
    ReminderRowsKey(ds, users, clock, |ds|, key);
    RemindedIsDeadlineKey(db, clock, key);
  }

  lemma RemindedIsDeadlineKey(db: Db, clock: Clock, key: DedupKey)
    ensures RemindedKey(db, clock, key) <==>
      exists d | 0 <= d < |db.fleet.deadlines| :: DeadlineKey(d, db.fleet.deadlines[d], db.accounts.users, clock, key)
  {
    hide Reminders.ReminderNotch, Reminders.Applies, AddressesOf;
    if key.ReminderKey? && key.deadline < |db.fleet.deadlines| {
      Reminders.NotchExactly(db.fleet.deadlines[key.deadline].dueOn, clock.today, key.token);
    }
    if RemindedKey(db, clock, key) {
      assert DeadlineKey(key.deadline, db.fleet.deadlines[key.deadline], db.accounts.users, clock, key);
    }
  }

  // ----- repeating a sweep -----

  lemma {:induction false} EnqueueNothing(q: Queue, rows: seq<OutboxRow>)
    requires forall i :: 0 <= i < |rows| ==> KeyTaken(q.outbox, rows[i].key)
    ensures EnqueueAll(q, rows) == q
  {
    hide KeyTaken;
    if rows != [] {
      EnqueueNothing(q, rows[..|rows| - 1]);
    }
  }

  /** A second reminder sweep on the same day changes nothing. */
  lemma RemindTwice(db: Db, clock: Clock, again: Clock)
    requires SerialsOk(db.queue) && again.today == clock.today
    ensures AfterReminderSweep(AfterReminderSweep(db, clock), again) == AfterReminderSweep(db, clock)
  {
    hide ReminderRows, EnqueueAll, KeyTaken, SerialsOk;
    var ds, users := db.fleet.deadlines, db.accounts.users;
    var rows, more := ReminderRows(ds, users, clock, |ds|), ReminderRows(ds, users, again, |ds|);
    var q := EnqueueAll(db.queue, rows);
    forall i | 0 <= i < |more|
      ensures KeyTaken(q.outbox, more[i].key)
    {
      var key := more[i].key;
      SameDayKeys(ds, users, clock, again, key);
      BelowNext(db.queue);
      EnqueueAllKeys(db.queue, rows, key);
    }
    EnqueueNothing(q, more);
  }

  lemma BelowNext(q: Queue)
    requires SerialsOk(q)
    ensures forall id | id in q.outbox :: id < q.nextRow
  {
  }

  lemma SameDayKeys(ds: seq<Deadline>, users: seq<User>, clock: Clock, again: Clock, key: DedupKey)
    requires again.today == clock.today && HasKey(ReminderRows(ds, users, again, |ds|), key)
    ensures HasKey(ReminderRows(ds, users, clock, |ds|), key)
  {
    hide HasKey, ReminderRows, AddressesOf, Reminders.ReminderNotch;
    ReminderRowsKey(ds, users, clock, |ds|, key);
    ReminderRowsKey(ds, users, again, |ds|, key);
    var d :| 0 <= d < |ds| && DeadlineKey(d, ds[d], users, again, key);
    assert DeadlineKey(d, ds[d], users, clock, key);
  }

  /** Between the two clocks of one day no open case passes its deadline. */
  predicate NoDeadlineBetween(cases: seq<EscalationCase>, clock: Clock, again: Clock) {
    forall c | 0 <= c < |cases| :: cases[c].status == CaseOpen ==> (clock.now > cases[c].deadlineAt <==> again.now > cases[c].deadlineAt)
  }

  /** A second escalation sweep on the same day changes nothing, unless a deadline passed in between. */
  lemma SweepTwice(db: Db, clock: Clock, again: Clock)
    requires again.today == clock.today && NoDeadlineBetween(db.fleet.cases, clock, again)
    ensures AfterEscalationSweep(AfterEscalationSweep(db, clock), again) == AfterEscalationSweep(db, clock)
  {
    hide SweepRows, EnqueueAll;
    var cases, users := db.fleet.cases, db.accounts.users;
    var swept := SweptCases(cases, clock);
    assert SweptCases(swept, again) == swept;
    NothingToSweep(cases, users, clock, again, |cases|);
    assert EnqueueAll(AfterEscalationSweep(db, clock).queue, []) == AfterEscalationSweep(db, clock).queue by {
      EnqueueNothing(AfterEscalationSweep(db, clock).queue, []);
    }
  }

  lemma {:induction false} NothingToSweep(cases: seq<EscalationCase>, users: seq<User>, clock: Clock, again: Clock,
                                          n: nat)
    requires again.today == clock.today && NoDeadlineBetween(cases, clock, again) && n <= |cases|
    ensures SweepRows(SweptCases(cases, clock), users, again, n) == []
  {
    hide AddressesOf;
    if n > 0 {
      NothingToSweep(cases, users, clock, again, n - 1);
    }
  }
}
