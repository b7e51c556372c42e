/** What every transaction keeps true of the notification outbox, present and past rows together. */
module QueueInvariant {
  import opened Wrappers
  import opened Calendar
  import BerlinTime
  import opened Records
  import opened Outbox
  import MonthRules
  import Reminders
  import Dsgvo

  const MAX_ATTEMPTS := 5
  const NAG_DAYS := 7

  /** More than this many days back is out of reach of every dedup key that carries a date. */
  const KEY_REACH := 672

  // ----- rows -----

  /** Every row ever committed. */
  function Rows(q: Queue): map<nat, OutboxRow> {
    q.archive + q.outbox
  }

  predicate IsSent(r: OutboxRow) { r.sentAt.Some? && r.deadLetteredAt.None? && r.attempts < MAX_ATTEMPTS }
  predicate IsPending(r: OutboxRow) { r.sentAt.None? && r.deadLetteredAt.None? && r.attempts < MAX_ATTEMPTS }
  predicate IsDead(r: OutboxRow) { r.sentAt.None? && r.deadLetteredAt.Some? && r.attempts == MAX_ATTEMPTS }

  /** Exactly one delivery state. */
  predicate DeliveryOk(r: OutboxRow) { IsSent(r) || IsPending(r) || IsDead(r) }

  /** Serial numbers are handed out once, and a row leaves the table only into the archive. */
  ghost predicate SerialsOk(q: Queue) {
    && (forall id: nat :: id < q.nextRow <==> id in q.outbox || id in q.archive)
    && q.outbox.Keys !! q.archive.Keys
  }

  /** No two rows ever committed carry the same dedup key. */
  predicate KeysUnique(q: Queue) {
    forall i, j | i in Rows(q) && j in Rows(q) :: i != j ==> Rows(q)[i].key != Rows(q)[j].key
  }

  /** The row's day is the Berlin day of its creation instant. */
  predicate StampOk(r: OutboxRow) { r.createdOn == BerlinTime.BerlinDay(r.createdAt) }

  /** The template and priority of each kind of message: breach notices and E6 broadcasts come first. */
  predicate KindOk(r: OutboxRow) {
    match r.key
    case E6Key(_, _) => r.template == FskFailedCritical && r.priority == 0
    case BreachKey(_, _) => r.template == EscalationBreached && r.priority == 0
    case NagKey(_, _, _) => r.template == EscalationNag && r.priority == 50
    case ReminderKey(_, _, _) => r.template == DeadlineReminder && r.priority == 100
  }

  /** What a dedup key says about the row that carries it. */
  predicate KeyOk(f: Fleet, triggers: nat, r: OutboxRow) {
    KindOk(r) &&
    match r.key
    case E6Key(t, _) => t < triggers
    case BreachKey(c, _) => c < |f.cases| && f.cases[c].status == Breached && r.company == f.cases[c].company
    case NagKey(c, on, _) =>
      && c < |f.cases| && on == r.createdOn && r.company == f.cases[c].company
      && f.cases[c].openedOn <= on <= f.cases[c].openedOn + NAG_DAYS
    case ReminderKey(d, token, _) =>
      && d < |f.deadlines| && r.company == f.deadlines[d].company
      && Reminders.ReminderNotch(f.deadlines[d].dueOn, r.createdOn) == Some(token)
  }

  predicate Deleted(companies: seq<Company>, c: nat) {
    c < |companies| && companies[c].deletedAt.Some?
  }

  /** Created before the civil day 24 calendar months ago. */
  predicate Outdated(createdOn: Day, today: Day) {
    createdOn < PlusMonths(today, -Dsgvo.OUTBOX_RETENTION_MONTHS)
  }

  /** A row leaves the table only when it is outdated or its company has been erased. */
  predicate ArchivedOk(companies: seq<Company>, today: Day, r: OutboxRow) {
    Deleted(companies, r.company) || Outdated(r.createdOn, today)
  }

  lemma OutdatedStays(createdOn: Day, today: Day, later: Day)
    requires Outdated(createdOn, today) && today <= later
    ensures Outdated(createdOn, later)
  {
    hide PlusMonths;
    MonthRules.PlusMonthsMonotone(today, later, -Dsgvo.OUTBOX_RETENTION_MONTHS);
  }

  lemma OutOfReach(createdOn: Day, today: Day)
    requires Outdated(createdOn, today)
    ensures createdOn + KEY_REACH < today
  {
    hide PlusMonths;
    MonthRules.PlusMonthsSpan(today, Dsgvo.OUTBOX_RETENTION_MONTHS);
  }

  ghost predicate QueueInv(db: Db, today: Day) {
    var q := db.queue;
    && SerialsOk(q)
    && KeysUnique(q)
    && (forall id | id in Rows(q) :: DeliveryOk(Rows(q)[id]) && StampOk(Rows(q)[id]))
    && (forall id | id in Rows(q) :: KeyOk(db.fleet, q.triggers, Rows(q)[id]))
    && (forall id | id in q.archive :: ArchivedOk(db.accounts.companies, today, q.archive[id]))
    && (forall id | id in q.outbox :: !Deleted(db.accounts.companies, q.outbox[id].company))
  }

  // ----- enqueuing -----

  /** A new row whose key is in the table, or was never used at all. */
  ghost predicate NeverRemoved(q: Queue, key: DedupKey) {
    forall id | id in q.archive :: q.archive[id].key != key
  }

  /** What a batch must bring for the invariant to survive it. */
  ghost predicate MayEnqueue(db: Db, row: OutboxRow) {
    && IsPending(row) && StampOk(row)
    && KeyOk(db.fleet, db.queue.triggers, row)
    && !Deleted(db.accounts.companies, row.company)
    && NeverRemoved(db.queue, row.key)
  }

  lemma EnqueueStaysUnique(q: Queue, row: OutboxRow)
    requires SerialsOk(q) && KeysUnique(q) && NeverRemoved(q, row.key) && !KeyTaken(q.outbox, row.key)
    ensures var p := EnqueueUnique(q, row);
      Rows(p) == Rows(q)[q.nextRow := row] && SerialsOk(p) && KeysUnique(p)
  {
    var p := EnqueueUnique(q, row);
    assert Rows(p) == Rows(q)[q.nextRow := row];
    forall i, j | i in Rows(p) && j in Rows(p) && i != j
      ensures Rows(p)[i].key != Rows(p)[j].key
    {
      RowFrom(q, row, i);
      RowFrom(q, row, j);
    }
  }

  /** `_enqueue_unique` keeps every invariant of the queue, provided the key is not that of a removed row. */
  lemma EnqueueKeeps(db: Db, row: OutboxRow, today: Day)
    requires QueueInv(db, today) && MayEnqueue(db, row)
    ensures QueueInv(db.(queue := EnqueueUnique(db.queue, row)), today)
  {
    hide KeyOk, Deleted, ArchivedOk, KeyTaken, KeysUnique, SerialsOk, NeverRemoved, StampOk, DeliveryOk, IsPending;
    var q := db.queue;
    if !KeyTaken(q.outbox, row.key) {
      EnqueueStaysUnique(q, row);
      PendingIsOk(row);
    }
  }

  lemma PendingIsOk(row: OutboxRow)
    requires IsPending(row)
    ensures DeliveryOk(row)
  {
  }

  lemma RowFrom(q: Queue, row: OutboxRow, i: nat)
    requires SerialsOk(q) && !KeyTaken(q.outbox, row.key) && NeverRemoved(q, row.key)
    requires i in Rows(q)[q.nextRow := row]
    ensures i == q.nextRow || (i in Rows(q) && Rows(q)[i].key != row.key)
  {
  }

  lemma {:induction false} EnqueueAllKeeps(db: Db, rows: seq<OutboxRow>, today: Day)
    requires QueueInv(db, today)
    requires forall i :: 0 <= i < |rows| ==> MayEnqueue(db, rows[i])
    ensures QueueInv(db.(queue := EnqueueAll(db.queue, rows)), today)
    ensures EnqueueAll(db.queue, rows).archive == db.queue.archive
    ensures EnqueueAll(db.queue, rows).triggers == db.queue.triggers
  {
    hide QueueInv, KeyOk, Deleted, KeyTaken, StampOk, IsPending;
    if rows != [] {
      var n := |rows| - 1;
      EnqueueAllKeeps(db, rows[..n], today);
      var mid := db.(queue := EnqueueAll(db.queue, rows[..n]));
      assert MayEnqueue(db, rows[n]);
      EnqueueKeeps(mid, rows[n], today);
      assert db.(queue := EnqueueAll(db.queue, rows)) == mid.(queue := EnqueueUnique(mid.queue, rows[n]));
    }
  }

  /** A batch that hits no unique constraint is inserted as it stands. */
  lemma {:induction false} AppendIsEnqueue(q: Queue, rows: seq<OutboxRow>)
    requires !Collides(q.outbox, rows)
    ensures Append(q, rows) == EnqueueAll(q, rows)
    ensures forall key :: KeyTaken(Append(q, rows).outbox, key) ==>
      KeyTaken(q.outbox, key) || exists i :: 0 <= i < |rows| && rows[i].key == key
  {
    if rows != [] {
      var n := |rows| - 1;
      var short := rows[..n];
      assert !Collides(q.outbox, short) by { ShortBatch(q.outbox, rows); }
      AppendIsEnqueue(q, short);
      var p := Append(q, short);
      assert !KeyTaken(q.outbox, rows[n].key);
      assert !KeyTaken(p.outbox, rows[n].key);
      forall key | KeyTaken(Append(q, rows).outbox, key)
        ensures KeyTaken(q.outbox, key) || exists i :: 0 <= i < |rows| && rows[i].key == key
      {
        var id :| id in Append(q, rows).outbox && Append(q, rows).outbox[id].key == key;
        if id == p.nextRow {
          assert rows[n].key == key;
        } else {
          assert KeyTaken(p.outbox, key);
          if !KeyTaken(q.outbox, key) {
            var i :| 0 <= i < |short| && short[i].key == key;
            assert rows[i].key == key;
          }
        }
      }
    }
  }

  lemma ShortBatch(outbox: map<nat, OutboxRow>, rows: seq<OutboxRow>)
    requires rows != [] && !Collides(outbox, rows)
    ensures !Collides(outbox, rows[..|rows| - 1])
  {
  }

  // ----- what the fleet may do without disturbing the keys -----

  predicate KeepsCase(a: EscalationCase, b: EscalationCase) {
    b.company == a.company && b.openedOn == a.openedOn && (a.status == Breached ==> b.status == Breached)
  }

  predicate KeepsDeadline(a: Deadline, b: Deadline) {
    b.company == a.company && b.dueOn == a.dueOn
  }

  /** Cases and deadlines are never removed; opening days, due dates and breaches are final. */
  predicate KeepsKeys(f: Fleet, g: Fleet) {
    && |f.cases| <= |g.cases| && (forall c | 0 <= c < |f.cases| :: KeepsCase(f.cases[c], g.cases[c]))
    && |f.deadlines| <= |g.deadlines| && (forall d | 0 <= d < |f.deadlines| :: KeepsDeadline(f.deadlines[d], g.deadlines[d]))
  }

  lemma KeyOkFrame(f: Fleet, g: Fleet, m: nat, n: nat, r: OutboxRow)
    requires KeyOk(f, m, r) && KeepsKeys(f, g) && m <= n
    ensures KeyOk(g, n, r)
  {
  }

  /** Companies may be added, and their other columns change, but none is erased. */
  predicate KeepsCompanies(a: seq<Company>, b: seq<Company>) {
    && |a| <= |b|
    && (forall c | 0 <= c < |a| :: a[c].deletedAt == b[c].deletedAt)
    && (forall c | |a| <= c < |b| :: b[c].deletedAt.None?)
  }

  /** A transaction that leaves the rows alone keeps the queue invariant. */
  lemma QueueFrame(a: Db, b: Db, today: Day, later: Day)
    requires QueueInv(a, today) && today <= later
    requires b.queue == a.queue.(triggers := b.queue.triggers) && a.queue.triggers <= b.queue.triggers
    requires KeepsKeys(a.fleet, b.fleet) && KeepsCompanies(a.accounts.companies, b.accounts.companies)
    ensures QueueInv(b, later)
  {
    hide KeyOk, KeepsKeys, DeliveryOk, StampOk, Outdated;
    var q := b.queue;
    assert Rows(q) == Rows(a.queue);
    forall id | id in Rows(q)
      ensures KeyOk(b.fleet, q.triggers, Rows(q)[id])
    {
      KeyOkFrame(a.fleet, b.fleet, a.queue.triggers, q.triggers, Rows(q)[id]);
    }
    assert SerialsOk(q) && KeysUnique(q);
    forall id | id in q.archive
      ensures ArchivedOk(b.accounts.companies, later, q.archive[id])
    {
      assert ArchivedOk(a.accounts.companies, today, a.queue.archive[id]);
      if Outdated(q.archive[id].createdOn, today) {
        OutdatedStays(q.archive[id].createdOn, today, later);
      }
    }
    forall id | id in q.outbox
      ensures !Deleted(b.accounts.companies, q.outbox[id].company)
    {
      assert !Deleted(a.accounts.companies, a.queue.outbox[id].company);
    }
  }

  // ----- no removed key can be generated again -----

  lemma BreachNeverRemoved(db: Db, today: Day, c: nat, to: Address)
    requires QueueInv(db, today)
    requires c < |db.fleet.cases| && db.fleet.cases[c].status != Breached
    ensures NeverRemoved(db.queue, BreachKey(c, to))
  {
  }

  lemma NagNeverRemoved(db: Db, today: Day, c: nat, to: Address)
    requires QueueInv(db, today)
    requires c < |db.fleet.cases| && !Deleted(db.accounts.companies, db.fleet.cases[c].company)
    ensures NeverRemoved(db.queue, NagKey(c, today, to))
  {
    hide Outdated, KeysUnique, DeliveryOk, StampOk;
    var q := db.queue;
    forall id | id in q.archive
      ensures q.archive[id].key != NagKey(c, today, to)
    {
      assert id in Rows(q) && id !in q.outbox;
      assert KeyOk(db.fleet, q.triggers, Rows(q)[id]) && ArchivedOk(db.accounts.companies, today, q.archive[id]);
      if Outdated(q.archive[id].createdOn, today) {
        OutOfReach(q.archive[id].createdOn, today);
      }
    }
  }

  lemma ReminderNeverRemoved(db: Db, today: Day, d: nat, token: Token, to: Address)
    requires QueueInv(db, today)
    requires d < |db.fleet.deadlines| && !Deleted(db.accounts.companies, db.fleet.deadlines[d].company)
    requires Reminders.ReminderNotch(db.fleet.deadlines[d].dueOn, today) == Some(token)
    ensures NeverRemoved(db.queue, ReminderKey(d, token, to))
  {
    hide Reminders.ReminderNotch, Deleted, KeysUnique, DeliveryOk, StampOk, Outdated;
    var q := db.queue;
    forall id | id in q.archive
      ensures q.archive[id].key != ReminderKey(d, token, to)
    {
      assert id in Rows(q) && id !in q.outbox;
      assert KeyOk(db.fleet, q.triggers, Rows(q)[id]) && ArchivedOk(db.accounts.companies, today, q.archive[id]);
      if q.archive[id].key == ReminderKey(d, token, to) {
        OutOfReach(q.archive[id].createdOn, today);
        Reminders.TokenReach(db.fleet.deadlines[d].dueOn, q.archive[id].createdOn, today);
      }
    }
  }

  lemma E6NeverRemoved(db: Db, today: Day, to: Address)
    requires QueueInv(db, today)
    ensures NeverRemoved(db.queue, E6Key(db.queue.triggers, to))
    ensures !KeyTaken(db.queue.outbox, E6Key(db.queue.triggers, to))
  {
  }
}
