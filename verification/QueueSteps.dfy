/** The sweeps, E6, pruning and erasure keep the queue invariant. */
module QueueSteps {
  import opened Wrappers
  import opened Calendar
  import opened BerlinTime
  import opened Records
  import opened Outbox
  import Reminders
  import opened AccountServices
  import opened Dsgvo
  import opened Sweeps
  import opened QueueInvariant
  import E6

  // ----- the times of a case -----

  /** Up to the deadline a day lies at most seven days after opening, past it at least seven. */
  ghost predicate CaseTimes(c: EscalationCase) {
    && (forall t {:trigger BerlinDay(t)} :: t <= c.deadlineAt ==> BerlinDay(t) <= c.openedOn + NAG_DAYS)
    && (forall t {:trigger BerlinDay(t)} :: t > c.deadlineAt ==> BerlinDay(t) >= c.openedOn + NAG_DAYS)
  }

  ghost predicate TimesInv(cases: seq<EscalationCase>, today: Day) {
    forall c | 0 <= c < |cases| :: CaseTimes(cases[c]) && cases[c].openedOn <= today
  }

  lemma NewCaseTimes(company: nat, driver: nat, trigger: nat, told: seq<Address>, clock: Clock)
    requires clock.Valid()
    ensures CaseTimes(E6.NewCase(company, driver, trigger, told, clock))
  {
    hide BerlinDay, EscalationDeadline;
    forall t
      ensures t <= EscalationDeadline(clock.now, 7) ==> BerlinDay(t) <= clock.today + 7
      ensures t > EscalationDeadline(clock.now, 7) ==> BerlinDay(t) >= clock.today + 7
    {
      DeadlineDay(clock.now, 7, t);
    }
  }

  // ----- the escalation sweep -----

  lemma SweptKeepsKeys(f: Fleet, clock: Clock)
    ensures KeepsKeys(f, f.(cases := SweptCases(f.cases, clock)))
  {
  }

  lemma {:induction false} SweepRowSource(cases: seq<EscalationCase>, users: seq<User>, clock: Clock, n: nat, i: nat)
      returns (c: nat, j: nat)
    requires n <= |cases| && i < |SweepRows(cases, users, clock, n)|
    ensures c < n && j < |CaseRows(c, cases[c], users, clock)|
    ensures SweepRows(cases, users, clock, n)[i] == CaseRows(c, cases[c], users, clock)[j]
  {
    hide CaseRows;
    var before := SweepRows(cases, users, clock, n - 1);
    if i < |before| {
      c, j := SweepRowSource(cases, users, clock, n - 1, i);
    } else {
      c, j := n - 1, i - |before|;
    }
  }

  lemma CaseRowMayEnqueue(a: Db, today: Day, clock: Clock, c: nat, j: nat)
    requires QueueInv(a, today) && today <= clock.today && AccountInv(a.accounts) && TimesInv(a.fleet.cases, today)
    requires clock.Frozen()
    requires c < |a.fleet.cases| && j < |CaseRows(c, a.fleet.cases[c], a.accounts.users, clock)|
    requires a.fleet.cases[c].company < |a.accounts.companies|
    ensures MayEnqueue(a.(fleet := a.fleet.(cases := SweptCases(a.fleet.cases, clock))),
                       CaseRows(c, a.fleet.cases[c], a.accounts.users, clock)[j])
  {
    hide BerlinDay, AddressesOf, ResolveRecipients, KeysUnique, SerialsOk, DeliveryOk;
    var k := a.fleet.cases[c];
    var to := AddressesOf(a.accounts.users, k.company)[j];
    SomebodyToTell(a.accounts, k.company);
    assert CaseTimes(k);
    QueueFrame(a, a, today, clock.today);
    BreachNeverRemoved(a, today, c, to);
    NagNeverRemoved(a, clock.today, c, to);
  }

  lemma SomebodyToTell(a: Accounts, company: nat)
    requires AccountInv(a) && company < |a.companies| && AddressesOf(a.users, company) != []
    ensures !Deleted(a.companies, company)
  {
    hide AddressesOf;
    if a.companies[company].deletedAt.Some? {
      ErasedIsSilent(a, company, 0, 0);
    }
  }

  /** The sweep keeps the queue invariant: in particular it never regenerates a removed key. */
  lemma EscalationSweepKeepsQueue(a: Db, today: Day, clock: Clock)
    requires QueueInv(a, today) && today <= clock.today && AccountInv(a.accounts) && TimesInv(a.fleet.cases, today)
    requires clock.Frozen()
    requires forall c | 0 <= c < |a.fleet.cases| :: a.fleet.cases[c].company < |a.accounts.companies|
    ensures QueueInv(AfterEscalationSweep(a, clock), clock.today)
  {
    hide QueueInv, MayEnqueue, CaseRows, KeepsKeys, AccountInv, TimesInv;
    var mid := a.(fleet := a.fleet.(cases := SweptCases(a.fleet.cases, clock)));
    SweptKeepsKeys(a.fleet, clock);
    QueueFrame(a, mid, today, clock.today);
    var n, users := |a.fleet.cases|, a.accounts.users;
    var rows := SweepRows(a.fleet.cases, users, clock, n);
    forall i | 0 <= i < |rows|
      ensures MayEnqueue(mid, rows[i])
    {
      var c, j := SweepRowSource(a.fleet.cases, users, clock, n, i);
      CaseRowMayEnqueue(a, today, clock, c, j);
    }
    EnqueueAllKeeps(mid, rows, clock.today);
  }

  // ----- the reminder sweep -----

  lemma {:induction false} ReminderRowSource(ds: seq<Deadline>, users: seq<User>, clock: Clock, n: nat, i: nat)
      returns (d: nat, j: nat)
    requires n <= |ds| && i < |ReminderRows(ds, users, clock, n)|
    ensures d < n && j < |DeadlineRows(d, ds[d], users, clock)|
    ensures ReminderRows(ds, users, clock, n)[i] == DeadlineRows(d, ds[d], users, clock)[j]
  {
    hide DeadlineRows;
    var before := ReminderRows(ds, users, clock, n - 1);
    if i < |before| {
      d, j := ReminderRowSource(ds, users, clock, n - 1, i);
    } else {
      d, j := n - 1, i - |before|;
    }
  }

  lemma DeadlineRowMayEnqueue(a: Db, clock: Clock, d: nat, j: nat)
    requires QueueInv(a, clock.today) && AccountInv(a.accounts) && clock.Frozen()
    requires d < |a.fleet.deadlines| && j < |DeadlineRows(d, a.fleet.deadlines[d], a.accounts.users, clock)|
    requires a.fleet.deadlines[d].company < |a.accounts.companies|
    ensures MayEnqueue(a, DeadlineRows(d, a.fleet.deadlines[d], a.accounts.users, clock)[j])
  {
    hide BerlinDay, AddressesOf, ResolveRecipients, QueueInv, Reminders.ReminderNotch, AccountInv;
    var k := a.fleet.deadlines[d];
    var to := AddressesOf(a.accounts.users, k.company)[j];
    SomebodyToTell(a.accounts, k.company);
    ReminderNeverRemoved(a, clock.today, d, Reminders.ReminderNotch(k.dueOn, clock.today).value, to);
  }

  lemma ReminderSweepKeepsQueue(a: Db, today: Day, clock: Clock)
    requires QueueInv(a, today) && today <= clock.today && AccountInv(a.accounts) && clock.Frozen()
    requires forall d | 0 <= d < |a.fleet.deadlines| :: a.fleet.deadlines[d].company < |a.accounts.companies|
    ensures QueueInv(AfterReminderSweep(a, clock), clock.today)
  {
    hide QueueInv, MayEnqueue, DeadlineRows, AccountInv;
    QueueFrame(a, a, today, clock.today);
    var n, users := |a.fleet.deadlines|, a.accounts.users;
    var rows := ReminderRows(a.fleet.deadlines, users, clock, n);
    forall i | 0 <= i < |rows|
      ensures MayEnqueue(a, rows[i])
    {
      var d, j := ReminderRowSource(a.fleet.deadlines, users, clock, n, i);
      DeadlineRowMayEnqueue(a, clock, d, j);
    }
    EnqueueAllKeeps(a, rows, clock.today);
  }

  // ----- E6 -----

  lemma EscalationKeepsQueue(a: Db, driver: nat, company: nat, told: seq<Address>, today: Day, clock: Clock)
    requires QueueInv(a, today) && today <= clock.today && clock.Valid()
    requires driver < |a.fleet.drivers| && !Deleted(a.accounts.companies, company)
    requires var t := a.queue.triggers;
      !Collides(a.queue.outbox, E6.Messages(company, t, told, clock))
    ensures var t := a.queue.triggers;
      var b := a.(queue := a.queue.(triggers := t + 1));
      QueueInv(E6.Escalated(b, driver, company, told, t, clock), clock.today)
  {
    hide QueueInv, EscalationDeadline, BerlinDay, Collides, KeepsKeys, Append, EnqueueAll;
    var t := a.queue.triggers;
    var b := a.(queue := a.queue.(triggers := t + 1));
    var rows := E6.Messages(company, t, told, clock);
    var e := E6.Escalated(b, driver, company, told, t, clock);
    var f := b.(fleet := e.fleet, alerts := e.alerts);
    EscalatedKeepsKeys(b, driver, company, told, t, clock);
    QueueFrame(a, f, today, clock.today);
    forall i | 0 <= i < |rows|
      ensures MayEnqueue(f, rows[i])
    {
      E6NeverRemoved(a, today, told[i]);
    }
    AppendIsEnqueue(f.queue, rows);
    EnqueueAllKeeps(f, rows, clock.today);
  }

  lemma EscalatedKeepsKeys(b: Db, driver: nat, company: nat, told: seq<Address>, t: nat, clock: Clock)
    requires driver < |b.fleet.drivers|
    ensures KeepsKeys(b.fleet, E6.Escalated(b, driver, company, told, t, clock).fleet)
  {
  }

  // ----- rows leaving the table -----

  lemma RowsWithout(q: Queue, gone: set<nat>)
    requires SerialsOk(q)
    ensures Rows(Without(q, gone)) == Rows(q)
    ensures SerialsOk(Without(q, gone))
  {
  }

  /** Pruning removes only rows whose keys are out of reach of every later sweep. */
  lemma PruneKeepsQueue(a: Db, today: Day, clock: Clock)
    requires QueueInv(a, today) && today <= clock.today && clock.Valid()
    ensures QueueInv(a.(queue := Pruned(a.queue, clock)), clock.today)
  {
    hide KeyOk, BerlinDay, MonthsAgo, KeysUnique, SerialsOk, DeliveryOk, Deleted, Outdated;
    QueueFrame(a, a, today, clock.today);
    var q, p := a.queue, Pruned(a.queue, clock);
    RowsWithout(q, Expired(q, MonthsAgo(clock.now, OUTBOX_RETENTION_MONTHS)));
    UniqueByRows(q, p);
    forall id | id in p.archive
      ensures ArchivedOk(a.accounts.companies, clock.today, p.archive[id])
    {
      if id in q.outbox && id in Expired(q, MonthsAgo(clock.now, OUTBOX_RETENTION_MONTHS)) {
        assert StampOk(Rows(q)[id]);
        ExpiredIsOutOfReach(q.outbox[id].createdAt, clock);
      } else {
        assert ArchivedOk(a.accounts.companies, clock.today, q.archive[id]);
      }
    }
  }

  lemma UniqueByRows(q: Queue, p: Queue)
    requires KeysUnique(q) && Rows(p) == Rows(q)
    ensures KeysUnique(p)
  {
  }

  /** The instant test of the prune is the civil-day test, and what passes it was created more than 672
      days ago. */
  lemma ExpiredIsOutOfReach(createdAt: Instant, clock: Clock)
    requires clock.Valid()
    ensures createdAt < MonthsAgo(clock.now, OUTBOX_RETENTION_MONTHS) <==> Outdated(BerlinDay(createdAt), clock.today)
    ensures Outdated(BerlinDay(createdAt), clock.today) ==> BerlinDay(createdAt) + KEY_REACH < clock.today
  {
    hide BerlinDay, PlusMonths, AtWall;
    Midnight(PlusMonths(clock.today, -OUTBOX_RETENTION_MONTHS), createdAt);
    if Outdated(BerlinDay(createdAt), clock.today) {
      OutOfReach(BerlinDay(createdAt), clock.today);
    }
  }

  /** Erasing a company removes exactly its rows. */
  lemma TombstoneKeepsQueue(a: Db, company: nat, today: Day, clock: Clock)
    requires QueueInv(a, today) && today <= clock.today
    requires company < |a.accounts.companies|
    ensures QueueInv(AfterTombstone(a, company, clock.now), clock.today)
  {
    hide KeyOk, BerlinDay, KeysUnique, SerialsOk, DeliveryOk, Outdated, ErasedUsers, RevokedSessions,
         ClosedInvitations, TombstonedDrivers;
    var b := AfterTombstone(a, company, clock.now);
    var q, p := a.queue, b.queue;
    RowsWithout(q, RowsOf(q, company));
    UniqueByRows(q, p);
    forall id | id in Rows(p)
      ensures KeyOk(b.fleet, p.triggers, Rows(p)[id])
    {
      KeyOkFrame(a.fleet, b.fleet, q.triggers, p.triggers, Rows(q)[id]);
    }
    forall id | id in p.archive
      ensures ArchivedOk(b.accounts.companies, clock.today, p.archive[id])
    {
      if !(id in q.outbox && id in RowsOf(q, company)) {
        assert ArchivedOk(a.accounts.companies, today, q.archive[id]);
        if Outdated(q.archive[id].createdOn, today) {
          OutdatedStays(q.archive[id].createdOn, today, clock.today);
        }
      }
    }
  }
}
