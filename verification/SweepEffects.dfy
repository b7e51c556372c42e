/** What the daily sweeps leave behind: which rows they add, column by column, and who is reminded of what. */
module SweepEffects {
  import opened Wrappers
  import opened BerlinTime
  import opened Records
  import opened Outbox
  import Reminders
  import opened Sweeps
  import opened QueueInvariant
  import RouteSteps
  import opened KeyHistory

  // ----- the escalation sweep on the cases -----

  /** An open case past its deadline is breached, an open one before it is marked nagged today, every other
      case is left alone; the sweep changes nothing else but the outbox. */
  lemma SweptExactly(db: Db, clock: Clock, c: nat)
    requires c < |db.fleet.cases|
    ensures var b, k := AfterEscalationSweep(db, clock), db.fleet.cases[c];
      && b == db.(fleet := db.fleet.(cases := b.fleet.cases), queue := b.queue) && |b.fleet.cases| == |db.fleet.cases|
      && b.fleet.cases[c] ==
         EscalationCase(k.company, k.driver, if k.status == CaseOpen && k.deadlineAt < clock.now then Breached else k.status,
                        k.deadlineAt, k.resolvedAt,
                        if k.status == CaseOpen && clock.now <= k.deadlineAt then Some(clock.today) else k.lastNagOn,
                        k.openedOn, k.trigger, k.told)
  {
    hide EnqueueAll, SweepRows;
  }

  // ----- the rows of a batch -----

  /** A row as it is enqueued: stamped with the start of the job, due at once, nothing tried. */
  predicate IsFresh(r: OutboxRow, company: nat, template: Template, priority: int, clock: Clock) {
    r == OutboxRow(company, template, priority, r.key, clock.began, BerlinDay(clock.began), 0, clock.began, None, None, None, [])
  }

  /** Enqueuing keeps every row, and each new row is one of the batch. */
  lemma {:induction false} EnqueuedRows(q: Queue, rows: seq<OutboxRow>, id: nat)
    requires forall i | i in q.outbox :: i < q.nextRow
    ensures forall i | i in EnqueueAll(q, rows).outbox :: i < EnqueueAll(q, rows).nextRow
    ensures id in q.outbox ==> id in EnqueueAll(q, rows).outbox && EnqueueAll(q, rows).outbox[id] == q.outbox[id]
    ensures id in EnqueueAll(q, rows).outbox && id !in q.outbox ==> EnqueueAll(q, rows).outbox[id] in rows
  {
    hide KeyTaken;
    if rows != [] {
      EnqueuedRows(q, rows[..|rows| - 1], id);
    }
  }

  /** A breach notice or nag of one sweep, every column. */
  predicate SweepRow(db: Db, clock: Clock, r: OutboxRow) {
    && SweptKey(db, clock, r.key)
    && IsFresh(r, db.fleet.cases[r.key.escalation].company, if r.key.BreachKey? then EscalationBreached else EscalationNag,
               if r.key.BreachKey? then 0 else 50, clock)
  }

  lemma CaseRowsFresh(db: Db, clock: Clock, c: nat)
    requires c < |db.fleet.cases|
    ensures forall r | r in CaseRows(c, db.fleet.cases[c], db.accounts.users, clock) :: SweepRow(db, clock, r)
  {
    hide BerlinDay, AddressesOf;
  }

  lemma {:induction false} SweepRowsFresh(db: Db, clock: Clock, n: nat)
    requires n <= |db.fleet.cases|
    ensures forall r | r in SweepRows(db.fleet.cases, db.accounts.users, clock, n) :: SweepRow(db, clock, r)
  {
    hide SweepRow, CaseRows;
    if n > 0 {
      SweepRowsFresh(db, clock, n - 1);
      CaseRowsFresh(db, clock, n - 1);
    }
  }

  /** Every row the escalation sweep adds is a breach notice of priority 0 or a nag of priority 50 to an
      address of the case's company, due at once; no row is changed. */
  lemma SweepAdds(db: Db, clock: Clock, id: nat)
    requires SerialsOk(db.queue)
    ensures var before, after := db.queue.outbox, AfterEscalationSweep(db, clock).queue.outbox;
      && (id in before ==> id in after && after[id] == before[id])
      && (id in after && id !in before ==> SweepRow(db, clock, after[id]))
  {
    hide EnqueueAll, SweepRows, SweepRow, SerialsOk;
    BelowNext(db.queue);
    EnqueuedRows(db.queue, SweepRows(db.fleet.cases, db.accounts.users, clock, |db.fleet.cases|), id);
    SweepRowsFresh(db, clock, |db.fleet.cases|);
  }

  // ----- the reminder sweep -----

  /** A reminder of one sweep, every column. */
  predicate RemindRow(db: Db, clock: Clock, r: OutboxRow) {
    RemindedKey(db, clock, r.key) && IsFresh(r, db.fleet.deadlines[r.key.deadline].company, DeadlineReminder, 100, clock)
  }

  lemma DeadlineRowsFresh(db: Db, clock: Clock, d: nat)
    requires d < |db.fleet.deadlines|
    ensures forall r | r in DeadlineRows(d, db.fleet.deadlines[d], db.accounts.users, clock) :: RemindRow(db, clock, r)
  {
    hide BerlinDay, AddressesOf, Reminders.ReminderNotch, Reminders.Applies;
    var notch := Reminders.ReminderNotch(db.fleet.deadlines[d].dueOn, clock.today);
    if notch.Some? {
      Reminders.NotchExactly(db.fleet.deadlines[d].dueOn, clock.today, notch.value);
    }
  }

  lemma {:induction false} ReminderRowsFresh(db: Db, clock: Clock, n: nat)
    requires n <= |db.fleet.deadlines|
    ensures forall r | r in ReminderRows(db.fleet.deadlines, db.accounts.users, clock, n) :: RemindRow(db, clock, r)
  {
    hide RemindRow, DeadlineRows;
    if n > 0 {
      ReminderRowsFresh(db, clock, n - 1);
      DeadlineRowsFresh(db, clock, n - 1);
    }
  }

  /** Every row the reminder sweep adds is a reminder of priority 100 of an open deadline with a token of
      today, to an address of its company, due at once; no row is changed, and no other table. */
  lemma RemindAdds(db: Db, clock: Clock, id: nat)
    requires SerialsOk(db.queue)
    ensures var b, before, after := AfterReminderSweep(db, clock), db.queue.outbox, AfterReminderSweep(db, clock).queue.outbox;
      && b == db.(queue := b.queue)
      && (id in before ==> id in after && after[id] == before[id])
      && (id in after && id !in before ==> RemindRow(db, clock, after[id]))
  {
    hide EnqueueAll, ReminderRows, RemindRow, SerialsOk;
    BelowNext(db.queue);
    EnqueuedRows(db.queue, ReminderRows(db.fleet.deadlines, db.accounts.users, clock, |db.fleet.deadlines|), id);
    ReminderRowsFresh(db, clock, |db.fleet.deadlines|);
  }

  // ----- who is reminded -----

  /** After a reminder sweep the table holds, for every open deadline, the message of the token due today at
      every address of an active OWNER or MANAGER of its company. */
  lemma EveryoneReminded(db: Db, clock: Clock, d: nat, user: nat, to: Address, token: Token)
    requires SerialsOk(db.queue) && d < |db.fleet.deadlines| && db.fleet.deadlines[d].status == DeadlineOpen
    requires Reminders.Applies(db.fleet.deadlines[d].dueOn, clock.today, token)
    requires user < |db.accounts.users| && RouteSteps.ReachedBy(db.accounts.users[user], db.fleet.deadlines[d].company, to)
    ensures var after := AfterReminderSweep(db, clock).queue.outbox;
      exists id :: id in after && after[id].key == ReminderKey(d, token, to)
  {
    hide EnqueueAll, ReminderRows, SerialsOk, AddressesOf, RouteSteps.ReachedBy, Reminders.ReminderNotch,
         Reminders.Applies;
    var ds, users, key := db.fleet.deadlines, db.accounts.users, ReminderKey(d, token, to);
    RouteSteps.RecipientsExactly(users, ds[d].company, to);
    Reminders.NotchExactly(ds[d].dueOn, clock.today, token);
    assert DeadlineKey(d, ds[d], users, clock, key);
    ReminderRowsKey(ds, users, clock, |ds|, key);
    BelowNext(db.queue);
    EnqueueAllKeys(db.queue, ReminderRows(ds, users, clock, |ds|), key);
    assert KeyTaken(AfterReminderSweep(db, clock).queue.outbox, key);
  }

  /** An open deadline that is overdue is reminded of in every week it is swept: the token of today's ISO
      week exists, and its message is in the table for every recipient's address. */
  lemma OverdueReminded(db: Db, clock: Clock, d: nat, user: nat, to: Address) returns (year: int, week: int)
    requires SerialsOk(db.queue) && d < |db.fleet.deadlines| && db.fleet.deadlines[d].status == DeadlineOpen
    requires db.fleet.deadlines[d].dueOn < clock.today
    requires user < |db.accounts.users| && RouteSteps.ReachedBy(db.accounts.users[user], db.fleet.deadlines[d].company, to)
    ensures Reminders.FirstWeek(year) <= Reminders.WeekOf(clock.today) < Reminders.FirstWeek(year + 1)
    ensures week == Reminders.WeekOf(clock.today) - Reminders.FirstWeek(year) + 1
    ensures var after := AfterReminderSweep(db, clock).queue.outbox;
      exists id :: id in after && after[id].key == ReminderKey(d, OverdueWeek(year, week), to)
  {
    hide AfterReminderSweep, SerialsOk, RouteSteps.ReachedBy, Reminders.IsoYear, Reminders.IsoWeek, Reminders.WeekOf,
         Reminders.FirstWeek;
    year, week := Reminders.IsoYear(clock.today), Reminders.IsoWeek(clock.today);
    Reminders.WeekNumber(clock.today, year, week);
    EveryoneReminded(db, clock, d, user, to, OverdueWeek(year, week));
  }
}
