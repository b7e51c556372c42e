/** app/jobs/sweeps.py: the daily escalation and reminder sweeps. Both only enqueue outbox rows. */
module Sweeps {
  import opened Wrappers
  import opened Records
  import opened Outbox
  import Reminders

  // ----- specification: the escalation sweep -----

  /** An open case past its deadline is breached; otherwise it is nagged once per calendar day. */
  function SweptCase(c: EscalationCase, clock: Clock): EscalationCase {
    if c.status != CaseOpen then c
    else if clock.now > c.deadlineAt then c.(status := Breached)
    else c.(lastNagOn := Some(clock.today))
  }

  function BreachRow(id: nat, company: nat, clock: Clock): Address -> OutboxRow {
    (to: Address) => NewRow(company, EscalationBreached, 0, BreachKey(id, to), clock)
  }

  function NagRow(id: nat, company: nat, clock: Clock): Address -> OutboxRow {
    (to: Address) => NewRow(company, EscalationNag, 50, NagKey(id, clock.today, to), clock)
  }

  function CaseRows(id: nat, c: EscalationCase, users: seq<User>, clock: Clock): seq<OutboxRow> {
    if c.status != CaseOpen then []
    else if clock.now > c.deadlineAt then RowsFor(AddressesOf(users, c.company), BreachRow(id, c.company, clock))
    else if c.lastNagOn != Some(clock.today) then RowsFor(AddressesOf(users, c.company), NagRow(id, c.company, clock))
    else []
  }

  function SweepRows(cases: seq<EscalationCase>, users: seq<User>, clock: Clock, n: nat): seq<OutboxRow>
    requires n <= |cases|
  {
    if n == 0 then [] else SweepRows(cases, users, clock, n - 1) + CaseRows(n - 1, cases[n - 1], users, clock)
  }

  function SweptCases(cases: seq<EscalationCase>, clock: Clock): (r: seq<EscalationCase>)
    ensures |r| == |cases|
    ensures forall i | 0 <= i < |cases| :: r[i] == SweptCase(cases[i], clock)
  {
    seq(|cases|, i requires 0 <= i < |cases| => SweptCase(cases[i], clock))
  }

  function AfterEscalationSweep(db: Db, clock: Clock): Db {
    var cases := db.fleet.cases;
    db.(fleet := db.fleet.(cases := SweptCases(cases, clock)),
        queue := EnqueueAll(db.queue, SweepRows(cases, db.accounts.users, clock, |cases|)))
  }

  // ----- specification: the reminder sweep -----

  function ReminderRow(id: nat, company: nat, token: Token, clock: Clock): Address -> OutboxRow {
    (to: Address) => NewRow(company, DeadlineReminder, 100, ReminderKey(id, token, to), clock)
  }

  function DeadlineRows(id: nat, d: Deadline, users: seq<User>, clock: Clock): seq<OutboxRow> {
    var token := Reminders.ReminderNotch(d.dueOn, clock.today);
    if d.status == DeadlineOpen && token.Some?
    then RowsFor(AddressesOf(users, d.company), ReminderRow(id, d.company, token.value, clock)) else []
  }

  function ReminderRows(deadlines: seq<Deadline>, users: seq<User>, clock: Clock, n: nat): seq<OutboxRow>
    requires n <= |deadlines|
  {
    if n == 0 then [] else ReminderRows(deadlines, users, clock, n - 1) + DeadlineRows(n - 1, deadlines[n - 1], users, clock)
  }

  function AfterReminderSweep(db: Db, clock: Clock): Db {
    var ds := db.fleet.deadlines;
    db.(queue := EnqueueAll(db.queue, ReminderRows(ds, db.accounts.users, clock, |ds|)))
  }

  // ----- the jobs -----

  /** The inner loops: one `_enqueue_unique` per recipient and channel. */
  method EnqueueEach(s: Session, recipients: seq<Recipient>, make: Address -> OutboxRow)
    modifies s`queue
    ensures s.queue == EnqueueAll(old(s.queue), RowsFor(Addresses(recipients), make))
  {
    for i := 0 to |recipients|
      invariant s.queue == EnqueueAll(old(s.queue), RowsFor(Addresses(recipients[..i]), make))
    {
      var list := ChannelList(recipients[i]);
      EnqueueChannels(s, list, make);
      var before := Addresses(recipients[..i]);
      EnqueueConcat(old(s.queue), RowsFor(before, make), RowsFor(list, make));
      assert recipients[..i + 1][..i] == recipients[..i];
      assert RowsFor(before, make) + RowsFor(list, make) == RowsFor(before + list, make);
    }
    assert recipients[..|recipients|] == recipients;
  }

  method EnqueueChannels(s: Session, list: seq<Address>, make: Address -> OutboxRow)
    modifies s`queue
    ensures s.queue == EnqueueAll(old(s.queue), RowsFor(list, make))
  {
    for j := 0 to |list|
      invariant s.queue == EnqueueAll(old(s.queue), RowsFor(list[..j], make))
    {
      var row := make(list[j]);
      if !KeyTaken(s.queue.outbox, row.key) {
        s.queue := s.queue.(outbox := s.queue.outbox[s.queue.nextRow := row], nextRow := s.queue.nextRow + 1);
      }
      var rows := RowsFor(list[..j + 1], make);
      assert rows[..j] == RowsFor(list[..j], make);
    }
    assert list[..|list|] == list;
  }

  method SweepEscalations(s: Session, clock: Clock)
    modifies s
    ensures s.State() == AfterEscalationSweep(old(s.State()), clock)
  {
    var cases := s.fleet.cases;
    for i := 0 to |cases|
      invariant s.accounts == old(s.accounts) && s.alerts == old(s.alerts)
      invariant s.fleet == old(s.fleet).(cases := s.fleet.cases) && |s.fleet.cases| == |cases|
      invariant forall k :: 0 <= k < i ==> s.fleet.cases[k] == SweptCase(cases[k], clock)
      invariant forall k :: i <= k < |cases| ==> s.fleet.cases[k] == cases[k]
      invariant s.queue == EnqueueAll(old(s.queue), SweepRows(cases, s.accounts.users, clock, i))
    {
      hide AddressesOf, EnqueueAll, EnqueueUnique, Channels;
      ghost var before := s.queue;
      SweepCase(s, i, clock);
      EnqueueConcat(old(s.queue), SweepRows(cases, s.accounts.users, clock, i), CaseRows(i, cases[i], s.accounts.users, clock));
    }
    assert s.fleet.cases == SweptCases(cases, clock);
  }

  method SweepCase(s: Session, i: nat, clock: Clock)
    requires i < |s.fleet.cases|
    modifies s
    ensures s.State() == old(s.State()).(fleet := old(s.fleet).(cases := old(s.fleet.cases)[i := SweptCase(old(s.fleet.cases)[i], clock)]),
                                         queue := EnqueueAll(old(s.queue), CaseRows(i, old(s.fleet.cases)[i], s.accounts.users, clock)))
  {
    hide EnqueueUnique, Addresses, ResolveRecipients;
    var c := s.fleet.cases[i];
    if c.status == CaseOpen {
      var recipients := ResolveRecipients(s.accounts.users, c.company);
      if clock.now > c.deadlineAt {
        s.fleet := s.fleet.(cases := s.fleet.cases[i := c.(status := Breached)]);
        EnqueueEach(s, recipients, BreachRow(i, c.company, clock));
      } else if c.lastNagOn != Some(clock.today) {
        s.fleet := s.fleet.(cases := s.fleet.cases[i := c.(lastNagOn := Some(clock.today))]);
        EnqueueEach(s, recipients, NagRow(i, c.company, clock));
      }
    }
  }

  method SendReminders(s: Session, clock: Clock)
    modifies s`queue
    ensures s.State() == AfterReminderSweep(old(s.State()), clock)
  {
    hide AddressesOf, EnqueueUnique, Reminders.ReminderNotch, Addresses, ResolveRecipients, DeadlineRows;
    var ds := s.fleet.deadlines;
    var users := s.accounts.users;
    for i := 0 to |ds|
      invariant s.queue == EnqueueAll(old(s.queue), ReminderRows(ds, users, clock, i))
    {
      RemindDeadline(s, i, clock);
      EnqueueConcat(old(s.queue), ReminderRows(ds, users, clock, i), DeadlineRows(i, ds[i], users, clock));
    }
  }

  method RemindDeadline(s: Session, i: nat, clock: Clock)
    requires i < |s.fleet.deadlines|
    modifies s`queue
    ensures s.queue == EnqueueAll(old(s.queue), DeadlineRows(i, s.fleet.deadlines[i], s.accounts.users, clock))
  {
    hide EnqueueUnique, Reminders.ReminderNotch, Addresses, ResolveRecipients;
    var d := s.fleet.deadlines[i];
    if d.status == DeadlineOpen {
      var token := Reminders.ReminderNotch(d.dueOn, clock.today);
      if token.None? {
        return;
      }
      var recipients := ResolveRecipients(s.accounts.users, d.company);
      EnqueueEach(s, recipients, ReminderRow(i, d.company, token.value, clock));
    }
  }
}
