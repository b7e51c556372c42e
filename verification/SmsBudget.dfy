/** The monthly SMS budget over whole runs with a single relay: how far the cap can be overshot, and how
    often it is announced. */
module SmsBudget {
  import Wrappers
  import opened Calendar
  import opened BerlinTime
  import opened Records
  import Outbox
  import opened AccountServices
  import opened Dsgvo
  import Sweeps
  import opened Evidence
  import opened QueueInvariant
  import opened Relay
  import RelayProgress
  import opened SmsQuota
  import opened Routes
  import opened DatabaseInvariant
  import DatabaseSteps
  import opened FleetSystem
  import opened QuietSteps
  import opened SystemInvariant
  import CycleSteps
  import opened SystemRuns
  import opened StepHistory
  import RunHistory
  import E6

  /** At most one relay cycle is open. */
  predicate SingleRelay(w: World) {
    forall c, d | c in w.cycles && d in w.cycles :: c == d
  }

  /** A non-critical SMS the provider really took in a month. */
  predicate IsReal(r: OutboxRow, company: nat, month: int) {
    && r.company == company && r.Via() == SMS && !Critical(r.template)
    && r.sentAt.Some? && r.receipt.Some? && r.receipt.value.Delivered? && MonthAt(r.sentAt.value) == month
  }

  function Real(rows: map<nat, OutboxRow>, company: nat, month: int): set<nat> {
    set id | id in rows && IsReal(rows[id], company, month)
  }

  function Overshoot(cap: nat): nat {
    if cap == 0 then 0 else cap + BATCH_SIZE - 1
  }

  /** What is counted: the rows on record, or all rows ever committed. */
  function Counted(q: Queue, ever: bool): map<nat, OutboxRow> {
    if ever then Rows(q) else q.outbox
  }

  /** The budget of one company and month: the committed rows within the overshoot, and while the open
      batch holds a real one, the committed ones below the cap. */
  predicate BudgetOk(cap: nat, ever: bool, w: World, company: nat, month: int) {
    var sent := |Real(Counted(w.db.queue, ever), company, month)|;
    && sent <= Overshoot(cap)
    && forall c | c in w.cycles :: Real(w.cycles[c].staged, company, month) != {} ==> sent < cap
  }

  /** No row is removed from the table in the month it was sent, unless its company is erased. */
  predicate RemovedLater(companies: seq<Company>, month: int, r: OutboxRow) {
    r.sentAt.Some? ==> Deleted(companies, r.company) || MonthAt(r.sentAt.value) < month
  }

  ghost predicate RemovalsOk(w: World) {
    forall id | id in w.db.queue.archive ::
      RemovedLater(w.db.accounts.companies, MonthAt(w.clock.now), w.db.queue.archive[id])
  }

  predicate SameAnnouncement(a: Alert, b: Alert) {
    a.code == SmsCapExceeded && b.code == SmsCapExceeded && a.company == b.company && MonthAt(a.createdAt) == MonthAt(b.createdAt)
  }

  /** At most one announcement per company and month. */
  predicate AnnouncedOnce(alerts: seq<Alert>) {
    forall i, j | 0 <= i < j < |alerts| :: !SameAnnouncement(alerts[i], alerts[j])
  }

  predicate NoAnnouncement(alerts: seq<Alert>) {
    forall i | 0 <= i < |alerts| :: alerts[i].code != SmsCapExceeded
  }

  ghost predicate BudgetInv(cap: nat, ever: bool, w: World) {
    && SingleRelay(w)
    && (ever ==> RemovalsOk(w))
    && (forall company: nat, month: int :: BudgetOk(cap, ever, w, company, month))
    && AnnouncedOnce(w.db.alerts)
    && (forall c | c in w.cycles :: NoAnnouncement(w.cycles[c].raised))
  }

  // ----- announcements -----

  lemma PlainAlerts(alerts: seq<Alert>, more: seq<Alert>)
    requires AnnouncedOnce(alerts) && NoAnnouncement(more)
    ensures AnnouncedOnce(alerts + more)
  {
  }

  lemma SkipAnnouncesOnce(alerts: seq<Alert>, company: nat, asked: Instant, at: Instant)
    requires AnnouncedOnce(alerts) && asked <= at
    ensures AnnouncedOnce(AfterSkip(alerts, company, asked, at))
  {
    hide MonthStartInstant, MonthAt;
    var since := MonthStartInstant(asked);
    var more := AfterSkip(alerts, company, asked, at);
    if more != alerts {
      MonthMonotone(asked, at);
      forall i | 0 <= i < |alerts|
        ensures !SameAnnouncement(alerts[i], more[|alerts|])
      {
        MonthWindow(asked, alerts[i].createdAt);
        assert !IsCapAlert(alerts[i], company, since);
      }
    }
  }

  predicate PlainGrown(a: seq<Alert>, b: seq<Alert>) {
    |a| <= |b| && b[..|a|] == a && NoAnnouncement(b[|a|..])
  }

  lemma SamePlain(a: seq<Alert>)
    ensures PlainGrown(a, a)
  {
  }

  lemma OnePlain(a: seq<Alert>, x: Alert)
    requires x.code != SmsCapExceeded
    ensures PlainGrown(a, a + [x])
  {
  }

  lemma FailedPlain(sha: Digest, db: Db, company: nat, driver: nat, day: Day, uuid: nat, clock: Clock)
    requires driver < |db.fleet.drivers|
    ensures PlainGrown(db.alerts, FailedCheck(sha, db, company, driver, day, uuid, clock).db.alerts)
  {
    hide PlainGrown, Recorded, Outbox.AddressesOf, Outbox.Collides, E6.OpenCase, Outbox.Append, E6.Messages,
         EscalationDeadline;
    SamePlain(db.alerts);
    OnePlain(db.alerts, E6.LockAlert(company, driver, |db.fleet.cases|, clock));
  }

  lemma RequestPlain(sha: Digest, db: Db, caller: User, event: Event, clock: Clock)
    ensures PlainGrown(db.alerts, Requested(sha, db, caller, event, clock).alerts)
  {
    hide PlainGrown, FailedCheck, PassedCheck, VehicleCheck, AfterInvite, AfterDeletionRequest, Anonymized,
         CreatedDriver, CreatedVehicle;
    SamePlain(db.alerts);
    match event {
      case AddDriver(_, first, last, start) => DriverTables(db, caller, first, last, start, clock);
      case AddVehicle(_, plate, interval, registered) => VehicleTables(db, caller, plate, interval, registered, clock);
      case CheckDriver(_, driver, result, performedOn, uuid) =>
        if Visible(db.fleet, caller.company, driver) {
          FailedPlain(sha, db, caller.company, driver, OrToday(performedOn, clock), uuid, clock);
          PassedTables(sha, db, caller.company, driver, OrToday(performedOn, clock), uuid, clock);
        }
      case CheckVehicle(_, vehicle, kind, result, performedOn, uuid) =>
        VehicleCheckTables(sha, db, caller, vehicle, kind, result, performedOn, uuid, clock);
      case _ =>
    }
  }

  lemma TransactedPlain(sha: Digest, w: World, today: Day, s: Step)
    requires QueueInv(w.db, today) && Enabled(w, s)
    ensures PlainGrown(w.db.alerts, Transacted(sha, w, s.event, s.clock).alerts)
  {
    hide PlainGrown, QueueInv, Requested, SignedUp, AfterRead, AfterLogin, Outbox.EnqueueAll, Sweeps.SweepRows,
         Sweeps.ReminderRows, Purged, Pruned, AfterTombstones, LockedRows, Removed, BerlinDay, IsBatch,
         RecordsInOrder, Caller;
    SamePlain(w.db.alerts);
    if IsRequest(s.event) {
      if Admitted(w.db.accounts, s.event.sid, s.clock.now) {
        RequestPlain(sha, w.db, Caller(w.db.accounts, s.event.sid), s.event, s.clock);
      }
    } else if s.event.Tombstone? {
      TombstonesAlerts(w.db, s.clock.now, |w.db.accounts.companies|);
    }
  }

  lemma {:induction false} TombstonesAlerts(db: Db, now: Instant, n: nat)
    requires n <= |db.accounts.companies|
    ensures AfterTombstones(db, now, n).alerts == db.alerts
  {
    hide DueForDeletion, ErasedAccounts, TombstonedDrivers, Without;
    if n > 0 {
      TombstonesAlerts(db, now, n - 1);
    }
  }

  // ----- requests and jobs spend nothing -----

  lemma QuietReal(q: Queue, p: Queue, locked: set<nat>, ever: bool, company: nat, month: int)
    requires QuietRows(q, p, locked) && SerialsOk(q) && SerialsOk(p)
    ensures |Real(Counted(p, ever), company, month)| <= |Real(Counted(q, ever), company, month)|
  {
    hide MonthAt, Critical;
    var after, before := Real(Counted(p, ever), company, month), Real(Counted(q, ever), company, month);
    forall id | id in after
      ensures id in before
    {
      assert id in Rows(p) && Rows(p)[id] == Counted(p, ever)[id];
    }
    SubsetCount(after, before);
  }

  lemma SubsetCount(a: set<nat>, b: set<nat>)
    requires a <= b
    ensures |a| <= |b|
  {
    assert b == a + (b - a);
  }

  /** The condition on a prune: it removes nothing that was sent in the month it runs in. */
  ghost predicate PrunesLater(w: World, s: Step) {
    s.event.Prune? ==> forall id | id in w.db.queue.outbox && id in Removed(w.db.queue, Pruned(w.db.queue, s.clock)) ::
      RemovedLater(w.db.accounts.companies, MonthAt(s.clock.now), w.db.queue.outbox[id])
  }

  lemma StillLater(a: seq<Company>, b: seq<Company>, month: int, later: int, r: OutboxRow)
    requires RemovedLater(a, month, r) && ErasureStays(a, b) && month <= later
    ensures RemovedLater(b, later, r)
  {
    hide MonthAt;
  }

  /** Where a row of the archive comes from. */
  lemma ArchiveSource(q: Queue, p: Queue, locked: set<nat>, id: nat)
    requires QuietRows(q, p, locked) && SerialsOk(q) && SerialsOk(p) && id in p.archive
    ensures || (id in q.archive && p.archive[id] == q.archive[id])
            || (id in Removed(q, p) && p.archive[id] == q.outbox[id] && id !in locked)
            || FreshRow(p.archive[id])
  {
    hide FreshRow;
    assert Rows(p)[id] == p.archive[id];
  }

  lemma TransactRemovals(sha: Digest, w: World, s: Step)
    requires Inv(sha, w) && Enabled(w, s) && RemovalsOk(w) && PrunesLater(w, s)
    requires DbInv(sha, Transacted(sha, w, s.event, s.clock), s.clock.today)
    ensures RemovalsOk(w.(clock := s.clock, db := Transacted(sha, w, s.event, s.clock)))
  {
    hide Inv, DbInv, QueueInv, Enabled, Transacted, QuietRows, QuietAlerts, SerialsOk, RemovedLater, MonthAt,
         PrunesLater, AccountInv, Removed, Pruned, AfterTombstones, ErasureStays;
    var b := Transacted(sha, w, s.event, s.clock);
    var deletes := s.event.Prune? || s.event.Tombstone?;
    InvParts(sha, w);
    EnabledClock(w, s);
    DatabaseSteps.DbParts(sha, b, s.clock.today);
    SerialsIn(b, s.clock.today);
    QuietTowards(sha, w, w.clock.today, s, if deletes then {} else w.db.queue.outbox.Keys);
    TransactedErasure(sha, w, s);
    MonthMonotone(w.clock.now, s.clock.now);
    forall id | id in b.queue.archive
      ensures RemovedLater(b.accounts.companies, MonthAt(s.clock.now), b.queue.archive[id])
    {
      RemovalAt(sha, w, s, deletes, id);
    }
  }

  lemma RemovalAt(sha: Digest, w: World, s: Step, deletes: bool, id: nat)
    requires deletes == (s.event.Prune? || s.event.Tombstone?) && RemovalsOk(w) && PrunesLater(w, s)
    requires MonthAt(w.clock.now) <= MonthAt(s.clock.now)
    requires var b := Transacted(sha, w, s.event, s.clock);
      && SerialsOk(w.db.queue) && SerialsOk(b.queue) && ErasureStays(w.db.accounts.companies, b.accounts.companies)
      && QuietRows(w.db.queue, b.queue, if deletes then {} else w.db.queue.outbox.Keys) && id in b.queue.archive
    ensures var b := Transacted(sha, w, s.event, s.clock);
      RemovedLater(b.accounts.companies, MonthAt(s.clock.now), b.queue.archive[id])
  {
    hide Transacted, QuietRows, SerialsOk, RemovedLater, FreshRow, MonthAt, PrunesLater, Removed, ErasureStays;
    var b := Transacted(sha, w, s.event, s.clock);
    var q, p, month := w.db.queue, b.queue, MonthAt(s.clock.now);
    ArchiveSource(q, p, if deletes then {} else q.outbox.Keys, id);
    GoneFromTable(q, p);
    if id in q.archive && p.archive[id] == q.archive[id] {
      StillLater(w.db.accounts.companies, b.accounts.companies, MonthAt(w.clock.now), month, q.archive[id]);
    } else if FreshRow(p.archive[id]) {
      FreshLater(b.accounts.companies, month, p.archive[id]);
    } else {
      RemovedHere(sha, w, s, id);
    }
  }

  lemma GoneFromTable(q: Queue, p: Queue)
    ensures Removed(q, p) <= q.outbox.Keys
  {
  }

  lemma SerialsIn(db: Db, today: Day)
    requires QueueInv(db, today)
    ensures SerialsOk(db.queue)
  {
  }

  lemma FreshLater(companies: seq<Company>, month: int, r: OutboxRow)
    requires FreshRow(r)
    ensures RemovedLater(companies, month, r)
  {
  }

  /** A row removed by a prune is covered by its condition, one removed by an erasure by its company. */
  lemma RemovedHere(sha: Digest, w: World, s: Step, id: nat)
    requires s.event.Prune? || s.event.Tombstone?
    requires PrunesLater(w, s) && id in Removed(w.db.queue, Transacted(sha, w, s.event, s.clock).queue)
    ensures var v := Transacted(sha, w, s.event, s.clock);
      id in w.db.queue.outbox && RemovedLater(v.accounts.companies, MonthAt(s.clock.now), w.db.queue.outbox[id])
  {
    hide Pruned, AfterTombstones, MonthAt, RemovedLater;
    if s.event.Tombstone? {
      TombstonesRemove(w.db, s.clock.now, |w.db.accounts.companies|, id);
      ErasedLater(AfterTombstones(w.db, s.clock.now, |w.db.accounts.companies|).accounts.companies, MonthAt(s.clock.now),
                  w.db.queue.outbox[id]);
    }
  }

  lemma ErasedLater(companies: seq<Company>, month: int, r: OutboxRow)
    requires Deleted(companies, r.company)
    ensures RemovedLater(companies, month, r)
  {
  }

  lemma {:induction false} TombstonesRemove(db: Db, now: Instant, n: nat, id: nat)
    requires n <= |db.accounts.companies| && id in db.queue.outbox
    ensures var end := AfterTombstones(db, now, n);
      if id in end.queue.outbox then end.queue.outbox[id] == db.queue.outbox[id]
      else Deleted(end.accounts.companies, db.queue.outbox[id].company)
  {
    hide DueForDeletion, ErasedUsers, RevokedSessions, ClosedInvitations, TombstonedDrivers;
    if n > 0 {
      TombstonesRemove(db, now, n - 1, id);
    }
  }

  lemma TransactBudget(sha: Digest, cap: nat, ever: bool, w: World, s: Step)
    requires Inv(sha, w) && Enabled(w, s) && BudgetInv(cap, ever, w) && (ever ==> PrunesLater(w, s))
    requires !s.event.Claim? && !s.event.SendRow? && !s.event.CommitCycle? && !s.event.AbortCycle?
    ensures BudgetInv(cap, ever, After(sha, cap, w, s))
  {
    hide Inv, DbInv, QueueInv, AccountInv, RelayInv, Transacted, LoginsAfter, ViewedAfter, LockedRows, QuietRows,
         SerialsOk, Real, Counted, NoAnnouncement, AnnouncedOnce, Enabled, QuietAlerts, RemovalsOk, PrunesLater;
    var v := After(sha, cap, w, s);
    InvParts(sha, w);
    TransactedQuiet(sha, w, w.clock.today, s);
    TransactedPlain(sha, w, w.clock.today, s);
    TransactStep(sha, cap, w, s);
    InvParts(sha, v);
    if ever {
      TransactRemovals(sha, w, s);
      SameRemovals(w.(clock := s.clock, db := Transacted(sha, w, s.event, s.clock)), v);
    }
    forall company: nat, month: int
      ensures BudgetOk(cap, ever, v, company, month)
    {
      assert BudgetOk(cap, ever, w, company, month);
      QuietReal(w.db.queue, v.db.queue, LockedRows(w.cycles), ever, company, month);
    }
    PlainAlerts(w.db.alerts, v.db.alerts[|w.db.alerts|..]);
    assert v.db.alerts == w.db.alerts + v.db.alerts[|w.db.alerts|..];
  }

  lemma SameRemovals(w: World, v: World)
    requires RemovalsOk(w) && v.db.queue.archive == w.db.queue.archive
    requires v.db.accounts == w.db.accounts && w.clock.now <= v.clock.now
    ensures RemovalsOk(v)
  {
    hide MonthAt;
    MonthMonotone(w.clock.now, v.clock.now);
  }

  // ----- the relay -----

  /** A real send was let through the gate, so the committed ones of its month are below the cap. */
  lemma LetThrough(outbox: map<nat, OutboxRow>, r: OutboxRow, cap: nat, asked: Instant, now: Instant)
    requires asked <= now && r.Via() == SMS && !Critical(r.template) && !Gated(r, outbox, cap, asked)
    ensures |Real(outbox, r.company, MonthAt(now))| < cap
  {
    hide MonthAt, MonthStartInstant, Critical;
    MonthMonotone(asked, now);
    var sent := SentThisMonth(outbox, r.company, asked);
    forall id | id in Real(outbox, r.company, MonthAt(now))
      ensures id in sent
    {
      MonthWindow(asked, outbox[id].sentAt.value);
    }
    SubsetCount(Real(outbox, r.company, MonthAt(now)), sent);
  }

  lemma StagedReal(staged: map<nat, OutboxRow>, id: nat, row: OutboxRow, company: nat, month: int)
    requires id !in staged
    ensures Real(staged[id := row], company, month) == Real(staged, company, month) + if IsReal(row, company, month) then {id} else {}
  {
  }

  /** What the gate does not see no longer belongs to the month. */
  lemma GateSeesAll(q: Queue, ever: bool, companies: seq<Company>, company: nat, month: int)
    requires !Deleted(companies, company)
    requires ever ==> forall id | id in q.archive :: RemovedLater(companies, month, q.archive[id])
    ensures Real(Counted(q, ever), company, month) == Real(q.outbox, company, month)
  {
    hide MonthAt, Critical;
  }

  lemma SendBudgetAt(cap: nat, ever: bool, w: World, cycle: nat, asked: Instant, provider: Outcome, company: nat,
                     month: int)
    requires BudgetOk(cap, ever, w, company, month) && SingleRelay(w) && (ever ==> RemovalsOk(w))
    requires cycle in w.cycles && MaySend(w.cycles[cycle], w.db.queue.outbox) && asked <= w.clock.now
    requires w.cycles[cycle].batch[w.cycles[cycle].done] !in w.cycles[cycle].staged
    requires var r := w.db.queue.outbox[w.cycles[cycle].batch[w.cycles[cycle].done]];
      IsPending(r) && !Deleted(w.db.accounts.companies, r.company)
    ensures BudgetOk(cap, ever, Sent(w, cycle, cap, asked, provider, w.clock.now), company, month)
  {
    hide MonthAt, MonthStartInstant, Critical, Real, Counted, AfterSkip, Raises, Bumped, FailedRow, Gated,
         RemovedLater;
    var outbox, id := w.db.queue.outbox, w.cycles[cycle].batch[w.cycles[cycle].done];
    var r, now := outbox[id], w.clock.now;
    var row := Deliver(r, Reply(Answer(r, outbox, cap, asked, provider), now));
    StagedReal(w.cycles[cycle].staged, id, row, company, month);
    CycleSteps.FailedStaysUnsent(r, now);
    if IsReal(row, company, month) {
      assert !Gated(r, outbox, cap, asked);
      LetThrough(outbox, r, cap, asked, now);
      GateSeesAll(w.db.queue, ever, w.db.accounts.companies, company, month);
    }
  }

  lemma SendBudget(sha: Digest, cap: nat, ever: bool, w: World, cycle: nat, asked: Instant, provider: Outcome)
    requires Inv(sha, w) && BudgetInv(cap, ever, w)
    requires cycle in w.cycles && MaySend(w.cycles[cycle], w.db.queue.outbox) && asked <= w.clock.now
    ensures BudgetInv(cap, ever, Sent(w, cycle, cap, asked, provider, w.clock.now))
  {
    hide Inv, BudgetOk, MonthAt, MonthStartInstant, Gated, Deliver, AfterSkip, Bumped, AnnouncedOnce, RemovedLater;
    var v := Sent(w, cycle, cap, asked, provider, w.clock.now);
    var c, outbox := w.cycles[cycle], w.db.queue.outbox;
    var r := outbox[c.batch[c.done]];
    HeldRow(sha, w, cycle);
    NotStagedYet(sha, w, cycle);
    NotErased(sha, w, c.batch[c.done]);
    forall company: nat, month: int
      ensures BudgetOk(cap, ever, v, company, month)
    {
      assert BudgetOk(cap, ever, w, company, month);
      SendBudgetAt(cap, ever, w, cycle, asked, provider, company, month);
    }
    SkipAnnouncesOnce(w.db.alerts, r.company, asked, w.clock.now);
  }

  lemma NotStagedYet(sha: Digest, w: World, cycle: nat)
    requires Inv(sha, w) && cycle in w.cycles && MaySend(w.cycles[cycle], w.db.queue.outbox)
    ensures w.cycles[cycle].batch[w.cycles[cycle].done] !in w.cycles[cycle].staged
  {
    hide Inv, RelayInv, DbInv, QueueInv, StagedOk, Undeliverable, Dead, DeadLettersOk, LoginsOk, AccountInv;
    InvParts(sha, w);
    CycleAt(w, cycle);
  }

  lemma NotErased(sha: Digest, w: World, id: nat)
    requires Inv(sha, w) && id in w.db.queue.outbox
    ensures !Deleted(w.db.accounts.companies, w.db.queue.outbox[id].company)
  {
    hide Inv, RelayInv, DbInv, SerialsOk, KeysUnique, DeliveryOk, StampOk, KeyOk, ArchivedOk, Deleted, AccountInv;
    InvParts(sha, w);
  }

  lemma BatchReal(staged: map<nat, OutboxRow>, company: nat, month: int, batch: seq<nat>, n: nat)
    requires n <= |batch| && Wrappers.Distinct(batch) && forall id | id in staged :: id in batch[..n]
    ensures |Real(staged, company, month)| <= n
  {
    hide IsReal;
    assert Wrappers.Distinct(batch[..n]);
    RelayProgress.DistinctCount(batch[..n]);
    SubsetCount(Real(staged, company, month), RelayProgress.Elements(batch[..n]));
  }

  lemma CommittedReal(outbox: map<nat, OutboxRow>, staged: map<nat, OutboxRow>, company: nat, month: int)
    ensures |Real(outbox + staged, company, month)| <= |Real(outbox, company, month)| + |Real(staged, company, month)|
  {
    hide IsReal;
    var a, b := Real(outbox, company, month), Real(staged, company, month);
    SubsetCount(Real(outbox + staged, company, month), a + b);
    assert a + b == a + (b - a);
    SubsetCount(b - a, b);
  }

  lemma CommitBudget(sha: Digest, cap: nat, ever: bool, w: World, cycle: nat)
    requires Inv(sha, w) && BudgetInv(cap, ever, w) && cycle in w.cycles
    ensures BudgetInv(cap, ever, w.(db := Commit(w.db, w.cycles[cycle]), cycles := w.cycles - {cycle}))
  {
    hide Inv, Real, RelayInv, DbInv, QueueInv, SerialsOk, AnnouncedOnce, NoAnnouncement, Undeliverable, Dead,
         StagedOk, DeadLettersOk, LoginsOk, AccountInv;
    var c := w.cycles[cycle];
    var v := w.(db := Commit(w.db, c), cycles := w.cycles - {cycle});
    InvParts(sha, w);
    CycleAt(w, cycle);
    CycleSteps.StagedKeys(w, cycle);
    CycleSteps.CommittedRows(w.db.queue, c.staged);
    forall company: nat, month: int
      ensures BudgetOk(cap, ever, v, company, month)
    {
      assert BudgetOk(cap, ever, w, company, month);
      CommittedReal(Counted(w.db.queue, ever), c.staged, company, month);
      BatchReal(c.staged, company, month, c.batch, c.done);
    }
    PlainAlerts(w.db.alerts, c.raised);
  }

  lemma ClaimBudget(cap: nat, ever: bool, w: World, v: World, cycle: nat, batch: seq<nat>)
    requires BudgetInv(cap, ever, w) && SingleRelay(v) && cycle !in w.cycles
    requires v == w.(clock := v.clock, cycles := w.cycles[cycle := Claimed(batch)]) && w.clock.now <= v.clock.now
    ensures BudgetInv(cap, ever, v)
  {
    hide AnnouncedOnce, IsReal, Counted, RemovalsOk;
    if ever {
      SameRemovals(w, v);
    }
    forall company: nat, month: int
      ensures BudgetOk(cap, ever, v, company, month)
    {
      assert BudgetOk(cap, ever, w, company, month);
    }
  }

  lemma AbortBudget(cap: nat, ever: bool, w: World, v: World, cycle: nat)
    requires BudgetInv(cap, ever, w) && v.db == w.db && v.clock == w.clock && v.cycles == w.cycles - {cycle}
    ensures BudgetInv(cap, ever, v)
  {
    hide AnnouncedOnce, IsReal, NoAnnouncement, Real, Counted, RemovedLater;
    forall company: nat, month: int
      ensures BudgetOk(cap, ever, v, company, month)
    {
      assert BudgetOk(cap, ever, w, company, month);
    }
  }

  lemma TickBudget(cap: nat, ever: bool, w: World, clock: Clock)
    requires BudgetInv(cap, ever, w) && w.clock.now <= clock.now
    ensures BudgetInv(cap, ever, w.(clock := clock))
  {
    hide AnnouncedOnce, Real, NoAnnouncement, Counted, RemovalsOk;
    if ever {
      SameRemovals(w, w.(clock := clock));
    }
    forall company: nat, month: int
      ensures BudgetOk(cap, ever, w.(clock := clock), company, month)
    {
      assert BudgetOk(cap, ever, w, company, month);
    }
  }

  lemma StepBudget(sha: Digest, cap: nat, ever: bool, w: World, s: Step)
    requires Inv(sha, w) && Enabled(w, s) && BudgetInv(cap, ever, w) && SingleRelay(After(sha, cap, w, s))
    requires ever ==> PrunesLater(w, s)
    ensures BudgetInv(cap, ever, After(sha, cap, w, s))
  {
    hide Inv, BudgetInv, PrunesLater, Transacted, LoginsAfter, ViewedAfter, RecordsInOrder, Removed, LockedRows,
         BerlinDay, IsBatch, Bumped, AfterTombstones, Pruned;
    EnabledClock(w, s);
    ClockMoves(sha, w, s.clock);
    TickBudget(cap, ever, w, s.clock);
    var u, v := w.(clock := s.clock), After(sha, cap, w, s);
    match s.event {
      case Claim(cycle, batch) => ClaimBudget(cap, ever, w, v, cycle, batch);
      case SendRow(cycle, asked, provider) => SendBudget(sha, cap, ever, u, cycle, asked, provider);
      case CommitCycle(cycle) => CommitBudget(sha, cap, ever, u, cycle);
      case AbortCycle(cycle) => AbortBudget(cap, ever, u, v, cycle);
      case _ => TransactBudget(sha, cap, ever, w, s);
    }
  }

  /** With one relay, in every world of a run the non-critical SMS a company has on record as really sent
      in a Berlin month are at most cap + 49, none when the cap is 0, and the cap was announced to a
      company at most once a month. The bound holds of all rows ever committed (`ever`) if no prune
      removes a row in the month it was sent. */
  lemma {:induction false} SmsBudgetHolds(sha: Digest, cap: nat, ever: bool, worlds: seq<World>, steps: seq<Step>,
                                          n: nat, company: nat, month: int)
    requires Run(sha, cap, worlds, steps) && Inv(sha, worlds[0]) && BudgetInv(cap, ever, worlds[0]) && n < |worlds|
    requires forall i | 0 <= i < |worlds| :: SingleRelay(worlds[i])
    requires |worlds| == |steps| + 1 && (ever ==> forall i | 0 <= i < |steps| :: PrunesLater(worlds[i], steps[i]))
    ensures BudgetInv(cap, ever, worlds[n])
    ensures |Real(Counted(worlds[n].db.queue, ever), company, month)| <= if cap == 0 then 0 else cap + 49
    ensures AnnouncedOnce(worlds[n].db.alerts)
    decreases n
  {
    hide Inv, Run, Enabled, After, Real, Counted, AnnouncedOnce, NoAnnouncement, PrunesLater, RemovalsOk;
    if n > 0 {
      SmsBudgetHolds(sha, cap, ever, worlds, steps, n - 1, company, month);
      RunHistory.StepOf(sha, cap, worlds, steps, n - 1);
      StepBudget(sha, cap, ever, worlds[n - 1], steps[n - 1]);
    }
    assert BudgetOk(cap, ever, worlds[n], company, month);
  }

  /** The empty system is within budget. */
  lemma EmptyBudget(cap: nat, ever: bool, clock: Clock)
    ensures BudgetInv(cap, ever, EmptyWorld(clock)) && SingleRelay(EmptyWorld(clock))
  {
  }
}
