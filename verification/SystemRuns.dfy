/** The invariant holds in every world of every run. */
module SystemRuns {
  import opened Wrappers
  import opened Calendar
  import opened BerlinTime
  import opened Records
  import opened AccountServices
  import opened Evidence
  import opened FleetInvariant
  import opened QueueInvariant
  import QueueSteps
  import opened Relay
  import opened SmsQuota
  import RouteSteps
  import Dsgvo
  import opened DatabaseInvariant
  import DatabaseSteps
  import OutboxSteps
  import opened FleetSystem
  import opened QuietSteps
  import opened SystemInvariant
  import opened RelaySteps
  import opened CycleSteps
  import Ledger

  lemma InvParts(sha: Digest, w: World)
    requires Inv(sha, w)
    ensures w.clock.Valid() && DbInv(sha, w.db, w.clock.today) && RelayInv(w) && DeadLettersOk(w.db) && LoginsOk(w)
    ensures QueueInv(w.db, w.clock.today) && SerialsOk(w.db.queue) && RowsOk(w.db.queue) && AccountInv(w.db.accounts)
  {
    hide RelayInv, DeadLettersOk, LoginsOk, AccountInv, LockInv, LedgerInv, ChainsOk, QueueSteps.TimesInv, ToldInv,
         CompaniesOk;
  }

  lemma InvWhole(sha: Digest, w: World)
    requires w.clock.Valid() && DbInv(sha, w.db, w.clock.today) && RelayInv(w) && DeadLettersOk(w.db) && LoginsOk(w)
    ensures Inv(sha, w)
  {
  }

  // ----- alerts -----

  /** Only the lock invariant reads the alerts, and it survives more of them. */
  lemma MoreAlerts(sha: Digest, db: Db, more: seq<Alert>, today: Day)
    requires DbInv(sha, db, today)
    ensures DbInv(sha, db.(alerts := db.alerts + more), today)
  {
    hide AccountInv, LockInv, LedgerInv, ChainsOk, QueueInv, RowsOk, QueueSteps.TimesInv, ToldInv, CompaniesOk;
    var b := db.(alerts := db.alerts + more);
    AlertsGrow(db.fleet, db.alerts, more);
    RouteSteps.SameKeys(db.fleet, db.fleet);
    RouteSteps.SameCompanyTable(db.accounts.companies);
    QueueFrame(db, b, today, today);
    PersistRefl(db.queue);
    SameStoriesRefl(db.fleet.cases);
    ToldFrame(db, b);
    DatabaseSteps.CompaniesFrame(db, b);
  }

  lemma SkipAlerts(alerts: seq<Alert>, company: nat, asked: Instant, at: Instant)
    ensures exists more: seq<Alert> :: AfterSkip(alerts, company, asked, at) == alerts + more
    ensures QuietAlerts(alerts, AfterSkip(alerts, company, asked, at))
  {
    hide CapAlerted, MonthStartInstant;
    var alert := Alert(company, WARNING, SmsCapExceeded, None, None, at);
    assert alerts == alerts + [];
    AlertQuiet(alerts, alert);
  }

  // ----- each kind of step -----

  lemma TransactStep(sha: Digest, cap: nat, w: World, s: Step)
    requires Inv(sha, w) && Enabled(w, s)
    requires !s.event.Claim? && !s.event.SendRow? && !s.event.CommitCycle? && !s.event.AbortCycle?
    ensures Inv(sha, After(sha, cap, w, s))
  {
    hide Inv, DbInv, RelayInv, DeadLettersOk, LoginsOk, Quiet, Transacted, LoginsAfter, QueueInv, AccountInv, Enabled,
         LockedRows, LoginOk;
    var v := After(sha, cap, w, s);
    InvParts(sha, w);
    EnabledClock(w, s);
    TransactedKeepsDb(sha, w, s);
    TransactedQuiet(sha, w, w.clock.today, s);
    assert QuietRows(w.db.queue, v.db.queue, LockedRows(w.cycles)) by { QuietParts(w.db, v.db, LockedRows(w.cycles)); }
    QuietRelay(w, v);
    QuietDeadLetters(w.db, v.db, LockedRows(w.cycles));
    LoginsStep(sha, w, s);
    assert LoginsOk(v) by { LoginsFrom(v); }
    InvWhole(sha, v);
  }

  lemma LoginsFrom(v: World)
    requires forall l | 0 <= l < |v.logins| :: LoginOk(v.db.accounts.users, v.logins[l])
    ensures LoginsOk(v)
  {
  }

  lemma EnabledClock(w: World, s: Step)
    requires Enabled(w, s)
    ensures w.clock.now <= s.clock.now && s.clock.Valid()
  {
    hide RecordsInOrder, RouteSteps.NamesVehicle, Removed, LockedRows, IsBatch, MaySend, Dsgvo.Pruned,
         Dsgvo.AfterTombstones, BerlinDay;
  }

  lemma QuietParts(a: Db, b: Db, locked: set<nat>)
    requires Quiet(a, b, locked)
    ensures QuietRows(a.queue, b.queue, locked)
  {
  }

  /** Only the clock moves. */
  lemma ClockMoves(sha: Digest, w: World, clock: Clock)
    requires Inv(sha, w) && w.clock.now <= clock.now && clock.Valid()
    ensures Inv(sha, w.(clock := clock))
  {
    hide Inv, DbInv, RelayInv, DeadLettersOk, LoginsOk, QueueInv, AccountInv, LockedRows, BerlinDay, QuietRows;
    InvParts(sha, w);
    BerlinDayMonotone(w.clock.now, clock.now);
    DatabaseSteps.Wait(sha, w.db, w.clock.today, clock.today);
    SameQueueQuiet(w.db.queue, LockedRows(w.cycles));
    QuietRelay(w, w.(clock := clock));
    SameLogins(w, w.(clock := clock));
    InvWhole(sha, w.(clock := clock));
  }

  lemma SameLogins(w: World, v: World)
    requires LoginsOk(w) && v.logins == w.logins && v.db.accounts == w.db.accounts
    ensures LoginsOk(v)
  {
  }

  lemma ClaimStep(sha: Digest, w: World, cycle: nat, batch: seq<nat>, clock: Clock)
    requires Inv(sha, w) && w.clock.now <= clock.now && clock.Valid() && cycle !in w.cycles
    requires IsBatch(w.db.queue.outbox, LockedRows(w.cycles), clock.now, batch)
    ensures Inv(sha, w.(clock := clock, cycles := w.cycles[cycle := Claimed(batch)]))
  {
    hide Inv, DbInv, RelayInv, DeadLettersOk, LoginsOk, QueueInv, AccountInv, LockedRows, BerlinDay, IsBatch;
    var v := w.(clock := clock, cycles := w.cycles[cycle := Claimed(batch)]);
    InvParts(sha, w);
    ClockMoves(sha, w, clock);
    InvParts(sha, w.(clock := clock));
    ClaimKeepsRelay(w, v, cycle, batch, w.clock.today);
    SameLogins(w, v);
    InvWhole(sha, v);
  }

  lemma HeldRow(sha: Digest, w: World, cycle: nat)
    requires Inv(sha, w) && cycle in w.cycles && MaySend(w.cycles[cycle], w.db.queue.outbox)
    ensures var r := w.db.queue.outbox[w.cycles[cycle].batch[w.cycles[cycle].done]];
      IsPending(r) && RowOk(r) && RowPast(r, w.clock.now) && r.nextAttemptAt <= w.clock.now
  {
    hide Inv, DbInv, DeadLettersOk, LoginsOk, QueueInv, AccountInv, RowOk, RowPast, IsPending, CycleOk, Disjoint,
         SendsOk;
    InvParts(sha, w);
    var c := w.cycles[cycle];
    var id := c.batch[c.done];
    CycleHolds(w.db.queue.outbox, c, w.clock.now, c.done);
    assert Rows(w.db.queue)[id] == w.db.queue.outbox[id];
  }

  lemma SendStep(sha: Digest, cap: nat, w: World, cycle: nat, asked: Instant, provider: Outcome)
    requires Inv(sha, w) && cycle in w.cycles && MaySend(w.cycles[cycle], w.db.queue.outbox)
    requires provider != Accepted(SkippedByCap) && provider != Crashed
    ensures Inv(sha, Sent(w, cycle, cap, asked, provider, w.clock.now))
  {
    hide Inv, DbInv, DeadLettersOk, LoginsOk, RelayInv, QueueInv, AccountInv, RowOk, RowPast, StagedOk, Deliver,
         Raises, Gated, Bumped, AfterSkip, QuietAlerts, IsPending;
    var v := Sent(w, cycle, cap, asked, provider, w.clock.now);
    var c := w.cycles[cycle];
    var r := w.db.queue.outbox[c.batch[c.done]];
    var outcome := Answer(r, w.db.queue.outbox, cap, asked, provider);
    InvParts(sha, w);
    HeldRow(sha, w, cycle);
    AnswerOk(r, w.db.queue.outbox, cap, asked, provider, w.clock.now);
    SendKeepsRelay(w, v, cycle, Reply(outcome, w.clock.now));
    SkipAlerts(w.db.alerts, r.company, asked, w.clock.now);
    var more: seq<Alert> :| AfterSkip(w.db.alerts, r.company, asked, w.clock.now) == w.db.alerts + more;
    MoreAlerts(sha, w.db, more, w.clock.today);
    SameQueueQuiet(w.db.queue, {});
    QuietWhole(w.db, v.db);
    QuietDeadLetters(w.db, v.db, {});
    SameLogins(w, v);
    InvWhole(sha, v);
  }

  lemma QuietWhole(a: Db, b: Db)
    requires b.queue == a.queue && QuietAlerts(a.alerts, b.alerts)
    ensures Quiet(a, b, {})
  {
  }

  lemma CommitStep(sha: Digest, w: World, cycle: nat)
    requires Inv(sha, w) && cycle in w.cycles
    ensures Inv(sha, w.(db := Commit(w.db, w.cycles[cycle]), cycles := w.cycles - {cycle}))
  {
    hide Inv, DbInv, DeadLettersOk, LoginsOk, RelayInv, QueueInv, AccountInv, RowsOk, SerialsOk;
    var c := w.cycles[cycle];
    var v := w.(db := Commit(w.db, c), cycles := w.cycles - {cycle});
    InvParts(sha, w);
    assert CycleOk(w.db.queue.outbox, c, w.clock.now) by { CycleAt(w, cycle); }
    CommitDb(sha, w.db, c, w.clock.today, w.clock.now);
    CommitDeadLetters(w.db, c, w.clock.now);
    CommitKeepsRelay(w, v, cycle);
    SameLogins(w, v);
    InvWhole(sha, v);
  }

  lemma CycleAt(w: World, cycle: nat)
    requires RelayInv(w) && cycle in w.cycles
    ensures CycleOk(w.db.queue.outbox, w.cycles[cycle], w.clock.now)
  {
  }

  lemma CommitDb(sha: Digest, db: Db, c: Cycle, today: Day, now: Instant)
    requires DbInv(sha, db, today) && CycleOk(db.queue.outbox, c, now)
    ensures DbInv(sha, Commit(db, c), today)
  {
    hide DbInv, AccountInv, LockInv, LedgerInv, ChainsOk, QueueInv, RowsOk, QueueSteps.TimesInv, ToldInv, CompaniesOk,
         CycleOk, RowsPersist;
    var e := Commit(db, c);
    DatabaseSteps.DbParts(sha, db, today);
    CommitKeepsQueue(db, c, today, now);
    AlertsGrow(db.fleet, db.alerts, c.raised);
    SameStoriesRefl(db.fleet.cases);
    ToldFrame(db, e);
    DatabaseSteps.CompaniesFrame(db, e);
    OutboxSteps.DbWhole(sha, e, today, false);
  }

  lemma AbortStep(sha: Digest, w: World, cycle: nat)
    requires Inv(sha, w) && cycle in w.cycles
    ensures Inv(sha, w.(cycles := w.cycles - {cycle}, aborts := Bumped(w.aborts, BatchSet(w.cycles[cycle]))))
  {
    hide Inv, DbInv, DeadLettersOk, LoginsOk, RelayInv, QueueInv, AccountInv, Bumped;
    var v := w.(cycles := w.cycles - {cycle}, aborts := Bumped(w.aborts, BatchSet(w.cycles[cycle])));
    InvParts(sha, w);
    AbortKeepsRelay(w, v, cycle);
    SameLogins(w, v);
    InvWhole(sha, v);
  }

  /** Every step keeps the invariant. */
  lemma StepKeeps(sha: Digest, cap: nat, w: World, s: Step)
    requires Inv(sha, w) && Enabled(w, s)
    ensures Inv(sha, After(sha, cap, w, s))
  {
    hide Inv, Transacted, LoginsAfter, RecordsInOrder, Removed, LockedRows, BerlinDay, IsBatch, Bumped,
         Dsgvo.AfterTombstones, Dsgvo.Pruned;
    EnabledClock(w, s);
    ClockMoves(sha, w, s.clock);
    var u := w.(clock := s.clock);
    match s.event {
      case Claim(cycle, batch) => ClaimStep(sha, w, cycle, batch, s.clock);
      case SendRow(cycle, asked, provider) => SendStep(sha, cap, u, cycle, asked, provider);
      case CommitCycle(cycle) => CommitStep(sha, u, cycle);
      case AbortCycle(cycle) => AbortStep(sha, u, cycle);
      case _ => TransactStep(sha, cap, w, s);
    }
  }

  /** Every world of every run that starts in the invariant satisfies it. */
  lemma {:induction false} RunKeeps(sha: Digest, cap: nat, worlds: seq<World>, steps: seq<Step>, i: nat)
    requires Run(sha, cap, worlds, steps) && Inv(sha, worlds[0]) && i < |worlds|
    ensures Inv(sha, worlds[i])
  {
    hide Inv, Enabled, After;
    if i > 0 {
      RunKeeps(sha, cap, worlds, steps, i - 1);
      var s := steps[i - 1];
      assert Next(sha, cap, worlds[i - 1], s, worlds[i]);
      StepKeeps(sha, cap, worlds[i - 1], s);
    }
  }

  /** The empty system. */
  function EmptyWorld(clock: Clock): World {
    World(Db(Accounts([], [], [], []), Fleet([], [], [], [], []), [], Queue(map[], 0, map[], 0)), clock, map[], [], [], map[], map[])
  }

  lemma EmptyOk(sha: Digest, clock: Clock)
    requires clock.Valid()
    ensures Inv(sha, EmptyWorld(clock))
  {
    hide BerlinDay, Ledger.Balanced;
    var w := EmptyWorld(clock);
    RouteSteps.EmptyQueueOk(w.db, clock.today);
    EmptyDb(sha, w.db, clock.today);
    assert Rows(w.db.queue) == map[];
    forall company
      ensures Undeliverable(w.db.alerts, company) == |Dead(Rows(w.db.queue), company)|
    {
      assert Dead(Rows(w.db.queue), company) == {};
    }
  }

  lemma EmptyDb(sha: Digest, db: Db, today: Day)
    requires db == EmptyWorld(Clock(0, 0, 0)).db && QueueInv(db, today)
    ensures DbInv(sha, db, today)
  {
    hide QueueInv, KindBalanced;
    assert Rows(db.queue) == map[];
    forall s: Subject, kind: Kind | Owes(s, kind)
      ensures !SubjectExists(db.fleet, s)
    {
    }
    forall company, subject
      ensures WellLinked(sha, Chain(db.fleet.log, company, subject))
    {
    }
  }
}
