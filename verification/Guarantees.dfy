/** What the invariant of the running system promises in every world it can reach. */
module Guarantees {
  import opened Wrappers
  import opened Calendar
  import opened BerlinTime
  import opened Records
  import opened Outbox
  import opened AccountServices
  import opened Evidence
  import MonthRules
  import opened Checks
  import opened Ledger
  import opened FleetInvariant
  import opened QueueInvariant
  import opened QueueSteps
  import opened Relay
  import opened RelayProgress
  import SmsQuota
  import opened Routes
  import RouteSteps
  import opened RouteEffects
  import AccessEffects
  import DatabaseSteps
  import KeyHistory
  import opened DatabaseInvariant
  import opened FleetSystem
  import QuietSteps
  import opened SystemInvariant
  import opened SystemRuns
  import E6

  // ----- conservation of notifications -----

  /** Every row ever committed is exactly one of pending, sent or dead-lettered after five attempts, and
      each company has as many dead-letter alerts as dead-lettered rows. */
  lemma Conservation(sha: Digest, w: World, id: nat, company: nat)
    requires Inv(sha, w)
    ensures id < w.db.queue.nextRow <==> id in Rows(w.db.queue)
    ensures id < w.db.queue.nextRow ==>
      var r := Rows(w.db.queue)[id];
      && (IsPending(r) || IsSent(r) || IsDead(r))
      && !(IsPending(r) && IsSent(r)) && !(IsPending(r) && IsDead(r)) && !(IsSent(r) && IsDead(r))
    ensures QuietSteps.Undeliverable(w.db.alerts, company) == |Dead(Rows(w.db.queue), company)|
  {
    hide RelayInv, LoginsOk, DbInv, KeyOk, QuietSteps.Undeliverable;
    InvParts(sha, w);
  }

  /** A row is gone from the table only if it is older than 24 months, and then out of reach of every
      dedup key, or if its company has been erased. */
  lemma RemovedRows(sha: Digest, w: World, id: nat)
    requires Inv(sha, w) && id < w.db.queue.nextRow && id !in w.db.queue.outbox
    ensures id in w.db.queue.archive
    ensures var r := w.db.queue.archive[id];
      || Deleted(w.db.accounts.companies, r.company)
      || (r.createdAt < MonthsAgo(w.clock.now, 24) && r.createdOn + KEY_REACH < w.clock.today)
  {
    hide Inv, DbInv, KeyOk, KeysUnique, DeliveryOk, Deleted, Outdated, MonthsAgo, BerlinDay;
    InvParts(sha, w);
    var r := w.db.queue.archive[id];
    assert Rows(w.db.queue)[id] == r && StampOk(r);
    assert ArchivedOk(w.db.accounts.companies, w.clock.today, r);
    ExpiredIsOutOfReach(r.createdAt, w.clock);
  }

  // ----- the relay -----

  /** No row is claimed by two cycles; a row marked sent had a normal return of `send`; the normal
      returns for a row number at most one more than the aborted cycles that had claimed it. */
  lemma RelaySafety(sha: Digest, w: World, id: nat, c: nat, d: nat, i: nat, j: nat)
    requires Inv(sha, w)
    ensures c in w.cycles && d in w.cycles && c != d && i < |w.cycles[c].batch| && j < |w.cycles[d].batch| ==>
      w.cycles[c].batch[i] != w.cycles[d].batch[j]
    ensures id in Rows(w.db.queue) && IsSent(Rows(w.db.queue)[id]) ==> Count(w.accepted, id) >= 1
    ensures Count(w.accepted, id) <= Count(w.aborts, id) + 1
  {
    hide DbInv, DeadLettersOk, LoginsOk, CycleOk, RowPast, InFlight, Rows;
    InvParts(sha, w);
    assert SendsOk(w, id);
    if c in w.cycles && d in w.cycles && c != d {
      assert Apart(w.cycles[c], w.cycles[d]);
    }
  }

  /** No cycle picks a nag or a reminder while leaving a due, unlocked E6 message or breach notice behind. */
  lemma CriticalFirst(sha: Digest, w: World, now: Instant, batch: seq<nat>, i: nat, id: nat)
    requires Inv(sha, w) && IsBatch(w.db.queue.outbox, LockedRows(w.cycles), now, batch)
    requires i < |batch| && w.db.queue.outbox[batch[i]].template in {EscalationNag, DeadlineReminder}
    requires id in w.db.queue.outbox && id !in LockedRows(w.cycles)
    requires var r := w.db.queue.outbox[id];
      && r.template in {FskFailedCritical, EscalationBreached}
      && r.sentAt == None && r.deadLetteredAt == None && r.nextAttemptAt <= now
    ensures id in batch
  {
    hide Inv, DbInv, LockedRows, QueueInv;
    InvParts(sha, w);
    KindOf(w.db, w.clock.today, batch[i]);
    KindOf(w.db, w.clock.today, id);
  }

  lemma KindOf(db: Db, today: Day, id: nat)
    requires QueueInv(db, today) && id in db.queue.outbox
    ensures KindOk(db.queue.outbox[id])
  {
    hide SerialsOk, KeysUnique, DeliveryOk, StampOk, ArchivedOk, Deleted;
    assert id in Rows(db.queue) && KeyOk(db.fleet, db.queue.triggers, Rows(db.queue)[id]);
  }

  /** A row that has not failed yet is due from its creation on. Dead letters come no sooner than an
      hour after the first failed send, 9360 seconds when no switch shortens a wait.
      Critical templates and e-mails are never withheld. */
  lemma RowPromises(sha: Digest, w: World, id: nat)
    requires Inv(sha, w) && id in Rows(w.db.queue)
    ensures var r := Rows(w.db.queue)[id];
      && (r.attempts == 0 ==> r.nextAttemptAt == r.createdAt)
      && (IsDead(r) ==> |r.failedAt| == 5 && r.deadLetteredAt.value - r.failedAt[0] >= 3600 * SECOND)
      && (IsDead(r) && (forall k | 1 <= k < 5 :: FullWait(r.failedAt, k)) ==> r.deadLetteredAt.value - r.failedAt[0] >= 9360 * SECOND)
      && (r.receipt == Some(SkippedByCap) ==> r.Via() == SMS && !SmsQuota.Critical(r.template))
  {
    hide Inv, DbInv, QueueInv, WallAdd, FullWait, Rows;
    InvParts(sha, w);
    var r := Rows(w.db.queue)[id];
    assert RowOk(r);
    if r.deadLetteredAt.Some? {
      DeadLetterTime(r);
    }
  }

  /** Committing a cycle lowers the total remaining work, the sum of (5 - attempts) over the pending rows,
      by at least the size of its batch, whatever other cycles, requests and jobs did since it claimed. */
  lemma CommittedCycleWorks(sha: Digest, w: World, cycle: nat)
    requires Inv(sha, w) && cycle in w.cycles && w.cycles[cycle].done == |w.cycles[cycle].batch|
    ensures var before, after, n := w.db.queue.outbox, Commit(w.db, w.cycles[cycle]).queue.outbox, w.db.queue.nextRow;
      Work(after, n) <= Work(before, n) - |w.cycles[cycle].batch|
  {
    hide Inv, DbInv, RelayInv, DeadLettersOk, LoginsOk, QueueInv, RowsOk, AccountInv, Work, CycleOk, IsPending;
    InvParts(sha, w);
    CycleAt(w, cycle);
    var outbox, c := w.db.queue.outbox, w.cycles[cycle];
    forall id | id in c.staged
      ensures id in outbox && IsPending(outbox[id]) && WorkedOff(outbox[id], c.staged[id])
    {
      StagedDone(outbox, c, w.clock.now, id);
    }
    StagedWork(outbox, c.staged, w.db.queue.nextRow);
    FullBatch(outbox, c, w.clock.now, w.db.queue.nextRow);
  }

  lemma StagedDone(outbox: map<nat, OutboxRow>, c: Cycle, now: Instant, id: nat)
    requires CycleOk(outbox, c, now) && id in c.staged
    ensures id in outbox && IsPending(outbox[id]) && WorkedOff(outbox[id], c.staged[id])
  {
    hide QuietSteps.Undeliverable, Dead, Distinct, IsPending, DeliveryOk, RowOk, WorkedOff;
    assert StagedOk(outbox[id], c.staged[id], now);
    var i :| 0 <= i < c.done && c.batch[i] == id;
    assert HoldsRow(outbox, c.batch[i], now);
  }

  lemma FullBatch(outbox: map<nat, OutboxRow>, c: Cycle, now: Instant, n: nat)
    requires CycleOk(outbox, c, now) && c.done == |c.batch| && forall id | id in outbox :: id < n
    ensures |Below(c.staged, n)| == |c.batch|
  {
    hide QuietSteps.Undeliverable, Dead, StagedOk, HoldsRow;
    DistinctCount(c.batch);
    assert c.batch[..c.done] == c.batch;
    assert Below(c.staged, n) == Elements(c.batch);
  }

  // ----- lock equals evidence -----

  /** A driver may drive if and only if the chain is empty or ends in a passed check; a locked driver has
      an open or breached case with its CRITICAL alert, and every address that case wrote to has its row on record. */
  lemma LockEqualsEvidence(sha: Digest, w: World, d: nat)
    requires Inv(sha, w) && d < |w.db.fleet.drivers|
    ensures var chain := DriverChain(w.db.fleet, d);
      w.db.fleet.drivers[d].authorized <==> chain == [] || chain[|chain| - 1].result == PASSED
    ensures !w.db.fleet.drivers[d].authorized ==> exists c | 0 <= c < |w.db.fleet.cases| ::
      Holds(w.db.fleet.cases[c], d) && HasAlert(w.db.alerts, w.db.fleet.cases[c], c) && CaseTold(w.db.queue, w.db.fleet.cases[c])
  {
    hide Inv, AccountInv, LedgerInv, ChainsOk, QueueInv, RowsOk, TimesInv, CompaniesOk, HasAlert, CaseTold, Chain;
    InvParts(sha, w);
    assert DriverOk(w.db.fleet, d);
    if !w.db.fleet.drivers[d].authorized {
      var c :| 0 <= c < |w.db.fleet.cases| && Holds(w.db.fleet.cases[c], d);
      assert CaseOk(w.db.fleet, w.db.alerts, c) && CaseTold(w.db.queue, w.db.fleet.cases[c]);
    }
  }

  /** An open case means a locked driver, and no driver has two. */
  lemma OneOpenCase(sha: Digest, w: World, b: nat, c: nat)
    requires Inv(sha, w) && b < |w.db.fleet.cases| && c < |w.db.fleet.cases|
    requires w.db.fleet.cases[b].status == CaseOpen && w.db.fleet.cases[c].status == CaseOpen
    ensures w.db.fleet.cases[c].driver < |w.db.fleet.drivers|
    ensures !w.db.fleet.drivers[w.db.fleet.cases[c].driver].authorized
    ensures w.db.fleet.cases[b].driver == w.db.fleet.cases[c].driver ==> b == c
  {
    hide Inv, AccountInv, LedgerInv, ChainsOk, QueueInv, RowsOk, TimesInv, CompaniesOk, HasAlert, ToldInv, DriverOk;
    InvParts(sha, w);
    assert CaseOk(w.db.fleet, w.db.alerts, c);
  }

  /** A failed check by anyone entitled to record it always goes through: the driver ends up locked with
      an open case of that company, and the evidence of the day on the form ends the driver's chain. */
  lemma FailedCheckLocks(sha: Digest, w: World, sid: nat, driver: nat, performedOn: Option<Day>, uuid: nat,
                         clock: Clock, day: Day)
    requires Inv(sha, w) && Admitted(w.db.accounts, sid, clock.now) && Meant(performedOn, clock, day)
    requires Caller(w.db.accounts, sid).role != VIEWER
    requires Visible(w.db.fleet, Caller(w.db.accounts, sid).company, driver)
    ensures var caller := Caller(w.db.accounts, sid);
      var e := DriverCheck(sha, w.db, caller, driver, FAILED, performedOn, uuid, clock);
      && e.response == Done && driver < |e.db.fleet.drivers| && !e.db.fleet.drivers[driver].authorized
      && E6.OpenCase(e.db.fleet.cases, driver).Some?
      && EndsIn(Chain(e.db.fleet.log, caller.company, OfDriver(driver)), day, "FAILED")
  {
    hide Inv, DbInv, QueueInv, AddressesOf, Recorded, Chain, Collides, Append, E6.Messages, Distinct,
         EscalationDeadline, AccountInv, E6.OpenCase;
    InvParts(sha, w);
    var caller := Caller(w.db.accounts, sid);
    var users := w.db.accounts.users;
    RouteSteps.AddressesDistinct(w.db.accounts, caller.company, |users|);
    assert users[..|users|] == users;
    RouteSteps.FailedCheckCommits(sha, w.db, w.clock.today, caller.company, driver, day, uuid, clock);
    DriverCheckDated(sha, w.db, caller, driver, FAILED, performedOn, uuid, clock, day);
    var cases := w.db.fleet.cases;
    if E6.OpenCase(cases, driver).Some? {
      OneOpenCase(sha, w, E6.OpenCase(cases, driver).value, E6.OpenCase(cases, driver).value);
    } else {
      var k := E6.NewCase(caller.company, driver, w.db.queue.triggers, AddressesOf(users, caller.company), clock);
      OpenAtEnd(cases, k, driver);
    }
  }

  lemma OpenAtEnd(cases: seq<EscalationCase>, k: EscalationCase, driver: nat)
    requires E6.IsOpenFor(k, driver)
    ensures E6.OpenCase(cases + [k], driver) == Some(|cases|)
  {
  }

  predicate EndsIn(chain: seq<LogEntry>, day: Day, result: string) {
    chain != [] && chain[|chain| - 1].performedOn == day && chain[|chain| - 1].result == result
  }

  /** The one open obligation of a driver is completed on the day of the check, with a successor due half a
      year later. */
  predicate RolledOn(before: seq<Deadline>, after: seq<Deadline>, id: nat, company: nat, driver: nat, day: Day) {
    && id < |before| && before[id].subject == OfDriver(driver) && before[id].kind == FSK && before[id].company == company
    && Closes(before, after, id, day) && MonthRules.MonthsLater(day, after[|before|].dueOn, 6)
  }

  /** A check with any other result, recorded by anyone entitled to, always goes through too: the driver may
      drive, no case is open, the evidence of the day on the form ends the chain, and the driver's open
      obligation is completed on that day and due again half a year later. */
  lemma PassedCheckUnlocks(sha: Digest, w: World, sid: nat, driver: nat, result: string, performedOn: Option<Day>,
                           uuid: nat, clock: Clock, day: Day)
    requires Inv(sha, w) && Admitted(w.db.accounts, sid, clock.now) && Meant(performedOn, clock, day)
    requires Caller(w.db.accounts, sid).role != VIEWER && result != FAILED
    requires Visible(w.db.fleet, Caller(w.db.accounts, sid).company, driver)
    ensures var caller := Caller(w.db.accounts, sid);
      var e := DriverCheck(sha, w.db, caller, driver, result, performedOn, uuid, clock);
      && e.response == Done && driver < |e.db.fleet.drivers|
      && e.db.fleet.drivers[driver].authorized && e.db.fleet.drivers[driver].lockReason == None
      && E6.OpenCase(e.db.fleet.cases, driver) == None
      && EndsIn(Chain(e.db.fleet.log, caller.company, OfDriver(driver)), day, PASSED)
      && exists id :: RolledOn(w.db.fleet.deadlines, e.db.fleet.deadlines, id, caller.company, driver, day)
  {
    hide Inv, DbInv, PassedCheck, Chain, MonthRules.MonthsLater, LockInv, LedgerInv, Cleared, OpenDeadline, Closes,
         Adds;
    InvParts(sha, w);
    DatabaseSteps.DbParts(sha, w.db, w.clock.today);
    var f, caller := w.db.fleet, Caller(w.db.accounts, sid);
    RouteSteps.PassedCheckKeepsFleet(sha, w.db, caller.company, driver, day, uuid, clock);
    DriverCheckDated(sha, w.db, caller, driver, result, performedOn, uuid, clock, day);
    PassedCheckRecorded(sha, w.db, caller, driver, result, performedOn, uuid, clock, day);
    ClearedExactly(f, driver, clock);
    var b := DriverCheck(sha, w.db, caller, driver, result, performedOn, uuid, clock).db;
    NoOpenCase(b.fleet, b.alerts, driver);
    RouteSteps.AlwaysOpen(f, OfDriver(driver), FSK);
    OpenColumns(f.deadlines, caller.company, OfDriver(driver), FSK);
    var id := OpenDeadline(f.deadlines, caller.company, OfDriver(driver), FSK).value;
    assert RolledOn(f.deadlines, b.fleet.deadlines, id, caller.company, driver, day);
  }

  lemma NoOpenCase(f: Fleet, alerts: seq<Alert>, driver: nat)
    requires LockInv(f, alerts) && driver < |f.drivers| && f.drivers[driver].authorized
    ensures E6.OpenCase(f.cases, driver) == None
  {
    hide DriverOk, HasAlert;
    var open := E6.OpenCase(f.cases, driver);
    assert open.Some? ==> CaseOk(f, alerts, open.value);
  }

  // ----- one company at a time -----

  /** A request of an admitted session changes rows of its own company only, adds rows of that company only,
      and neither changes nor removes any message or any entry of the two ledgers. */
  lemma TenantIsolation(sha: Digest, cap: nat, w: World, s: Step)
    requires Inv(sha, w) && IsRequest(s.event) && Admitted(w.db.accounts, s.event.sid, s.clock.now)
    ensures AccessEffects.Confined(w.db, After(sha, cap, w, s).db, Caller(w.db.accounts, s.event.sid).company)
  {
    hide Inv, DbInv, LockInv, AccountInv, Requested, AccessEffects.Confined;
    InvParts(sha, w);
    DatabaseSteps.DbParts(sha, w.db, w.clock.today);
    DatabaseSteps.CallerOk(w.db.accounts, s.event.sid, s.clock.now);
    KeyHistory.BelowNext(w.db.queue);
    AccessEffects.RequestConfined(sha, w.db, Caller(w.db.accounts, s.event.sid), s.event, s.clock);
  }

  // ----- who is told -----

  /** Whoever recorded the failed check is among those a fresh escalation tells. */
  lemma CallerIsTold(sha: Digest, w: World, sid: nat, clock: Clock)
    requires Inv(sha, w) && Admitted(w.db.accounts, sid, clock.now)
    requires var caller := Caller(w.db.accounts, sid); caller.role != VIEWER && caller.email != Routable("")
    ensures var caller := Caller(w.db.accounts, sid);
      caller.email.Routable? && Address(EMAIL, caller.email.text) in AddressesOf(w.db.accounts.users, caller.company)
  {
    hide AddressesOf, Inv, DbInv;
    var a := w.db.accounts;
    var caller := Caller(a, sid);
    InvParts(sha, w);
    ActiveIsRoutable(sha, w.db, w.clock.today, a.sessions[sid].user);
    assert RouteSteps.ReachedBy(a.users[a.sessions[sid].user], caller.company, Address(EMAIL, caller.email.text));
    RouteSteps.RecipientsExactly(a.users, caller.company, Address(EMAIL, caller.email.text));
  }

  lemma ActiveIsRoutable(sha: Digest, db: Db, today: Day, user: nat)
    requires DbInv(sha, db, today) && user < |db.accounts.users| && db.accounts.users[user].active
    ensures db.accounts.users[user].email.Routable?
  {
    hide LockInv, LedgerInv, ChainsOk, QueueInv, RowsOk, TimesInv, ToldInv, CompaniesOk;
    assert UserOk(db.accounts, db.accounts.users[user]);
  }

  // ----- obligations -----

  /** Every driver owes one open Fuehrerscheinkontrolle and every vehicle one open HU and one open UVV;
      completed obligations count exactly the completing checks in the evidence chain. */
  lemma DeadlineConservation(sha: Digest, w: World, s: Subject, kind: Kind)
    requires Inv(sha, w) && Owes(s, kind) && SubjectExists(w.db.fleet, s)
    ensures var ds := DeadlinesOf(w.db.fleet.deadlines, s, kind);
      && CountStatus(ds, DeadlineOpen) == 1
      && CountStatus(ds, DeadlineCompleted) == |Completing(Chain(w.db.fleet.log, SubjectCompany(w.db.fleet, s), s), kind)|
  {
    hide Inv, AccountInv, LockInv, ChainsOk, QueueInv, RowsOk, TimesInv, ToldInv, CompaniesOk, Balanced, DeadlinesOf,
         Completing, Chain;
    InvParts(sha, w);
    var f := w.db.fleet;
    assert KindBalanced(f, s, kind);
    BalanceCounts(DeadlinesOf(f.deadlines, s, kind), Completing(Chain(f.log, SubjectCompany(f, s), s), kind), kind, HuInterval(f, s));
  }

  /** The n-th completing check closed the n-th deadline on its own day, and the next one is due half a year
      later for FSK, a year later for UVV, after 28 days and as a Nachpruefung for an HU failed with
      defects, and otherwise on the last day of the month the vehicle's interval later. */
  lemma SuccessorsFollowChecks(sha: Digest, w: World, s: Subject, kind: Kind, i: nat)
    requires Inv(sha, w) && Owes(s, kind) && SubjectExists(w.db.fleet, s)
    requires i < |Completing(Chain(w.db.fleet.log, SubjectCompany(w.db.fleet, s), s), kind)|
    ensures var ds, es := DeadlinesOf(w.db.fleet.deadlines, s, kind), Completing(Chain(w.db.fleet.log, SubjectCompany(w.db.fleet, s), s), kind);
      && i + 1 < |ds| && ds[i].status == DeadlineCompleted && ds[i].completedOn == Some(es[i].performedOn)
      && (kind == FSK ==> MonthRules.MonthsLater(es[i].performedOn, ds[i + 1].dueOn, 6))
      && (kind == UVV ==> MonthRules.MonthsLater(es[i].performedOn, ds[i + 1].dueOn, 12))
      && (kind == HU && es[i].result == "FAILED_DEFECTS" ==> ds[i + 1].dueOn == es[i].performedOn + 28)
      && (kind == HU && es[i].result != "FAILED_DEFECTS" ==>
            MonthRules.MonthEndLater(es[i].performedOn, ds[i + 1].dueOn, w.db.fleet.vehicles[s.vehicle].huInterval))
      && (ds[i + 1].nachpruefung <==> kind == HU && es[i].result == "FAILED_DEFECTS")
  {
    hide Inv, AccountInv, LockInv, ChainsOk, QueueInv, RowsOk, TimesInv, ToldInv, CompaniesOk, SuccessorDue,
         IsNachpruefung, DeadlinesOf, Completing, Chain, MonthRules.MonthsLater, MonthRules.MonthEndLater;
    InvParts(sha, w);
    var f := w.db.fleet;
    assert KindBalanced(f, s, kind);
    var es := Completing(Chain(f.log, SubjectCompany(f, s), s), kind);
    assert RolledBy(DeadlinesOf(f.deadlines, s, kind), es, kind, HuInterval(f, s), i);
    RolledByRule(kind, es[i].result, es[i].performedOn, HuInterval(f, s));
  }

  // ----- evidence -----

  /** In every reachable log no two entries share a hash and every link resolves. */
  lemma EvidenceSound(sha: Digest, w: World, i: nat, j: nat)
    requires Inv(sha, w) && CollisionFree(sha) && i < j < |w.db.fleet.log|
    ensures w.db.fleet.log[i].entryHash != w.db.fleet.log[j].entryHash
    ensures w.db.fleet.log[j].prevHash.Some? ==>
      exists k :: 0 <= k < j && w.db.fleet.log[k].entryHash == w.db.fleet.log[j].prevHash.value
  {
    hide Inv, AccountInv, LockInv, LedgerInv, QueueInv, RowsOk, TimesInv, ToldInv, CompaniesOk, CollisionFree,
         AllLinked;
    InvParts(sha, w);
    HashesDistinct(sha, w.db.fleet.log, i, j);
    if w.db.fleet.log[j].prevHash.Some? {
      NoBrokenLinks(sha, w.db.fleet.log, j);
    }
  }

  // ----- nags -----

  /** The nag rows of a case to one address on the first `n` days of its window. */
  function Nags(q: Queue, c: nat, first: Day, to: Address, n: nat): set<nat> {
    set id | id in Rows(q) && Rows(q)[id].key.NagKey? && Rows(q)[id].key.escalation == c && Rows(q)[id].key.to == to
      && first <= Rows(q)[id].key.on < first + n
  }

  lemma {:induction false} NagsCount(q: Queue, c: nat, first: Day, to: Address, n: nat)
    requires KeysUnique(q)
    ensures |Nags(q, c, first, to, n)| <= n
  {
    hide Rows;
    if n == 0 {
      assert Nags(q, c, first, to, 0) == {};
    } else {
      NagsCount(q, c, first, to, n - 1);
      var before, now := Nags(q, c, first, to, n - 1), Nags(q, c, first, to, n);
      if now <= before {
        assert now == before;
      } else {
        var id :| id in now && id !in before;
        assert forall x | x in now - before :: Rows(q)[x].key == NagKey(c, first + n - 1, to);
        assert now == before + {id};
      }
    }
  }

  function AllNags(q: Queue, c: nat, to: Address): set<nat> {
    set id | id in Rows(q) && Rows(q)[id].key.NagKey? && Rows(q)[id].key.escalation == c && Rows(q)[id].key.to == to
  }

  lemma NagDated(sha: Digest, w: World, id: nat)
    requires Inv(sha, w) && id in Rows(w.db.queue) && Rows(w.db.queue)[id].key.NagKey?
    ensures var key := Rows(w.db.queue)[id].key;
      key.escalation < |w.db.fleet.cases| && var day := w.db.fleet.cases[key.escalation].openedOn; day <= key.on <= day + 7
  {
    hide Inv, DbInv, Rows, ArchivedOk, Deleted, SerialsOk, DeliveryOk, StampOk, KeysUnique;
    InvParts(sha, w);
    assert KeyOk(w.db.fleet, w.db.queue.triggers, Rows(w.db.queue)[id]);
  }

  /** Every nag of a case is dated D to D+7, D being the Berlin day the case was opened, so one address
      never gets more than eight. */
  lemma NagWindow(sha: Digest, w: World, c: nat, to: Address)
    requires Inv(sha, w) && c < |w.db.fleet.cases|
    ensures var day := w.db.fleet.cases[c].openedOn;
      forall id | id in AllNags(w.db.queue, c, to) :: day <= Rows(w.db.queue)[id].key.on <= day + 7
    ensures |AllNags(w.db.queue, c, to)| <= 8
  {
    hide Inv, DbInv, Rows, QueueInv;
    var q, day := w.db.queue, w.db.fleet.cases[c].openedOn;
    InvParts(sha, w);
    assert KeysUnique(q) by { Unique(w.db, w.clock.today); }
    NagsCount(q, c, day, to, 8);
    forall id | id in AllNags(q, c, to)
      ensures day <= Rows(q)[id].key.on <= day + 7
    {
      NagDated(sha, w, id);
    }
    assert AllNags(q, c, to) == Nags(q, c, day, to, 8);
  }

  lemma Unique(db: Db, today: Day)
    requires QueueInv(db, today)
    ensures KeysUnique(db.queue)
  {
  }
}
