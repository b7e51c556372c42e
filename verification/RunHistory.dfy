/** Theorems about whole runs: nothing is undone, erasure is final, and the outbox ever holds exactly
    the messages the steps staged. */
module RunHistory {
  import Wrappers
  import opened Calendar
  import opened BerlinTime
  import opened Records
  import opened Outbox
  import opened AccountServices
  import opened Dsgvo
  import Sweeps
  import opened Evidence
  import FleetInvariant
  import opened QueueInvariant
  import QueueSteps
  import opened Relay
  import SmsQuota
  import opened Routes
  import RouteSteps
  import opened DatabaseInvariant
  import DatabaseSteps
  import OutboxSteps
  import opened FleetSystem
  import QuietSteps
  import opened SystemInvariant
  import CycleSteps
  import opened SystemRuns
  import opened StepHistory
  import opened KeyHistory
  import E6

  // ----- growth along a run -----

  lemma GrowsTrans(a: Db, b: Db, c: Db)
    requires Grows(a, b) && Grows(b, c)
    ensures Grows(a, c)
  {
  }

  lemma StepOf(sha: Digest, cap: nat, worlds: seq<World>, steps: seq<Step>, i: nat)
    requires Run(sha, cap, worlds, steps) && Inv(sha, worlds[0]) && i < |steps|
    ensures Inv(sha, worlds[i]) && Enabled(worlds[i], steps[i]) && worlds[i + 1] == After(sha, cap, worlds[i], steps[i])
  {
    hide Inv, Enabled, After;
    RunKeeps(sha, cap, worlds, steps, i);
    assert Next(sha, cap, worlds[i], steps[i], worlds[i + 1]);
  }

  /** Along a run evidence is only appended to, resolved and breached cases stay so, rows are never
      forgotten, sent and dead-lettered rows never change, and erasures are final. */
  lemma {:induction false} RunGrows(sha: Digest, cap: nat, worlds: seq<World>, steps: seq<Step>, i: nat, j: nat)
    requires Run(sha, cap, worlds, steps) && Inv(sha, worlds[0]) && i <= j < |worlds|
    ensures Grows(worlds[i].db, worlds[j].db)
    decreases j
  {
    hide Inv, Enabled, After, RowsOnward, CasesGrown, ErasureStays, Run;
    if i == j {
      NothingNew(worlds[i].db);
    } else {
      RunLength(sha, cap, worlds, steps);
      RunGrows(sha, cap, worlds, steps, i, j - 1);
      StepOf(sha, cap, worlds, steps, j - 1);
      StepGrows(sha, cap, worlds[j - 1], steps[j - 1]);
      GrowsTrans(worlds[i].db, worlds[j - 1].db, worlds[j].db);
    }
  }

  lemma RunLength(sha: Digest, cap: nat, worlds: seq<World>, steps: seq<Step>)
    requires Run(sha, cap, worlds, steps)
    ensures |worlds| == |steps| + 1
  {
    hide Next;
  }

  // ----- erasure is final -----

  predicate Forgotten(u: User) {
    !u.active && u.email.Erased? && u.phone.None?
  }

  /** An erased company: nobody active or reachable, no driver's name, nothing to accept, no message, no
      admitted session. */
  ghost predicate Silent(w: World, company: nat) {
    && (forall u | 0 <= u < |w.db.accounts.users| :: w.db.accounts.users[u].company == company ==> Forgotten(w.db.accounts.users[u]))
    && (forall d | 0 <= d < |w.db.fleet.drivers| :: w.db.fleet.drivers[d].company == company ==> Scrubbed(w.db.fleet.drivers[d]))
    && (forall i | 0 <= i < |w.db.accounts.invitations| ::
          w.db.accounts.invitations[i].company == company ==> w.db.accounts.invitations[i].acceptedAt.Some?)
    && (forall id | id in w.db.queue.outbox :: w.db.queue.outbox[id].company != company)
    && (forall sid: nat, now :: sid < |w.db.accounts.sessions| && w.db.accounts.sessions[sid].company == company ==>
          !Admitted(w.db.accounts, sid, now))
  }

  lemma ErasedSilent(sha: Digest, w: World, company: nat)
    requires Inv(sha, w) && Deleted(w.db.accounts.companies, company)
    ensures Silent(w, company)
  {
    hide Inv, DbInv, KeyOk, SerialsOk, KeysUnique, DeliveryOk, Admitted;
    InvParts(sha, w);
    DatabaseSteps.DbParts(sha, w.db, w.clock.today);
    forall sid: nat, now | sid < |w.db.accounts.sessions| && w.db.accounts.sessions[sid].company == company
      ensures !Admitted(w.db.accounts, sid, now)
    {
      ErasedIsSilent(w.db.accounts, company, sid, now);
    }
    forall u | 0 <= u < |w.db.accounts.users| && w.db.accounts.users[u].company == company
      ensures Forgotten(w.db.accounts.users[u])
    {
      assert UserOk(w.db.accounts, w.db.accounts.users[u]);
    }
    forall d | 0 <= d < |w.db.fleet.drivers| && w.db.fleet.drivers[d].company == company
      ensures Scrubbed(w.db.fleet.drivers[d])
    {
      assert DriverRowOk(w.db.accounts.companies, w.db.fleet.drivers[d]);
    }
    forall i | 0 <= i < |w.db.accounts.invitations| && w.db.accounts.invitations[i].company == company
      ensures w.db.accounts.invitations[i].acceptedAt.Some?
    {
      assert InvitationOk(w.db.accounts, w.db.accounts.invitations[i]);
    }
  }

  lemma ChainStays(a: Db, b: Db, company: nat, s: Subject)
    requires LogGrown(a, b) && Deleted(a.accounts.companies, company)
    ensures Chain(b.fleet.log, company, s) == Chain(a.fleet.log, company, s)
  {
  }

  lemma DeletedStays(a: Db, b: Db, company: nat)
    requires Grows(a, b) && Deleted(a.accounts.companies, company)
    ensures Deleted(b.accounts.companies, company)
    ensures b.accounts.companies[company].deletedAt == a.accounts.companies[company].deletedAt
  {
  }

  /** Once a company is erased, in every later world it is silent, its erasure date stands, and each of
      its evidence chains is unchanged and still well linked. */
  lemma {:induction false} TombstoneIsFinal(sha: Digest, cap: nat, worlds: seq<World>, steps: seq<Step>, i: nat,
                                            j: nat, company: nat, s: Subject)
    requires Run(sha, cap, worlds, steps) && Inv(sha, worlds[0]) && i <= j < |worlds|
    requires Deleted(worlds[i].db.accounts.companies, company)
    ensures Deleted(worlds[j].db.accounts.companies, company)
    ensures worlds[j].db.accounts.companies[company].deletedAt == worlds[i].db.accounts.companies[company].deletedAt
    ensures Silent(worlds[j], company)
    ensures Chain(worlds[j].db.fleet.log, company, s) == Chain(worlds[i].db.fleet.log, company, s)
    ensures WellLinked(sha, Chain(worlds[j].db.fleet.log, company, s))
    decreases j
  {
    hide Inv, Run, Silent, Grows, LogGrown, Chain, WellLinked, Enabled, After;
    RunLength(sha, cap, worlds, steps);
    RunKeeps(sha, cap, worlds, steps, j);
    if i < j {
      TombstoneIsFinal(sha, cap, worlds, steps, i, j - 1, company, s);
      StepOf(sha, cap, worlds, steps, j - 1);
      StepGrows(sha, cap, worlds[j - 1], steps[j - 1]);
      DeletedStays(worlds[j - 1].db, worlds[j].db, company);
      ChainStays(worlds[j - 1].db, worlds[j].db, company, s);
    }
    ErasedSilent(sha, worlds[j], company);
    LinkedIn(sha, worlds[j], company, s);
  }

  lemma LinkedIn(sha: Digest, w: World, company: nat, s: Subject)
    requires Inv(sha, w)
    ensures WellLinked(sha, Chain(w.db.fleet.log, company, s))
  {
    hide Inv, WellLinked, Chain, AccountInv, FleetInvariant.LockInv, FleetInvariant.LedgerInv, QueueInv, RowsOk,
         QueueSteps.TimesInv, ToldInv, CompaniesOk, Ordered;
    InvParts(sha, w);
  }

  // ----- exactly the staged messages -----

  lemma SameEver(q: Queue, p: Queue, key: DedupKey)
    requires Rows(p).Keys == Rows(q).Keys
    requires forall id | id in Rows(q) :: Rows(p)[id].key == Rows(q)[id].key
    ensures EverKey(p, key) <==> EverKey(q, key)
  {
  }

  lemma SameTablesEver(q: Queue, p: Queue, key: DedupKey)
    requires p.outbox == q.outbox && p.archive == q.archive
    ensures EverKey(p, key) <==> EverKey(q, key)
  {
    SameEver(q, p, key);
  }

  lemma FailedEver(sha: Digest, db: Db, today: Day, company: nat, driver: nat, day: Day, uuid: nat, clock: Clock,
                   key: DedupKey)
    requires QueueInv(db, today) && Visible(db.fleet, company, driver)
    requires Wrappers.Distinct(AddressesOf(db.accounts.users, company))
    ensures EverKey(FailedCheck(sha, db, company, driver, day, uuid, clock).db.queue, key) <==>
      EverKey(db.queue, key) || (E6.OpenCase(db.fleet.cases, driver).None? && key.E6Key? && key.trigger == db.queue.triggers
                                 && key.to in AddressesOf(db.accounts.users, company))
  {
    hide QueueInv, EverKey, Recorded, AddressesOf, Collides, E6.OpenCase, Append, EscalationDeadline,
         Wrappers.Distinct, E6.Messages;
    var told, t := AddressesOf(db.accounts.users, company), db.queue.triggers;
    var q := db.queue.(triggers := t + 1);
    RouteSteps.FreshKeys(db, today, company, told, clock);
    SameTablesEver(db.queue, q, key);
    OutboxSteps.Serials(db, today);
    AppendIsEnqueue(q, E6.Messages(company, t, told, clock));
    assert SerialsOk(q);
    EnqueueEver(q, E6.Messages(company, t, told, clock), key);
    MessagesKey(company, t, told, clock, key);
  }

  lemma MessagesKey(company: nat, t: nat, told: seq<Address>, clock: Clock, key: DedupKey)
    ensures HasKey(E6.Messages(company, t, told, clock), key) <==> key.E6Key? && key.trigger == t && key.to in told
  {
    var rows := E6.Messages(company, t, told, clock);
    if key.E6Key? && key.trigger == t && key.to in told {
      var i :| 0 <= i < |told| && told[i] == key.to;
      assert rows[i].key == key;
    }
  }

  lemma RequestEver(sha: Digest, db: Db, today: Day, sid: nat, event: Event, clock: Clock, key: DedupKey)
    requires QueueInv(db, today) && AccountInv(db.accounts) && Admitted(db.accounts, sid, clock.now)
    requires IsRequest(event) && event.sid == sid
    ensures EverKey(Requested(sha, db, Caller(db.accounts, sid), event, clock).queue, key) <==>
      EverKey(db.queue, key) || BroadcastKey(db, event, clock, key)
  {
    hide QueueInv, EverKey, AccountInv, FailedCheck, PassedCheck, VehicleCheck, CreatedDriver, CreatedVehicle,
         AfterInvite, AfterDeletionRequest, Anonymized, AddressesOf, E6.OpenCase, Wrappers.Distinct;
    var caller := Caller(db.accounts, sid);
    match event {
      case AddDriver(_, first, last, start) => QuietSteps.DriverTables(db, caller, first, last, start, clock);
      case AddVehicle(_, plate, interval, registered) => QuietSteps.VehicleTables(db, caller, plate, interval, registered, clock);
      case CheckDriver(_, driver, result, performedOn, uuid) =>
        if Visible(db.fleet, caller.company, driver) {
          var day, users := OrToday(performedOn, clock), db.accounts.users;
          RouteSteps.AddressesDistinct(db.accounts, caller.company, |users|);
          assert users[..|users|] == users;
          FailedEver(sha, db, today, caller.company, driver, day, uuid, clock, key);
          QuietSteps.PassedTables(sha, db, caller.company, driver, day, uuid, clock);
        }
      case CheckVehicle(_, vehicle, kind, result, performedOn, uuid) =>
        QuietSteps.VehicleCheckTables(sha, db, caller, vehicle, kind, result, performedOn, uuid, clock);
      case _ =>
    }
  }

  lemma {:induction false} TombstonesEver(db: Db, now: Instant, n: nat)
    requires SerialsOk(db.queue) && n <= |db.accounts.companies|
    ensures SerialsOk(AfterTombstones(db, now, n).queue) && Rows(AfterTombstones(db, now, n).queue) == Rows(db.queue)
  {
    hide SerialsOk, Rows, DueForDeletion, ErasedAccounts, TombstonedDrivers, Without;
    if n > 0 {
      TombstonesEver(db, now, n - 1);
      var mid := AfterTombstones(db, now, n - 1);
      QueueSteps.RowsWithout(mid.queue, RowsOf(mid.queue, n - 1));
    }
  }

  lemma TransactedEver(sha: Digest, w: World, s: Step, key: DedupKey)
    requires Inv(sha, w) && Enabled(w, s)
    ensures EverKey(Transacted(sha, w, s.event, s.clock).queue, key) <==> EverKey(w.db.queue, key) || Stages(w, s, key)
  {
    hide Inv, DbInv, EverKey, Requested, SignedUp, AfterRead, AfterLogin, Sweeps.AfterEscalationSweep,
         Sweeps.AfterReminderSweep, Purged, AfterTombstones, AccountInv, QueueInv, SerialsOk, RecordsInOrder, Removed,
         LockedRows, BerlinDay, IsBatch, Caller, SweptKey, RemindedKey, Without, MonthsAgo, Rows, E6.OpenCase,
         AddressesOf;
    InvParts(sha, w);
    var q := w.db.queue;
    if IsRequest(s.event) {
      if Admitted(w.db.accounts, s.event.sid, s.clock.now) {
        RequestEver(sha, w.db, w.clock.today, s.event.sid, s.event, s.clock, key);
      }
    } else {
      match s.event {
        case SweepCases => SweepEver(w.db, s.clock, key);
        case Remind => RemindEver(w.db, s.clock, key);
        case Prune =>
          QueueSteps.RowsWithout(q, Expired(q, MonthsAgo(s.clock.now, OUTBOX_RETENTION_MONTHS)));
          SameEver(q, Pruned(q, s.clock), key);
        case Tombstone =>
          TombstonesEver(w.db, s.clock.now, |w.db.accounts.companies|);
          SameEver(q, AfterTombstones(w.db, s.clock.now, |w.db.accounts.companies|).queue, key);
        case _ =>
      }
    }
  }

  lemma CommitEver(w: World, cycle: nat, key: DedupKey)
    requires RelayInv(w) && cycle in w.cycles && SerialsOk(w.db.queue)
    ensures EverKey(Commit(w.db, w.cycles[cycle]).queue, key) <==> EverKey(w.db.queue, key)
  {
    hide RelayInv, EverKey, SerialsOk, Rows;
    var q, p := w.db.queue, Commit(w.db, w.cycles[cycle]).queue;
    CommitOnward(w, cycle);
    CycleSteps.StagedKeys(w, cycle);
    CycleSteps.CommittedRows(q, w.cycles[cycle].staged);
    assert Rows(p).Keys == Rows(q).Keys by { StagedKnown(q, w.cycles[cycle].staged); }
    assert forall id | id in Rows(q) :: RowOnward(Rows(q)[id], Rows(p)[id]);
    SameEver(q, p, key);
  }

  lemma StagedKnown(q: Queue, staged: map<nat, OutboxRow>)
    requires staged.Keys <= q.outbox.Keys
    ensures (Rows(q) + staged).Keys == Rows(q).Keys
  {
  }

  /** A step adds exactly the keys it stages. */
  lemma StepEver(sha: Digest, cap: nat, w: World, s: Step, key: DedupKey)
    requires Inv(sha, w) && Enabled(w, s)
    ensures EverKey(After(sha, cap, w, s).db.queue, key) <==> EverKey(w.db.queue, key) || Stages(w, s, key)
  {
    hide Inv, DbInv, EverKey, Transacted, LoginsAfter, RecordsInOrder, Removed, LockedRows, BerlinDay, IsBatch,
         Bumped, AfterTombstones, Pruned, QueueInv, AccountInv, RelayInv, DeadLettersOk, LoginsOk, AfterSend,
         SmsQuota.Answer, SmsQuota.AfterSkip, SmsQuota.Gated, SweptKey, RemindedKey, Commit;
    InvParts(sha, w);
    match s.event {
      case CommitCycle(cycle) => CommitEver(w, cycle, key);
      case Claim(_, _) =>
      case AbortCycle(_) =>
      case SendRow(_, _, _) =>
      case _ => TransactedEver(sha, w, s, key);
    }
  }

  /** The keys of all rows ever committed are those of the start and those staged by the steps of the
      run, and no others: in particular the reminders of a deadline are exactly the tokens of the days
      it was swept while open, crossed with the recipients and channels of those days. */
  lemma {:induction false} EverKeysExact(sha: Digest, cap: nat, worlds: seq<World>, steps: seq<Step>, n: nat,
                                         key: DedupKey)
    requires Run(sha, cap, worlds, steps) && Inv(sha, worlds[0]) && n < |worlds|
    ensures EverKey(worlds[n].db.queue, key) <==>
      EverKey(worlds[0].db.queue, key) || exists i | 0 <= i < n :: Stages(worlds[i], steps[i], key)
  {
    hide Inv, Enabled, After, EverKey, Stages, Run;
    RunLength(sha, cap, worlds, steps);
    if n > 0 {
      EverKeysExact(sha, cap, worlds, steps, n - 1, key);
      StepOf(sha, cap, worlds, steps, n - 1);
      StepEver(sha, cap, worlds[n - 1], steps[n - 1], key);
    }
  }

  // ----- escalations along a run -----

  lemma CaseLater(a: Db, b: Db, c: nat)
    requires Grows(a, b) && c < |a.fleet.cases|
    ensures c < |b.fleet.cases| && Onward(a.fleet.cases[c], b.fleet.cases[c])
  {
  }

  /** After a case is breached or resolved no step of the run stages a nag or a breach notice for it. */
  lemma {:induction false} ClosedIsQuiet(sha: Digest, cap: nat, worlds: seq<World>, steps: seq<Step>, i: nat, j: nat,
                                         c: nat, key: DedupKey)
    requires Run(sha, cap, worlds, steps) && Inv(sha, worlds[0]) && i <= j < |worlds|
    requires c < |worlds[i].db.fleet.cases| && worlds[i].db.fleet.cases[c].status != CaseOpen
    requires (key.NagKey? || key.BreachKey?) && key.escalation == c
    ensures EverKey(worlds[j].db.queue, key) <==> EverKey(worlds[i].db.queue, key)
    decreases j
  {
    hide Inv, Run, Enabled, After, EverKey, Grows, AddressesOf;
    RunLength(sha, cap, worlds, steps);
    if i < j {
      ClosedIsQuiet(sha, cap, worlds, steps, i, j - 1, c, key);
      StepOf(sha, cap, worlds, steps, j - 1);
      StepEver(sha, cap, worlds[j - 1], steps[j - 1], key);
      RunGrows(sha, cap, worlds, steps, i, j - 1);
      CaseLater(worlds[i].db, worlds[j - 1].db, c);
    }
  }

  /** Some sweep of steps `i` to `j` runs after the deadline of the case and finds it open. */
  predicate LateSweep(worlds: seq<World>, steps: seq<Step>, c: nat, k: nat)
    requires k < |steps| && k < |worlds|
  {
    && steps[k].event.SweepCases?
    && c < |worlds[k].db.fleet.cases| && worlds[k].db.fleet.cases[c].status == CaseOpen
    && steps[k].clock.now > worlds[k].db.fleet.cases[c].deadlineAt
  }

  /** A case open at one point of a run is breached at a later one if and only if a sweep in between
      found it open after its deadline. */
  lemma {:induction false} BreachedByFirstLateSweep(sha: Digest, cap: nat, worlds: seq<World>, steps: seq<Step>,
                                                    i: nat, j: nat, c: nat)
    requires Run(sha, cap, worlds, steps) && Inv(sha, worlds[0]) && i <= j < |worlds|
    requires c < |worlds[i].db.fleet.cases| && worlds[i].db.fleet.cases[c].status == CaseOpen
    ensures c < |worlds[j].db.fleet.cases| && |worlds| == |steps| + 1
    ensures worlds[j].db.fleet.cases[c].status == Breached <==> exists k | i <= k < j :: LateSweep(worlds, steps, c, k)
    decreases j
  {
    hide Inv, Run, Enabled, After, Grows, LateSweep;
    RunLength(sha, cap, worlds, steps);
    if i < j {
      BreachedByFirstLateSweep(sha, cap, worlds, steps, i, j - 1, c);
      StepOf(sha, cap, worlds, steps, j - 1);
      BreachStep(sha, cap, worlds, steps, j - 1, c);
    }
  }

  lemma BreachStep(sha: Digest, cap: nat, worlds: seq<World>, steps: seq<Step>, k: nat, c: nat)
    requires k < |steps| && |worlds| == |steps| + 1 && Inv(sha, worlds[k]) && Enabled(worlds[k], steps[k])
    requires worlds[k + 1] == After(sha, cap, worlds[k], steps[k]) && c < |worlds[k].db.fleet.cases|
    ensures c < |worlds[k + 1].db.fleet.cases|
    ensures worlds[k + 1].db.fleet.cases[c].status == Breached <==>
      worlds[k].db.fleet.cases[c].status == Breached || LateSweep(worlds, steps, c, k)
  {
    hide Inv, Enabled, After, Grows;
    StepGrows(sha, cap, worlds[k], steps[k]);
    CaseLater(worlds[k].db, worlds[k + 1].db, c);
    if worlds[k].db.fleet.cases[c].status == CaseOpen {
      BreachExactly(sha, cap, worlds[k], steps[k], c);
    }
  }

  /** No message is ever staged twice: a key some step staged is carried by exactly one row from then
      on, pruned or not. */
  lemma OneRowPerKey(sha: Digest, w: World, key: DedupKey, i: nat, j: nat)
    requires Inv(sha, w) && i in Rows(w.db.queue) && j in Rows(w.db.queue)
    requires Rows(w.db.queue)[i].key == key && Rows(w.db.queue)[j].key == key
    ensures i == j
  {
    hide Inv, DbInv, Rows, KeyOk, DeliveryOk, StampOk;
    InvParts(sha, w);
  }
}
