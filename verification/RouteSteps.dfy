/** What the check transactions do to the lock, the ledger and the outbox, and exactly when a failed
    check can be recorded at all. */
module RouteSteps {
  import opened Wrappers
  import opened Calendar
  import BerlinTime
  import opened Records
  import opened Outbox
  import AccountServices
  import opened Evidence
  import opened Checks
  import opened Ledger
  import opened FleetInvariant
  import opened FleetSteps
  import opened QueueInvariant
  import QueueSteps
  import opened Routes
  import E6

  // ----- recipients have distinct addresses -----

  /** An active OWNER or MANAGER of the company is reached at a non-empty address. */
  predicate ReachedBy(u: User, company: nat, to: Address) {
    && u.company == company && u.active && (u.role == OWNER || u.role == MANAGER) && to.text != ""
    && match to.channel
       case EMAIL => to.text == (match u.email case Routable(text) => text case Erased(_) => "geloescht@invalid.local")
       case SMS => u.phone == Some(to.text)
  }

  lemma AddressesSplit(users: seq<User>, company: nat)
    requires users != []
    ensures var n := |users| - 1;
      AddressesOf(users, company) == AddressesOf(users[..n], company) +
        if Notified(users[n], company) then Channels(Recipient(MailText(users[n].email), users[n].phone)) else []
  {
    hide Channels, MailText, Notified;
    var n := |users| - 1;
    var before := ResolveRecipients(users[..n], company);
    if Notified(users[n], company) {
      var r := Recipient(MailText(users[n].email), users[n].phone);
      assert (before + [r])[..|before|] == before;
    } else {
      assert before + [] == before;
    }
  }

  /** Every address belongs to an active OWNER or MANAGER of the company. */
  lemma {:induction false} AddressSource(users: seq<User>, company: nat, k: nat) returns (i: nat)
    requires k < |AddressesOf(users, company)|
    ensures i < |users| && ReachedBy(users[i], company, AddressesOf(users, company)[k])
  {
    hide AddressesOf;
    if users == [] {
      assert AddressesOf(users, company) == [] by { NobodyAtAll(company); }
    } else {
      AddressesSplit(users, company);
      var n := |users| - 1;
      if k < |AddressesOf(users[..n], company)| {
        i := AddressSource(users[..n], company, k);
      } else {
        i := n;
      }
    }
  }

  lemma {:induction false} AddressTarget(users: seq<User>, company: nat, i: nat, n: nat, to: Address)
    requires i < n <= |users| && ReachedBy(users[i], company, to)
    ensures to in AddressesOf(users[..n], company)
  {
    hide AddressesOf;
    AddressesSplit(users[..n], company);
    assert users[..n][..n - 1] == users[..n - 1];
    if i < n - 1 {
      AddressTarget(users, company, i, n - 1, to);
    }
  }

  /** The addresses a company is notified at are exactly those of its active OWNERs and MANAGERs. */
  lemma RecipientsExactly(users: seq<User>, company: nat, to: Address)
    ensures to in AddressesOf(users, company) <==> exists i | 0 <= i < |users| :: ReachedBy(users[i], company, to)
  {
    hide AddressesOf, ReachedBy;
    assert users[..|users|] == users;
    if to in AddressesOf(users, company) {
      var k :| 0 <= k < |AddressesOf(users, company)| && AddressesOf(users, company)[k] == to;
      var i := AddressSource(users, company, k);
    }
    forall i | 0 <= i < |users| && ReachedBy(users[i], company, to)
      ensures to in AddressesOf(users, company)
    {
      AddressTarget(users, company, i, |users|, to);
    }
  }

  lemma NobodyAtAll(company: nat)
    ensures AddressesOf([], company) == []
  {
  }

  /** No two active users share an e-mail address and only the OWNER has a phone number, so no address
      is listed twice. */
  lemma {:induction false} AddressesDistinct(a: Accounts, company: nat, n: nat)
    requires AccountServices.AccountInv(a) && n <= |a.users|
    ensures Distinct(AddressesOf(a.users[..n], company))
  {
    hide AddressesOf, AccountServices.AccountInv, ReachedBy, MailText;
    if n == 0 {
      NobodyAtAll(company);
    } else {
      var short, u := a.users[..n - 1], a.users[n - 1];
      assert a.users[..n][..n - 1] == short;
      AddressesDistinct(a, company, n - 1);
      AddressesSplit(a.users[..n], company);
      var told := AddressesOf(short, company);
      forall k | 0 <= k < |told|
        ensures Notified(u, company) ==> told[k] !in Channels(Recipient(MailText(u.email), u.phone))
      {
        var i := AddressSource(short, company, k);
        if Notified(u, company) {
          UsersApart(a, i, n - 1, company, told[k]);
        }
      }
    }
  }

  lemma UsersApart(a: Accounts, i: nat, j: nat, company: nat, to: Address)
    requires AccountServices.AccountInv(a) && i < j < |a.users|
    requires ReachedBy(a.users[i], company, to) && Notified(a.users[j], company)
    ensures to !in Channels(Recipient(MailText(a.users[j].email), a.users[j].phone))
  {
  }

  // ----- when a failed check commits -----

  lemma FreshKeys(db: Db, today: Day, company: nat, told: seq<Address>, clock: Clock)
    requires QueueInv(db, today)
    ensures Collides(db.queue.outbox, E6.Messages(company, db.queue.triggers, told, clock)) <==> !Distinct(told)
  {
    hide QueueInv, KeyTaken;
    var rows := E6.Messages(company, db.queue.triggers, told, clock);
    forall i | 0 <= i < |rows|
      ensures !KeyTaken(db.queue.outbox, rows[i].key)
    {
      E6NeverRemoved(db, today, told[i]);
    }
    if !Distinct(told) {
      var i, j :| 0 <= i < j < |told| && told[i] == told[j];
      assert rows[i].key == rows[j].key;
    }
  }

  /** A failed check of a visible driver is recorded if and only if the driver already has an open case
      or the recipients' addresses are pairwise distinct; otherwise the request fails and nothing,
      not even the evidence, is kept. */
  lemma FailedCheckCommits(sha: Digest, db: Db, today: Day, company: nat, driver: nat, day: Day, uuid: nat,
                           clock: Clock)
    requires QueueInv(db, today) && Visible(db.fleet, company, driver)
    ensures var e := FailedCheck(sha, db, company, driver, day, uuid, clock);
      && (e.response == Done <==>
            E6.OpenCase(db.fleet.cases, driver).Some? || Distinct(AddressesOf(db.accounts.users, company)))
      && (e.response != Done ==> e == Effect(Failed, db))
  {
    hide QueueInv, AddressesOf, Collides, E6.Escalated, Distinct, Recorded, E6.OpenCase;
    var told := AddressesOf(db.accounts.users, company);
    FreshKeys(db, today, company, told, clock);
  }

  lemma TwoUsers(u: User, v: User)
    ensures AddressesOf([u, v], 0) ==
            (if Notified(u, 0) then Channels(Recipient(MailText(u.email), u.phone)) else []) +
            (if Notified(v, 0) then Channels(Recipient(MailText(v.email), v.phone)) else [])
  {
    hide AddressesOf, Channels, Notified, MailText;
    assert [u, v][..1] == [u] && [u][..0] == [];
    NobodyAtAll(0);
    AddressesSplit([u], 0);
    AddressesSplit([u, v], 0);
  }

  /** The database of a company whose two users gave the same phone number. */
  function SharedPhone(): Db {
    var owner := User(0, Routable("a"), OWNER, Some("+49"), true, true);
    var manager := User(0, Routable("b"), MANAGER, Some("+49"), true, true);
    Db(Accounts([Company("c", 12, None, None)], [owner, manager], [], []),
       Fleet([NewDriver(0, "x", "y")], [], [], [], []), [], Queue(map[], 0, map[], 0))
  }

  lemma SharedAddresses()
    ensures !Distinct(AddressesOf(SharedPhone().accounts.users, 0))
  {
    hide AddressesOf;
    var users := SharedPhone().accounts.users;
    TwoUsers(users[0], users[1]);
    var told := AddressesOf(users, 0);
    assert told == [Address(EMAIL, "a"), Address(SMS, "+49"), Address(EMAIL, "b"), Address(SMS, "+49")];
    assert told[1] == told[3];
  }

  /** Two managers sharing a phone number: the failed check cannot be recorded and the driver stays cleared. */
  lemma SharedPhoneBlocks(sha: Digest, clock: Clock)
    ensures Visible(SharedPhone().fleet, 0, 0) && SharedPhone().fleet.drivers[0].authorized
    ensures FailedCheck(sha, SharedPhone(), 0, 0, clock.today, 0, clock) == Effect(Failed, SharedPhone())
  {
    hide FailedCheck, Distinct, AddressesOf, QueueInv;
    SharedAddresses();
    EmptyQueueOk(SharedPhone(), clock.today);
    FailedCheckCommits(sha, SharedPhone(), clock.today, 0, 0, clock.today, 0, clock);
  }

  lemma EmptyQueueOk(db: Db, today: Day)
    requires db.queue == Queue(map[], 0, map[], 0)
    ensures QueueInv(db, today)
  {
  }

  // ----- the ledger always has its open obligation -----

  lemma AlwaysOpen(f: Fleet, s: Subject, kind: Kind)
    requires LedgerInv(f) && Owes(s, kind) && SubjectExists(f, s)
    ensures OpenDeadline(f.deadlines, SubjectCompany(f, s), s, kind).Some?
  {
    hide SuccessorDue, DeadlinesOf, Chain, Completing, OpenDeadline;
    assert KindBalanced(f, s, kind);
    var ds := DeadlinesOf(f.deadlines, s, kind);
    var id := FoundIn(f.deadlines, |ds| - 1, s, kind);
    assert DeadlineOk(f, f.deadlines[id]);
    assert IsOpen(f.deadlines[id], SubjectCompany(f, s), s, kind);
  }

  // ----- a failed check -----

  function CheckEntry(sha: Digest, db: Db, company: nat, driver: nat, result: string, day: Day, uuid: nat,
                      clock: Clock): LogEntry
  {
    NewEntry(sha, db.fleet.log, SightCheck(company, driver, result, day), uuid, clock)
  }

  lemma FailedKeepsLedger(f: Fleet, e: LogEntry, drivers: seq<Driver>, cases: seq<EscalationCase>)
    requires LedgerInv(f) && EntryOk(f, e) && e.kind == "FSK" && e.result == FAILED && SameCompanies(f.drivers, drivers)
    ensures LedgerInv(f.(log := f.log + [e], drivers := drivers, cases := cases))
  {
    hide LedgerInv, Matches;
    LogKeepsLedger(f, e);
    LedgerFrame(f.(log := f.log + [e]), f.(log := f.log + [e], drivers := drivers, cases := cases));
  }

  lemma FailedCheckKeepsFleet(sha: Digest, db: Db, company: nat, driver: nat, day: Day, uuid: nat, clock: Clock)
    requires LockInv(db.fleet, db.alerts) && LedgerInv(db.fleet) && Visible(db.fleet, company, driver)
    ensures var b := FailedCheck(sha, db, company, driver, day, uuid, clock).db;
      LockInv(b.fleet, b.alerts) && LedgerInv(b.fleet)
  {
    hide LockInv, LedgerInv, AddressesOf, Collides, Append, E6.Messages, BerlinTime.EscalationDeadline, Latest,
         EntryHash, E6.OpenCase;
    var f, e := db.fleet, CheckEntry(sha, db, company, driver, FAILED, day, uuid, clock);
    var open := E6.OpenCase(f.cases, driver);
    if open.Some? {
      OpenMeansLocked(f, db.alerts, open.value);
      FailOnLocked(f, db.alerts, driver, e);
      FailedKeepsLedger(f, e, f.drivers, f.cases);
    } else {
      var told := AddressesOf(db.accounts.users, company);
      var locked, k := E6.Locked(f.drivers[driver], clock), E6.NewCase(company, driver, db.queue.triggers, told, clock);
      LockKeepsInvariant(f, db.alerts, driver, e, locked, k, E6.LockAlert(company, driver, |f.cases|, clock));
      FailedKeepsLedger(f, e, f.drivers[driver := locked], f.cases + [k]);
    }
  }

  lemma OpenMeansLocked(f: Fleet, alerts: seq<Alert>, c: nat)
    requires LockInv(f, alerts) && c < |f.cases| && f.cases[c].status == CaseOpen
    ensures f.cases[c].driver < |f.drivers| && !f.drivers[f.cases[c].driver].authorized
  {
    assert CaseOk(f, alerts, c);
  }

  // ----- a passed check -----

  lemma PassedCheckKeepsFleet(sha: Digest, db: Db, company: nat, driver: nat, day: Day, uuid: nat, clock: Clock)
    requires LockInv(db.fleet, db.alerts) && LedgerInv(db.fleet) && Visible(db.fleet, company, driver)
    ensures var b := PassedCheck(sha, db, company, driver, day, uuid, clock);
      b.response == Done && LockInv(b.db.fleet, b.db.alerts) && LedgerInv(b.db.fleet)
  {
    hide LockInv, LedgerInv, RolledForward, Latest, EntryHash, E6.OpenCase, OpenDeadline;
    var f, e := db.fleet, CheckEntry(sha, db, company, driver, PASSED, day, uuid, clock);
    AlwaysOpen(f, OfDriver(driver), FSK);
    var id := OpenDeadline(f.deadlines, company, OfDriver(driver), FSK).value;
    ClearKeepsInvariant(f, db.alerts, driver, e, clock);
    CompleteKeepsLedger(sha, f, id, company, PASSED, day, Some(BY_SIGHT), uuid, clock);
    var rolled := f.(deadlines := RolledForward(f, id, PASSED, day), log := f.log + [e]);
    var cleared := Cleared(rolled, driver, clock);
    LockFrame(Cleared(f.(log := f.log + [e]), driver, clock), cleared, db.alerts);
    LedgerFrame(rolled, cleared);
  }

  // ----- a vehicle check -----

  predicate NamesVehicle(f: Fleet, s: Subject) {
    !s.OfDriver? && SubjectExists(f, s)
  }

  lemma VehicleCheckKeepsFleet(sha: Digest, db: Db, caller: User, vehicle: Subject, kind: string, result: string,
                               performedOn: Option<Day>, uuid: nat, clock: Clock)
    requires LockInv(db.fleet, db.alerts) && LedgerInv(db.fleet) && NamesVehicle(db.fleet, vehicle)
    ensures var b := VehicleCheck(sha, db, caller, vehicle, kind, result, performedOn, uuid, clock).db;
      LockInv(b.fleet, b.alerts) && LedgerInv(b.fleet)
  {
    hide LockInv, LedgerInv, RolledForward, Latest, EntryHash, OpenDeadline;
    var f, day, company := db.fleet, OrToday(performedOn, clock), caller.company;
    var k := if kind == "HU" then HU else UVV;
    var open := OpenDeadline(f.deadlines, company, vehicle, k);
    var text := if open.Some? then KindText(k) else kind;
    var e := NewEntry(sha, f.log, Fields(company, vehicle, text, result, day, Some(BY_WORKSHOP)), uuid, clock);
    LogKeepsLock(f, db.alerts, e);
    if open.Some? {
      CompleteKeepsLedger(sha, f, open.value, company, result, day, Some(BY_WORKSHOP), uuid, clock);
      var rolled := f.(deadlines := RolledForward(f, open.value, result, day), log := f.log + [e]);
      LockFrame(f.(log := f.log + [e]), rolled, db.alerts);
    } else {
      AdHocKeepsLedger(f, e, k);
    }
  }

  /** Evidence recorded without an obligation is about another company's vehicle or about none. */
  lemma AdHocKeepsLedger(f: Fleet, e: LogEntry, k: Kind)
    requires LedgerInv(f) && NamesVehicle(f, e.subject) && k != FSK && (e.kind == KindText(HU) ==> k == HU)
    requires OpenDeadline(f.deadlines, e.company, e.subject, k).None? && (k == HU ==> e.kind == KindText(HU))
    ensures LedgerInv(f.(log := f.log + [e]))
  {
    hide LedgerInv, OpenDeadline;
    forall s: Subject, kind: Kind | Owes(s, kind) && SubjectExists(f, s)
      ensures !(Matches(e, SubjectCompany(f, s), s) && Completes(e, kind))
    {
      AlwaysOpen(f, s, kind);
    }
    LogKeepsLedger(f, e);
  }

  // ----- the outbox -----

  lemma FailedCheckKeepsQueue(sha: Digest, db: Db, company: nat, driver: nat, day: Day, uuid: nat, today: Day,
                              clock: Clock)
    requires QueueInv(db, today) && today <= clock.today && clock.Valid()
    requires Visible(db.fleet, company, driver) && !Deleted(db.accounts.companies, company)
    ensures QueueInv(FailedCheck(sha, db, company, driver, day, uuid, clock).db, clock.today)
  {
    hide QueueInv, AddressesOf, Collides, E6.Messages, E6.Escalated, Latest, EntryHash, KeepsKeys, E6.OpenCase,
         BerlinTime.BerlinDay;
    var logged := WithEvidence(sha, db, SightCheck(company, driver, FAILED, day), uuid, clock);
    SameKeys(db.fleet, logged.fleet);
    SameCompanyTable(db.accounts.companies);
    QueueFrame(db, logged, today, clock.today);
    QueueFrame(db, db, today, clock.today) by { SameKeys(db.fleet, db.fleet); }
    QueueFrame(db, TriggerDrawn(logged), today, clock.today);
    var told := AddressesOf(db.accounts.users, company);
    if !Collides(db.queue.outbox, E6.Messages(company, db.queue.triggers, told, clock)) {
      QueueSteps.EscalationKeepsQueue(logged, driver, company, told, clock.today, clock);
    }
  }

  lemma SameKeys(f: Fleet, g: Fleet)
    requires g.cases == f.cases && g.deadlines == f.deadlines
    ensures KeepsKeys(f, g)
  {
  }

  lemma SameCompanyTable(a: seq<Company>)
    ensures KeepsCompanies(a, a)
  {
  }
}
