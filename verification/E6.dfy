/** app/services/e6.py: the atomic lock and escalation after a failed Fuehrerscheinkontrolle. */
module E6 {
  import opened Wrappers
  import BerlinTime
  import opened Records
  import opened Outbox

  const ESCALATION_DAYS := 7
  const LOCK_REASON_FSK := "FSK_FAILED"

  datatype Error = DriverNotFound | StaleDriverState | IntegrityError

  /** What one call reports: a fresh escalation with its case, its alert and its `rowCount` outbox rows
      numbered from `firstRow`, the replay of an open one, or an exception. */
  datatype Result =
    | Fresh(escalation: nat, alert: nat, firstRow: nat, rowCount: nat)
    | Replay(escalation: nat)
    | Raised(error: Error)

  // ----- specification -----

  predicate IsOpenFor(c: EscalationCase, driver: nat) {
    c.driver == driver && c.status == CaseOpen
  }

  /** The open case of a driver, the latest should there be several. */
  function OpenCase(cases: seq<EscalationCase>, driver: nat): (r: Option<nat>)
    ensures r.Some? ==> r.value < |cases| && IsOpenFor(cases[r.value], driver)
    ensures r.None? ==> forall c | 0 <= c < |cases| :: !IsOpenFor(cases[c], driver)
  {
    if cases == [] then None
    else if IsOpenFor(cases[|cases| - 1], driver) then Some(|cases| - 1)
    else OpenCase(cases[..|cases| - 1], driver)
  }

  function Messages(company: nat, trigger: nat, told: seq<Address>, clock: Clock): (rows: seq<OutboxRow>)
    ensures |rows| == |told|
  {
    seq(|told|, i requires 0 <= i < |told| => NewRow(company, FskFailedCritical, 0, E6Key(trigger, told[i]), clock))
  }

  function Locked(d: Driver, clock: Clock): Driver {
    d.(authorized := false, lockReason := Some(LOCK_REASON_FSK), lockedAt := Some(clock.now), version := d.version + 1)
  }

  function NewCase(company: nat, driver: nat, trigger: nat, told: seq<Address>, clock: Clock): EscalationCase {
    EscalationCase(company, driver, CaseOpen, BerlinTime.EscalationDeadline(clock.now, ESCALATION_DAYS), None, None, clock.today, trigger, told)
  }

  function LockAlert(company: nat, driver: nat, escalation: nat, clock: Clock): Alert {
    Alert(company, CRITICAL, FskFailedLock, Some(driver), Some(escalation), clock.began)
  }

  /** Why the pipeline raises, if it does. `loaded` is the version of the driver row the session had
      already loaded before taking the row lock, if any. */
  function Failure(db: Db, driver: nat, company: nat, told: seq<Address>, trigger: nat, loaded: Option<nat>,
                   clock: Clock): Option<Error>
  {
    var drivers := db.fleet.drivers;
    if driver >= |drivers| || drivers[driver].company != company then Some(DriverNotFound)
    else if loaded.Some? && loaded.value != drivers[driver].version then Some(StaleDriverState)
    else if OpenCase(db.fleet.cases, driver).Some? then Some(IntegrityError)
    else if Collides(db.queue.outbox, Messages(company, trigger, told, clock)) then Some(IntegrityError)
    else None
  }

  /** The database after a fresh escalation. */
  function Escalated(db: Db, driver: nat, company: nat, told: seq<Address>, trigger: nat, clock: Clock): Db
    requires driver < |db.fleet.drivers|
  {
    var f := db.fleet;
    db.(fleet := f.(drivers := f.drivers[driver := Locked(f.drivers[driver], clock)],
                    cases := f.cases + [NewCase(company, driver, trigger, told, clock)]),
        alerts := db.alerts + [LockAlert(company, driver, |f.cases|, clock)],
        queue := Append(db.queue, Messages(company, trigger, told, clock)))
  }

  function RunResult(db: Db, driver: nat, company: nat, told: seq<Address>, trigger: nat, loaded: Option<nat>,
                     clock: Clock): Result
  {
    match Failure(db, driver, company, told, trigger, loaded, clock)
    case None => Fresh(|db.fleet.cases|, |db.alerts|, db.queue.nextRow, |told|)
    case Some(e) =>
      if e == IntegrityError && OpenCase(db.fleet.cases, driver).Some? then Replay(OpenCase(db.fleet.cases, driver).value)
      else Raised(e)
  }

  function RunState(db: Db, driver: nat, company: nat, told: seq<Address>, trigger: nat, loaded: Option<nat>,
                    clock: Clock): Db
  {
    if Failure(db, driver, company, told, trigger, loaded, clock).None?
    then Escalated(db, driver, company, told, trigger, clock) else db
  }

  /** What a call reports, read off the tables: the driver must be the company's, the row as fresh as the one
      loaded, no case open, no key taken, in that order; an open case turns the call into its replay.
      Whatever is not fresh leaves the database as it was. */
  lemma OutcomeExactly(db: Db, driver: nat, company: nat, told: seq<Address>, trigger: nat, loaded: Option<nat>,
                       clock: Clock)
    ensures var r, drivers, cases, outbox := RunResult(db, driver, company, told, trigger, loaded, clock), db.fleet.drivers, db.fleet.cases, db.queue.outbox;
      if driver >= |drivers| || drivers[driver].company != company then r == Raised(DriverNotFound)
      else if loaded != None && loaded.value != drivers[driver].version then r == Raised(StaleDriverState)
      else if exists c | 0 <= c < |cases| :: cases[c].driver == driver && cases[c].status == CaseOpen then
        r.Replay? && r.escalation < |cases| && cases[r.escalation].driver == driver && cases[r.escalation].status == CaseOpen
      else if (exists i, id | 0 <= i < |told| && id in outbox :: outbox[id].key == E6Key(trigger, told[i]))
              || (exists i, j | 0 <= i < j < |told| :: told[i] == told[j])
      then r == Raised(IntegrityError)
      else r == Fresh(|cases|, |db.alerts|, db.queue.nextRow, |told|)
    ensures !RunResult(db, driver, company, told, trigger, loaded, clock).Fresh? ==>
      RunState(db, driver, company, told, trigger, loaded, clock) == db
  {
    hide OpenCase, Collides, Messages, Escalated;
    HasOpenCase(db.fleet.cases, driver);
    MessagesCollide(db.queue.outbox, company, trigger, told, clock);
  }

  lemma HasOpenCase(cases: seq<EscalationCase>, driver: nat)
    ensures OpenCase(cases, driver).Some? <==> exists c | 0 <= c < |cases| :: cases[c].driver == driver && cases[c].status == CaseOpen
  {
    forall c | 0 <= c < |cases|
      ensures IsOpenFor(cases[c], driver) <==> cases[c].driver == driver && cases[c].status == CaseOpen
    {
    }
  }

  lemma MessagesCollide(outbox: map<nat, OutboxRow>, company: nat, trigger: nat, told: seq<Address>, clock: Clock)
    ensures Collides(outbox, Messages(company, trigger, told, clock)) <==>
      || (exists i, id | 0 <= i < |told| && id in outbox :: outbox[id].key == E6Key(trigger, told[i]))
      || (exists i, j | 0 <= i < j < |told| :: told[i] == told[j])
  {
    var rows := Messages(company, trigger, told, clock);
    forall i | 0 <= i < |told|
      ensures KeyTaken(outbox, rows[i].key) <==> exists id | id in outbox :: outbox[id].key == E6Key(trigger, told[i])
    {
    }
    forall i, j | 0 <= i < j < |told|
      ensures rows[i].key == rows[j].key <==> told[i] == told[j]
    {
    }
  }

  // ----- the service -----

  /** `handle_failed_license_check`. On an exception the tables are left half written: the caller's
      savepoint undoes them. */
  method HandleFailedLicenseCheck(s: Session, driver: nat, company: nat, trigger: nat, recipients: seq<Recipient>,
                                  loaded: Option<nat>, clock: Clock) returns (r: Result)
    modifies s
    ensures var told := Addresses(recipients);
      match Failure(old(s.State()), driver, company, told, trigger, loaded, clock)
      case Some(e) => r == Raised(e)
      case None =>
        && r == RunResult(old(s.State()), driver, company, told, trigger, loaded, clock)
        && s.State() == Escalated(old(s.State()), driver, company, told, trigger, clock)
  {
    hide BerlinTime.EscalationDeadline, Addresses, Append, Collides, Messages, OpenCase;
    if driver >= |s.fleet.drivers| || s.fleet.drivers[driver].company != company {
      return Raised(DriverNotFound);
    }
    var deadline := BerlinTime.EscalationDeadline(clock.now, ESCALATION_DAYS);

    // hard lock and open case; both guard rails fire at the first flush
    var row := s.fleet.drivers[driver];
    var clash := OpenCase(s.fleet.cases, driver);
    s.fleet := s.fleet.(drivers := s.fleet.drivers[driver :=
      row.(authorized := false, lockReason := Some(LOCK_REASON_FSK), lockedAt := Some(clock.now), version := row.version + 1)]);
    var caseId := |s.fleet.cases|;
    s.fleet := s.fleet.(cases := s.fleet.cases +
      [EscalationCase(company, driver, CaseOpen, deadline, None, None, clock.today, trigger, Addresses(recipients))]);
    if loaded.Some? && loaded.value != row.version {
      return Raised(StaleDriverState);
    }
    if clash.Some? {
      return Raised(IntegrityError);
    }

    var alertId := |s.alerts|;
    s.alerts := s.alerts + [Alert(company, CRITICAL, FskFailedLock, Some(driver), Some(caseId), clock.began)];

    var messages := StageMessages(company, trigger, recipients, clock);
    if Collides(s.queue.outbox, messages) {
      return Raised(IntegrityError);
    }
    var firstRow := s.queue.nextRow;
    s.queue := Append(s.queue, messages);
    return Fresh(caseId, alertId, firstRow, |messages|);
  }

  /** The message loop: e-mail and SMS for each recipient that has them, at critical priority. */
  method StageMessages(company: nat, trigger: nat, recipients: seq<Recipient>, clock: Clock)
      returns (messages: seq<OutboxRow>)
    ensures messages == Messages(company, trigger, Addresses(recipients), clock)
  {
    hide NewRow;
    messages := [];
    for i := 0 to |recipients|
      invariant messages == Messages(company, trigger, Addresses(recipients[..i]), clock)
    {
      var r := recipients[i];
      if r.email != "" {
        messages := messages + [NewRow(company, FskFailedCritical, 0, E6Key(trigger, Address(EMAIL, r.email)), clock)];
      }
      if r.phone.Some? && r.phone.value != "" {
        messages := messages + [NewRow(company, FskFailedCritical, 0, E6Key(trigger, Address(SMS, r.phone.value)), clock)];
      }
      assert recipients[..i + 1][..i] == recipients[..i];
    }
    assert recipients[..|recipients|] == recipients;
  }

  /** `run_e6`: the pipeline inside a savepoint; an integrity error with an open case is a replay. */
  method RunE6(s: Session, driver: nat, company: nat, trigger: nat, recipients: seq<Recipient>,
               loaded: Option<nat>, clock: Clock) returns (r: Result)
    modifies s
    ensures r == RunResult(old(s.State()), driver, company, Addresses(recipients), trigger, loaded, clock)
    ensures s.State() == RunState(old(s.State()), driver, company, Addresses(recipients), trigger, loaded, clock)
  {
    var savepoint := s.State();
    r := HandleFailedLicenseCheck(s, driver, company, trigger, recipients, loaded, clock);
    if r.Raised? {
      s.RollbackTo(savepoint);
      if r.error == IntegrityError {
        var existing := OpenCase(s.fleet.cases, driver);
        if existing.Some? {
          return Replay(existing.value);
        }
      }
    }
  }
}
