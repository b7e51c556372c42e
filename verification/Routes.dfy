/** The driver and vehicle transactions of app/web/drivers.py and app/web/vehicles.py. A request that
    raises rolls its whole transaction back. Row-level security shows a request only the rows of the
    caller's company. */
module Routes {
  import opened Wrappers
  import opened Calendar
  import opened MonthRules
  import opened Records
  import Outbox
  import opened Evidence
  import opened Checks
  import Ledger
  import FleetSteps
  import E6

  const BY_SIGHT := "SICHT"
  const BY_WORKSHOP := "WERKSTATT"
  const DEFAULT_HU_INTERVAL := 24

  datatype Response = Done | Forbidden | BadRequest | NotFound | Failed

  datatype Effect = Effect(response: Response, db: Db)

  function OrToday(day: Option<Day>, clock: Clock): Day {
    if day.Some? then day.value else clock.today
  }

  // ----- creating subjects -----

  function NewDriver(company: nat, first: string, last: string): Driver {
    Driver(company, first, last, None, None, true, None, None, 1)
  }

  function CreatedDriver(db: Db, caller: User, first: string, last: string, start: Option<Day>, clock: Clock): Effect {
    if caller.role == VIEWER then Effect(Forbidden, db)
    else if first == "" || last == "" then Effect(BadRequest, db)
    else Effect(Done, db.(fleet := FleetSteps.WithDriver(db.fleet, NewDriver(caller.company, first, last), FirstFskDue(OrToday(start, clock)))))
  }

  /** `plate` is the outcome of validating the Kennzeichen, `interval` the number the form held. */
  function CreatedVehicle(db: Db, caller: User, plate: bool, interval: Option<int>, registered: Option<Day>,
                          clock: Clock): Effect
  {
    if caller.role == VIEWER then Effect(Forbidden, db)
    else if !plate then Effect(BadRequest, db)
    else
      var anchor := OrToday(registered, clock);
      var v := Vehicle(caller.company, if interval.Some? then interval.value else DEFAULT_HU_INTERVAL);
      Effect(Done, db.(fleet := FleetSteps.WithVehicle(db.fleet, v, FirstHuDue(anchor), FirstUvvDue(anchor))))
  }

  method CreateDriver(s: Session, caller: User, first: string, last: string, start: Option<Day>, clock: Clock)
      returns (response: Response)
    modifies s
    ensures Effect(response, s.State()) == CreatedDriver(old(s.State()), caller, first, last, start, clock)
  {
    hide FirstFskDue;
    if caller.role == VIEWER {
      return Forbidden;
    }
    if first == "" || last == "" {
      return BadRequest;
    }
    var driver := |s.fleet.drivers|;
    s.fleet := s.fleet.(drivers := s.fleet.drivers + [NewDriver(caller.company, first, last)]);
    var due := FirstFskDue(OrToday(start, clock));
    s.fleet := s.fleet.(deadlines := s.fleet.deadlines + [Deadline(caller.company, FSK, OfDriver(driver), due, DeadlineOpen, None, false)]);
    return Done;
  }

  method CreateVehicle(s: Session, caller: User, plate: bool, interval: Option<int>, registered: Option<Day>,
                       clock: Clock)
      returns (response: Response)
    modifies s
    ensures Effect(response, s.State()) == CreatedVehicle(old(s.State()), caller, plate, interval, registered, clock)
  {
    hide FirstHuDue, FirstUvvDue;
    if caller.role == VIEWER {
      return Forbidden;
    }
    if !plate {
      return BadRequest;
    }
    var months := DEFAULT_HU_INTERVAL;
    if interval.Some? {
      months := interval.value;
    }
    var vehicle := OfVehicle(|s.fleet.vehicles|);
    s.fleet := s.fleet.(vehicles := s.fleet.vehicles + [Vehicle(caller.company, months)]);
    var anchor := OrToday(registered, clock);
    s.fleet := s.fleet.(deadlines := s.fleet.deadlines +
      [Deadline(caller.company, HU, vehicle, FirstHuDue(anchor), DeadlineOpen, None, false)]);
    s.fleet := s.fleet.(deadlines := s.fleet.deadlines +
      [Deadline(caller.company, UVV, vehicle, FirstUvvDue(anchor), DeadlineOpen, None, false)]);
    return Done;
  }

  // ----- Fuehrerscheinkontrolle -----

  function SightCheck(company: nat, driver: nat, result: string, day: Day): Fields {
    Fields(company, OfDriver(driver), "FSK", result, day, Some(BY_SIGHT))
  }

  /** Evidence written, trigger id drawn: what E6 starts from. */
  function WithEvidence(sha: Digest, db: Db, fields: Fields, uuid: nat, clock: Clock): Db {
    db.(fleet := db.fleet.(log := Recorded(sha, db.fleet.log, fields, uuid, clock)))
  }

  function TriggerDrawn(db: Db): Db {
    db.(queue := db.queue.(triggers := db.queue.triggers + 1))
  }

  function FailedCheck(sha: Digest, db: Db, company: nat, driver: nat, day: Day, uuid: nat, clock: Clock): Effect
    requires driver < |db.fleet.drivers|
  {
    var told, t, loaded := Outbox.AddressesOf(db.accounts.users, company), db.queue.triggers, Some(db.fleet.drivers[driver].version);
    var from := TriggerDrawn(WithEvidence(sha, db, SightCheck(company, driver, FAILED, day), uuid, clock));
    if E6.RunResult(from, driver, company, told, t, loaded, clock).Raised? then Effect(Failed, db)
    else Effect(Done, E6.RunState(from, driver, company, told, t, loaded, clock))
  }

  function PassedCheck(sha: Digest, db: Db, company: nat, driver: nat, day: Day, uuid: nat, clock: Clock): Effect
    requires driver < |db.fleet.drivers|
  {
    var open := Ledger.OpenDeadline(db.fleet.deadlines, company, OfDriver(driver), FSK);
    if open.Some? then
      var f := Completed(sha, db.fleet, open.value, company, PASSED, day, Some(BY_SIGHT), uuid, clock);
      if f.Some? then Effect(Done, db.(fleet := f.value)) else Effect(Failed, db)
    else
      var logged := WithEvidence(sha, db, SightCheck(company, driver, PASSED, day), uuid, clock);
      Effect(Done, logged.(fleet := Cleared(logged.fleet, driver, clock)))
  }

  predicate Visible(f: Fleet, company: nat, driver: nat) {
    driver < |f.drivers| && f.drivers[driver].company == company
  }

  /** `record_driver_check`: any result other than FAILED counts as passed. */
  function DriverCheck(sha: Digest, db: Db, caller: User, driver: nat, result: string, performedOn: Option<Day>,
                       uuid: nat, clock: Clock): Effect
  {
    if caller.role == VIEWER then Effect(Forbidden, db)
    else if !Visible(db.fleet, caller.company, driver) then Effect(NotFound, db)
    else if result == FAILED then FailedCheck(sha, db, caller.company, driver, OrToday(performedOn, clock), uuid, clock)
    else PassedCheck(sha, db, caller.company, driver, OrToday(performedOn, clock), uuid, clock)
  }

  method RecordDriverCheck(s: Session, sha: Digest, caller: User, driver: nat, result: string, performedOn: Option<Day>,
                           uuid: nat, clock: Clock) returns (response: Response)
    modifies s
    ensures Effect(response, s.State()) == DriverCheck(sha, old(s.State()), caller, driver, result, performedOn, uuid, clock)
  {
    hide FailedCheck, PassedCheck;
    if caller.role == VIEWER {
      return Forbidden;
    }
    var day := OrToday(performedOn, clock);
    if driver >= |s.fleet.drivers| || s.fleet.drivers[driver].company != caller.company {
      return NotFound;
    }
    if result == FAILED {
      response := RecordFailed(s, sha, caller.company, driver, day, uuid, clock);
    } else {
      response := RecordPassed(s, sha, caller.company, driver, day, uuid, clock);
    }
  }

  /** Evidence first, then the atomic lock, case and outbox. */
  method RecordFailed(s: Session, sha: Digest, company: nat, driver: nat, day: Day, uuid: nat, clock: Clock)
      returns (response: Response)
    requires driver < |s.fleet.drivers|
    modifies s
    ensures Effect(response, s.State()) == FailedCheck(sha, old(s.State()), company, driver, day, uuid, clock)
  {
    hide Recorded, E6.RunState, E6.RunResult, Outbox.Addresses, Outbox.ResolveRecipients;
    var start := s.State();
    var version := s.fleet.drivers[driver].version;
    RecordCheck(s, sha, SightCheck(company, driver, FAILED, day), uuid, clock);
    var recipients := Outbox.ResolveRecipients(s.accounts.users, company);
    var trigger := s.queue.triggers;
    s.queue := s.queue.(triggers := trigger + 1);
    assert s.State() == TriggerDrawn(WithEvidence(sha, start, SightCheck(company, driver, FAILED, day), uuid, clock));
    var r := E6.RunE6(s, driver, company, trigger, recipients, Some(version), clock);
    if r.Raised? {
      s.RollbackTo(start);
      return Failed;
    }
    return Done;
  }

  method RecordPassed(s: Session, sha: Digest, company: nat, driver: nat, day: Day, uuid: nat, clock: Clock)
      returns (response: Response)
    requires driver < |s.fleet.drivers|
    modifies s
    ensures Effect(response, s.State()) == PassedCheck(sha, old(s.State()), company, driver, day, uuid, clock)
  {
    hide Recorded, Completed, Cleared;
    var start := s.State();
    var open := Ledger.OpenDeadline(s.fleet.deadlines, company, OfDriver(driver), FSK);
    if open.Some? {
      var found := CompleteDeadline(s, sha, open.value, company, PASSED, day, Some(BY_SIGHT), uuid, clock);
      if !found {
        s.RollbackTo(start);
        return Failed;
      }
    } else {
      RecordCheck(s, sha, SightCheck(company, driver, PASSED, day), uuid, clock);
      var _ := MaybeResolveOpenCase(s, driver, clock);
    }
    return Done;
  }

  // ----- HU and UVV -----

  /** The client names the vehicle by an id of its choice; the kind is free text, anything but HU means UVV. */
  function VehicleCheck(sha: Digest, db: Db, caller: User, vehicle: Subject, kind: string, result: string,
                        performedOn: Option<Day>, uuid: nat, clock: Clock): Effect
  {
    if caller.role == VIEWER then Effect(Forbidden, db)
    else
      var day := OrToday(performedOn, clock);
      var open := Ledger.OpenDeadline(db.fleet.deadlines, caller.company, vehicle, if kind == "HU" then HU else UVV);
      if open.Some? then
        var f := Completed(sha, db.fleet, open.value, caller.company, result, day, Some(BY_WORKSHOP), uuid, clock);
        if f.Some? then Effect(Done, db.(fleet := f.value)) else Effect(Failed, db)
      else Effect(Done, WithEvidence(sha, db, Fields(caller.company, vehicle, kind, result, day, Some(BY_WORKSHOP)), uuid, clock))
  }

  method RecordVehicleCheck(s: Session, sha: Digest, caller: User, vehicle: Subject, kind: string, result: string,
                            performedOn: Option<Day>, uuid: nat, clock: Clock) returns (response: Response)
    modifies s
    ensures Effect(response, s.State()) == VehicleCheck(sha, old(s.State()), caller, vehicle, kind, result, performedOn, uuid, clock)
  {
    hide Recorded, Completed;
    if caller.role == VIEWER {
      return Forbidden;
    }
    var start := s.State();
    var day := OrToday(performedOn, clock);
    var open := Ledger.OpenDeadline(s.fleet.deadlines, caller.company, vehicle, if kind == "HU" then HU else UVV);
    if open.Some? {
      var found := CompleteDeadline(s, sha, open.value, caller.company, result, day, Some(BY_WORKSHOP), uuid, clock);
      if !found {
        s.RollbackTo(start);
        return Failed;
      }
    } else {
      RecordCheck(s, sha, Fields(caller.company, vehicle, kind, result, day, Some(BY_WORKSHOP)), uuid, clock);
    }
    return Done;
  }
}
