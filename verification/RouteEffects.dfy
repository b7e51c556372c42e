/** What the requests on drivers and vehicles leave behind, table by table: the dates on the forms, the rows
    a failed check adds, who is refused. */
module RouteEffects {
  import opened Wrappers
  import opened Calendar
  import opened BerlinTime
  import opened MonthRules
  import opened Records
  import opened Outbox
  import opened Evidence
  import opened Checks
  import opened Ledger
  import opened Routes
  import E6

  /** The day a form stands for: the one it names, today if it names none. */
  predicate Meant(form: Option<Day>, clock: Clock, day: Day) {
    form == Some(day) || (form == None && day == clock.today)
  }

  // ----- creating subjects -----

  /** A driver is created free to drive, with one Fuehrerscheinkontrolle due half a year after the start of
      employment; a viewer and an empty name are refused. */
  lemma DriverCreated(db: Db, caller: User, first: string, last: string, start: Option<Day>, clock: Clock, day: Day)
    requires Meant(start, clock, day)
    ensures var e := CreatedDriver(db, caller, first, last, start, clock);
      var n, m := |db.fleet.drivers|, |db.fleet.deadlines|;
      if caller.role == VIEWER then e == Effect(Forbidden, db)
      else if first == "" || last == "" then e == Effect(BadRequest, db)
      else
        var f := e.db.fleet;
        && e == Effect(Done, db.(fleet := db.fleet.(drivers := f.drivers, deadlines := f.deadlines)))
        && f.drivers == db.fleet.drivers + [Driver(caller.company, first, last, None, None, true, None, None, 1)]
        && |f.deadlines| == m + 1 && f.deadlines[..m] == db.fleet.deadlines
        && f.deadlines[m] == Deadline(caller.company, FSK, OfDriver(n), f.deadlines[m].dueOn, DeadlineOpen, None, false)
        && MonthsLater(day, f.deadlines[m].dueOn, 6)
  {
    hide FirstFskDue, MonthsLater;
    DueRules(day, 0);
  }

  /** A vehicle is created with its first HU at the end of the month three years after registration and its
      first UVV a year after it; the interval defaults to 24 months. */
  lemma VehicleCreated(db: Db, caller: User, plate: bool, interval: Option<int>, registered: Option<Day>, clock: Clock,
                       day: Day)
    requires Meant(registered, clock, day)
    ensures var e := CreatedVehicle(db, caller, plate, interval, registered, clock);
      var n, m := |db.fleet.vehicles|, |db.fleet.deadlines|;
      if caller.role == VIEWER then e == Effect(Forbidden, db)
      else if !plate then e == Effect(BadRequest, db)
      else
        var f := e.db.fleet;
        && e == Effect(Done, db.(fleet := db.fleet.(vehicles := f.vehicles, deadlines := f.deadlines)))
        && f.vehicles == db.fleet.vehicles + [Vehicle(caller.company, if interval == None then 24 else interval.value)]
        && |f.deadlines| == m + 2 && f.deadlines[..m] == db.fleet.deadlines
        && f.deadlines[m] == Deadline(caller.company, HU, OfVehicle(n), f.deadlines[m].dueOn, DeadlineOpen, None, false)
        && MonthEndLater(day, f.deadlines[m].dueOn, 36)
        && f.deadlines[m + 1] == Deadline(caller.company, UVV, OfVehicle(n), f.deadlines[m + 1].dueOn, DeadlineOpen, None, false)
        && MonthsLater(day, f.deadlines[m + 1].dueOn, 12)
  {
    hide FirstHuDue, FirstUvvDue, MonthsLater, MonthEndLater;
    DueRules(day, 0);
  }

  // ----- Fuehrerscheinkontrolle -----

  /** The last entry of a log is the only new one and says this. */
  predicate Adds(before: seq<LogEntry>, after: seq<LogEntry>, uuid: nat, clock: Clock, company: nat, subject: Subject,
                 kind: string, result: string, performedOn: Day, means: string)
  {
    && |after| == |before| + 1 && after[..|before|] == before
    && after[|before|] == LogEntry(uuid, clock.began, company, subject, kind, result, performedOn, Some(means),
                                   after[|before|].prevHash, after[|before|].entryHash)
  }

  /** What is added last ends the chain of its subject. */
  lemma EndsChain(before: seq<LogEntry>, after: seq<LogEntry>, uuid: nat, clock: Clock, company: nat, subject: Subject,
                  kind: string, result: string, performedOn: Day, means: string)
    requires Adds(before, after, uuid, clock, company, subject, kind, result, performedOn, means)
    ensures Chain(after, company, subject) == Chain(before, company, subject) + [after[|before|]]
  {
    ChainColumns(before, after[|before|], company, subject);
    assert after == before + [after[|before|]];
  }

  /** Who is turned away, and that nothing is kept of a request that is not done. */
  lemma DriverCheckRefused(sha: Digest, db: Db, caller: User, driver: nat, result: string, performedOn: Option<Day>,
                           uuid: nat, clock: Clock)
    ensures var e := DriverCheck(sha, db, caller, driver, result, performedOn, uuid, clock);
      && (e.response == Forbidden <==> caller.role == VIEWER)
      && (e.response == NotFound <==>
            caller.role != VIEWER && !(driver < |db.fleet.drivers| && db.fleet.drivers[driver].company == caller.company))
      && e.response != BadRequest
      && (e.response != Done ==> e.db == db)
  {
    hide Recorded, Completed, Cleared, E6.RunState, E6.RunResult, AddressesOf, OpenDeadline;
  }

  /** A fresh escalation: the driver locked as of now, a case open until 23:59:59 of the seventh day, a
      CRITICAL alert of it, and one message of priority 0 per recipient address, in order, due at once. */
  predicate Escalates(a: Db, b: Db, c: nat, driver: nat, clock: Clock)
    requires driver < |a.fleet.drivers|
  {
    var d, n := a.fleet.drivers[driver], |a.fleet.cases|;
    && b.fleet.drivers == a.fleet.drivers[driver :=
         Driver(d.company, d.firstName, d.lastName, d.employmentEnd, d.anonymizedAt, false, Some("FSK_FAILED"), Some(clock.now), d.version + 1)]
    && |b.fleet.cases| == n + 1 && b.fleet.cases[..n] == a.fleet.cases
    && b.fleet.cases[n] == EscalationCase(c, driver, CaseOpen, b.fleet.cases[n].deadlineAt, None, None, clock.today,
                                          a.queue.triggers, AddressesOf(a.accounts.users, c))
    && Local(b.fleet.cases[n].deadlineAt) == (BerlinDay(clock.now) + 7) * DAY + 86399 * SECOND
    && b.alerts == a.alerts + [Alert(c, CRITICAL, FskFailedLock, Some(driver), Some(n), clock.began)]
    && Sends(a.queue, b.queue, c, a.queue.triggers, AddressesOf(a.accounts.users, c), clock)
  }

  lemma EscalatedExactly(db: Db, driver: nat, c: nat, clock: Clock)
    requires driver < |db.fleet.drivers|
    ensures Escalates(db, E6.Escalated(TriggerDrawn(db), driver, c, AddressesOf(db.accounts.users, c), db.queue.triggers, clock), c, driver, clock)
  {
    hide AddressesOf, Append, E6.Messages, Local, AtWall, BerlinDay, Sends;
    DeadlineLands(clock.now, 7, clock.now);
    Broadcast(db.queue, c, db.queue.triggers, AddressesOf(db.accounts.users, c), clock);
  }

  /** A failed check that goes through leaves its evidence of the day on the form at the end of the driver's
      chain and no obligation touched. If an open case already exists nothing else changes; otherwise
      the driver is escalated. */
  lemma FailedCheckRecorded(sha: Digest, db: Db, caller: User, driver: nat, performedOn: Option<Day>, uuid: nat,
                            clock: Clock, day: Day)
    requires Meant(performedOn, clock, day)
    requires DriverCheck(sha, db, caller, driver, "FAILED", performedOn, uuid, clock).response == Done
    ensures driver < |db.fleet.drivers|
    ensures var b := DriverCheck(sha, db, caller, driver, "FAILED", performedOn, uuid, clock).db;
      && Adds(db.fleet.log, b.fleet.log, uuid, clock, caller.company, OfDriver(driver), "FSK", "FAILED", day, "SICHT")
      && b.accounts == db.accounts && b.fleet.deadlines == db.fleet.deadlines && b.fleet.vehicles == db.fleet.vehicles
      && if exists i | 0 <= i < |db.fleet.cases| :: db.fleet.cases[i].driver == driver && db.fleet.cases[i].status == CaseOpen then
           && b.fleet.drivers == db.fleet.drivers && b.fleet.cases == db.fleet.cases && b.alerts == db.alerts
           && b.queue == db.queue.(triggers := db.queue.triggers + 1)
         else Escalates(db, b, caller.company, driver, clock)
  {
    hide AddressesOf, Collides, E6.OpenCase, E6.Messages, NewEntry, E6.Escalated, Escalates;
    var c, fields := caller.company, SightCheck(caller.company, driver, FAILED, day);
    RecordedRow(sha, db.fleet.log, fields, uuid, clock);
    EscalatedExactly(db, driver, c, clock);
    EscalatedFrame(sha, db, fields, driver, c, AddressesOf(db.accounts.users, c), uuid, clock);
    E6.HasOpenCase(db.fleet.cases, driver);
  }

  /** Escalating after the evidence is written is escalating and writing the evidence. */
  lemma EscalatedFrame(sha: Digest, db: Db, fields: Fields, driver: nat, c: nat, told: seq<Address>, uuid: nat,
                       clock: Clock)
    requires driver < |db.fleet.drivers|
    ensures var a := E6.Escalated(TriggerDrawn(db), driver, c, told, db.queue.triggers, clock);
      var b := E6.Escalated(TriggerDrawn(WithEvidence(sha, db, fields, uuid, clock)), driver, c, told, db.queue.triggers, clock);
      && b == a.(fleet := a.fleet.(log := Recorded(sha, db.fleet.log, fields, uuid, clock)))
      && a.accounts == db.accounts && a.fleet.deadlines == db.fleet.deadlines && a.fleet.vehicles == db.fleet.vehicles
      && (forall log :: Escalates(db, a, c, driver, clock) ==> Escalates(db, a.(fleet := a.fleet.(log := log)), c, driver, clock))
  {
    hide Append, E6.Messages, Recorded, AddressesOf, Sends;
  }

  predicate HasRow(q: Queue, id: nat, row: OutboxRow) {
    id in q.outbox && q.outbox[id] == row
  }

  /** The rows of one broadcast take the next serial numbers; every other row is untouched. */
  predicate Sends(q: Queue, p: Queue, company: nat, trigger: nat, told: seq<Address>, clock: Clock) {
    && p.nextRow == q.nextRow + |told| && p.archive == q.archive
    && (forall id | id in p.outbox :: q.nextRow <= id < p.nextRow || (id in q.outbox && p.outbox[id] == q.outbox[id]))
    && (forall id | id in q.outbox :: id in p.outbox)
    && forall i | 0 <= i < |told| ::
         HasRow(p, q.nextRow + i, OutboxRow(company, FskFailedCritical, 0, E6Key(trigger, told[i]), clock.began,
                                           BerlinDay(clock.began), 0, clock.began, None, None, None, []))
  }

  lemma {:induction false} AppendExactly(q: Queue, rows: seq<OutboxRow>)
    ensures var p := Append(q, rows);
      && p == q.(outbox := p.outbox, nextRow := q.nextRow + |rows|)
      && (forall id | id in p.outbox :: q.nextRow <= id < p.nextRow || (id in q.outbox && p.outbox[id] == q.outbox[id]))
      && (forall id | id in q.outbox :: id in p.outbox)
      && (forall i | 0 <= i < |rows| :: HasRow(p, q.nextRow + i, rows[i]))
  {
    if rows != [] {
      var n, p := |rows| - 1, Append(q, rows);
      AppendExactly(q, rows[..n]);
      forall i | 0 <= i < |rows|
        ensures HasRow(p, q.nextRow + i, rows[i])
      {
        assert i < n ==> HasRow(Append(q, rows[..n]), q.nextRow + i, rows[..n][i]);
      }
    }
  }

  lemma Broadcast(q: Queue, company: nat, trigger: nat, told: seq<Address>, clock: Clock)
    ensures Sends(q, Append(q.(triggers := trigger + 1), E6.Messages(company, trigger, told, clock)), company, trigger, told, clock)
  {
    hide Append, BerlinDay;
    var rows := E6.Messages(company, trigger, told, clock);
    AppendExactly(q.(triggers := trigger + 1), rows);
    forall i | 0 <= i < |told|
      ensures rows[i] == OutboxRow(company, FskFailedCritical, 0, E6Key(trigger, told[i]), clock.began, BerlinDay(clock.began), 0,
                                   clock.began, None, None, None, [])
    {
    }
  }

  /** Any other result counts as passed. Its evidence of the day on the form ends the driver's chain, the open
      obligation, if the lookup finds one, is completed on that day with a successor half a year
      later, and the driver is cleared. */
  lemma PassedCheckRecorded(sha: Digest, db: Db, caller: User, driver: nat, result: string, performedOn: Option<Day>,
                            uuid: nat, clock: Clock, day: Day)
    requires Meant(performedOn, clock, day) && result != "FAILED"
    requires DriverCheck(sha, db, caller, driver, result, performedOn, uuid, clock).response == Done
    ensures driver < |db.fleet.drivers|
    ensures var b := DriverCheck(sha, db, caller, driver, result, performedOn, uuid, clock).db;
      var c, n, cleared := caller.company, |db.fleet.deadlines|, Cleared(db.fleet, driver, clock);
      && Adds(db.fleet.log, b.fleet.log, uuid, clock, c, OfDriver(driver), "FSK", "PASSED", day, "SICHT")
      && b == db.(fleet := b.fleet) && b.fleet.vehicles == db.fleet.vehicles
      && b.fleet.drivers == cleared.drivers && b.fleet.cases == cleared.cases
      && match OpenDeadline(db.fleet.deadlines, c, OfDriver(driver), FSK)
         case None => b.fleet.deadlines == db.fleet.deadlines
         case Some(id) => Closes(db.fleet.deadlines, b.fleet.deadlines, id, day) && MonthsLater(day, b.fleet.deadlines[n].dueOn, 6)
  {
    hide Recorded, Completed, Cleared, OpenDeadline, MonthsLater, MonthEndLater;
    RecordedRow(sha, db.fleet.log, SightCheck(caller.company, driver, PASSED, day), uuid, clock);
    ClearedFrame(db.fleet, Recorded(sha, db.fleet.log, SightCheck(caller.company, driver, PASSED, day), uuid, clock), driver, clock);
    var open := OpenDeadline(db.fleet.deadlines, caller.company, OfDriver(driver), FSK);
    if open.Some? {
      CompletedExactly(sha, db.fleet, open.value, caller.company, PASSED, day, Some(BY_SIGHT), uuid, clock);
    }
  }

  lemma ClearedFrame(f: Fleet, log: seq<LogEntry>, driver: nat, clock: Clock)
    requires driver < |f.drivers|
    ensures Cleared(f.(log := log), driver, clock) == Cleared(f, driver, clock).(log := log)
    ensures Cleared(f, driver, clock).deadlines == f.deadlines && Cleared(f, driver, clock).vehicles == f.vehicles
  {
    hide E6.OpenCase, Unlocked, Resolved;
  }

  /** The open deadline is completed on the day, and one open successor is added. */
  predicate Closes(before: seq<Deadline>, after: seq<Deadline>, id: nat, day: Day) {
    && id < |before| && before[id].status == DeadlineOpen && |after| == |before| + 1
    && after[..|before|] == before[id := before[id].(status := DeadlineCompleted, completedOn := Some(day))]
    && after[|before|].status == DeadlineOpen && after[|before|].completedOn == None
    && after[|before|].company == before[id].company && after[|before|].subject == before[id].subject
    && after[|before|].kind == before[id].kind
  }

  /** Either way the last entry of the driver's chain carries the day on the form. */
  lemma DriverCheckDated(sha: Digest, db: Db, caller: User, driver: nat, result: string, performedOn: Option<Day>,
                         uuid: nat, clock: Clock, day: Day)
    requires Meant(performedOn, clock, day)
    requires DriverCheck(sha, db, caller, driver, result, performedOn, uuid, clock).response == Done
    ensures var chain := Chain(DriverCheck(sha, db, caller, driver, result, performedOn, uuid, clock).db.fleet.log, caller.company, OfDriver(driver));
      && |chain| == |Chain(db.fleet.log, caller.company, OfDriver(driver))| + 1
      && chain[|chain| - 1].performedOn == day
      && chain[|chain| - 1].result == if result == "FAILED" then "FAILED" else "PASSED"
  {
    hide DriverCheck, Chain, Cleared, OpenDeadline, MonthsLater, Closes, Sends;
    var log := DriverCheck(sha, db, caller, driver, result, performedOn, uuid, clock).db.fleet.log;
    var text := if result == "FAILED" then "FAILED" else "PASSED";
    if result == "FAILED" {
      FailedCheckRecorded(sha, db, caller, driver, performedOn, uuid, clock, day);
    } else {
      PassedCheckRecorded(sha, db, caller, driver, result, performedOn, uuid, clock, day);
    }
    EndsChain(db.fleet.log, log, uuid, clock, caller.company, OfDriver(driver), "FSK", text, day, "SICHT");
  }

  // ----- HU and UVV -----

  /** A vehicle check fails only for a viewer, or when its obligation is for a vehicle that is not there. With
      an open obligation of the kind it is recorded under that kind and the obligation rolls forward by its
      rule; without one the entry keeps the text the client sent. The result is kept as sent. */
  lemma VehicleCheckRecorded(sha: Digest, db: Db, caller: User, vehicle: Subject, kind: string, result: string,
                             performedOn: Option<Day>, uuid: nat, clock: Clock, day: Day)
    requires Meant(performedOn, clock, day)
    ensures var e := VehicleCheck(sha, db, caller, vehicle, kind, result, performedOn, uuid, clock);
      var b, c, n := e.db, caller.company, |db.fleet.deadlines|;
      && (e.response == Forbidden <==> caller.role == VIEWER)
      && (e.response != Done ==> b == db)
      && (e.response == Done ==>
            && b == db.(fleet := db.fleet.(deadlines := b.fleet.deadlines, log := b.fleet.log))
            && match OpenDeadline(db.fleet.deadlines, c, vehicle, if kind == "HU" then HU else UVV)
               case None =>
                 && b.fleet.deadlines == db.fleet.deadlines
                 && Adds(db.fleet.log, b.fleet.log, uuid, clock, c, vehicle, kind, result, day, "WERKSTATT")
               case Some(id) =>
                 && Closes(db.fleet.deadlines, b.fleet.deadlines, id, day)
                 && Adds(db.fleet.log, b.fleet.log, uuid, clock, c, vehicle, if kind == "HU" then "HU" else "UVV", result, day, "WERKSTATT")
                 && var next := b.fleet.deadlines[n];
                    if kind != "HU" then MonthsLater(day, next.dueOn, 12) && !next.nachpruefung
                    else if result == "FAILED_DEFECTS" then next.dueOn == day + 28 && next.nachpruefung
                    else
                      && vehicle.OfVehicle? && vehicle.vehicle < |db.fleet.vehicles| && !next.nachpruefung
                      && MonthEndLater(day, next.dueOn, db.fleet.vehicles[vehicle.vehicle].huInterval))
  {
    hide Recorded, Completed, OpenDeadline, MonthsLater, MonthEndLater, Cleared;
    var k := if kind == "HU" then HU else UVV;
    var open := OpenDeadline(db.fleet.deadlines, caller.company, vehicle, k);
    if open.Some? {
      OpenColumns(db.fleet.deadlines, caller.company, vehicle, k);
      if Completed(sha, db.fleet, open.value, caller.company, result, day, Some(BY_WORKSHOP), uuid, clock).Some? {
        CompletedExactly(sha, db.fleet, open.value, caller.company, result, day, Some(BY_WORKSHOP), uuid, clock);
      }
    } else {
      RecordedRow(sha, db.fleet.log, Fields(caller.company, vehicle, kind, result, day, Some(BY_WORKSHOP)), uuid, clock);
    }
  }

  /** The obligation a route looks up is an open one of that company, subject and kind; it finds one
      whenever there is one. */
  lemma OpenColumns(ds: seq<Deadline>, company: nat, subject: Subject, kind: Kind)
    ensures match OpenDeadline(ds, company, subject, kind)
      case Some(id) =>
        id < |ds| && ds[id].company == company && ds[id].subject == subject && ds[id].kind == kind && ds[id].status == DeadlineOpen
      case None =>
        forall i | 0 <= i < |ds| :: !(ds[i].company == company && ds[i].subject == subject && ds[i].kind == kind && ds[i].status == DeadlineOpen)
  {
    forall i | 0 <= i < |ds|
      ensures IsOpen(ds[i], company, subject, kind) <==>
        ds[i].company == company && ds[i].subject == subject && ds[i].kind == kind && ds[i].status == DeadlineOpen
    {
    }
  }

  /** The last entry of the chain carries the day on the form here too. */
  lemma VehicleCheckDated(sha: Digest, db: Db, caller: User, vehicle: Subject, kind: string, result: string,
                          performedOn: Option<Day>, uuid: nat, clock: Clock, day: Day)
    requires Meant(performedOn, clock, day)
    requires VehicleCheck(sha, db, caller, vehicle, kind, result, performedOn, uuid, clock).response == Done
    ensures var chain := Chain(VehicleCheck(sha, db, caller, vehicle, kind, result, performedOn, uuid, clock).db.fleet.log, caller.company, vehicle);
      && |chain| == |Chain(db.fleet.log, caller.company, vehicle)| + 1
      && chain[|chain| - 1].performedOn == day && chain[|chain| - 1].result == result
  {
    hide VehicleCheck, Chain, OpenDeadline, MonthsLater, MonthEndLater, Closes;
    VehicleCheckRecorded(sha, db, caller, vehicle, kind, result, performedOn, uuid, clock, day);
    var log := VehicleCheck(sha, db, caller, vehicle, kind, result, performedOn, uuid, clock).db.fleet.log;
    var text := log[|db.fleet.log|].kind;
    EndsChain(db.fleet.log, log, uuid, clock, caller.company, vehicle, text, result, day, "WERKSTATT");
  }
}
