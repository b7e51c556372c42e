/** app/services/checks.py: completing an obligation, recording its evidence, spawning the successor. */
module Checks {
  import opened Wrappers
  import opened Calendar
  import opened MonthRules
  import opened Records
  import opened Evidence
  import E6

  const PASSED := "PASSED"
  const FAILED := "FAILED"
  const FAILED_DEFECTS := "FAILED_DEFECTS"

  function KindText(k: Kind): string {
    match k
    case HU => "HU"
    case UVV => "UVV"
    case FSK => "FSK"
  }

  // ----- specification -----

  /** The roll-forward rule: anchored on the completion day, never on the due date. */
  function SuccessorDue(kind: Kind, result: string, completedOn: Day, huInterval: int): Day {
    match kind
    case FSK => NextFskDue(completedOn)
    case UVV => NextUvvDue(completedOn)
    case HU => if result == FAILED_DEFECTS then completedOn + NACHPRUEFUNG_DAYS else NextHuDue(completedOn, huInterval)
  }

  predicate IsNachpruefung(kind: Kind, result: string) {
    kind == HU && result == FAILED_DEFECTS
  }

  /** The rule on the calendar: half a year for FSK, a year for UVV, 28 days for an HU failed with defects
      and then as a Nachpruefung, otherwise the last day of the month `huInterval` months on. */
  predicate Obligation(kind: Kind, result: string, performedOn: Day, huInterval: int, due: Day, nachpruefung: bool) {
    match kind
    case FSK => MonthsLater(performedOn, due, 6) && !nachpruefung
    case UVV => MonthsLater(performedOn, due, 12) && !nachpruefung
    case HU =>
      if result == "FAILED_DEFECTS" then due == performedOn + 28 && nachpruefung
      else MonthEndLater(performedOn, due, huInterval) && !nachpruefung
  }

  lemma RolledByRule(kind: Kind, result: string, performedOn: Day, huInterval: int)
    ensures Obligation(kind, result, performedOn, huInterval, SuccessorDue(kind, result, performedOn, huInterval), IsNachpruefung(kind, result))
  {
    hide NextFskDue, NextUvvDue, NextHuDue, MonthsLater, MonthEndLater;
    DueRules(performedOn, huInterval);
  }

  function Done(d: Deadline, completedOn: Day): Deadline {
    d.(status := DeadlineCompleted, completedOn := Some(completedOn))
  }

  /** `_spawn`. */
  function Spawn(parent: Deadline, dueOn: Day, nachpruefung: bool): Deadline {
    Deadline(parent.company, parent.kind, parent.subject, dueOn, DeadlineOpen, None, nachpruefung)
  }

  /** The lock lifted; the mapper writes, and so bumps the version, only if something changed. */
  function Unlocked(d: Driver): Driver {
    var free := d.(authorized := true, lockReason := None, lockedAt := None);
    if free == d then d else free.(version := d.version + 1)
  }

  function Resolved(c: EscalationCase, clock: Clock): EscalationCase {
    c.(status := ResolvedPassed, resolvedAt := Some(clock.now))
  }

  /** `_maybe_resolve_open_case`: unlock in any case, resolve the open case if there is one. */
  function Cleared(f: Fleet, driver: nat, clock: Clock): Fleet
    requires driver < |f.drivers|
  {
    var open := E6.OpenCase(f.cases, driver);
    f.(drivers := f.drivers[driver := Unlocked(f.drivers[driver])],
       cases := if open.Some? then f.cases[open.value := Resolved(f.cases[open.value], clock)] else f.cases)
  }

  /** The subject row `complete_deadline` loads: a driver for FSK, a vehicle for HU, none for UVV. */
  predicate SubjectLoads(f: Fleet, d: Deadline) {
    match d.kind
    case FSK => d.subject.OfDriver? && d.subject.driver < |f.drivers|
    case HU => d.subject.OfVehicle? && d.subject.vehicle < |f.vehicles|
    case UVV => true
  }

  function HuInterval(f: Fleet, subject: Subject): int {
    if subject.OfVehicle? && subject.vehicle < |f.vehicles| then f.vehicles[subject.vehicle].huInterval else 24
  }

  function CheckFields(company: nat, d: Deadline, result: string, completedOn: Day, means: Option<string>): Fields {
    Fields(company, d.subject, KindText(d.kind), result, completedOn, means)
  }

  function RolledForward(f: Fleet, id: nat, result: string, completedOn: Day): seq<Deadline>
    requires id < |f.deadlines|
  {
    var d := f.deadlines[id];
    f.deadlines[id := Done(d, completedOn)] +
    [Spawn(d, SuccessorDue(d.kind, result, completedOn, HuInterval(f, d.subject)), IsNachpruefung(d.kind, result))]
  }

  /** The fleet after `complete_deadline`, or nothing when it raises DeadlineNotFound. */
  function Completed(sha: Digest, f: Fleet, id: nat, company: nat, result: string, completedOn: Day,
                     means: Option<string>, uuid: nat, clock: Clock): Option<Fleet>
  {
    if id >= |f.deadlines| || f.deadlines[id].company != company || !SubjectLoads(f, f.deadlines[id]) then None
    else
      var d := f.deadlines[id];
      var rolled := f.(deadlines := RolledForward(f, id, result, completedOn),
                       log := Recorded(sha, f.log, CheckFields(company, d, result, completedOn, means), uuid, clock));
      Some(if d.kind == FSK && result == PASSED then Cleared(rolled, d.subject.driver, clock) else rolled)
  }

  /** A completion is refused exactly when the deadline is not the company's or its subject row is missing. */
  lemma CompletionRefused(sha: Digest, f: Fleet, id: nat, company: nat, result: string, completedOn: Day,
                          means: Option<string>, uuid: nat, clock: Clock)
    ensures Completed(sha, f, id, company, result, completedOn, means, uuid, clock).None? <==>
      || id >= |f.deadlines| || f.deadlines[id].company != company
      || (f.deadlines[id].kind == FSK && !exists d | 0 <= d < |f.drivers| :: f.deadlines[id].subject == OfDriver(d))
      || (f.deadlines[id].kind == HU && !exists v | 0 <= v < |f.vehicles| :: f.deadlines[id].subject == OfVehicle(v))
  {
    hide RolledForward, Recorded, Cleared;
  }

  /** A completion in its columns: the deadline is closed on the day of the check, one open successor by the
      rule is added, one entry of that day is recorded; only a passed Fuehrerscheinkontrolle also clears. */
  lemma CompletedExactly(sha: Digest, f: Fleet, id: nat, company: nat, result: string, completedOn: Day,
                         means: Option<string>, uuid: nat, clock: Clock)
    requires Completed(sha, f, id, company, result, completedOn, means, uuid, clock).Some?
    ensures id < |f.deadlines|
    ensures var d, g := f.deadlines[id], Completed(sha, f, id, company, result, completedOn, means, uuid, clock).value;
      var n, m := |f.deadlines|, |f.log|;
      && |g.deadlines| == n + 1 && |g.log| == m + 1
      && g.deadlines[..n] == f.deadlines[id := Deadline(company, d.kind, d.subject, d.dueOn, DeadlineCompleted, Some(completedOn), d.nachpruefung)]
      && g.deadlines[n] == Deadline(company, d.kind, d.subject, g.deadlines[n].dueOn, DeadlineOpen, None, g.deadlines[n].nachpruefung)
      && (d.kind == HU ==> d.subject.OfVehicle? && d.subject.vehicle < |f.vehicles|)
      && Obligation(d.kind, result, completedOn, if d.kind == HU then f.vehicles[d.subject.vehicle].huInterval else 0,
                    g.deadlines[n].dueOn, g.deadlines[n].nachpruefung)
      && g.log[..m] == f.log
      && g.log[m] == LogEntry(uuid, clock.began, company, d.subject, match d.kind case HU => "HU" case UVV => "UVV" case FSK => "FSK",
                              result, completedOn, means, g.log[m].prevHash, g.log[m].entryHash)
      && g.vehicles == f.vehicles
      && (!(d.kind == FSK && result == "PASSED") ==> g.drivers == f.drivers && g.cases == f.cases)
      && (d.kind == FSK && result == "PASSED" ==>
            && d.subject.OfDriver? && d.subject.driver < |f.drivers|
            && g.drivers == Cleared(f, d.subject.driver, clock).drivers && g.cases == Cleared(f, d.subject.driver, clock).cases)
  {
    hide NewEntry, SuccessorDue, IsNachpruefung, Unlocked, E6.OpenCase, MonthsLater, MonthEndLater, Resolved;
    var d := f.deadlines[id];
    RolledByRule(d.kind, result, completedOn, HuInterval(f, d.subject));
    RecordedRow(sha, f.log, CheckFields(company, d, result, completedOn, means), uuid, clock);
  }

  /** Clearing a driver in its columns: free to drive, no lock left, and the open case, if there is one,
      resolved now; the row version moves only if the row does. */
  lemma ClearedExactly(f: Fleet, driver: nat, clock: Clock)
    requires driver < |f.drivers|
    ensures var g, d := Cleared(f, driver, clock), f.drivers[driver];
      var free := Driver(d.company, d.firstName, d.lastName, d.employmentEnd, d.anonymizedAt, true, None, None,
                         if d.authorized && d.lockReason == None && d.lockedAt == None then d.version else d.version + 1);
      && g == f.(drivers := f.drivers[driver := free], cases := g.cases) && |g.cases| == |f.cases|
      && (forall c | 0 <= c < |f.cases| :: g.cases[c] == f.cases[c] ||
            (f.cases[c].driver == driver && f.cases[c].status == CaseOpen
             && g.cases[c] == f.cases[c].(status := ResolvedPassed, resolvedAt := Some(clock.now))))
      && ((exists c | 0 <= c < |f.cases| :: f.cases[c].driver == driver && f.cases[c].status == CaseOpen) ==> g.cases != f.cases)
  {
    hide E6.OpenCase;
    var open := E6.OpenCase(f.cases, driver);
    if open.None? {
      forall c | 0 <= c < |f.cases|
        ensures !(f.cases[c].driver == driver && f.cases[c].status == CaseOpen)
      {
        assert !E6.IsOpenFor(f.cases[c], driver);
      }
    } else {
      assert Cleared(f, driver, clock).cases[open.value] != f.cases[open.value];
    }
  }

  // ----- the service -----

  method MaybeResolveOpenCase(s: Session, driver: nat, clock: Clock) returns (resolved: Option<nat>)
    requires driver < |s.fleet.drivers|
    modifies s
    ensures resolved == E6.OpenCase(old(s.fleet.cases), driver)
    ensures s.State() == old(s.State()).(fleet := Cleared(old(s.fleet), driver, clock))
  {
    resolved := E6.OpenCase(s.fleet.cases, driver);
    var was := s.fleet.drivers[driver];
    var row := was.(authorized := true, lockReason := None, lockedAt := None);
    if row != was {
      row := row.(version := was.version + 1);
    }
    s.fleet := s.fleet.(drivers := s.fleet.drivers[driver := row]);
    if resolved.Some? {
      var c := s.fleet.cases[resolved.value];
      s.fleet := s.fleet.(cases := s.fleet.cases[resolved.value := c.(status := ResolvedPassed, resolvedAt := Some(clock.now))]);
    }
  }

  /** On DeadlineNotFound the deadline may already be marked: the caller's transaction rolls back. */
  method CompleteDeadline(s: Session, sha: Digest, id: nat, company: nat, result: string, completedOn: Day,
                          means: Option<string>, uuid: nat, clock: Clock) returns (found: bool)
    modifies s
    ensures match Completed(sha, old(s.fleet), id, company, result, completedOn, means, uuid, clock)
            case None => !found
            case Some(f) => found && s.State() == old(s.State()).(fleet := f)
  {
    hide Recorded, SuccessorDue, Cleared;
    if id >= |s.fleet.deadlines| || s.fleet.deadlines[id].company != company {
      return false;
    }
    var d := s.fleet.deadlines[id];
    s.fleet := s.fleet.(deadlines := s.fleet.deadlines[id := d.(status := DeadlineCompleted, completedOn := Some(completedOn))]);
    if !SubjectLoads(s.fleet, d) {
      return false;
    }
    var fields := Fields(company, d.subject, KindText(d.kind), result, completedOn, means);
    RecordCheck(s, sha, fields, uuid, clock);
    var nachpruefung, due := NextObligation(d, result, completedOn, HuInterval(s.fleet, d.subject));
    s.fleet := s.fleet.(deadlines := s.fleet.deadlines + [Spawn(d, due, nachpruefung)]);
    if d.kind == FSK && result == PASSED {
      var _ := MaybeResolveOpenCase(s, d.subject.driver, clock);
    }
    return true;
  }

  /** The branch per kind. */
  method NextObligation(d: Deadline, result: string, completedOn: Day, huInterval: int)
      returns (nachpruefung: bool, due: Day)
    ensures due == SuccessorDue(d.kind, result, completedOn, huInterval)
    ensures nachpruefung == IsNachpruefung(d.kind, result)
    ensures Obligation(d.kind, result, completedOn, huInterval, due, nachpruefung)
  {
    hide NextFskDue, NextUvvDue, NextHuDue, MonthsLater, MonthEndLater;
    DueRules(completedOn, huInterval);
    nachpruefung := false;
    if d.kind == FSK {
      due := NextFskDue(completedOn);
    } else if d.kind == HU {
      if result == FAILED_DEFECTS {
        nachpruefung := true;
        due := completedOn + NACHPRUEFUNG_DAYS;
      } else {
        due := NextHuDue(completedOn, huInterval);
      }
    } else {
      due := NextUvvDue(completedOn);
    }
  }
}
