/** What every transaction keeps true of drivers, cases, obligations and evidence together. */
module FleetInvariant {
  import opened Wrappers
  import opened Records
  import Evidence
  import Checks
  import Ledger
  import E6

  // ----- the lock -----

  function DriverChain(f: Fleet, d: nat): seq<LogEntry>
    requires d < |f.drivers|
  {
    Evidence.Chain(f.log, f.drivers[d].company, OfDriver(d))
  }

  /** No check yet, or the last Fuehrerscheinkontrolle was passed. */
  predicate ClearedBy(chain: seq<LogEntry>) {
    chain == [] || chain[|chain| - 1].result == Checks.PASSED
  }

  /** A case that justifies a lock: still open, or breached and never resolved by a passed check. */
  predicate Holds(c: EscalationCase, driver: nat) {
    c.driver == driver && (c.status == CaseOpen || c.status == Breached)
  }

  predicate HasCase(cases: seq<EscalationCase>, driver: nat) {
    exists c | 0 <= c < |cases| :: Holds(cases[c], driver)
  }

  predicate IsLockAlert(a: Alert, c: EscalationCase, id: nat) {
    a.severity == CRITICAL && a.code == FskFailedLock && a.driver == Some(c.driver) && a.escalation == Some(id) && a.company == c.company
  }

  predicate HasAlert(alerts: seq<Alert>, c: EscalationCase, id: nat) {
    exists a | 0 <= a < |alerts| :: IsLockAlert(alerts[a], c, id)
  }

  /** The lock is exactly what the evidence says, and a lock has its case. */
  predicate DriverOk(f: Fleet, d: nat)
    requires d < |f.drivers|
  {
    && (f.drivers[d].authorized <==> ClearedBy(DriverChain(f, d)))
    && (!f.drivers[d].authorized ==> HasCase(f.cases, d))
  }

  /** A case belongs to its driver's company, has its CRITICAL alert, locks its driver while open, and
      is the only open one of that driver. */
  predicate CaseOk(f: Fleet, alerts: seq<Alert>, c: nat)
    requires c < |f.cases|
  {
    var k := f.cases[c];
    && k.driver < |f.drivers| && k.company == f.drivers[k.driver].company
    && HasAlert(alerts, k, c)
    && (k.status == CaseOpen ==> !f.drivers[k.driver].authorized)
    && forall b | 0 <= b < |f.cases| :: b != c && E6.IsOpenFor(f.cases[b], k.driver) ==> k.status != CaseOpen
  }

  predicate LockInv(f: Fleet, alerts: seq<Alert>) {
    && (forall d | 0 <= d < |f.drivers| :: DriverOk(f, d))
    && (forall c | 0 <= c < |f.cases| :: CaseOk(f, alerts, c))
  }

  // ----- the ledger -----

  predicate SubjectExists(f: Fleet, s: Subject) {
    match s
    case OfDriver(d) => d < |f.drivers|
    case OfVehicle(v) => v < |f.vehicles|
    case Stranger(_) => true
  }

  function SubjectCompany(f: Fleet, s: Subject): nat
    requires SubjectExists(f, s) && !s.Stranger?
  {
    if s.OfDriver? then f.drivers[s.driver].company else f.vehicles[s.vehicle].company
  }

  predicate DeadlineOk(f: Fleet, d: Deadline) {
    && !d.subject.Stranger? && SubjectExists(f, d.subject)
    && d.company == SubjectCompany(f, d.subject)
    && (d.kind == FSK <==> d.subject.OfDriver?)
  }

  predicate EntryOk(f: Fleet, e: LogEntry) {
    SubjectExists(f, e.subject) && (e.subject.OfDriver? ==> e.kind == "FSK")
  }

  /** The ledger of one subject and kind balances. */
  predicate KindBalanced(f: Fleet, s: Subject, kind: Kind)
    requires SubjectExists(f, s) && !s.Stranger?
  {
    Ledger.Balanced(Ledger.DeadlinesOf(f.deadlines, s, kind), Ledger.Completing(Evidence.Chain(f.log, SubjectCompany(f, s), s), kind), kind, Checks.HuInterval(f, s))
  }

  predicate Owes(s: Subject, kind: Kind) {
    !s.Stranger? && (kind == FSK <==> s.OfDriver?)
  }

  ghost predicate LedgerInv(f: Fleet) {
    && (forall i | 0 <= i < |f.deadlines| :: DeadlineOk(f, f.deadlines[i]))
    && (forall i | 0 <= i < |f.log| :: EntryOk(f, f.log[i]))
    && (forall s: Subject, kind: Kind {:trigger Owes(s, kind)} :: Owes(s, kind) && SubjectExists(f, s) ==> KindBalanced(f, s, kind))
  }

  // ----- frames -----

  /** Drivers changed in nothing the invariants read: names, dates, versions. */
  predicate SameStanding(a: seq<Driver>, b: seq<Driver>) {
    |a| == |b| && forall d | 0 <= d < |a| :: a[d].company == b[d].company && a[d].authorized == b[d].authorized
  }

  predicate SameCompanies(a: seq<Driver>, b: seq<Driver>) {
    |a| == |b| && forall d | 0 <= d < |a| :: a[d].company == b[d].company
  }

  /** The ledger reads deadlines, evidence and who belongs to which company. */
  lemma LedgerFrame(f: Fleet, g: Fleet)
    requires LedgerInv(f)
    requires g.deadlines == f.deadlines && g.log == f.log && g.vehicles == f.vehicles
    requires SameCompanies(f.drivers, g.drivers)
    ensures LedgerInv(g)
  {
  }

  /** The lock invariant reads drivers, cases and evidence, not the obligations. */
  lemma LockFrame(f: Fleet, g: Fleet, alerts: seq<Alert>)
    requires LockInv(f, alerts)
    requires g.cases == f.cases && g.log == f.log && SameStanding(f.drivers, g.drivers)
    ensures LockInv(g, alerts)
  {
    hide ClearedBy, HasCase, HasAlert, Evidence.Chain;
    forall d | 0 <= d < |g.drivers|
      ensures DriverOk(g, d)
    {
      assert DriverOk(f, d);
    }
    forall c | 0 <= c < |g.cases|
      ensures CaseOk(g, alerts, c)
    {
      assert CaseOk(f, alerts, c);
    }
  }

  /** The alert ledger only grows. */
  lemma AlertsGrow(f: Fleet, alerts: seq<Alert>, more: seq<Alert>)
    requires LockInv(f, alerts)
    ensures LockInv(f, alerts + more)
  {
    hide DriverOk;
    forall c | 0 <= c < |f.cases|
      ensures CaseOk(f, alerts + more, c)
    {
      assert CaseOk(f, alerts, c);
      var a :| 0 <= a < |alerts| && IsLockAlert(alerts[a], f.cases[c], c);
      assert IsLockAlert((alerts + more)[a], f.cases[c], c);
    }
  }
}
