/** Each change to the fleet keeps the lock invariant and the ledger. */
module FleetSteps {
  import opened Wrappers
  import opened Calendar
  import opened Records
  import opened Evidence
  import opened Checks
  import opened Ledger
  import opened FleetInvariant
  import E6

  // ----- recording evidence -----

  /** An entry that completes no obligation on the books leaves the ledger balanced. */
  lemma LogKeepsLedger(f: Fleet, e: LogEntry)
    requires LedgerInv(f) && EntryOk(f, e)
    requires forall s: Subject, kind: Kind {:trigger Owes(s, kind)} :: Owes(s, kind) && SubjectExists(f, s) ==>
      !(Matches(e, SubjectCompany(f, s), s) && Completes(e, kind))
    ensures LedgerInv(f.(log := f.log + [e]))
  {
    hide Balanced, DeadlinesOf, Completing, Chain, Completes;
    var g := f.(log := f.log + [e]);
    forall s: Subject, kind: Kind | Owes(s, kind) && SubjectExists(g, s)
      ensures KindBalanced(g, s, kind)
    {
      assert KindBalanced(f, s, kind);
      var c := SubjectCompany(f, s);
      ChainAppend(f.log, e, c, s);
      CompletingAppend(Chain(f.log, c, s), e, kind);
      assert Chain(f.log, c, s) + [] == Chain(f.log, c, s);
      assert Completing(Chain(f.log, c, s), kind) + [] == Completing(Chain(f.log, c, s), kind);
    }
    forall i | 0 <= i < |g.deadlines|
      ensures DeadlineOk(g, g.deadlines[i])
    {
      assert DeadlineOk(f, f.deadlines[i]);
    }
    forall i | 0 <= i < |g.log|
      ensures EntryOk(g, g.log[i])
    {
      assert i < |f.log| ==> EntryOk(f, f.log[i]);
    }
  }

  /** Evidence about something else leaves a driver's standing alone. */
  lemma LogKeepsLock(f: Fleet, alerts: seq<Alert>, e: LogEntry)
    requires LockInv(f, alerts)
    requires forall d :: 0 <= d < |f.drivers| ==> !Matches(e, f.drivers[d].company, OfDriver(d))
    ensures LockInv(f.(log := f.log + [e]), alerts)
  {
    hide ClearedBy, HasCase, HasAlert, Chain, Matches;
    var g := f.(log := f.log + [e]);
    forall d | 0 <= d < |g.drivers|
      ensures DriverOk(g, d)
    {
      assert DriverOk(f, d);
      ChainAppend(f.log, e, f.drivers[d].company, OfDriver(d));
      assert DriverChain(f, d) + [] == DriverChain(f, d);
    }
    forall c | 0 <= c < |g.cases|
      ensures CaseOk(g, alerts, c)
    {
      assert CaseOk(f, alerts, c);
    }
  }

  // ----- a failed check -----

  /** The evidence of a failed check on a driver who is already locked by an open case. */
  lemma FailOnLocked(f: Fleet, alerts: seq<Alert>, d: nat, e: LogEntry)
    requires LockInv(f, alerts) && d < |f.drivers|
    requires !f.drivers[d].authorized
    requires Matches(e, f.drivers[d].company, OfDriver(d)) && e.result == FAILED
    ensures LockInv(f.(log := f.log + [e]), alerts)
  {
    hide HasCase, HasAlert, Chain;
    var g := f.(log := f.log + [e]);
    forall i | 0 <= i < |g.drivers|
      ensures DriverOk(g, i)
    {
      assert DriverOk(f, i);
      ChainAppend(f.log, e, f.drivers[i].company, OfDriver(i));
      assert DriverChain(f, i) + [] == DriverChain(f, i);
    }
    forall c | 0 <= c < |g.cases|
      ensures CaseOk(g, alerts, c)
    {
      assert CaseOk(f, alerts, c);
    }
  }

  /** Locking a driver who has no open case, with a new case and its alert, after a failed check. */
  lemma LockKeepsInvariant(f: Fleet, alerts: seq<Alert>, d: nat, e: LogEntry, locked: Driver, k: EscalationCase,
                           alert: Alert)
    requires LockInv(f, alerts) && d < |f.drivers|
    requires forall c :: 0 <= c < |f.cases| ==> !E6.IsOpenFor(f.cases[c], d)
    requires Matches(e, f.drivers[d].company, OfDriver(d)) && e.result == FAILED
    requires !locked.authorized && locked.company == f.drivers[d].company
    requires k.driver == d && k.company == locked.company && k.status == CaseOpen
    requires IsLockAlert(alert, k, |f.cases|)
    ensures LockInv(f.(log := f.log + [e], drivers := f.drivers[d := locked], cases := f.cases + [k]), alerts + [alert])
  {
    var g := f.(log := f.log + [e], drivers := f.drivers[d := locked], cases := f.cases + [k]);
    forall i | 0 <= i < |g.drivers|
      ensures DriverOk(g, i)
    {
      LockedDriverOk(f, d, i, e, locked, k);
    }
    forall c | 0 <= c < |g.cases|
      ensures CaseOk(g, alerts + [alert], c)
    {
      LockedCaseOk(f, alerts, d, e, locked, k, alert, c);
    }
  }

  lemma LockedDriverOk(f: Fleet, d: nat, i: nat, e: LogEntry, locked: Driver, k: EscalationCase)
    requires d < |f.drivers| && i < |f.drivers|
    requires forall j | 0 <= j < |f.drivers| :: DriverOk(f, j)
    requires Matches(e, f.drivers[d].company, OfDriver(d)) && e.result == FAILED
    requires !locked.authorized && locked.company == f.drivers[d].company
    requires k.driver == d && k.status == CaseOpen
    ensures DriverOk(f.(log := f.log + [e], drivers := f.drivers[d := locked], cases := f.cases + [k]), i)
  {
    hide Chain;
    var g := f.(log := f.log + [e], drivers := f.drivers[d := locked], cases := f.cases + [k]);
    assert DriverOk(f, i);
    ChainAppend(f.log, e, f.drivers[i].company, OfDriver(i));
    assert DriverChain(f, i) + [] == DriverChain(f, i);
    if i == d {
      assert Holds(g.cases[|f.cases|], d);
    } else {
      CasesAppend(f.cases, k, i);
    }
  }

  lemma CasesAppend(cases: seq<EscalationCase>, k: EscalationCase, i: nat)
    ensures HasCase(cases, i) ==> HasCase(cases + [k], i)
  {
    if HasCase(cases, i) {
      var c :| 0 <= c < |cases| && Holds(cases[c], i);
      assert Holds((cases + [k])[c], i);
    }
  }

  lemma LockedCaseOk(f: Fleet, alerts: seq<Alert>, d: nat, e: LogEntry, locked: Driver, k: EscalationCase,
                     alert: Alert, c: nat)
    requires LockInv(f, alerts) && d < |f.drivers|
    requires forall b :: 0 <= b < |f.cases| ==> !E6.IsOpenFor(f.cases[b], d)
    requires !locked.authorized && locked.company == f.drivers[d].company
    requires k.driver == d && k.company == locked.company && k.status == CaseOpen
    requires IsLockAlert(alert, k, |f.cases|)
    requires c <= |f.cases|
    ensures CaseOk(f.(log := f.log + [e], drivers := f.drivers[d := locked], cases := f.cases + [k]), alerts + [alert], c)
  {
    hide DriverOk;
    var more := alerts + [alert];
    if c < |f.cases| {
      assert CaseOk(f, alerts, c);
      var a :| 0 <= a < |alerts| && IsLockAlert(alerts[a], f.cases[c], c);
      assert IsLockAlert(more[a], f.cases[c], c);
    } else {
      assert IsLockAlert(more[|alerts|], k, c);
    }
  }

  // ----- a passed check -----

  /** A passed check unlocks the driver and leaves no open case of that driver. */
  lemma ClearKeepsInvariant(f: Fleet, alerts: seq<Alert>, d: nat, e: LogEntry, clock: Clock)
    requires LockInv(f, alerts) && d < |f.drivers|
    requires Matches(e, f.drivers[d].company, OfDriver(d)) && e.result == PASSED
    ensures LockInv(Cleared(f.(log := f.log + [e]), d, clock), alerts)
  {
    var g := Cleared(f.(log := f.log + [e]), d, clock);
    forall i | 0 <= i < |g.drivers|
      ensures DriverOk(g, i)
    {
      ClearedDriverOk(f, alerts, d, i, e, clock);
    }
    forall c | 0 <= c < |g.cases|
      ensures CaseOk(g, alerts, c)
    {
      ClearedCaseOk(f, alerts, d, e, clock, c);
    }
  }

  lemma ClearedDriverOk(f: Fleet, alerts: seq<Alert>, d: nat, i: nat, e: LogEntry, clock: Clock)
    requires LockInv(f, alerts) && d < |f.drivers| && i < |f.drivers|
    requires Matches(e, f.drivers[d].company, OfDriver(d)) && e.result == PASSED
    ensures DriverOk(Cleared(f.(log := f.log + [e]), d, clock), i)
  {
    hide Chain, CaseOk, HasAlert;
    var g := Cleared(f.(log := f.log + [e]), d, clock);
    assert DriverOk(f, i);
    ChainAppend(f.log, e, f.drivers[i].company, OfDriver(i));
    assert DriverChain(f, i) + [] == DriverChain(f, i);
    if i != d && !f.drivers[i].authorized {
      var c :| 0 <= c < |f.cases| && Holds(f.cases[c], i);
      assert Holds(g.cases[c], i);
    }
  }

  lemma ClearedCaseOk(f: Fleet, alerts: seq<Alert>, d: nat, e: LogEntry, clock: Clock, c: nat)
    requires LockInv(f, alerts) && d < |f.drivers| && c < |f.cases|
    requires e.result == PASSED
    ensures CaseOk(Cleared(f.(log := f.log + [e]), d, clock), alerts, c)
  {
    hide DriverOk;
    var g := Cleared(f.(log := f.log + [e]), d, clock);
    assert CaseOk(f, alerts, c);
    var open := E6.OpenCase(f.cases, d);
    var a :| 0 <= a < |alerts| && IsLockAlert(alerts[a], f.cases[c], c);
    assert IsLockAlert(alerts[a], g.cases[c], c);
    if open.Some? && f.cases[c].driver == d && c != open.value {
      assert E6.IsOpenFor(f.cases[open.value], d);
    }
  }

  // ----- completing an obligation -----

  /** Completing the open deadline of a subject keeps every ledger balanced. */
  lemma CompleteKeepsLedger(sha: Digest, f: Fleet, id: nat, company: nat, result: string, completedOn: Day,
                            means: Option<string>, uuid: nat, clock: Clock)
    requires LedgerInv(f) && id < |f.deadlines| && f.deadlines[id].status == DeadlineOpen
    requires f.deadlines[id].company == company
    requires f.deadlines[id].kind == FSK ==> result == PASSED
    ensures var d := f.deadlines[id];
      LedgerInv(f.(deadlines := RolledForward(f, id, result, completedOn),
                   log := Recorded(sha, f.log, CheckFields(company, d, result, completedOn, means), uuid, clock)))
  {
    hide Balanced, DeadlinesOf, Completing, Chain, SuccessorDue, Latest, EntryHash;
    var d := f.deadlines[id];
    var e := NewEntry(sha, f.log, CheckFields(company, d, result, completedOn, means), uuid, clock);
    var g := f.(deadlines := RolledForward(f, id, result, completedOn), log := f.log + [e]);
    assert DeadlineOk(f, d);
    forall s: Subject, kind: Kind | Owes(s, kind) && SubjectExists(g, s)
      ensures KindBalanced(g, s, kind)
    {
      assert KindBalanced(f, s, kind);
      if s == d.subject && kind == d.kind {
        CompleteBalances(f, id, e, result, completedOn);
      } else {
        CompleteElsewhere(f, id, e, result, completedOn, s, kind);
      }
    }
    forall i | 0 <= i < |g.deadlines|
      ensures DeadlineOk(g, g.deadlines[i])
    {
      assert i < |f.deadlines| ==> DeadlineOk(f, f.deadlines[i]);
    }
    forall i | 0 <= i < |g.log|
      ensures EntryOk(g, g.log[i])
    {
      assert i < |f.log| ==> EntryOk(f, f.log[i]);
    }
  }

  lemma CompleteBalances(f: Fleet, id: nat, e: LogEntry, result: string, completedOn: Day)
    requires id < |f.deadlines|
    requires var d := f.deadlines[id];
      && d.status == DeadlineOpen && DeadlineOk(f, d) && KindBalanced(f, d.subject, d.kind)
      && Matches(e, SubjectCompany(f, d.subject), d.subject)
      && e.kind == KindText(d.kind) && e.result == result && e.performedOn == completedOn && (d.kind == FSK ==> result == PASSED)
    ensures var d := f.deadlines[id];
      KindBalanced(f.(deadlines := RolledForward(f, id, result, completedOn), log := f.log + [e]), d.subject, d.kind)
  {
    hide Balanced, DeadlinesOf, Completing, Chain, SuccessorDue;
    var d := f.deadlines[id];
    var s, k, c, h := d.subject, d.kind, d.company, HuInterval(f, d.subject);
    var ds, es := DeadlinesOf(f.deadlines, s, k), Completing(Chain(f.log, c, s), k);
    var done := Done(d, completedOn);
    var next := Spawn(d, SuccessorDue(k, result, completedOn, h), IsNachpruefung(k, result));
    DeadlinesUpdate(f.deadlines, id, done, s, k);
    DeadlinesAppend(f.deadlines[id := done], next, s, k);
    OpenIsLast(f.deadlines, es, id, c, s, k, h);
    DeadlinePosition(f.deadlines, id, s, k);
    ChainAppend(f.log, e, c, s);
    CompletingAppend(Chain(f.log, c, s), e, k);
    BalanceSize(ds, es, k, h);
    RollKeepsBalance(ds, es, e, next, k, h);
  }

  lemma BalanceSize(ds: seq<Deadline>, es: seq<LogEntry>, kind: Kind, interval: int)
    requires Balanced(ds, es, kind, interval)
    ensures |ds| == |es| + 1
  {
  }

  lemma CompleteElsewhere(f: Fleet, id: nat, e: LogEntry, result: string, completedOn: Day, s: Subject, kind: Kind)
    requires id < |f.deadlines| && SubjectExists(f, s) && !s.Stranger? && KindBalanced(f, s, kind)
    requires var d := f.deadlines[id];
      && !(s == d.subject && kind == d.kind)
      && e.subject == d.subject && e.kind == KindText(d.kind)
    ensures KindBalanced(f.(deadlines := RolledForward(f, id, result, completedOn), log := f.log + [e]), s, kind)
  {
    hide Balanced, DeadlinesOf, Completing, Chain, SuccessorDue;
    var d := f.deadlines[id];
    var c, done := SubjectCompany(f, s), Done(d, completedOn);
    var next := Spawn(d, SuccessorDue(d.kind, result, completedOn, HuInterval(f, d.subject)), IsNachpruefung(d.kind, result));
    DeadlinesUpdate(f.deadlines, id, done, s, kind);
    DeadlinesAppend(f.deadlines[id := done], next, s, kind);
    assert DeadlinesOf(f.deadlines, s, kind) + [] == DeadlinesOf(f.deadlines, s, kind);
    ChainAppend(f.log, e, c, s);
    CompletingAppend(Chain(f.log, c, s), e, kind);
    assert Chain(f.log, c, s) + [] == Chain(f.log, c, s);
    assert Completing(Chain(f.log, c, s), kind) + [] == Completing(Chain(f.log, c, s), kind);
  }

  // ----- new subjects -----

  function FirstDeadline(company: nat, kind: Kind, s: Subject, dueOn: Day): Deadline {
    Deadline(company, kind, s, dueOn, DeadlineOpen, None, false)
  }

  function WithDriver(f: Fleet, d: Driver, dueOn: Day): Fleet {
    f.(drivers := f.drivers + [d],
       deadlines := f.deadlines + [FirstDeadline(d.company, FSK, OfDriver(|f.drivers|), dueOn)])
  }

  function WithVehicle(f: Fleet, v: Vehicle, huDue: Day, uvvDue: Day): Fleet {
    var s := OfVehicle(|f.vehicles|);
    f.(vehicles := f.vehicles + [v],
       deadlines := f.deadlines + [FirstDeadline(v.company, HU, s, huDue)] + [FirstDeadline(v.company, UVV, s, uvvDue)])
  }

  lemma {:induction false} NoDeadlines(ds: seq<Deadline>, s: Subject, kind: Kind)
    requires forall i :: 0 <= i < |ds| ==> ds[i].subject != s
    ensures DeadlinesOf(ds, s, kind) == []
  {
    if ds != [] {
      NoDeadlines(ds[..|ds| - 1], s, kind);
    }
  }

  lemma {:induction false} NoEntries(log: seq<LogEntry>, company: nat, s: Subject)
    requires forall i :: 0 <= i < |log| ==> log[i].subject != s
    ensures Chain(log, company, s) == []
  {
    if log != [] {
      NoEntries(log[..|log| - 1], company, s);
    }
  }

  /** A subject not on the books yet has neither deadlines nor evidence. */
  lemma Unknown(f: Fleet, s: Subject, company: nat, kind: Kind)
    requires LedgerInv(f) && !SubjectExists(f, s)
    ensures DeadlinesOf(f.deadlines, s, kind) == [] && Chain(f.log, company, s) == []
  {
    hide KindBalanced;
    forall i | 0 <= i < |f.deadlines|
      ensures f.deadlines[i].subject != s
    {
      assert DeadlineOk(f, f.deadlines[i]);
    }
    forall i | 0 <= i < |f.log|
      ensures f.log[i].subject != s
    {
      assert EntryOk(f, f.log[i]);
    }
    NoDeadlines(f.deadlines, s, kind);
    NoEntries(f.log, company, s);
  }

  lemma DriverKeepsLedger(f: Fleet, d: Driver, dueOn: Day)
    requires LedgerInv(f)
    ensures LedgerInv(WithDriver(f, d, dueOn))
  {
    hide Balanced, DeadlinesOf, Completing, Chain;
    var g, newcomer := WithDriver(f, d, dueOn), OfDriver(|f.drivers|);
    forall s: Subject, kind: Kind | Owes(s, kind) && SubjectExists(g, s)
      ensures KindBalanced(g, s, kind)
    {
      DeadlinesAppend(f.deadlines, g.deadlines[|f.deadlines|], s, kind);
      if s == newcomer {
        Unknown(f, s, d.company, kind);
        FirstBalances(g, s, kind, g.deadlines[|f.deadlines|]);
      } else {
        assert KindBalanced(f, s, kind);
        assert DeadlinesOf(f.deadlines, s, kind) + [] == DeadlinesOf(f.deadlines, s, kind);
      }
    }
    forall i | 0 <= i < |g.deadlines|
      ensures DeadlineOk(g, g.deadlines[i])
    {
      assert i < |f.deadlines| ==> DeadlineOk(f, f.deadlines[i]);
    }
    forall i | 0 <= i < |g.log|
      ensures EntryOk(g, g.log[i])
    {
      assert EntryOk(f, f.log[i]);
    }
  }

  lemma FirstBalances(g: Fleet, s: Subject, kind: Kind, d: Deadline)
    requires SubjectExists(g, s) && !s.Stranger?
    requires d.status == DeadlineOpen && d.completedOn == None
    requires DeadlinesOf(g.deadlines, s, kind) == [d]
    requires Chain(g.log, SubjectCompany(g, s), s) == []
    ensures KindBalanced(g, s, kind)
  {
  }

  lemma DriverKeepsLock(f: Fleet, alerts: seq<Alert>, d: Driver, dueOn: Day)
    requires LockInv(f, alerts) && LedgerInv(f) && d.authorized
    ensures LockInv(WithDriver(f, d, dueOn), alerts)
  {
    hide HasAlert, Chain, KindBalanced;
    var g := WithDriver(f, d, dueOn);
    forall i | 0 <= i < |g.drivers|
      ensures DriverOk(g, i)
    {
      if i < |f.drivers| {
        assert DriverOk(f, i);
      } else {
        Unknown(f, OfDriver(i), d.company, FSK);
      }
    }
    forall c | 0 <= c < |g.cases|
      ensures CaseOk(g, alerts, c)
    {
      assert CaseOk(f, alerts, c);
    }
  }

  lemma VehicleKeepsLedger(f: Fleet, v: Vehicle, huDue: Day, uvvDue: Day)
    requires LedgerInv(f)
    ensures LedgerInv(WithVehicle(f, v, huDue, uvvDue))
  {
    hide Balanced, DeadlinesOf, Completing, Chain;
    var g := WithVehicle(f, v, huDue, uvvDue);
    forall s: Subject, kind: Kind | Owes(s, kind) && SubjectExists(g, s)
      ensures KindBalanced(g, s, kind)
    {
      if s == OfVehicle(|f.vehicles|) {
        NewVehicleBalances(f, v, huDue, uvvDue, kind);
      } else {
        assert KindBalanced(f, s, kind);
        TwoMoreDeadlines(f, g, s, kind);
      }
    }
    forall i | 0 <= i < |g.deadlines|
      ensures DeadlineOk(g, g.deadlines[i])
    {
      assert i < |f.deadlines| ==> DeadlineOk(f, f.deadlines[i]);
    }
    forall i | 0 <= i < |g.log|
      ensures EntryOk(g, g.log[i])
    {
      assert EntryOk(f, f.log[i]);
    }
  }

  lemma NewVehicleBalances(f: Fleet, v: Vehicle, huDue: Day, uvvDue: Day, kind: Kind)
    requires LedgerInv(f) && kind != FSK
    ensures KindBalanced(WithVehicle(f, v, huDue, uvvDue), OfVehicle(|f.vehicles|), kind)
  {
    hide Balanced, DeadlinesOf, Completing, Chain;
    var g, s := WithVehicle(f, v, huDue, uvvDue), OfVehicle(|f.vehicles|);
    var hu, uvv := FirstDeadline(v.company, HU, s, huDue), FirstDeadline(v.company, UVV, s, uvvDue);
    DeadlinesAppend(f.deadlines, hu, s, kind);
    DeadlinesAppend(f.deadlines + [hu], uvv, s, kind);
    Unknown(f, s, v.company, kind);
    FirstBalances(g, s, kind, if kind == HU then hu else uvv);
  }

  lemma TwoMoreDeadlines(f: Fleet, g: Fleet, s: Subject, kind: Kind)
    requires KindBalancedHere(f, s, kind)
    requires SubjectExists(g, s) && SubjectCompany(g, s) == SubjectCompany(f, s) && g.log == f.log
    requires HuInterval(g, s) == HuInterval(f, s)
    requires |g.deadlines| == |f.deadlines| + 2 && g.deadlines[..|f.deadlines|] == f.deadlines
    requires g.deadlines[|f.deadlines|].subject != s && g.deadlines[|f.deadlines| + 1].subject != s
    ensures KindBalanced(g, s, kind)
  {
    hide Balanced, DeadlinesOf, Completing, Chain;
    var a, b := g.deadlines[|f.deadlines|], g.deadlines[|f.deadlines| + 1];
    assert g.deadlines == f.deadlines + [a] + [b];
    DeadlinesAppend(f.deadlines, a, s, kind);
    DeadlinesAppend(f.deadlines + [a], b, s, kind);
    assert DeadlinesOf(f.deadlines, s, kind) + [] + [] == DeadlinesOf(f.deadlines, s, kind);
  }

  predicate KindBalancedHere(f: Fleet, s: Subject, kind: Kind) {
    SubjectExists(f, s) && !s.Stranger? && KindBalanced(f, s, kind)
  }

  // ----- the escalation sweep -----

  /** What the sweep may do to a case: nag it, or breach it while it is open. */
  predicate SweptFrom(a: EscalationCase, b: EscalationCase) {
    && b == a.(status := b.status, lastNagOn := b.lastNagOn)
    && (b.status == a.status || (a.status == CaseOpen && b.status == Breached))
  }

  lemma SweepKeepsLock(f: Fleet, alerts: seq<Alert>, cases: seq<EscalationCase>)
    requires LockInv(f, alerts) && |cases| == |f.cases|
    requires forall c :: 0 <= c < |cases| ==> SweptFrom(f.cases[c], cases[c])
    ensures LockInv(f.(cases := cases), alerts)
  {
    hide Chain, ClearedBy;
    var g := f.(cases := cases);
    forall d | 0 <= d < |g.drivers|
      ensures DriverOk(g, d)
    {
      assert DriverOk(f, d);
      if !f.drivers[d].authorized {
        var c :| 0 <= c < |f.cases| && Holds(f.cases[c], d);
        assert SweptFrom(f.cases[c], cases[c]);
        assert Holds(cases[c], d);
      }
    }
    forall c | 0 <= c < |g.cases|
      ensures CaseOk(g, alerts, c)
    {
      SweptCaseOk(f, alerts, cases, c);
    }
  }

  lemma SweptCaseOk(f: Fleet, alerts: seq<Alert>, cases: seq<EscalationCase>, c: nat)
    requires LockInv(f, alerts) && |cases| == |f.cases| && c < |cases|
    requires forall i :: 0 <= i < |cases| ==> SweptFrom(f.cases[i], cases[i])
    ensures CaseOk(f.(cases := cases), alerts, c)
  {
    hide DriverOk;
    assert CaseOk(f, alerts, c) && SweptFrom(f.cases[c], cases[c]);
    var a :| 0 <= a < |alerts| && IsLockAlert(alerts[a], f.cases[c], c);
    assert IsLockAlert(alerts[a], cases[c], c);
    forall b | 0 <= b < |cases| && b != c && E6.IsOpenFor(cases[b], cases[c].driver)
      ensures cases[c].status != CaseOpen
    {
      assert SweptFrom(f.cases[b], cases[b]);
      assert E6.IsOpenFor(f.cases[b], f.cases[c].driver);
    }
  }
}
