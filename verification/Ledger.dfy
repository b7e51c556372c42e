/** Obligations and evidence kept in step: the deadlines of one subject and kind, in the order they
    were spawned, answer one for one to the checks recorded in its chain. */
module Ledger {
  import opened Wrappers
  import opened Records
  import opened Checks

  // ----- the two sides of the ledger -----

  predicate IsFor(d: Deadline, subject: Subject, kind: Kind) {
    d.subject == subject && d.kind == kind
  }

  function DeadlinesOf(deadlines: seq<Deadline>, subject: Subject, kind: Kind): seq<Deadline> {
    if deadlines == [] then []
    else
      var d := deadlines[|deadlines| - 1];
      DeadlinesOf(deadlines[..|deadlines| - 1], subject, kind) + if IsFor(d, subject, kind) then [d] else []
  }

  /** A check that completes an obligation: any HU or UVV inspection, a passed Fuehrerscheinkontrolle. */
  predicate Completes(e: LogEntry, kind: Kind) {
    e.kind == KindText(kind) && (kind == FSK ==> e.result == PASSED)
  }

  function Completing(chain: seq<LogEntry>, kind: Kind): seq<LogEntry> {
    if chain == [] then []
    else
      var e := chain[|chain| - 1];
      Completing(chain[..|chain| - 1], kind) + if Completes(e, kind) then [e] else []
  }

  /** Deadline `i` was completed by check `i`, and its successor is due by the rule applied to that check. */
  predicate RolledBy(ds: seq<Deadline>, es: seq<LogEntry>, kind: Kind, interval: int, i: nat)
    requires i < |es| && |ds| == |es| + 1
  {
    && ds[i].status == DeadlineCompleted
    && ds[i].completedOn == Some(es[i].performedOn)
    && ds[i + 1].dueOn == SuccessorDue(kind, es[i].result, es[i].performedOn, interval)
    && ds[i + 1].nachpruefung == IsNachpruefung(kind, es[i].result)
  }

  /** Every deadline but the last is completed by its check; the last is the one open obligation. */
  predicate Balanced(ds: seq<Deadline>, es: seq<LogEntry>, kind: Kind, interval: int) {
    && |ds| == |es| + 1
    && ds[|es|].status == DeadlineOpen
    && ds[|es|].completedOn == None
    && forall i | 0 <= i < |es| :: RolledBy(ds, es, kind, interval, i)
  }

  /** The open obligation a route looks up: OPEN, of this subject and kind, visible to the company. */
  predicate IsOpen(d: Deadline, company: nat, subject: Subject, kind: Kind) {
    d.company == company && IsFor(d, subject, kind) && d.status == DeadlineOpen
  }

  function OpenDeadline(deadlines: seq<Deadline>, company: nat, subject: Subject, kind: Kind): (r: Option<nat>)
    ensures r.Some? ==> r.value < |deadlines| && IsOpen(deadlines[r.value], company, subject, kind)
    ensures r.None? ==> forall i | 0 <= i < |deadlines| :: !IsOpen(deadlines[i], company, subject, kind)
  {
    if deadlines == [] then None
    else if IsOpen(deadlines[|deadlines| - 1], company, subject, kind) then Some(|deadlines| - 1)
    else OpenDeadline(deadlines[..|deadlines| - 1], company, subject, kind)
  }

  // ----- how the lists move -----

  lemma DeadlinesAppend(ds: seq<Deadline>, d: Deadline, subject: Subject, kind: Kind)
    ensures DeadlinesOf(ds + [d], subject, kind) ==
            DeadlinesOf(ds, subject, kind) + if IsFor(d, subject, kind) then [d] else []
  {
  }

  lemma {:induction false} DeadlinePosition(ds: seq<Deadline>, id: nat, subject: Subject, kind: Kind)
    requires id < |ds| && IsFor(ds[id], subject, kind)
    ensures var p := |DeadlinesOf(ds[..id], subject, kind)|;
      p < |DeadlinesOf(ds, subject, kind)| && DeadlinesOf(ds, subject, kind)[p] == ds[id]
  {
    var short := ds[..|ds| - 1];
    if id < |ds| - 1 {
      DeadlinePosition(short, id, subject, kind);
      assert short[..id] == ds[..id];
    }
  }

  lemma {:induction false} DeadlinesUpdate(ds: seq<Deadline>, id: nat, d: Deadline, subject: Subject, kind: Kind)
    requires id < |ds| && d.subject == ds[id].subject && d.kind == ds[id].kind
    ensures var p := |DeadlinesOf(ds[..id], subject, kind)|;
      if IsFor(d, subject, kind)
      then p < |DeadlinesOf(ds, subject, kind)| && DeadlinesOf(ds[id := d], subject, kind) == DeadlinesOf(ds, subject, kind)[p := d]
      else DeadlinesOf(ds[id := d], subject, kind) == DeadlinesOf(ds, subject, kind)
  {
    hide DeadlinesOf, IsFor;
    var n := |ds| - 1;
    var short, last := ds[..n], ds[n];
    assert ds == short + [last];
    DeadlinesAppend(short, last, subject, kind);
    if id < n {
      assert ds[id := d] == short[id := d] + [last] && short[..id] == ds[..id];
      DeadlinesUpdate(short, id, d, subject, kind);
      DeadlinesAppend(short[id := d], last, subject, kind);
    } else {
      assert ds[id := d] == short + [d] && ds[..id] == short;
      DeadlinesAppend(short, d, subject, kind);
      SameFor(last, d, subject, kind);
    }
  }

  lemma SameFor(a: Deadline, b: Deadline, subject: Subject, kind: Kind)
    requires a.subject == b.subject && a.kind == b.kind
    ensures IsFor(a, subject, kind) <==> IsFor(b, subject, kind)
  {
  }

  lemma CompletingAppend(chain: seq<LogEntry>, e: LogEntry, kind: Kind)
    ensures Completing(chain + [e], kind) == Completing(chain, kind) + if Completes(e, kind) then [e] else []
  {
  }

  lemma {:induction false} FoundIn(ds: seq<Deadline>, p: nat, subject: Subject, kind: Kind) returns (id: nat)
    requires p < |DeadlinesOf(ds, subject, kind)|
    ensures id < |ds| && ds[id] == DeadlinesOf(ds, subject, kind)[p]
    ensures IsFor(ds[id], subject, kind)
  {
    var short := ds[..|ds| - 1];
    if p < |DeadlinesOf(short, subject, kind)| {
      id := FoundIn(short, p, subject, kind);
    } else {
      id := |ds| - 1;
    }
  }

  /** A balanced ledger has its last deadline open and no other, so the lookup finds exactly that one. */
  lemma OpenIsLast(ds: seq<Deadline>, es: seq<LogEntry>, id: nat, company: nat, subject: Subject, kind: Kind,
                   interval: int)
    requires Balanced(DeadlinesOf(ds, subject, kind), es, kind, interval)
    requires id < |ds| && IsOpen(ds[id], company, subject, kind)
    ensures |DeadlinesOf(ds[..id], subject, kind)| == |es|
  {
    hide DeadlinesOf, SuccessorDue;
    DeadlinePosition(ds, id, subject, kind);
    var p := |DeadlinesOf(ds[..id], subject, kind)|;
    if p < |es| {
      assert RolledBy(DeadlinesOf(ds, subject, kind), es, kind, interval, p);
    }
  }

  /** Completing the open deadline and recording its check keeps the ledger balanced. */
  lemma RollKeepsBalance(ds: seq<Deadline>, es: seq<LogEntry>, e: LogEntry, next: Deadline, kind: Kind, interval: int)
    requires Balanced(ds, es, kind, interval)
    requires next.status == DeadlineOpen && next.completedOn == None
    requires next.dueOn == SuccessorDue(kind, e.result, e.performedOn, interval)
    requires next.nachpruefung == IsNachpruefung(kind, e.result)
    ensures Balanced(ds[|es| := Done(ds[|es|], e.performedOn)] + [next], es + [e], kind, interval)
  {
    hide SuccessorDue;
    var dt, et := ds[|es| := Done(ds[|es|], e.performedOn)] + [next], es + [e];
    forall i | 0 <= i < |et|
      ensures RolledBy(dt, et, kind, interval, i)
    {
      if i < |es| {
        assert RolledBy(ds, es, kind, interval, i);
      }
    }
  }

  // ----- what a balanced ledger says -----

  function CountStatus(ds: seq<Deadline>, status: DeadlineStatus): nat {
    if ds == [] then 0 else CountStatus(ds[..|ds| - 1], status) + if ds[|ds| - 1].status == status then 1 else 0
  }

  lemma {:induction false} CountCompleted(ds: seq<Deadline>, es: seq<LogEntry>, kind: Kind, interval: int, n: nat)
    requires |ds| == |es| + 1 && n <= |es|
    requires forall i | 0 <= i < |es| :: RolledBy(ds, es, kind, interval, i)
    ensures CountStatus(ds[..n], DeadlineCompleted) == n
    ensures CountStatus(ds[..n], DeadlineOpen) == 0
  {
    hide SuccessorDue;
    if n > 0 {
      CountCompleted(ds, es, kind, interval, n - 1);
      assert ds[..n][..n - 1] == ds[..n - 1];
      assert RolledBy(ds, es, kind, interval, n - 1);
    }
  }

  /** Exactly one open deadline, and as many completed ones as completing checks. */
  lemma BalanceCounts(ds: seq<Deadline>, es: seq<LogEntry>, kind: Kind, interval: int)
    requires Balanced(ds, es, kind, interval)
    ensures CountStatus(ds, DeadlineOpen) == 1
    ensures CountStatus(ds, DeadlineCompleted) == |es|
  {
    hide SuccessorDue;
    CountCompleted(ds, es, kind, interval, |es|);
    assert ds[..|ds| - 1] == ds[..|es|];
  }
}
