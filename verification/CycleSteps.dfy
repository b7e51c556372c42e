/** The four steps of a relay cycle keep the invariant of the running system. */
module CycleSteps {
  import Wrappers
  import opened Calendar
  import opened BerlinTime
  import opened Records
  import opened QueueInvariant
  import opened Relay
  import RelayProgress
  import SmsQuota
  import opened DatabaseInvariant
  import opened FleetSystem
  import opened QuietSteps
  import opened SystemInvariant
  import RelaySteps

  // ----- claim -----

  lemma ClaimedOk(q: Queue, locked: set<nat>, now: Instant, batch: seq<nat>)
    requires forall id | id in Rows(q) :: DeliveryOk(Rows(q)[id])
    requires IsBatch(q.outbox, locked, now, batch)
    ensures CycleOk(q.outbox, Claimed(batch), now)
    ensures forall i | 0 <= i < |batch| :: batch[i] !in locked
  {
    hide IsBatch;
    BatchRows(q.outbox, locked, now, batch);
    forall i | 0 <= i < |batch|
      ensures HoldsRow(q.outbox, batch[i], now)
    {
      assert Rows(q)[batch[i]] == q.outbox[batch[i]];
    }
    forall company
      ensures |Dead(map[], company)| == 0
    {
      assert Dead(map[], company) == {};
    }
  }

  lemma ClaimApart(cycles: map<nat, Cycle>, cycle: nat, batch: seq<nat>)
    requires Disjoint(cycles) && cycle !in cycles
    requires forall i | 0 <= i < |batch| :: batch[i] !in LockedRows(cycles)
    ensures Disjoint(cycles[cycle := Claimed(batch)])
  {
  }

  lemma EmptyInFlight(cycles: map<nat, Cycle>, cycle: nat, batch: seq<nat>, id: nat)
    requires cycle !in cycles
    ensures InFlight(cycles[cycle := Claimed(batch)], id) <==> InFlight(cycles, id)
  {
    var more := cycles[cycle := Claimed(batch)];
    if InFlight(cycles, id) {
      var c :| c in cycles && IsMarkedSent(cycles[c].staged, id);
      assert c in more && IsMarkedSent(more[c].staged, id);
    }
  }

  lemma ClaimKeepsRelay(w: World, v: World, cycle: nat, batch: seq<nat>, today: Day)
    requires RelayInv(w) && QueueInv(w.db, today) && w.clock.now <= v.clock.now && cycle !in w.cycles
    requires IsBatch(w.db.queue.outbox, LockedRows(w.cycles), v.clock.now, batch)
    requires v == w.(clock := v.clock, cycles := w.cycles[cycle := Claimed(batch)])
    ensures RelayInv(v)
  {
    hide CycleOk, SendsOk, Disjoint, RowPast, Rows, LockedRows, IsBatch, KeysUnique, KeyOk, StampOk, DeliveryOk;
    SameQueueQuiet(w.db.queue, LockedRows(w.cycles));
    var u := w.(clock := v.clock);
    RelaySteps.QuietRelay(w, u);
    ClaimedOk(w.db.queue, LockedRows(w.cycles), v.clock.now, batch);
    ClaimApart(w.cycles, cycle, batch);
    forall id
      ensures SendsOk(v, id)
    {
      assert SendsOk(u, id);
      EmptyInFlight(w.cycles, cycle, batch, id);
      SendsFrame(u, v, id);
    }
  }

  lemma SendsFrame(u: World, v: World, id: nat)
    requires SendsOk(u, id) && v.accepted == u.accepted && v.aborts == u.aborts
    requires IsMarkedSent(Rows(v.db.queue), id) || InFlight(v.cycles, id) <==> IsMarkedSent(Rows(u.db.queue), id) || InFlight(u.cycles, id)
    ensures SendsOk(v, id)
  {
  }

  // ----- send -----

  lemma AnswerOk(r: OutboxRow, outbox: map<nat, OutboxRow>, cap: nat, asked: Instant, provider: Outcome, now: Instant)
    requires IsPending(r) && RowOk(r) && RowPast(r, now) && r.nextAttemptAt <= now
    requires provider != Crashed && provider != Accepted(SkippedByCap)
    ensures var outcome := SmsQuota.Answer(r, outbox, cap, asked, provider);
      outcome != Crashed && StagedOk(r, Deliver(r, Reply(outcome, now)), now)
  {
    hide SmsQuota.OverLimit, WallAdd, RelayProgress.RowTimes, DeliveryOk;
    var outcome := SmsQuota.Answer(r, outbox, cap, asked, provider);
    RelayProgress.DeliverWorks(r, Reply(outcome, now));
    assert |r.failedAt| == r.attempts by { TimesCount(r); }
    RelayProgress.DeliverTimes(r, Reply(outcome, now));
  }

  lemma TimesCount(r: OutboxRow)
    requires RelayProgress.RowTimes(r)
    ensures |r.failedAt| == r.attempts
  {
  }

  lemma RaisedCount(c: Cycle, outbox: map<nat, OutboxRow>, reply: Reply, company: nat)
    requires MaySend(c, outbox) && c.batch[c.done] !in c.staged && IsPending(outbox[c.batch[c.done]])
    requires Undeliverable(c.raised, company) == |Dead(c.staged, company)|
    ensures var d := AfterSend(c, outbox, reply);
      Undeliverable(d.raised, company) == |Dead(d.staged, company)|
  {
    hide Deliver, Raises, Dead, Undeliverable, IsPending;
    var id := c.batch[c.done];
    var more, row := Raises(outbox[id], reply), Deliver(outbox[id], reply);
    UndeliverableConcat(c.raised, more, company);
    DeathRaises(outbox[id], reply);
    OneAlert(more, company);
    DeadAdds(c.staged, id, row, company);
  }

  lemma DeathRaises(r: OutboxRow, reply: Reply)
    requires IsPending(r)
    ensures var s, more := Deliver(r, reply), Raises(r, reply);
      && s.company == r.company && |more| == (if s.deadLetteredAt.Some? then 1 else 0)
      && (|more| == 1 ==> forall company :: IsUndeliverable(more[0], company) <==> company == r.company)
  {
  }

  lemma DeadAdds(staged: map<nat, OutboxRow>, id: nat, row: OutboxRow, company: nat)
    requires id !in staged
    ensures |Dead(staged[id := row], company)| ==
            |Dead(staged, company)| + if row.company == company && row.deadLetteredAt.Some? then 1 else 0
  {
    var more := staged[id := row];
    if row.company == company && row.deadLetteredAt.Some? {
      assert Dead(more, company) == Dead(staged, company) + {id};
    } else {
      assert Dead(more, company) == Dead(staged, company);
    }
  }

  lemma OneAlert(more: seq<Alert>, company: nat)
    requires |more| <= 1
    ensures Undeliverable(more, company) == if |more| == 1 && IsUndeliverable(more[0], company) then 1 else 0
  {
  }

  lemma SendKeepsCycle(outbox: map<nat, OutboxRow>, c: Cycle, reply: Reply, now: Instant)
    requires CycleOk(outbox, c, now) && MaySend(c, outbox)
    requires StagedOk(outbox[c.batch[c.done]], Deliver(outbox[c.batch[c.done]], reply), now)
    ensures CycleOk(outbox, AfterSend(c, outbox, reply), now)
    ensures c.batch[c.done] !in c.staged
  {
    hide StagedOk, Deliver, Raises, Undeliverable, Dead;
    var d, id := AfterSend(c, outbox, reply), c.batch[c.done];
    assert HoldsRow(outbox, id, now);
    assert c.batch[..d.done] == c.batch[..c.done] + [id];
    forall company
      ensures Undeliverable(d.raised, company) == |Dead(d.staged, company)|
    {
      RaisedCount(c, outbox, reply, company);
    }
  }

  /** A row claimed by one cycle is staged by no other. */
  lemma OnlyOwner(w: World, cycle: nat, id: nat)
    requires RelayInv(w) && cycle in w.cycles && id in w.cycles[cycle].batch
    ensures forall d | d in w.cycles && d != cycle :: id !in w.cycles[d].staged
    ensures id in w.db.queue.outbox && IsPending(w.db.queue.outbox[id]) && !IsMarkedSent(Rows(w.db.queue), id)
  {
  }

  lemma SendMarks(w: World, cycle: nat, d: Cycle, id: nat, row: OutboxRow, x: nat)
    requires cycle in w.cycles && d.staged == w.cycles[cycle].staged[id := row] && id !in w.cycles[cycle].staged
    requires forall e | e in w.cycles && e != cycle :: id !in w.cycles[e].staged
    ensures InFlight(w.cycles[cycle := d], x) <==> if x == id then row.sentAt.Some? else InFlight(w.cycles, x)
    ensures !InFlight(w.cycles, id)
  {
    var more := w.cycles[cycle := d];
    if x != id && InFlight(w.cycles, x) {
      var e :| e in w.cycles && IsMarkedSent(w.cycles[e].staged, x);
      assert e in more && IsMarkedSent(more[e].staged, x);
    }
    if x == id && row.sentAt.Some? {
      assert IsMarkedSent(more[cycle].staged, x);
    }
  }

  lemma SendKeepsSends(w: World, v: World, cycle: nat, reply: Reply, x: nat)
    requires RelayInv(w) && cycle in w.cycles && MaySend(w.cycles[cycle], w.db.queue.outbox)
    requires v.cycles == w.cycles[cycle := AfterSend(w.cycles[cycle], w.db.queue.outbox, reply)]
    requires v.db.queue == w.db.queue
    requires v.aborts == w.aborts
    requires v.accepted == if reply.outcome.Accepted? then Bumped(w.accepted, {w.cycles[cycle].batch[w.cycles[cycle].done]}) else w.accepted
    requires w.cycles[cycle].batch[w.cycles[cycle].done] !in w.cycles[cycle].staged
    ensures SendsOk(v, x)
  {
    hide RelayInv, InFlight, Rows, FailedRow, Bumped;
    var c := w.cycles[cycle];
    var id := c.batch[c.done];
    OnlyOwner(w, cycle, id);
    SendMarks(w, cycle, v.cycles[cycle], id, Deliver(w.db.queue.outbox[id], reply), x);
    assert SendsOk(w, x) by { SendsAt(w, x); }
    FailedStaysUnsent(w.db.queue.outbox[id], reply.at);
  }

  lemma SendsAt(w: World, x: nat)
    requires RelayInv(w)
    ensures SendsOk(w, x)
  {
  }

  lemma FailedStaysUnsent(r: OutboxRow, now: Instant)
    ensures FailedRow(r, now).sentAt == r.sentAt
  {
  }

  lemma SendKeepsRelay(w: World, v: World, cycle: nat, reply: Reply)
    requires RelayInv(w) && cycle in w.cycles && MaySend(w.cycles[cycle], w.db.queue.outbox)
    requires v == w.(db := v.db, cycles := w.cycles[cycle := AfterSend(w.cycles[cycle], w.db.queue.outbox, reply)], accepted := v.accepted)
    requires v.db.queue == w.db.queue
    requires v.accepted == if reply.outcome.Accepted? then Bumped(w.accepted, {w.cycles[cycle].batch[w.cycles[cycle].done]}) else w.accepted
    requires var id := w.cycles[cycle].batch[w.cycles[cycle].done];
      StagedOk(w.db.queue.outbox[id], Deliver(w.db.queue.outbox[id], reply), w.clock.now)
    ensures RelayInv(v)
  {
    hide CycleOk, SendsOk, Disjoint, RowPast, Rows, StagedOk, Deliver, Raises, Bumped;
    var c := w.cycles[cycle];
    SendKeepsCycle(w.db.queue.outbox, c, reply, w.clock.now);
    SameBatches(w.cycles, cycle, v.cycles[cycle]);
    forall x
      ensures SendsOk(v, x)
    {
      SendKeepsSends(w, v, cycle, reply, x);
    }
  }

  lemma SameBatches(cycles: map<nat, Cycle>, cycle: nat, d: Cycle)
    requires Disjoint(cycles) && cycle in cycles && d.batch == cycles[cycle].batch
    ensures Disjoint(cycles[cycle := d])
  {
  }

  // ----- commit -----

  lemma CommittedRows(q: Queue, staged: map<nat, OutboxRow>)
    requires SerialsOk(q) && staged.Keys <= q.outbox.Keys
    ensures var p := q.(outbox := q.outbox + staged);
      SerialsOk(p) && Rows(p) == Rows(q) + staged && p.outbox.Keys == q.outbox.Keys
  {
  }

  lemma CommitKeepsQueue(db: Db, c: Cycle, today: Day, now: Instant)
    requires QueueInv(db, today) && RowsOk(db.queue) && CycleOk(db.queue.outbox, c, now)
    ensures QueueInv(Commit(db, c), today) && RowsOk(Commit(db, c).queue)
    ensures RowsPersist(db.queue, Commit(db, c).queue)
  {
    hide KeyOk, Deleted, ArchivedOk, StampOk, DeliveryOk, RowOk, Undeliverable, Dead, RowPast, IsPending,
         Wrappers.Distinct;
    var q, p := db.queue, Commit(db, c).queue;
    CommittedRows(q, c.staged);
    forall id | id in Rows(p)
      ensures DeliveryOk(Rows(p)[id]) && RowOk(Rows(p)[id]) && SameLetter(Rows(q)[id], Rows(p)[id])
    {
      if id in c.staged {
        assert StagedOk(q.outbox[id], c.staged[id], now);
      }
    }
    LettersKeepQueue(db, p, today);
  }

  /** Rewriting only the delivery columns keeps everything the keys say. */
  lemma LettersKeepQueue(db: Db, p: Queue, today: Day)
    requires QueueInv(db, today) && SerialsOk(p) && p.archive == db.queue.archive && p.triggers == db.queue.triggers
    requires p.outbox.Keys == db.queue.outbox.Keys && Rows(p).Keys == Rows(db.queue).Keys
    requires forall id | id in Rows(p) :: DeliveryOk(Rows(p)[id]) && SameLetter(Rows(db.queue)[id], Rows(p)[id])
    ensures QueueInv(db.(queue := p), today)
  {
    hide DeliveryOk, ArchivedOk, Deleted, SerialsOk, BerlinDay;
    var q := db.queue;
    forall id | id in Rows(p)
      ensures StampOk(Rows(p)[id]) && KeyOk(db.fleet, p.triggers, Rows(p)[id])
    {
      var r, s := Rows(q)[id], Rows(p)[id];
      assert SameLetter(r, s) && StampOk(r) && KeyOk(db.fleet, q.triggers, r);
      LetterKeepsKey(db.fleet, q.triggers, r, s);
    }
    forall id | id in p.outbox
      ensures !Deleted(db.accounts.companies, p.outbox[id].company)
    {
      assert Rows(p)[id] == p.outbox[id] && Rows(q)[id] == q.outbox[id] && SameLetter(Rows(q)[id], Rows(p)[id]);
    }
    LettersKeepKeys(q, p);
  }

  lemma LettersKeepKeys(q: Queue, p: Queue)
    requires KeysUnique(q) && Rows(p).Keys == Rows(q).Keys
    requires forall id | id in Rows(p) :: SameLetter(Rows(q)[id], Rows(p)[id])
    ensures KeysUnique(p)
  {
  }

  lemma LetterKeepsKey(f: Fleet, triggers: nat, r: OutboxRow, s: OutboxRow)
    requires SameLetter(r, s) && KeyOk(f, triggers, r)
    ensures KeyOk(f, triggers, s)
  {
  }

  lemma CommitDeadLetters(db: Db, c: Cycle, now: Instant)
    requires SerialsOk(db.queue) && DeadLettersOk(db) && CycleOk(db.queue.outbox, c, now)
    ensures DeadLettersOk(Commit(db, c))
  {
    hide DeliveryOk, RowOk, Undeliverable, RowPast, Wrappers.Distinct, StagedOk;
    var q, p := db.queue, Commit(db, c).queue;
    CommittedRows(q, c.staged);
    forall company
      ensures Undeliverable(db.alerts + c.raised, company) == |Dead(Rows(p), company)|
    {
      UndeliverableConcat(db.alerts, c.raised, company);
      StagedNotDead(q, c, now, company);
    }
  }

  lemma StagedNotDead(q: Queue, c: Cycle, now: Instant, company: nat)
    requires SerialsOk(q) && CycleOk(q.outbox, c, now)
    ensures |Dead(Rows(q) + c.staged, company)| == |Dead(Rows(q), company)| + |Dead(c.staged, company)|
  {
    hide CycleOk, SerialsOk, Dead, Rows, HoldsRow, IsPending;
    forall id | id in c.staged
      ensures id in Rows(q) && Rows(q)[id].deadLetteredAt.None?
    {
      StagedWasPending(q, c, now, id);
    }
    DeadUnion(Rows(q), c.staged, company);
  }

  lemma StagedWasPending(q: Queue, c: Cycle, now: Instant, id: nat)
    requires SerialsOk(q) && CycleOk(q.outbox, c, now) && id in c.staged
    ensures id in Rows(q) && Rows(q)[id].deadLetteredAt.None?
  {
    hide Undeliverable, StagedOk, Dead, Wrappers.Distinct;
    var i :| 0 <= i < c.done && c.batch[i] == id;
    RelaySteps.CycleHolds(q.outbox, c, now, i);
  }

  lemma DeadUnion(rows: map<nat, OutboxRow>, staged: map<nat, OutboxRow>, company: nat)
    requires forall id | id in staged :: id in rows && rows[id].deadLetteredAt.None?
    ensures |Dead(rows + staged, company)| == |Dead(rows, company)| + |Dead(staged, company)|
  {
    var before, more := Dead(rows, company), Dead(staged, company);
    assert Dead(rows + staged, company) == before + more;
    assert before !! more;
  }

  lemma CommitMarks(w: World, cycle: nat, id: nat)
    requires RelayInv(w) && cycle in w.cycles && SerialsOk(w.db.queue)
    ensures var p := Commit(w.db, w.cycles[cycle]).queue;
      IsMarkedSent(Rows(p), id) || InFlight(w.cycles - {cycle}, id) <==> IsMarkedSent(Rows(w.db.queue), id) || InFlight(w.cycles, id)
  {
    hide RelayInv;
    var c, q := w.cycles[cycle], w.db.queue;
    var rest := w.cycles - {cycle};
    StagedKeys(w, cycle);
    CommittedRows(q, c.staged);
    if id in c.staged {
      OnlyOwner(w, cycle, id);
      assert IsMarkedSent(c.staged, id) ==> InFlight(w.cycles, id);
      assert !InFlight(rest, id);
    } else if InFlight(w.cycles, id) {
      var e :| e in w.cycles && IsMarkedSent(w.cycles[e].staged, id);
      assert e in rest && IsMarkedSent(rest[e].staged, id);
    }
  }

  lemma StagedKeys(w: World, cycle: nat)
    requires RelayInv(w) && cycle in w.cycles
    ensures forall id | id in w.cycles[cycle].staged :: id in w.cycles[cycle].batch && id in w.db.queue.outbox
  {
  }

  lemma CommitKeepsRelay(w: World, v: World, cycle: nat)
    requires RelayInv(w) && cycle in w.cycles && SerialsOk(w.db.queue)
    requires v == w.(db := Commit(w.db, w.cycles[cycle]), cycles := w.cycles - {cycle})
    ensures RelayInv(v)
  {
    hide CycleOk, SendsOk, Disjoint, RowPast, Rows, SerialsOk;
    var c, q := w.cycles[cycle], w.db.queue;
    StagedKeys(w, cycle);
    CommittedRows(q, c.staged);
    forall e | e in v.cycles
      ensures CycleOk(v.db.queue.outbox, v.cycles[e], w.clock.now)
    {
      OthersUntouched(w, cycle, e);
      RelaySteps.CycleFrame(q.outbox, v.db.queue.outbox, w.cycles[e], w.clock.now, w.clock.now);
    }
    FewerApart(w.cycles, cycle);
    forall id | id in Rows(v.db.queue)
      ensures RowPast(Rows(v.db.queue)[id], w.clock.now)
    {
      if id in c.staged {
        StagedAt(q.outbox, c, w.clock.now, id);
      }
    }
    forall id
      ensures SendsOk(v, id)
    {
      assert SendsOk(w, id);
      CommitMarks(w, cycle, id);
      SendsFrame(w, v, id);
    }
  }

  lemma StagedAt(outbox: map<nat, OutboxRow>, c: Cycle, now: Instant, id: nat)
    requires CycleOk(outbox, c, now) && id in c.staged
    ensures RowPast(c.staged[id], now)
  {
    hide Undeliverable, Dead, Wrappers.Distinct, RowPast;
    assert StagedOk(outbox[id], c.staged[id], now);
  }

  lemma OthersUntouched(w: World, cycle: nat, e: nat)
    requires RelayInv(w) && cycle in w.cycles && e in w.cycles && e != cycle
    ensures var outbox, after := w.db.queue.outbox, w.db.queue.outbox + w.cycles[cycle].staged;
      forall i | 0 <= i < |w.cycles[e].batch| ::
        w.cycles[e].batch[i] in outbox && w.cycles[e].batch[i] in after && after[w.cycles[e].batch[i]] == outbox[w.cycles[e].batch[i]]
  {
    hide Rows, RelayInv;
    forall i | 0 <= i < |w.cycles[e].batch|
      ensures w.cycles[e].batch[i] in w.db.queue.outbox && w.cycles[e].batch[i] !in w.cycles[cycle].staged
    {
      OnlyOwner(w, e, w.cycles[e].batch[i]);
    }
  }

  lemma FewerApart(cycles: map<nat, Cycle>, cycle: nat)
    requires Disjoint(cycles)
    ensures Disjoint(cycles - {cycle})
  {
  }

  // ----- abort -----

  lemma AbortMarks(w: World, cycle: nat, id: nat)
    requires RelayInv(w) && cycle in w.cycles
    ensures InFlight(w.cycles - {cycle}, id) ==> InFlight(w.cycles, id)
    ensures id !in w.cycles[cycle].batch ==> (InFlight(w.cycles, id) <==> InFlight(w.cycles - {cycle}, id))
    ensures id in w.cycles[cycle].batch ==> !InFlight(w.cycles - {cycle}, id) && !IsMarkedSent(Rows(w.db.queue), id)
  {
    hide RelayInv, Rows;
    var rest := w.cycles - {cycle};
    StagedKeys(w, cycle);
    if InFlight(rest, id) {
      var e :| e in rest && IsMarkedSent(rest[e].staged, id);
      assert e in w.cycles && IsMarkedSent(w.cycles[e].staged, id);
    }
    if id in w.cycles[cycle].batch {
      OnlyOwner(w, cycle, id);
    } else if InFlight(w.cycles, id) {
      var e :| e in w.cycles && IsMarkedSent(w.cycles[e].staged, id);
      assert e in rest && IsMarkedSent(rest[e].staged, id);
    }
  }

  lemma AbortKeepsRelay(w: World, v: World, cycle: nat)
    requires RelayInv(w) && cycle in w.cycles
    requires v == w.(cycles := w.cycles - {cycle}, aborts := Bumped(w.aborts, BatchSet(w.cycles[cycle])))
    ensures RelayInv(v)
  {
    hide CycleOk, SendsOk, Disjoint, RowPast, Rows, Bumped;
    FewerApart(w.cycles, cycle);
    forall id
      ensures SendsOk(v, id)
    {
      assert SendsOk(w, id);
      AbortMarks(w, cycle, id);
      AbortCounts(w, v, cycle, id);
    }
  }

  lemma AbortCounts(w: World, v: World, cycle: nat, id: nat)
    requires SendsOk(w, id) && cycle in w.cycles && v.accepted == w.accepted && v.db == w.db
    requires v.aborts == Bumped(w.aborts, BatchSet(w.cycles[cycle]))
    requires InFlight(v.cycles, id) ==> InFlight(w.cycles, id)
    requires id !in w.cycles[cycle].batch ==> (InFlight(w.cycles, id) <==> InFlight(v.cycles, id))
    requires id in w.cycles[cycle].batch ==> !InFlight(v.cycles, id) && !IsMarkedSent(Rows(w.db.queue), id)
    ensures SendsOk(v, id)
  {
  }
}
