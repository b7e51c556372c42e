/** app/jobs/relay.py: claim a batch, send, commit or roll back. */
module Relay {
  import opened Wrappers
  import opened BerlinTime
  import opened Records

  const BACKOFF := [0, 60, 300, 1800, 7200]
  const BATCH_SIZE := 50

  /** What one `send` does: a normal return, a NotifierError, or any other exception. */
  datatype Outcome = Accepted(receipt: Receipt) | Rejected | Crashed

  datatype Reply = Reply(outcome: Outcome, at: Instant)

  // ----- claiming -----

  predicate Eligible(r: OutboxRow, now: Instant) {
    r.Pending() && r.nextAttemptAt <= now
  }

  /** ORDER BY priority, created_at. */
  predicate Before(a: OutboxRow, b: OutboxRow) {
    a.priority < b.priority || (a.priority == b.priority && a.createdAt < b.createdAt)
  }

  /** The rows a claim may take: eligible and not locked by another cycle. */
  function Claimable(outbox: map<nat, OutboxRow>, locked: set<nat>, now: Instant): (ids: set<nat>)
    ensures forall id :: id in ids <==>
      && id in outbox && id !in locked
      && outbox[id].sentAt == None && outbox[id].deadLetteredAt == None && outbox[id].nextAttemptAt <= now
  {
    set id | id in outbox && id !in locked && Eligible(outbox[id], now)
  }

  /** `a` is served no later than `b`. */
  predicate NoLaterThan(a: OutboxRow, b: OutboxRow) {
    a.priority <= b.priority && (a.priority == b.priority ==> a.createdAt <= b.createdAt)
  }

  /** A batch the claim query can return: at most fifty unsent, not dead-lettered, due and unlocked rows,
      each once, by priority and then age; none left out belongs before a picked one, and none at all is
      left out of a batch that is not full. */
  predicate IsBatch(outbox: map<nat, OutboxRow>, locked: set<nat>, now: Instant, batch: seq<nat>) {
    && |batch| <= 50 && Distinct(batch)
    && (forall i | 0 <= i < |batch| ::
          && batch[i] in outbox && batch[i] !in locked && outbox[batch[i]].sentAt == None
          && outbox[batch[i]].deadLetteredAt == None && outbox[batch[i]].nextAttemptAt <= now)
    && (forall i, j | 0 <= i < j < |batch| :: NoLaterThan(outbox[batch[i]], outbox[batch[j]]))
    && (forall id | id in outbox && id !in locked && id !in batch ::
          outbox[id].sentAt == None && outbox[id].deadLetteredAt == None && outbox[id].nextAttemptAt <= now ==>
          |batch| == 50 && forall i | 0 <= i < |batch| :: NoLaterThan(outbox[batch[i]], outbox[id]))
  }

  /** FOR UPDATE SKIP LOCKED with ORDER BY and LIMIT, by repeated selection of a first row. */
  method SelectBatch(outbox: map<nat, OutboxRow>, locked: set<nat>, now: Instant) returns (batch: seq<nat>)
    ensures IsBatch(outbox, locked, now, batch)
  {
    batch := [];
    var all := Claimable(outbox, locked, now);
    var left := all;
    while left != {} && |batch| < BATCH_SIZE
      invariant |batch| <= BATCH_SIZE
      invariant forall id :: id in all <==> id in left || id in batch
      invariant forall i :: 0 <= i < |batch| ==> batch[i] !in left
      invariant Distinct(batch)
      invariant forall i, j :: 0 <= i < j < |batch| ==> !Before(outbox[batch[j]], outbox[batch[i]])
      invariant forall id, i :: id in left && 0 <= i < |batch| ==> !Before(outbox[id], outbox[batch[i]])
      decreases left
    {
      hide Before, Eligible;
      var first := FirstOf(outbox, left);
      batch := batch + [first];
      left := left - {first};
    }
  }

  method FirstOf(outbox: map<nat, OutboxRow>, ids: set<nat>) returns (first: nat)
    requires ids != {} && ids <= outbox.Keys
    ensures first in ids
    ensures forall id :: id in ids ==> !Before(outbox[id], outbox[first])
  {
    first :| first in ids;
    var rest := ids - {first};
    while rest != {}
      invariant rest <= ids && first in ids
      invariant forall id :: id in ids - rest ==> !Before(outbox[id], outbox[first])
      decreases rest
    {
      var id :| id in rest;
      if Before(outbox[id], outbox[first]) {
        first := id;
      }
      rest := rest - {id};
    }
  }

  // ----- sending -----

  function SentRow(r: OutboxRow, receipt: Receipt, now: Instant): OutboxRow {
    r.(sentAt := Some(now), receipt := Some(receipt))
  }

  /** `_record_failure`: back off on the Berlin wall clock, or dead-letter after the last attempt. */
  function FailedRow(r: OutboxRow, now: Instant): OutboxRow {
    var n := r.attempts + 1;
    var counted := r.(attempts := n, failedAt := r.failedAt + [now]);
    if n >= |BACKOFF| then counted.(deadLetteredAt := Some(now))
    else counted.(nextAttemptAt := WallAdd(now, BACKOFF[n] * SECOND))
  }

  function Deliver(r: OutboxRow, reply: Reply): OutboxRow {
    match reply.outcome
    case Accepted(receipt) => SentRow(r, receipt, reply.at)
    case Rejected => FailedRow(r, reply.at)
    case Crashed => r
  }

  function DeadLetterAlert(r: OutboxRow, now: Instant): Alert {
    Alert(r.company, CRITICAL, NotificationUndeliverable, None, None, now)
  }

  function Raises(r: OutboxRow, reply: Reply): seq<Alert> {
    if reply.outcome == Rejected && r.attempts + 1 >= |BACKOFF| then [DeadLetterAlert(r, reply.at)] else []
  }

  /** An open relay transaction: its claimed rows, how many are dealt with, and the uncommitted writes. */
  datatype Cycle = Cycle(batch: seq<nat>, done: nat, staged: map<nat, OutboxRow>, raised: seq<Alert>)

  function Claimed(batch: seq<nat>): Cycle { Cycle(batch, 0, map[], []) }

  predicate MaySend(c: Cycle, outbox: map<nat, OutboxRow>) {
    c.done < |c.batch| && c.batch[c.done] in outbox
  }

  function AfterSend(c: Cycle, outbox: map<nat, OutboxRow>, reply: Reply): Cycle
    requires MaySend(c, outbox)
  {
    var id := c.batch[c.done];
    c.(done := c.done + 1, staged := c.staged[id := Deliver(outbox[id], reply)], raised := c.raised + Raises(outbox[id], reply))
  }

  function Commit(db: Db, c: Cycle): Db {
    db.(queue := db.queue.(outbox := db.queue.outbox + c.staged), alerts := db.alerts + c.raised)
  }

  /** The open transaction after the first `n` replies. */
  function AfterReplies(outbox: map<nat, OutboxRow>, batch: seq<nat>, replies: seq<Reply>, n: nat): (c: Cycle)
    requires n <= |batch| && n <= |replies|
    requires forall i | 0 <= i < |batch| :: batch[i] in outbox
    ensures c.batch == batch && c.done == n
    ensures forall id | id in c.staged :: id in batch[..n]
  {
    if n == 0 then Claimed(batch) else AfterSend(AfterReplies(outbox, batch, replies, n - 1), outbox, replies[n - 1])
  }

  // ----- the cycle -----

  method RecordFailure(s: Session, id: nat, now: Instant)
    requires id in s.queue.outbox
    modifies s`queue, s`alerts
    ensures s.queue == old(s.queue).(outbox := old(s.queue.outbox)[id := FailedRow(old(s.queue.outbox)[id], now)])
    ensures s.alerts == old(s.alerts) + Raises(old(s.queue.outbox)[id], Reply(Rejected, now))
  {
    hide WallAdd;
    var row := s.queue.outbox[id];
    row := row.(attempts := row.attempts + 1, failedAt := row.failedAt + [now]);
    if row.attempts >= |BACKOFF| {
      row := row.(deadLetteredAt := Some(now));
      s.alerts := s.alerts + [Alert(row.company, CRITICAL, NotificationUndeliverable, None, None, now)];
    } else {
      row := row.(nextAttemptAt := WallAdd(now, BACKOFF[row.attempts] * SECOND));
    }
    s.queue := s.queue.(outbox := s.queue.outbox[id := row]);
  }

  /** `relay_outbox`: one cycle against the replies the notifiers will give. Any exception other than a
      NotifierError rolls the whole batch back. */
  method RelayOutbox(s: Session, locked: set<nat>, now: Instant, replies: seq<Reply>)
      returns (batch: seq<nat>, committed: bool)
    requires |replies| >= BATCH_SIZE
    modifies s
    ensures IsBatch(old(s.queue.outbox), locked, now, batch)
    ensures committed <==> forall i | 0 <= i < |batch| :: replies[i].outcome != Crashed
    ensures committed ==> s.State() == Commit(old(s.State()), AfterReplies(old(s.queue.outbox), batch, replies, |batch|))
    ensures !committed ==> s.State() == old(s.State())
  {
    hide IsBatch, Deliver, Claimable, Commit, AfterSend, Raises, Eligible;
    var savepoint := s.State();
    var outbox := s.queue.outbox;
    batch := SelectBatch(outbox, locked, now);
    BatchRows(outbox, locked, now, batch);
    NothingSent(savepoint, batch);
    for i := 0 to |batch|
      invariant s.State() == Commit(savepoint, AfterReplies(outbox, batch, replies, i))
      invariant forall k :: i <= k < |batch| ==> batch[k] in s.queue.outbox && s.queue.outbox[batch[k]] == outbox[batch[k]]
      invariant forall k :: 0 <= k < i ==> replies[k].outcome != Crashed
    {
      if replies[i].outcome == Crashed {
        s.RollbackTo(savepoint);
        return batch, false;
      }
      SendNext(s, savepoint, AfterReplies(outbox, batch, replies, i), replies[i]);
    }
    return batch, true;
  }

  /** The body of the loop: send one row and write down what became of it. */
  method SendNext(s: Session, savepoint: Db, c: Cycle, reply: Reply)
    requires MaySend(c, savepoint.queue.outbox) && reply.outcome != Crashed
    requires s.State() == Commit(savepoint, c)
    requires c.batch[c.done] in s.queue.outbox
    requires s.queue.outbox[c.batch[c.done]] == savepoint.queue.outbox[c.batch[c.done]]
    modifies s
    ensures s.State() == Commit(savepoint, AfterSend(c, savepoint.queue.outbox, reply))
    ensures s.queue.outbox == old(s.queue.outbox)[c.batch[c.done] := s.queue.outbox[c.batch[c.done]]]
  {
    hide AfterSend, Deliver, Raises;
    StepCommit(savepoint, c, reply);
    SendOne(s, c.batch[c.done], reply);
  }

  method SendOne(s: Session, id: nat, reply: Reply)
    requires id in s.queue.outbox && reply.outcome != Crashed
    modifies s`queue, s`alerts
    ensures s.queue == old(s.queue).(outbox := old(s.queue.outbox)[id := Deliver(old(s.queue.outbox)[id], reply)])
    ensures s.alerts == old(s.alerts) + Raises(old(s.queue.outbox)[id], reply)
  {
    hide FailedRow;
    match reply.outcome {
      case Accepted(receipt) =>
        var row := s.queue.outbox[id];
        s.queue := s.queue.(outbox := s.queue.outbox[id := row.(sentAt := Some(reply.at), receipt := Some(receipt))]);
      case Rejected =>
        RecordFailure(s, id, reply.at);
      case Crashed =>
    }
  }

  lemma BatchRows(outbox: map<nat, OutboxRow>, locked: set<nat>, now: Instant, batch: seq<nat>)
    requires IsBatch(outbox, locked, now, batch)
    ensures |batch| <= BATCH_SIZE && Distinct(batch)
    ensures forall i | 0 <= i < |batch| :: batch[i] in outbox && batch[i] !in locked && Eligible(outbox[batch[i]], now)
  {
  }

  lemma NothingSent(db: Db, batch: seq<nat>)
    ensures Commit(db, Claimed(batch)) == db
  {
  }

  lemma StepCommit(db: Db, c: Cycle, reply: Reply)
    requires MaySend(c, db.queue.outbox)
    ensures var id := c.batch[c.done];
      Commit(db, AfterSend(c, db.queue.outbox, reply)) ==
      Commit(db, c).(queue := Commit(db, c).queue.(outbox := Commit(db, c).queue.outbox[id := Deliver(db.queue.outbox[id], reply)]),
                     alerts := Commit(db, c).alerts + Raises(db.queue.outbox[id], reply))
  {
  }
}
