/** Relay progress: every committed cycle does work, failure-free cycles drain the queue fifty rows at
    a time, and how long the road to the dead letter is. */
module RelayProgress {
  import opened Wrappers
  import opened BerlinTime
  import opened Records
  import opened QueueInvariant
  import opened Relay

  // ----- a committed cycle row by row -----

  function Elements(ids: seq<nat>): (s: set<nat>) {
    set id | id in ids
  }

  /** The table after the first `n` replies of a cycle. */
  function OutboxAfter(outbox: map<nat, OutboxRow>, batch: seq<nat>, replies: seq<Reply>, n: nat): map<nat, OutboxRow>
    requires n <= |batch| && n <= |replies|
    requires forall i | 0 <= i < |batch| :: batch[i] in outbox
  {
    outbox + AfterReplies(outbox, batch, replies, n).staged
  }

  lemma OutboxStep(outbox: map<nat, OutboxRow>, batch: seq<nat>, replies: seq<Reply>, n: nat)
    requires n < |batch| && n < |replies|
    requires forall i | 0 <= i < |batch| :: batch[i] in outbox
    ensures OutboxAfter(outbox, batch, replies, n + 1) ==
            OutboxAfter(outbox, batch, replies, n)[batch[n] := Deliver(outbox[batch[n]], replies[n])]
  {
  }

  /** Claimed row `i` is as its own reply left it. */
  predicate Answered(outbox: map<nat, OutboxRow>, after: map<nat, OutboxRow>, batch: seq<nat>, replies: seq<Reply>,
                     i: nat)
    requires i < |batch| && i < |replies| && batch[i] in outbox
  {
    batch[i] in after && after[batch[i]] == Deliver(outbox[batch[i]], replies[i])
  }

  /** Each claimed row ends as its own reply says, every other row is untouched. */
  lemma {:induction false} CycleRows(outbox: map<nat, OutboxRow>, batch: seq<nat>, replies: seq<Reply>, n: nat)
    requires n <= |batch| && n <= |replies| && Distinct(batch)
    requires forall i | 0 <= i < |batch| :: batch[i] in outbox
    ensures var after := OutboxAfter(outbox, batch, replies, n);
      && after.Keys == outbox.Keys
      && (forall i | 0 <= i < n :: Answered(outbox, after, batch, replies, i))
      && (forall id | id in outbox && id !in batch[..n] :: after[id] == outbox[id])
  {
    hide Deliver, OutboxAfter, Answered;
    if n == 0 {
      NoReplies(outbox, batch, replies);
    } else {
      CycleRows(outbox, batch, replies, n - 1);
      OutboxStep(outbox, batch, replies, n - 1);
      NextRow(outbox, OutboxAfter(outbox, batch, replies, n - 1), batch, replies, n - 1);
    }
  }

  lemma NoReplies(outbox: map<nat, OutboxRow>, batch: seq<nat>, replies: seq<Reply>)
    requires forall i | 0 <= i < |batch| :: batch[i] in outbox
    ensures OutboxAfter(outbox, batch, replies, 0) == outbox
  {
  }

  lemma NextRow(outbox: map<nat, OutboxRow>, before: map<nat, OutboxRow>, batch: seq<nat>, replies: seq<Reply>, n: nat)
    requires n < |batch| && n < |replies| && Distinct(batch)
    requires forall i | 0 <= i < |batch| :: batch[i] in outbox
    requires before.Keys == outbox.Keys
    requires forall i | 0 <= i < n :: Answered(outbox, before, batch, replies, i)
    requires forall id | id in outbox && id !in batch[..n] :: before[id] == outbox[id]
    ensures var after := before[batch[n] := Deliver(outbox[batch[n]], replies[n])];
      && after.Keys == outbox.Keys
      && (forall i | 0 <= i < n + 1 :: Answered(outbox, after, batch, replies, i))
      && (forall id | id in outbox && id !in batch[..n + 1] :: after[id] == outbox[id])
  {
    hide Deliver;
    var after := before[batch[n] := Deliver(outbox[batch[n]], replies[n])];
    assert batch[..n + 1] == batch[..n] + [batch[n]];
    forall i | 0 <= i < n + 1
      ensures Answered(outbox, after, batch, replies, i)
    {
      assert i < n ==> Answered(outbox, before, batch, replies, i) && batch[i] != batch[n];
    }
  }

  // ----- work -----

  /** The sends a row may still cost. */
  function Remaining(outbox: map<nat, OutboxRow>, id: nat): int {
    if id in outbox && outbox[id].Pending() then MAX_ATTEMPTS - outbox[id].attempts else 0
  }

  /** The sum of `5 - attempts` over the pending rows numbered below `n`. */
  function Work(outbox: map<nat, OutboxRow>, n: nat): int {
    if n == 0 then 0 else Work(outbox, n - 1) + Remaining(outbox, n - 1)
  }

  /** One send that does not crash takes at least one off. */
  lemma DeliverWorks(r: OutboxRow, reply: Reply)
    requires IsPending(r) && reply.outcome != Crashed
    ensures DeliveryOk(Deliver(r, reply)) && WorkedOff(r, Deliver(r, reply))
  {
    hide WallAdd;
  }

  /** The row is done with or has one attempt more. */
  predicate WorkedOff(r: OutboxRow, s: OutboxRow) {
    s.Pending() ==> s.attempts == r.attempts + 1
  }

  function Below(staged: map<nat, OutboxRow>, n: nat): set<nat> {
    set id | id in staged && id < n
  }

  /** Every staged row takes at least one off the total. */
  lemma {:induction false} StagedWork(outbox: map<nat, OutboxRow>, staged: map<nat, OutboxRow>, n: nat)
    requires forall id | id in staged :: id in outbox && IsPending(outbox[id]) && WorkedOff(outbox[id], staged[id])
    ensures Work(outbox + staged, n) <= Work(outbox, n) - |Below(staged, n)|
  {
    hide Remaining, IsPending, WorkedOff;
    if n == 0 {
      assert Below(staged, 0) == {};
    } else {
      StagedWork(outbox, staged, n - 1);
      StagedRow(outbox, staged, n - 1);
      assert Below(staged, n) == Below(staged, n - 1) + if n - 1 in staged then {n - 1} else {};
    }
  }

  lemma StagedRow(outbox: map<nat, OutboxRow>, staged: map<nat, OutboxRow>, id: nat)
    requires id in staged ==> id in outbox && IsPending(outbox[id]) && WorkedOff(outbox[id], staged[id])
    ensures Remaining(outbox + staged, id) <= Remaining(outbox, id) - if id in staged then 1 else 0
  {
  }

  // ----- one answer -----

  /** A provider's acceptance only marks the row sent, at the instant of the answer. */
  lemma AcceptedRow(r: OutboxRow, receipt: Receipt, at: Instant)
    ensures Deliver(r, Reply(Accepted(receipt), at)) ==
            OutboxRow(r.company, r.template, r.priority, r.key, r.createdAt, r.createdOn, r.attempts, r.nextAttemptAt,
                      Some(at), r.deadLetteredAt, Some(receipt), r.failedAt)
  {
  }

  /** A rejection counts one attempt. After the first four the row waits 60, 300, 1800 and 7200 seconds on
      the wall clock, the fifth dead-letters it and raises one CRITICAL alert of its company. */
  lemma RejectedRow(r: OutboxRow, at: Instant)
    ensures var next := if r.attempts < 4 then WallAdd(at, [60, 300, 1800, 7200][r.attempts] * SECOND) else r.nextAttemptAt;
      var dead := if r.attempts < 4 then r.deadLetteredAt else Some(at);
      Deliver(r, Reply(Rejected, at)) ==
      OutboxRow(r.company, r.template, r.priority, r.key, r.createdAt, r.createdOn, r.attempts + 1, next,
                r.sentAt, dead, r.receipt, r.failedAt + [at])
    ensures Raises(r, Reply(Rejected, at)) ==
            if r.attempts < 4 then [] else [Alert(r.company, CRITICAL, NotificationUndeliverable, None, None, at)]
  {
    hide WallAdd;
  }

  /** A row rejected for the n-th time, n below five, is tried again: every batch with room left takes it,
      once its wait is over and no other cycle holds it. */
  lemma RetriedWhenDue(outbox: map<nat, OutboxRow>, locked: set<nat>, now: Instant, batch: seq<nat>, id: nat,
                       r: OutboxRow, at: Instant)
    requires IsBatch(outbox, locked, now, batch) && |batch| < 50
    requires r.sentAt == None && r.deadLetteredAt == None && r.attempts + 1 < 5
    requires id in outbox && id !in locked && outbox[id] == Deliver(r, Reply(Rejected, at))
    ensures id in batch <==> WallAdd(at, [60, 300, 1800, 7200][r.attempts] * SECOND) <= now
  {
    hide WallAdd, Deliver, NoLaterThan;
    RejectedRow(r, at);
    if id in batch {
      var i :| 0 <= i < |batch| && batch[i] == id;
    }
  }

  // ----- draining -----

  /** One failure-free cycle: the clock at its claim, its batch, its replies. */
  datatype Tick = Tick(now: Instant, batch: seq<nat>, replies: seq<Reply>)

  predicate AllAccepted(replies: seq<Reply>, n: nat)
    requires n <= |replies|
  {
    forall i | 0 <= i < n :: replies[i].outcome.Accepted?
  }

  /** A cycle that claims from `outbox`, has every send accepted and commits. */
  predicate GoodTick(outbox: map<nat, OutboxRow>, t: Tick) {
    && IsBatch(outbox, {}, t.now, t.batch)
    && |t.batch| <= |t.replies| && AllAccepted(t.replies, |t.batch|)
  }

  function AfterTick(outbox: map<nat, OutboxRow>, t: Tick): map<nat, OutboxRow> {
    if forall i | 0 <= i < |t.batch| :: t.batch[i] in outbox then
      if |t.batch| <= |t.replies| then OutboxAfter(outbox, t.batch, t.replies, |t.batch|) else outbox
    else outbox
  }

  ghost predicate GoodTicks(outbox: map<nat, OutboxRow>, ticks: seq<Tick>) {
    ticks != [] ==> GoodTick(outbox, ticks[0]) && GoodTicks(AfterTick(outbox, ticks[0]), ticks[1..])
  }

  function AfterTicks(outbox: map<nat, OutboxRow>, ticks: seq<Tick>): map<nat, OutboxRow> {
    if ticks == [] then outbox else AfterTicks(AfterTick(outbox, ticks[0]), ticks[1..])
  }

  /** The rows due at an instant. */
  function Due(outbox: map<nat, OutboxRow>, now: Instant): (ids: set<nat>)
    ensures forall id :: id in ids <==>
      id in outbox && outbox[id].sentAt == None && outbox[id].deadLetteredAt == None && outbox[id].nextAttemptAt <= now
  {
    Claimable(outbox, {}, now)
  }

  lemma {:induction false} DistinctCount(ids: seq<nat>)
    requires Distinct(ids)
    ensures |Elements(ids)| == |ids|
  {
    if ids != [] {
      var n := |ids| - 1;
      DistinctCount(ids[..n]);
      assert ids == ids[..n] + [ids[n]];
      assert Elements(ids) == Elements(ids[..n]) + {ids[n]};
    }
  }

  /** Accepted rows are no longer pending. */
  lemma TickClears(outbox: map<nat, OutboxRow>, t: Tick, at: Instant)
    requires GoodTick(outbox, t) && t.now <= at
    ensures Due(AfterTick(outbox, t), at) == Due(outbox, at) - Elements(t.batch)
    ensures Elements(t.batch) <= Due(outbox, at)
  {
    hide IsBatch, FailedRow;
    BatchRows(outbox, {}, t.now, t.batch);
    CycleRows(outbox, t.batch, t.replies, |t.batch|);
    assert t.batch[..|t.batch|] == t.batch;
    var after := AfterTick(outbox, t);
    forall id
      ensures id in Due(after, at) <==> id in Due(outbox, at) && id !in t.batch
    {
      if id in t.batch {
        var i :| 0 <= i < |t.batch| && t.batch[i] == id;
        assert Answered(outbox, after, t.batch, t.replies, i) && t.replies[i].outcome.Accepted?;
      }
    }
  }

  lemma TickCount(outbox: map<nat, OutboxRow>, t: Tick, hi: Instant)
    requires GoodTick(outbox, t) && t.now <= hi && Due(outbox, t.now) == Due(outbox, hi)
    ensures |Due(AfterTick(outbox, t), hi)| == if |Due(outbox, hi)| <= BATCH_SIZE then 0 else |Due(outbox, hi)| - BATCH_SIZE
  {
    hide Claimable, AfterTick, Before;
    TickClears(outbox, t, hi);
    DistinctCount(t.batch);
    var due, taken := Due(outbox, hi), Elements(t.batch);
    assert |due| == |due - taken| + |taken| by { assert due == (due - taken) + taken; }
    if |t.batch| < BATCH_SIZE {
      assert due <= taken;
    }
  }

  /** No pending row becomes due between two instants. */
  predicate Settled(outbox: map<nat, OutboxRow>, lo: Instant, hi: Instant) {
    forall id | id in outbox && outbox[id].Pending() :: outbox[id].nextAttemptAt <= lo || hi < outbox[id].nextAttemptAt
  }

  lemma SettledDue(outbox: map<nat, OutboxRow>, lo: Instant, hi: Instant, now: Instant)
    requires Settled(outbox, lo, hi) && lo <= now <= hi
    ensures Due(outbox, now) == Due(outbox, hi)
  {
  }

  lemma TickStaysSettled(outbox: map<nat, OutboxRow>, t: Tick, lo: Instant, hi: Instant)
    requires GoodTick(outbox, t) && Settled(outbox, lo, hi)
    ensures Settled(AfterTick(outbox, t), lo, hi)
  {
    hide IsBatch, FailedRow;
    BatchRows(outbox, {}, t.now, t.batch);
    CycleRows(outbox, t.batch, t.replies, |t.batch|);
    assert t.batch[..|t.batch|] == t.batch;
    var after := AfterTick(outbox, t);
    forall i | 0 <= i < |t.batch|
      ensures t.batch[i] in after && !after[t.batch[i]].Pending()
    {
      assert Answered(outbox, after, t.batch, t.replies, i) && t.replies[i].outcome.Accepted?;
    }
  }

  /** While no further row comes due, `n` failure-free cycles leave exactly `k - 50 n` of `k` due rows:
      they drain with cycle ceil(k / 50) and not before. */
  lemma {:induction false} Drain(outbox: map<nat, OutboxRow>, ticks: seq<Tick>, lo: Instant, hi: Instant)
    requires GoodTicks(outbox, ticks) && Settled(outbox, lo, hi)
    requires forall i | 0 <= i < |ticks| :: lo <= ticks[i].now <= hi
    ensures var k := |Due(outbox, hi)|;
      |Due(AfterTicks(outbox, ticks), hi)| == if k <= BATCH_SIZE * |ticks| then 0 else k - BATCH_SIZE * |ticks|
    decreases |ticks|
  {
    hide Settled, GoodTick, AfterTick, Due;
    if ticks != [] {
      var t := ticks[0];
      SettledDue(outbox, lo, hi, t.now);
      TickCount(outbox, t, hi);
      TickStaysSettled(outbox, t, lo, hi);
      Drain(AfterTick(outbox, t), ticks[1..], lo, hi);
    }
  }

  // ----- the road to the dead letter -----

  /** A failed send was made no earlier than the backoff after the one before allows. */
  predicate Spaced(failedAt: seq<Instant>, k: nat)
    requires 1 <= k < |failedAt| <= MAX_ATTEMPTS
  {
    failedAt[k] >= failedAt[k - 1] && failedAt[k] >= WallAdd(failedAt[k - 1], BACKOFF[k] * SECOND)
  }

  /** What the columns of a row say about its failed sends. */
  predicate RowTimes(r: OutboxRow) {
    && |r.failedAt| == r.attempts <= MAX_ATTEMPTS
    && (r.attempts == 0 ==> r.nextAttemptAt == r.createdAt)
    && (forall k | 1 <= k < |r.failedAt| :: Spaced(r.failedAt, k))
    && (1 <= r.attempts < MAX_ATTEMPTS ==> r.nextAttemptAt == WallAdd(r.failedAt[r.attempts - 1], BACKOFF[r.attempts] * SECOND))
    && (r.deadLetteredAt.Some? ==> r.attempts == MAX_ATTEMPTS && r.deadLetteredAt == Some(r.failedAt[4]))
  }

  /** A send answered after the row came due, and after any earlier failure, keeps the record. */
  lemma DeliverTimes(r: OutboxRow, reply: Reply)
    requires IsPending(r) && RowTimes(r)
    requires r.nextAttemptAt <= reply.at && (r.attempts > 0 ==> r.failedAt[r.attempts - 1] <= reply.at)
    ensures RowTimes(Deliver(r, reply))
  {
    hide WallAdd;
    var s := Deliver(r, reply);
    forall k | 1 <= k < |s.failedAt|
      ensures |s.failedAt| <= MAX_ATTEMPTS && Spaced(s.failedAt, k)
    {
      if k < |r.failedAt| {
        assert Spaced(r.failedAt, k);
      }
    }
  }

  /** The next attempt waits at least the backoff, except after a failure in one hour of the year: for the
      short backoffs the second pass of the repeated autumn hour, as far as the wait does not leave it,
      for the two hours the hour before the spring switch. */
  lemma BackoffKept(now: Instant, n: nat)
    requires n < |BACKOFF|
    ensures var spring, autumn := SpringDay(YearOf(now / DAY)) * DAY, AutumnDay(YearOf(now / DAY)) * DAY;
      WallAdd(now, BACKOFF[n] * SECOND) < now + BACKOFF[n] * SECOND <==>
      if n == 4 then spring <= now < spring + HOUR else autumn + HOUR <= now < autumn + 2 * HOUR - BACKOFF[n] * SECOND
  {
    hide WallAdd, SpringDay, AutumnDay, YearOf, Lengthened;
    WallAddExact(now, BACKOFF[n] * SECOND);
  }

  /** No switch shortens the wait between failure `k - 1` and failure `k`. */
  predicate FullWait(failedAt: seq<Instant>, k: nat)
    requires 1 <= k < |failedAt| <= MAX_ATTEMPTS
  {
    !Shortened(failedAt[k - 1], BACKOFF[k] * SECOND)
  }

  lemma StepTime(failedAt: seq<Instant>, k: nat)
    requires 1 <= k < |failedAt| <= MAX_ATTEMPTS && Spaced(failedAt, k)
    ensures failedAt[k] - failedAt[k - 1] >= BACKOFF[k] * SECOND - HOUR
    ensures FullWait(failedAt, k) ==> failedAt[k] - failedAt[k - 1] >= BACKOFF[k] * SECOND
  {
    hide WallAdd, Shortened, Lengthened;
    WallAddExact(failedAt[k - 1], BACKOFF[k] * SECOND);
    WallAddNear(failedAt[k - 1], BACKOFF[k] * SECOND);
  }

  /** A dead letter comes at least 9360 seconds after the first failed send when no switch shortens a
      wait; in any case at least 3600 seconds after. */
  lemma DeadLetterTime(r: OutboxRow)
    requires RowTimes(r) && r.deadLetteredAt.Some?
    ensures r.deadLetteredAt.value - r.failedAt[0] >= 3600 * SECOND
    ensures (forall k | 1 <= k < 5 :: FullWait(r.failedAt, k)) ==>
      r.deadLetteredAt.value - r.failedAt[0] >= 9360 * SECOND
  {
    hide FullWait, WallAdd;
    assert Spaced(r.failedAt, 1) && Spaced(r.failedAt, 2) && Spaced(r.failedAt, 3) && Spaced(r.failedAt, 4);
    StepTime(r.failedAt, 1);
    StepTime(r.failedAt, 2);
    StepTime(r.failedAt, 3);
    StepTime(r.failedAt, 4);
  }

  /** The failed sends of a row that dies in the morning of 29 March 2026, each as soon as it is due. */
  const EARLY_DEATH := [739704 * DAY + 840 * SECOND, 739704 * DAY + 900 * SECOND, 739704 * DAY + 1200 * SECOND,
                        739704 * DAY + 3000 * SECOND, 739704 * DAY + 6600 * SECOND]

  /** They keep every rule of the relay, and the dead letter comes 5760 seconds after the first. */
  lemma DeadLetterEarly()
    ensures forall k | 1 <= k < 5 :: Spaced(EARLY_DEATH, k)
    ensures EARLY_DEATH[4] - EARLY_DEATH[0] == 5760 * SECOND
  {
    hide WallAdd, LastSunday, YearOf, SpringDay, AutumnDay;
    Switches2026();
    WallAddHalved();
    WallAddExact(EARLY_DEATH[0], 60 * SECOND);
    WallAddExact(EARLY_DEATH[1], 300 * SECOND);
    WallAddExact(EARLY_DEATH[2], 1800 * SECOND);
  }
}
