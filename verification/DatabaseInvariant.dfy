/** Everything the transactions keep true of one database, and the frames that carry it along. */
module DatabaseInvariant {
  import opened Wrappers
  import opened Calendar
  import opened Records
  import opened Outbox
  import AccountServices
  import opened Evidence
  import FleetInvariant
  import opened QueueInvariant
  import QueueSteps
  import RelayProgress
  import SmsQuota

  // ----- rows through time -----

  /** What never changes about a row. */
  predicate SameLetter(r: OutboxRow, s: OutboxRow) {
    s == r.(attempts := s.attempts, nextAttemptAt := s.nextAttemptAt, sentAt := s.sentAt,
            deadLetteredAt := s.deadLetteredAt, receipt := s.receipt, failedAt := s.failedAt)
  }

  /** No row ever committed is forgotten or rewritten. */
  predicate RowsPersist(q: Queue, p: Queue) {
    forall id | id in Rows(q) :: id in Rows(p) && SameLetter(Rows(q)[id], Rows(p)[id])
  }

  /** Only a non-critical SMS is ever withheld for budget reasons. */
  predicate ReceiptOk(r: OutboxRow) {
    r.receipt == Some(SkippedByCap) ==> r.Via() == SMS && !SmsQuota.Critical(r.template)
  }

  predicate RowOk(r: OutboxRow) {
    RelayProgress.RowTimes(r) && ReceiptOk(r)
  }

  predicate FreshRow(r: OutboxRow) {
    r.attempts == 0 && r.nextAttemptAt == r.createdAt && r.failedAt == [] && r.receipt == None && r.deadLetteredAt == None && r.sentAt == None
  }

  ghost predicate RowsOk(q: Queue) {
    forall id | id in Rows(q) :: RowOk(Rows(q)[id])
  }

  // ----- every case was told -----

  predicate IsToldRow(r: OutboxRow, c: EscalationCase, to: Address) {
    r.key == E6Key(c.trigger, to) && r.company == c.company && r.template == FskFailedCritical && r.priority == 0
  }

  predicate HasToldRow(q: Queue, c: EscalationCase, to: Address) {
    exists id | id in Rows(q) :: IsToldRow(Rows(q)[id], c, to)
  }

  predicate CaseTold(q: Queue, c: EscalationCase) {
    forall i | 0 <= i < |c.told| :: HasToldRow(q, c, c.told[i])
  }

  ghost predicate ToldInv(db: Db) {
    forall c | 0 <= c < |db.fleet.cases| :: CaseTold(db.queue, db.fleet.cases[c])
  }

  // ----- the invariant -----

  /** Nothing in the row identifies the person any more. */
  predicate Scrubbed(d: Driver) {
    d.firstName == AccountServices.ANON_NAME && d.lastName == AccountServices.ANON_NAME && d.anonymizedAt.Some?
  }

  /** A driver's company exists; once it is erased the driver is scrubbed. */
  predicate DriverRowOk(companies: seq<Company>, d: Driver) {
    d.company < |companies| && (Deleted(companies, d.company) ==> Scrubbed(d))
  }

  /** Drivers stay with their company, and a scrubbed one stays scrubbed. */
  predicate NamesKept(a: seq<Driver>, b: seq<Driver>) {
    |a| == |b| && forall d | 0 <= d < |a| :: b[d].company == a[d].company && (Scrubbed(a[d]) ==> Scrubbed(b[d]))
  }

  predicate CompaniesOk(db: Db) {
    && (forall d | 0 <= d < |db.fleet.drivers| :: DriverRowOk(db.accounts.companies, db.fleet.drivers[d]))
    && (forall v | 0 <= v < |db.fleet.vehicles| :: db.fleet.vehicles[v].company < |db.accounts.companies|)
  }

  ghost predicate ChainsOk(sha: Digest, log: seq<LogEntry>) {
    Ordered(log) && AllLinked(sha, log)
  }

  ghost predicate DbInv(sha: Digest, db: Db, today: Day) {
    && AccountServices.AccountInv(db.accounts)
    && FleetInvariant.LockInv(db.fleet, db.alerts) && FleetInvariant.LedgerInv(db.fleet)
    && ChainsOk(sha, db.fleet.log)
    && QueueInv(db, today) && RowsOk(db.queue)
    && QueueSteps.TimesInv(db.fleet.cases, today)
    && ToldInv(db)
    && CompaniesOk(db)
  }

  // ----- frames -----

  lemma PersistRefl(q: Queue)
    ensures RowsPersist(q, q)
  {
  }

  lemma ToldPersists(c: EscalationCase, q: Queue, p: Queue)
    requires CaseTold(q, c) && RowsPersist(q, p)
    ensures CaseTold(p, c)
  {
  }

  predicate SameStory(a: EscalationCase, b: EscalationCase) {
    b.trigger == a.trigger && b.told == a.told && b.company == a.company && b.driver == a.driver
    && b.deadlineAt == a.deadlineAt && b.openedOn == a.openedOn
  }

  predicate SameStories(a: seq<EscalationCase>, b: seq<EscalationCase>) {
    |a| == |b| && forall c | 0 <= c < |a| :: SameStory(a[c], b[c])
  }

  lemma ToldFrame(a: Db, b: Db)
    requires ToldInv(a) && RowsPersist(a.queue, b.queue) && SameStories(a.fleet.cases, b.fleet.cases)
    ensures ToldInv(b)
  {
  }

  lemma TimesFrame(a: seq<EscalationCase>, b: seq<EscalationCase>, today: Day, later: Day)
    requires QueueSteps.TimesInv(a, today) && today <= later && SameStories(a, b)
    ensures QueueSteps.TimesInv(b, later)
  {
  }

  lemma SameStoriesRefl(cases: seq<EscalationCase>)
    ensures SameStories(cases, cases)
  {
  }

  // ----- enqueuing -----

  /** `p` has the rows of `q` and nothing new but rows of the batch. */
  predicate Grown(q: Queue, p: Queue, rows: seq<OutboxRow>) {
    && (forall id | id in Rows(q) :: id in Rows(p) && Rows(p)[id] == Rows(q)[id])
    && (forall id | id in Rows(p) :: id in Rows(q) || Rows(p)[id] in rows)
  }

  lemma UniqueGrown(q: Queue, row: OutboxRow)
    requires SerialsOk(q)
    ensures Grown(q, EnqueueUnique(q, row), [row]) && SerialsOk(EnqueueUnique(q, row))
  {
  }

  lemma GrownTrans(p: Queue, q: Queue, r: Queue, a: seq<OutboxRow>, b: seq<OutboxRow>)
    requires Grown(p, q, a) && Grown(q, r, b)
    ensures Grown(p, r, a + b)
  {
  }

  lemma {:induction false} AllGrown(q: Queue, rows: seq<OutboxRow>)
    requires SerialsOk(q)
    ensures Grown(q, EnqueueAll(q, rows), rows) && SerialsOk(EnqueueAll(q, rows))
  {
    hide Grown, SerialsOk, EnqueueUnique;
    if rows == [] {
      assert Grown(q, q, []) by { GrownRefl(q); }
    } else {
      var n := |rows| - 1;
      var mid := EnqueueAll(q, rows[..n]);
      AllGrown(q, rows[..n]);
      UniqueGrown(mid, rows[n]);
      GrownTrans(q, mid, EnqueueAll(q, rows), rows[..n], [rows[n]]);
      assert rows[..n] + [rows[n]] == rows;
    }
  }

  lemma GrownRefl(q: Queue)
    ensures Grown(q, q, [])
  {
  }

  lemma GrownOk(q: Queue, p: Queue, rows: seq<OutboxRow>)
    requires Grown(q, p, rows) && RowsOk(q)
    requires forall i :: 0 <= i < |rows| ==> FreshRow(rows[i])
    ensures RowsOk(p) && RowsPersist(q, p)
  {
  }

  /** Batches of fresh rows keep the records and forget nothing. */
  lemma EnqueueRowsOk(q: Queue, rows: seq<OutboxRow>)
    requires SerialsOk(q) && RowsOk(q)
    requires forall i :: 0 <= i < |rows| ==> FreshRow(rows[i])
    ensures RowsOk(EnqueueAll(q, rows)) && RowsPersist(q, EnqueueAll(q, rows))
  {
    hide Grown, RowsOk, RowsPersist, FreshRow;
    AllGrown(q, rows);
    GrownOk(q, EnqueueAll(q, rows), rows);
  }
}
