/** app/services/dsgvo.py and app/jobs/dsgvo.py: retention and erasure. */
module Dsgvo {
  import opened Wrappers
  import opened Calendar
  import opened BerlinTime
  import opened MonthRules
  import opened Records
  import opened AccountServices

  const OUTBOX_RETENTION_MONTHS := 24
  const COMPANY_DELETE_GRACE := 30 * DAY
  const DEFAULT_RETENTION_MONTHS := 12

  // ----- specification -----

  /** `anonymize_driver`: names scrubbed once, the row kept. */
  function Anonymized(d: Driver, now: Instant): Driver {
    if d.anonymizedAt.Some? then d
    else d.(firstName := ANON_NAME, lastName := ANON_NAME, anonymizedAt := Some(now), version := d.version + 1)
  }

  /** The retention test of the nightly purge. */
  predicate RetentionOver(companies: seq<Company>, d: Driver, today: Day) {
    var months := if d.company < |companies| then companies[d.company].retentionMonths else DEFAULT_RETENTION_MONTHS;
    d.employmentEnd.Some? && d.anonymizedAt.None? && PlusMonths(d.employmentEnd.value, months) < today
  }

  function PurgedDriver(companies: seq<Company>, d: Driver, clock: Clock): Driver {
    if RetentionOver(companies, d, clock.today) then Anonymized(d, clock.now) else d
  }

  function Purged(companies: seq<Company>, drivers: seq<Driver>, clock: Clock): (r: seq<Driver>)
    ensures |r| == |drivers|
    ensures forall i | 0 <= i < |drivers| :: r[i] == PurgedDriver(companies, drivers[i], clock)
  {
    seq(|drivers|, i requires 0 <= i < |drivers| => PurgedDriver(companies, drivers[i], clock))
  }

  /** Deleting the rows a test selects; their last version is remembered. */
  function Without(q: Queue, gone: set<nat>): Queue {
    q.(outbox := q.outbox - gone, archive := q.archive + map id | id in q.outbox && id in gone :: q.outbox[id])
  }

  function Expired(q: Queue, cutoff: Instant): set<nat> {
    set id | id in q.outbox && q.outbox[id].createdAt < cutoff
  }

  /** `prune_old_outbox`. */
  function Pruned(q: Queue, clock: Clock): Queue {
    Without(q, Expired(q, MonthsAgo(clock.now, OUTBOX_RETENTION_MONTHS)))
  }

  function RowsOf(q: Queue, company: nat): set<nat> {
    set id | id in q.outbox && q.outbox[id].company == company
  }

  /** The driver loop of the tombstone: names scrubbed every time, the first date kept. */
  function Tombstoned(d: Driver, company: nat, now: Instant): Driver {
    if d.company != company then d
    else
      var e := d.(firstName := ANON_NAME, lastName := ANON_NAME,
                  anonymizedAt := if d.anonymizedAt.None? then Some(now) else d.anonymizedAt);
      if e == d then d else e.(version := d.version + 1)
  }

  function TombstonedDrivers(drivers: seq<Driver>, company: nat, now: Instant): (r: seq<Driver>)
    ensures |r| == |drivers|
    ensures forall i | 0 <= i < |drivers| :: r[i] == Tombstoned(drivers[i], company, now)
  {
    seq(|drivers|, i requires 0 <= i < |drivers| => Tombstoned(drivers[i], company, now))
  }

  /** `tombstone_company`. */
  function AfterTombstone(db: Db, company: nat, now: Instant): Db
    requires company < |db.accounts.companies|
  {
    db.(accounts := ErasedAccounts(db.accounts, company, now),
        fleet := db.fleet.(drivers := TombstonedDrivers(db.fleet.drivers, company, now)),
        queue := Without(db.queue, RowsOf(db.queue, company)))
  }

  /** The purge's test: requested, past the grace period, not yet tombstoned. */
  predicate DueForDeletion(c: Company, now: Instant) {
    c.deletionRequestedAt.Some? && c.deletionRequestedAt.value < WallAdd(now, -COMPANY_DELETE_GRACE) && c.deletedAt.None?
  }

  /** `tombstone_deleted_companies` over the first `n` companies. */
  function AfterTombstones(db: Db, now: Instant, n: nat): (r: Db)
    requires n <= |db.accounts.companies|
    ensures |r.accounts.companies| == |db.accounts.companies|
    ensures forall c | n <= c < |db.accounts.companies| :: r.accounts.companies[c] == db.accounts.companies[c]
  {
    if n == 0 then db
    else
      var mid := AfterTombstones(db, now, n - 1);
      if DueForDeletion(mid.accounts.companies[n - 1], now) then AfterTombstone(mid, n - 1, now) else mid
  }

  // ----- who is scrubbed, what is pruned, who is erased -----

  /** The purge scrubs a driver who is not anonymised yet if and only if the day `last`, the company's months
      (12 without a company) after the end of employment, lies before today; it changes no other driver. */
  lemma PurgedExactly(companies: seq<Company>, drivers: seq<Driver>, clock: Clock, i: nat, last: Day)
    requires i < |drivers|
    requires var d := drivers[i];
      d.employmentEnd.Some? ==>
        MonthsLater(d.employmentEnd.value, last, if d.company < |companies| then companies[d.company].retentionMonths else 12)
    ensures var d := drivers[i];
      Purged(companies, drivers, clock)[i] ==
      if d.anonymizedAt == None && d.employmentEnd != None && last < clock.today
      then Driver(d.company, "Gelöscht", "Gelöscht", d.employmentEnd, Some(clock.now), d.authorized, d.lockReason, d.lockedAt, d.version + 1)
      else d
  {
    hide PlusMonths, MonthsLater;
    var d := drivers[i];
    if d.employmentEnd.Some? {
      OnlyMonthsLater(d.employmentEnd.value, last, if d.company < |companies| then companies[d.company].retentionMonths else 12);
    }
  }

  /** The prune removes exactly the rows created before `first`, the Berlin day 24 calendar months ago, and
      touches no other. */
  lemma PrunedExactly(q: Queue, clock: Clock, id: nat, first: Day)
    requires id in q.outbox && MonthsLater(BerlinDay(clock.now), first, -24)
    ensures id in Pruned(q, clock).outbox <==> first <= BerlinDay(q.outbox[id].createdAt)
    ensures id in Pruned(q, clock).outbox ==> Pruned(q, clock).outbox[id] == q.outbox[id]
    ensures Pruned(q, clock).outbox.Keys <= q.outbox.Keys && Pruned(q, clock).nextRow == q.nextRow
  {
    hide PlusMonths, MonthsLater, BerlinDay, AtWall;
    OnlyMonthsLater(BerlinDay(clock.now), first, -24);
    Midnight(first, q.outbox[id].createdAt);
  }

  // ----- the services and jobs -----

  method AnonymizeDriver(s: Session, driver: nat, now: Instant)
    requires driver < |s.fleet.drivers|
    modifies s`fleet
    ensures s.fleet == old(s.fleet).(drivers := old(s.fleet.drivers)[driver := Anonymized(old(s.fleet.drivers)[driver], now)])
  {
    var d := s.fleet.drivers[driver];
    if d.anonymizedAt.None? {
      s.fleet := s.fleet.(drivers := s.fleet.drivers[driver :=
        d.(firstName := ANON_NAME, lastName := ANON_NAME, anonymizedAt := Some(now), version := d.version + 1)]);
    }
  }

  method AnonymizeExpiredDrivers(s: Session, clock: Clock) returns (count: nat)
    modifies s`fleet
    ensures s.fleet == old(s.fleet).(drivers := Purged(s.accounts.companies, old(s.fleet.drivers), clock))
    ensures count == |set i: nat | i < |old(s.fleet.drivers)| &&
                                   RetentionOver(s.accounts.companies, old(s.fleet.drivers)[i], clock.today)|
  {
    hide RetentionOver, Anonymized;
    count := 0;
    var candidates := s.fleet.drivers;
    ghost var hit: set<nat> := {};
    for i := 0 to |candidates|
      invariant s.fleet == old(s.fleet).(drivers := s.fleet.drivers) && |s.fleet.drivers| == |candidates|
      invariant forall k :: 0 <= k < i ==> s.fleet.drivers[k] == PurgedDriver(s.accounts.companies, candidates[k], clock)
      invariant forall k :: i <= k < |candidates| ==> s.fleet.drivers[k] == candidates[k]
      invariant hit == set k: nat | k < i && RetentionOver(s.accounts.companies, candidates[k], clock.today)
      invariant count == |hit|
    {
      if RetentionOver(s.accounts.companies, candidates[i], clock.today) {
        AnonymizeDriver(s, i, clock.now);
        hit := hit + {i};
        count := count + 1;
      }
    }
    assert s.fleet.drivers == Purged(s.accounts.companies, candidates, clock);
    assert hit == set i: nat | i < |old(s.fleet.drivers)| && RetentionOver(s.accounts.companies, old(s.fleet.drivers)[i], clock.today);
  }

  method DeleteRows(s: Session, gone: set<nat>)
    modifies s`queue
    ensures s.queue == Without(old(s.queue), gone)
  {
    var q := s.queue;
    s.queue := q.(outbox := map id | id in q.outbox && id !in gone :: q.outbox[id],
                  archive := q.archive + map id | id in q.outbox && id in gone :: q.outbox[id]);
    assert s.queue.outbox == q.outbox - gone;
  }

  method PruneOldOutbox(s: Session, clock: Clock) returns (n: nat)
    modifies s`queue
    ensures s.queue == Pruned(old(s.queue), clock)
    ensures n == |Expired(old(s.queue), MonthsAgo(clock.now, OUTBOX_RETENTION_MONTHS))|
  {
    hide MonthsAgo;
    var gone := Expired(s.queue, MonthsAgo(clock.now, OUTBOX_RETENTION_MONTHS));
    DeleteRows(s, gone);
    n := |gone|;
  }

  method EraseUsers(s: Session, company: nat)
    modifies s`accounts
    ensures s.accounts == old(s.accounts).(users := ErasedUsers(old(s.accounts.users), company))
  {
    var users := s.accounts.users;
    for i := 0 to |users|
      invariant s.accounts == old(s.accounts).(users := s.accounts.users) && |s.accounts.users| == |users|
      invariant forall k :: 0 <= k < i ==> s.accounts.users[k] == ErasedUsers(users, company)[k]
      invariant forall k :: i <= k < |users| ==> s.accounts.users[k] == users[k]
    {
      if users[i].company == company {
        var user := users[i].(email := Erased(i), phone := None, active := false, hasPassword := false);
        s.accounts := s.accounts.(users := s.accounts.users[i := user]);
      }
    }
    assert s.accounts.users == ErasedUsers(users, company);
  }

  method ScrubDrivers(s: Session, company: nat, now: Instant)
    modifies s`fleet
    ensures s.fleet == old(s.fleet).(drivers := TombstonedDrivers(old(s.fleet.drivers), company, now))
  {
    var drivers := s.fleet.drivers;
    for i := 0 to |drivers|
      invariant s.fleet == old(s.fleet).(drivers := s.fleet.drivers) && |s.fleet.drivers| == |drivers|
      invariant forall k :: 0 <= k < i ==> s.fleet.drivers[k] == Tombstoned(drivers[k], company, now)
      invariant forall k :: i <= k < |drivers| ==> s.fleet.drivers[k] == drivers[k]
    {
      if drivers[i].company == company {
        var d := drivers[i].(firstName := ANON_NAME, lastName := ANON_NAME);
        if d.anonymizedAt.None? {
          d := d.(anonymizedAt := Some(now));
        }
        // the mapper writes, and so bumps the version, only if something changed
        if d != drivers[i] {
          d := d.(version := drivers[i].version + 1);
        }
        s.fleet := s.fleet.(drivers := s.fleet.drivers[i := d]);
      }
    }
    assert s.fleet.drivers == TombstonedDrivers(drivers, company, now);
  }

  method TombstoneCompany(s: Session, company: nat, now: Instant)
    requires company < |s.accounts.companies|
    modifies s
    ensures s.State() == AfterTombstone(old(s.State()), company, now)
  {
    var c := s.accounts.companies[company];
    s.accounts := s.accounts.(companies := s.accounts.companies[company := c.(name := ANON_NAME, deletedAt := Some(now))]);
    EraseUsers(s, company);
    ScrubDrivers(s, company, now);
    s.accounts := s.accounts.(sessions := RevokedSessions(s.accounts.sessions, company, now));
    DeleteRows(s, RowsOf(s.queue, company));
    s.accounts := s.accounts.(invitations := ClosedInvitations(s.accounts.invitations, company, now));
  }

  method TombstoneDeletedCompanies(s: Session, now: Instant) returns (n: nat)
    modifies s
    ensures s.State() == AfterTombstones(old(s.State()), now, |old(s.accounts.companies)|)
  {
    hide DueForDeletion, AfterTombstone;
    n := 0;
    var size := |s.accounts.companies|;
    for c := 0 to size
      invariant s.State() == AfterTombstones(old(s.State()), now, c)
      invariant |s.accounts.companies| == size
    {
      if DueForDeletion(s.accounts.companies[c], now) {
        TombstoneCompany(s, c, now);
        n := n + 1;
      }
    }
  }
}
