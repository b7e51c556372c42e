/** The login throttle of app/services/auth.py: five consecutive failures of one (email, ip) lock the
    pair for fifteen minutes. */
module Throttle {
  import opened Wrappers
  import opened BerlinTime

  const MAX_FAILS := 5
  const LOCK_SECONDS := 900

  datatype Pair = Pair(email: string, ip: string)

  datatype Row = Row(failCount: nat, lockedUntil: Option<Instant>)

  datatype LoginOutcome = Locked(retryAfter: int) | InvalidCredentials | LoggedIn

  // ----- specification -----

  /** `_assert_not_locked`: refused while the lock lies in the future. */
  predicate LockedAt(row: Option<Row>, now: Instant) {
    row.Some? && row.value.lockedUntil.Some? && row.value.lockedUntil.value > now
  }

  /** `_record_failure`. */
  function Failed(row: Option<Row>, now: Instant): Row {
    var n := (if row.Some? then row.value.failCount else 0) + 1;
    Row(n, if n >= MAX_FAILS then Some(WallAdd(now, LOCK_SECONDS * SECOND))
           else if row.Some? then row.value.lockedUntil else None)
  }

  /** `_reset_failures`: a zeroed row, or still none. */
  function Reset(row: Option<Row>): Option<Row> {
    if row.Some? then Some(Row(0, None)) else None
  }

  /** One login of the pair: when the lock was tested, when its outcome was written, whether the
      password was right. */
  datatype Attempt = Attempt(checkedAt: Instant, writtenAt: Instant, good: bool)

  function AfterAttempt(row: Option<Row>, a: Attempt): Option<Row> {
    if LockedAt(row, a.checkedAt) then row
    else if a.good then Reset(row)
    else Some(Failed(row, a.writtenAt))
  }

  function Decision(row: Option<Row>, a: Attempt): LoginOutcome {
    if LockedAt(row, a.checkedAt) then Locked((row.value.lockedUntil.value - a.checkedAt) / SECOND)
    else if a.good then LoggedIn
    else InvalidCredentials
  }

  function AfterAll(row: Option<Row>, attempts: seq<Attempt>): Option<Row> {
    if attempts == [] then row else AfterAttempt(AfterAll(row, attempts[..|attempts| - 1]), attempts[|attempts| - 1])
  }

  // ----- what a login may answer -----

  /** The pair has a row whose lock ends after `now`. */
  predicate Barred(row: Option<Row>, now: Instant) {
    && row != None && row.value.lockedUntil != None && now < row.value.lockedUntil.value
  }

  /** One failure more; from the fifth on the pair is locked for 900 seconds of wall clock from `now`, and
      until then an earlier lock stands. */
  predicate Counts(before: Option<Row>, after: Option<Row>, now: Instant) {
    && after.Some?
    && after.value.failCount == (if before == None then 1 else before.value.failCount + 1)
    && (after.value.failCount >= 5 ==> after.value.lockedUntil == Some(WallAdd(now, 900_000_000)))
    && (after.value.failCount < 5 ==> after.value.lockedUntil == if before == None then None else before.value.lockedUntil)
  }

  // ----- the service -----

  class LoginThrottle {
    var rows: map<Pair, Row>

    function RowOf(pair: Pair): Option<Row>
      reads this
    {
      if pair in rows then Some(rows[pair]) else None
    }

    constructor ()
      ensures rows == map[]
    {
      rows := map[];
    }

    method AssertNotLocked(pair: Pair, now: Instant) returns (refused: Option<int>)
      ensures refused.Some? <==> Barred(RowOf(pair), now)
      ensures refused.Some? ==>
        var left := RowOf(pair).value.lockedUntil.value - now;
        refused.value * 1_000_000 <= left < (refused.value + 1) * 1_000_000
    {
      refused := None;
      if pair in rows && rows[pair].lockedUntil.Some? {
        if rows[pair].lockedUntil.value > now {
          return Some((rows[pair].lockedUntil.value - now) / SECOND);
        }
      }
    }

    method RecordFailure(pair: Pair, now: Instant)
      modifies this
      ensures rows == old(rows)[pair := Failed(old(RowOf(pair)), now)]
      ensures Counts(old(RowOf(pair)), RowOf(pair), now)
    {
      hide WallAdd;
      var row := Row(0, None);
      if pair in rows {
        row := rows[pair];
      }
      row := row.(failCount := row.failCount + 1);
      if row.failCount >= MAX_FAILS {
        row := row.(lockedUntil := Some(WallAdd(now, LOCK_SECONDS * SECOND)));
      }
      rows := rows[pair := row];
    }

    method ResetFailures(pair: Pair)
      modifies this
      ensures RowOf(pair) == Reset(old(RowOf(pair)))
      ensures rows == if pair in old(rows) then old(rows)[pair := Row(0, None)] else old(rows)
    {
      if pair in rows {
        rows := rows[pair := rows[pair].(failCount := 0, lockedUntil := None)];
      }
    }

    /** `login` as far as the throttle goes; `a.good` is what verifying the credentials would say. */
    method Login(pair: Pair, a: Attempt) returns (outcome: LoginOutcome)
      modifies this
      ensures outcome == Decision(old(RowOf(pair)), a)
      ensures RowOf(pair) == AfterAttempt(old(RowOf(pair)), a)
      ensures var row := old(RowOf(pair));
        match outcome
        case Locked(seconds) =>
          && Barred(row, a.checkedAt) && RowOf(pair) == row
          && var left := row.value.lockedUntil.value - a.checkedAt;
             seconds * 1_000_000 <= left < (seconds + 1) * 1_000_000
        case LoggedIn =>
          a.good && !Barred(row, a.checkedAt) && RowOf(pair) == if row == None then None else Some(Row(0, None))
        case InvalidCredentials =>
          !a.good && !Barred(row, a.checkedAt) && Counts(row, RowOf(pair), a.writtenAt)
      ensures forall other | other != pair :: RowOf(other) == old(RowOf(other))
    {
      hide Failed;
      var refused := AssertNotLocked(pair, a.checkedAt);
      if refused.Some? {
        return Locked(refused.value);
      }
      if !a.good {
        RecordFailure(pair, a.writtenAt);
        return InvalidCredentials;
      }
      ResetFailures(pair);
      return LoggedIn;
    }
  }

  // ----- a success wipes the slate -----

  /** A zeroed row and no row at all. */
  function Norm(row: Option<Row>): Row {
    if row.Some? then row.value else Row(0, None)
  }

  lemma {:induction false} NormDecides(r: Option<Row>, s: Option<Row>, attempts: seq<Attempt>, next: Attempt)
    requires Norm(r) == Norm(s)
    ensures Norm(AfterAll(r, attempts)) == Norm(AfterAll(s, attempts))
    ensures Decision(AfterAll(r, attempts), next) == Decision(AfterAll(s, attempts), next)
  {
    hide WallAdd;
    if attempts != [] {
      NormDecides(r, s, attempts[..|attempts| - 1], attempts[|attempts| - 1]);
    }
  }

  /** After a successful login the pair is treated, from then on and whatever follows, like one never seen. */
  lemma SuccessStartsAfresh(row: Option<Row>, success: Attempt, attempts: seq<Attempt>, next: Attempt)
    requires success.good && !LockedAt(row, success.checkedAt)
    ensures Decision(AfterAll(AfterAttempt(row, success), attempts), next) == Decision(AfterAll(None, attempts), next)
  {
    hide AfterAll;
    NormDecides(AfterAttempt(row, success), None, attempts, next);
  }

  /** After a success the next wrong password counts as the first. */
  lemma CountsFromOne(row: Option<Row>, success: Attempt, next: Attempt)
    requires success.good && !Barred(row, success.checkedAt) && !next.good
    ensures Decision(AfterAttempt(row, success), next) == InvalidCredentials
    ensures AfterAttempt(AfterAttempt(row, success), next) == Some(Row(1, None))
  {
    hide WallAdd;
  }

  /** The first five wrong passwords of a pair are each told wrong, whenever they come; the next try, right
      or wrong, is refused while the fifteen minutes from the fifth are not over, and only then. */
  lemma FiveTries(attempts: seq<Attempt>, next: Attempt)
    requires |attempts| == 5 && forall i | 0 <= i < 5 :: !attempts[i].good
    ensures forall i | 0 <= i < 5 :: Decision(AfterAll(None, attempts[..i]), attempts[i]) == InvalidCredentials
    ensures Decision(AfterAll(None, attempts), next).Locked? <==> next.checkedAt < WallAdd(attempts[4].writtenAt, 900_000_000)
  {
    hide WallAdd, Decision;
    forall i | 0 <= i < 5
      ensures Decision(AfterAll(None, attempts[..i]), attempts[i]) == InvalidCredentials
    {
      FewTries(attempts, i);
      Unbarred(AfterAll(None, attempts[..i]), attempts[i]);
    }
    FewTries(attempts, 4);
    assert attempts[..|attempts| - 1] == attempts[..4];
    LockedTry(AfterAll(None, attempts[..4]), attempts[4], next);
  }

  lemma Unbarred(row: Option<Row>, a: Attempt)
    requires !Barred(row, a.checkedAt) && !a.good
    ensures Decision(row, a) == InvalidCredentials
  {
  }

  lemma LockedTry(row: Option<Row>, fifth: Attempt, next: Attempt)
    requires Norm(row) == Row(4, None) && !fifth.good
    ensures Decision(AfterAttempt(row, fifth), next).Locked? <==> next.checkedAt < WallAdd(fifth.writtenAt, 900_000_000)
  {
    hide WallAdd;
  }

  lemma {:induction false} FewTries(attempts: seq<Attempt>, n: nat)
    requires n < 5 <= |attempts| && forall i | 0 <= i < n :: !attempts[i].good
    ensures Norm(AfterAll(None, attempts[..n])) == Row(n, None)
  {
    hide WallAdd;
    if n > 0 {
      FewTries(attempts, n - 1);
      assert attempts[..n][..n - 1] == attempts[..n - 1];
    }
  }

  // ----- how often a password can be tried -----

  /** Logins of the pair one after the other, none of them successful. */
  predicate FailingRun(attempts: seq<Attempt>) {
    && (forall i | 0 <= i < |attempts| :: !attempts[i].good && attempts[i].checkedAt <= attempts[i].writtenAt)
    && (forall i | 0 < i < |attempts| :: attempts[i - 1].writtenAt <= attempts[i].checkedAt)
  }

  /** The lock written at an instant lasts its full fifteen minutes. */
  predicate LockHolds(now: Instant) {
    WallAdd(now, LOCK_SECONDS * SECOND) >= now + LOCK_SECONDS * SECOND
  }

  /** It always does but in the first three quarters of the second pass of the repeated autumn hour. */
  lemma LockHoldsExactly(now: Instant)
    ensures var autumn := AutumnDay(YearOf(now / DAY)) * DAY;
      LockHolds(now) <==> !(autumn + HOUR <= now < autumn + 2 * HOUR - LOCK_SECONDS * SECOND)
  {
    hide WallAdd, SpringDay, AutumnDay, YearOf, Lengthened;
    WallAddExact(now, LOCK_SECONDS * SECOND);
  }

  /** In the second pass of the repeated hour of 25 October 2026 the lock ends before it begins. */
  lemma LockLostInAutumn()
    ensures var t := 739914 * DAY + HOUR + 900 * SECOND;
      WallAdd(t, LOCK_SECONDS * SECOND) == t - 2700 * SECOND && !LockHolds(t)
  {
    hide LastSunday, YearOf, SpringDay, AutumnDay;
    Switches2026();
  }

  /** The password verifications among the first `n` logins whose lock test was made by `until`. */
  function Verified(attempts: seq<Attempt>, n: nat, until: Instant): nat
    requires n <= |attempts|
  {
    if n == 0 then 0
    else
      Verified(attempts, n - 1, until) +
      if !LockedAt(AfterAll(None, attempts[..n - 1]), attempts[n - 1].checkedAt) && attempts[n - 1].checkedAt <= until then 1 else 0
  }

  /** Login `i` of the run is verified and, being the fifth failure or a later one, writes a lock. */
  predicate WritesLock(attempts: seq<Attempt>, i: nat)
    requires i < |attempts|
  {
    var row := AfterAll(None, attempts[..i]);
    row.Some? && row.value.failCount + 1 >= MAX_FAILS && !LockedAt(row, attempts[i].checkedAt)
  }

  predicate LocksHold(attempts: seq<Attempt>) {
    forall i | 0 <= i < |attempts| :: WritesLock(attempts, i) ==> LockHolds(attempts[i].writtenAt)
  }

  /** After `n` failing logins the counter counts the verifications, and from the fifth on the lock
      reaches fifteen minutes further for each. */
  lemma {:induction false} LockReaches(attempts: seq<Attempt>, n: nat, until: Instant)
    requires FailingRun(attempts) && LocksHold(attempts) && 1 <= n <= |attempts|
    ensures var row, first := AfterAll(None, attempts[..n]), attempts[0].writtenAt;
      && row.Some? && row.value.failCount >= 1
      && first <= attempts[n - 1].writtenAt
      && Verified(attempts, n, until) <= row.value.failCount
      && (row.value.failCount >= MAX_FAILS ==>
            row.value.lockedUntil.Some? &&
            row.value.lockedUntil.value >= first + LOCK_SECONDS * SECOND * (row.value.failCount - 4))
    decreases n
  {
    hide WallAdd, FailingRun, LocksHold;
    RunAt(attempts, n - 1);
    assert WritesLock(attempts, n - 1) ==> LockHolds(attempts[n - 1].writtenAt) by { LockAt(attempts, n - 1); }
    assert attempts[..n][..n - 1] == attempts[..n - 1];
    if n > 1 {
      LockReaches(attempts, n - 1, until);
    } else {
      assert AfterAll(None, attempts[..0]) == None;
      assert Verified(attempts, 0, until) == 0;
    }
  }

  lemma LockAt(attempts: seq<Attempt>, i: nat)
    requires LocksHold(attempts) && i < |attempts|
    ensures WritesLock(attempts, i) ==> LockHolds(attempts[i].writtenAt)
  {
  }

  lemma RunAt(attempts: seq<Attempt>, i: nat)
    requires FailingRun(attempts) && i < |attempts|
    ensures !attempts[i].good && attempts[i].checkedAt <= attempts[i].writtenAt
    ensures i > 0 ==> attempts[i - 1].writtenAt <= attempts[i].checkedAt
  {
  }

  /** Within T seconds of the first failure at most 5 + floor(T / 900) passwords of one pair are
      verified, as long as no login succeeds and every lock that is written holds. */
  lemma {:induction false} VerificationBound(attempts: seq<Attempt>, n: nat, seconds: nat)
    requires FailingRun(attempts) && LocksHold(attempts) && 1 <= n <= |attempts|
    ensures Verified(attempts, n, attempts[0].writtenAt + seconds * SECOND) <= 5 + seconds / LOCK_SECONDS
    decreases n
  {
    hide WallAdd, FailingRun, LocksHold;
    var until := attempts[0].writtenAt + seconds * SECOND;
    if n == 1 {
      assert Verified(attempts, 0, until) == 0;
    } else {
      VerificationBound(attempts, n - 1, seconds);
      LockReaches(attempts, n - 1, until);
      var row := AfterAll(None, attempts[..n - 1]);
      var k := row.value.failCount;
      if k >= MAX_FAILS && !LockedAt(row, attempts[n - 1].checkedAt) && attempts[n - 1].checkedAt <= until {
        WindowsFit(k - 4, seconds);
      }
    }
  }

  /** `n` wrong passwords tried at one instant of the lost quarters. */
  function Flood(at: Instant, n: nat): seq<Attempt> {
    seq(n, _ => Attempt(at, at, false))
  }

  /** Where the lock does not hold nothing bounds the verifications: any number of passwords tried at such
      an instant are all verified. */
  lemma {:induction false} FloodVerified(at: Instant, n: nat, k: nat)
    requires !LockHolds(at) && k <= n
    ensures FailingRun(Flood(at, n)) && Verified(Flood(at, n), k, at) == k
    ensures !LockedAt(AfterAll(None, Flood(at, n)[..k]), at)
  {
    hide WallAdd, LockHolds;
    LostLock(at);
    var attempts := Flood(at, n);
    if k == 0 {
      assert attempts[..0] == [];
    } else {
      FloodVerified(at, n, k - 1);
      assert attempts[..k][..k - 1] == attempts[..k - 1];
    }
  }

  /** A lock that does not hold is over at once. */
  lemma LostLock(now: Instant)
    requires !LockHolds(now)
    ensures WallAdd(now, LOCK_SECONDS * SECOND) <= now
  {
    hide WallAdd, Shortened, Lengthened;
    WallAddExact(now, LOCK_SECONDS * SECOND);
  }

  lemma WindowsFit(k: nat, seconds: nat)
    requires LOCK_SECONDS * SECOND * k <= seconds * SECOND
    ensures k <= seconds / LOCK_SECONDS
  {
  }
}
