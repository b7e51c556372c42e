/** The running system: one database, the relay cycles in flight, and the steps web requests, jobs and
    relay cycles take. Requests and jobs are atomic transactions; a relay cycle claims, sends row by
    row, and then commits or aborts, with any other steps in between. */
module FleetSystem {
  import opened Wrappers
  import opened Calendar
  import opened BerlinTime
  import opened Records
  import opened Evidence
  import opened AccountServices
  import opened Dsgvo
  import QueueInvariant
  import Sweeps
  import opened Relay
  import SmsQuota
  import opened Routes
  import RouteSteps

  /** What `login` carries from its verifying transaction to the one that creates the session. */
  datatype Login = Login(user: nat, company: nat)

  /** `cycles` are the open relay transactions. `logins`, `viewed`, `accepted` and `aborts` are history:
      the credentials ever verified, the invitations ever read as acceptable, the normal returns of
      `send` per row, and the aborted cycles per row that had claimed it. */
  datatype World = World(db: Db, clock: Clock, cycles: map<nat, Cycle>, logins: seq<Login>, viewed: seq<nat>,
                         accepted: map<nat, nat>, aborts: map<nat, nat>)

  datatype Event =
    // accounts
    | Signup(name: string, email: string, phone: Option<string>)
    | Invite(sid: nat, email: string, role: Role)
    | ReadInvitation(invitation: nat)
    | Accept(read: nat)
    | Verify(user: nat)
    | OpenSession(login: nat, rehash: bool)
    | RequestDeletion(sid: nat)
    // the fleet
    | AddDriver(sid: nat, first: string, last: string, start: Option<Day>)
    | CheckDriver(sid: nat, driver: nat, result: string, performedOn: Option<Day>, uuid: nat)
    | AddVehicle(sid: nat, plate: bool, interval: Option<int>, registered: Option<Day>)
    | CheckVehicle(sid: nat, vehicle: Subject, kind: string, result: string, performedOn: Option<Day>, uuid: nat)
    | EraseDriver(sid: nat, driver: nat)
    // jobs
    | SweepCases
    | Remind
    | PurgeDrivers
    | Prune
    | Tombstone
    // relay
    | Claim(cycle: nat, batch: seq<nat>)
    | SendRow(cycle: nat, asked: Instant, provider: Outcome)
    | CommitCycle(cycle: nat)
    | AbortCycle(cycle: nat)

  datatype Step = Step(event: Event, clock: Clock)

  // ----- requests and jobs as transactions -----

  function Caller(a: Accounts, sid: nat): User
    requires sid < |a.sessions| && a.sessions[sid].user < |a.users|
  {
    a.users[a.sessions[sid].user]
  }

  /** A request of an admitted session. */
  function Requested(sha: Digest, db: Db, caller: User, event: Event, clock: Clock): Db {
    match event
    case Invite(_, email, role) =>
      if caller.role == OWNER then db.(accounts := AfterInvite(db.accounts, caller.company, email, role, clock.now)) else db
    case RequestDeletion(_) =>
      if caller.role == OWNER then db.(accounts := AfterDeletionRequest(db.accounts, caller.company, clock.now)) else db
    case AddDriver(_, first, last, start) => CreatedDriver(db, caller, first, last, start, clock).db
    case AddVehicle(_, plate, interval, registered) => CreatedVehicle(db, caller, plate, interval, registered, clock).db
    case CheckDriver(_, driver, result, performedOn, uuid) => DriverCheck(sha, db, caller, driver, result, performedOn, uuid, clock).db
    case CheckVehicle(_, vehicle, kind, result, performedOn, uuid) =>
      VehicleCheck(sha, db, caller, vehicle, kind, result, performedOn, uuid, clock).db
    case EraseDriver(_, driver) =>
      if caller.role == OWNER && Visible(db.fleet, caller.company, driver)
      then db.(fleet := db.fleet.(drivers := db.fleet.drivers[driver := Anonymized(db.fleet.drivers[driver], clock.now)])) else db
    case _ => db
  }

  predicate IsRequest(event: Event) {
    event.Invite? || event.RequestDeletion? || event.AddDriver? || event.AddVehicle? || event.CheckDriver?
    || event.CheckVehicle? || event.EraseDriver?
  }

  /** The database after a request or a job; relay steps are not transactions of their own. */
  function Transacted(sha: Digest, w: World, event: Event, clock: Clock): Db {
    var db := w.db;
    if IsRequest(event) then
      if Admitted(db.accounts, event.sid, clock.now)
      then Requested(sha, db, Caller(db.accounts, event.sid), event, clock) else db
    else match event
      case Signup(name, email, phone) => db.(accounts := SignedUp(db.accounts, name, email, phone, clock.now))
      case Accept(read) =>
        if read < |w.viewed| then db.(accounts := AfterRead(db.accounts, w.viewed[read], clock.now)) else db
      case OpenSession(login, rehash) =>
        if login < |w.logins|
        then db.(accounts := AfterLogin(db.accounts, w.logins[login].user, w.logins[login].company, rehash, clock.now)) else db
      case SweepCases => Sweeps.AfterEscalationSweep(db, clock)
      case Remind => Sweeps.AfterReminderSweep(db, clock)
      case PurgeDrivers => db.(fleet := db.fleet.(drivers := Purged(db.accounts.companies, db.fleet.drivers, clock)))
      case Prune => db.(queue := Pruned(db.queue, clock))
      case Tombstone => AfterTombstones(db, clock.now, |db.accounts.companies|)
      case _ => db
  }

  /** Credentials handed on: by the verifying step of a login and by a written acceptance. */
  function LoginsAfter(w: World, event: Event, clock: Clock): seq<Login> {
    match event
    case Verify(user) =>
      if user < |w.db.accounts.users| then w.logins + [Login(user, w.db.accounts.users[user].company)] else w.logins
    case Accept(read) =>
      if read < |w.viewed| && MayInsert(w.db.accounts, w.viewed[read])
      then w.logins + [Login(|w.db.accounts.users|, w.db.accounts.invitations[w.viewed[read]].company)] else w.logins
    case _ => w.logins
  }

  /** The invitations read as acceptable, by requests that have yet to write. */
  function ViewedAfter(w: World, event: Event, clock: Clock): seq<nat> {
    match event
    case ReadInvitation(invitation) =>
      if Acceptable(w.db.accounts, invitation, clock.now) then w.viewed + [invitation] else w.viewed
    case _ => w.viewed
  }

  // ----- relay steps -----

  /** The rows locked by open relay transactions. */
  function LockedRows(cycles: map<nat, Cycle>): set<nat> {
    set c, i | c in cycles && 0 <= i < |cycles[c].batch| :: cycles[c].batch[i]
  }

  function Count(m: map<nat, nat>, id: nat): nat {
    if id in m then m[id] else 0
  }

  function Bumped(m: map<nat, nat>, ids: set<nat>): (r: map<nat, nat>)
    ensures forall id :: Count(r, id) == Count(m, id) + if id in ids then 1 else 0
  {
    map id | id in m.Keys + ids :: Count(m, id) + if id in ids then 1 else 0
  }

  function BatchSet(c: Cycle): set<nat> {
    set i | 0 <= i < |c.batch| :: c.batch[i]
  }

  /** The next row of a cycle is sent: the gate reads the quota at `asked`, the answer comes now. */
  function Sent(w: World, cycle: nat, cap: nat, asked: Instant, provider: Outcome, now: Instant): World
    requires cycle in w.cycles && MaySend(w.cycles[cycle], w.db.queue.outbox)
  {
    var c, outbox := w.cycles[cycle], w.db.queue.outbox;
    var id := c.batch[c.done];
    var row := outbox[id];
    var outcome := SmsQuota.Answer(row, outbox, cap, asked, provider);
    var alerts := if SmsQuota.Gated(row, outbox, cap, asked) then SmsQuota.AfterSkip(w.db.alerts, row.company, asked, now) else w.db.alerts;
    w.(db := w.db.(alerts := alerts),
       cycles := w.cycles[cycle := AfterSend(c, outbox, Reply(outcome, now))],
       accepted := if outcome.Accepted? then Bumped(w.accepted, {id}) else w.accepted)
  }

  // ----- one step -----

  /** Checks of one subject are serialised: the entry a request is about to record is later than those
      already in its chain. Checks of different subjects may overlap in any way. */
  predicate RecordsInOrder(log: seq<LogEntry>, company: nat, subject: Subject, uuid: nat, clock: Clock) {
    ComesAfter(Chain(log, company, subject), clock.began, uuid)
  }

  predicate Serialised(db: Db, event: Event, clock: Clock) {
    match event
    case CheckDriver(sid, driver, _, _, uuid) =>
      Admitted(db.accounts, sid, clock.now) ==>
        RecordsInOrder(db.fleet.log, Caller(db.accounts, sid).company, OfDriver(driver), uuid, clock)
    case CheckVehicle(sid, vehicle, _, _, _, uuid) =>
      Admitted(db.accounts, sid, clock.now) ==>
        RecordsInOrder(db.fleet.log, Caller(db.accounts, sid).company, vehicle, uuid, clock)
    case _ => true
  }

  /** An acceptance finishes before its company is erased or not at all. */
  predicate FinishesInTime(w: World, read: nat) {
    && read < |w.viewed| && w.viewed[read] < |w.db.accounts.invitations|
    && !QueueInvariant.Deleted(w.db.accounts.companies, w.db.accounts.invitations[w.viewed[read]].company)
  }

  /** When a step can happen. The clock never runs back; a DELETE waits for rows a relay cycle holds. */
  ghost predicate Enabled(w: World, s: Step) {
    && w.clock.now <= s.clock.now && s.clock.Valid() && Serialised(w.db, s.event, s.clock)
    && match s.event
       case Verify(user) => user < |w.db.accounts.users| && w.db.accounts.users[user].active
       case OpenSession(login, _) => login < |w.logins|
       case Accept(read) => FinishesInTime(w, read)
       case CheckVehicle(_, vehicle, _, _, _, _) => RouteSteps.NamesVehicle(w.db.fleet, vehicle)
       case SweepCases => s.clock.Frozen()
       case Remind => s.clock.Frozen()
       case Prune => Removed(w.db.queue, Pruned(w.db.queue, s.clock)) !! LockedRows(w.cycles)
       case Tombstone =>
         Removed(w.db.queue, AfterTombstones(w.db, s.clock.now, |w.db.accounts.companies|).queue) !! LockedRows(w.cycles)
       case Claim(cycle, batch) =>
         cycle !in w.cycles && IsBatch(w.db.queue.outbox, LockedRows(w.cycles), s.clock.now, batch)
       case SendRow(cycle, asked, provider) =>
         && cycle in w.cycles && MaySend(w.cycles[cycle], w.db.queue.outbox)
         && w.clock.now <= asked <= s.clock.now
         && provider != Accepted(SkippedByCap) && provider != Crashed
       case CommitCycle(cycle) => cycle in w.cycles && w.cycles[cycle].done == |w.cycles[cycle].batch|
       case AbortCycle(cycle) => cycle in w.cycles
       case _ => true
  }

  /** The rows that leave the table. */
  function Removed(q: Queue, p: Queue): set<nat> {
    q.outbox.Keys - p.outbox.Keys
  }

  /** The world after a step; a relay step that cannot happen changes nothing. */
  function After(sha: Digest, cap: nat, w: World, s: Step): World {
    var now := w.(clock := s.clock);
    match s.event
    case Claim(cycle, batch) => now.(cycles := w.cycles[cycle := Claimed(batch)])
    case SendRow(cycle, asked, provider) =>
      if cycle in w.cycles && MaySend(w.cycles[cycle], w.db.queue.outbox)
      then Sent(now, cycle, cap, asked, provider, s.clock.now) else now
    case CommitCycle(cycle) =>
      if cycle in w.cycles then now.(db := Commit(w.db, w.cycles[cycle]), cycles := w.cycles - {cycle}) else now
    case AbortCycle(cycle) =>
      if cycle in w.cycles
      then now.(cycles := w.cycles - {cycle}, aborts := Bumped(w.aborts, BatchSet(w.cycles[cycle]))) else now
    case _ => now.(db := Transacted(sha, w, s.event, s.clock), logins := LoginsAfter(w, s.event, s.clock),
                    viewed := ViewedAfter(w, s.event, s.clock))
  }

  ghost predicate Next(sha: Digest, cap: nat, w: World, s: Step, v: World) {
    Enabled(w, s) && v == After(sha, cap, w, s)
  }

  /** A run: a world before and after each step. */
  ghost predicate Run(sha: Digest, cap: nat, worlds: seq<World>, steps: seq<Step>) {
    && |worlds| == |steps| + 1
    && forall i {:trigger steps[i]} | 0 <= i < |steps| :: Next(sha, cap, worlds[i], steps[i], worlds[i + 1])
  }
}
