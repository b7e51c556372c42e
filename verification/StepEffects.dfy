/** What the jobs and the relay do to the running system, step by step. */
module StepEffects {
  import opened Wrappers
  import opened Calendar
  import opened BerlinTime
  import opened MonthRules
  import opened Records
  import AccountServices
  import Dsgvo
  import opened Evidence
  import opened Relay
  import SmsQuota
  import Sweeps
  import opened Routes
  import ErasureEffects
  import AccessEffects
  import opened FleetSystem

  // ----- jobs -----

  /** The purge scrubs exactly the drivers past their company's retention and changes nothing else. */
  lemma PurgeStep(sha: Digest, cap: nat, w: World, s: Step, d: nat, last: Day)
    requires s.event.PurgeDrivers? && d < |w.db.fleet.drivers|
    requires var r, companies := w.db.fleet.drivers[d], w.db.accounts.companies;
      r.employmentEnd.Some? ==>
        MonthsLater(r.employmentEnd.value, last, if r.company < |companies| then companies[r.company].retentionMonths else 12)
    ensures var r, b := w.db.fleet.drivers[d], After(sha, cap, w, s).db;
      && b == w.db.(fleet := w.db.fleet.(drivers := b.fleet.drivers)) && |b.fleet.drivers| == |w.db.fleet.drivers|
      && b.fleet.drivers[d] ==
         if r.anonymizedAt == None && r.employmentEnd != None && last < s.clock.today
         then Driver(r.company, "Gelöscht", "Gelöscht", r.employmentEnd, Some(s.clock.now), r.authorized, r.lockReason, r.lockedAt, r.version + 1)
         else r
  {
    hide MonthsLater, Dsgvo.PurgedDriver;
    Dsgvo.PurgedExactly(w.db.accounts.companies, w.db.fleet.drivers, s.clock, d, last);
  }

  /** The prune removes exactly the rows created before the Berlin day 24 calendar months ago and changes
      nothing else. */
  lemma PruneStep(sha: Digest, cap: nat, w: World, s: Step, id: nat, first: Day)
    requires s.event.Prune? && id in w.db.queue.outbox && MonthsLater(BerlinDay(s.clock.now), first, -24)
    ensures var b, q := After(sha, cap, w, s).db, w.db.queue;
      && b == w.db.(queue := b.queue) && b.queue.outbox.Keys <= q.outbox.Keys
      && (id in b.queue.outbox <==> first <= BerlinDay(q.outbox[id].createdAt))
      && (id in b.queue.outbox ==> b.queue.outbox[id] == q.outbox[id])
  {
    hide MonthsLater, BerlinDay, Dsgvo.Pruned;
    Dsgvo.PrunedExactly(w.db.queue, s.clock, id, first);
  }

  /** The erasure job erases exactly the companies whose grace period is over. */
  lemma TombstoneStep(sha: Digest, cap: nat, w: World, s: Step, c: nat)
    requires s.event.Tombstone? && c < |w.db.accounts.companies|
    ensures var b := After(sha, cap, w, s).db;
      && ErasureEffects.Frame(w.db, b)
      && if ErasureEffects.GraceOver(w.db.accounts.companies[c], s.clock.now)
         then ErasureEffects.CompanyErased(w.db, b, c, s.clock.now) else ErasureEffects.Untouched(w.db, b, c)
  {
    hide Dsgvo.AfterTombstones, ErasureEffects.Frame, ErasureEffects.GraceOver, ErasureEffects.CompanyErased,
         ErasureEffects.Untouched;
    ErasureEffects.JobExactly(w.db, s.clock.now, |w.db.accounts.companies|, c);
  }

  /** The sweeps, signup and the two writing steps of login and acceptance are the services' own. */
  lemma ServiceSteps(sha: Digest, cap: nat, w: World, s: Step)
    ensures var db, b, now := w.db, After(sha, cap, w, s).db, s.clock.now;
      match s.event
      case SweepCases => b == Sweeps.AfterEscalationSweep(db, s.clock)
      case Remind => b == Sweeps.AfterReminderSweep(db, s.clock)
      case Signup(name, email, phone) => b == db.(accounts := AccountServices.SignedUp(db.accounts, name, email, phone, now))
      case Accept(read) => read < |w.viewed| ==> b == db.(accounts := AccountServices.AfterRead(db.accounts, w.viewed[read], now))
      case OpenSession(l, rehash) =>
        l < |w.logins| ==> b == db.(accounts := AccountServices.AfterLogin(db.accounts, w.logins[l].user, w.logins[l].company, rehash, now))
      case Verify(_) => b == db
      case ReadInvitation(_) => b == db
      case _ => true
  {
    hide Sweeps.AfterEscalationSweep, Sweeps.AfterReminderSweep, AccountServices.SignedUp, AccountServices.AfterRead,
         AccountServices.AfterLogin;
  }

  /** A request of an entitled caller is the service's own, for the caller's company and user. */
  lemma RequestSteps(sha: Digest, cap: nat, w: World, s: Step)
    requires IsRequest(s.event) && AccessEffects.Live(w.db.accounts, s.event.sid, s.clock.now)
    requires AccessEffects.Entitled(w.db.accounts.users[w.db.accounts.sessions[s.event.sid].user].role, s.event)
    ensures var db, b := w.db, After(sha, cap, w, s).db;
      var caller := db.accounts.users[db.accounts.sessions[s.event.sid].user];
      match s.event
      case Invite(_, email, role) => b == db.(accounts := AccountServices.AfterInvite(db.accounts, caller.company, email, role, s.clock.now))
      case RequestDeletion(_) => b == db.(accounts := AccountServices.AfterDeletionRequest(db.accounts, caller.company, s.clock.now))
      case AddDriver(_, first, last, start) => b == CreatedDriver(db, caller, first, last, start, s.clock).db
      case AddVehicle(_, plate, interval, registered) => b == CreatedVehicle(db, caller, plate, interval, registered, s.clock).db
      case CheckDriver(_, driver, result, performedOn, uuid) => b == DriverCheck(sha, db, caller, driver, result, performedOn, uuid, s.clock).db
      case CheckVehicle(_, vehicle, kind, result, performedOn, uuid) =>
        b == VehicleCheck(sha, db, caller, vehicle, kind, result, performedOn, uuid, s.clock).db
      case EraseDriver(_, driver) =>
        var d := if driver < |db.fleet.drivers| then Some(db.fleet.drivers[driver]) else None;
        if d == None || d.value.company != caller.company || d.value.anonymizedAt != None then b == db
        else
          b == db.(fleet := db.fleet.(drivers := db.fleet.drivers[driver :=
            Driver(d.value.company, "Gelöscht", "Gelöscht", d.value.employmentEnd, Some(s.clock.now), d.value.authorized,
                   d.value.lockReason, d.value.lockedAt, d.value.version + 1)]))
      case _ => true
  {
    hide AccountServices.AfterInvite, AccountServices.AfterDeletionRequest, CreatedDriver, CreatedVehicle, DriverCheck,
         VehicleCheck;
    assert s.event.EraseDriver? && s.event.driver < |w.db.fleet.drivers| ==>
      w.db.fleet.drivers[s.event.driver := w.db.fleet.drivers[s.event.driver]] == w.db.fleet.drivers;
  }

  // ----- the relay -----

  /** A send in flight: withheld, the row is staged as sent without the provider and the company told once a
      month; otherwise it is staged as the provider's answer leaves it. Nothing is committed but the notice. */
  lemma SendStep(sha: Digest, cap: nat, w: World, s: Step)
    requires s.event.SendRow? && s.event.cycle in w.cycles && MaySend(w.cycles[s.event.cycle], w.db.queue.outbox)
    ensures var c, v, now := w.cycles[s.event.cycle], After(sha, cap, w, s), s.clock.now;
      var id := c.batch[c.done];
      var r := w.db.queue.outbox[id];
      var withheld := r.key.to.channel == SMS && r.template in {EscalationNag, DeadlineReminder}
                      && |SmsQuota.SmsSince(w.db.queue.outbox, r.company, s.event.asked)| >= cap;
      var reply := Reply(if withheld then Accepted(SkippedByCap) else s.event.provider, now);
      && v.db == w.db.(alerts := if withheld then SmsQuota.AfterSkip(w.db.alerts, r.company, s.event.asked, now) else w.db.alerts)
      && v.cycles == w.cycles[s.event.cycle :=
           Cycle(c.batch, c.done + 1, c.staged[id := Deliver(r, reply)], c.raised + Raises(r, reply))]
      && (forall x :: Count(v.accepted, x) == Count(w.accepted, x) + if x == id && reply.outcome.Accepted? then 1 else 0)
      && v.aborts == w.aborts && v.logins == w.logins && v.viewed == w.viewed
  {
    hide SmsQuota.AfterSkip, Deliver, Raises, SmsQuota.SmsSince, SmsQuota.Gated;
    var c := w.cycles[s.event.cycle];
    SmsQuota.GateExactly(w.db.queue.outbox[c.batch[c.done]], w.db.queue.outbox, cap, s.event.asked, s.event.provider);
  }

  /** Claiming opens a transaction that has done nothing; committing puts exactly its staged rows and alerts into
      the database; aborting leaves the database alone and is counted for each row it had claimed. */
  lemma CycleStep(sha: Digest, cap: nat, w: World, s: Step)
    ensures var v := After(sha, cap, w, s);
      match s.event
      case Claim(cycle, batch) => v.db == w.db && v.cycles == w.cycles[cycle := Cycle(batch, 0, map[], [])]
      case CommitCycle(cycle) => cycle in w.cycles ==>
        var c, q := w.cycles[cycle], w.db.queue;
        && v.db == w.db.(queue := q.(outbox := v.db.queue.outbox), alerts := w.db.alerts + c.raised)
        && v.db.queue.outbox.Keys == q.outbox.Keys + c.staged.Keys
        && (forall id | id in v.db.queue.outbox :: v.db.queue.outbox[id] == if id in c.staged then c.staged[id] else q.outbox[id])
        && cycle !in v.cycles && (forall d | d in w.cycles && d != cycle :: d in v.cycles && v.cycles[d] == w.cycles[d])
      case AbortCycle(cycle) => cycle in w.cycles ==>
        && v.db == w.db && cycle !in v.cycles && v.accepted == w.accepted
        && (forall d | d in w.cycles && d != cycle :: d in v.cycles && v.cycles[d] == w.cycles[d])
        && (forall id :: Count(v.aborts, id) == Count(w.aborts, id) + if id in w.cycles[cycle].batch then 1 else 0)
      case _ => true
  {
  }
}
