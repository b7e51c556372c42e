/** app/notifiers/sms_quota.py and the budget gate at the top of `SevenNotifier.send`. The quota
    reads committed rows in a session of its own; the batch the relay is working on is not in them. */
module SmsQuota {
  import opened Wrappers
  import opened Calendar
  import opened BerlinTime
  import opened Records
  import opened Relay

  function MonthAt(t: Instant): int { MonthOf(BerlinDay(t)) }

  /** CRITICAL_SMS_TEMPLATES. */
  predicate Critical(t: Template) {
    t == FskFailedCritical || t == EscalationBreached
  }

  // ----- specification -----

  /** The committed SMS a company has marked sent since the start of the month, skipped ones included. */
  function SentThisMonth(outbox: map<nat, OutboxRow>, company: nat, asked: Instant): set<nat> {
    set id | id in outbox && outbox[id].company == company && outbox[id].Via() == SMS
      && outbox[id].sentAt.Some? && outbox[id].sentAt.value >= MonthStartInstant(asked)
  }

  /** `over_limit`. */
  predicate OverLimit(outbox: map<nat, OutboxRow>, company: nat, cap: nat, asked: Instant) {
    |SentThisMonth(outbox, company, asked)| >= cap
  }

  predicate IsCapAlert(a: Alert, company: nat, since: Instant) {
    a.company == company && a.code == SmsCapExceeded && a.createdAt >= since
  }

  predicate CapAlerted(alerts: seq<Alert>, company: nat, since: Instant) {
    exists i | 0 <= i < |alerts| :: IsCapAlert(alerts[i], company, since)
  }

  /** `record_skip`: the month is read at `asked`, the row is stamped at `at`. */
  function AfterSkip(alerts: seq<Alert>, company: nat, asked: Instant, at: Instant): seq<Alert> {
    if CapAlerted(alerts, company, MonthStartInstant(asked)) then alerts
    else alerts + [Alert(company, WARNING, SmsCapExceeded, None, None, at)]
  }

  /** Only a non-critical SMS asks the quota. */
  predicate Gated(r: OutboxRow, outbox: map<nat, OutboxRow>, cap: nat, asked: Instant) {
    r.Via() == SMS && !Critical(r.template) && OverLimit(outbox, r.company, cap, asked)
  }

  /** What the relay sees of a send when the provider would do `provider`. */
  function Answer(r: OutboxRow, outbox: map<nat, OutboxRow>, cap: nat, asked: Instant, provider: Outcome): Outcome {
    if Gated(r, outbox, cap, asked) then Accepted(SkippedByCap) else provider
  }

  // ----- the notifier -----

  method RecordSkip(s: Session, company: nat, asked: Instant, at: Instant)
    modifies s`alerts
    ensures s.alerts == AfterSkip(old(s.alerts), company, asked, at)
  {
    hide MonthStartInstant;
    var since := MonthStartInstant(asked);
    for i := 0 to |s.alerts|
      invariant s.alerts == old(s.alerts)
      invariant !CapAlerted(s.alerts[..i], company, since)
    {
      if s.alerts[i].company == company && s.alerts[i].code == SmsCapExceeded && s.alerts[i].createdAt >= since {
        assert IsCapAlert(s.alerts[i], company, since);
        return;
      }
      assert s.alerts[..i + 1] == s.alerts[..i] + [s.alerts[i]];
    }
    assert s.alerts[..|s.alerts|] == s.alerts;
    s.alerts := s.alerts + [Alert(company, WARNING, SmsCapExceeded, None, None, at)];
  }

  method Send(s: Session, row: OutboxRow, cap: nat, asked: Instant, at: Instant, provider: Outcome)
      returns (outcome: Outcome)
    modifies s`alerts
    ensures outcome == Answer(row, s.queue.outbox, cap, asked, provider)
    ensures s.alerts == if Gated(row, s.queue.outbox, cap, asked) then AfterSkip(old(s.alerts), row.company, asked, at) else old(s.alerts)
  {
    hide MonthStartInstant, AfterSkip;
    if row.Via() == SMS && !Critical(row.template) {
      var sent := |SentThisMonth(s.queue.outbox, row.company, asked)|;
      if sent >= cap {
        RecordSkip(s, row.company, asked, at);
        return Accepted(SkippedByCap);
      }
    }
    return provider;
  }

  // ----- months -----

  /** The month window on the instant line. */
  lemma MonthWindow(asked: Instant, t: Instant)
    ensures t >= MonthStartInstant(asked) <==> MonthAt(t) >= MonthAt(asked)
  {
    hide BerlinDay, MonthStart, MonthOf, AtWall;
    Midnight(MonthStart(MonthAt(asked)), t);
    FromMonthStart(MonthAt(asked), BerlinDay(t));
  }

  lemma FromMonthStart(m: int, day: Day)
    ensures MonthStart(m) <= day <==> m <= MonthOf(day)
  {
    hide MonthOf, MonthStart;
    MonthsTile(m);
    MonthOfIs(MonthStart(m), m);
    MonthOfIs(day, m);
    if MonthStart(m) <= day {
      MonthOrder(MonthStart(m), day);
    } else {
      MonthOrder(day, MonthStart(m));
    }
  }

  lemma MonthMonotone(a: Instant, b: Instant)
    requires a <= b
    ensures MonthAt(a) <= MonthAt(b)
  {
    hide BerlinDay, MonthOf;
    BerlinDayMonotone(a, b);
    MonthOrder(BerlinDay(a), BerlinDay(b));
  }

  // ----- the gate on the calendar -----

  /** The SMS a company has on record as sent in the Berlin month of `asked` or later. */
  function SmsSince(outbox: map<nat, OutboxRow>, company: nat, asked: Instant): set<nat> {
    set id | id in outbox && outbox[id].company == company && outbox[id].key.to.channel == SMS
      && outbox[id].sentAt != None && MonthOf(BerlinDay(outbox[id].sentAt.value)) >= MonthOf(BerlinDay(asked))
  }

  /** A send is withheld if and only if it is the SMS of a nag or a reminder and its company already has as
      many SMS sent this month as the cap allows; every other send is the provider's. */
  lemma GateExactly(r: OutboxRow, outbox: map<nat, OutboxRow>, cap: nat, asked: Instant, provider: Outcome)
    ensures var withheld := r.key.to.channel == SMS && r.template in {EscalationNag, DeadlineReminder}
                            && |SmsSince(outbox, r.company, asked)| >= cap;
      && Answer(r, outbox, cap, asked, provider) == (if withheld then Accepted(SkippedByCap) else provider)
      && (Gated(r, outbox, cap, asked) <==> withheld)
  {
    hide BerlinDay, MonthOf, MonthStartInstant;
    forall id
      ensures id in SmsSince(outbox, r.company, asked) <==> id in SentThisMonth(outbox, r.company, asked)
    {
      if id in outbox && outbox[id].sentAt.Some? {
        MonthWindow(asked, outbox[id].sentAt.value);
      }
    }
    assert SmsSince(outbox, r.company, asked) == SentThisMonth(outbox, r.company, asked);
  }

  /** Withholding is announced by one WARNING unless the company has one of this Berlin month or later. */
  lemma AnnouncedExactly(alerts: seq<Alert>, company: nat, asked: Instant, at: Instant)
    ensures AfterSkip(alerts, company, asked, at) ==
            if exists i | 0 <= i < |alerts| :: alerts[i].company == company && alerts[i].code == SmsCapExceeded
                 && MonthOf(BerlinDay(alerts[i].createdAt)) >= MonthOf(BerlinDay(asked))
            then alerts else alerts + [Alert(company, WARNING, SmsCapExceeded, None, None, at)]
  {
    hide BerlinDay, MonthOf, MonthStartInstant;
    var since := MonthStartInstant(asked);
    forall i | 0 <= i < |alerts|
      ensures IsCapAlert(alerts[i], company, since) <==>
        alerts[i].company == company && alerts[i].code == SmsCapExceeded
        && MonthOf(BerlinDay(alerts[i].createdAt)) >= MonthOf(BerlinDay(asked))
    {
      MonthWindow(asked, alerts[i].createdAt);
    }
  }
}
