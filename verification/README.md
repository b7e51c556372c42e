# Fristenwächter: the compliance engine, verified

Fristenwächter watches the legal deadlines of small German vehicle fleets. This project models its
transactional core in Dafny and proves what the service promises of every run:

- a failed Führerscheinkontrolle locks the driver, opens an escalation case, raises a CRITICAL alert and
  stages one message per recipient and channel, all or nothing (`app/services/e6.py`);
- every check is an entry in a per-subject hash chain, many chains interleaved in one log
  (`app/services/checks.py`);
- obligations roll forward from the day they were met, on the Berlin civil calendar (`app/dates.py`);
- daily sweeps nag, breach and remind through an outbox with unique dedup keys (`app/jobs/sweeps.py`);
- a relay claims outbox rows, calls a provider, and commits or rolls back (`app/jobs/relay.py`), under a
  monthly SMS budget (`app/notifiers/`);
- accounts, erasure and retention (`app/services/auth.py`, `app/services/dsgvo.py`, `app/jobs/dsgvo.py`).

## How it is built

One database is a value `Db` of tables; a row's id is its index. The services are methods over
`Records.Session`, whose fields are the tables they assign, each proved equal to a function of the old
tables; properties are lemmas about those functions. `Outbox`, `E6`, `Evidence`, `Checks`, `Sweeps`,
`Relay`, `SmsQuota`, `AccountServices`, `Dsgvo`, `Throttle` and `Routes` follow the source files.

`FleetSystem` puts them together: requests and jobs are atomic steps (a login and an acceptance two each),
a relay cycle is claim, then one send at a time, then commit or abort, with any other steps in between and
any number of cycles open.
`RouteEffects`, `AccessEffects`, `SweepEffects`, `ErasureEffects` and `StepEffects` say column by column what
each step does, on the calendar and in the names of the tables, instead of by the functions the services
are proved equal to.
`SystemInvariant.Inv` is the invariant of a world, `SystemRuns.RunKeeps` says that every world of every
run satisfies it, `Guarantees` reads off what it promises, and `RunHistory` and `SmsBudget` hold the
theorems about whole runs. `E6Race` interleaves concurrent `run_e6` calls at the driver's row lock.

What the model takes from outside: the clock, which never runs back, while a request may have begun, and
be stamped by the database, at any earlier instant; the serialisation of checks on one subject, which
`app/services/checks.py:115-118` asks of callers (checks of different subjects overlap freely); the
digest, an arbitrary function assumed collision-free only where a lemma says so (SHA-256, section 6.2 of
FIPS 180-4); the providers, whose every send may be accepted, rejected or lost; and which credentials are
right. `triggers` stands for drawing fresh ids. Some fields are history only and read by no operation:
`archive`, `failedAt`, `trigger`, `told`, `openedOn`, `createdOn`, and the send and abort counts of a world.

## Where code and documentation part

The model follows the code. These promises hold only under a condition, which is stated exactly:

- Two notified users of one company with the same phone number make every first FAILED check of a driver
  fail as a whole: the dedup keys collide, `run_e6` finds no open case and re-raises, and the evidence
  rolls back with it. `RouteSteps.FailedCheckCommits` is the exact condition, `RouteSteps.SharedPhoneBlocks`
  an instance; `Guarantees.FailedCheckLocks` shows that the web application alone never gets there, because
  only signup stores a phone number.
- `now_berlin() + timedelta` moves the wall clock. In the second pass of the repeated autumn hour a backoff
  or a login lock can end before it begins (`BerlinTime.WallAddBackwards`, `Throttle.FloodVerified`), and in
  the hour before the spring switch the two-hour backoff is halved (`BerlinTime.WallAddHalved`,
  `RelayProgress.DeadLetterEarly`). `BerlinTime.WallAddExact`, `RelayProgress.BackoffKept` and
  `Throttle.LockHoldsExactly` give the exact windows of the calendar.
- A FAILED check records evidence before it locks the driver row (`app/web/drivers.py:155-162`), so two
  overlapping requests on one driver can fork its chain: `Evidence.OverlapForks`, and
  `Evidence.LinksToLastExactly` for the exact condition.
- `accept_invitation` reads its invitation without a lock. If the company is erased before it writes, the
  erased company has an active user again: `AccountServices.AcceptInTime` is the exact condition.
- `anonymize_account_user` clears the password "so it can never authenticate again", but a login that spans
  the erasure can store a rehashed one. The user stays inactive, so nothing is admitted
  (`AccountServices.RehashAfterErasure`, `AccountServices.ErasedIsSilent`).
- The driver purge and the outbox prune test "older than n months" differently; `MonthRules.RetentionTests`
  says exactly when the two tests disagree.

## Model

| member | source | states |
|---|---|---|
| Calendar.PlusMonthsExact | app/dates.py:58-68 | `add_months` moves the month index by exactly the number asked for, in either direction, and the day of month becomes the lesser of the old one and the target month's length |
| Calendar.MonthEndExact | app/dates.py:71-72 | `last_day_of_month` stays in the month and lands on its last day |
| MonthRules.PlusMonthsMonotone | app/dates.py:58-68 | a later check is never due before an earlier one, clamping included |
| MonthRules.DueRules | app/dates.py:78-118 | every constructor on the calendar: FSK six months on, UVV twelve, each on the same day of the month or the last one of a shorter month; HU on the last day of the month the interval on, the first one 36 months on |
| MonthRules.OnlyMonthsLater | app/dates.py:58-68 | `add_months` is the one day that lies so many calendar months on, in either direction |
| MonthRules.PlusMonthsSpan | app/dates.py:143-148 | how many days k months reach forwards and backwards, at least 28 k and at most 31 k up to the three days clamping can cost |
| MonthRules.FskSpan | app/dates.py:78-81 | a Führerscheinkontrolle window is 181 to 184 days from any starting day |
| MonthRules.UvvSpan | app/dates.py:84-86 | a UVV window is 365 or 366 days from any starting day |
| MonthRules.IterateClamps | app/dates.py:78-86 | k roll-forwards end in month index start + k times the interval, on the least of the starting day of month and every month length visited: clamping is never undone |
| MonthRules.HuDriftFree | app/dates.py:89-93 | k iterated HU dates are the last day of the month k intervals after the first, so they do not drift |
| MonthRules.FskDrifts | app/dates.py:78-81 | the plain cadence does drift: half-yearly checks from 31 August 2023 are due on 29 August 2024 |
| MonthRules.RetentionTests | app/jobs/dsgvo.py:49-50 | expiry tested forwards equals expiry tested backwards except exactly when clamping makes the backward sides equal while the day of month still lags |
| BerlinTime.WallRoundTrip | app/dates.py:32-45 | an aware Berlin reading read back is itself, except in the skipped spring hour, where it reads one hour later |
| BerlinTime.WallUnambiguous | app/dates.py:124-140 | a reading outside the two switch hours exists and names exactly one instant |
| BerlinTime.BerlinDayMonotone | app/dates.py:37-45 | Berlin civil days never run backwards, although the wall clock does for an hour each autumn |
| BerlinTime.Midnight | app/dates.py:143-148 | 00:00 Berlin of a day is that day's first instant: `t` is at or after it if and only if its civil day is the day or later |
| BerlinTime.DeadlineLands | app/dates.py:124-140 | the window ends on exactly the `days`-th civil day at an existing, unambiguous 23:59:59 |
| BerlinTime.DeadlineElapsed | app/dates.py:124-140 | its real length is `days` days, plus the rest of the opening day, plus the change of offset, strictly between `days` days minus 3601 s and `days` + 1 days plus an hour |
| BerlinTime.DeadlineMonotone | app/dates.py:124-140 | a later opening never has an earlier deadline |
| BerlinTime.DeadlineDay | app/jobs/sweeps.py:134-146 | up to the deadline the civil day is at most the deadline's, after it at least that day |
| BerlinTime.WallAddExact | app/jobs/relay.py:132-133 | adding up to thirty days to a Berlin datetime comes out an hour early, an hour late or exact, each exactly in its window of the calendar: early in the second pass of the repeated autumn hour or across the spring switch, late when summer time ends in between |
| BerlinTime.WallAddBackwards | app/jobs/relay.py:132-133 | concrete failure: in the second pass of the repeated hour of 25 October 2026 "one minute later" is 59 minutes ago |
| BerlinTime.WallAddHalved | app/jobs/relay.py:132-133 | concrete failure: at 01:50 on 29 March 2026 "two hours later" is one hour later |
| Json.EncodeInjective | app/services/checks.py:64-69 | the canonical JSON text determines the value, whatever the strings contain |
| Text.IsoTextInjective | app/services/checks.py:137 | distinct days have distinct ISO texts |
| Evidence.EntryHashInjective | app/services/checks.py:61-70 | with a collision-free digest the entry hash determines the previous hash and all eight hashed fields |
| Evidence.LatestHash | app/services/checks.py:73-99 | the scan returns the hash of the row both latest-hash queries select, newest `created_at` first, then id |
| Evidence.LatestExactly | app/services/checks.py:73-99 | the row selected is of that company and subject and greatest by `created_at`, then id; none is selected only if there is none |
| Evidence.ChainColumns | app/services/checks.py:73-99 | a chain is the log restricted to one company and one subject, in log order |
| Evidence.RecordedRow | app/services/checks.py:137-157 | the new row column by column: what the caller says, the start of the transaction, the hash of the latest row as link, its own hash |
| Evidence.EntryText | app/services/checks.py:61-70 | the hashed text, member by member: nine keys in ascending order, no spaces, `null` where there is nothing |
| Evidence.RecordCheck | app/services/checks.py:102-157 | appends one entry linked to the latest visible entry of its subject and changes nothing else |
| Evidence.RecordKeepsChains | app/services/checks.py:115-157 | if the new entry is later, by (`created_at`, id), than those of its own subject's chain, every chain of the interleaved log stays well linked: one genesis, each entry linked to its predecessor, each hash right; entries of different subjects may be stamped in any order |
| Evidence.LinksToLastExactly | app/services/checks.py:76-83 | the next entry links to the entry recorded last if and only if that entry is the latest of its chain by (`created_at`, id) |
| Evidence.OverlapForks | app/services/checks.py:115-118 | concrete failure of the unserialised case: of two overlapping requests the later one recorded is linked past, and the chain forks |
| Evidence.OverlapHarmless | app/models.py:51-57 | overlapping requests on different subjects put the log out of `created_at` order and leave every chain in order and well linked |
| Evidence.TamperEvidence | app/services/checks.py:61-70 | two well-formed chains ending in the same hash have equal length and agree on every hashed field of every entry |
| Evidence.EditShows | app/services/checks.py:61-70 | editing one hashed field changes the hash of that entry and of every later one |
| Evidence.HashesDistinct | app/models.py:444 | no two entries of a well-linked log share a hash, across all chains, so the unique constraint never fires |
| Evidence.NoBrokenLinks | docs/RESTORE_DRILL.md:36-38 | the restore-drill query returns 0: every `prev_hash` is the hash of an earlier row |
| Checks.MaybeResolveOpenCase | app/services/checks.py:172-197 | lifts the lock in any case, resolves the open case if there is one, and reports it |
| Checks.CompleteDeadline | app/services/checks.py:200-291 | the whole new state of the completion, of which `Checks.CompletedExactly` gives the columns; on DeadlineNotFound nothing is promised, the caller rolls back |
| Checks.NextObligation | app/services/checks.py:241-283 | FSK due half a year on, UVV a year on, HU failed with defects in 28 days as a Nachprüfung, any other HU on the last day of the month the vehicle's interval on, all counted from the day of the check |
| Checks.RolledByRule | app/services/checks.py:206-213 | the successor follows the calendar rule of its kind and result |
| Checks.CompletionRefused | app/services/checks.py:219-246 | DeadlineNotFound if and only if the deadline is not one of the company or its driver or vehicle row is missing |
| Checks.CompletedExactly | app/services/checks.py:226-306 | a completion column by column: deadline closed on the day of the check, one open successor by the rule, one entry of that day and result, nothing else but clearing the driver on a passed Führerscheinkontrolle |
| Checks.ClearedExactly | app/services/checks.py:172-197 | clearing column by column: free to drive, no lock reason or time, version moved only if the row moves, an open case resolved now and no other case changed |
| Ledger.OpenDeadline | app/web/drivers.py:165-169 | finds an OPEN deadline of the subject and kind if there is one |
| Ledger.OpenIsLast | app/web/drivers.py:165-169 | in a balanced ledger the lookup can only find the one deadline spawned last |
| Ledger.RollKeepsBalance | app/services/checks.py:206-213 | completing the open deadline and recording its check keeps deadlines and checks in one-to-one step |
| Ledger.BalanceCounts | app/services/checks.py:200-306 | a balanced ledger has exactly one OPEN deadline and as many COMPLETED ones as completing checks |
| FleetSteps.CompleteKeepsLedger | app/services/checks.py:200-306 | completing one obligation keeps the ledger of every subject and kind balanced |
| FleetSteps.LockKeepsInvariant | app/services/e6.py:98-155 | a fresh escalation keeps lock = evidence, case and alert together, and at most one open case per driver |
| FleetSteps.ClearKeepsInvariant | app/services/checks.py:172-197 | a passed check keeps them too |
| FleetSteps.SweepKeepsLock | app/jobs/sweeps.py:134-152 | nagging and breaching keep them too: a breached case still justifies its lock |
| FleetSteps.DriverKeepsLedger | app/web/drivers.py:102-110 | a new driver starts with a balanced ledger |
| FleetSteps.VehicleKeepsLedger | app/web/vehicles.py:99-114 | a new vehicle starts with balanced HU and UVV ledgers |
| E6.OpenCase | app/services/e6.py:219-224 | returns an open case of the driver exactly when there is one |
| E6.HandleFailedLicenseCheck | app/services/e6.py:74-194 | on success the whole new state: lock with version bump, case with its 7-day deadline, CRITICAL alert, one row per recipient and channel; otherwise the exception, in the order driver, version guard, open case, dedup key |
| E6.StageMessages | app/services/e6.py:157-184 | the message loop builds one priority-0 row per address in recipient order |
| E6.RunE6 | app/services/e6.py:197-235 | fresh, replay of the open case with the state restored, or an exception with the state restored |
| E6.OutcomeExactly | app/services/e6.py:90-235 | what a call reports, read off the tables: DriverNotFound, StaleDriverState, the replay of an open case, IntegrityError for a key taken or an address repeated, fresh otherwise, tested in that order; whatever is not fresh leaves the database as it was |
| E6Race.LosersChangeNothing | app/services/e6.py:197-235 | at every point of a race, a call that raised or replayed ends its transaction with the database as it found it |
| E6Race.RaceKeeps | app/services/e6.py:90-132 | in every interleaving of any number of calls on one driver, any of which may be rolled back at any point, either nothing has changed or one call has escalated and every other one has lost, given up or not yet run |
| E6Race.ExactlyOneFresh | app/services/e6.py:90-132 | at every point of a race nothing has changed until a call finishes; from then on exactly one finished call was fresh and the database is its escalation alone; every other finished call replayed the same case, except those that had loaded the driver row before the winner committed, which raised StaleDriverState |
| Routes.CreateDriver | app/web/drivers.py:88-113 | the whole new state or a refusal; `RouteEffects.DriverCreated` gives the columns |
| Routes.CreateVehicle | app/web/vehicles.py:77-118 | the whole new state or a refusal; `RouteEffects.VehicleCreated` gives the columns |
| Routes.RecordDriverCheck | app/web/drivers.py:140-184 | the whole effect of the request: evidence and E6 for FAILED, completion or ad-hoc pass for anything else, rollback of everything when a step raises; `RouteEffects.FailedCheckRecorded` and `RouteEffects.PassedCheckRecorded` give the columns |
| Routes.RecordVehicleCheck | app/web/vehicles.py:147-174 | completion of the visible open deadline of the kind, else an ad-hoc entry with the raw kind; `RouteEffects.VehicleCheckRecorded` gives the columns |
| RouteEffects.DriverCreated | app/web/drivers.py:92-110 | a viewer and an empty name are refused; otherwise a cleared driver with one FSK deadline six calendar months after the start on the form, after today only if the form names none |
| RouteEffects.VehicleCreated | app/web/vehicles.py:81-114 | a viewer and a bad plate are refused; otherwise a vehicle, interval 24 by default, with a first HU on the last day of the month 36 months after the registration on the form and a first UVV twelve months after it |
| RouteEffects.DriverCheckRefused | app/web/drivers.py:145-153 | forbidden exactly for a viewer, not found exactly for a driver that is missing or of another company; nothing is kept of a request that is not done |
| RouteEffects.FailedCheckRecorded | app/web/drivers.py:155-162 | a FAILED entry of the day on the form, no obligation touched; on a driver with an open case nothing else; otherwise the lock, a case until 23:59:59 of the seventh day, its CRITICAL alert and one priority-0 message per recipient address, due at once |
| RouteEffects.PassedCheckRecorded | app/web/drivers.py:163-182 | any other result counts as passed: a PASSED entry of the day on the form, the driver cleared, the open obligation completed on that day with a successor six calendar months on |
| RouteEffects.DriverCheckDated | app/web/drivers.py:149-182 | for FAILED, completed and ad-hoc checks alike the last entry of the driver's chain carries the day on the form, and today only if it names none |
| RouteEffects.VehicleCheckRecorded | app/web/vehicles.py:155-174 | forbidden exactly for a viewer; with an open obligation of the kind an entry of that kind and the obligation rolled by its rule, otherwise an entry of the kind and nothing else; result as sent, day of the form |
| RouteEffects.VehicleCheckDated | app/web/vehicles.py:155-174 | the last entry of the vehicle's chain carries the day on the form, and today only if it names none |
| RouteEffects.OpenColumns | app/web/drivers.py:164-169 | the lookup returns an OPEN deadline of that company, subject and kind, and returns none only if there is none |
| RouteSteps.AddressesDistinct | app/services/recipients.py:18-34 | in every reachable account table no company's notification addresses repeat |
| RouteSteps.RecipientsExactly | app/services/recipients.py:18-34 | the addresses a company is notified at are exactly the non-empty e-mail addresses and phone numbers of its active OWNERs and MANAGERs |
| RouteSteps.FailedCheckCommits | app/web/drivers.py:153-162 | a FAILED check is recorded if and only if the driver already has an open case or the recipients' addresses are pairwise distinct; otherwise nothing is kept, not even the evidence |
| RouteSteps.SharedPhoneBlocks | app/services/e6.py:168-184 | concrete failure: two managers with one phone number, and the driver stays cleared |
| RouteSteps.AlwaysOpen | app/web/drivers.py:165-169 | the lookup of a route always finds the open obligation of a subject it created |
| RouteSteps.FailedCheckKeepsFleet | app/web/drivers.py:153-162 | a failed check keeps the lock invariant and every ledger, also as a replay |
| RouteSteps.PassedCheckKeepsFleet | app/web/drivers.py:163-182 | a passed check always completes the open obligation and keeps both |
| RouteSteps.VehicleCheckKeepsFleet | app/web/vehicles.py:147-174 | a vehicle check keeps both, whatever kind, result and vehicle id the client sends |
| Outbox.ChannelList | app/jobs/sweeps.py:95-101 | the list-building loop yields the channels of a recipient in order |
| Outbox.ChannelsExactly | app/jobs/sweeps.py:95-101 | the channels are the e-mail address and the phone number where they are not empty, e-mail first |
| Outbox.EnqueueAllKeys | app/jobs/sweeps.py:62-92 | after a batch of `_enqueue_unique` the table's keys are the old ones and the batch's |
| DedupText.KeyTextInjective | app/jobs/sweeps.py:189-223 | distinct events have distinct dedup strings, over E6, breach, nag and reminder keys together |
| Reminders.ThresholdWindow | app/jobs/sweeps.py:160-174 | which day windows before the due date carry which threshold, exactly |
| Reminders.FourThresholds | app/jobs/sweeps.py:160-174 | at most four pre-due tokens exist |
| Reminders.WeekTokens | app/jobs/sweeps.py:173-174 | two overdue days share a token if and only if they share a Monday-to-Sunday week (section 4.1.4 of ISO 8601:2004) |
| Reminders.WeekNumber | app/jobs/sweeps.py:173-174 | ISO week numbering: week 1 is the week of 4 January, each Monday adds one, until the week of the next 4 January |
| Reminders.OverdueToken | app/jobs/sweeps.py:173-174 | every day after the due date has a token, and it is the ISO week of that day and no other |
| Reminders.OverdueSameWeek | app/jobs/sweeps.py:173-174 | two overdue days of a deadline have the same token if and only if they lie in one Monday-to-Sunday week |
| Reminders.NotchExactly | app/jobs/sweeps.py:160-174 | a token is due if and only if today lies in its window: the days of a threshold, or its week once the due date is past |
| Reminders.TokenReach | app/jobs/sweeps.py:160-174 | one token of one deadline can come up again only within 59 days |
| Sweeps.SweepEscalations | app/jobs/sweeps.py:107-152 | the whole new state: every case swept, exactly the nag and breach rows enqueued |
| Sweeps.SendReminders | app/jobs/sweeps.py:189-223 | the whole new state of the reminder sweep; `SweepEffects.RemindAdds` and `SweepEffects.EveryoneReminded` say which rows that are |
| SweepEffects.SweptExactly | app/jobs/sweeps.py:131-152 | the sweep on the cases: open ones past their deadline breached, open ones before it marked nagged today, no other column and no other table but the outbox changed |
| SweepEffects.SweepAdds | app/jobs/sweeps.py:131-152 | every row it adds, all columns: a breach notice of priority 0 or a nag of priority 50 of an open case to an address of its company, due at once; no row is changed |
| SweepEffects.RemindAdds | app/jobs/sweeps.py:189-223 | every row the reminder sweep adds, all columns: a reminder of priority 100 of an open deadline with a token due today, to an address of its company, due at once; nothing else is changed |
| SweepEffects.EveryoneReminded | app/jobs/sweeps.py:189-223 | after the sweep the table holds the message of the token due today for every open deadline at every address of an active OWNER or MANAGER of its company |
| SweepEffects.OverdueReminded | app/jobs/sweeps.py:189-223 | in particular that of the current ISO week for every open overdue deadline |
| KeyHistory.SweepEver | app/jobs/sweeps.py:107-152 | the keys ever used after an escalation sweep are the old ones and the sweep's set: open cases crossed with recipients and channels, breach past the deadline, else one nag per day |
| KeyHistory.RemindEver | app/jobs/sweeps.py:189-223 | the keys ever used after a reminder sweep are the old ones and its set: open deadlines, the threshold window or ISO week of today, today's recipients and channels |
| KeyHistory.RemindTwice | app/jobs/sweeps.py:62-92 | a second reminder sweep on the same day changes nothing |
| KeyHistory.SweepTwice | app/jobs/sweeps.py:141-152 | a second escalation sweep on the same day changes nothing unless a deadline passed in between |
| QueueInvariant.EnqueueAllKeeps | app/jobs/sweeps.py:62-92 | enqueuing keeps dedup keys unique over all rows ever committed, pruned ones included |
| QueueInvariant.ReminderNeverRemoved | app/jobs/dsgvo.py:58-67 | no later reminder sweep can regenerate a removed key |
| QueueInvariant.NagNeverRemoved | app/jobs/dsgvo.py:58-67 | no later sweep can regenerate a removed nag key |
| QueueInvariant.BreachNeverRemoved | app/jobs/dsgvo.py:58-67 | nor the breach key of a case not yet breached |
| QueueInvariant.E6NeverRemoved | app/jobs/dsgvo.py:58-67 | nor any key of a later E6 call, which never collides with a committed one |
| QueueSteps.ExpiredIsOutOfReach | app/jobs/dsgvo.py:58-67 | the instant test of the prune is exactly the civil-day test, and what passes it was created more than 672 civil days ago |
| QueueSteps.PruneKeepsQueue | app/jobs/dsgvo.py:58-67 | pruning removes only rows whose keys are out of reach and forgets none of them |
| QueueSteps.EscalationSweepKeepsQueue | app/jobs/sweeps.py:107-152 | the escalation sweep keeps the outbox invariant |
| QueueSteps.ReminderSweepKeepsQueue | app/jobs/sweeps.py:189-223 | the reminder sweep keeps the outbox invariant |
| QueueSteps.EscalationKeepsQueue | app/services/e6.py:157-185 | an E6 broadcast keeps the outbox invariant |
| Relay.SelectBatch | app/jobs/relay.py:64-78 | a batch of at most 50 rows with `sent_at` and `dead_lettered_at` null and `next_attempt_at` reached, none locked by another cycle, by priority and then `created_at`; a due unlocked row is left out only of a full batch, and none that belongs before a picked one |
| Relay.RecordFailure | app/jobs/relay.py:104-137 | attempts counted, backoff on the Berlin wall clock, dead letter with its CRITICAL alert at the fifth failure |
| Relay.RelayOutbox | app/jobs/relay.py:56-98 | for any replies: such a batch is claimed; if no send crashes every row is committed as its own reply left it, otherwise the whole database is as before |
| RelayProgress.CycleRows | app/jobs/relay.py:80-98 | each claimed row ends as its own reply says, every other row is untouched |
| RelayProgress.AcceptedRow | app/jobs/relay.py:88-90 | an acceptance sets `sent_at` and the receipt and nothing else |
| RelayProgress.RejectedRow | app/jobs/relay.py:104-133 | a rejection adds one attempt; the first four wait 60, 300, 1800 and 7200 s, the fifth dead-letters the row and raises one CRITICAL alert of its company; nothing else changes |
| RelayProgress.RetriedWhenDue | app/jobs/relay.py:64-78 | a row rejected for the n-th time, n below five, is in a batch that is not full and finds it unlocked if and only if its wait is over |
| RelayProgress.Drain | app/jobs/relay.py:64-98 | n failure-free cycles leave exactly max(0, k - 50 n) of the k rows that are unsent, not dead-lettered and due, while no further row comes due |
| RelayProgress.BackoffKept | app/jobs/relay.py:132-133 | the next attempt comes before its backoff is over exactly after a failure in one window of the year: for the short backoffs the second pass of the repeated autumn hour, up to the backoff before its end; for the two hours the hour before the spring switch |
| RelayProgress.DeadLetterTime | app/jobs/relay.py:33-34 | a dead letter comes at least 9360 s after the first failed send when no switch shortens a wait, and at least 3600 s after in any case |
| RelayProgress.DeadLetterEarly | app/jobs/relay.py:33-34 | concrete failure: five sends on the morning of 29 March 2026 keep every rule and die after 5760 s |
| CycleSteps.ClaimKeepsRelay | app/jobs/relay.py:64-78 | claiming keeps claimed sets disjoint and every row in one delivery state |
| CycleSteps.SendKeepsRelay | app/jobs/relay.py:80-97 | an answered send keeps the count of normal returns within aborts plus one |
| CycleSteps.CommitKeepsRelay | app/jobs/relay.py:98 | committing one of several overlapping cycles keeps the others' claims intact |
| CycleSteps.AbortKeepsRelay | app/jobs/relay.py:62-98 | aborting a cycle at any point keeps every count |
| CycleSteps.CommitDeadLetters | app/jobs/relay.py:108-124 | a commit keeps the number of dead-letter alerts equal to the number of dead-lettered rows, per company |
| StepEffects.SendStep | app/jobs/relay.py:80-97 | a send as a step: a withheld SMS is staged as sent without the provider and its company is told, any other row is staged as the provider's answer leaves it; only the notice is committed |
| StepEffects.CycleStep | app/jobs/relay.py:62-98 | claiming opens a transaction that has done nothing, committing writes exactly its staged rows and alerts, aborting leaves the database alone |
| SmsQuota.RecordSkip | app/notifiers/sms_quota.py:60-88 | adds the WARNING unless the company has one since the start of the month |
| SmsQuota.Send | app/notifiers/seven.py:57-70 | only a non-critical SMS over the limit is answered with the sentinel, and exactly then the skip is recorded |
| SmsQuota.MonthWindow | app/notifiers/sms_quota.py:29-31 | an instant is at or after the month start if and only if its Berlin month is that month or later |
| SmsQuota.GateExactly | app/notifiers/sms_quota.py:44-58 | a send is withheld if and only if it is the SMS of a nag or a reminder and its company already has as many SMS sent in the Berlin month as the cap |
| SmsQuota.AnnouncedExactly | app/notifiers/sms_quota.py:60-88 | one WARNING of the company is added if and only if it has none of this Berlin month |
| SmsBudget.SmsBudgetHolds | app/notifiers/sms_quota.py:44-88 | over any run with one relay the non-critical SMS on record as really sent never exceed cap + 49 per company and Berlin month, 0 when the cap is 0, and the cap is announced at most once per company and month; the bound holds of all rows ever committed if no prune removes a row in the month it was sent |
| SmsBudget.LetThrough | app/notifiers/seven.py:60-70 | whenever the gate lets a non-critical SMS through, the really sent ones of its month are below the cap, also across a month boundary |
| AccountServices.Signup | app/services/auth.py:115-148 | company, OWNER and session together, or nothing when the address is taken |
| AccountServices.FinishLogin | app/services/auth.py:270-283 | the last login transaction, which trusts credentials verified earlier |
| AccountServices.CreateInvitation | app/services/auth.py:346-369 | an invitation for any role but OWNER |
| AccountServices.AcceptInvitation | app/services/auth.py:372-396 | the account and the spent invitation together, or nothing |
| AccountServices.AcceptInTime | app/services/auth.py:372-396 | an acceptance that writes after it read keeps erased companies silent if and only if its company is not erased by then; otherwise the erased company gets an active user whose session is admitted |
| AccountServices.EraseKeeps | app/services/dsgvo.py:52-88 | erasure keeps the account invariant: addresses stay unique, erased companies have nobody active |
| AccountServices.ErasedIsSilent | app/deps.py:69-84 | an erased company has nobody to notify and no admitted session, not even one created by a login that spans the erasure |
| AccountServices.RehashAfterErasure | app/services/auth.py:270-281 | a login spanning the erasure restores a password exactly when it rehashes, yet the user stays inactive and the new session is never admitted |
| AccessEffects.Gate | app/deps.py:60-84 | a request without a session that is live and of an active user, or beyond the role of its caller, changes nothing: a VIEWER nothing at all, a MANAGER no invitation, deletion request or driver erasure |
| AccessEffects.SignedUpExactly | app/services/auth.py:115-148 | signing up row by row: company with 12 months of retention, active OWNER, session of fourteen days; nothing when the address is taken |
| AccessEffects.InvitedExactly | app/services/auth.py:346-369 | an invitation of the company for any role but OWNER, good for 72 hours |
| AccessEffects.AcceptedExactly | app/services/auth.py:372-396 | the account of the invited company, address and role, and the spent invitation, if and only if the invitation is unspent and not expired and nobody has the address |
| AccessEffects.DeletionRequestedExactly | app/web/dsgvo.py:120-128 | the first request for deletion stands |
| AccessEffects.LoginExactly | app/services/auth.py:268-283 | a login adds one session of fourteen days for credentials verified while the user was active, or for an acceptance that created the account |
| AccessEffects.RequestConfined | app/deps.py:60-84 | a request changes rows of its caller's company only, table by table, whatever ids the client sends |
| Dsgvo.AnonymizeDriver | app/services/dsgvo.py:33-40 | names scrubbed once, the row kept |
| Dsgvo.AnonymizeExpiredDrivers | app/jobs/dsgvo.py:32-55 | exactly the drivers past retention are scrubbed, and counted; `Dsgvo.PurgedExactly` says who they are |
| Dsgvo.PurgedExactly | app/jobs/dsgvo.py:32-55 | a driver not yet anonymised is scrubbed if and only if the end of employment plus the company's months (12 without a company), on the calendar, lies before today; every other driver is unchanged |
| Dsgvo.PruneOldOutbox | app/jobs/dsgvo.py:58-67 | exactly the rows older than 24 months leave the table, and are counted |
| Dsgvo.PrunedExactly | app/jobs/dsgvo.py:58-67 | a row leaves the table if and only if it was created before the Berlin day 24 calendar months ago; no other row is touched |
| Dsgvo.TombstoneCompany | app/services/dsgvo.py:52-88 | the whole new state of an erasure, evidence and alerts untouched |
| Dsgvo.TombstoneDeletedCompanies | app/jobs/dsgvo.py:70-85 | the whole new state of the job; `ErasureEffects.JobExactly` says whom it erases and what that does |
| ErasureEffects.TombstoneExactly | app/services/dsgvo.py:52-88 | an erasure row by row: company and driver names gone, users deactivated and unreachable, sessions revoked, invitations spent, messages removed; evidence, obligations, cases, alerts and every other company untouched |
| ErasureEffects.JobExactly | app/jobs/dsgvo.py:70-85 | a company is erased by the job if and only if its request lies more than 30 wall-clock days back and it is not erased yet; every other company is untouched in every table |
| ErasureEffects.GraceInstants | app/jobs/dsgvo.py:72 | on the instant line the grace period is thirty days to within an hour |
| StepEffects.PurgeStep | app/jobs/dsgvo.py:32-55 | the purge as a step of the running system: exactly the drivers past retention, nothing else in the database |
| StepEffects.PruneStep | app/jobs/dsgvo.py:58-67 | the prune as a step: exactly the rows created before the Berlin day 24 calendar months ago, nothing else |
| StepEffects.TombstoneStep | app/jobs/dsgvo.py:70-85 | the erasure job as a step: exactly the companies past their grace period, every other one untouched |
| Throttle.LoginThrottle.AssertNotLocked | app/services/auth.py:189-194 | refuses if and only if the pair has a `locked_until` after now, with the whole seconds left |
| Throttle.LoginThrottle.RecordFailure | app/services/auth.py:197-207 | one failure more, and from the fifth on a lock of 900 wall-clock seconds |
| Throttle.LoginThrottle.ResetFailures | app/services/auth.py:210-219 | zeroes the row of the pair and no other |
| Throttle.LoginThrottle.Login | app/services/auth.py:240-283 | refused if and only if a `locked_until` lies after the check, with the whole seconds left and the row untouched; otherwise logged in if and only if the password is good, with the count back to zero; otherwise told wrong, with one failure more on the row; other pairs are untouched |
| Throttle.VerificationBound | app/services/auth.py:189-207 | without a success at most 5 + floor(T / 900) passwords of a pair are verified within T seconds of its first failure, as long as every lock that is written holds |
| Throttle.LockHoldsExactly | app/services/auth.py:205-206 | a lock lasts its fifteen minutes unless it is written in the first three quarters of the second pass of the repeated autumn hour, and only then not |
| Throttle.LockLostInAutumn | app/services/auth.py:205-206 | concrete failure: in the second pass of the repeated autumn hour the lock ends before it begins |
| Throttle.FloodVerified | app/services/auth.py:189-207 | concrete failure of the bound: at any instant whose lock does not hold, any number of wrong passwords are all verified |
| Throttle.SuccessStartsAfresh | app/services/auth.py:210-219 | after a success the pair is treated, whatever follows, like one never seen |
| Throttle.CountsFromOne | app/services/auth.py:210-219 | after a success the next wrong password is counted as the first |
| Throttle.FiveTries | app/services/auth.py:189-207 | five wrong passwords of a new pair are told wrong whenever they come, and the next try is refused if and only if the fifteen minutes from the fifth are not over |
| SystemInvariant.TransactedKeepsDb | app/web/drivers.py:88-184 | every request and every job keeps the database invariant |
| StepEffects.RequestSteps | app/deps.py:60-84 | a request of an entitled caller does what its service does, for the company and user of the session; erasing a driver scrubs the name once, of a visible driver only |
| StepEffects.ServiceSteps | app/jobs/sweeps.py:107-223 | the sweeps, signup, acceptance and login are the services' own steps; verifying credentials and reading an invitation write nothing |
| RelaySteps.QuietRelay | app/jobs/relay.py:62-98 | requests and jobs in between leave every cycle in flight intact |
| QuietSteps.TransactedQuiet | app/jobs/relay.py:76 | no request or job touches a claimed row, changes a committed row, or raises a dead-letter alert |
| SystemRuns.StepKeeps | README.md:76-81 | every step of the running system, relay steps included, keeps its invariant; checks of different subjects may overlap |
| SystemRuns.RunKeeps | README.md:76-81 | every world of every run satisfies it, whatever the interleaving |
| SystemRuns.EmptyOk | README.md:76-81 | the empty system satisfies it, so runs start somewhere |
| Guarantees.Conservation | app/jobs/relay.py:62-137 | in every reachable world every row ever committed is exactly one of pending, sent, dead-lettered after five attempts; dead-letter alerts equal dead-lettered rows per company |
| Guarantees.RemovedRows | app/jobs/dsgvo.py:58-67 | a row is missing from the table only if it is older than 24 months, and then out of reach of every dedup key, or if its company has been erased |
| Guarantees.RelaySafety | app/jobs/relay.py:62-98 | with any number of cycles: claimed sets pairwise disjoint; a sent row had a normal return; normal returns at most 1 plus the aborted cycles that had claimed the row |
| Guarantees.CriticalFirst | app/jobs/relay.py:72-76 | no cycle picks a nag or a reminder while leaving a due, unlocked E6 message or breach notice behind |
| Guarantees.CommittedCycleWorks | app/jobs/relay.py:80-137 | committing any cycle of a running system lowers the sum of (5 - attempts) over the pending rows by at least the size of its batch, whatever other cycles, requests and jobs did meanwhile |
| Guarantees.RowPromises | app/jobs/relay.py:104-137 | a row that has not failed is due from its creation; dead letters respect the backoff times; critical templates and e-mails are never withheld |
| Guarantees.LockEqualsEvidence | README.md:20-24 | in every reachable world a driver may drive if and only if the chain is empty or ends in PASSED; a locked driver has an open or breached case with its CRITICAL alert and one row on record per address it told |
| Guarantees.OneOpenCase | app/models.py:299-308 | an open case means a locked driver, and no driver has two |
| Guarantees.FailedCheckLocks | app/web/drivers.py:153-162 | in every reachable world a FAILED check by an entitled caller goes through, ends the chain with the day on the form, and leaves the driver locked with an open case |
| Guarantees.PassedCheckUnlocks | app/web/drivers.py:163-182 | in every reachable world a check with any other result by an entitled caller goes through: the driver may drive, no case is open, the chain ends in PASSED on the day of the form, and the one open obligation is completed on that day with a successor six calendar months on |
| Guarantees.TenantIsolation | README.md:92 | in every reachable world a request of an admitted session changes rows of its own company only, adds rows of that company only, and neither changes nor removes a message, an alert or an entry of evidence |
| Guarantees.CallerIsTold | README.md:20-24 | whoever recorded the failed check is among those a fresh escalation tells |
| Guarantees.DeadlineConservation | app/services/checks.py:200-306 | every subject always has exactly one OPEN deadline per kind, and COMPLETED ones count exactly the completing checks of its chain |
| Guarantees.SuccessorsFollowChecks | app/services/checks.py:206-213 | in every reachable world the n-th completing check closed the n-th deadline on its own day, and the next one is due half a year on for FSK, a year on for UVV, after 28 days and as a Nachprüfung for an HU failed with defects, otherwise on the last day of the month the interval on |
| Guarantees.EvidenceSound | README.md:78 | in every reachable log hashes are distinct and links resolve |
| Guarantees.NagWindow | app/jobs/sweeps.py:144-152 | nags of a case are dated D to D+7 and one address gets at most eight |
| StepHistory.StepGrows | README.md:76-81 | one step only adds: evidence, cases, rows and erasures are never undone |
| StepHistory.BreachExactly | app/jobs/sweeps.py:134-143 | an open case turns BREACHED in a step exactly when the step is a sweep after its deadline |
| RunHistory.RunGrows | README.md:76-81 | along any run the log is only appended to, resolved and breached cases stay so, sent and dead-lettered rows never change |
| RunHistory.TombstoneIsFinal | app/services/dsgvo.py:52-88 | once a company is erased, in every later world its users are inactive and unreachable, its drivers nameless, no invitation is open, no row queued, no session admitted, and each evidence chain is unchanged and well linked |
| RunHistory.EverKeysExact | app/jobs/sweeps.py:62-101 | the dedup keys of all rows ever committed are exactly those of the start and those the steps of the run staged, as a set |
| RunHistory.OneRowPerKey | app/models.py:387-388 | one row per key, over the whole history |
| RunHistory.ClosedIsQuiet | app/jobs/sweeps.py:114-119 | after breach or resolution no step stages a nag or breach notice for the case |
| RunHistory.BreachedByFirstLateSweep | app/jobs/sweeps.py:134-143 | an open case is breached later if and only if a sweep in between found it open after its deadline |

## Left out

- FleetSystem.Enabled: logins and acceptances are two steps each; all other requests and jobs are single atomic steps, so races between their statements are not modelled: a check admitted before its company is erased and written after, two sweeps skipping each other's locked cases, two relays raising the same cap alert. A sweep begins and reads the clock at one instant.
- RunHistory.TombstoneIsFinal: is shown of runs in which no acceptance read before an erasure is written after it, which AccountServices.AcceptInTime shows to be exactly what is needed.
- Relay.Raises: a dead-letter alert is stamped with the instant of the failed send, not with the start of the relay's transaction; nothing reads the stamp.
- Evidence.TamperEvidence: the hash does not cover `id`, `created_at` and `performed_by_id`, so nothing is claimed for them; `extra_params`, which no caller passes, is not a field.
- DedupText.KeyTextInjective: UUIDs are numbers; that a key fits its 120 characters is assumed.
- Calendar.PlusMonthsExact: years are unbounded, where Python raises outside years 1 to 9999.
- Json.EncodeInjective: strings hold Unicode scalar values; a lone surrogate, which a Python string may carry, is not representable.
- The EU summer-time rule is applied to all years; time-zone history before it is not modelled.
- Logout, session refresh, `last_login_at`, `last_error` and e-mail normalisation: no property depends on them; form fields arrive stripped and parsed.
- `RESOLVED_REMOVED`, `SUPERSEDED`, retention months other than the stored ones, and `employment_end` are never written by the application; the invariant holds of databases that contain them.
- Row-level security, grants, triggers and unique indexes appear through their effect on each operation, not as policy text.
- Message texts, templates, Kennzeichen validation, dashboards, exports, settings, the scheduler, heartbeats, health checks, backup and deployment: no hard property.
- Argon2, tokens and cookies: a credential check is a yes or no.
