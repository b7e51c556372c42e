/** The tables of app/models.py as values, and the session object whose fields the services assign.

    A row's primary key is its index in its table; outbox rows, the only rows ever deleted, are
    keyed by a serial number. `archive` and `triggers` are history: the last version of every
    deleted outbox row, and how many E6 trigger ids have been drawn so far. */
module Records {
  import opened Wrappers
  import opened Calendar
  import opened BerlinTime

  /** One reading of the clock: an instant, the Berlin civil day it falls on, and when the transaction
      that reads it began, which is what the database stamps `created_at` with. */
  datatype Clock = Clock(now: Instant, today: Day, began: Instant) {
    predicate Valid() { today == BerlinDay(now) && began <= now }

    /** The reading of a job that takes no time. */
    predicate Frozen() { Valid() && began == now }
  }

  // ----- tenancy and users -----

  datatype Company = Company(name: string, retentionMonths: int,
                             deletionRequestedAt: Option<Instant>, deletedAt: Option<Instant>)

  datatype Role = OWNER | MANAGER | VIEWER

  /** An e-mail address; the one an erased user gets embeds the user's id and is never registered. */
  datatype Mail = Routable(text: string) | Erased(user: nat)

  datatype User = User(company: nat, email: Mail, role: Role, phone: Option<string>,
                       active: bool, hasPassword: bool)

  datatype UserSession = UserSession(user: nat, company: nat, expiresAt: Instant, revokedAt: Option<Instant>)

  datatype Invitation = Invitation(company: nat, email: string, role: Role, expiresAt: Instant, acceptedAt: Option<Instant>)

  // ----- drivers, vehicles, obligations -----

  datatype Driver = Driver(company: nat, firstName: string, lastName: string,
                           employmentEnd: Option<Day>, anonymizedAt: Option<Instant>,
                           authorized: bool, lockReason: Option<string>, lockedAt: Option<Instant>, version: nat)

  datatype Vehicle = Vehicle(company: nat, huInterval: int)

  /** `Stranger` stands for a vehicle id sent by a client that belongs to no vehicle row. */
  datatype Subject = OfDriver(driver: nat) | OfVehicle(vehicle: nat) | Stranger(id: nat)

  datatype Kind = HU | UVV | FSK

  datatype DeadlineStatus = DeadlineOpen | DeadlineCompleted | DeadlineSuperseded

  datatype Deadline = Deadline(company: nat, kind: Kind, subject: Subject, dueOn: Day, status: DeadlineStatus,
                               completedOn: Option<Day>, nachpruefung: bool)

  datatype CaseStatus = CaseOpen | ResolvedPassed | ResolvedRemoved | Breached

  /** `openedOn` is the Berlin day of creation; `trigger` and `told` are history: E6's trigger id and
      the addresses it wrote to. */
  datatype EscalationCase = EscalationCase(company: nat, driver: nat, status: CaseStatus, deadlineAt: Instant,
                                           resolvedAt: Option<Instant>, lastNagOn: Option<Day>,
                                           openedOn: Day, trigger: nat, told: seq<Address>)

  // ----- ledgers -----

  datatype Severity = INFO | WARNING | CRITICAL

  datatype AlertCode = FskFailedLock | NotificationUndeliverable | SmsCapExceeded

  datatype Alert = Alert(company: nat, severity: Severity, code: AlertCode, driver: Option<nat>, escalation: Option<nat>, createdAt: Instant)

  datatype LogEntry = LogEntry(id: nat, createdAt: Instant, company: nat, subject: Subject, kind: string, result: string,
                               performedOn: Day, means: Option<string>, prevHash: Option<string>, entryHash: string)

  // ----- transactional outbox -----

  datatype Channel = EMAIL | SMS

  datatype Address = Address(channel: Channel, text: string)

  datatype Template = FskFailedCritical | EscalationBreached | EscalationNag | DeadlineReminder

  /** The dedup token of a reminder: a crossed threshold or the ISO week of an overdue day. */
  datatype Token = Threshold(days: int) | OverdueWeek(isoYear: int, isoWeek: int)

  datatype DedupKey =
    | E6Key(trigger: nat, to: Address)
    | BreachKey(escalation: nat, to: Address)
    | NagKey(escalation: nat, on: Day, to: Address)
    | ReminderKey(deadline: nat, token: Token, to: Address)

  /** What a normal return of `send` hands back. */
  datatype Receipt = Delivered(id: string) | SkippedByCap

  /** `createdOn` is the Berlin day of `createdAt`; `failedAt` is history, the instants of the
      committed failed sends. */
  datatype OutboxRow = OutboxRow(company: nat, template: Template, priority: int, key: DedupKey,
                                 createdAt: Instant, createdOn: Day,
                                 attempts: nat, nextAttemptAt: Instant, sentAt: Option<Instant>,
                                 deadLetteredAt: Option<Instant>, receipt: Option<Receipt>, failedAt: seq<Instant>)
  {
    predicate Pending() { sentAt.None? && deadLetteredAt.None? }
    function Via(): Channel { key.to.channel }
  }

  datatype Accounts = Accounts(companies: seq<Company>, users: seq<User>, sessions: seq<UserSession>,
                               invitations: seq<Invitation>)

  datatype Fleet = Fleet(drivers: seq<Driver>, vehicles: seq<Vehicle>, deadlines: seq<Deadline>,
                         cases: seq<EscalationCase>, log: seq<LogEntry>)

  datatype Queue = Queue(outbox: map<nat, OutboxRow>, nextRow: nat, archive: map<nat, OutboxRow>, triggers: nat)

  datatype Db = Db(accounts: Accounts, fleet: Fleet, alerts: seq<Alert>, queue: Queue)

  /** A database session: the services assign its tables, `State` is all of them as one value. */
  class Session {
    var accounts: Accounts
    var fleet: Fleet
    var alerts: seq<Alert>
    var queue: Queue

    function State(): Db
      reads this
    {
      Db(accounts, fleet, alerts, queue)
    }

    constructor (db: Db)
      ensures State() == db
    {
      accounts, fleet, alerts, queue := db.accounts, db.fleet, db.alerts, db.queue;
    }

    /** Rolling back to a savepoint restores every table. */
    method RollbackTo(savepoint: Db)
      modifies this
      ensures State() == savepoint
    {
      accounts, fleet, alerts, queue := savepoint.accounts, savepoint.fleet, savepoint.alerts, savepoint.queue;
    }
  }
}
