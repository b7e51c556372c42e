/** Staging rows in the transactional outbox: recipients, channels and the unique dedup key. */
module Outbox {
  import opened Wrappers
  import BerlinTime
  import opened Records

  // ----- recipients (app/services/recipients.py) -----

  datatype Recipient = Recipient(email: string, phone: Option<string>)

  function MailText(m: Mail): string {
    match m
    case Routable(text) => text
    case Erased(_) => "geloescht@invalid.local"
  }

  predicate Notified(u: User, company: nat) {
    u.company == company && u.role != VIEWER && u.active
  }

  /** `resolve_recipients`: the active OWNER and MANAGER users of a company. */
  function ResolveRecipients(users: seq<User>, company: nat): seq<Recipient> {
    if users == [] then []
    else
      var u := users[|users| - 1];
      ResolveRecipients(users[..|users| - 1], company) +
      if Notified(u, company) then [Recipient(MailText(u.email), u.phone)] else []
  }

  /** The addresses one recipient is reached at: an empty string is no address. */
  function Channels(r: Recipient): seq<Address> {
    (if r.email != "" then [Address(EMAIL, r.email)] else []) +
    (if r.phone.Some? && r.phone.value != "" then [Address(SMS, r.phone.value)] else [])
  }

  function Addresses(recipients: seq<Recipient>): seq<Address> {
    if recipients == [] then []
    else Addresses(recipients[..|recipients| - 1]) + Channels(recipients[|recipients| - 1])
  }

  function AddressesOf(users: seq<User>, company: nat): seq<Address> {
    Addresses(ResolveRecipients(users, company))
  }

  /** `_channels` as the list-building loop. */
  method ChannelList(r: Recipient) returns (list: seq<Address>)
    ensures list == Channels(r)
  {
    list := [];
    if r.email != "" {
      list := list + [Address(EMAIL, r.email)];
    }
    if r.phone.Some? && r.phone.value != "" {
      list := list + [Address(SMS, r.phone.value)];
    }
  }

  /** The e-mail address and the phone number where they are not empty, e-mail first. */
  lemma ChannelsExactly(r: Recipient, a: Address)
    ensures a in Channels(r) <==> a.text != "" && (a == Address(EMAIL, r.email) || (a.channel == SMS && r.phone == Some(a.text)))
    ensures |Channels(r)| <= 2 && (|Channels(r)| == 2 ==> Channels(r)[0].channel == EMAIL && Channels(r)[1].channel == SMS)
  {
  }

  // ----- rows -----

  function NewRow(company: nat, template: Template, priority: int, key: DedupKey, clock: Clock): OutboxRow {
    OutboxRow(company, template, priority, key, clock.began, BerlinTime.BerlinDay(clock.began), 0, clock.began, None, None, None, [])
  }

  predicate KeyTaken(outbox: map<nat, OutboxRow>, key: DedupKey) {
    exists id | id in outbox :: outbox[id].key == key
  }

  /** The unique constraint on dedup_key, against the table and within the batch itself. */
  predicate Collides(outbox: map<nat, OutboxRow>, rows: seq<OutboxRow>) {
    || (exists i | 0 <= i < |rows| :: KeyTaken(outbox, rows[i].key))
    || (exists i, j | 0 <= i < j < |rows| :: rows[i].key == rows[j].key)
  }

  /** `add_all`: the batch takes the next serial numbers. */
  function Append(q: Queue, rows: seq<OutboxRow>): Queue {
    if rows == [] then q
    else
      var p := Append(q, rows[..|rows| - 1]);
      p.(outbox := p.outbox[p.nextRow := rows[|rows| - 1]], nextRow := p.nextRow + 1)
  }

  /** `_enqueue_unique`: insert unless the key already exists. */
  function EnqueueUnique(q: Queue, row: OutboxRow): Queue {
    if KeyTaken(q.outbox, row.key) then q
    else q.(outbox := q.outbox[q.nextRow := row], nextRow := q.nextRow + 1)
  }

  function EnqueueAll(q: Queue, rows: seq<OutboxRow>): Queue {
    if rows == [] then q
    else EnqueueUnique(EnqueueAll(q, rows[..|rows| - 1]), rows[|rows| - 1])
  }

  /** One row per address. */
  function RowsFor(told: seq<Address>, make: Address -> OutboxRow): (rows: seq<OutboxRow>)
    ensures |rows| == |told|
    ensures forall i | 0 <= i < |told| :: rows[i] == make(told[i])
  {
    seq(|told|, i requires 0 <= i < |told| => make(told[i]))
  }

  lemma {:induction false} EnqueueConcat(q: Queue, a: seq<OutboxRow>, b: seq<OutboxRow>)
    ensures EnqueueAll(EnqueueAll(q, a), b) == EnqueueAll(q, a + b)
  {
    if b == [] {
      assert a + b == a;
    } else {
      var n := |b| - 1;
      EnqueueConcat(q, a, b[..n]);
      assert (a + b)[..|a + b| - 1] == a + b[..n];
    }
  }

  /** The keys in the table after a batch: what was there, and the batch. */
  lemma {:induction false} EnqueueAllKeys(q: Queue, rows: seq<OutboxRow>, key: DedupKey)
    requires forall id | id in q.outbox :: id < q.nextRow
    ensures forall id | id in EnqueueAll(q, rows).outbox :: id < EnqueueAll(q, rows).nextRow
    ensures KeyTaken(EnqueueAll(q, rows).outbox, key) <==>
      KeyTaken(q.outbox, key) || exists i :: 0 <= i < |rows| && rows[i].key == key
  {
    if rows != [] {
      var n := |rows| - 1;
      var mid := EnqueueAll(q, rows[..n]);
      EnqueueAllKeys(q, rows[..n], key);
      EnqueueUniqueKeys(mid, rows[n], key);
    }
  }

  lemma EnqueueUniqueKeys(q: Queue, row: OutboxRow, key: DedupKey)
    requires forall id | id in q.outbox :: id < q.nextRow
    ensures KeyTaken(EnqueueUnique(q, row).outbox, key) <==> KeyTaken(q.outbox, key) || row.key == key
  {
    var p := EnqueueUnique(q, row);
    if KeyTaken(q.outbox, key) {
      var id :| id in q.outbox && q.outbox[id].key == key;
      assert id in p.outbox && p.outbox[id].key == key;
    } else if row.key == key && !KeyTaken(q.outbox, row.key) {
      assert p.outbox[q.nextRow].key == key;
    }
  }
}
