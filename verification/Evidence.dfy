/** The hash-chained evidence log of app/services/checks.py.

    `sha` stands for SHA-256 (section 6.2 of FIPS 180-4). Where collision-freeness matters it is an
    explicit hypothesis. Many chains are interleaved in one append-only log; a chain is the entries
    of one subject that one company's reads can see. */
module Evidence {
  import opened Wrappers
  import opened Calendar
  import opened BerlinTime
  import opened Records
  import opened Text
  import J = Json

  type Digest = string -> string

  /** No two texts collide and no digest is the empty string. */
  ghost predicate CollisionFree(sha: Digest) {
    && (forall x, y :: sha(x) == sha(y) ==> x == y)
    && (forall x :: sha(x) != "")
  }

  // ----- the hashed material -----

  /** The eight hashed fields; `params` is derived from the subject. */
  datatype Fields = Fields(company: nat, subject: Subject, kind: string, result: string, performedOn: Day, means: Option<string>)

  function FieldsOf(e: LogEntry): Fields {
    Fields(e.company, e.subject, e.kind, e.result, e.performedOn, e.means)
  }

  function DriverText(s: Subject): Option<string> {
    if s.OfDriver? then Some(NatText(s.driver)) else None
  }

  /** Ids of vehicle rows and of no row are different texts. */
  function VehicleText(s: Subject): Option<string> {
    match s
    case OfDriver(_) => None
    case OfVehicle(v) => Some("v" + NatText(v))
    case Stranger(n) => Some("s" + NatText(n))
  }

  function Nullable(o: Option<string>): J.Value {
    if o.Some? then J.Str(o.value) else J.Null
  }

  function Params(s: Subject): J.Value {
    J.Obj(if s.OfDriver? then J.End else J.Member("vehicle_id", Nullable(VehicleText(s)), J.End))
  }

  function PrevText(prev: Option<string>): string {
    if prev.Some? then prev.value else ""
  }

  /** The entry as a JSON object with its members in key order. */
  function Entry(prev: Option<string>, f: Fields): J.Value {
    J.Obj(
      J.Member("company_id", J.Str(NatText(f.company)),
      J.Member("driver_id", Nullable(DriverText(f.subject)),
      J.Member("kind", J.Str(f.kind),
      J.Member("method", Nullable(f.means),
      J.Member("params", Params(f.subject),
      J.Member("performed_on", J.Str(IsoText(f.performedOn)),
      J.Member("prev", J.Str(PrevText(prev)),
      J.Member("result", J.Str(f.result),
      J.Member("vehicle_id", Nullable(VehicleText(f.subject)), J.End))))))))))
  }

  /** One `"key":value` of a JSON text. */
  function Pair(key: string, value: string): string {
    J.Quote(key) + ":" + value
  }

  /** The hashed text: nine members in ascending key order without a space, `null` for what there is not. */
  lemma EntryText(prev: Option<string>, f: Fields)
    ensures var driver := if f.subject.OfDriver? then J.Quote(NatText(f.subject.driver)) else "null";
      var vehicle := if f.subject.OfDriver? then "null" else J.Quote(VehicleText(f.subject).value);
      J.Encode(Entry(prev, f)) ==
      "{" + (Pair("company_id", J.Quote(NatText(f.company)))
      + ("," + (Pair("driver_id", driver)
      + ("," + (Pair("kind", J.Quote(f.kind))
      + ("," + (Pair("method", if f.means.Some? then J.Quote(f.means.value) else "null")
      + ("," + (Pair("params", if f.subject.OfDriver? then "{}" else "{" + (Pair("vehicle_id", vehicle) + "}"))
      + ("," + (Pair("performed_on", J.Quote(IsoText(f.performedOn)))
      + ("," + (Pair("prev", J.Quote(if prev == None then "" else prev.value))
      + ("," + (Pair("result", J.Quote(f.result))
      + ("," + (Pair("vehicle_id", vehicle) + "}")))))))))))))))))
  {
    hide NatText, IsoText, J.Quote, J.Encode, J.EncodeMembers, Params, Nullable, VehicleText, DriverText, Pair;
    SmallTexts(f);
    ParamsText(f.subject);
    MembersText(Entry(prev, f).members);
    MembersText(Entry(prev, f).members.rest.rest.rest);
    MembersText(Entry(prev, f).members.rest.rest.rest.rest.rest.rest);
    assert J.Encode(Entry(prev, f)) == "{" + J.EncodeMembers(Entry(prev, f).members) by { ObjectText(Entry(prev, f).members); }
  }

  lemma ObjectText(m: J.Members)
    ensures J.Encode(J.Obj(m)) == "{" + J.EncodeMembers(m)
  {
  }

  /** Three members at a time. */
  lemma MembersText(m: J.Members)
    requires m.Member? && m.rest.Member? && m.rest.rest.Member?
    ensures J.EncodeMembers(m) ==
            Pair(m.key, J.Encode(m.value)) + ("," + (Pair(m.rest.key, J.Encode(m.rest.value)) +
            ("," + (Pair(m.rest.rest.key, J.Encode(m.rest.rest.value)) + J.EncodeRest(m.rest.rest.rest)))))
  {
    hide J.Quote, J.Encode, J.EncodeMembers;
    OneMember(m);
    OneMember(m.rest);
    OneMember(m.rest.rest);
  }

  lemma OneMember(m: J.Members)
    requires m.Member?
    ensures J.EncodeMembers(m) == Pair(m.key, J.Encode(m.value)) + J.EncodeRest(m.rest)
  {
    hide J.Quote, J.Encode;
  }

  lemma SmallTexts(f: Fields)
    ensures J.Encode(J.Str(NatText(f.company))) == J.Quote(NatText(f.company))
    ensures J.Encode(Nullable(DriverText(f.subject))) == if f.subject.OfDriver? then J.Quote(NatText(f.subject.driver)) else "null"
    ensures J.Encode(Nullable(VehicleText(f.subject))) == if f.subject.OfDriver? then "null" else J.Quote(VehicleText(f.subject).value)
    ensures J.Encode(Nullable(f.means)) == if f.means.Some? then J.Quote(f.means.value) else "null"
    ensures forall s :: J.Encode(J.Str(s)) == J.Quote(s)
  {
    hide J.Quote, NatText;
  }

  lemma ParamsText(s: Subject)
    ensures J.Encode(Params(s)) ==
            if s.OfDriver? then "{}" else "{" + (Pair("vehicle_id", J.Quote(VehicleText(s).value)) + "}")
  {
    hide J.Quote, VehicleText, Pair;
    assert VehicleText(s).Some? <==> !s.OfDriver? by { VehicleNamed(s); }
    if !s.OfDriver? {
      var m := J.Member("vehicle_id", J.Str(VehicleText(s).value), J.End);
      assert Params(s) == J.Obj(m);
      ObjectText(m);
      OneMember(m);
    }
  }

  lemma VehicleNamed(s: Subject)
    ensures VehicleText(s).Some? <==> !s.OfDriver?
  {
  }

  /** `_compute_entry_hash`. */
  function EntryHash(sha: Digest, prev: Option<string>, f: Fields): string {
    sha(J.Encode(Entry(prev, f)))
  }

  lemma SubjectInjective(s: Subject, t: Subject)
    requires DriverText(s) == DriverText(t) && VehicleText(s) == VehicleText(t)
    ensures s == t
  {
    if s.OfDriver? {
      NatTextInjective(s.driver, t.driver);
    } else {
      var a, b := VehicleText(s).value, VehicleText(t).value;
      assert a[0] == b[0] && a[1..] == b[1..];
      if s.OfVehicle? {
        NatTextInjective(s.vehicle, t.vehicle);
      } else {
        NatTextInjective(s.id, t.id);
      }
    }
  }

  /** The hash determines every hashed field and the previous hash. */
  lemma EntryHashInjective(sha: Digest, p: Option<string>, f: Fields, q: Option<string>, g: Fields)
    requires CollisionFree(sha)
    requires p != Some("") && q != Some("")
    requires EntryHash(sha, p, f) == EntryHash(sha, q, g)
    ensures p == q && f == g
  {
    hide NatText, IsoText, J.Encode, DriverText, VehicleText, Params;
    J.EncodeInjective(Entry(p, f), Entry(q, g));
    NatTextInjective(f.company, g.company);
    IsoTextInjective(f.performedOn, g.performedOn);
    SubjectInjective(f.subject, g.subject);
  }

  // ----- chains inside the log -----

  predicate Matches(e: LogEntry, company: nat, subject: Subject) {
    e.company == company && e.subject == subject
  }

  /** The entries of one subject, in the order they were appended. */
  function Chain(log: seq<LogEntry>, company: nat, subject: Subject): seq<LogEntry> {
    if log == [] then []
    else
      Chain(log[..|log| - 1], company, subject) +
      if Matches(log[|log| - 1], company, subject) then [log[|log| - 1]] else []
  }

  /** ORDER BY created_at DESC, id DESC. */
  predicate Later(a: LogEntry, b: LogEntry) {
    a.createdAt > b.createdAt || (a.createdAt == b.createdAt && a.id > b.id)
  }

  /** The row the latest-hash queries select. */
  function Latest(log: seq<LogEntry>, company: nat, subject: Subject): (r: Option<LogEntry>)
    ensures r.Some? ==> r.value in log && Matches(r.value, company, subject)
  {
    if log == [] then None
    else
      var before, e := Latest(log[..|log| - 1], company, subject), log[|log| - 1];
      if Matches(e, company, subject) && (before.None? || Later(e, before.value)) then Some(e) else before
  }

  function HashOf(e: Option<LogEntry>): Option<string> {
    if e.Some? then Some(e.value.entryHash) else None
  }

  function Last(chain: seq<LogEntry>): Option<LogEntry> {
    if chain == [] then None else Some(chain[|chain| - 1])
  }

  /** The first entry has no predecessor, every other links to the one before it; the hash is the right one. */
  predicate Link(sha: Digest, chain: seq<LogEntry>, i: nat)
    requires i < |chain|
  {
    && chain[i].prevHash == (if i == 0 then None else Some(chain[i - 1].entryHash))
    && chain[i].entryHash == EntryHash(sha, chain[i].prevHash, FieldsOf(chain[i]))
  }

  predicate WellLinked(sha: Digest, chain: seq<LogEntry>) {
    forall i | 0 <= i < |chain| :: Link(sha, chain, i)
  }

  // ----- record_check -----

  /** `uuid` is the id drawn for the new row. */
  function NewEntry(sha: Digest, log: seq<LogEntry>, f: Fields, uuid: nat, clock: Clock): LogEntry {
    var prev := HashOf(Latest(log, f.company, f.subject));
    LogEntry(uuid, clock.began, f.company, f.subject, f.kind, f.result, f.performedOn, f.means, prev, EntryHash(sha, prev, f))
  }

  function Recorded(sha: Digest, log: seq<LogEntry>, f: Fields, uuid: nat, clock: Clock): seq<LogEntry> {
    log + [NewEntry(sha, log, f, uuid, clock)]
  }

  /** The latest-hash query as a scan of the table. */
  method LatestHash(log: seq<LogEntry>, company: nat, subject: Subject) returns (hash: Option<string>)
    ensures hash == HashOf(Latest(log, company, subject))
  {
    var best: Option<LogEntry> := None;
    for i := 0 to |log|
      invariant best == Latest(log[..i], company, subject)
    {
      assert log[..i + 1][..i] == log[..i];
      if Matches(log[i], company, subject) && (best.None? || Later(log[i], best.value)) {
        best := Some(log[i]);
      }
    }
    assert log[..|log|] == log;
    hash := HashOf(best);
  }

  method RecordCheck(s: Session, sha: Digest, f: Fields, uuid: nat, clock: Clock)
    modifies s
    ensures s.State() == old(s.State()).(fleet := old(s.fleet).(log := Recorded(sha, old(s.fleet.log), f, uuid, clock)))
  {
    var prev := LatestHash(s.fleet.log, f.company, f.subject);
    var hash := EntryHash(sha, prev, f);
    s.fleet := s.fleet.(log := s.fleet.log +
      [LogEntry(uuid, clock.began, f.company, f.subject, f.kind, f.result, f.performedOn, f.means, prev, hash)]);
  }

  // ----- serialised recording keeps every chain well linked -----

  /** Every entry of one chain is later, by (created_at, id), than those before it. Nothing is said about
      entries of different chains. */
  predicate InOrder(chain: seq<LogEntry>) {
    forall i, j | 0 <= i < j < |chain| :: Later(chain[j], chain[i])
  }

  ghost predicate Ordered(log: seq<LogEntry>) {
    forall company, subject :: InOrder(Chain(log, company, subject))
  }

  lemma {:induction false} LatestIsLast(log: seq<LogEntry>, company: nat, subject: Subject)
    requires InOrder(Chain(log, company, subject))
    ensures Latest(log, company, subject) == Last(Chain(log, company, subject))
  {
    if log != [] {
      var short := Chain(log[..|log| - 1], company, subject);
      assert forall i | 0 <= i < |short| :: Chain(log, company, subject)[i] == short[i];
      LatestIsLast(log[..|log| - 1], company, subject);
    }
  }

  lemma ChainAppend(log: seq<LogEntry>, e: LogEntry, company: nat, subject: Subject)
    ensures Chain(log + [e], company, subject) ==
            Chain(log, company, subject) + if Matches(e, company, subject) then [e] else []
  {
  }

  /** A chain is the log restricted to one company and one subject, in the order of the log. */
  lemma ChainColumns(log: seq<LogEntry>, e: LogEntry, company: nat, subject: Subject)
    ensures Chain([], company, subject) == []
    ensures Chain(log + [e], company, subject) ==
            Chain(log, company, subject) + if e.company == company && e.subject == subject then [e] else []
  {
  }

  /** The latest entry of a subject that the company can see: the greatest by `created_at`, then by id. */
  lemma {:induction false} LatestExactly(log: seq<LogEntry>, company: nat, subject: Subject)
    ensures match Latest(log, company, subject)
      case None => forall i | 0 <= i < |log| :: log[i].company != company || log[i].subject != subject
      case Some(e) =>
        && e in log && e.company == company && e.subject == subject
        && forall i | 0 <= i < |log| :: log[i].company == company && log[i].subject == subject ==>
             log[i].createdAt < e.createdAt || (log[i].createdAt == e.createdAt && log[i].id <= e.id)
  {
    if log != [] {
      LatestExactly(log[..|log| - 1], company, subject);
    }
  }

  /** The new row: what the caller says, stamped with the start of its transaction, linked to the latest
      entry of the subject and hashed with that link. */
  lemma RecordedRow(sha: Digest, log: seq<LogEntry>, f: Fields, uuid: nat, clock: Clock)
    ensures var e := Recorded(sha, log, f, uuid, clock)[|log|];
      && Recorded(sha, log, f, uuid, clock) == log + [e]
      && e == LogEntry(uuid, clock.began, f.company, f.subject, f.kind, f.result, f.performedOn, f.means, e.prevHash, e.entryHash)
      && e.prevHash == (match Latest(log, f.company, f.subject) case None => None case Some(last) => Some(last.entryHash))
      && e.entryHash == EntryHash(sha, e.prevHash, f)
  {
    hide EntryHash, Latest;
  }

  ghost predicate AllLinked(sha: Digest, log: seq<LogEntry>) {
    forall company, subject :: WellLinked(sha, Chain(log, company, subject))
  }

  lemma LinkAppend(sha: Digest, chain: seq<LogEntry>, e: LogEntry)
    requires WellLinked(sha, chain)
    requires e.prevHash == HashOf(Last(chain)) && e.entryHash == EntryHash(sha, e.prevHash, FieldsOf(e))
    ensures WellLinked(sha, chain + [e])
  {
    hide EntryHash;
    var longer := chain + [e];
    forall i | 0 <= i < |longer|
      ensures Link(sha, longer, i)
    {
      assert i < |chain| ==> Link(sha, chain, i);
    }
  }

  /** An entry with this stamp and id is later than every entry of the chain. */
  predicate ComesAfter(chain: seq<LogEntry>, began: Instant, uuid: nat) {
    forall i | 0 <= i < |chain| :: chain[i].createdAt < began || (chain[i].createdAt == began && chain[i].id < uuid)
  }

  /** `record_check` on serialised subjects keeps every chain of the interleaved log well linked, in
      whatever order the transactions of different subjects began. */
  lemma RecordKeepsChains(sha: Digest, log: seq<LogEntry>, f: Fields, uuid: nat, clock: Clock)
    requires Ordered(log) && AllLinked(sha, log)
    requires ComesAfter(Chain(log, f.company, f.subject), clock.began, uuid)
    ensures Ordered(Recorded(sha, log, f, uuid, clock))
    ensures AllLinked(sha, Recorded(sha, log, f, uuid, clock))
  {
    hide EntryHash, Chain, Latest, WellLinked, InOrder, ComesAfter;
    var e := NewEntry(sha, log, f, uuid, clock);
    forall company, subject
      ensures WellLinked(sha, Chain(Recorded(sha, log, f, uuid, clock), company, subject))
      ensures InOrder(Chain(Recorded(sha, log, f, uuid, clock), company, subject))
    {
      var chain := Chain(log, company, subject);
      ChainAppend(log, e, company, subject);
      assert InOrder(chain) && WellLinked(sha, chain);
      LatestIsLast(log, company, subject);
      if Matches(e, company, subject) {
        LinkAppend(sha, chain, e);
        OrderAppend(chain, e);
      } else {
        assert chain + [] == chain;
      }
    }
  }

  lemma OrderAppend(chain: seq<LogEntry>, e: LogEntry)
    requires InOrder(chain) && ComesAfter(chain, e.createdAt, e.id)
    ensures InOrder(chain + [e])
  {
  }

  // ----- tamper evidence -----

  lemma LinkNotEmpty(sha: Digest, chain: seq<LogEntry>, i: nat)
    requires CollisionFree(sha) && WellLinked(sha, chain) && i < |chain|
    ensures chain[i].entryHash != "" && chain[i].prevHash != Some("")
  {
    hide Entry;
    assert Link(sha, chain, i);
    if i > 0 {
      assert Link(sha, chain, i - 1);
    }
  }

  lemma LinkedPrefix(sha: Digest, chain: seq<LogEntry>, n: nat)
    requires WellLinked(sha, chain) && n <= |chain|
    ensures WellLinked(sha, chain[..n])
  {
    hide EntryHash;
    var short := chain[..n];
    forall i | 0 <= i < |short|
      ensures Link(sha, short, i)
    {
      assert Link(sha, chain, i);
    }
  }

  /** Two well-formed chains ending in the same hash have the same length and agree on every hashed
      field of every entry. */
  lemma {:induction false} TamperEvidence(sha: Digest, a: seq<LogEntry>, b: seq<LogEntry>)
    requires CollisionFree(sha)
    requires WellLinked(sha, a) && WellLinked(sha, b)
    requires a != [] && b != [] && a[|a| - 1].entryHash == b[|b| - 1].entryHash
    ensures |a| == |b|
    ensures forall i :: 0 <= i < |a| ==> FieldsOf(a[i]) == FieldsOf(b[i]) && a[i].entryHash == b[i].entryHash
    decreases |a|
  {
    hide EntryHash, CollisionFree;
    var m, n := |a| - 1, |b| - 1;
    var x, y := a[m], b[n];
    LinkNotEmpty(sha, a, m);
    LinkNotEmpty(sha, b, n);
    assert Link(sha, a, m) && Link(sha, b, n);
    EntryHashInjective(sha, x.prevHash, FieldsOf(x), y.prevHash, FieldsOf(y));
    if m > 0 {
      LinkedPrefix(sha, a, m);
      LinkedPrefix(sha, b, n);
      TamperEvidence(sha, a[..m], b[..n]);
    }
  }

  /** Editing one hashed field of one entry changes that entry's hash and every later hash. */
  lemma EditShows(sha: Digest, a: seq<LogEntry>, b: seq<LogEntry>, i: nat, j: nat)
    requires CollisionFree(sha)
    requires WellLinked(sha, a) && WellLinked(sha, b)
    requires i <= j < |a| && j < |b| && FieldsOf(a[i]) != FieldsOf(b[i])
    ensures a[j].entryHash != b[j].entryHash
  {
    hide EntryHash, CollisionFree;
    LinkedPrefix(sha, a, j + 1);
    LinkedPrefix(sha, b, j + 1);
    assert a[..j + 1][i] == a[i] && b[..j + 1][i] == b[i];
    if a[j].entryHash == b[j].entryHash {
      TamperEvidence(sha, a[..j + 1], b[..j + 1]);
    }
  }

  // ----- the whole log -----

  lemma {:induction false} ChainPosition(log: seq<LogEntry>, i: nat, j: nat, company: nat, subject: Subject)
    requires i < j <= |log| && Matches(log[i], company, subject)
    ensures var p := |Chain(log[..i], company, subject)|;
      && p < |Chain(log[..j], company, subject)|
      && Chain(log[..j], company, subject)[p] == log[i]
    decreases j
  {
    assert log[..j][..j - 1] == log[..j - 1];
    if i < j - 1 {
      ChainPosition(log, i, j - 1, company, subject);
    }
  }

  lemma {:induction false} ChainPrefix(log: seq<LogEntry>, i: nat, company: nat, subject: Subject)
    requires i <= |log|
    ensures Chain(log[..i], company, subject) <= Chain(log, company, subject)
    decreases |log|
  {
    if i < |log| {
      var short := log[..|log| - 1];
      ChainPrefix(short, i, company, subject);
      assert short[..i] == log[..i];
    } else {
      assert log[..i] == log;
    }
  }

  /** No two entries of the log carry the same hash, whatever chains they belong to: the unique
      constraint on entry_hash never fires. */
  lemma HashesDistinct(sha: Digest, log: seq<LogEntry>, i: nat, j: nat)
    requires CollisionFree(sha) && AllLinked(sha, log)
    requires i < j < |log|
    ensures log[i].entryHash != log[j].entryHash
  {
    hide EntryHash, CollisionFree, Chain;
    var a := Linked(sha, log, i);
    var b := Linked(sha, log, j);
    if log[i].entryHash == log[j].entryHash {
      TamperEvidence(sha, a, b);
      assert Matches(log[i], log[j].company, log[j].subject);
      ChainPosition(log, i, j, log[j].company, log[j].subject);
    }
  }

  /** The prefix of an entry's chain that ends in the entry. */
  lemma Linked(sha: Digest, log: seq<LogEntry>, i: nat) returns (a: seq<LogEntry>)
    requires AllLinked(sha, log) && i < |log|
    ensures a == Chain(log[..i + 1], log[i].company, log[i].subject)
    ensures WellLinked(sha, a) && a != [] && a[|a| - 1] == log[i]
    ensures |a| == |Chain(log[..i], log[i].company, log[i].subject)| + 1
  {
    hide EntryHash;
    var c, s := log[i].company, log[i].subject;
    assert log[..i + 1][..i] == log[..i];
    a := Chain(log[..i + 1], c, s);
    ChainPrefix(log, i + 1, c, s);
    assert a == Chain(log, c, s)[..|a|];
    LinkedPrefix(sha, Chain(log, c, s), |a|);
  }

  /** The restore-drill query always returns 0: every prev_hash is the entry_hash of an earlier row. */
  lemma NoBrokenLinks(sha: Digest, log: seq<LogEntry>, j: nat)
    requires AllLinked(sha, log)
    requires j < |log| && log[j].prevHash.Some?
    ensures exists i :: 0 <= i < j && log[i].entryHash == log[j].prevHash.value
  {
    hide EntryHash;
    var a := Linked(sha, log, j);
    var c, s := log[j].company, log[j].subject;
    assert Link(sha, a, |a| - 1);
    var i := ChainMember(log, j, |a| - 2, c, s);
    assert log[..j + 1][..j] == log[..j];
    assert log[i] == a[|a| - 2];
  }

  lemma {:induction false} ChainMember(log: seq<LogEntry>, j: nat, p: nat, company: nat, subject: Subject)
      returns (i: nat)
    requires j <= |log| && p < |Chain(log[..j], company, subject)|
    ensures i < j && log[i] == Chain(log[..j], company, subject)[p]
    decreases j
  {
    assert log[..j][..j - 1] == log[..j - 1];
    if p < |Chain(log[..j - 1], company, subject)| {
      i := ChainMember(log, j - 1, p, company, subject);
    } else {
      i := j - 1;
    }
  }

  // ----- why the instants must increase -----

  lemma {:induction false} LatestIsMaximal(log: seq<LogEntry>, company: nat, subject: Subject, p: nat)
    requires p < |Chain(log, company, subject)|
    ensures var m := Latest(log, company, subject);
      m.Some? && !Later(Chain(log, company, subject)[p], m.value)
  {
    var short := log[..|log| - 1];
    if p < |Chain(short, company, subject)| {
      LatestIsMaximal(short, company, subject, p);
    } else if Latest(short, company, subject).None? {
    }
  }

  /** The next entry links to the entry recorded last if and only if that entry is later, by
      (created_at, id), than every other entry of its chain. */
  lemma LinksToLastExactly(log: seq<LogEntry>, company: nat, subject: Subject)
    requires var chain := Chain(log, company, subject);
      chain != [] && forall i, j :: 0 <= i < j < |chain| ==> chain[i].id != chain[j].id
    ensures var chain := Chain(log, company, subject);
      Latest(log, company, subject) == Last(chain) <==>
      forall i :: 0 <= i < |chain| - 1 ==> Later(chain[|chain| - 1], chain[i])
  {
    hide Latest, Chain;
    var chain := Chain(log, company, subject);
    var last := chain[|chain| - 1];
    forall p | 0 <= p < |chain|
      ensures Latest(log, company, subject).Some? && !Later(chain[p], Latest(log, company, subject).value)
    {
      LatestIsMaximal(log, company, subject, p);
    }
    var m := Latest(log, company, subject).value;
    LatestInChain(log, company, subject);
  }

  lemma {:induction false} LatestInChain(log: seq<LogEntry>, company: nat, subject: Subject)
    requires Latest(log, company, subject).Some?
    ensures Latest(log, company, subject).value in Chain(log, company, subject)
  {
    var short := log[..|log| - 1];
    if Latest(log, company, subject) == Latest(short, company, subject) {
      LatestInChain(short, company, subject);
    }
  }

  /** Two overlapping requests: the one that started first records second. The third entry then links
      past it, to the entry that merely started later, and the chain forks. */
  lemma OverlapForks(sha: Digest, f: Fields)
    requires CollisionFree(sha)
    ensures var late := Recorded(sha, [], f, 0, Clock(20, 0, 20));
      var early := Recorded(sha, late, f, 1, Clock(10, 0, 10));
      var third := Recorded(sha, early, f, 2, Clock(30, 0, 30));
      && third[2].prevHash == Some(third[0].entryHash)
      && third[2].prevHash == third[1].prevHash
      && third[2].prevHash != Some(third[1].entryHash)
  {
    hide EntryHash;
    var a := NewEntry(sha, [], f, 0, Clock(20, 0, 20));
    var b := NewEntry(sha, [a], f, 1, Clock(10, 0, 10));
    assert [a][..0] == [] && [a, b][..1] == [a];
    assert Latest([], f.company, f.subject) == None;
    assert Latest([a], f.company, f.subject) == Some(a);
    assert Latest([a, b], f.company, f.subject) == Some(a);
    assert [a] + [b] == [a, b];
    if a.entryHash == b.entryHash {
      NonEmptyHash(sha, None, f);
      EntryHashInjective(sha, None, f, Some(a.entryHash), f);
    }
  }

  /** Overlapping requests on different subjects do no harm: the log is out of order, no chain is. */
  lemma OverlapHarmless(sha: Digest, f: Fields, g: Fields)
    requires f.subject != g.subject || f.company != g.company
    ensures var late := Recorded(sha, [], f, 0, Clock(20, 0, 20));
      var both := Recorded(sha, late, g, 1, Clock(30, 0, 10));
      both[1].createdAt < both[0].createdAt && Ordered(both) && AllLinked(sha, both)
  {
    hide EntryHash, Latest, InOrder, WellLinked, Ordered, AllLinked;
    var a := NewEntry(sha, [], f, 0, Clock(20, 0, 20));
    assert [] + [a] == [a];
    EmptyLog(sha);
    RecordKeepsChains(sha, [], f, 0, Clock(20, 0, 20));
    ChainAppend([], a, g.company, g.subject);
    RecordKeepsChains(sha, [a], g, 1, Clock(30, 0, 10));
  }

  lemma EmptyLog(sha: Digest)
    ensures Ordered([]) && AllLinked(sha, [])
  {
  }

  lemma NonEmptyHash(sha: Digest, prev: Option<string>, f: Fields)
    requires CollisionFree(sha)
    ensures EntryHash(sha, prev, f) != ""
  {
  }
}
