/** Concurrent `run_e6` calls on one driver. A call may have loaded the driver row earlier in its
    session; it then waits for the row lock, runs, and holds the lock until its transaction commits or
    is rolled back. */
module E6Race {
  import opened Wrappers
  import opened Records
  import Outbox
  import opened E6

  /** The arguments of one call: each draws its own trigger id. */
  datatype Call = Call(trigger: nat, told: seq<Address>, clock: Clock)

  datatype Progress =
    | Idle
    | Loaded(version: nat)
    | Holding(loaded: Option<nat>, result: Result, pending: Db)
    | Finished(loaded: Option<nat>, result: Result)
    | Aborted(loaded: Option<nat>)

  /** The committed database and where each call stands. */
  datatype Race = Race(db: Db, calls: seq<Progress>)

  datatype Move = Load(call: nat) | Lock(call: nat) | Finish(call: nat) | Abort(call: nat)

  predicate LockFree(r: Race) {
    forall i | 0 <= i < |r.calls| :: !r.calls[i].Holding?
  }

  predicate MayMove(r: Race, m: Move) {
    m.call < |r.calls| &&
    match m
    case Load(i) => r.calls[i].Idle?
    case Lock(i) => (r.calls[i].Idle? || r.calls[i].Loaded?) && LockFree(r)
    case Finish(i) => r.calls[i].Holding?
    case Abort(i) => !r.calls[i].Finished? && !r.calls[i].Aborted?
  }

  function LoadedBy(p: Progress): Option<nat> {
    match p
    case Idle => None
    case Loaded(v) => Some(v)
    case Holding(loaded, _, _) => loaded
    case Finished(loaded, _) => loaded
    case Aborted(loaded) => loaded
  }

  function Moved(r: Race, args: seq<Call>, driver: nat, company: nat, m: Move): Race
    requires MayMove(r, m) && |args| == |r.calls| && driver < |r.db.fleet.drivers|
  {
    match m
    case Load(i) => r.(calls := r.calls[i := Loaded(r.db.fleet.drivers[driver].version)])
    case Lock(i) =>
      var a, loaded := args[i], LoadedBy(r.calls[i]);
      r.(calls := r.calls[i := Holding(loaded, RunResult(r.db, driver, company, a.told, a.trigger, loaded, a.clock),
                                       RunState(r.db, driver, company, a.told, a.trigger, loaded, a.clock))])
    case Finish(i) => Race(r.calls[i].pending, r.calls[i := Finished(r.calls[i].loaded, r.calls[i].result)])
    case Abort(i) => r.(calls := r.calls[i := Aborted(LoadedBy(r.calls[i]))])
  }

  // ----- where the race starts -----

  /** A driver of the company without an open case; fresh trigger ids; no address twice in one call. */
  predicate Ready(start: Db, args: seq<Call>, driver: nat, company: nat) {
    && driver < |start.fleet.drivers| && start.fleet.drivers[driver].company == company
    && OpenCase(start.fleet.cases, driver).None?
    && (forall i | 0 <= i < |args| :: Distinct(args[i].told))
    && forall i, id | 0 <= i < |args| && id in start.queue.outbox ::
         start.queue.outbox[id].key.E6Key? ==> start.queue.outbox[id].key.trigger != args[i].trigger
  }

  /** The database once call `w` has escalated. */
  function Won(start: Db, args: seq<Call>, driver: nat, company: nat, w: nat): Db
    requires w < |args| && driver < |start.fleet.drivers|
  {
    Escalated(start, driver, company, args[w].told, args[w].trigger, args[w].clock)
  }

  function WinnersResult(start: Db, args: seq<Call>, w: nat): Result
    requires w < |args|
  {
    Fresh(|start.fleet.cases|, |start.alerts|, start.queue.nextRow, |args[w].told|)
  }

  function LosersResult(start: Db, driver: nat, loaded: Option<nat>): Result
    requires driver < |start.fleet.drivers|
  {
    if loaded == Some(start.fleet.drivers[driver].version) then Raised(StaleDriverState) else Replay(|start.fleet.cases|)
  }

  // ----- single calls -----

  lemma FirstIsFresh(start: Db, args: seq<Call>, driver: nat, company: nat, w: nat, loaded: Option<nat>)
    requires Ready(start, args, driver, company) && w < |args|
    requires loaded.Some? ==> loaded.value == start.fleet.drivers[driver].version
    ensures RunResult(start, driver, company, args[w].told, args[w].trigger, loaded, args[w].clock) == WinnersResult(start, args, w)
    ensures RunState(start, driver, company, args[w].told, args[w].trigger, loaded, args[w].clock) == Won(start, args, driver, company, w)
  {
  }

  lemma WonHasCase(start: Db, args: seq<Call>, driver: nat, company: nat, w: nat)
    requires Ready(start, args, driver, company) && w < |args|
    ensures var won := Won(start, args, driver, company, w);
      && driver < |won.fleet.drivers| && won.fleet.drivers[driver].company == company
      && won.fleet.drivers[driver].version == start.fleet.drivers[driver].version + 1
      && OpenCase(won.fleet.cases, driver) == Some(|start.fleet.cases|)
  {
  }

  lemma LaterLoses(start: Db, args: seq<Call>, driver: nat, company: nat, w: nat, i: nat, loaded: Option<nat>)
    requires Ready(start, args, driver, company) && w < |args| && i < |args|
    requires loaded.Some? ==> start.fleet.drivers[driver].version <= loaded.value <= start.fleet.drivers[driver].version + 1
    ensures var won := Won(start, args, driver, company, w);
      && RunResult(won, driver, company, args[i].told, args[i].trigger, loaded, args[i].clock) == LosersResult(start, driver, loaded)
      && RunState(won, driver, company, args[i].told, args[i].trigger, loaded, args[i].clock) == won
  {
    hide Won, OpenCase, Outbox.Collides, Messages;
    WonHasCase(start, args, driver, company, w);
  }

  // ----- the invariant of a race -----

  /** A call that neither holds the lock nor has committed, while nothing has changed yet. */
  predicate EarlyOk(p: Progress, start: Db, driver: nat)
    requires driver < |start.fleet.drivers|
  {
    (p.Idle? || p.Loaded? || p.Aborted?) && LoadedBy(p) in {None, Some(start.fleet.drivers[driver].version)}
  }

  /** Nobody holds the lock and nobody who held it has committed. */
  predicate NotStarted(r: Race, start: Db, driver: nat)
    requires driver < |start.fleet.drivers|
  {
    r.db == start && forall i | 0 <= i < |r.calls| :: EarlyOk(r.calls[i], start, driver)
  }

  /** Where a call other than the winner stands. */
  predicate LoserOk(p: Progress, start: Db, won: Db, driver: nat)
    requires driver < |start.fleet.drivers|
  {
    var v := start.fleet.drivers[driver].version;
    && (LoadedBy(p).Some? ==> v <= LoadedBy(p).value <= v + 1)
    && (p.Holding? ==> p.result == LosersResult(start, driver, p.loaded) && p.pending == won)
    && (p.Finished? ==> p.result == LosersResult(start, driver, p.loaded))
  }

  /** Call `w` has escalated; until it finishes nothing is committed and nobody else can run. */
  predicate WonBy(r: Race, start: Db, args: seq<Call>, driver: nat, company: nat, w: nat)
    requires w < |args| && |args| == |r.calls| && driver < |start.fleet.drivers|
  {
    var won, p := Won(start, args, driver, company, w), r.calls[w];
    && (p.Holding? || p.Finished?) && p.result == WinnersResult(start, args, w)
    && LoadedBy(p) in {None, Some(start.fleet.drivers[driver].version)}
    && (p.Holding? ==> p.pending == won && r.db == start)
    && (p.Holding? ==> forall i | 0 <= i < |r.calls| :: i != w ==> EarlyOk(r.calls[i], start, driver))
    && (p.Finished? ==> r.db == won)
    && (forall i | 0 <= i < |r.calls| :: i != w ==> LoserOk(r.calls[i], start, won, driver))
  }

  ghost predicate RaceInv(r: Race, start: Db, args: seq<Call>, driver: nat, company: nat) {
    && driver < |start.fleet.drivers| && |args| == |r.calls|
    && (NotStarted(r, start, driver) || exists w | 0 <= w < |args| :: WonBy(r, start, args, driver, company, w))
  }

  lemma StartedMove(r: Race, start: Db, args: seq<Call>, driver: nat, company: nat, m: Move, w: nat)
    requires Ready(start, args, driver, company) && |args| == |r.calls| && w < |args|
    requires WonBy(r, start, args, driver, company, w) && MayMove(r, m) && driver < |r.db.fleet.drivers|
    ensures RaceInv(Moved(r, args, driver, company, m), start, args, driver, company)
  {
    hide Won, Ready, WinnersResult, LosersResult, RunResult, RunState;
    ReadyDriver(start, args, driver, company);
    WonHasCase(start, args, driver, company, w);
    var v := Moved(r, args, driver, company, m);
    match m {
      case Load(i) => assert WonBy(v, start, args, driver, company, w);
      case Lock(i) =>
        assert r.calls[w].Finished?;
        LaterLoses(start, args, driver, company, w, i, LoadedBy(r.calls[i]));
        assert WonBy(v, start, args, driver, company, w);
      case Finish(i) => assert WonBy(v, start, args, driver, company, w);
      case Abort(i) =>
        if i == w {
          assert NotStarted(v, start, driver) by { WinnerGaveUp(r, start, args, driver, company, w); }
        } else {
          assert WonBy(v, start, args, driver, company, w);
        }
    }
  }

  /** If the call that escalated is rolled back, the race is open again. */
  lemma WinnerGaveUp(r: Race, start: Db, args: seq<Call>, driver: nat, company: nat, w: nat)
    requires w < |args| && |args| == |r.calls| && driver < |start.fleet.drivers|
    requires WonBy(r, start, args, driver, company, w) && r.calls[w].Holding?
    requires LoadedBy(r.calls[w]) in {None, Some(start.fleet.drivers[driver].version)}
    ensures NotStarted(r.(calls := r.calls[w := Aborted(LoadedBy(r.calls[w]))]), start, driver)
  {
    hide Won, WinnersResult, LosersResult;
  }

  lemma FirstMove(r: Race, start: Db, args: seq<Call>, driver: nat, company: nat, m: Move)
    requires Ready(start, args, driver, company) && |args| == |r.calls|
    requires NotStarted(r, start, driver) && MayMove(r, m)
    ensures RaceInv(Moved(r, args, driver, company, m), start, args, driver, company)
  {
    hide Won, Ready, WinnersResult, LosersResult, RunResult, RunState;
    ReadyDriver(start, args, driver, company);
    var v := Moved(r, args, driver, company, m);
    match m {
      case Load(i) => assert NotStarted(v, start, driver);
      case Lock(i) =>
        FirstIsFresh(start, args, driver, company, i, LoadedBy(r.calls[i]));
        assert WonBy(v, start, args, driver, company, i);
      case Finish(i) =>
      case Abort(i) => assert NotStarted(v, start, driver);
    }
  }

  lemma StillThere(r: Race, start: Db, args: seq<Call>, driver: nat, company: nat)
    requires RaceInv(r, start, args, driver, company)
    ensures driver < |r.db.fleet.drivers|
  {
  }

  lemma MoveKeeps(r: Race, start: Db, args: seq<Call>, driver: nat, company: nat, m: Move)
    requires Ready(start, args, driver, company) && RaceInv(r, start, args, driver, company) && MayMove(r, m)
    ensures driver < |r.db.fleet.drivers|
    ensures RaceInv(Moved(r, args, driver, company, m), start, args, driver, company)
  {
    hide Ready, WonBy, NotStarted, Moved, MayMove;
    StillThere(r, start, args, driver, company);
    if NotStarted(r, start, driver) {
      FirstMove(r, start, args, driver, company, m);
    } else {
      var w :| 0 <= w < |args| && WonBy(r, start, args, driver, company, w);
      StartedMove(r, start, args, driver, company, m, w);
    }
  }

  // ----- whole races -----

  ghost predicate IsRace(races: seq<Race>, moves: seq<Move>, args: seq<Call>, driver: nat, company: nat) {
    && |races| == |moves| + 1
    && races[0].calls == seq(|args|, _ => Idle)
    && forall k {:trigger moves[k]} | 0 <= k < |moves| ::
         && MayMove(races[k], moves[k]) && |races[k].calls| == |args| && driver < |races[k].db.fleet.drivers|
         && races[k + 1] == Moved(races[k], args, driver, company, moves[k])
  }

  lemma {:induction false} RaceKeeps(races: seq<Race>, moves: seq<Move>, args: seq<Call>, driver: nat, company: nat,
                                     k: nat)
    requires IsRace(races, moves, args, driver, company) && Ready(races[0].db, args, driver, company) && k < |races|
    ensures RaceInv(races[k], races[0].db, args, driver, company)
  {
    hide Ready, Moved, MayMove, WonBy;
    if k == 0 {
      assert driver < |races[0].db.fleet.drivers| by { ReadyDriver(races[0].db, args, driver, company); }
      assert NotStarted(races[0], races[0].db, driver);
    } else {
      RaceKeeps(races, moves, args, driver, company, k - 1);
      var m := moves[k - 1];
      MoveKeeps(races[k - 1], races[0].db, args, driver, company, m);
    }
  }

  lemma ReadyDriver(start: Db, args: seq<Call>, driver: nat, company: nat)
    requires Ready(start, args, driver, company)
    ensures driver < |start.fleet.drivers|
  {
  }

  function FinishedCalls(calls: seq<Progress>): set<nat> {
    set i | 0 <= i < |calls| && calls[i].Finished?
  }

  function FreshCalls(calls: seq<Progress>): set<nat> {
    set i | i in FinishedCalls(calls) && calls[i].result.Fresh?
  }

  /** At every point of a race, whoever has been rolled back: as long as no call has finished nothing has
      changed. From the first that finishes on exactly one was fresh, and the database is that call's
      escalation and nothing else: its case, its alert, its rows. Every other finished call replayed the
      same case, except those that had loaded the driver row before the winner committed, which raised
      StaleDriverState. */
  lemma ExactlyOneFresh(races: seq<Race>, moves: seq<Move>, args: seq<Call>, driver: nat, company: nat, k: nat)
    requires IsRace(races, moves, args, driver, company) && Ready(races[0].db, args, driver, company) && k < |races|
    ensures FinishedCalls(races[k].calls) == {} ==> races[k].db == races[0].db
    ensures FinishedCalls(races[k].calls) != {} ==>
      exists w | 0 <= w < |args| :: FreshCalls(races[k].calls) == {w} && DecidedBy(races[k], races[0].db, args, driver, company, w)
  {
    hide IsRace, Ready, Won, WonBy, FreshCalls, RaceInv, NotStarted, DecidedBy, FinishedCalls;
    RaceKeeps(races, moves, args, driver, company, k);
    var r, start := races[k], races[0].db;
    InvCases(r, start, args, driver, company);
    if NotStarted(r, start, driver) {
      NobodyFinished(r, start, driver);
    } else {
      var w :| 0 <= w < |args| && WonBy(r, start, args, driver, company, w);
      WinnerFinished(r, start, args, driver, company, w);
    }
  }

  /** Call `w` won: the database is its escalation, its result says so, every other finished call lost. */
  predicate DecidedBy(r: Race, start: Db, args: seq<Call>, driver: nat, company: nat, w: nat)
    requires w < |args|
  {
    && driver < |start.fleet.drivers| && |args| == |r.calls|
    && r.db == Won(start, args, driver, company, w)
    && r.calls[w].Finished? && r.calls[w].result == WinnersResult(start, args, w)
    && forall i | 0 <= i < |args| :: i != w && r.calls[i].Finished? ==>
         r.calls[i].result == LosersResult(start, driver, r.calls[i].loaded)
  }

  lemma InvCases(r: Race, start: Db, args: seq<Call>, driver: nat, company: nat)
    requires RaceInv(r, start, args, driver, company)
    ensures driver < |start.fleet.drivers| && |args| == |r.calls|
    ensures NotStarted(r, start, driver) || exists w | 0 <= w < |args| :: WonBy(r, start, args, driver, company, w)
  {
    hide NotStarted, WonBy;
  }

  lemma NobodyFinished(r: Race, start: Db, driver: nat)
    requires driver < |start.fleet.drivers| && NotStarted(r, start, driver)
    ensures FinishedCalls(r.calls) == {} && r.db == start
  {
  }

  lemma WinnerFinished(r: Race, start: Db, args: seq<Call>, driver: nat, company: nat, w: nat)
    requires w < |args| && driver < |start.fleet.drivers| && |args| == |r.calls|
    requires WonBy(r, start, args, driver, company, w)
    ensures FinishedCalls(r.calls) == {} ==> r.db == start
    ensures FinishedCalls(r.calls) != {} ==> FreshCalls(r.calls) == {w} && DecidedBy(r, start, args, driver, company, w)
  {
    hide Won;
    var won := Won(start, args, driver, company, w);
    if r.calls[w].Holding? {
      assert FinishedCalls(r.calls) == {};
    } else {
      assert w in FinishedCalls(r.calls);
      forall i | 0 <= i < |args| && i != w && r.calls[i].Finished?
        ensures r.calls[i].result == LosersResult(start, driver, r.calls[i].loaded)
      {
        assert LoserOk(r.calls[i], start, won, driver);
      }
      assert FreshCalls(r.calls) == {w};
    }
  }

  /** A call that raised or replayed leaves the database, when its transaction ends, as it found it. */
  lemma LosersChangeNothing(r: Race, start: Db, args: seq<Call>, driver: nat, company: nat, i: nat)
    requires RaceInv(r, start, args, driver, company) && i < |r.calls|
    requires r.calls[i].Holding? && !r.calls[i].result.Fresh?
    ensures r.calls[i].pending == r.db
  {
    hide Won;
    if !NotStarted(r, start, driver) {
      var w :| 0 <= w < |args| && WonBy(r, start, args, driver, company, w);
      assert i != w ==> LoserOk(r.calls[i], start, Won(start, args, driver, company, w), driver);
    }
  }
}
