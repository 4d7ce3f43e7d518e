/**
 * internal/store/migration.go: the migration runner across startups that may fail anywhere, including
 * between running a migration and recording it, and whose reading of the applied ids may be partial.
 */
module Migrations {
  import opened Text

  // ---------------------------------------------------------------- file names

  const SUFFIX := ".sql"

  function TrimSuffix(s: string, suffix: string): string {
    if |suffix| <= |s| && s[|s| - |suffix|..] == suffix then s[..|s| - |suffix|] else s
  }

  function Spaced(s: string): string {
    seq(|s|, i requires 0 <= i < |s| => if s[i] == '_' then ' ' else s[i])
  }

  /** The id and the description; an empty id marks a name to skip. */
  function ParseMigrationFile(file: string): (string, string) {
    var name := TrimSuffix(file, SUFFIX);
    var i := IndexOf(name, '_');
    if i < 0 then ("", "") else (name[..i], Spaced(name[i + 1..]))
  }

  lemma ParsesItsOwnNames(id: string, desc: string)
    requires '_' !in id
    ensures var (parsed, spaced) := ParseMigrationFile(id + "_" + desc + ".sql");
            && parsed == id && |spaced| == |desc|
            && forall i :: 0 <= i < |desc| ==> spaced[i] == if desc[i] == '_' then ' ' else desc[i]
  {
    var name := id + ['_'] + desc;
    assert TrimSuffix(name + SUFFIX, SUFFIX) == name;
    FirstSeparator(id, '_', desc);
    assert name[..|id|] == id && name[|id| + 1..] == desc;
  }

  /** A name is skipped exactly when nothing stands before its first '_', or it has none. */
  lemma SkippedNames(name: string)
    ensures ParseMigrationFile(name).0 == "" <==> '_' !in name || name[0] == '_'
  {
    var trimmed := TrimSuffix(name, SUFFIX);
    assert forall i :: 0 <= i < |trimmed| ==> name[i] == trimmed[i];
    assert trimmed != name ==> name == trimmed + ".sql";
    if '_' in name {
      assert '_' in trimmed;
      assert trimmed[0] == name[0];
    }
  }

  // ---------------------------------------------------------------- startups

  datatype Migration = Migration(id: string, sqlite: string, postgres: string)

  datatype Driver = SQLite | Postgres

  function SqlFor(m: Migration, driver: Driver): string {
    match driver
    case SQLite => m.sqlite
    case Postgres => m.postgres
  }

  /** What may go wrong: the script fails or the process dies before it, or its record is not written. */
  datatype Fault = NoFault | ExecFails | RecordFails

  /** The recorded ids in the order of their rows, and the scripts that took effect, in order. */
  datatype Db = Db(recorded: seq<string>, executed: seq<string>)

  datatype Outcome = Complete | ExecFailed(id: string) | NotRecorded(id: string)

  /** One startup: the ids that the query delivered, and the faults it meets. */
  datatype Startup = Startup(seen: set<string>, faults: string -> Fault)

  /** The runner on the migrations that are left. Recording an id twice violates the primary key. */
  function Run(db: Db, todo: seq<string>, start: Startup): (Db, Outcome)
    decreases |todo|
  {
    if todo == [] then (db, Complete)
    else
      var id, rest := todo[0], todo[1..];
      if id in start.seen then Run(db, rest, start)
      else if start.faults(id) == ExecFails then (db, ExecFailed(id))
      else
        var ran := db.(executed := db.executed + [id]);
        if start.faults(id) == RecordFails || id in db.recorded then (ran, NotRecorded(id))
        else Run(ran.(recorded := ran.recorded + [id]), rest, start)
  }

  function Planned(m: Migration, driver: Driver): seq<string> {
    if SqlFor(m, driver) == "" then [] else [m.id]
  }

  /** The ids with a script for the driver, in order. */
  function Plan(ms: seq<Migration>, driver: Driver): seq<string> {
    if ms == [] then [] else Planned(ms[0], driver) + Plan(ms[1..], driver)
  }

  predicate HasScript(m: Migration, driver: Driver) {
    if driver == Postgres then m.postgres != "" else m.sqlite != ""
  }

  lemma {:induction false} PlanAppend(ms: seq<Migration>, m: Migration, driver: Driver)
    ensures Plan(ms + [m], driver) == Plan(ms, driver) + Planned(m, driver)
  {
    if ms == [] {
      assert ms + [m] == [m] && [m][1..] == [];
      assert Plan([m], driver) == Planned(m, driver) + [];
    } else {
      PlanAppend(ms[1..], m, driver);
      assert (ms + [m])[1..] == ms[1..] + [m] && (ms + [m])[0] == ms[0];
      var first, last := Planned(ms[0], driver), Planned(m, driver);
      assert Plan(ms + [m], driver) == first + Plan(ms[1..] + [m], driver);
      assert first + (Plan(ms[1..], driver) + last) == (first + Plan(ms[1..], driver)) + last;
    }
  }

  /** The plan of a driver names the migrations that have a script for it, each once and in order. */
  lemma {:induction false} PlanOfDriver(ms: seq<Migration>, driver: Driver) returns (at: seq<int>)
    ensures |at| == |Plan(ms, driver)|
    ensures forall j :: 0 <= j < |at| ==>
              0 <= at[j] < |ms| && HasScript(ms[at[j]], driver) && Plan(ms, driver)[j] == ms[at[j]].id
    ensures forall i, j :: 0 <= i < j < |at| ==> at[i] < at[j]
    ensures forall i :: 0 <= i < |ms| && HasScript(ms[i], driver) ==> i in at
  {
    if ms == [] {
      at := [];
    } else {
      var n := |ms| - 1;
      at := PlanOfDriver(ms[..n], driver);
      PlanAppend(ms[..n], ms[n], driver);
      assert ms == ms[..n] + [ms[n]];
      if HasScript(ms[n], driver) {
        at := at + [n];
      }
    }
  }

  class Database {
    var recorded: seq<string>
    var executed: seq<string>
    ghost var starts: seq<Startup>

    function View(): Db
      reads this
    {
      Db(recorded, executed)
    }

    /** Every startup so far ran this plan and read some of the records. */
    ghost predicate Ran(plan: seq<string>)
      reads this
    {
      View() == AfterStartups(plan, starts) && Honest(plan, starts)
    }

    /** A database with an empty version table. */
    constructor ()
      ensures starts == [] && forall plan :: Ran(plan)
    {
      recorded, executed, starts := [], [], [];
    }

    /** The loop of `runMigrations`. */
    method RunMigrations(ms: seq<Migration>, driver: Driver, start: Startup) returns (outcome: Outcome)
      modifies this
      ensures (View(), outcome) == Run(old(View()), Plan(ms, driver), start) && starts == old(starts) + [start]
      ensures old(Ran(Plan(ms, driver))) && Reads(start, old(View())) ==> Ran(Plan(ms, driver))
    {
      starts := starts + [start];
      assert starts[..|starts| - 1] == old(starts);
      for i := 0 to |ms|
        invariant starts == old(starts) + [start]
        invariant Run(old(View()), Plan(ms, driver), start) == Run(View(), Plan(ms[i..], driver), start)
      {
        var m := ms[i];
        assert ms[i..][1..] == ms[i + 1..];
        if m.id in start.seen || SqlFor(m, driver) == "" {
          SkipHead(View(), ms[i..], driver, start);
        } else {
          assert Plan(ms[i..], driver) == [m.id] + Plan(ms[i + 1..], driver);
          if start.faults(m.id) == ExecFails {
            return ExecFailed(m.id);
          }
          var known := m.id in recorded;
          executed := executed + [m.id];
          if start.faults(m.id) == RecordFails || known {
            return NotRecorded(m.id);
          }
          recorded := recorded + [m.id];
        }
      }
      return Complete;
    }
  }

  lemma SkipHead(db: Db, ms: seq<Migration>, driver: Driver, start: Startup)
    requires ms != [] && (ms[0].id in start.seen || SqlFor(ms[0], driver) == "")
    ensures Run(db, Plan(ms, driver), start) == Run(db, Plan(ms[1..], driver), start)
  {
    if SqlFor(ms[0], driver) == "" {
      assert Plan(ms, driver) == Plan(ms[1..], driver);
    } else {
      assert Plan(ms, driver) == [ms[0].id] + Plan(ms[1..], driver);
    }
  }

  // ---------------------------------------------------------------- crash safety

  predicate Distinct(ids: seq<string>) {
    forall i, j :: 0 <= i < j < |ids| ==> ids[i] != ids[j]
  }

  /** The records are a prefix of the plan; what ran is recorded, or is the next one after that prefix. */
  predicate Safe(db: Db, plan: seq<string>) {
    && |db.recorded| <= |plan| && db.recorded == plan[..|db.recorded|]
    && (forall id :: id in db.recorded ==> id in db.executed)
    && (forall id :: id in db.executed ==> id in db.recorded || (|db.recorded| < |plan| && id == plan[|db.recorded|]))
  }

  /** The query may miss rows but delivers no others. */
  predicate Reads(start: Startup, db: Db) {
    forall id :: id in start.seen ==> id in db.recorded
  }

  lemma {:induction false} RunSafe(db: Db, plan: seq<string>, k: nat, start: Startup)
    requires Distinct(plan) && Safe(db, plan) && Reads(start, db) && k <= |db.recorded|
    ensures var (db', outcome) := Run(db, plan[k..], start);
            Safe(db', plan) && |db.recorded| <= |db'.recorded| && (outcome == Complete ==> db'.recorded == plan)
    decreases |plan| - k
  {
    if k == |plan| {
      assert plan[..|plan|] == plan;
    } else {
      var id := plan[k];
      assert plan[k..][0] == id && plan[k..][1..] == plan[k + 1..];
      if id in start.seen {
        PositionInPrefix(plan, k, |db.recorded|);
        RunSafe(db, plan, k + 1, start);
      } else if start.faults(id) != ExecFails {
        RecordedIff(db, plan, k);
        if start.faults(id) != RecordFails && id !in db.recorded {
          var next := Db(db.recorded + [id], db.executed + [id]);
          assert next.recorded == plan[..k + 1];
          RunSafe(next, plan, k + 1, start);
        }
      }
    }
  }

  lemma RecordedIff(db: Db, plan: seq<string>, k: nat)
    requires Distinct(plan) && Safe(db, plan) && k <= |db.recorded| && k < |plan|
    ensures plan[k] in db.recorded <==> k < |db.recorded|
  {
    if k < |db.recorded| {
      assert db.recorded[k] == plan[k];
    }
  }

  function Bit(b: bool): nat {
    if b then 1 else 0
  }

  /** A startup runs as often as it records, except for the migration it was interrupted at. */
  lemma {:induction false} RunLaw(db: Db, todo: seq<string>, start: Startup, id: string)
    ensures var (db', outcome) := Run(db, todo, start);
            multiset(db'.executed)[id] + multiset(db.recorded)[id]
            == multiset(db.executed)[id] + multiset(db'.recorded)[id] + Bit(outcome == NotRecorded(id))
    decreases |todo|
  {
    if todo != [] {
      var x := todo[0];
      if x in start.seen {
        RunLaw(db, todo[1..], start, id);
      } else if start.faults(x) == NoFault && x !in db.recorded {
        RunLaw(Db(db.recorded + [x], db.executed + [x]), todo[1..], start, id);
      }
    }
  }

  /** An id of the plan is in a prefix of it only if its position is. */
  lemma PositionInPrefix(plan: seq<string>, k: nat, n: nat)
    requires Distinct(plan) && k < |plan| && n <= |plan| && plan[k] in plan[..n]
    ensures k < n
  {
  }

  /** The database after a sequence of startups. */
  function AfterStartups(plan: seq<string>, starts: seq<Startup>): Db {
    if starts == [] then Db([], [])
    else Run(AfterStartups(plan, starts[..|starts| - 1]), plan, starts[|starts| - 1]).0
  }

  /** Every startup reads some of what is recorded by then. */
  predicate Honest(plan: seq<string>, starts: seq<Startup>) {
    starts == [] ||
    var before := starts[..|starts| - 1];
    Honest(plan, before) && Reads(starts[|starts| - 1], AfterStartups(plan, before))
  }

  /** How many startups ran a migration and ended without recording it. */
  function Interruptions(plan: seq<string>, starts: seq<Startup>, id: string): nat {
    if starts == [] then 0
    else
      var before := starts[..|starts| - 1];
      Interruptions(plan, before, id)
      + Bit(Run(AfterStartups(plan, before), plan, starts[|starts| - 1]).1 == NotRecorded(id))
  }

  /**
   * Over any sequence of failing startups: the records are a prefix of the plan, everything recorded
   * was run, at most the next migration was run without being recorded, and a migration was run once if
   * it is recorded, plus once for every startup that was interrupted after running it.
   */
  lemma {:induction false} CrashSafety(plan: seq<string>, starts: seq<Startup>, id: string)
    requires Distinct(plan) && Honest(plan, starts)
    ensures var db := AfterStartups(plan, starts);
            && Safe(db, plan)
            && multiset(db.executed)[id] == Bit(id in db.recorded) + Interruptions(plan, starts, id)
  {
    if starts != [] {
      var before, last := starts[..|starts| - 1], starts[|starts| - 1];
      CrashSafety(plan, before, id);
      var db := AfterStartups(plan, before);
      assert plan[0..] == plan;
      RunSafe(db, plan, 0, last);
      RunLaw(db, plan, last, id);
      RecordedOnce(plan, |db.recorded|, id);
      RecordedOnce(plan, |AfterStartups(plan, starts).recorded|, id);
    }
  }

  lemma {:induction false} RecordedOnce(plan: seq<string>, n: nat, id: string)
    requires Distinct(plan) && n <= |plan|
    ensures multiset(plan[..n])[id] == Bit(id in plan[..n])
  {
    if n > 0 {
      RecordedOnce(plan, n - 1, id);
      assert plan[..n] == plan[..n - 1] + [plan[n - 1]];
    }
  }

  // ---------------------------------------------------------------- after success

  lemma {:induction false} SeenAreSkipped(db: Db, todo: seq<string>, start: Startup)
    requires forall i :: 0 <= i < |todo| ==> todo[i] in start.seen
    ensures Run(db, todo, start) == (db, Complete)
  {
    if todo != [] {
      SeenAreSkipped(db, todo[1..], start);
    }
  }

  lemma {:induction false} UnseenIsRunAgain(db: Db, todo: seq<string>, start: Startup)
    requires forall i :: 0 <= i < |todo| ==> start.faults(todo[i]) != ExecFails && todo[i] in db.recorded
    ensures Run(db, todo, start).0 == db <==> forall i :: 0 <= i < |todo| ==> todo[i] in start.seen
  {
    if todo != [] {
      assert todo == [todo[0]] + todo[1..];
      UnseenIsRunAgain(db, todo[1..], start);
      if todo[0] !in start.seen {
        assert |Run(db, todo, start).0.executed| == |db.executed| + 1;
      }
    }
  }

  /**
   * After a successful startup everything is recorded. A later startup runs nothing if it reads all the
   * records; and when scripts do not fail, it runs nothing only if it reads all the records.
   */
  lemma NothingLeftToRun(plan: seq<string>, starts: seq<Startup>, start: Startup)
    requires Distinct(plan) && Honest(plan, starts + [start]) && starts != []
    requires Run(AfterStartups(plan, starts[..|starts| - 1]), plan, starts[|starts| - 1]).1 == Complete
    ensures var db := AfterStartups(plan, starts);
            && db.recorded == plan
            && ((forall id :: id in plan ==> id in start.seen) ==> Run(db, plan, start) == (db, Complete))
            && ((forall id :: id in plan ==> start.faults(id) != ExecFails) ==>
                 (Run(db, plan, start).0 == db <==> forall id :: id in plan ==> id in start.seen))
  {
    assert (starts + [start])[..|starts|] == starts;
    var before := starts[..|starts| - 1];
    CrashSafety(plan, before, "");
    assert plan[0..] == plan;
    RunSafe(AfterStartups(plan, before), plan, 0, starts[|starts| - 1]);
    var db := AfterStartups(plan, starts);
    if forall id :: id in plan ==> id in start.seen {
      SeenAreSkipped(db, plan, start);
    }
    if forall id :: id in plan ==> start.faults(id) != ExecFails {
      UnseenIsRunAgain(db, plan, start);
    }
  }

  // ---------------------------------------------------------------- repeated ids

  lemma {:induction false} CompletesIff(db: Db, todo: seq<string>, start: Startup)
    requires start.seen == {} && forall id :: start.faults(id) == NoFault
    ensures Run(db, todo, start).1 == Complete <==>
            Distinct(todo) && forall i :: 0 <= i < |todo| ==> todo[i] !in db.recorded
    decreases |todo|
  {
    if todo != [] {
      var id, rest := todo[0], todo[1..];
      var next := Db(db.recorded + [id], db.executed + [id]);
      CompletesIff(next, rest, start);
      assert forall i :: 0 <= i < |rest| ==> rest[i] == todo[i + 1];
      assert forall x :: x in next.recorded <==> x in db.recorded || x == id;
      if Distinct(rest) && forall i :: 0 <= i < |rest| ==> rest[i] !in next.recorded {
        assert forall j :: 0 < j < |todo| ==> todo[j] == rest[j - 1] && todo[j] != id;
      }
    }
  }

  /** On an empty database, a startup without any fault succeeds exactly when the ids are distinct. */
  lemma FirstStartupCompletesIffDistinct(plan: seq<string>, start: Startup)
    requires start.seen == {} && forall id :: start.faults(id) == NoFault
    ensures Run(Db([], []), plan, start).1 == Complete <==> Distinct(plan)
  {
    CompletesIff(Db([], []), plan, start);
  }
}
