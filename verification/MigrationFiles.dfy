/**
 * internal/store/migration.go: loading the migration scripts. Whatever order the directory is listed in,
 * the sorted list of migrations is the same.
 */
module MigrationFiles {
  import opened Text
  import opened Migrations

  // ---------------------------------------------------------------- the order of names

  /** Go's `<` on strings. */
  predicate Before(a: string, b: string) {
    if b == "" then false
    else if a == "" then true
    else a[0] < b[0] || (a[0] == b[0] && Before(a[1..], b[1..]))
  }

  /** The texts agree up to `k`, where the first has the smaller character. */
  predicate SmallerAt(a: string, b: string, k: int) {
    0 <= k < |a| && k < |b| && a[..k] == b[..k] && a[k] < b[k]
  }

  ghost predicate Ascends(a: string, b: string) {
    (|a| < |b| && a == b[..|a|]) || exists k :: SmallerAt(a, b, k)
  }

  /** The order is the ascending one: a proper prefix comes first, and so does the smaller character. */
  lemma {:induction false} BeforeIffAscends(a: string, b: string)
    ensures Before(a, b) <==> Ascends(a, b)
  {
    if a != "" && b != "" && a[0] == b[0] {
      BeforeIffAscends(a[1..], b[1..]);
      assert a == [a[0]] + a[1..] && b == [b[0]] + b[1..];
      if Ascends(a[1..], b[1..]) {
        if k :| SmallerAt(a[1..], b[1..], k) {
          assert a[..k + 1] == [a[0]] + a[1..][..k] && b[..k + 1] == [b[0]] + b[1..][..k];
          assert SmallerAt(a, b, k + 1);
        } else {
          assert b[..|a|] == [b[0]] + b[1..][..|a| - 1];
        }
      }
      if Ascends(a, b) {
        if k :| SmallerAt(a, b, k) {
          assert a[1..][..k - 1] == a[..k][1..] && b[1..][..k - 1] == b[..k][1..];
          assert SmallerAt(a[1..], b[1..], k - 1);
        } else {
          assert b[1..][..|a| - 1] == b[..|a|][1..];
        }
      }
    } else if a != "" && b != "" {
      assert a[0] < b[0] ==> SmallerAt(a, b, 0);
    }
  }

  lemma {:induction false} BeforeTotal(a: string, b: string)
    ensures a != b <==> Before(a, b) || Before(b, a)
    ensures !(Before(a, b) && Before(b, a))
  {
    if a != "" && b != "" {
      BeforeTotal(a[1..], b[1..]);
      assert a == [a[0]] + a[1..] && b == [b[0]] + b[1..];
    }
  }

  lemma {:induction false} BeforeTransitive(a: string, b: string, c: string)
    requires Before(a, b) && Before(b, c)
    ensures Before(a, c)
  {
    if a != "" && a[0] == b[0] == c[0] {
      BeforeTransitive(a[1..], b[1..], c[1..]);
    }
  }

  predicate Sorted(names: seq<string>) {
    forall i, j :: 0 <= i < j < |names| ==> !Before(names[j], names[i])
  }

  lemma {:induction false} InsertName(names: seq<string>, x: string) returns (r: seq<string>)
    requires Sorted(names)
    ensures Sorted(r) && multiset(r) == multiset(names) + multiset{x}
  {
    if names == [] || !Before(names[0], x) {
      r := [x] + names;
      forall j | 0 <= j < |names|
        ensures !Before(names[j], x)
      {
        NotBeforeFirst(names, x, j);
      }
    } else {
      var rest := InsertName(names[1..], x);
      assert names == [names[0]] + names[1..];
      forall j | 0 <= j < |rest|
        ensures !Before(rest[j], names[0])
      {
        assert rest[j] in multiset(names[1..]) + multiset{x};
        BeforeTotal(x, names[0]);
      }
      r := [names[0]] + rest;
    }
  }

  lemma NotBeforeFirst(names: seq<string>, x: string, j: int)
    requires Sorted(names) && 0 <= j < |names| && !Before(names[0], x)
    ensures !Before(names[j], x)
  {
    if Before(names[j], x) {
      BeforeTotal(names[0], names[j]);
      if Before(names[0], names[j]) {
        BeforeTransitive(names[0], names[j], x);
      }
    }
  }

  lemma {:induction false} NamesCanBeSorted(names: seq<string>) returns (r: seq<string>)
    ensures Sorted(r) && multiset(r) == multiset(names)
  {
    if names == [] {
      r := [];
    } else {
      r := NamesCanBeSorted(names[1..]);
      r := InsertName(r, names[0]);
      assert names == [names[0]] + names[1..];
    }
  }

  lemma FirstsAgree(a: seq<string>, b: seq<string>)
    requires Sorted(a) && Sorted(b) && multiset(a) == multiset(b) && a != [] && b != []
    ensures a[0] == b[0]
  {
    FirstIsLeast(a, b[0]);
    FirstIsLeast(b, a[0]);
    BeforeTotal(a[0], b[0]);
  }

  lemma TailCounts(a: seq<string>)
    requires a != []
    ensures multiset(a[1..]) == multiset(a) - multiset{a[0]}
  {
    assert a == [a[0]] + a[1..];
  }

  /** A collection of names has only one sorted order. */
  lemma {:induction false} SortedOrderIsUnique(a: seq<string>, b: seq<string>)
    requires Sorted(a) && Sorted(b) && multiset(a) == multiset(b)
    ensures a == b
  {
    assert |b| == |multiset(b)| == |multiset(a)| == |a|;
    if a != [] {
      FirstsAgree(a, b);
      TailCounts(a);
      TailCounts(b);
      SortedOrderIsUnique(a[1..], b[1..]);
      assert a == [a[0]] + a[1..] && b == [b[0]] + b[1..];
    }
  }

  lemma FirstIsLeast(a: seq<string>, x: string)
    requires Sorted(a) && a != [] && x in multiset(a)
    ensures !Before(x, a[0])
  {
    BeforeTotal(a[0], a[0]);
    var i :| 0 <= i < |a| && a[i] == x;
  }

  // ---------------------------------------------------------------- loading

  function Loaded(name: string, sqlite: map<string, string>, postgres: map<string, string>): seq<Migration> {
    if ParseMigrationFile(name).0 == "" then [] else [MigrationOf(name, sqlite, postgres)]
  }

  /** The migrations of the files in the given order; names without an id are skipped. */
  function Load(names: seq<string>, sqlite: map<string, string>, postgres: map<string, string>): seq<Migration> {
    if names == [] then []
    else
      var name := names[|names| - 1];
      Load(names[..|names| - 1], sqlite, postgres) + Loaded(name, sqlite, postgres)
  }

  function Content(files: map<string, string>, name: string): string {
    if name in files then Trim(files[name]) else ""
  }

  function MigrationOf(name: string, sqlite: map<string, string>, postgres: map<string, string>): Migration {
    Migration(ParseMigrationFile(name).0, Content(sqlite, name), Content(postgres, name))
  }

  predicate HoldsAt<T(==)>(list: seq<T>, at: int, x: T) {
    0 <= at < |list| && list[at] == x
  }

  lemma HoldsInLonger<T>(list: seq<T>, more: seq<T>, at: int, x: T)
    requires HoldsAt(list, at, x)
    ensures HoldsAt(list + more, at, x)
  {
  }

  /** The parts one after the other. */
  function Joined<T>(parts: seq<seq<T>>): seq<T> {
    if parts == [] then [] else Joined(parts[..|parts| - 1]) + parts[|parts| - 1]
  }

  lemma {:induction false} JoinedAt<T>(parts: seq<seq<T>>, p: int, x: T)
    requires 0 <= p < |parts| && parts[p] == [x]
    ensures HoldsAt(Joined(parts), |Joined(parts[..p])|, x)
  {
    var n := |parts| - 1;
    if p < n {
      JoinedAt(parts[..n], p, x);
      assert parts[..n][..p] == parts[..p];
      HoldsInLonger(Joined(parts[..n]), parts[n], |Joined(parts[..p])|, x);
    }
  }

  lemma {:induction false} JoinedGrows<T>(parts: seq<seq<T>>, p: int, q: int)
    requires 0 <= p < q <= |parts| && |parts[p]| == 1
    ensures |Joined(parts[..p])| < |Joined(parts[..q])|
  {
    assert parts[..q][..p] == parts[..p];
    JoinedAt(parts[..q], p, parts[p][0]);
  }

  function LoadedParts(names: seq<string>, sqlite: map<string, string>, postgres: map<string, string>)
    : seq<seq<Migration>>
  {
    seq(|names|, i requires 0 <= i < |names| => Loaded(names[i], sqlite, postgres))
  }

  lemma {:induction false} LoadIsJoined(names: seq<string>, sqlite: map<string, string>, postgres: map<string, string>)
    ensures Load(names, sqlite, postgres) == Joined(LoadedParts(names, sqlite, postgres))
  {
    if names != [] {
      var n := |names| - 1;
      LoadIsJoined(names[..n], sqlite, postgres);
      assert LoadedParts(names, sqlite, postgres)[..n] == LoadedParts(names[..n], sqlite, postgres);
    }
  }

  lemma SortedOrderExists(names: seq<string>)
    ensures exists r :: Sorted(r) && multiset(r) == multiset(names)
  {
    var r := NamesCanBeSorted(names);
  }

  ghost function SortedOrder(names: seq<string>): (r: seq<string>)
    ensures Sorted(r) && multiset(r) == multiset(names)
  {
    SortedOrderExists(names);
    var r :| Sorted(r) && multiset(r) == multiset(names);
    r
  }

  /** The migrations that the files of a directory stand for. */
  ghost function MigrationsOf(listing: seq<string>, sqlite: map<string, string>, postgres: map<string, string>)
    : seq<Migration>
  {
    Load(SortedOrder(listing), sqlite, postgres)
  }

  lemma SameFilesSameMigrations(a: seq<string>, b: seq<string>,
                                sqlite: map<string, string>, postgres: map<string, string>)
    requires multiset(a) == multiset(b)
    ensures MigrationsOf(a, sqlite, postgres) == MigrationsOf(b, sqlite, postgres)
  {
    SortedOrderIsUnique(SortedOrder(a), SortedOrder(b));
  }

  lemma {:induction false} JoinedHas<T>(parts: seq<seq<T>>, x: T)
    ensures x in Joined(parts) <==> exists p :: 0 <= p < |parts| && x in parts[p]
  {
    if parts != [] {
      var n := |parts| - 1;
      JoinedHas(parts[..n], x);
      assert forall p :: 0 <= p < n ==> parts[..n][p] == parts[p];
    }
  }

  /** Something stands before the first '_' of the name. */
  predicate HasId(name: string) {
    '_' in name && name[0] != '_'
  }

  lemma LoadedIff(name: string, sqlite: map<string, string>, postgres: map<string, string>, m: Migration)
    ensures m in Loaded(name, sqlite, postgres) <==> HasId(name) && m == MigrationOf(name, sqlite, postgres)
  {
    SkippedNames(name);
  }

  lemma SameNames(a: seq<string>, b: seq<string>, name: string)
    requires multiset(a) == multiset(b)
    ensures name in a <==> name in b
  {
    assert name in a <==> name in multiset(a);
    assert name in b <==> name in multiset(b);
  }

  /** Exactly the files with an id are loaded. */
  lemma LoadsTheFilesWithAnId(listing: seq<string>, sqlite: map<string, string>, postgres: map<string, string>,
                              m: Migration)
    ensures m in MigrationsOf(listing, sqlite, postgres) <==>
            exists name :: name in listing && HasId(name) && m == MigrationOf(name, sqlite, postgres)
  {
    var names := SortedOrder(listing);
    var parts := LoadedParts(names, sqlite, postgres);
    LoadIsJoined(names, sqlite, postgres);
    JoinedHas(parts, m);
    if p :| 0 <= p < |parts| && m in parts[p] {
      LoadedIff(names[p], sqlite, postgres, m);
      SameNames(names, listing, names[p]);
    }
    if name :| name in listing && HasId(name) && m == MigrationOf(name, sqlite, postgres) {
      SameNames(names, listing, name);
      LoadedIff(name, sqlite, postgres, m);
      var p :| 0 <= p < |names| && names[p] == name;
      assert m in parts[p];
    }
  }

  /** `a` comes before `b` in the list. */
  predicate InThisOrder<T(==)>(list: seq<T>, a: T, b: T) {
    exists i, j :: 0 <= i < j < |list| && list[i] == a && list[j] == b
  }

  /** Of two files of a directory, the one whose name is smaller at the first difference is loaded first. */
  lemma LoadedAscending(listing: seq<string>, sqlite: map<string, string>, postgres: map<string, string>,
                        a: string, b: string, k: int)
    requires a in listing && b in listing && SmallerAt(a, b, k)
    requires ParseMigrationFile(a).0 != "" && ParseMigrationFile(b).0 != ""
    ensures InThisOrder(MigrationsOf(listing, sqlite, postgres),
                        MigrationOf(a, sqlite, postgres), MigrationOf(b, sqlite, postgres))
  {
    var names := SortedOrder(listing);
    assert a in multiset(names) && b in multiset(names);
    var p :| 0 <= p < |names| && names[p] == a;
    var q :| 0 <= q < |names| && names[q] == b;
    BeforeIffAscends(a, b);
    BeforeTotal(a, b);
    assert p < q;
    var parts := LoadedParts(names, sqlite, postgres);
    LoadIsJoined(names, sqlite, postgres);
    JoinedAt(parts, p, MigrationOf(a, sqlite, postgres));
    JoinedAt(parts, q, MigrationOf(b, sqlite, postgres));
    JoinedGrows(parts, p, q);
  }

  /** The scripts of a file are its contents in the two directories, trimmed; a missing one is empty. */
  lemma ScriptsOf(name: string, sqlite: map<string, string>, postgres: map<string, string>)
    ensures var m := MigrationOf(name, sqlite, postgres);
            && m.id == ParseMigrationFile(name).0
            && (name in sqlite ==> SqlFor(m, SQLite) == Trim(sqlite[name]))
            && (if name in postgres then SqlFor(m, Postgres) == Trim(postgres[name]) else SqlFor(m, Postgres) == "")
  {
  }

  lemma PlanKeepsOrder(ms: seq<Migration>, driver: Driver, a: Migration, b: Migration)
    requires InThisOrder(ms, a, b) && HasScript(a, driver) && HasScript(b, driver)
    ensures InThisOrder(Plan(ms, driver), a.id, b.id)
  {
    var i, j :| 0 <= i < j < |ms| && ms[i] == a && ms[j] == b;
    var at := PlanOfDriver(ms, driver);
    var k :| 0 <= k < |at| && at[k] == i;
    var l :| 0 <= l < |at| && at[l] == j;
    assert !(l < k) && k != l;
  }

  /** And it is run first, by either driver, when both have a script for it. */
  lemma PlannedAscending(listing: seq<string>, sqlite: map<string, string>, postgres: map<string, string>,
                         driver: Driver, a: string, b: string, k: int)
    requires a in listing && b in listing && SmallerAt(a, b, k)
    requires ParseMigrationFile(a).0 != "" && ParseMigrationFile(b).0 != ""
    requires HasScript(MigrationOf(a, sqlite, postgres), driver) && HasScript(MigrationOf(b, sqlite, postgres), driver)
    ensures InThisOrder(Plan(MigrationsOf(listing, sqlite, postgres), driver),
                        ParseMigrationFile(a).0, ParseMigrationFile(b).0)
  {
    LoadedAscending(listing, sqlite, postgres, a, b, k);
    PlanKeepsOrder(MigrationsOf(listing, sqlite, postgres), driver,
                   MigrationOf(a, sqlite, postgres), MigrationOf(b, sqlite, postgres));
  }

  /** `loadMigrations` for a listing of the sqlite directory. */
  method LoadMigrations(listing: seq<string>, sqlite: map<string, string>, postgres: map<string, string>)
    returns (ms: seq<Migration>)
    ensures ms == MigrationsOf(listing, sqlite, postgres)
  {
    ghost var sorting := NamesCanBeSorted(listing);
    var entries: seq<string> :| Sorted(entries) && multiset(entries) == multiset(listing);
    ms := [];
    for i := 0 to |entries|
      invariant ms == Load(entries[..i], sqlite, postgres)
    {
      var name := entries[i];
      assert entries[..i + 1][..i] == entries[..i];
      var (id, _) := ParseMigrationFile(name);
      if id != "" {
        var sqliteSql := if name in sqlite then sqlite[name] else "";
        var postgresSql := if name in postgres then postgres[name] else "";
        ms := ms + [Migration(id, Trim(sqliteSql), Trim(postgresSql))];
      }
    }
    assert entries[..|entries|] == entries;
    SortedOrderIsUnique(entries, SortedOrder(listing));
  }

  /**
   * A whole startup: load the scripts from a listing in any order, then run what is not recorded. Over any
   * startups of a database on the same files, whatever fails, the records stay a prefix of the plan, and at
   * most the next migration was run without being recorded.
   */
  method LoadAndRun(db: Database, listing: seq<string>, sqlite: map<string, string>, postgres: map<string, string>,
                    driver: Driver, start: Startup)
    returns (outcome: Outcome)
    modifies db
    ensures var plan := Plan(MigrationsOf(listing, sqlite, postgres), driver);
            && (db.View(), outcome) == Run(old(db.View()), plan, start) && db.starts == old(db.starts) + [start]
            && (old(db.Ran(plan)) && Reads(start, old(db.View())) ==>
                  && db.Ran(plan)
                  && (Distinct(plan) ==> Safe(db.View(), plan) && (outcome == Complete ==> db.View().recorded == plan)))
  {
    var ms := LoadMigrations(listing, sqlite, postgres);
    ghost var plan, before, earlier := Plan(ms, driver), db.View(), db.starts;
    outcome := db.RunMigrations(ms, driver, start);
    if before == AfterStartups(plan, earlier) && Honest(plan, earlier) && Reads(start, before) && Distinct(plan) {
      CrashSafety(plan, earlier, "");
      assert plan[0..] == plan;
      RunSafe(before, plan, 0, start);
    }
  }
}
