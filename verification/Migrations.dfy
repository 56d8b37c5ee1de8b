/**
 * The migration script: every file that the history table does not list is applied and recorded, and a file
 * whose table is already there may be adopted. A run may be cut off before any of its operations.
 */
module Migrations {
  import opened Wrappers

  /**
   * A migration file: it creates a table and then an index. `probe` is the table name that the script reads
   * off the file.
   */
  datatype Migration = Migration(id: string, table: string, index: string, probe: Option<string>)

  /** The history table and the schema; tables in the order of their creation. */
  datatype Db = Db(history: bool, applied: set<string>, tables: seq<string>, indexes: set<string>)

  const EMPTY := Db(false, {}, [], {})

  /** Where the script stands with one file, and the operation that comes next. */
  datatype Point = Look | Probe | Create | Index | Record

  datatype Outcome =
    | Done
    | NoFiles
    | CutOff(next: Point, file: Option<Migration>)
    | Aborted(at: Point, rejected: Migration)

  // ---------------------------------------------------------------- a run

  function Rank(at: Point): nat {
    match at
    case Look => 4
    case Probe => 3
    case Create => 2
    case Index => 1
    case Record => 0
  }

  /** The loop from file i on, when `budget` more operations complete. */
  function Loop(files: seq<Migration>, adopt: bool, db: Db, budget: nat, i: nat, at: Point): (Db, Outcome)
    requires i <= |files|
    decreases |files| - i, Rank(at)
  {
    if i == |files| then (db, Done)
    else
      var m := files[i];
      if budget == 0 then (db, CutOff(at, Some(m)))
      else
        var b := budget - 1;
        match at
        case Look =>
          if m.id in db.applied then Loop(files, adopt, db, b, i + 1, Look)
          else if m.probe.Some? then Loop(files, adopt, db, b, i, Probe)
          else Loop(files, adopt, db, b, i, Create)
        case Probe =>
          if m.probe.Some? && m.probe.value in db.tables && adopt then Loop(files, adopt, db, b, i, Record)
          else Loop(files, adopt, db, b, i, Create)
        case Create =>
          if m.table in db.tables then (db, Aborted(Create, m))
          else Loop(files, adopt, db.(tables := db.tables + [m.table]), b, i, Index)
        case Index =>
          if m.index in db.indexes then (db, Aborted(Index, m))
          else Loop(files, adopt, db.(indexes := db.indexes + {m.index}), b, i, Record)
        case Record => Loop(files, adopt, db.(applied := db.applied + {m.id}), b, i + 1, Look)
  }

  function Migrate(files: seq<Migration>, adopt: bool, db: Db, budget: nat): (Db, Outcome) {
    if files == [] then (db, NoFiles)
    else if budget == 0 then (db, CutOff(Look, None))
    else Loop(files, adopt, db.(history := true), budget - 1, 0, Look)
  }

  /** One run after the other: the database they leave, and how each ended. */
  function Runs(files: seq<Migration>, adopt: bool, db: Db, budgets: seq<nat>): (r: (Db, seq<Outcome>))
    ensures |r.1| == |budgets|
    decreases |budgets|
  {
    if budgets == [] then (db, [])
    else
      var (db', o) := Migrate(files, adopt, db, budgets[0]);
      var (last, os) := Runs(files, adopt, db', budgets[1..]);
      (last, [o] + os)
  }

  // ---------------------------------------------------------------- where a database stands

  /** Every file has its own path, table and index. */
  predicate Distinct(files: seq<Migration>) {
    forall i, j | 0 <= i < j < |files| ::
      files[i].id != files[j].id && files[i].table != files[j].table && files[i].index != files[j].index
  }

  /** And the script reads the table's name off each. */
  predicate WellFormed(files: seq<Migration>) {
    Distinct(files) && forall i | 0 <= i < |files| :: files[i].probe == Some(files[i].table)
  }

  function Tables(files: seq<Migration>): (ts: seq<string>)
    ensures |ts| == |files| && forall i | 0 <= i < |ts| :: ts[i] == files[i].table
  {
    if files == [] then [] else [files[0].table] + Tables(files[1..])
  }

  /** The paths of the first a files. */
  function Ids(files: seq<Migration>, a: nat): set<string>
    requires a <= |files|
  {
    if a == 0 then {} else Ids(files, a - 1) + {files[a - 1].id}
  }

  /** The tables of the first k files are there, and the first a files are recorded: all but perhaps the last. */
  predicate Stands(files: seq<Migration>, db: Db, k: nat, a: nat) {
    && k <= |files| && a <= k <= a + 1
    && db.tables == Tables(files)[..k]
    && db.applied == Ids(files, a)
    && (forall i | k <= i < |files| :: files[i].index !in db.indexes)
  }

  ghost predicate Sound(files: seq<Migration>, db: Db) {
    exists k: nat, a: nat :: Stands(files, db, k, a)
  }

  predicate Complete(files: seq<Migration>, db: Db) {
    db.history && Stands(files, db, |files|, |files|)
  }

  predicate Unindexed(db: Db, m: Migration) {
    m.table in db.tables && m.index !in db.indexes
  }

  /** Where the loop can be, in a database that stands at (k, a). */
  predicate Fits(files: seq<Migration>, db: Db, k: nat, a: nat, i: nat, at: Point) {
    && db.history && Stands(files, db, k, a) && i <= a
    && match at
       case Look => true
       case Probe => i == a < |files|
       case Create => i == a == k < |files|
       case Index => i == a < k && files[i].index !in db.indexes
       case Record => i == a < k
  }

  // ---------------------------------------------------------------- one operation

  lemma {:induction false} IdAmong(files: seq<Migration>, a: nat, i: nat)
    requires Distinct(files) && a <= |files| && i < |files|
    ensures files[i].id in Ids(files, a) <==> i < a
  {
    if a > 0 {
      IdAmong(files, a - 1, i);
    }
  }

  lemma TableOfFile(files: seq<Migration>, db: Db, k: nat, a: nat, i: nat)
    requires Distinct(files) && Stands(files, db, k, a) && i < |files|
    ensures files[i].table in db.tables <==> i < k
    ensures files[i].id in db.applied <==> i < a
  {
    IdAmong(files, a, i);
    if i < k {
      assert db.tables[i] == files[i].table;
    }
  }

  lemma CreateStands(files: seq<Migration>, db: Db, k: nat)
    requires Stands(files, db, k, k) && k < |files|
    ensures Stands(files, db.(tables := db.tables + [files[k].table]), k + 1, k)
    ensures files[k].index !in db.indexes
  {
    hide Ids, Tables;
    assert Tables(files)[..k + 1] == Tables(files)[..k] + [files[k].table];
  }

  lemma IndexStands(files: seq<Migration>, db: Db, k: nat, a: nat, i: nat)
    requires Distinct(files) && Stands(files, db, k, a) && i < k
    ensures Stands(files, db.(indexes := db.indexes + {files[i].index}), k, a)
  {
  }

  lemma RecordStands(files: seq<Migration>, db: Db, k: nat, a: nat)
    requires Stands(files, db, k, a) && a < k
    ensures Stands(files, db.(applied := db.applied + {files[a].id}), k, a + 1)
  {
  }

  // ---------------------------------------------------------------- the loop

  /** Which files lack an index after the loop: those that lacked one, and the one it was cut off at. */
  predicate Explains(files: seq<Migration>, db: Db, i: nat, at: Point, db': Db, o: Outcome) {
    forall m | m in files ::
      Unindexed(db', m) <==>
      (Unindexed(db, m) && !(at == Index && i < |files| && m == files[i])) || o == CutOff(Index, Some(m))
  }

  /** What a loop that adopts does, from any point it can reach. */
  ghost predicate LoopOk(files: seq<Migration>, db: Db, i: nat, at: Point, db': Db, o: Outcome) {
    && Sound(files, db') && !o.Aborted? && !o.NoFiles? && (o.Done? ==> Complete(files, db'))
    && Explains(files, db, i, at, db', o)
  }

  lemma CreateExplains(files: seq<Migration>, db: Db, k: nat, db': Db, o: Outcome)
    requires WellFormed(files) && Stands(files, db, k, k) && k < |files|
    requires Explains(files, db.(tables := db.tables + [files[k].table]), k, Index, db', o)
    ensures Explains(files, db, k, Create, db', o)
  {
    var db1 := db.(tables := db.tables + [files[k].table]);
    forall m | m in files ensures Unindexed(db1, m) && m != files[k] <==> Unindexed(db, m) {
      var j :| 0 <= j < |files| && files[j] == m;
      TableOfFile(files, db, k, k, j);
    }
  }

  lemma IndexExplains(files: seq<Migration>, db: Db, i: nat, db': Db, o: Outcome)
    requires WellFormed(files) && i < |files|
    requires Explains(files, db.(indexes := db.indexes + {files[i].index}), i, Record, db', o)
    ensures Explains(files, db, i, Index, db', o)
  {
  }

  lemma EndIsOk(files: seq<Migration>, db: Db, budget: nat, i: nat, at: Point, k: nat, a: nat)
    requires WellFormed(files) && Fits(files, db, k, a, i, at) && (i == |files| || budget == 0)
    ensures
      var (db', o) := Loop(files, true, db, budget, i, at);
      LoopOk(files, db, i, at, db', o)
  {
    hide Distinct;
    if i < |files| {
      TableOfFile(files, db, k, a, i);
    }
  }

  lemma {:induction false} LoopIsOk(
    files: seq<Migration>, db: Db, budget: nat, i: nat, at: Point, k: nat, a: nat)
    requires WellFormed(files) && Fits(files, db, k, a, i, at)
    ensures
      var (db', o) := Loop(files, true, db, budget, i, at);
      LoopOk(files, db, i, at, db', o)
    decreases |files| - i, Rank(at)
  {
    hide Stands, Explains, Unindexed;
    StandsBounds(files, db, k, a);
    if i == |files| || budget == 0 {
      EndIsOk(files, db, budget, i, at, k, a);
    } else {
      TableOfFile(files, db, k, a, i);
      var (db', o) := Loop(files, true, db, budget, i, at);
      match at
      case Look =>
        var next := if i < a then i + 1 else i;
        var at' := if i < a then Look else Probe;
        LoopIsOk(files, db, budget - 1, next, at', k, a);
        MovesExplain(files, db, i, at, next, at', db', o);
      case Probe =>
        var at' := if i < k then Record else Create;
        LoopIsOk(files, db, budget - 1, i, at', k, a);
        MovesExplain(files, db, i, at, i, at', db', o);
      case Create =>
        CreateStands(files, db, k);
        LoopIsOk(files, db.(tables := db.tables + [files[i].table]), budget - 1, i, Index, k + 1, k);
        CreateExplains(files, db, k, db', o);
      case Index =>
        IndexStands(files, db, k, a, i);
        LoopIsOk(files, db.(indexes := db.indexes + {files[i].index}), budget - 1, i, Record, k, a);
        IndexExplains(files, db, i, db', o);
      case Record =>
        RecordStands(files, db, k, a);
        var db1 := db.(applied := db.applied + {files[i].id});
        LoopIsOk(files, db1, budget - 1, i + 1, Look, k, a + 1);
        RecordExplains(files, db, db1, i, db', o);
    }
  }

  lemma StandsBounds(files: seq<Migration>, db: Db, k: nat, a: nat)
    requires Stands(files, db, k, a)
    ensures a <= k <= |files| && k <= a + 1
  {
  }

  lemma MovesExplain(
    files: seq<Migration>, db: Db, i: nat, at: Point, i': nat, at': Point, db': Db, o: Outcome)
    requires Explains(files, db, i', at', db', o) && at != Index && at' != Index
    ensures Explains(files, db, i, at, db', o)
  {
  }

  lemma RecordExplains(files: seq<Migration>, db: Db, db1: Db, i: nat, db': Db, o: Outcome)
    requires Explains(files, db1, i + 1, Look, db', o) && db1.tables == db.tables && db1.indexes == db.indexes
    ensures Explains(files, db, i, Record, db', o)
  {
  }

  // ---------------------------------------------------------------- runs that adopt

  /** One run that adopts keeps a database sound, never aborts, and when it is done everything is there. */
  lemma MigrateIsOk(files: seq<Migration>, db: Db, budget: nat)
    requires WellFormed(files) && files != [] && Sound(files, db)
    ensures
      var (db', o) := Migrate(files, true, db, budget);
      LoopOk(files, db, 0, Look, db', o)
  {
    hide WellFormed, Unindexed, Explains;
    var k: nat, a: nat :| Stands(files, db, k, a);
    var db1 := db.(history := true);
    assert Stands(files, db1, k, a);
    hide Stands;
    if budget > 0 {
      LoopIsOk(files, db1, budget - 1, 0, Look, k, a);
    }
    var (db', o) := Migrate(files, true, db, budget);
    SameSchemaExplains(files, db, db1, db', o);
  }

  lemma SameSchemaExplains(files: seq<Migration>, db: Db, db1: Db, db': Db, o: Outcome)
    requires db1.tables == db.tables && db1.indexes == db.indexes
    requires Explains(files, db1, 0, Look, db', o) || (db' == db && o == CutOff(Look, None))
    ensures Explains(files, db, 0, Look, db', o)
  {
  }

  /** How the last of a sequence of runs ended. */
  predicate EndedDone(os: seq<Outcome>) {
    os != [] && os[|os| - 1].Done?
  }

  /**
   * Crash recovery: from an empty database, after any number of runs cut off anywhere, the tables are a
   * prefix of the list, no run has tried to create something that was there, and once a run is done every
   * table is created and every file recorded.
   */
  lemma CrashRecovery(files: seq<Migration>, budgets: seq<nat>)
    requires WellFormed(files) && files != []
    ensures
      var (db, os) := Runs(files, true, EMPTY, budgets);
      && (exists k: nat :: k <= |files| && db.tables == Tables(files)[..k])
      && (forall i | 0 <= i < |os| :: !os[i].Aborted?)
      && (EndedDone(os) ==> Complete(files, db))
  {
    hide WellFormed;
    EmptyIsSound(files);
    RunsAreOk(files, EMPTY, budgets);
  }

  lemma {:induction false} RunsAreOk(files: seq<Migration>, db: Db, budgets: seq<nat>)
    requires WellFormed(files) && files != [] && Sound(files, db)
    ensures
      var (db', os) := Runs(files, true, db, budgets);
      && Sound(files, db') && (forall i | 0 <= i < |os| :: !os[i].Aborted?)
      && (EndedDone(os) ==> Complete(files, db'))
      && forall m | m in files :: Unindexed(db', m) <==> Unindexed(db, m) || CutOff(Index, Some(m)) in os
    decreases |budgets|
  {
    hide WellFormed, Sound, Complete, Unindexed, Migrate;
    if budgets != [] {
      MigrateIsOk(files, db, budgets[0]);
      var (db1, o) := Migrate(files, true, db, budgets[0]);
      var (db', os) := Runs(files, true, db1, budgets[1..]);
      RunsAreOk(files, db1, budgets[1..]);
      assert forall x :: x in [o] + os <==> x == o || x in os;
      assert budgets[1..] == [] ==> os == [] && db' == db1;
    }
  }

  lemma CompleteHasTables(files: seq<Migration>, db: Db, m: Migration)
    requires Complete(files, db) && m in files
    ensures m.table in db.tables
  {
    var i :| 0 <= i < |files| && files[i] == m;
    assert db.tables[i] == m.table;
  }

  /**
   * The index of a file is not covered by recovery: once a run is done, it is missing exactly if some run
   * was cut off between the two statements of that file.
   */
  lemma IndexLostIff(files: seq<Migration>, budgets: seq<nat>, m: Migration)
    requires WellFormed(files) && m in files && EndedDone(Runs(files, true, EMPTY, budgets).1)
    ensures
      var (db, os) := Runs(files, true, EMPTY, budgets);
      m.index !in db.indexes <==> CutOff(Index, Some(m)) in os
  {
    hide WellFormed, Stands;
    EmptyIsSound(files);
    RunsAreOk(files, EMPTY, budgets);
    CompleteHasTables(files, Runs(files, true, EMPTY, budgets).0, m);
  }

  // ---------------------------------------------------------------- a further run

  lemma {:induction false} NothingToDo(files: seq<Migration>, adopt: bool, db: Db, budget: nat, i: nat)
    requires i <= |files| && forall j | 0 <= j < |files| :: files[j].id in db.applied
    ensures Loop(files, adopt, db, budget, i, Look).0 == db
    ensures budget >= |files| - i ==> Loop(files, adopt, db, budget, i, Look).1.Done?
    decreases |files| - i
  {
    if i < |files| && budget > 0 {
      NothingToDo(files, adopt, db, budget - 1, i + 1);
    }
  }

  /** After a run that was done, a further run changes nothing, and with time to look at each file is done. */
  lemma FurtherRunChangesNothing(files: seq<Migration>, budgets: seq<nat>, adopt: bool, budget: nat)
    requires WellFormed(files) && files != [] && EndedDone(Runs(files, true, EMPTY, budgets).1)
    ensures
      var db := Runs(files, true, EMPTY, budgets).0;
      var (db', o) := Migrate(files, adopt, db, budget);
      db' == db && (o.Done? <==> budget > |files|)
  {
    hide Distinct, Runs;
    CrashRecovery(files, budgets);
    var db := Runs(files, true, EMPTY, budgets).0;
    assert db.(history := true) == db;
    hide Loop;
    forall j | 0 <= j < |files| ensures files[j].id in db.applied {
      TableOfFile(files, db, |files|, |files|, j);
    }
    if budget > 0 {
      NothingToDo(files, adopt, db, budget - 1, 0);
      if budget <= |files| {
        Unfinished(files, adopt, db, budget - 1, 0);
      }
    }
  }

  lemma {:induction false} Unfinished(files: seq<Migration>, adopt: bool, db: Db, budget: nat, i: nat)
    requires i <= |files| && budget < |files| - i
    requires forall j | 0 <= j < |files| :: files[j].id in db.applied
    ensures !Loop(files, adopt, db, budget, i, Look).1.Done?
    decreases |files| - i
  {
    if budget > 0 {
      Unfinished(files, adopt, db, budget - 1, i + 1);
    }
  }

  // ---------------------------------------------------------------- a run that is not cut off

  /** Each file takes at most five operations. */
  function Needed(files: seq<Migration>, i: nat, at: Point): int {
    5 * (|files| - i) - if i < |files| then 4 - Rank(at) else 0
  }

  lemma {:induction false} EnoughOperations(
    files: seq<Migration>, adopt: bool, db: Db, budget: nat, i: nat, at: Point)
    requires i <= |files| && budget >= Needed(files, i, at)
    ensures var o := Loop(files, adopt, db, budget, i, at).1; o.Done? || o.Aborted?
    decreases |files| - i, Rank(at)
  {
    if i < |files| {
      var m, b := files[i], budget - 1;
      match at
      case Look =>
        EnoughOperations(files, adopt, db, b, i + 1, Look);
        EnoughOperations(files, adopt, db, b, i, Probe);
        EnoughOperations(files, adopt, db, b, i, Create);
      case Probe =>
        EnoughOperations(files, adopt, db, b, i, Record);
        EnoughOperations(files, adopt, db, b, i, Create);
      case Create =>
        EnoughOperations(files, adopt, db.(tables := db.tables + [m.table]), b, i, Index);
      case Index =>
        EnoughOperations(files, adopt, db.(indexes := db.indexes + {m.index}), b, i, Record);
      case Record =>
        EnoughOperations(files, adopt, db.(applied := db.applied + {m.id}), b, i + 1, Look);
    }
  }

  /** However the earlier runs ended, a run that nothing cuts off completes the database. */
  lemma NextFullRunRecovers(files: seq<Migration>, budgets: seq<nat>, budget: nat)
    requires WellFormed(files) && files != [] && budget >= 1 + 5 * |files|
    ensures
      var (db, o) := Migrate(files, true, Runs(files, true, EMPTY, budgets).0, budget);
      o == Done && Complete(files, db)
  {
    hide WellFormed, Complete, Stands;
    EmptyIsSound(files);
    RunsAreOk(files, EMPTY, budgets);
    var db := Runs(files, true, EMPTY, budgets).0;
    MigrateIsOk(files, db, budget);
    EnoughOperations(files, true, db.(history := true), budget - 1, 0, Look);
  }

  lemma EmptyIsSound(files: seq<Migration>)
    ensures Sound(files, EMPTY)
  {
    assert Stands(files, EMPTY, 0, 0);
  }

  // ---------------------------------------------------------------- runs that do not adopt

  /** Cut off after a table was created and before its file was recorded. */
  predicate Interrupted(o: Outcome) {
    o.CutOff? && (o.next == Index || o.next == Record)
  }

  /** Every table that is there has its file recorded. */
  ghost predicate Aligned(files: seq<Migration>, db: Db) {
    exists k: nat :: Stands(files, db, k, k)
  }

  /** There is a table whose file is not recorded. */
  ghost predicate Blocked(files: seq<Migration>, db: Db) {
    exists k: nat, a: nat :: Stands(files, db, k, a) && k == a + 1
  }

  ghost predicate AlignedOk(files: seq<Migration>, db': Db, o: Outcome) {
    && !o.Aborted? && (if Interrupted(o) then Blocked(files, db') else Aligned(files, db'))
  }

  lemma StandsEither(files: seq<Migration>, db: Db, k: nat, a: nat)
    requires Stands(files, db, k, a)
    ensures if k == a then Aligned(files, db) else Blocked(files, db)
  {
    hide Stands;
    StandsBounds(files, db, k, a);
  }

  lemma {:induction false} AlignedLoop(
    files: seq<Migration>, db: Db, budget: nat, i: nat, at: Point, k: nat, a: nat)
    requires Distinct(files) && Fits(files, db, k, a, i, at)
    requires if at == Index || at == Record then k == a + 1 else k == a
    ensures
      var (db', o) := Loop(files, false, db, budget, i, at);
      AlignedOk(files, db', o)
    decreases |files| - i, Rank(at)
  {
    hide Stands, Aligned, Blocked, Distinct;
    StandsBounds(files, db, k, a);
    StandsEither(files, db, k, a);
    if i < |files| && budget > 0 {
      TableOfFile(files, db, k, a, i);
      match at
      case Look =>
        if i < a { AlignedLoop(files, db, budget - 1, i + 1, Look, k, a); }
        else { AlignedLoop(files, db, budget - 1, i, if files[i].probe.Some? then Probe else Create, k, a); }
      case Probe => AlignedLoop(files, db, budget - 1, i, Create, k, a);
      case Create =>
        CreateStands(files, db, k);
        AlignedLoop(files, db.(tables := db.tables + [files[i].table]), budget - 1, i, Index, k + 1, k);
      case Index =>
        IndexStands(files, db, k, a, i);
        AlignedLoop(files, db.(indexes := db.indexes + {files[i].index}), budget - 1, i, Record, k, a);
      case Record =>
        RecordStands(files, db, k, a);
        AlignedLoop(files, db.(applied := db.applied + {files[i].id}), budget - 1, i + 1, Look, k, a + 1);
    }
  }

  lemma {:induction false} BlockedLoop(
    files: seq<Migration>, db: Db, budget: nat, i: nat, at: Point, a: nat)
    requires Distinct(files) && Stands(files, db, a + 1, a) && i <= a
    requires at == Look || (i == a && (at == Probe || at == Create))
    ensures
      var (db', o) := Loop(files, false, db, budget, i, at);
      db' == db && !o.Done?
    decreases |files| - i, Rank(at)
  {
    hide Stands;
    StandsBounds(files, db, a + 1, a);
    if budget > 0 {
      TableOfFile(files, db, a + 1, a, i);
      match at
      case Look =>
        if i < a { BlockedLoop(files, db, budget - 1, i + 1, Look, a); }
        else { BlockedLoop(files, db, budget - 1, i, Probe, a); }
      case Probe => BlockedLoop(files, db, budget - 1, i, Create, a);
      case Create =>
    }
  }

  lemma AlignedMigrate(files: seq<Migration>, db: Db, budget: nat)
    requires Distinct(files) && files != [] && Aligned(files, db)
    ensures
      var (db', o) := Migrate(files, false, db, budget);
      AlignedOk(files, db', o)
  {
    hide Distinct, Loop;
    if budget > 0 {
      var db1 := db.(history := true);
      var k: nat :| Stands(files, db, k, k);
      assert Stands(files, db1, k, k);
      AlignedLoop(files, db1, budget - 1, 0, Look, k, k);
    }
  }

  lemma BlockedMigrate(files: seq<Migration>, db: Db, budget: nat)
    requires Distinct(files) && files != [] && Blocked(files, db)
    ensures
      var (db', o) := Migrate(files, false, db, budget);
      Blocked(files, db') && !o.Done?
  {
    hide Distinct, Loop;
    if budget > 0 {
      var db1 := db.(history := true);
      var k: nat, a: nat :| Stands(files, db, k, a) && k == a + 1;
      assert Stands(files, db1, a + 1, a);
      BlockedLoop(files, db1, budget - 1, 0, Look, a);
    }
  }

  lemma MigrateWithoutAdopting(files: seq<Migration>, db: Db, budget: nat)
    requires Distinct(files) && files != []
    ensures
      var (db', o) := Migrate(files, false, db, budget);
      && (Aligned(files, db) ==> AlignedOk(files, db', o))
      && (Blocked(files, db) ==> Blocked(files, db') && !o.Done?)
  {
    hide Distinct, Migrate, Blocked, Aligned, AlignedOk;
    if Aligned(files, db) {
      AlignedMigrate(files, db, budget);
    }
    if Blocked(files, db) {
      BlockedMigrate(files, db, budget);
    }
  }

  lemma {:induction false} RunsWithoutAdopting(files: seq<Migration>, db: Db, budgets: seq<nat>)
    requires Distinct(files) && files != []
    ensures
      var (db', os) := Runs(files, false, db, budgets);
      && (Blocked(files, db) ==> Blocked(files, db'))
      && (Aligned(files, db) ==>
            if exists o :: o in os && Interrupted(o) then Blocked(files, db') else Aligned(files, db'))
    decreases |budgets|
  {
    hide Distinct, Blocked, Aligned, Migrate, Interrupted;
    if budgets != [] {
      MigrateWithoutAdopting(files, db, budgets[0]);
      var (db1, o) := Migrate(files, false, db, budgets[0]);
      var (db', os) := Runs(files, false, db1, budgets[1..]);
      RunsWithoutAdopting(files, db1, budgets[1..]);
      assert Runs(files, false, db, budgets) == (db', [o] + os);
      assert forall x :: x in [o] + os <==> x == o || x in os;
    }
  }

  lemma EmptyIsAligned(files: seq<Migration>)
    ensures Aligned(files, EMPTY)
  {
    assert Stands(files, EMPTY, 0, 0);
  }

  /**
   * Without adoption recovery holds exactly as long as no run was interrupted between the creation of a
   * table and the record of its file; after such a run no later one is ever done.
   */
  lemma WithoutAdoptionIff(files: seq<Migration>, budgets: seq<nat>, budget: nat)
    requires Distinct(files) && files != [] && budget >= 1 + 5 * |files|
    ensures
      var (db, os) := Runs(files, false, EMPTY, budgets);
      Migrate(files, false, db, budget).1.Done? <==> forall o | o in os :: !Interrupted(o)
  {
    hide Distinct, Blocked, Aligned, Interrupted, Stands, Loop;
    EmptyIsAligned(files);
    RunsWithoutAdopting(files, EMPTY, budgets);
    var db := Runs(files, false, EMPTY, budgets).0;
    MigrateWithoutAdopting(files, db, budget);
    EnoughOperations(files, false, db.(history := true), budget - 1, 0, Look);
  }

  /** Without any file there is nothing to run, whatever the database holds. */
  lemma NoFilesNoRun(adopt: bool, db: Db, budget: nat)
    ensures Migrate([], adopt, db, budget) == (db, NoFiles)
  {
  }

  // ---------------------------------------------------------------- the files there are

  function AuthMigration(number: char, table: string, column: string): (m: Migration)
    ensures m.table == table && m.probe == Some(table)
    ensures |m.id| > 37 && m.id[37] == number && (|table| > 4 ==> |m.index| > 8 && m.index[8] == table[4])
  {
    Migration("auth-service/migrations/0000000000000" + [number] + "_create_" + table + "/up.sql",
              table, "idx_" + table + "_" + column, Some(table))
  }

  /** The files of the auth service. */
  const AUTH_MIGRATIONS := [
    AuthMigration('1', "auth_users", "email"),
    AuthMigration('2', "oauth_clients", "client_id"),
    AuthMigration('3', "authorization_codes", "code"),
    AuthMigration('4', "refresh_tokens", "token")]

  lemma AuthMigrationsAreWellFormed()
    ensures WellFormed(AUTH_MIGRATIONS)
  {
    hide AuthMigration;
    var fs := AUTH_MIGRATIONS;
    assert fs[0].table[4] == '_' && fs[1].table[4] == 'h' && fs[2].table[4] == 'o' && fs[3].table[4] == 'e';
  }

  // ---------------------------------------------------------------- the script

  class Schema {
    var history: bool
    var applied: set<string>
    var tables: seq<string>
    var indexes: set<string>

    function Current(): Db
      reads this
    {
      Db(history, applied, tables, indexes)
    }

    constructor ()
      ensures Current() == EMPTY
    {
      history, applied, tables, indexes := false, {}, [], {};
    }

    /** Both statements of one file; they are not one transaction. */
    method ApplyFile(m: Migration, budget: nat, ghost files: seq<Migration>, ghost adopt: bool, ghost i: nat)
      returns (stopped: Option<Outcome>, left: nat)
      requires i < |files| && files[i] == m
      modifies this
      ensures
        Loop(files, adopt, old(Current()), budget, i, Create) ==
        if stopped.Some? then (Current(), stopped.value) else Loop(files, adopt, Current(), left, i, Record)
    {
      left := budget;
      if left == 0 { return Some(CutOff(Create, Some(m))), left; }
      left := left - 1;
      if m.table in tables { return Some(Aborted(Create, m)), left; }
      tables := tables + [m.table];
      if left == 0 { return Some(CutOff(Index, Some(m))), left; }
      left := left - 1;
      if m.index in indexes { return Some(Aborted(Index, m)), left; }
      indexes := indexes + {m.index};
      stopped := None;
    }

    /** The whole script, cut off after `budget` operations. */
    method RunScript(files: seq<Migration>, adopt: bool, budget: nat) returns (o: Outcome)
      modifies this
      ensures (Current(), o) == Migrate(files, adopt, old(Current()), budget)
    {
      if |files| == 0 {
        return NoFiles;
      }
      if budget == 0 {
        return CutOff(Look, None);
      }
      ghost var start := Loop(files, adopt, Current().(history := true), budget - 1, 0, Look);
      history := true;
      var left: nat := budget - 1;
      for i := 0 to |files|
        invariant Loop(files, adopt, Current(), left, i, Look) == start
      {
        var m := files[i];
        if left == 0 { return CutOff(Look, Some(m)); }
        left := left - 1;
        if m.id in applied {
          continue;
        }
        var adopted := false;
        if m.probe.Some? {
          if left == 0 { return CutOff(Probe, Some(m)); }
          left := left - 1;
          adopted := m.probe.value in tables && adopt;
        }
        if !adopted {
          var stopped;
          stopped, left := ApplyFile(m, left, files, adopt, i);
          if stopped.Some? { return stopped.value; }
        }
        assert Loop(files, adopt, Current(), left, i, Record) == start;
        if left == 0 { return CutOff(Record, Some(m)); }
        left := left - 1;
        applied := applied + {m.id};
      }
      o := Done;
    }
  }
}
