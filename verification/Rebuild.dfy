/** Schema convergence: rebuilding each table whose shape has drifted from the declared one, inside one
    transaction, without losing a row or reusing an id.
 */
module Rebuild {
  import opened HubTypes

  type Name = string
  type Column = string

  datatype Value = Null | Int(n: nat) | Text(s: string)

  type Row = map<Column, Value>

  /** What a normalized `CREATE TABLE` statement says. `text` is its spelling. */
  datatype Shape = Shape(text: string, columns: seq<Column>, defaults: map<Column, Value>, auto: bool)

  datatype Table = Table(shape: Shape, rows: seq<Row>)

  /** `marks` is the engine's table of autoincrement high-water marks, `indexes` says what table each
      index is on. */
  datatype Database = Database(tables: map<Name, Table>, marks: map<Name, nat>, indexes: map<Name, Name>)

  const REBUILT: seq<Name> := ["agent", "task", "event", "decision"]

  function Scratch(t: Name): Name {
    t + "__rebuilding"
  }

  ghost predicate Valid(db: Database) {
    && db.marks.Keys <= db.tables.Keys
    && (forall i :: i in db.indexes ==> db.indexes[i] in db.tables)
    && (forall t :: t in db.tables ==> Typed(db.tables[t]))
  }

  ghost predicate Typed(table: Table) {
    forall i :: 0 <= i < |table.rows| ==> forall c :: c in table.rows[i] <==> c in table.shape.columns
  }

  // -- what the engine does ---------------------------------------------------

  function IdOf(row: Row): nat {
    if "id" in row && row["id"].Int? then row["id"].n else 0
  }

  function MaxId(rows: seq<Row>): (m: nat)
    ensures forall i :: 0 <= i < |rows| ==> IdOf(rows[i]) <= m
    ensures m == 0 || exists i :: 0 <= i < |rows| && IdOf(rows[i]) == m
  {
    if rows == [] then 0 else Max(MaxId(rows[..|rows| - 1]), IdOf(rows[|rows| - 1]))
  }

  function Mark(db: Database, t: Name): nat {
    if t in db.marks then db.marks[t] else 0
  }

  /** The id the engine gives the next row of `t`. */
  function NextId(db: Database, t: Name): nat {
    1 + Max(Mark(db, t), if t in db.tables then MaxId(db.tables[t].rows) else 0)
  }

  /** Dropping a table drops its high-water mark and its indexes. */
  function Drop(db: Database, t: Name): Database {
    Database(db.tables - {t}, db.marks - {t}, map i | i in db.indexes && db.indexes[i] != t :: db.indexes[i])
  }

  /** Renaming a table takes its high-water mark and its indexes along. */
  function Rename(db: Database, from: Name, to: Name): Database
    requires from in db.tables
  {
    Database(
      (db.tables - {from})[to := db.tables[from]],
      if from in db.marks then (db.marks - {from})[to := db.marks[from]] else db.marks,
      map i | i in db.indexes :: if db.indexes[i] == from then to else db.indexes[i])
  }

  function Create(db: Database, t: Name, shape: Shape): Database {
    db.(tables := db.tables[t := Table(shape, [])])
  }

  function Fill(row: Row, shape: Shape): (r: Row)
  {
    map c | c in shape.columns :: if c in row then row[c] else if c in shape.defaults then shape.defaults[c] else Null
  }

  function Copied(rows: seq<Row>, shape: Shape): seq<Row> {
    seq(|rows|, i requires 0 <= i < |rows| => Fill(rows[i], shape))
  }

  /** Inserting rows with ids of their own leaves the mark at the largest. */
  function Insert(db: Database, t: Name, rows: seq<Row>): Database
    requires t in db.tables
  {
    var table := db.tables[t];
    db.(tables := db.tables[t := table.(rows := table.rows + rows)],
        marks := if table.shape.auto && rows != [] then db.marks[t := Max(Mark(db, t), MaxId(rows))] else db.marks)
  }

  function Restore(db: Database, t: Name, highWater: Option<nat>): Database {
    if highWater.None? || (t in db.marks && db.marks[t] >= highWater.value) then db
    else db.(marks := db.marks[t := highWater.value])
  }

  // -- what a rebuild comes to ------------------------------------------------

  predicate Drifted(db: Database, t: Name, canonical: map<Name, Shape>)
    requires t in canonical
  {
    t in db.tables && db.tables[t].shape != canonical[t]
  }

  /** The marks once the rows are copied: a mark comes back only as far as the largest id copied. */
  function CopiedMarks(db: Database, t: Name, rows: seq<Row>, auto: bool): map<Name, nat> {
    var rest := db.marks - {t, Scratch(t)};
    if auto && rows != [] then rest[t := MaxId(rows)] else rest
  }

  function RebuiltMarks(db: Database, t: Name, rows: seq<Row>, auto: bool): map<Name, nat> {
    var copied := CopiedMarks(db, t, rows, auto);
    if t !in db.marks || (t in copied && db.marks[t] <= copied[t]) then copied else copied[t := db.marks[t]]
  }

  /** One table in the given shape, with the given marks, and nothing left of the scratch table. */
  function Replaced(db: Database, t: Name, shape: Shape, rows: seq<Row>, marks: map<Name, nat>): Database {
    Database(
      (db.tables - {t, Scratch(t)})[t := Table(shape, rows)],
      marks,
      map i | i in db.indexes && db.indexes[i] != t && db.indexes[i] != Scratch(t) :: db.indexes[i])
  }

  function Rebuilt(db: Database, t: Name, shape: Shape): Database
    requires t in db.tables
  {
    var rows := Copied(db.tables[t].rows, shape);
    Replaced(db, t, shape, rows, RebuiltMarks(db, t, rows, shape.auto))
  }

  /** Every drifted table of `names` rebuilt, or `None` if a copy breaks a constraint or a statement fails. */
  function RebuiltAll(db: Database, names: seq<Name>, env: Env): Option<Database>
    requires forall t :: t in names ==> t in env.canonical
    decreases |names|
  {
    if names == [] then Some(db)
    else
      var t := names[0];
      if !Drifted(db, t, env.canonical) then RebuiltAll(db, names[1..], env)
      else if env.Breaks(db, t) then None
      else RebuiltAll(Rebuilt(db, t, env.canonical[t]), names[1..], env)
  }

  /** What the declared schema says, and where the engine fails: `obeys` are the constraints of a shape on
      its rows, `linked` the foreign keys, `indexable` whether the declared indexes, unique ones included, can
      be made, and `failsAt(t)` the statement of the rebuild of `t` that fails
      for reasons of its own, if it is among the first `STATEMENTS`. */
  datatype Env = Env(
    canonical: map<Name, Shape>,
    indexes: map<Name, Name>,
    obeys: (Shape, seq<Row>) -> bool,
    linked: Database -> bool,
    indexable: Database -> bool,
    failsAt: Name -> nat)
  {
    predicate Breaks(db: Database, t: Name)
      requires t in canonical && t in db.tables
    {
      failsAt(t) < STATEMENTS || !obeys(canonical[t], Copied(db.tables[t].rows, canonical[t]))
    }
  }

  const STATEMENTS := 6

  /** `CREATE INDEX IF NOT EXISTS`, for every index declared. */
  function Reindexed(db: Database, env: Env): Database {
    db.(indexes := env.indexes + db.indexes)
  }

  // -- what survives ----------------------------------------------------------

  predicate SameTable(a: Database, b: Database, t: Name) {
    && (t in a.tables <==> t in b.tables)
    && (t in a.tables ==> a.tables[t] == b.tables[t])
    && Mark(a, t) == Mark(b, t)
  }

  /** The same rows in the same order as far as both shapes go, defaults elsewhere, and the same next id. */
  ghost predicate Carried(a: Database, b: Database, t: Name)
    requires t in a.tables && t in b.tables
  {
    && |b.tables[t].rows| == |a.tables[t].rows|
    && (forall i :: 0 <= i < |a.tables[t].rows| ==> Agree(a.tables[t].rows[i], b.tables[t].rows[i]))
    && (forall i :: 0 <= i < |a.tables[t].rows| ==>
          Completed(a.tables[t].rows[i], b.tables[t].rows[i], b.tables[t].shape))
    && (Identified(a, b, t) ==> NextId(a, t) == NextId(b, t))
  }

  /** A column the old row did not have holds its declared default, or nothing. */
  ghost predicate Completed(a: Row, b: Row, shape: Shape) {
    && (forall c :: c in b <==> c in shape.columns)
    && forall c :: c in b && c !in a ==>
         if c in shape.defaults then b[c] == shape.defaults[c] else b[c] == Null
  }

  predicate Agree(a: Row, b: Row) {
    forall c :: c in a && c in b ==> a[c] == b[c]
  }

  /** Both shapes have an `id` column or neither has. */
  predicate Identified(a: Database, b: Database, t: Name)
    requires t in a.tables && t in b.tables
  {
    "id" in a.tables[t].shape.columns <==> "id" in b.tables[t].shape.columns
  }

  lemma {:induction false} CopiedIds(rows: seq<Row>, shape: Shape)
    requires forall i :: 0 <= i < |rows| ==> IdOf(Fill(rows[i], shape)) == IdOf(rows[i])
    ensures MaxId(Copied(rows, shape)) == MaxId(rows)
  {
    if rows != [] {
      var n := |rows| - 1;
      assert Copied(rows, shape)[..n] == Copied(rows[..n], shape);
      CopiedIds(rows[..n], shape);
    }
  }

  lemma SameIds(table: Table, shape: Shape)
    requires Typed(table) && ("id" in table.shape.columns <==> "id" in shape.columns)
    ensures MaxId(Copied(table.rows, shape)) == MaxId(table.rows)
  {
    forall i | 0 <= i < |table.rows| ensures IdOf(Fill(table.rows[i], shape)) == IdOf(table.rows[i]) {
      assert "id" in table.rows[i] <==> "id" in table.shape.columns;
    }
    CopiedIds(table.rows, shape);
  }

  lemma ScratchDiffers(t: Name)
    ensures Scratch(t) != t
  {
    assert |Scratch(t)| > |t|;
  }

  lemma RebuiltCarries(db: Database, t: Name, shape: Shape)
    requires Valid(db) && t in db.tables
    ensures Carried(db, Rebuilt(db, t, shape), t)
  {
    var v, rows := Rebuilt(db, t, shape), db.tables[t].rows;
    assert Typed(db.tables[t]);
    if Identified(db, v, t) { SameIds(db.tables[t], shape); }
    forall i | 0 <= i < |rows|
      ensures Agree(rows[i], v.tables[t].rows[i]) && Completed(rows[i], v.tables[t].rows[i], shape)
    {
      FillIs(rows[i], shape);
    }
    hide Agree, Completed, Fill, MaxId;
  }

  lemma FillIs(row: Row, shape: Shape)
    ensures Agree(row, Fill(row, shape)) && Completed(row, Fill(row, shape), shape)
  {
  }

  lemma RebuiltKeeps(db: Database, t: Name, shape: Shape)
    requires Valid(db) && t in db.tables
    ensures
      var v := Rebuilt(db, t, shape);
      && Valid(v) && v.tables[t].shape == shape && Scratch(t) !in v.tables
      && v.indexes == (map i | i in db.indexes && db.indexes[i] != t && db.indexes[i] != Scratch(t) :: db.indexes[i])
      && forall u :: u != t && u != Scratch(t) ==> SameTable(db, v, u)
  {
    var v := Rebuilt(db, t, shape);
    ScratchDiffers(t);
    forall u | u in v.tables ensures Typed(v.tables[u]) {
      if u != t { assert v.tables[u] == db.tables[u] && Typed(db.tables[u]); }
    }
  }

  /** The names are all different, and none is another's scratch table. */
  predicate Apart(names: seq<Name>) {
    && (forall i, j :: 0 <= i < j < |names| ==> names[i] != names[j])
    && (forall i, j :: 0 <= i < |names| && 0 <= j < |names| ==> names[i] != Scratch(names[j]))
  }

  lemma TablesApart()
    ensures Apart(REBUILT)
  {
    assert forall i, j :: 0 <= i < |REBUILT| && 0 <= j < |REBUILT| ==> |REBUILT[i]| < |Scratch(REBUILT[j])|;
  }

  ghost predicate Converged(db: Database, v: Database, t: Name, env: Env)
    requires t in env.canonical
  {
    && (t in v.tables <==> t in db.tables)
    && (t in db.tables ==> v.tables[t].shape == env.canonical[t] && Carried(db, v, t))
    && (t in db.tables && Drifted(db, t, env.canonical) ==> Scratch(t) !in v.tables)
  }

  lemma FirstConverges(db: Database, w: Database, v: Database, t: Name, env: Env)
    requires Valid(db) && t in env.canonical
    requires w == if Drifted(db, t, env.canonical) then Rebuilt(db, t, env.canonical[t]) else db
    requires SameTable(w, v, t) && SameTable(w, v, Scratch(t))
    ensures Converged(db, v, t, env)
  {
    if Drifted(db, t, env.canonical) {
      RebuiltKeeps(db, t, env.canonical[t]);
      RebuiltCarries(db, t, env.canonical[t]);
    }
  }

  lemma RestConverges(db: Database, w: Database, v: Database, t: Name, env: Env)
    requires t in env.canonical && SameTable(db, w, t) && Converged(w, v, t, env)
    ensures Converged(db, v, t, env)
  {
  }

  lemma ScratchesDiffer(a: Name, b: Name)
    requires a != b
    ensures Scratch(a) != Scratch(b)
  {
    assert Scratch(a)[..|Scratch(a)| - |"__rebuilding"|] == a;
    assert Scratch(b)[..|Scratch(b)| - |"__rebuilding"|] == b;
  }

  /** Rebuilding the first table leaves the others to be rebuilt as they were. */
  lemma AsideRest(db: Database, w: Database, names: seq<Name>, env: Env, u: Name)
    requires Valid(db) && Apart(names) && names != [] && forall t :: t in names ==> t in env.canonical
    requires w == if Drifted(db, names[0], env.canonical) then Rebuilt(db, names[0], env.canonical[names[0]]) else db
    ensures var t := names[0];
      Aside(db, names, env, u) <==>
        (Drifted(db, t, env.canonical) ==> u != t && u != Scratch(t)) && Aside(w, names[1..], env, u)
  {
    var t, rest := names[0], names[1..];
    if Drifted(db, t, env.canonical) { RebuiltKeeps(db, t, env.canonical[t]); }
    forall r | r in rest ensures r in names && (Drifted(db, r, env.canonical) <==> Drifted(w, r, env.canonical)) {
      assert SameTable(db, w, r);
    }
    hide Drifted, Rebuilt, Valid;
  }

  /** Exactly the indexes of tables that were rebuilt are gone. */
  lemma {:induction false} IndexesKept(db: Database, names: seq<Name>, env: Env)
    requires Valid(db) && Apart(names) && forall t :: t in names ==> t in env.canonical
    requires RebuiltAll(db, names, env).Some?
    ensures RebuiltAll(db, names, env).value.indexes == KeptIndexes(db, names, env)
    decreases |names|
  {
    if names != [] {
      var t, rest := names[0], names[1..];
      var w := if Drifted(db, t, env.canonical) then Rebuilt(db, t, env.canonical[t]) else db;
      if Drifted(db, t, env.canonical) { RebuiltKeeps(db, t, env.canonical[t]); }
      IndexesKept(w, rest, env);
      hide Valid, Aside, Rebuilt;
      forall u ensures Aside(db, names, env, u) <==>
                         (Drifted(db, t, env.canonical) ==> u != t && u != Scratch(t)) && Aside(w, rest, env, u) {
        AsideRest(db, w, names, env, u);
      }
      hide Drifted;
    }
  }

  /** Every drifted table comes out in the declared shape with its rows and its next id, and every other
      table as it was. */
  lemma {:induction false} Converges(db: Database, names: seq<Name>, env: Env)
    requires Valid(db) && Apart(names) && forall t :: t in names ==> t in env.canonical
    requires RebuiltAll(db, names, env).Some?
    ensures
      var v := RebuiltAll(db, names, env).value;
      && Valid(v)
      && (forall t :: t in names ==> Converged(db, v, t, env))
      && (forall u :: Elsewhere(names, u) ==> SameTable(db, v, u))
    decreases |names|
  {
    if names != [] {
      var t, rest := names[0], names[1..];
      var w := if Drifted(db, t, env.canonical) then Rebuilt(db, t, env.canonical[t]) else db;
      if Drifted(db, t, env.canonical) { RebuiltKeeps(db, t, env.canonical[t]); }
      Converges(w, rest, env);
      var v := RebuiltAll(w, rest, env).value;
      forall u | u in rest ensures u != t && u != Scratch(t) && Scratch(t) != Scratch(u) {
        ScratchesDiffer(t, u);
      }
      assert Elsewhere(rest, t) && Elsewhere(rest, Scratch(t));
      FirstConverges(db, w, v, t, env);
      forall u | u in rest ensures Converged(db, v, u, env) {
        RestConverges(db, w, v, u, env);
      }
      forall u | Elsewhere(names, u) ensures SameTable(db, v, u) {
        assert Elsewhere(rest, u);
      }
    }
  }

  /** `u` is no drifted table and no scratch table of one. */
  predicate Aside(db: Database, names: seq<Name>, env: Env, u: Name)
    requires forall t :: t in names ==> t in env.canonical
  {
    forall t :: t in names && Drifted(db, t, env.canonical) ==> u != t && u != Scratch(t)
  }

  /** The indexes that go with no dropped table. */
  function KeptIndexes(db: Database, names: seq<Name>, env: Env): map<Name, Name>
    requires forall t :: t in names ==> t in env.canonical
  {
    map i | i in db.indexes && Aside(db, names, env, db.indexes[i]) :: db.indexes[i]
  }

  /** `u` is none of the tables and none of their scratch tables. */
  predicate Elsewhere(names: seq<Name>, u: Name) {
    forall t :: t in names ==> u != t && u != Scratch(t)
  }

  /** What has converged is not drifted: a second pass changes nothing, whatever might fail in it. */
  lemma {:induction false} SecondPassIsIdle(db: Database, names: seq<Name>, env: Env)
    requires forall t :: t in names ==> t in env.canonical && !Drifted(db, t, env.canonical)
    ensures RebuiltAll(db, names, env) == Some(db)
  {
    if names != [] { SecondPassIsIdle(db, names[1..], env); }
  }

  /** The database after the copy, before the mark is restored. */
  function Unrestored(db: Database, t: Name, shape: Shape): Database
    requires t in db.tables
  {
    var rows := Copied(db.tables[t].rows, shape);
    Replaced(db, t, shape, rows, CopiedMarks(db, t, rows, shape.auto))
  }

  lemma RenameComes(db: Database, t: Name)
    requires Valid(db) && t in db.tables
    ensures
      var s := Scratch(t);
      var gone := {t, s};
      Rename(Drop(db, s), t, s) == Database(
        (db.tables - gone)[s := db.tables[t]],
        if t in db.marks then (db.marks - gone)[s := db.marks[t]] else db.marks - gone,
        map i | i in db.indexes && db.indexes[i] != s :: if db.indexes[i] == t then s else db.indexes[i])
  {
    ScratchDiffers(t);
    var s := Scratch(t);
    var v := Rename(Drop(db, s), t, s);
    assert v.tables == (db.tables - {t, s})[s := db.tables[t]];
    assert v.marks == if t in db.marks then (db.marks - {t, s})[s := db.marks[t]] else db.marks - {t, s};
  }

  lemma SetThenRemove<V>(m: map<Name, V>, s: Name, t: Name, v: V)
    requires s != t
    ensures m[t := v] - {s} == (m - {s})[t := v]
  {
  }

  lemma SetThenDrop<V>(m: map<Name, V>, s: Name, v: V)
    requires s !in m
    ensures m[s := v] - {s} == m
  {
  }

  lemma FilledComes(db: Database, s: Name, t: Name, shape: Shape, rows: seq<Row>)
    requires s != t && t !in db.tables && t !in db.marks
    ensures
      var v := Drop(Insert(Create(db, t, shape), t, rows), s);
      && v.tables == (db.tables - {s})[t := Table(shape, rows)]
      && v.marks == (if shape.auto && rows != [] then (db.marks - {s})[t := MaxId(rows)] else db.marks - {s})
      && v.indexes == map i | i in db.indexes && db.indexes[i] != s :: db.indexes[i]
  {
    assert [] + rows == rows;
    assert db.tables[t := Table(shape, [])][t := Table(shape, rows)] == db.tables[t := Table(shape, rows)];
    SetThenRemove(db.tables, s, t, Table(shape, rows));
    SetThenRemove(db.marks, s, t, MaxId(rows));
  }

  lemma DropMoved(indexes: map<Name, Name>, s: Name, t: Name)
    ensures
      var moved := map i | i in indexes && indexes[i] != s :: if indexes[i] == t then s else indexes[i];
      (map i | i in moved && moved[i] != s :: moved[i]) ==
      (map i | i in indexes && indexes[i] != t && indexes[i] != s :: indexes[i])
  {
  }

  /** The statements up to the last one, one after the other, leave the copy and nothing else. */
  lemma CopyComes(db: Database, t: Name, shape: Shape)
    requires Valid(db) && t in db.tables
    ensures
      var renamed := Rename(Drop(db, Scratch(t)), t, Scratch(t));
      Drop(Insert(Create(renamed, t, shape), t, Copied(db.tables[t].rows, shape)), Scratch(t)) ==
      Unrestored(db, t, shape)
  {
    ScratchDiffers(t);
    RenameComes(db, t);
    var s, rows := Scratch(t), Copied(db.tables[t].rows, shape);
    var renamed := Rename(Drop(db, s), t, s);
    FilledComes(renamed, s, t, shape, rows);
    var last, v := Drop(Insert(Create(renamed, t, shape), t, rows), s), Unrestored(db, t, shape);
    SetThenDrop(db.tables - {t, s}, s, db.tables[t]);
    if t in db.marks { SetThenDrop(db.marks - {t, s}, s, db.marks[t]); }
    assert db.marks - {t, s} - {s} == db.marks - {t, s};
    DropMoved(db.indexes, s, t);
  }

  /** Without restoring the mark, ids would be reused exactly when the mark was past the last row. */
  lemma RestoreMatters(db: Database, t: Name, shape: Shape)
    requires Valid(db) && t in db.tables && ("id" in db.tables[t].shape.columns <==> "id" in shape.columns)
    ensures NextId(Unrestored(db, t, shape), t) < NextId(db, t) <==> MaxId(db.tables[t].rows) < Mark(db, t)
  {
    ScratchDiffers(t);
    assert Typed(db.tables[t]);
    SameIds(db.tables[t], shape);
  }

  /** A rebuild that commits: declared shapes and indexes, every row, the same next ids, every other table
      as it was; and the next rebuild has nothing to do. */
  lemma CommittedRebuild(db: Database, env: Env)
    requires Valid(db) && forall t :: t in REBUILT ==> t in env.canonical
    requires RebuiltAll(db, REBUILT, env).Some?
    ensures
      var v := Reindexed(RebuiltAll(db, REBUILT, env).value, env);
      && (forall t :: t in REBUILT ==> Converged(db, v, t, env))
      && (forall u :: Elsewhere(REBUILT, u) ==> SameTable(db, v, u))
      && v.indexes == env.indexes + KeptIndexes(db, REBUILT, env)
      && RebuiltAll(v, REBUILT, env) == Some(v)
  {
    TablesApart();
    Converges(db, REBUILT, env);
    IndexesKept(db, REBUILT, env);
    var w := RebuiltAll(db, REBUILT, env).value;
    var v := Reindexed(w, env);
    forall t | t in REBUILT ensures Converged(db, v, t, env) && !Drifted(v, t, env.canonical) {
      assert Converged(db, w, t, env);
    }
    forall u | Elsewhere(REBUILT, u) ensures SameTable(db, v, u) {
      assert SameTable(db, w, u);
    }
    SecondPassIsIdle(v, REBUILT, env);
  }

  // -- the rebuild ------------------------------------------------------------

  class Connection {
    var db: Database

    constructor (start: Database)
      ensures db == start
    {
      db := start;
    }

    /** All of it or nothing. */
    method RebuildDriftedTables(env: Env) returns (ok: bool)
      requires Valid(db) && forall t :: t in REBUILT ==> t in env.canonical
      modifies this
      ensures
        var all := RebuiltAll(old(db), REBUILT, env);
        var touched := exists t :: t in REBUILT && Drifted(old(db), t, env.canonical);
        && ok == (all.Some? && (touched ==> env.indexable(all.value) && env.linked(Reindexed(all.value, env))))
        && db == (if !ok then old(db) else if touched then Reindexed(all.value, env) else old(db))
    {
      var before := db;
      var rebuilt;
      TablesApart();
      ok, rebuilt := RebuildAll(REBUILT, env);
      if ok && rebuilt {
        ok := env.indexable(db);
        if ok {
          db := Reindexed(db, env);
          ok := env.linked(db);
        }
      }
      if !ok {
        db := before;
      }
    }

    method RebuildAll(names: seq<Name>, env: Env) returns (ok: bool, rebuilt: bool)
      requires Valid(db) && Apart(names) && forall t :: t in names ==> t in env.canonical
      modifies this
      ensures ok == RebuiltAll(old(db), names, env).Some?
      ensures ok ==> db == RebuiltAll(old(db), names, env).value
      ensures ok ==> rebuilt == (exists t :: t in names && Drifted(old(db), t, env.canonical))
      ensures ok && !rebuilt ==> db == old(db)
    {
      hide Valid, Rebuilt;
      rebuilt := false;
      for i := 0 to |names|
        invariant Valid(db)
        invariant RebuiltAll(old(db), names, env) == RebuiltAll(db, names[i..], env)
        invariant rebuilt == (exists k :: 0 <= k < i && Drifted(old(db), names[k], env.canonical))
        invariant forall k :: i <= k < |names| ==> SameTable(old(db), db, names[k])
        invariant !rebuilt ==> db == old(db)
      {
        var t := names[i];
        assert names[i..][0] == t && names[i..][1..] == names[i + 1..];
        assert SameTable(old(db), db, t);
        if t !in db.tables || db.tables[t].shape == env.canonical[t] { continue; }
        ghost var here := db;
        ok := RebuildTable(t, env);
        if !ok { return; }
        rebuilt := true;
        RebuiltKeeps(here, t, env.canonical[t]);
        forall k | i + 1 <= k < |names| ensures SameTable(old(db), db, names[k]) {
          assert names[k] != t && names[k] != Scratch(t);
          assert SameTable(here, db, names[k]) && SameTable(old(db), here, names[k]);
        }
      }
      ok := true;
    }

    method RebuildTable(t: Name, env: Env) returns (ok: bool)
      requires Valid(db) && t in db.tables && t in env.canonical
      modifies this
      ensures ok == !env.Breaks(old(db), t)
      ensures ok ==> db == Rebuilt(old(db), t, env.canonical[t])
    {
      var shape, fails := env.canonical[t], env.failsAt(t);
      CopyComes(db, t, shape);
      ScratchDiffers(t);
      var highWater := if t in db.marks then Some(db.marks[t]) else None;
      if fails == 0 { return false; }
      db := Drop(db, Scratch(t));
      if fails == 1 { return false; }
      db := Rename(db, t, Scratch(t));
      if fails == 2 { return false; }
      db := Create(db, t, shape);
      var rows := Copied(db.tables[Scratch(t)].rows, shape);
      if fails == 3 || !env.obeys(shape, rows) { return false; }
      db := Insert(db, t, rows);
      if fails == 4 { return false; }
      db := Drop(db, Scratch(t));
      if fails == 5 { return false; }
      db := Restore(db, t, highWater);
      ok := true;
    }
  }
}
