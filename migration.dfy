/** The start-up procedure `initDatabase` (src/database/init.js): run every
    base definition with CREATE TABLE IF NOT EXISTS, then, inside one
    try/catch, three conditional additive migrations (templates.user_id,
    template_exercises.rest_timer, sessions.duration).

    The database is an untyped store: a map from table name to the declared
    columns (with their DEFAULT) and the rows. Each migration statement may
    throw; which ones do is a parameter (`faults`), and the first executed
    statement in it ends the try block. */
module Migration {
  import opened Common
  import opened Schema

  type Row = map<string, Value>

  /** A table: its columns, each with its declared DEFAULT, and its rows. */
  datatype Table = Table(columns: map<string, Option<Value>>, rows: seq<Row>)

  type Tables = map<string, Table>

  /** The statements of the try block, in source order. */
  datatype Stmt =
    | InspectTemplates          // PRAGMA table_info(templates)
    | CountTemplates            // SELECT COUNT(*) FROM templates
    | DropTemplates             // DROP TABLE IF EXISTS templates
    | RecreateTemplates         // the base definition of templates, again
    | AddUserId                 // ALTER TABLE templates ADD COLUMN user_id INTEGER DEFAULT 1
    | InspectTemplateExercises  // PRAGMA table_info(template_exercises)
    | AddRestTimer              // ALTER TABLE template_exercises ADD COLUMN rest_timer INTEGER DEFAULT 90
    | InspectSessions           // PRAGMA table_info(sessions)
    | AddDuration               // ALTER TABLE sessions ADD COLUMN duration INTEGER

  /** Position of a statement in the source. */
  function Rank(st: Stmt): nat {
    match st
    case InspectTemplates => 0
    case CountTemplates => 1
    case DropTemplates => 2
    case RecreateTemplates => 3
    case AddUserId => 4
    case InspectTemplateExercises => 5
    case AddRestTimer => 6
    case InspectSessions => 7
    case AddDuration => 8
  }

  /** What a (part of a) run did: the resulting tables, the statements it
      attempted in order, and the one that threw, if any (always the last). */
  datatype Run = Run(tables: Tables, trace: seq<Stmt>, error: Option<Stmt>)

  // ---------------------------------------------------------------------
  // Statement semantics

  function ColumnMap(cols: seq<Column>): (m: map<string, Option<Value>>)
    ensures m.Keys == set i | 0 <= i < |cols| :: cols[i].name
  {
    if cols == [] then map[]
    else
      var m := ColumnMap(cols[..|cols| - 1])[cols[|cols| - 1].name := cols[|cols| - 1].default];
      assert forall i :: 0 <= i < |cols| - 1 ==> cols[..|cols| - 1][i] == cols[i];
      m
  }

  /** A table freshly created from a definition: its columns, no rows. */
  function EmptyTable(d: TableDef): (t: Table)
    ensures t.columns.Keys == ColumnNames(d) && t.rows == []
  {
    Table(ColumnMap(d.columns), [])
  }

  /** CREATE TABLE IF NOT EXISTS: an existing table, rows included, is left as it is. */
  function CreateIfNotExists(s: Tables, d: TableDef): Tables {
    if d.name in s then s else s[d.name := EmptyTable(d)]
  }

  /** The first step: every definition in list order. */
  function CreateAll(s: Tables, defs: seq<TableDef>): Tables {
    if defs == [] then s
    else CreateIfNotExists(CreateAll(s, defs[..|defs| - 1]), defs[|defs| - 1])
  }

  function DefaultValue(d: Option<Value>): Value {
    if d.Some? then d.value else Null
  }

  /** ALTER TABLE ... ADD COLUMN: every existing row takes the default. */
  function AddColumn(t: Table, name: string, default: Option<Value>): (r: Table)
    ensures r.columns == t.columns[name := default]
    ensures |r.rows| == |t.rows|
    ensures forall i :: 0 <= i < |t.rows| ==> r.rows[i] == t.rows[i][name := DefaultValue(default)]
  {
    Table(t.columns[name := default], seq(|t.rows|, i requires 0 <= i < |t.rows| => t.rows[i][name := DefaultValue(default)]))
  }

  /** What PRAGMA table_info reports: no columns for a missing table. */
  predicate HasColumn(s: Tables, table: string, column: string) {
    table in s && column in s[table].columns
  }

  // ---------------------------------------------------------------------
  // The three migrations

  /** Lines 16-37: add `user_id` to templates, by drop-and-recreate when the
      table is empty and by ALTER with DEFAULT 1 when it holds rows. The
      recreate runs the definition that `schemaQueries.find` returns. */
  function MigrateTemplates(s: Tables, faults: set<Stmt>, recreate: Option<TableDef>): Run {
    if InspectTemplates in faults then Run(s, [InspectTemplates], Some(InspectTemplates))
    else if HasColumn(s, "templates", "user_id") then Run(s, [InspectTemplates], None)
    else if CountTemplates in faults || "templates" !in s then
      Run(s, [InspectTemplates, CountTemplates], Some(CountTemplates))
    else if |s["templates"].rows| == 0 then
      if DropTemplates in faults then
        Run(s, [InspectTemplates, CountTemplates, DropTemplates], Some(DropTemplates))
      else
        var dropped := s - {"templates"};
        if RecreateTemplates in faults || recreate.None? then
          Run(dropped, [InspectTemplates, CountTemplates, DropTemplates, RecreateTemplates], Some(RecreateTemplates))
        else
          Run(CreateIfNotExists(dropped, recreate.value),
              [InspectTemplates, CountTemplates, DropTemplates, RecreateTemplates], None)
    else if AddUserId in faults then
      Run(s, [InspectTemplates, CountTemplates, AddUserId], Some(AddUserId))
    else
      Run(s["templates" := AddColumn(s["templates"], "user_id", Some(Int(1)))],
          [InspectTemplates, CountTemplates, AddUserId], None)
  }

  /** Lines 40-47 and 50-57: inspect a table and add the column if it is missing. */
  function MigrateColumn(s: Tables, faults: set<Stmt>, table: string, column: string, default: Option<Value>,
                         inspect: Stmt, alter: Stmt): Run
  {
    if inspect in faults then Run(s, [inspect], Some(inspect))
    else if HasColumn(s, table, column) then Run(s, [inspect], None)
    else if alter in faults || table !in s then Run(s, [inspect, alter], Some(alter))
    else Run(s[table := AddColumn(s[table], column, default)], [inspect, alter], None)
  }

  function MigrateRestTimer(s: Tables, faults: set<Stmt>): Run {
    MigrateColumn(s, faults, "template_exercises", "rest_timer", Some(Int(90)), InspectTemplateExercises, AddRestTimer)
  }

  function MigrateDuration(s: Tables, faults: set<Stmt>): Run {
    MigrateColumn(s, faults, "sessions", "duration", None, InspectSessions, AddDuration)
  }

  /** The try block: the three migrations in order; the first exception skips
      the rest and is swallowed by the catch. */
  function Migrate(s: Tables, faults: set<Stmt>, recreate: Option<TableDef>): Run {
    var r1 := MigrateTemplates(s, faults, recreate);
    if r1.error.Some? then r1
    else
      var r2 := MigrateRestTimer(r1.tables, faults);
      if r2.error.Some? then Run(r2.tables, r1.trace + r2.trace, r2.error)
      else
        var r3 := MigrateDuration(r2.tables, faults);
        Run(r3.tables, r1.trace + r2.trace + r3.trace, r3.error)
  }

  /** `initDatabase` as written, over `schemaQueries`; the recreate runs the
      definition `schemaQueries.find` returns, which is `Templates`
      (`SchemaFacts`). */
  function Init(s: Tables, faults: set<Stmt>): (r: Run)
    ensures "template_exercises" in r.tables && "sessions" in r.tables
  {
    var b := BaseTables(s);
    MigrateEffect(b, faults, Templates);
    Migrate(b, faults, Some(Templates))
  }

  // ---------------------------------------------------------------------
  // The start-up step

  function Names(defs: seq<TableDef>): set<string> {
    set i | 0 <= i < |defs| :: defs[i].name
  }

  predicate DistinctNames(defs: seq<TableDef>) {
    forall i, j :: 0 <= i < j < |defs| ==> defs[i].name != defs[j].name
  }

  lemma NamesSnoc(defs: seq<TableDef>)
    requires defs != []
    ensures Names(defs) == Names(defs[..|defs| - 1]) + {defs[|defs| - 1].name}
  {
    var init := defs[..|defs| - 1];
    forall x | x in Names(defs) ensures x in Names(init) + {defs[|defs| - 1].name} {
      var i :| 0 <= i < |defs| && defs[i].name == x;
      if i < |defs| - 1 { assert init[i] == defs[i]; }
    }
    forall x | x in Names(init) ensures x in Names(defs) {
      var i :| 0 <= i < |init| && init[i].name == x;
      assert defs[i] == init[i];
    }
  }

  /** CREATE TABLE IF NOT EXISTS, over a whole list: existing tables and their
      rows are untouched, every listed table exists afterwards, and a table
      that did not exist is the empty table of its definition. */
  lemma {:induction false} CreateAllEffect(s: Tables, defs: seq<TableDef>)
    requires DistinctNames(defs)
    ensures CreateAll(s, defs).Keys == s.Keys + Names(defs)
    ensures forall t :: t in s ==> CreateAll(s, defs)[t] == s[t]
    ensures forall i :: 0 <= i < |defs| && defs[i].name !in s ==> CreateAll(s, defs)[defs[i].name] == EmptyTable(defs[i])
  {
    if defs != [] {
      var init := defs[..|defs| - 1];
      var last := defs[|defs| - 1];
      assert DistinctNames(init) by {
        forall i, j | 0 <= i < j < |init| ensures init[i].name != init[j].name {
          assert init[i] == defs[i] && init[j] == defs[j];
        }
      }
      CreateAllEffect(s, init);
      NamesSnoc(defs);
      var prev := CreateAll(s, init);
      assert CreateAll(s, defs) == CreateIfNotExists(prev, last);
      assert last.name !in Names(init) by {
        forall k | 0 <= k < |init| ensures init[k].name != last.name {
          assert init[k] == defs[k];
        }
      }
      forall i | 0 <= i < |defs| && defs[i].name !in s
        ensures CreateAll(s, defs)[defs[i].name] == EmptyTable(defs[i])
      {
        if i < |defs| - 1 {
          assert init[i] == defs[i];
          assert defs[i].name != last.name;
          assert prev[defs[i].name] == EmptyTable(defs[i]);
        } else {
          assert last.name !in prev;
        }
      }
    }
  }

  lemma SchemaFacts()
    ensures DistinctNames(SchemaQueries)
    ensures Names(SchemaQueries) == {"users", "exercises", "templates", "template_exercises", "sessions", "series", "weight_logs"}
  {
    var d := SchemaQueries;
    assert d[0].name == "users" && d[1].name == "exercises" && d[2].name == "templates";
    assert d[3].name == "template_exercises" && d[4].name == "sessions" && d[5].name == "series" && d[6].name == "weight_logs";
  }

  /** Line 27: `schemaQueries.find` returns the base templates definition. */
  lemma TemplatesQueryFound()
    ensures FindDef(SchemaQueries, "templates") == Some(Templates)
  {
    assert SchemaQueries[0].name == "users" && SchemaQueries[1].name == "exercises";
    assert SchemaQueries[2] == Templates;
  }

  /** Lines 8-11: after the first step every schema table exists; tables that
      already existed, rows included, are exactly as they were; the others
      are empty and have the columns of their base definition. */
  lemma BaseStepEffect(s: Tables)
    ensures CreateAll(s, SchemaQueries).Keys == s.Keys + Names(SchemaQueries)
    ensures forall t :: t in s ==> CreateAll(s, SchemaQueries)[t] == s[t]
    ensures forall i :: 0 <= i < |SchemaQueries| && SchemaQueries[i].name !in s ==>
      CreateAll(s, SchemaQueries)[SchemaQueries[i].name] == EmptyTable(SchemaQueries[i])
  {
    SchemaFacts();
    CreateAllEffect(s, SchemaQueries);
  }

  /** The three tables the migrations inspect. */
  predicate Ready(b: Tables) {
    "templates" in b && "template_exercises" in b && "sessions" in b
  }

  /** The database after the first step of `initDatabase`. */
  function BaseTables(s: Tables): (b: Tables)
    ensures b.Keys == s.Keys + Names(SchemaQueries) && Ready(b)
    ensures forall t :: t in s ==> b[t] == s[t]
    ensures forall i :: 0 <= i < |SchemaQueries| && SchemaQueries[i].name !in s ==>
      b[SchemaQueries[i].name] == EmptyTable(SchemaQueries[i])
  {
    BaseStepEffect(s);
    SchemaFacts();
    CreateAll(s, SchemaQueries)
  }

  lemma InitUnfold(s: Tables, faults: set<Stmt>)
    ensures Init(s, faults) == Migrate(BaseTables(s), faults, Some(Templates))
  {
  }

  // ---------------------------------------------------------------------
  // The migration steps, one by one

  /** A trace in source order, whose only statement in `faults`, if any, is
      the failing last one. */
  predicate InOrder(trace: seq<Stmt>) {
    forall i, j :: 0 <= i < j < |trace| ==> Rank(trace[i]) < Rank(trace[j])
  }

  predicate FailsAtEnd(r: Run, faults: set<Stmt>) {
    (r.error.Some? ==> |r.trace| > 0 && r.error.value == r.trace[|r.trace| - 1]) &&
    (forall i :: 0 <= i < |r.trace| && (r.error.None? || i < |r.trace| - 1) ==> r.trace[i] !in faults)
  }

  lemma MigrateTemplatesEffect(s: Tables, faults: set<Stmt>, d: TableDef)
    requires d.name == "templates"
    ensures var r := MigrateTemplates(s, faults, Some(d));
      r.tables.Keys <= s.Keys + {"templates"} && s.Keys - {"templates"} <= r.tables.Keys &&
      (forall t :: t in s && t != "templates" ==> r.tables[t] == s[t]) &&
      ("templates" in s && r.error.None? ==> "templates" in r.tables) &&
      ("templates" in r.tables ==>
         r.tables["templates"] == s["templates"] ||
         (s["templates"].rows == [] && r.tables["templates"] == EmptyTable(d)) ||
         r.tables["templates"] == AddColumn(s["templates"], "user_id", Some(Int(1))))
  {
  }

  /** A templates migration that did not throw keeps the other two tables. */
  lemma MigrateTemplatesKeys(b: Tables, faults: set<Stmt>, d: TableDef)
    requires Ready(b) && d.name == "templates"
    ensures var r := MigrateTemplates(b, faults, Some(d));
      r.error.None? ==> "template_exercises" in r.tables && "sessions" in r.tables
  {
  }

  lemma MigrateTemplatesOrder(s: Tables, faults: set<Stmt>, d: TableDef)
    requires "templates" in s
    ensures var r := MigrateTemplates(s, faults, Some(d));
      InOrder(r.trace) && |r.trace| > 0 && forall i :: 0 <= i < |r.trace| ==> Rank(r.trace[i]) <= Rank(AddUserId)
  {
    var r := MigrateTemplates(s, faults, Some(d));
    assert r.trace == [InspectTemplates] || r.trace == [InspectTemplates, CountTemplates] ||
      r.trace == [InspectTemplates, CountTemplates, DropTemplates] ||
      r.trace == [InspectTemplates, CountTemplates, DropTemplates, RecreateTemplates] ||
      r.trace == [InspectTemplates, CountTemplates, AddUserId];
  }

  lemma MigrateTemplatesFailure(s: Tables, faults: set<Stmt>, d: TableDef)
    requires "templates" in s
    ensures var r := MigrateTemplates(s, faults, Some(d));
      FailsAtEnd(r, faults) && (r.error.Some? ==> r.error.value in faults)
  {
  }

  /** A column migration: the inspect, then maybe the ALTER. */
  lemma MigrateColumnTrace(s: Tables, faults: set<Stmt>, table: string, column: string, default: Option<Value>,
                           inspect: Stmt, alter: Stmt)
    requires Rank(inspect) < Rank(alter) && table in s
    ensures var r := MigrateColumn(s, faults, table, column, default, inspect, alter);
      r.tables.Keys == s.Keys && InOrder(r.trace) && FailsAtEnd(r, faults) &&
      (forall i :: 0 <= i < |r.trace| ==> r.trace[i] == inspect || r.trace[i] == alter) &&
      (r.error.Some? ==> r.error.value in faults)
  {
  }

  lemma MigrateColumnEffect(s: Tables, faults: set<Stmt>, table: string, column: string, default: Option<Value>,
                            inspect: Stmt, alter: Stmt)
    requires Rank(inspect) < Rank(alter)
    ensures var r := MigrateColumn(s, faults, table, column, default, inspect, alter);
      r.tables.Keys == s.Keys &&
      (forall t :: t in s && t != table ==> r.tables[t] == s[t]) &&
      (table in s ==> r.tables[table] == s[table] || r.tables[table] == AddColumn(s[table], column, default)) &&
      (table in s && column !in s[table].columns && r.error.None? ==> r.tables[table] == AddColumn(s[table], column, default)) &&
      (table in s && r.error.None? ==> column in r.tables[table].columns) &&
      (r.error.Some? ==> r.tables == s) &&
      r.trace <= [inspect, alter] && |r.trace| > 0 && FailsAtEnd(r, faults) &&
      (table in s && r.error.Some? ==> r.error.value in faults)
  {
  }

  // ---------------------------------------------------------------------
  // The try block on a database that has the three tables

  lemma MigrateEffect(b: Tables, faults: set<Stmt>, d: TableDef)
    requires Ready(b) && d.name == "templates"
    ensures var r := Migrate(b, faults, Some(d)).tables;
      r.Keys <= b.Keys && b.Keys - {"templates"} <= r.Keys &&
      (forall t :: t in b && t != "templates" && t != "template_exercises" && t != "sessions" ==> r[t] == b[t]) &&
      (r["template_exercises"] == b["template_exercises"] ||
         r["template_exercises"] == AddColumn(b["template_exercises"], "rest_timer", Some(Int(90)))) &&
      (r["sessions"] == b["sessions"] || r["sessions"] == AddColumn(b["sessions"], "duration", None)) &&
      ("templates" in r ==>
         r["templates"] == b["templates"] ||
         (b["templates"].rows == [] && r["templates"] == EmptyTable(d)) ||
         r["templates"] == AddColumn(b["templates"], "user_id", Some(Int(1))))
  {
    var r1 := MigrateTemplates(b, faults, Some(d));
    MigrateTemplatesEffect(b, faults, d);
    if r1.error.None? {
      var r2 := MigrateRestTimer(r1.tables, faults);
      MigrateColumnEffect(r1.tables, faults, "template_exercises", "rest_timer", Some(Int(90)), InspectTemplateExercises, AddRestTimer);
      if r2.error.None? {
        MigrateColumnEffect(r2.tables, faults, "sessions", "duration", None, InspectSessions, AddDuration);
      }
    }
  }

  /** Two steps run one after the other, the first without exception. */
  lemma ChainTrace(r1: Run, r2: Run, faults: set<Stmt>, lo: nat)
    requires r1.error.None? && InOrder(r1.trace) && FailsAtEnd(r1, faults)
    requires InOrder(r2.trace) && FailsAtEnd(r2, faults)
    requires forall i :: 0 <= i < |r1.trace| ==> Rank(r1.trace[i]) < lo
    requires forall i :: 0 <= i < |r2.trace| ==> lo <= Rank(r2.trace[i])
    ensures var r := Run(r2.tables, r1.trace + r2.trace, r2.error);
      InOrder(r.trace) && FailsAtEnd(r, faults)
  {
    var t := r1.trace + r2.trace;
    forall i, j | 0 <= i < j < |t| ensures Rank(t[i]) < Rank(t[j]) {
      if j < |r1.trace| {
      } else if i < |r1.trace| {
        assert t[j] == r2.trace[j - |r1.trace|];
      } else {
        assert t[i] == r2.trace[i - |r1.trace|] && t[j] == r2.trace[j - |r1.trace|];
      }
    }
    forall i | 0 <= i < |t| && (r2.error.None? || i < |t| - 1) ensures t[i] !in faults {
      if i >= |r1.trace| {
        assert t[i] == r2.trace[i - |r1.trace|];
      }
    }
  }

  lemma MigrateTrace(b: Tables, faults: set<Stmt>, d: TableDef)
    requires Ready(b) && d.name == "templates"
    ensures var r := Migrate(b, faults, Some(d));
      InOrder(r.trace) && FailsAtEnd(r, faults) && (r.error.Some? ==> r.error.value in faults)
  {
    var r1 := MigrateTemplates(b, faults, Some(d));
    MigrateTemplatesOrder(b, faults, d);
    MigrateTemplatesFailure(b, faults, d);
    if r1.error.None? {
      MigrateTemplatesKeys(b, faults, d);
      var r2 := MigrateRestTimer(r1.tables, faults);
      MigrateColumnTrace(r1.tables, faults, "template_exercises", "rest_timer", Some(Int(90)), InspectTemplateExercises, AddRestTimer);
      ChainTrace(r1, r2, faults, 5);
      if r2.error.None? {
        var r12 := Run(r2.tables, r1.trace + r2.trace, None);
        var r3 := MigrateDuration(r2.tables, faults);
        MigrateColumnTrace(r2.tables, faults, "sessions", "duration", None, InspectSessions, AddDuration);
        forall i | 0 <= i < |r12.trace| ensures Rank(r12.trace[i]) < 7 {
          if i >= |r1.trace| { assert r12.trace[i] == r2.trace[i - |r1.trace|]; }
        }
        ChainTrace(r12, r3, faults, 7);
      }
    }
  }

  /** The first exception skips every later migration. */
  lemma MigrateSkips(b: Tables, faults: set<Stmt>, d: TableDef)
    requires Ready(b) && d.name == "templates"
    ensures var r := Migrate(b, faults, Some(d));
      r.error.Some? && Rank(r.error.value) <= Rank(AddUserId) ==>
        r.tables["template_exercises"] == b["template_exercises"] && r.tables["sessions"] == b["sessions"]
    ensures var r := Migrate(b, faults, Some(d));
      r.error.Some? && Rank(r.error.value) <= Rank(AddRestTimer) ==> r.tables["sessions"] == b["sessions"]
  {
    var r1 := MigrateTemplates(b, faults, Some(d));
    MigrateTemplatesEffect(b, faults, d);
    if r1.error.None? {
      var r2 := MigrateRestTimer(r1.tables, faults);
      MigrateColumnEffect(r1.tables, faults, "template_exercises", "rest_timer", Some(Int(90)), InspectTemplateExercises, AddRestTimer);
      if r2.error.None? {
        MigrateColumnEffect(r2.tables, faults, "sessions", "duration", None, InspectSessions, AddDuration);
      }
    }
  }

  /** Without an exception both added columns are present afterwards, and a
      column that was missing has been added with its default. */
  lemma MigrateWithoutFaults(b: Tables, d: TableDef)
    requires Ready(b) && d.name == "templates"
    ensures var r := Migrate(b, {}, Some(d));
      r.error.None? && Ready(r.tables) &&
      "rest_timer" in r.tables["template_exercises"].columns && "duration" in r.tables["sessions"].columns &&
      ("rest_timer" !in b["template_exercises"].columns ==>
         r.tables["template_exercises"] == AddColumn(b["template_exercises"], "rest_timer", Some(Int(90)))) &&
      ("duration" !in b["sessions"].columns ==>
         r.tables["sessions"] == AddColumn(b["sessions"], "duration", None))
  {
    var r1 := MigrateTemplates(b, {}, Some(d));
    MigrateTemplatesEffect(b, {}, d);
    var r2 := MigrateRestTimer(r1.tables, {});
    MigrateColumnEffect(r1.tables, {}, "template_exercises", "rest_timer", Some(Int(90)), InspectTemplateExercises, AddRestTimer);
    MigrateColumnEffect(r2.tables, {}, "sessions", "duration", None, InspectSessions, AddDuration);
  }

  /** A populated templates table is never dropped and keeps its rows'
      count; without `user_id` and without an exception in its step it gains
      the column with DEFAULT 1. */
  lemma MigratePopulated(b: Tables, faults: set<Stmt>, d: TableDef)
    requires Ready(b) && d.name == "templates" && |b["templates"].rows| > 0
    ensures var r := Migrate(b, faults, Some(d));
      "templates" in r.tables && |r.tables["templates"].rows| == |b["templates"].rows| &&
      DropTemplates !in r.trace
    ensures var r := Migrate(b, faults, Some(d));
      "user_id" !in b["templates"].columns && InspectTemplates !in faults && CountTemplates !in faults && AddUserId !in faults ==>
        r.tables["templates"] == AddColumn(b["templates"], "user_id", Some(Int(1)))
  {
    var r1 := MigrateTemplates(b, faults, Some(d));
    assert DropTemplates !in r1.trace;
    if r1.error.None? {
      var r2 := MigrateRestTimer(r1.tables, faults);
      MigrateColumnEffect(r1.tables, faults, "template_exercises", "rest_timer", Some(Int(90)), InspectTemplateExercises, AddRestTimer);
      if r2.error.None? {
        MigrateColumnEffect(r2.tables, faults, "sessions", "duration", None, InspectSessions, AddDuration);
        var r3 := MigrateDuration(r2.tables, faults);
        assert DropTemplates !in r2.trace + r3.trace;
      }
    }
  }

  /** An empty templates table without `user_id` is dropped and recreated
      from `recreate`. */
  lemma MigrateEmptyRecreated(b: Tables, d: TableDef)
    requires Ready(b) && d.name == "templates"
    requires b["templates"].rows == [] && "user_id" !in b["templates"].columns
    ensures var r := Migrate(b, {}, Some(d));
      "templates" in r.tables && r.tables["templates"] == EmptyTable(d) &&
      |r.trace| >= 4 && r.trace[..4] == [InspectTemplates, CountTemplates, DropTemplates, RecreateTemplates]
  {
    var r1 := MigrateTemplates(b, {}, Some(d));
    assert r1.trace == [InspectTemplates, CountTemplates, DropTemplates, RecreateTemplates];
    var r2 := MigrateRestTimer(r1.tables, {});
    MigrateColumnEffect(r1.tables, {}, "template_exercises", "rest_timer", Some(Int(90)), InspectTemplateExercises, AddRestTimer);
    MigrateColumnEffect(r2.tables, {}, "sessions", "duration", None, InspectSessions, AddDuration);
  }

  /** A templates table that has `user_id` is left alone, and nothing is
      dropped. */
  lemma MigrateOwned(b: Tables, faults: set<Stmt>, d: TableDef)
    requires Ready(b) && d.name == "templates" && "user_id" in b["templates"].columns
    ensures var r := Migrate(b, faults, Some(d));
      r.tables["templates"] == b["templates"] && DropTemplates !in r.trace
  {
    var r1 := MigrateTemplates(b, faults, Some(d));
    if r1.error.None? {
      var r2 := MigrateRestTimer(r1.tables, faults);
      MigrateColumnEffect(r1.tables, faults, "template_exercises", "rest_timer", Some(Int(90)), InspectTemplateExercises, AddRestTimer);
      if r2.error.None? {
        MigrateColumnEffect(r2.tables, faults, "sessions", "duration", None, InspectSessions, AddDuration);
        var r3 := MigrateDuration(r2.tables, faults);
        assert DropTemplates !in r2.trace + r3.trace;
      }
    }
  }

  /** A templates table that has `user_id`, or is the empty recreated one,
      is left as it is by the templates migration. */
  lemma TemplatesSettled(r: Tables, d: TableDef)
    requires d.name == "templates" && "templates" in r
    requires HasColumn(r, "templates", "user_id") || r["templates"] == EmptyTable(d)
    ensures MigrateTemplates(r, {}, Some(d)).tables == r && MigrateTemplates(r, {}, Some(d)).error.None?
  {
    if !HasColumn(r, "templates", "user_id") {
      assert (r - {"templates"})[d.name := EmptyTable(d)] == r;
    }
  }

  /** A column migration finds its column and does nothing. */
  lemma ColumnSettled(s: Tables, table: string, column: string, default: Option<Value>, inspect: Stmt, alter: Stmt)
    requires HasColumn(s, table, column)
    ensures MigrateColumn(s, {}, table, column, default, inspect, alter) == Run(s, [inspect], None)
  {
  }

  /** Running the try block again after a run without exception changes
      nothing. */
  lemma MigrateTwice(b: Tables, d: TableDef)
    requires Ready(b) && d.name == "templates"
    ensures Migrate(Migrate(b, {}, Some(d)).tables, {}, Some(d)).tables == Migrate(b, {}, Some(d)).tables
  {
    var r := Migrate(b, {}, Some(d)).tables;
    MigrateWithoutFaults(b, d);
    MigrateEffect(b, {}, d);
    if !HasColumn(r, "templates", "user_id") {
      // only the drop-and-recreate branch leaves templates without user_id
      if b["templates"].rows != [] {
        MigratePopulated(b, {}, d);
      }
    }
    TemplatesSettled(r, d);
    ColumnSettled(r, "template_exercises", "rest_timer", Some(Int(90)), InspectTemplateExercises, AddRestTimer);
    ColumnSettled(r, "sessions", "duration", None, InspectSessions, AddDuration);
  }

  // ---------------------------------------------------------------------
  // Properties of initDatabase

  /** Lines 23-35: a templates table that holds rows is never dropped and
      keeps its row count; when it lacked `user_id` and none of the three
      statements of its branch threw, it gains `user_id` with DEFAULT 1 and
      every row takes 1. */
  lemma PopulatedTemplatesKept(s: Tables, faults: set<Stmt>)
    requires "templates" in s && |s["templates"].rows| > 0
    ensures var r := Init(s, faults);
      "templates" in r.tables && |r.tables["templates"].rows| == |s["templates"].rows| &&
      DropTemplates !in r.trace
    ensures var r := Init(s, faults);
      "user_id" !in s["templates"].columns && InspectTemplates !in faults && CountTemplates !in faults && AddUserId !in faults ==>
        "templates" in r.tables &&
        r.tables["templates"].columns == s["templates"].columns["user_id" := Some(Int(1))] &&
        forall i :: 0 <= i < |s["templates"].rows| ==> r.tables["templates"].rows[i] == s["templates"].rows[i]["user_id" := Int(1)]
  {
    InitUnfold(s, faults);
    MigratePopulated(BaseTables(s), faults, Templates);
  }

  /** Lines 25-28, the quirk: an empty (or new) templates table without
      `user_id` is dropped and recreated from its base definition, which has
      no `user_id`. After the run the column is still missing, and the next
      start takes the same branch again. */
  lemma EmptyTemplatesRecreatedWithoutOwner(s: Tables)
    requires "templates" !in s || (s["templates"].rows == [] && "user_id" !in s["templates"].columns)
    ensures var r := Init(s, {});
      "templates" in r.tables && r.tables["templates"] == EmptyTable(Templates) &&
      "user_id" !in r.tables["templates"].columns &&
      |r.trace| >= 4 && r.trace[..4] == [InspectTemplates, CountTemplates, DropTemplates, RecreateTemplates]
    ensures var again := Init(Init(s, {}).tables, {});
      |again.trace| >= 4 && again.trace[..4] == [InspectTemplates, CountTemplates, DropTemplates, RecreateTemplates]
  {
    MigratedColumnsNotInBase();
    InitUnfold(s, {});
    var b := BaseTables(s);
    assert SchemaQueries[2] == Templates;
    assert b["templates"].rows == [] && "user_id" !in b["templates"].columns by {
      if "templates" !in s {
        assert b["templates"] == EmptyTable(SchemaQueries[2]);
      }
    }
    MigrateEmptyRecreated(b, Templates);
    var r := Init(s, {}).tables;
    InitUnfold(r, {});
    assert BaseTables(r)["templates"] == r["templates"];
    MigrateEmptyRecreated(BaseTables(r), Templates);
  }

  /** Lines 40-57: after a run without exception template_exercises has
      `rest_timer` and sessions has `duration`; when the migration added them,
      rest_timer has DEFAULT 90 (every existing row takes 90) and duration
      has no default (existing rows hold NULL). */
  lemma MigratedColumnsPresent(s: Tables)
    ensures var r := Init(s, {});
      r.error.None? &&
      HasColumn(r.tables, "template_exercises", "rest_timer") && HasColumn(r.tables, "sessions", "duration")
    ensures var r := Init(s, {}); var b := BaseTables(s);
      "rest_timer" !in b["template_exercises"].columns ==>
        r.tables["template_exercises"] == AddColumn(b["template_exercises"], "rest_timer", Some(Int(90)))
    ensures var r := Init(s, {}); var b := BaseTables(s);
      "duration" !in b["sessions"].columns ==>
        r.tables["sessions"] == AddColumn(b["sessions"], "duration", None)
  {
    InitUnfold(s, {});
    MigrateWithoutFaults(BaseTables(s), Templates);
  }

  /** Lines 8-57 twice: a second start after a run without exception leaves
      the database exactly as the first left it, templates included. */
  lemma SecondRunChangesNothing(s: Tables)
    ensures Init(Init(s, {}).tables, {}).tables == Init(s, {}).tables
  {
    var b := BaseTables(s);
    InitUnfold(s, {});
    var r := Migrate(b, {}, Some(Templates)).tables;
    MigrateWithoutFaults(b, Templates);
    MigrateEffect(b, {}, Templates);
    assert Names(SchemaQueries) <= r.Keys;
    BaseTablesIdle(r);
    InitUnfold(r, {});
    MigrateTwice(b, Templates);
  }

  /** Once every schema table exists, the first step changes nothing. */
  lemma BaseTablesIdle(r: Tables)
    requires Names(SchemaQueries) <= r.Keys
    ensures BaseTables(r) == r
  {
    assert BaseTables(r).Keys == r.Keys;
  }

  /** Lines 14-60: the statements run in source order; the one that threw, if
      any, is the last one attempted, so every later statement was skipped;
      with the base tables present only an injected failure can throw. An
      exception in the templates step leaves template_exercises and sessions
      as the first step made them, and one in the template_exercises step
      leaves sessions so. */
  lemma TraceInSourceOrder(s: Tables, faults: set<Stmt>)
    ensures var r := Init(s, faults);
      InOrder(r.trace) && FailsAtEnd(r, faults) && (r.error.Some? ==> r.error.value in faults)
    ensures var r := Init(s, faults); var b := BaseTables(s);
      r.error.Some? && Rank(r.error.value) <= Rank(AddUserId) ==>
        r.tables["template_exercises"] == b["template_exercises"] && r.tables["sessions"] == b["sessions"]
    ensures var r := Init(s, faults); var b := BaseTables(s);
      r.error.Some? && Rank(r.error.value) <= Rank(AddRestTimer) ==> r.tables["sessions"] == b["sessions"]
  {
    InitUnfold(s, faults);
    MigrateTrace(BaseTables(s), faults, Templates);
    MigrateSkips(BaseTables(s), faults, Templates);
  }

  /** Lines 27, 33, 45, 55: no table other than templates is ever dropped;
      the only columns ALTER adds are templates.user_id,
      template_exercises.rest_timer and sessions.duration; the other four
      tables are not touched by the migrations at all. */
  lemma OnlyMigrationChanges(s: Tables, faults: set<Stmt>)
    ensures var r := Init(s, faults).tables; var b := BaseTables(s);
      r.Keys <= b.Keys && b.Keys - {"templates"} <= r.Keys &&
      (forall t :: t in b && t != "templates" && t != "template_exercises" && t != "sessions" ==> r[t] == b[t]) &&
      (r["template_exercises"] == b["template_exercises"] ||
         r["template_exercises"] == AddColumn(b["template_exercises"], "rest_timer", Some(Int(90)))) &&
      (r["sessions"] == b["sessions"] || r["sessions"] == AddColumn(b["sessions"], "duration", None)) &&
      ("templates" in r ==>
         r["templates"] == b["templates"] ||
         (b["templates"].rows == [] && r["templates"] == EmptyTable(Templates)) ||
         r["templates"] == AddColumn(b["templates"], "user_id", Some(Int(1))))
  {
    InitUnfold(s, faults);
    MigrateEffect(BaseTables(s), faults, Templates);
  }

  // ---------------------------------------------------------------------
  // The corrected definition

  /** The templates definition the repositories and the migration expect:
      the base one with the owner column. */
  const TemplatesWithOwner := TableDef("templates", [
      IdColumn,
      Required("user_id", IntegerType),
      Required("nom", TextType),
      Nullable("description", TextType)
    ], [
      ForeignKey("user_id", "users", "id", NoAction)
    ])

  const FixedSchema: seq<TableDef> := SchemaQueries[2 := TemplatesWithOwner]

  lemma FixedSchemaFacts()
    ensures DistinctNames(FixedSchema) && FixedSchema[2] == TemplatesWithOwner
    ensures "templates" in Names(FixedSchema) && "template_exercises" in Names(FixedSchema) && "sessions" in Names(FixedSchema)
    ensures FindDef(FixedSchema, "templates") == Some(TemplatesWithOwner)
    ensures "user_id" in ColumnNames(TemplatesWithOwner)
  {
    var defs := FixedSchema;
    assert defs[0].name == "users" && defs[1].name == "exercises" && defs[2].name == "templates";
    assert defs[3].name == "template_exercises" && defs[4].name == "sessions" && defs[5].name == "series" && defs[6].name == "weight_logs";
    assert TemplatesWithOwner.columns[1].name == "user_id";
  }

  /** The first step with the corrected definitions. */
  function FixedBaseTables(s: Tables): (b: Tables)
    ensures Ready(b) && ("templates" !in s ==> b["templates"] == EmptyTable(TemplatesWithOwner))
    ensures s.Keys <= b.Keys && forall t :: t in s ==> b[t] == s[t]
  {
    FixedSchemaFacts();
    CreateAllEffect(s, FixedSchema);
    CreateAll(s, FixedSchema)
  }

  /** `initDatabase` with the corrected templates definition, which
      `schemaQueries.find` then returns (`FixedSchemaFacts`). */
  function InitFixed(s: Tables, faults: set<Stmt>): Run {
    Migrate(FixedBaseTables(s), faults, Some(TemplatesWithOwner))
  }

  /** A fresh install, as written: templates ends up without `user_id`, the
      column `createTemplate` and `getTemplatesByUser` name. */
  lemma FreshInstallLacksOwner()
    ensures "templates" in Init(map[], {}).tables
    ensures "user_id" !in Init(map[], {}).tables["templates"].columns
  {
    EmptyTemplatesRecreatedWithoutOwner(map[]);
  }

  /** With the corrected definition every start without exception leaves
      templates with `user_id`, and the next start no longer drops it. */
  lemma FixedInitGivesOwner(s: Tables)
    ensures HasColumn(InitFixed(s, {}).tables, "templates", "user_id")
    ensures DropTemplates !in InitFixed(InitFixed(s, {}).tables, {}).trace
  {
    FixedSchemaFacts();
    var b := FixedBaseTables(s);
    MigrateWithoutFaults(b, TemplatesWithOwner);
    MigrateTemplatesEffect(b, {}, TemplatesWithOwner);
    if "user_id" in b["templates"].columns {
      MigrateOwned(b, {}, TemplatesWithOwner);
    } else if b["templates"].rows == [] {
      MigrateEmptyRecreated(b, TemplatesWithOwner);
    } else {
      MigratePopulated(b, {}, TemplatesWithOwner);
    }
    var r := InitFixed(s, {}).tables;
    MigrateOwned(FixedBaseTables(r), {}, TemplatesWithOwner);
  }

  /** The connection object: the tables of the database file. */
  class Connection {
    var tables: Tables

    constructor (existing: Tables)
      ensures tables == existing
    {
      tables := existing;
    }

    /** Runs the start-up step and the migrations; a migration error is
        logged and dropped, and the connection is returned either way. */
    method InitDatabase(faults: set<Stmt>) returns (db: Connection)
      modifies this
      ensures db == this
      ensures tables == Init(old(tables), faults).tables
    {
      CreateSchema();
      var failed := MigrateTemplatesStep(faults);
      if !failed {
        failed := MigrateColumnStep(faults, "template_exercises", "rest_timer", Some(Int(90)),
                                    InspectTemplateExercises, AddRestTimer);
        if !failed {
          failed := MigrateColumnStep(faults, "sessions", "duration", None, InspectSessions, AddDuration);
        }
      }
      db := this;
    }

    /** Lines 8-11: every schema statement, in order. */
    method CreateSchema()
      modifies this`tables
      ensures tables == BaseTables(old(tables))
    {
      for i := 0 to |SchemaQueries|
        invariant tables == CreateAll(old(tables), SchemaQueries[..i])
      {
        assert SchemaQueries[..i + 1][..i] == SchemaQueries[..i];
        tables := CreateIfNotExists(tables, SchemaQueries[i]);
      }
      assert SchemaQueries[..|SchemaQueries|] == SchemaQueries;
    }

    /** Lines 16-37: the `templates.user_id` migration; the recreate runs the
        definition found in the schema list. */
    method MigrateTemplatesStep(faults: set<Stmt>) returns (failed: bool)
      modifies this`tables
      ensures failed == MigrateTemplates(old(tables), faults, Some(Templates)).error.Some?
      ensures tables == MigrateTemplates(old(tables), faults, Some(Templates)).tables
    {
      failed := false;
      if InspectTemplates in faults {
        failed := true;
      } else {
        var hasUserId := "templates" in tables && "user_id" in tables["templates"].columns;
        if !hasUserId {
          if CountTemplates in faults || "templates" !in tables {
            failed := true;
          } else if |tables["templates"].rows| == 0 {
            if DropTemplates in faults {
              failed := true;
            } else {
              tables := tables - {"templates"};
              TemplatesQueryFound();
              var def := FindDef(SchemaQueries, "templates");
              if RecreateTemplates in faults || def.None? {
                failed := true;
              } else {
                tables := CreateIfNotExists(tables, def.value);
              }
            }
          } else if AddUserId in faults {
            failed := true;
          } else {
            tables := tables["templates" := AddColumn(tables["templates"], "user_id", Some(Int(1)))];
          }
        }
      }
    }

    /** Lines 40-47 and 50-57: inspect a table and add the column if it is
        missing. */
    method MigrateColumnStep(faults: set<Stmt>, table: string, column: string, default: Option<Value>,
                             inspect: Stmt, alter: Stmt) returns (failed: bool)
      modifies this`tables
      ensures failed == MigrateColumn(old(tables), faults, table, column, default, inspect, alter).error.Some?
      ensures tables == MigrateColumn(old(tables), faults, table, column, default, inspect, alter).tables
    {
      failed := false;
      if inspect in faults {
        failed := true;
      } else if !(table in tables && column in tables[table].columns) {
        if alter in faults || table !in tables {
          failed := true;
        } else {
          tables := tables[table := AddColumn(tables[table], column, default)];
        }
      }
    }
  }
}
