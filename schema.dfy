/** The base table definitions run at start-up (src/database/schema.js),
    encoded as constant data: columns with their type, NOT NULL, UNIQUE,
    DEFAULT and CHECK domain, and the declared foreign keys with their
    ON DELETE action. */
module Schema {
  import opened Common

  /** A literal column value, as used by DEFAULT clauses and table rows. */
  datatype Value = Null | Int(i: int) | Text(t: string)

  datatype ColumnType = IntegerType | TextType | RealType | DateTimeType

  datatype Column = Column(
    name: string,
    ty: ColumnType,
    primaryKey: bool,
    notNull: bool,
    unique: bool,
    default: Option<Value>,
    check: Option<seq<string>>)

  datatype OnDelete = Cascade | NoAction

  datatype ForeignKey = ForeignKey(column: string, parent: string, parentColumn: string, onDelete: OnDelete)

  datatype TableDef = TableDef(name: string, columns: seq<Column>, foreignKeys: seq<ForeignKey>)

  /** `id INTEGER PRIMARY KEY AUTOINCREMENT` */
  const IdColumn := Column("id", IntegerType, true, true, false, None, None)

  function Nullable(name: string, ty: ColumnType): Column {
    Column(name, ty, false, false, false, None, None)
  }

  function Required(name: string, ty: ColumnType): Column {
    Column(name, ty, false, true, false, None, None)
  }

  const StatusDomain: seq<string> := ["en_progress", "completed", "cancelled"]
  const SetTypeDomain: seq<string> := ["warmup", "normal", "failure", "PR", "dropset"]

  const Users := TableDef("users", [
      IdColumn,
      Required("nom", TextType),
      Column("email", TextType, false, true, true, None, None),
      Required("password_hash", TextType)
    ], [])

  const Exercises := TableDef("exercises", [
      IdColumn,
      Required("nom", TextType),
      Nullable("categorie", TextType),
      Nullable("description", TextType),
      Nullable("image", TextType)
    ], [])

  const Templates := TableDef("templates", [
      IdColumn,
      Required("nom", TextType),
      Nullable("description", TextType)
    ], [])

  const TemplateExercises := TableDef("template_exercises", [
      IdColumn,
      Required("template_id", IntegerType),
      Required("exercise_id", IntegerType),
      Nullable("ordre", IntegerType),
      Nullable("series_pred", TextType)
    ], [
      ForeignKey("template_id", "templates", "id", Cascade),
      ForeignKey("exercise_id", "exercises", "id", Cascade)
    ])

  const Sessions := TableDef("sessions", [
      IdColumn,
      Required("user_id", IntegerType),
      Nullable("template_id", IntegerType),
      Required("date", DateTimeType),
      Column("status", TextType, false, false, false, Some(Text("en_progress")), Some(StatusDomain))
    ], [
      ForeignKey("user_id", "users", "id", NoAction),
      ForeignKey("template_id", "templates", "id", NoAction)
    ])

  const Series := TableDef("series", [
      IdColumn,
      Required("session_id", IntegerType),
      Required("exercise_id", IntegerType),
      Nullable("poids", RealType),
      Nullable("reps", IntegerType),
      Nullable("RPE", IntegerType),
      Column("type", TextType, false, false, false, None, Some(SetTypeDomain)),
      Nullable("note", TextType)
    ], [
      ForeignKey("session_id", "sessions", "id", Cascade),
      ForeignKey("exercise_id", "exercises", "id", NoAction)
    ])

  const WeightLogs := TableDef("weight_logs", [
      IdColumn,
      Required("user_id", IntegerType),
      Required("date", DateTimeType),
      Required("poids", RealType)
    ], [
      ForeignKey("user_id", "users", "id", NoAction)
    ])

  /** `schemaQueries`, in the order the start-up step runs them. */
  const SchemaQueries: seq<TableDef> := [Users, Exercises, Templates, TemplateExercises, Sessions, Series, WeightLogs]

  function ColumnNames(d: TableDef): set<string> {
    set i | 0 <= i < |d.columns| :: d.columns[i].name
  }

  /** The first definition with the given table name (`schemaQueries.find`). */
  function FindDef(defs: seq<TableDef>, name: string): (r: Option<TableDef>)
    ensures r.Some? <==> exists i :: 0 <= i < |defs| && defs[i].name == name
    ensures r.Some? ==> r.value in defs && r.value.name == name
  {
    if defs == [] then None
    else if defs[0].name == name then Some(defs[0])
    else FindDef(defs[1..], name)
  }

  /** Every declared ON DELETE CASCADE, as (child table, child column,
      parent table): a delete of a parent row deletes the child rows that
      reference it. */
  function Cascades(defs: seq<TableDef>): set<(string, string, string)> {
    set i, k | 0 <= i < |defs| && 0 <= k < |defs[i].foreignKeys| && defs[i].foreignKeys[k].onDelete == Cascade
      :: (defs[i].name, defs[i].foreignKeys[k].column, defs[i].foreignKeys[k].parent)
  }

  // ---------------------------------------------------------------------
  // The CHECK domains as types

  datatype Status = EnProgress | Completed | Cancelled

  function StatusText(s: Status): string {
    match s
    case EnProgress => "en_progress"
    case Completed => "completed"
    case Cancelled => "cancelled"
  }

  /** The CHECK on `sessions.status`: None when the text is outside it. */
  function ParseStatus(t: string): (r: Option<Status>)
    ensures r.Some? <==> t in StatusDomain
    ensures r.Some? ==> StatusText(r.value) == t
  {
    if t == "en_progress" then Some(EnProgress)
    else if t == "completed" then Some(Completed)
    else if t == "cancelled" then Some(Cancelled)
    else None
  }

  datatype SetType = Warmup | Normal | Failure | PR | Dropset

  function SetTypeText(k: SetType): string {
    match k
    case Warmup => "warmup"
    case Normal => "normal"
    case Failure => "failure"
    case PR => "PR"
    case Dropset => "dropset"
  }

  /** The CHECK on `series.type`: None when the text is outside it. */
  function ParseSetType(t: string): (r: Option<SetType>)
    ensures r.Some? <==> t in SetTypeDomain
    ensures r.Some? ==> SetTypeText(r.value) == t
  {
    if t == "warmup" then Some(Warmup)
    else if t == "normal" then Some(Normal)
    else if t == "failure" then Some(Failure)
    else if t == "PR" then Some(PR)
    else if t == "dropset" then Some(Dropset)
    else None
  }

  lemma StatusTextRoundTrip(s: Status)
    ensures ParseStatus(StatusText(s)) == Some(s)
  {
  }

  lemma SetTypeTextRoundTrip(k: SetType)
    ensures ParseSetType(SetTypeText(k)) == Some(k)
  {
  }

  // ---------------------------------------------------------------------
  // Facts the definitions state

  /** `users.email` is NOT NULL UNIQUE; `exercises.nom` carries no UNIQUE. */
  lemma UniquenessDeclared()
    ensures forall i :: 0 <= i < |Users.columns| && Users.columns[i].name == "email" ==>
      Users.columns[i].unique && Users.columns[i].notNull
    ensures "email" in ColumnNames(Users)
    ensures forall i :: 0 <= i < |Exercises.columns| && Exercises.columns[i].name == "nom" ==> !Exercises.columns[i].unique
  {
    assert Users.columns[2].name == "email";
  }

  /** `sessions.status` is limited to three values and defaults to
      'en_progress'; `series.type` is limited to five values. */
  lemma CheckDomainsDeclared()
    ensures forall i :: 0 <= i < |Sessions.columns| && Sessions.columns[i].name == "status" ==>
      Sessions.columns[i].check == Some(["en_progress", "completed", "cancelled"]) &&
      Sessions.columns[i].default == Some(Text("en_progress"))
    ensures forall i :: 0 <= i < |Series.columns| && Series.columns[i].name == "type" ==>
      Series.columns[i].check == Some(["warmup", "normal", "failure", "PR", "dropset"])
  {
  }

  /** Deleting a session deletes its series; deleting a template or an
      exercise deletes its template_exercises rows; nothing else cascades
      (in particular `series.exercise_id` does not). */
  lemma CascadesDeclared()
    ensures Cascades(SchemaQueries) == {
      ("series", "session_id", "sessions"),
      ("template_exercises", "template_id", "templates"),
      ("template_exercises", "exercise_id", "exercises")}
  {
    var defs := SchemaQueries;
    var expected := {
      ("series", "session_id", "sessions"),
      ("template_exercises", "template_id", "templates"),
      ("template_exercises", "exercise_id", "exercises")};
    forall x | x in Cascades(defs) ensures x in expected {
      var i, k :| 0 <= i < |defs| && 0 <= k < |defs[i].foreignKeys| && defs[i].foreignKeys[k].onDelete == Cascade &&
        x == (defs[i].name, defs[i].foreignKeys[k].column, defs[i].foreignKeys[k].parent);
      assert i == 0 || i == 1 || i == 2 || i == 3 || i == 4 || i == 5 || i == 6;
    }
    assert defs[5].foreignKeys[0].onDelete == Cascade;
    assert ("series", "session_id", "sessions") in Cascades(defs);
    assert defs[3].foreignKeys[0].onDelete == Cascade;
    assert ("template_exercises", "template_id", "templates") in Cascades(defs);
    assert defs[3].foreignKeys[1].onDelete == Cascade;
    assert ("template_exercises", "exercise_id", "exercises") in Cascades(defs);
  }

  /** The base definitions lack the three columns the migration adds. */
  lemma MigratedColumnsNotInBase()
    ensures "user_id" !in ColumnNames(Templates)
    ensures "rest_timer" !in ColumnNames(TemplateExercises)
    ensures "duration" !in ColumnNames(Sessions)
  {
  }
}
