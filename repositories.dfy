/** The entity repositories (src/database/templates.js, sessions.js,
    exercises.js, users.js) over an in-memory database: one sequence of typed
    rows per table, in rowid order, and one AUTOINCREMENT counter per table.

    Each repository function is one SQL statement. Writers are methods that
    change only the tables they name; readers are functions of the tables.
    Foreign keys are declared data only: an insert does not look for the
    parent row, and a delete applies the declared ON DELETE CASCADE. A
    `fail` parameter stands for an exception the engine throws for reasons
    outside the model (the screens call these writers inside `try`). */
module Repositories {
  import opened Common
  import opened Schema
  import opened Rows

  datatype User = User(id: int, nom: string, email: string, passwordHash: string)

  datatype Exercise = Exercise(id: int, nom: string, categorie: Option<string>, description: Option<string>,
                               image: Option<string>)

  datatype Template = Template(id: int, userId: int, nom: string, description: Option<string>)

  /** The set prescription the template screen stores in `series_pred` (as
      JSON text there). */
  datatype Prescription = Prescription(sets: int, weight: string, reps: string)

  datatype TemplateExercise = TemplateExercise(id: int, templateId: int, exerciseId: int, ordre: int,
                                               seriesPred: Option<Prescription>, restTimer: int)

  /** A row of `getTemplateExercises`: every template_exercises column and
      the joined exercise's name, category, description and image. */
  datatype TemplateExerciseRow = TemplateExerciseRow(entry: TemplateExercise, exerciseName: string,
                                                     categorie: Option<string>, description: Option<string>,
                                                     image: Option<string>)

  datatype Session = Session(id: int, userId: int, templateId: Option<int>, date: string, status: Status,
                             duration: Option<int>)

  datatype Series = Series(id: int, sessionId: int, exerciseId: int, poids: real, reps: int, kind: SetType,
                           rpe: Option<real>, note: Option<string>)

  /** Why a statement threw. */
  datatype DbError = UniqueViolation | CheckViolation | StorageFailure

  datatype Outcome<T> = Ok(value: T) | Err(error: DbError)

  // ---------------------------------------------------------------------
  // Columns used by WHERE and ORDER BY

  function UserKey(u: User): int { u.id }
  function ExerciseKey(e: Exercise): int { e.id }
  function TemplateKey(t: Template): int { t.id }
  function EntryKey(te: TemplateExercise): int { te.id }
  function SessionKey(s: Session): int { s.id }
  function SeriesKey(s: Series): int { s.id }

  function TemplateNom(t: Template): string { t.nom }
  function ExerciseNom(e: Exercise): string { e.nom }
  function RowOrdre(r: TemplateExerciseRow): int { r.entry.ordre }

  function OwnedBy(userId: int): Template -> bool { (t: Template) => t.userId == userId }
  function OtherTemplate(id: int): Template -> bool { (t: Template) => t.id != id }
  function InTemplate(templateId: int): TemplateExercise -> bool { (te: TemplateExercise) => te.templateId == templateId }
  function OutsideTemplate(templateId: int): TemplateExercise -> bool { (te: TemplateExercise) => te.templateId != templateId }
  function OtherEntry(id: int): TemplateExercise -> bool { (te: TemplateExercise) => te.id != id }
  function InSession(sessionId: int): Series -> bool { (x: Series) => x.sessionId == sessionId }
  function OfExercise(exerciseId: int): Series -> bool { (x: Series) => x.exerciseId == exerciseId }
  function InSessionOfExercise(sessionId: int, exerciseId: int): Series -> bool {
    (x: Series) => x.sessionId == sessionId && x.exerciseId == exerciseId
  }
  function Named(nom: string): Exercise -> bool { (e: Exercise) => e.nom == nom }
  function WithEmail(email: string): User -> bool { (u: User) => u.email == email }

  /** The joined row for an entry and its exercise. */
  function Joined(te: TemplateExercise, e: Exercise): TemplateExerciseRow {
    TemplateExerciseRow(te, e.nom, e.categorie, e.description, e.image)
  }

  /** `JOIN exercises e ON te.exercise_id = e.id`: each entry with its
      exercise; an entry whose exercise is missing gives no row. */
  function JoinExercises(entries: seq<TemplateExercise>, exercises: seq<Exercise>): (r: seq<TemplateExerciseRow>)
    ensures |r| <= |entries|
    ensures forall x :: x in r <==>
      x.entry in entries && FindByKey(exercises, ExerciseKey, x.entry.exerciseId).Some? &&
      x == Joined(x.entry, FindByKey(exercises, ExerciseKey, x.entry.exerciseId).value)
  {
    if entries == [] then []
    else
      var e := FindByKey(exercises, ExerciseKey, entries[0].exerciseId);
      var rest := JoinExercises(entries[1..], exercises);
      assert forall te :: te in entries <==> te == entries[0] || te in entries[1..];
      if e.Some? then [Joined(entries[0], e.value)] + rest else rest
  }

  /** `UPDATE templates SET nom = ?, description = ? WHERE id = ?` */
  function Renamed(s: seq<Template>, id: int, nom: string, description: Option<string>): (r: seq<Template>)
    ensures |r| == |s|
    ensures forall i :: 0 <= i < |s| ==>
      r[i] == if s[i].id == id then s[i].(nom := nom, description := description) else s[i]
  {
    if s == [] then []
    else [if s[0].id == id then s[0].(nom := nom, description := description) else s[0]] +
         Renamed(s[1..], id, nom, description)
  }

  /** `UPDATE sessions SET status = ? WHERE id = ?` */
  function WithStatus(s: seq<Session>, id: int, status: Status): (r: seq<Session>)
    ensures |r| == |s|
    ensures forall i :: 0 <= i < |s| ==> r[i] == if s[i].id == id then s[i].(status := status) else s[i]
  {
    if s == [] then []
    else [if s[0].id == id then s[0].(status := status) else s[0]] + WithStatus(s[1..], id, status)
  }

  /** At most one user row per exact email string (`email TEXT UNIQUE`). */
  predicate UniqueEmails(users: seq<User>) {
    forall i, j :: 0 <= i < j < |users| ==> users[i].email != users[j].email
  }

  class Database {
    var users: seq<User>
    var exercises: seq<Exercise>
    var templates: seq<Template>
    var templateExercises: seq<TemplateExercise>
    var sessions: seq<Session>
    var series: seq<Series>
    var nextUserId: int
    var nextExerciseId: int
    var nextTemplateId: int
    var nextEntryId: int
    var nextSessionId: int
    var nextSeriesId: int

    /** Every table holds its rows in rowid order with rowids below its
        counter, and no two users share an email. */
    ghost predicate Valid()
      reads this
    {
      Keyed(users, UserKey, nextUserId) && Keyed(exercises, ExerciseKey, nextExerciseId) &&
      Keyed(templates, TemplateKey, nextTemplateId) && Keyed(templateExercises, EntryKey, nextEntryId) &&
      Keyed(sessions, SessionKey, nextSessionId) && Keyed(series, SeriesKey, nextSeriesId) &&
      UniqueEmails(users)
    }

    /** An empty database. */
    constructor ()
      ensures Valid()
      ensures users == [] && exercises == [] && templates == [] && templateExercises == []
      ensures sessions == [] && series == []
    {
      users, exercises, templates, templateExercises, sessions, series := [], [], [], [], [], [];
      nextUserId, nextExerciseId, nextTemplateId, nextEntryId, nextSessionId, nextSeriesId := 1, 1, 1, 1, 1, 1;
    }

    // -------------------------------------------------------------------
    // templates.js

    /** templates.js:6-13: insert and return the new rowid, which is larger
        than every existing one. */
    method CreateTemplate(userId: int, nom: string, description: Option<string>, fail: bool) returns (r: Outcome<int>)
      requires Valid()
      modifies this`templates, this`nextTemplateId
      ensures Valid()
      ensures fail ==> r == Err(StorageFailure) && templates == old(templates) && nextTemplateId == old(nextTemplateId)
      ensures !fail ==>
        r.Ok? && r.value == old(nextTemplateId) && nextTemplateId == r.value + 1 &&
        templates == old(templates) + [Template(r.value, userId, nom, description)]
      ensures r.Ok? ==> forall t :: t in old(templates) ==> t.id < r.value
    {
      if fail {
        return Err(StorageFailure);
      }
      var id := nextTemplateId;
      KeyedAppend(templates, TemplateKey, nextTemplateId, Template(id, userId, nom, description));
      templates := templates + [Template(id, userId, nom, description)];
      nextTemplateId := nextTemplateId + 1;
      r := Ok(id);
    }

    /** templates.js:18-24: exactly the templates of the user, ordered by
        `nom` (the order of rows with equal names is not promised). */
    function GetTemplatesByUser(userId: int): (r: seq<Template>)
      reads this
      ensures forall t :: t in r <==> t in templates && t.userId == userId
      ensures multiset(r) == multiset(Filter(templates, OwnedBy(userId)))
      ensures SortedByText(r, TemplateNom)
    {
      var r := SortByText(Filter(templates, OwnedBy(userId)), TemplateNom);
      SameMembers(r, Filter(templates, OwnedBy(userId)));
      r
    }

    /** templates.js:29-35: the row with that id, or nothing. */
    function GetTemplateById(id: int): (r: Option<Template>)
      reads this
      requires Valid()
      ensures r.None? <==> forall i :: 0 <= i < |templates| ==> templates[i].id != id
      ensures r.Some? ==> r.value in templates && r.value.id == id
      ensures forall t :: t in templates && t.id == id ==> r == Some(t)
    {
      FindByKeyAll(templates, TemplateKey, id);
      FindByKey(templates, TemplateKey, id)
    }

    /** templates.js:40-48: insert with the given `ordre`; `series_pred`
        defaults to NULL and `rest_timer` to 90. */
    method AddExerciseToTemplate(templateId: int, exerciseId: int, ordre: int, seriesPred: Option<Prescription>,
                                 restTimer: Option<int>, fail: bool) returns (r: Outcome<int>)
      requires Valid()
      modifies this`templateExercises, this`nextEntryId
      ensures Valid()
      ensures fail ==>
        r == Err(StorageFailure) && templateExercises == old(templateExercises) && nextEntryId == old(nextEntryId)
      ensures !fail ==>
        r.Ok? && r.value == old(nextEntryId) && nextEntryId == r.value + 1 &&
        templateExercises == old(templateExercises) +
          [TemplateExercise(r.value, templateId, exerciseId, ordre, seriesPred,
                            if restTimer.Some? then restTimer.value else 90)]
    {
      if fail {
        return Err(StorageFailure);
      }
      var id := nextEntryId;
      var entry := TemplateExercise(id, templateId, exerciseId, ordre, seriesPred,
                                    if restTimer.Some? then restTimer.value else 90);
      KeyedAppend(templateExercises, EntryKey, nextEntryId, entry);
      templateExercises := templateExercises + [entry];
      nextEntryId := nextEntryId + 1;
      r := Ok(id);
    }

    /** templates.js:53-63: the template's entries whose exercise exists
        (inner join), each with its exercise's columns, ordered by `ordre`. */
    function GetTemplateExercises(templateId: int): (r: seq<TemplateExerciseRow>)
      reads this
      ensures forall x :: x in r <==>
        x.entry in templateExercises && x.entry.templateId == templateId &&
        FindByKey(exercises, ExerciseKey, x.entry.exerciseId).Some? &&
        x == Joined(x.entry, FindByKey(exercises, ExerciseKey, x.entry.exerciseId).value)
      ensures multiset(r) == multiset(JoinExercises(Filter(templateExercises, InTemplate(templateId)), exercises))
      ensures SortedByInt(r, RowOrdre)
    {
      var own := Filter(templateExercises, InTemplate(templateId));
      var joined := JoinExercises(own, exercises);
      var r := SortByInt(joined, RowOrdre);
      SameMembers(r, joined);
      r
    }

    /** templates.js:68-75: the number of the template's rows; 0 when it has
        none. */
    function GetTemplateExerciseCount(templateId: int): (n: nat)
      reads this
      ensures n == |Filter(templateExercises, InTemplate(templateId))|
      ensures n == 0 <==> forall i :: 0 <= i < |templateExercises| ==> templateExercises[i].templateId != templateId
    {
      CountIsFilterLength(templateExercises, InTemplate(templateId));
      Count(templateExercises, InTemplate(templateId))
    }

    /** templates.js:80-86: remove the row with that id, and by the declared
        cascade its template_exercises rows; sessions keep their
        `template_id`. */
    method DeleteTemplate(templateId: int)
      requires Valid()
      modifies this`templates, this`templateExercises
      ensures Valid()
      ensures templates == Filter(old(templates), OtherTemplate(templateId))
      ensures templateExercises == Filter(old(templateExercises), OutsideTemplate(templateId))
    {
      KeyedFilter(templates, TemplateKey, nextTemplateId, OtherTemplate(templateId));
      KeyedFilter(templateExercises, EntryKey, nextEntryId, OutsideTemplate(templateId));
      templates := Filter(templates, OtherTemplate(templateId));
      templateExercises := Filter(templateExercises, OutsideTemplate(templateId));
    }

    /** templates.js:91-97: set `nom` and `description` of the matching row;
        every other column and row is unchanged. */
    method UpdateTemplate(templateId: int, nom: string, description: Option<string>)
      requires Valid()
      modifies this`templates
      ensures Valid()
      ensures |templates| == |old(templates)|
      ensures forall i :: 0 <= i < |templates| ==>
        templates[i] == if old(templates)[i].id == templateId
                        then old(templates)[i].(nom := nom, description := description)
                        else old(templates)[i]
    {
      templates := Renamed(templates, templateId, nom, description);
    }

    /** templates.js:102-108: remove the one row with that id. */
    method DeleteTemplateExercise(templateExerciseId: int)
      requires Valid()
      modifies this`templateExercises
      ensures Valid()
      ensures templateExercises == Filter(old(templateExercises), OtherEntry(templateExerciseId))
    {
      KeyedFilter(templateExercises, EntryKey, nextEntryId, OtherEntry(templateExerciseId));
      templateExercises := Filter(templateExercises, OtherEntry(templateExerciseId));
    }

    // -------------------------------------------------------------------
    // sessions.js

    /** sessions.js:6-14: a new session in progress; `template_id` defaults
        to NULL; `date` is the caller's clock reading. */
    method CreateSession(userId: int, templateId: Option<int>, date: string) returns (id: int)
      requires Valid()
      modifies this`sessions, this`nextSessionId
      ensures Valid()
      ensures id == old(nextSessionId) && nextSessionId == id + 1
      ensures sessions == old(sessions) + [Session(id, userId, templateId, date, EnProgress, None)]
    {
      id := nextSessionId;
      KeyedAppend(sessions, SessionKey, nextSessionId, Session(id, userId, templateId, date, EnProgress, None));
      sessions := sessions + [Session(id, userId, templateId, date, EnProgress, None)];
      nextSessionId := nextSessionId + 1;
    }

    /** sessions.js:19-25: any status in the CHECK domain is written, from
        any status; a value outside it makes the statement throw when a row
        matches, and an id that matches no row changes nothing. */
    method UpdateSessionStatus(sessionId: int, status: string) returns (r: Outcome<()>)
      requires Valid()
      modifies this`sessions
      ensures Valid()
      ensures r.Err? <==> ParseStatus(status).None? && exists i :: 0 <= i < |old(sessions)| && old(sessions)[i].id == sessionId
      ensures r.Err? ==> r.error == CheckViolation && sessions == old(sessions)
      ensures r.Ok? && ParseStatus(status).Some? ==> sessions == WithStatus(old(sessions), sessionId, ParseStatus(status).value)
      ensures r.Ok? && ParseStatus(status).None? ==> sessions == old(sessions)
    {
      var parsed := ParseStatus(status);
      if parsed.None? {
        var found := FindByKey(sessions, SessionKey, sessionId);
        if found.Some? {
          return Err(CheckViolation);
        }
        return Ok(());
      }
      var updated := WithStatus(sessions, sessionId, parsed.value);
      assert Keyed(updated, SessionKey, nextSessionId) by {
        assert forall i :: 0 <= i < |updated| ==> SessionKey(updated[i]) == SessionKey(sessions[i]);
      }
      sessions := updated;
      r := Ok(());
    }

    /** sessions.js:30-36: the row with that id, or nothing. */
    function GetSessionById(id: int): (r: Option<Session>)
      reads this
      requires Valid()
      ensures r.None? <==> forall i :: 0 <= i < |sessions| ==> sessions[i].id != id
      ensures r.Some? ==> r.value in sessions && r.value.id == id
      ensures forall x :: x in sessions && x.id == id ==> r == Some(x)
    {
      FindByKeyAll(sessions, SessionKey, id);
      FindByKey(sessions, SessionKey, id)
    }

    /** sessions.js:41-48: insert a set; `type` defaults to 'normal' and
        must be in the CHECK domain; `RPE` and `note` default to NULL. */
    method CreateSeries(sessionId: int, exerciseId: int, poids: real, reps: int, kind: Option<string>,
                        rpe: Option<real>, note: Option<string>) returns (r: Outcome<int>)
      requires Valid()
      modifies this`series, this`nextSeriesId
      ensures Valid()
      ensures r.Err? <==> kind.Some? && ParseSetType(kind.value).None?
      ensures r.Err? ==> r.error == CheckViolation && series == old(series) && nextSeriesId == old(nextSeriesId)
      ensures r.Ok? ==>
        r.value == old(nextSeriesId) && nextSeriesId == r.value + 1 &&
        series == old(series) + [Series(r.value, sessionId, exerciseId, poids, reps,
                                        if kind.None? then Normal else ParseSetType(kind.value).value, rpe, note)]
    {
      var k := Normal;
      if kind.Some? {
        var parsed := ParseSetType(kind.value);
        if parsed.None? {
          return Err(CheckViolation);
        }
        k := parsed.value;
      }
      var id := nextSeriesId;
      KeyedAppend(series, SeriesKey, nextSeriesId, Series(id, sessionId, exerciseId, poids, reps, k, rpe, note));
      series := series + [Series(id, sessionId, exerciseId, poids, reps, k, rpe, note)];
      nextSeriesId := nextSeriesId + 1;
      r := Ok(id);
    }

    /** sessions.js:53-59: exactly the session's sets, ordered by id, which
        is the order they were inserted. */
    function GetSeriesBySession(sessionId: int): (r: seq<Series>)
      reads this
      requires Valid()
      ensures forall x :: x in r <==> x in series && x.sessionId == sessionId
      ensures r == Filter(series, InSession(sessionId))
      ensures Increasing(r, SeriesKey)
    {
      FilterIncreasing(series, InSession(sessionId), SeriesKey);
      IncreasingSorted(Filter(series, InSession(sessionId)), SeriesKey);
      SortByIntSorted(Filter(series, InSession(sessionId)), SeriesKey);
      SortByInt(Filter(series, InSession(sessionId)), SeriesKey)
    }

    /** sessions.js:64-70: the session's sets of one exercise: the session's
        list filtered to the exercise, in the same order. */
    function GetSeriesByExercise(sessionId: int, exerciseId: int): (r: seq<Series>)
      reads this
      requires Valid()
      ensures r == Filter(GetSeriesBySession(sessionId), OfExercise(exerciseId))
      ensures forall x :: x in r <==> x in series && x.sessionId == sessionId && x.exerciseId == exerciseId
    {
      var both := InSessionOfExercise(sessionId, exerciseId);
      FilterFilter(series, InSession(sessionId), OfExercise(exerciseId), both);
      FilterIncreasing(series, both, SeriesKey);
      IncreasingSorted(Filter(series, both), SeriesKey);
      SortByIntSorted(Filter(series, both), SeriesKey);
      SortByInt(Filter(series, both), SeriesKey)
    }

    // -------------------------------------------------------------------
    // exercises.js

    /** exercises.js:6-13: insert and return a fresh rowid; names are not
        checked, so an existing name is inserted again. */
    method CreateExercise(nom: string, categorie: Option<string>, description: Option<string>, image: Option<string>,
                          fail: bool) returns (r: Outcome<int>)
      requires Valid()
      modifies this`exercises, this`nextExerciseId
      ensures Valid()
      ensures fail ==> r == Err(StorageFailure) && exercises == old(exercises) && nextExerciseId == old(nextExerciseId)
      ensures !fail ==>
        r.Ok? && r.value == old(nextExerciseId) && nextExerciseId == r.value + 1 &&
        exercises == old(exercises) + [Exercise(r.value, nom, categorie, description, image)]
      ensures r.Ok? ==> forall e :: e in old(exercises) ==> e.id < r.value
    {
      if fail {
        return Err(StorageFailure);
      }
      var id := nextExerciseId;
      KeyedAppend(exercises, ExerciseKey, nextExerciseId, Exercise(id, nom, categorie, description, image));
      exercises := exercises + [Exercise(id, nom, categorie, description, image)];
      nextExerciseId := nextExerciseId + 1;
      r := Ok(id);
    }

    /** exercises.js:18-24: the row with that id, or nothing. */
    function GetExerciseById(id: int): (r: Option<Exercise>)
      reads this
      requires Valid()
      ensures r.None? <==> forall i :: 0 <= i < |exercises| ==> exercises[i].id != id
      ensures r.Some? ==> r.value in exercises && r.value.id == id
      ensures forall e :: e in exercises && e.id == id ==> r == Some(e)
    {
      FindByKeyAll(exercises, ExerciseKey, id);
      FindByKey(exercises, ExerciseKey, id)
    }

    /** exercises.js:29-32: every exercise, ordered by `nom`. */
    function GetAllExercises(): (r: seq<Exercise>)
      reads this
      ensures multiset(r) == multiset(exercises)
      ensures SortedByText(r, ExerciseNom)
    {
      SortByText(exercises, ExerciseNom)
    }

    /** exercises.js:37-43: nothing iff no row has exactly that name;
        otherwise some row with that name (which one is not promised). */
    function GetExerciseByName(nom: string): (r: Option<Exercise>)
      reads this
      ensures r.None? <==> forall i :: 0 <= i < |exercises| ==> exercises[i].nom != nom
      ensures r.Some? ==> r.value in exercises && r.value.nom == nom
    {
      FindFirst(exercises, Named(nom))
    }

    // -------------------------------------------------------------------
    // users.js

    /** users.js:3-10: store `sha256(password)`, never the password; an
        email already present violates UNIQUE and nothing is inserted. */
    method CreateUser(nom: string, email: string, password: string, sha256: string -> string, fail: bool)
      returns (r: Outcome<()>)
      requires Valid()
      modifies this`users, this`nextUserId
      ensures Valid()
      ensures (exists i :: 0 <= i < |old(users)| && old(users)[i].email == email) ==>
        r == Err(UniqueViolation) && users == old(users) && nextUserId == old(nextUserId)
      ensures (forall i :: 0 <= i < |old(users)| ==> old(users)[i].email != email) && fail ==>
        r == Err(StorageFailure) && users == old(users) && nextUserId == old(nextUserId)
      ensures r.Ok? <==> !fail && forall i :: 0 <= i < |old(users)| ==> old(users)[i].email != email
      ensures r.Ok? ==>
        nextUserId == old(nextUserId) + 1 &&
        users == old(users) + [User(old(nextUserId), nom, email, sha256(password))]
    {
      var existing := FindFirst(users, WithEmail(email));
      if existing.Some? {
        return Err(UniqueViolation);
      }
      if fail {
        return Err(StorageFailure);
      }
      var u := User(nextUserId, nom, email, sha256(password));
      KeyedAppend(users, UserKey, nextUserId, u);
      users := users + [u];
      nextUserId := nextUserId + 1;
      r := Ok(());
    }

    /** users.js:12-17: the row with exactly that email, or nothing. */
    function GetUserByEmail(email: string): (r: Option<User>)
      reads this
      requires Valid()
      ensures r.None? <==> forall i :: 0 <= i < |users| ==> users[i].email != email
      ensures r.Some? ==> r.value in users && r.value.email == email
      ensures forall i :: 0 <= i < |users| && users[i].email == email ==> r == Some(users[i])
    {
      UniqueFound(users, email);
      FindFirst(users, WithEmail(email))
    }

    /** users.js:19-25: the user iff one has that email and its stored hash
        is `sha256(password)`; an unknown email and a wrong password both
        give nothing. */
    function LoginUser(email: string, password: string, sha256: string -> string): (r: Option<User>)
      reads this
      requires Valid()
      ensures r.Some? <==> exists i :: 0 <= i < |users| && users[i].email == email && users[i].passwordHash == sha256(password)
      ensures r.Some? ==> r.value in users && r.value.email == email && r.value.passwordHash == sha256(password)
    {
      var user := GetUserByEmail(email);
      if user.None? then None
      else if user.value.passwordHash == sha256(password) then user
      else None
    }
  }

  /** With unique emails, the first row with an email is the only one. */
  lemma UniqueFound(users: seq<User>, email: string)
    requires UniqueEmails(users)
    ensures forall i :: 0 <= i < |users| && users[i].email == email ==> FindFirst(users, WithEmail(email)) == Some(users[i])
  {
    forall i | 0 <= i < |users| && users[i].email == email
      ensures FindFirst(users, WithEmail(email)) == Some(users[i])
    {
      FindFirstAt(users, WithEmail(email), i);
    }
  }
}
