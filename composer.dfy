/** The template composer of src/screens/CreateTemplateScreen.js: the draft
    list of exercise entries the screen keeps in its state, the handlers that
    edit it, and the save that turns it into repository inserts.

    The screen's state is the fields of `TemplateComposer`. The `sets` and
    `restTimer` defaults 3 and 90 are held as their decimal text: the screen
    only ever shows them with `toString()` and reads them with `parseInt`,
    which give the same on the number and on its text. */
module Composer {
  import opened Common
  import opened Rows
  import opened Repositories

  /** An entry of the draft list. */
  datatype DraftEntry = DraftEntry(exerciseId: int, nom: string, sets: string, weight: string, reps: string,
                                   restTimer: string)

  datatype Field = Sets | Weight | Reps | RestTimer

  /** What `Alert.alert` shows: a title and a message. */
  datatype Alert = Alert(title: string, message: string)

  const NoExerciseName := Alert("Erreur", "Veuillez entrer un nom d'exercice")
  const AddFailed := Alert("Erreur", "Impossible d'ajouter l'exercice")
  const NoTemplateName := Alert("Erreur", "Veuillez entrer un nom pour la routine")
  const SaveFailed := Alert("Erreur", "Impossible de sauvegarder la routine")
  const Saved := Alert("Succès", "Routine créée avec succès !")

  /** Which insert of a save throws, if any. */
  datatype SaveFault = NoFault | TemplateInsertFails | EntryInsertFails(index: nat)

  /** The entry `handleAddExercise` appends (lines 32-39). */
  function NewEntry(exerciseId: int, nom: string): DraftEntry {
    DraftEntry(exerciseId, nom, "3", "", "", "90")
  }

  function FieldValue(e: DraftEntry, f: Field): string {
    match f
    case Sets => e.sets
    case Weight => e.weight
    case Reps => e.reps
    case RestTimer => e.restTimer
  }

  /** `entry[field] = value` (line 53). */
  function SetField(e: DraftEntry, f: Field, value: string): (r: DraftEntry)
    ensures r.exerciseId == e.exerciseId && r.nom == e.nom
  {
    match f
    case Sets => e.(sets := value)
    case Weight => e.(weight := value)
    case Reps => e.(reps := value)
    case RestTimer => e.(restTimer := value)
  }

  /** Writing a field changes exactly that field. */
  lemma SetFieldOnly(e: DraftEntry, f: Field, value: string)
    ensures FieldValue(SetField(e, f, value), f) == value
    ensures forall g :: g != f ==> FieldValue(SetField(e, f, value), g) == FieldValue(e, g)
  {
  }

  /** `splice(index, 1)` on a copy, for an index at or above zero: the entry
      at the index goes, the others keep their order; an index past the end
      removes nothing. */
  function RemoveAt<T>(s: seq<T>, index: nat): (r: seq<T>)
    ensures index < |s| ==> |r| == |s| - 1
    ensures index >= |s| ==> r == s
    ensures forall j :: 0 <= j < |r| ==> r[j] == if j < index then s[j] else s[j + 1]
  {
    if index < |s| then s[..index] + s[index + 1..] else s
  }

  /** `parseInt(text) || fallback`: the parsed value unless it is NaN or 0. */
  function OrDefault(text: string, fallback: int): (n: int)
    ensures n == 0 ==> fallback == 0
    ensures ParseInt(text).Some? && ParseInt(text).value != 0 ==> n == ParseInt(text).value
    ensures ParseInt(text).None? || ParseInt(text).value == 0 ==> n == fallback
  {
    var p := ParseInt(text);
    if p.None? || p.value == 0 then fallback else p.value
  }

  /** The untouched defaults survive the fallback. */
  lemma OrDefaultKeepsDefaults()
    ensures OrDefault("3", 3) == 3 && OrDefault("90", 90) == 90
  {
    ParseIntOfNat(3);
    ParseIntOfNat(90);
    assert NatToString(3) == "3" && NatToString(90) == "90";
  }

  /** Every other integer the user types is kept, negative ones included. */
  lemma OrDefaultKeepsTyped(n: int, fallback: int)
    requires n != 0
    ensures OrDefault(IntToString(n), fallback) == n
  {
    ParseIntOfInt(n);
  }

  /** A typed 0 falls back like NaN, however it is written: with a sign,
      with more zeros, or followed by text that is not a digit. */
  lemma OrDefaultZeroFallsBack(sign: string, z: nat, rest: string, fallback: int)
    requires sign == "" || sign == "-" || sign == "+"
    requires rest == [] || !IsDigit(rest[0])
    requires z == 0 && rest != [] ==> rest[0] != 'x' && rest[0] != 'X'
    ensures OrDefault(sign + (Zeros(z) + "0") + rest, fallback) == fallback
  {
    assert NatToString(0) == "0";
    ParseIntReads(sign + (Zeros(z) + "0") + rest, sign, z, 0, rest);
  }

  /** Text without a decimal digit (empty text included) is NaN and falls
      back. */
  lemma OrDefaultNoDigitsFallsBack(text: string, fallback: int)
    requires forall k :: 0 <= k < |text| ==> !IsDigit(text[k])
    ensures OrDefault(text, fallback) == fallback
  {
  }

  /** Only the leading number counts: an optional sign, its digits (leading
      zeros allowed), and whatever follows that is not a digit is ignored. */
  lemma OrDefaultDigitPrefix(sign: string, z: nat, n: nat, rest: string, fallback: int)
    requires sign == "" || sign == "-" || sign == "+"
    requires n != 0
    requires rest == [] || !IsDigit(rest[0])
    ensures OrDefault(sign + (Zeros(z) + NatToString(n)) + rest, fallback) == if sign == "-" then -(n as int) else n
  {
    ParseIntReads(sign + (Zeros(z) + NatToString(n)) + rest, sign, z, n, rest);
  }

  /** A draft entry as the save reads it (lines 77-81, 88): `sets` parsed
      with 3 as fallback, `restTimer` parsed with 90 as fallback, the other
      fields as typed. */
  datatype Filled = Filled(exerciseId: int, sets: int, weight: string, reps: string, restTimer: int)

  function Fill(e: DraftEntry): (f: Filled)
    ensures f.exerciseId == e.exerciseId && f.weight == e.weight && f.reps == e.reps
    ensures f.sets == OrDefault(e.sets, 3) && f.restTimer == OrDefault(e.restTimer, 90)
  {
    Filled(e.exerciseId, OrDefault(e.sets, 3), e.weight, e.reps, OrDefault(e.restTimer, 90))
  }

  function FillAll(es: seq<DraftEntry>): (fs: seq<Filled>)
    ensures |fs| == |es|
    ensures forall j :: 0 <= j < |es| ==> fs[j] == Fill(es[j])
  {
    seq(|es|, j requires 0 <= j < |es| => Fill(es[j]))
  }

  /** A freshly added entry saves as 3 sets with a 90-second rest. */
  lemma NewEntryFill(exerciseId: int, nom: string)
    ensures Fill(NewEntry(exerciseId, nom)) == Filled(exerciseId, 3, "", "", 90)
  {
    OrDefaultKeepsDefaults();
  }

  /** The row the save inserts for entry `j` (lines 83-89): `ordre` j + 1 and
      the prescription `series_pred`. */
  function EntryRow(templateId: int, id: int, j: nat, f: Filled): TemplateExercise {
    TemplateExercise(id, templateId, f.exerciseId, j + 1, Some(Prescription(f.sets, f.weight, f.reps)), f.restTimer)
  }

  /** The rows a save of `fs` inserts, the first with rowid `firstId`. */
  function Planned(templateId: int, firstId: int, fs: seq<Filled>): (r: seq<TemplateExercise>)
    ensures |r| == |fs|
  {
    seq(|fs|, j requires 0 <= j < |fs| => EntryRow(templateId, firstId + j, j, fs[j]))
  }

  /** The saved rows belong to the template, carry their entry's exercise,
      and are numbered 1..n in draft order with consecutive rowids. */
  lemma PlannedNumbering(templateId: int, firstId: int, fs: seq<Filled>)
    ensures forall j :: 0 <= j < |fs| ==>
      Planned(templateId, firstId, fs)[j].ordre == j + 1 &&
      Planned(templateId, firstId, fs)[j].id == firstId + j &&
      Planned(templateId, firstId, fs)[j].templateId == templateId &&
      Planned(templateId, firstId, fs)[j].exerciseId == fs[j].exerciseId
    ensures Increasing(Planned(templateId, firstId, fs), EntryKey)
    ensures SortedByInt(Planned(templateId, firstId, fs), (te: TemplateExercise) => te.ordre)
  {
  }

  /** Saving one more entry appends one more row. */
  lemma PlannedSnoc(templateId: int, firstId: int, fs: seq<Filled>, i: nat)
    requires i < |fs|
    ensures Planned(templateId, firstId, fs[..i + 1]) ==
      Planned(templateId, firstId, fs[..i]) + [EntryRow(templateId, firstId + i, i, fs[i])]
  {
    var a := Planned(templateId, firstId, fs[..i + 1]);
    var b := Planned(templateId, firstId, fs[..i]) + [EntryRow(templateId, firstId + i, i, fs[i])];
    assert |a| == |b|;
    forall j | 0 <= j < |a| ensures a[j] == b[j] {
      assert fs[..i + 1][j] == fs[j];
      if j < i {
        assert fs[..i][j] == fs[j];
      }
    }
  }

  /** Every entry of the list names an exercise the database has. */
  predicate EntriesResolve(es: seq<DraftEntry>, exercises: seq<Exercise>) {
    forall j :: 0 <= j < |es| ==> FindByKey(exercises, ExerciseKey, es[j].exerciseId).Some?
  }

  predicate FilledResolve(fs: seq<Filled>, exercises: seq<Exercise>) {
    forall j :: 0 <= j < |fs| ==> FindByKey(exercises, ExerciseKey, fs[j].exerciseId).Some?
  }

  lemma FillAllResolves(es: seq<DraftEntry>, exercises: seq<Exercise>)
    requires EntriesResolve(es, exercises)
    ensures FilledResolve(FillAll(es), exercises)
  {
  }

  /** The inner join keeps every entry whose exercise exists, in order. */
  lemma {:induction false} JoinAllFound(entries: seq<TemplateExercise>, exercises: seq<Exercise>)
    requires forall j :: 0 <= j < |entries| ==> FindByKey(exercises, ExerciseKey, entries[j].exerciseId).Some?
    ensures |JoinExercises(entries, exercises)| == |entries|
    ensures forall j :: 0 <= j < |entries| ==>
      JoinExercises(entries, exercises)[j] ==
        Joined(entries[j], FindByKey(exercises, ExerciseKey, entries[j].exerciseId).value)
  {
    if entries != [] {
      JoinAllFound(entries[1..], exercises);
    }
  }

  /** How many entries a save inserts: all of them, unless the insert of
      one of them throws. */
  function SavedCount(fault: SaveFault, n: nat): (saved: nat)
    ensures saved <= n
    ensures saved < n <==> fault.EntryInsertFails? && fault.index < n
    ensures saved < n ==> saved == fault.index
  {
    if fault.EntryInsertFails? && fault.index < n then fault.index else n
  }

  /** The new template's rows are exactly the planned ones. */
  lemma PlannedAlone(prior: seq<TemplateExercise>, templateId: int, firstId: int, fs: seq<Filled>)
    requires forall i :: 0 <= i < |prior| ==> prior[i].templateId != templateId
    ensures Filter(prior + Planned(templateId, firstId, fs), InTemplate(templateId)) == Planned(templateId, firstId, fs)
  {
    var planned := Planned(templateId, firstId, fs);
    FilterAppend(prior, planned, InTemplate(templateId));
    FilterNoneKept(prior, InTemplate(templateId));
    assert forall j :: 0 <= j < |planned| ==> planned[j].templateId == templateId;
    FilterAllKept(planned, InTemplate(templateId));
  }

  /** Joining the planned rows with their exercises loses none of them and
      keeps them in `ordre` order. */
  lemma JoinedPlannedSorted(exercises: seq<Exercise>, templateId: int, firstId: int, fs: seq<Filled>)
    requires FilledResolve(fs, exercises)
    ensures var joined := JoinExercises(Planned(templateId, firstId, fs), exercises);
      |joined| == |fs| && SortedByInt(joined, RowOrdre) &&
      forall j :: 0 <= j < |fs| ==>
        joined[j].entry == EntryRow(templateId, firstId + j, j, fs[j]) &&
        joined[j] == Joined(joined[j].entry, FindByKey(exercises, ExerciseKey, fs[j].exerciseId).value)
  {
    var planned := Planned(templateId, firstId, fs);
    assert forall j :: 0 <= j < |planned| ==> planned[j] == EntryRow(templateId, firstId + j, j, fs[j]);
    JoinAllFound(planned, exercises);
    var joined := JoinExercises(planned, exercises);
    forall i, j | 0 <= i < j < |joined| ensures RowOrdre(joined[i]) <= RowOrdre(joined[j]) {
      assert joined[i].entry == planned[i] && joined[j].entry == planned[j];
    }
  }

  /** After a complete save, `getTemplateExercises` of the new template
      gives back the draft list: one row per entry, in draft order, each
      with its entry's exercise. */
  lemma SavedTemplateReadsBack(prior: seq<TemplateExercise>, exercises: seq<Exercise>,
                               templateId: int, firstId: int, fs: seq<Filled>)
    requires forall i :: 0 <= i < |prior| ==> prior[i].templateId != templateId
    requires FilledResolve(fs, exercises)
    ensures var rows := SortByInt(JoinExercises(Filter(prior + Planned(templateId, firstId, fs), InTemplate(templateId)),
                                                exercises), RowOrdre);
      |rows| == |fs| &&
      forall j :: 0 <= j < |fs| ==>
        rows[j].entry == EntryRow(templateId, firstId + j, j, fs[j]) &&
        rows[j] == Joined(rows[j].entry, FindByKey(exercises, ExerciseKey, fs[j].exerciseId).value)
  {
    PlannedAlone(prior, templateId, firstId, fs);
    JoinedPlannedSorted(exercises, templateId, firstId, fs);
    SortByIntSorted(JoinExercises(Planned(templateId, firstId, fs), exercises), RowOrdre);
  }

  /** The screen's state over a database. */
  class TemplateComposer {
    const db: Database
    /** `route?.params?.user || { id: 1 }`, line 7. */
    const userId: int
    var templateName: string
    var exerciseName: string
    var exercises: seq<DraftEntry>
    var addExerciseVisible: bool
    /** The last alert shown, if any. */
    var alert: Option<Alert>

    ghost predicate Valid()
      reads this, db
    {
      db.Valid() && EntriesResolve(exercises, db.exercises)
    }

    constructor (db: Database, routeUser: Option<int>)
      requires db.Valid()
      ensures Valid() && this.db == db
      ensures userId == (if routeUser.Some? then routeUser.value else 1)
      ensures templateName == "" && exerciseName == "" && exercises == [] && !addExerciseVisible && alert.None?
    {
      this.db := db;
      userId := if routeUser.Some? then routeUser.value else 1;
      templateName, exerciseName, exercises, addExerciseVisible, alert := "", "", [], false, None;
    }

    /** Lines 18-48: a blank or whitespace-only name is refused and nothing
        changes; otherwise the exercise is looked up by the untrimmed name,
        created only when none has it, and one default entry is appended. A
        failed insert leaves the list, the name and the modal as they were. */
    method HandleAddExercise(fail: bool)
      requires Valid()
      modifies this`exercises, this`exerciseName, this`addExerciseVisible, this`alert
      modifies db`exercises, db`nextExerciseId
      ensures Valid()
      ensures Trim(old(exerciseName)) == [] ==>
        alert == Some(NoExerciseName) && exercises == old(exercises) && exerciseName == old(exerciseName) &&
        addExerciseVisible == old(addExerciseVisible) && db.exercises == old(db.exercises) &&
        db.nextExerciseId == old(db.nextExerciseId)
      ensures Trim(old(exerciseName)) != [] && old(db.GetExerciseByName(exerciseName)).Some? ==>
        db.exercises == old(db.exercises) && db.nextExerciseId == old(db.nextExerciseId) &&
        exercises == old(exercises) + [NewEntry(old(db.GetExerciseByName(exerciseName)).value.id, old(exerciseName))] &&
        exerciseName == "" && !addExerciseVisible && alert == old(alert)
      ensures Trim(old(exerciseName)) != [] && old(db.GetExerciseByName(exerciseName)).None? && fail ==>
        alert == Some(AddFailed) && exercises == old(exercises) && exerciseName == old(exerciseName) &&
        addExerciseVisible == old(addExerciseVisible) && db.exercises == old(db.exercises) &&
        db.nextExerciseId == old(db.nextExerciseId)
      ensures Trim(old(exerciseName)) != [] && old(db.GetExerciseByName(exerciseName)).None? && !fail ==>
        db.exercises == old(db.exercises) + [Exercise(old(db.nextExerciseId), old(exerciseName), None, None, None)] &&
        db.nextExerciseId == old(db.nextExerciseId) + 1 &&
        exercises == old(exercises) + [NewEntry(old(db.nextExerciseId), old(exerciseName))] &&
        exerciseName == "" && !addExerciseVisible && alert == old(alert)
    {
      if Trim(exerciseName) == [] {
        alert := Some(NoExerciseName);
        return;
      }
      var exercise := db.GetExerciseByName(exerciseName);
      var id: int;
      if exercise.Some? {
        id := exercise.value.id;
        assert FindByKey(db.exercises, ExerciseKey, id).Some?;
      } else {
        var created := db.CreateExercise(exerciseName, None, None, None, fail);
        if created.Err? {
          alert := Some(AddFailed);
          return;
        }
        id := created.value;
        ExtendedExercisesResolve(exercises, old(db.exercises), Exercise(id, exerciseName, None, None, None));
        assert db.exercises[|db.exercises| - 1].id == id;
        assert FindByKey(db.exercises, ExerciseKey, id).Some?;
      }
      ExtendedEntriesResolve(exercises, db.exercises, NewEntry(id, exerciseName));
      exercises := exercises + [NewEntry(id, exerciseName)];
      exerciseName := "";
      addExerciseVisible := false;
    }

    /** Lines 51-55: one field of one entry takes the value; everything else
        is unchanged. */
    method UpdateExerciseValue(exerciseIndex: nat, field: Field, value: string)
      requires Valid() && exerciseIndex < |exercises|
      modifies this`exercises
      ensures Valid()
      ensures exercises == old(exercises)[exerciseIndex := SetField(old(exercises)[exerciseIndex], field, value)]
    {
      exercises := exercises[exerciseIndex := SetField(exercises[exerciseIndex], field, value)];
    }

    /** Lines 58-62: remove the entry at the index. */
    method HandleDeleteExercise(exerciseIndex: nat)
      requires Valid()
      modifies this`exercises
      ensures Valid()
      ensures exercises == RemoveAt(old(exercises), exerciseIndex)
    {
      exercises := RemoveAt(exercises, exerciseIndex);
    }

    /** Lines 65-106: a blank name is refused before any write; otherwise the
        template row is inserted, then one row per entry in draft order. An
        insert that throws ends the save with an error alert, and what was
        inserted before it stays. */
    method HandleSaveTemplate(fault: SaveFault)
      requires Valid()
      modifies this`alert, db`templates, db`nextTemplateId, db`templateExercises, db`nextEntryId
      ensures Valid()
      ensures Trim(templateName) == [] || fault == TemplateInsertFails ==>
        db.templates == old(db.templates) && db.templateExercises == old(db.templateExercises) &&
        db.nextTemplateId == old(db.nextTemplateId) && db.nextEntryId == old(db.nextEntryId) &&
        alert == Some(if Trim(templateName) == [] then NoTemplateName else SaveFailed)
      ensures Trim(templateName) != [] && fault != TemplateInsertFails ==>
        var saved := SavedCount(fault, |exercises|);
        db.templates == old(db.templates) + [Template(old(db.nextTemplateId), userId, templateName, None)] &&
        db.templateExercises == old(db.templateExercises) +
          Planned(old(db.nextTemplateId), old(db.nextEntryId), FillAll(exercises))[..saved] &&
        db.nextTemplateId == old(db.nextTemplateId) + 1 && db.nextEntryId == old(db.nextEntryId) + saved &&
        alert == Some(if saved < |exercises| then SaveFailed else Saved)
    {
      if Trim(templateName) == [] {
        alert := Some(NoTemplateName);
        return;
      }
      var created := db.CreateTemplate(userId, templateName, None, fault == TemplateInsertFails);
      if created.Err? {
        alert := Some(SaveFailed);
        return;
      }
      var saved := InsertEntries(db, created.value, FillAll(exercises), fault);
      alert := Some(if saved < |exercises| then SaveFailed else Saved);
    }
  }

  /** Lines 76-90: the `forEach` that inserts one row per entry, in draft
      order, stopping at the insert that throws. `saved` is how many rows
      went in. */
  method InsertEntries(db: Database, templateId: int, filled: seq<Filled>, fault: SaveFault) returns (saved: nat)
    requires db.Valid()
    modifies db`templateExercises, db`nextEntryId
    ensures db.Valid()
    ensures saved == SavedCount(fault, |filled|)
    ensures db.templateExercises == old(db.templateExercises) + Planned(templateId, old(db.nextEntryId), filled)[..saved]
    ensures db.nextEntryId == old(db.nextEntryId) + saved
  {
    ghost var plan := Planned(templateId, db.nextEntryId, filled);
    saved := 0;
    while saved < |filled|
      invariant saved <= |filled|
      invariant db.Valid()
      invariant db.templateExercises == old(db.templateExercises) + plan[..saved]
      invariant db.nextEntryId == old(db.nextEntryId) + saved
      invariant !(fault.EntryInsertFails? && fault.index < saved)
    {
      var f := filled[saved];
      var r := db.AddExerciseToTemplate(templateId, f.exerciseId, saved + 1, Some(Prescription(f.sets, f.weight, f.reps)),
                                        Some(f.restTimer), fault == EntryInsertFails(saved));
      if r.Err? {
        break;
      }
      assert plan[saved] == EntryRow(templateId, old(db.nextEntryId) + saved, saved, f);
      SnocPrefix(old(db.templateExercises), plan, saved);
      saved := saved + 1;
    }
  }

  lemma SnocPrefix<T>(prior: seq<T>, s: seq<T>, i: nat)
    requires i < |s|
    ensures prior + s[..i] + [s[i]] == prior + s[..i + 1]
  {
    assert s[..i + 1] == s[..i] + [s[i]];
  }

  lemma ExtendedExercisesResolve(es: seq<DraftEntry>, before: seq<Exercise>, e: Exercise)
    requires EntriesResolve(es, before)
    ensures EntriesResolve(es, before + [e])
  {
    forall j | 0 <= j < |es| ensures FindByKey(before + [e], ExerciseKey, es[j].exerciseId).Some? {
      var k := es[j].exerciseId;
      var i :| 0 <= i < |before| && before[i].id == k;
      assert (before + [e])[i].id == k;
    }
  }

  lemma ExtendedEntriesResolve(es: seq<DraftEntry>, exercises: seq<Exercise>, x: DraftEntry)
    requires EntriesResolve(es, exercises)
    requires FindByKey(exercises, ExerciseKey, x.exerciseId).Some?
    ensures EntriesResolve(es + [x], exercises)
  {
  }
}
