# PRTracker core in Dafny

This project models the core of PRTracker, a React Native workout tracker backed by SQLite. It covers:

- **Database start-up** (`initDatabase`). Every base table is created with `CREATE TABLE IF NOT EXISTS`. Then, inside one `try`/`catch`, three additive migrations run: `templates.user_id`, `template_exercises.rest_timer` and `sessions.duration`. The database is an untyped map from table name to columns (with their `DEFAULT`) and rows. Which statements throw is a parameter: the first one that throws ends the `try` block, and the error is swallowed.
- **The schema** (`schemaQueries`), as constant data: columns, `NOT NULL`, `UNIQUE`, `DEFAULT`, `CHECK` domains and foreign keys with their `ON DELETE` action.
- **The repositories** for templates, sessions, exercises and users, over a typed in-memory database (class `Database`). Each table is a sequence of rows in rowid order, with one `AUTOINCREMENT` counter per table. A writer is a method that changes only the tables it names. A reader is a function of the tables.
  - `WHERE` is an order-keeping filter.
  - `ORDER BY` is a sorted permutation: code-point order for text, numeric order for integers.
  - `JOIN` is an inner join on the exercise id.
- **The template composer** (`CreateTemplateScreen`): the draft list, its handlers, and the save. The save inserts the template row, then one `template_exercises` row per entry in draft order, and stops at the first insert that throws.
- **The sign-up form** (`SignupScreen`):
  - The three regular expressions are written as character classes. Each is proved equivalent to a direct statement of what it accepts.
  - `onSignup` makes its checks in source order. The account it creates logs in with `loginUser`.
- **Display formatting.**
  - `formatDuration` (history) and `formatTime` (quick start): both texts read back as the number of seconds.
  - `getSetTypeLabel` and `getSetTypeColor`.
- **The quick-start screen's state**: the seconds counter, and the finish and abandon confirmation dialogs.

What the platform provides becomes a parameter:

- `sha256` is a function parameter.
- The clock reading for `createSession` is a `date` parameter.
- An exception of the storage engine is a `fail` flag, a `SaveFault` or a `faults` set.

Files:

| file | contents |
|---|---|
| `common.dfy` | `Option`; JavaScript white space, `trim`, `toLowerCase`; integer text, `padStart`, `parseInt`, clock text |
| `rows.dfy` | `WHERE`, `ORDER BY` on text and on integers, lookups by key, rowid order |
| `schema.dfy` | the base table definitions and the `CHECK` domains as datatypes |
| `migration.dfy` | `initDatabase` on an untyped store; the `Connection` class |
| `repositories.dfy` | typed rows and the `Database` class with every repository function |
| `composer.dfy` | `CreateTemplateScreen` state and handlers |
| `signup.dfy` | `SignupScreen` validators and `onSignup` |
| `history.dfy` | `formatDuration`, `getSetTypeLabel`, `getSetTypeColor` |
| `quickstart.dfy` | `formatTime` and the `QuickStartSession` state |

## Model

| member | source | states |
|---|---|---|
| Common.Trim | src/screens/SignupScreen.js:20 | the result is no longer than the input and starts and ends with a non-space character when it is not empty |
| Common.TrimEmptyIffAllSpace | src/screens/CreateTemplateScreen.js:19 | `trim()` gives the empty string exactly when the text is all white space (the blank-name test) |
| Common.TrimIsInfix | src/screens/SignupScreen.js:20 | the trimmed text is the input with only white space removed from both ends |
| Common.ToLower | src/screens/SignupScreen.js:15 | lower-casing keeps the length and maps each character by itself |
| Common.LowerChar | src/screens/SignupScreen.js:15 | lower-casing never turns a character into white space, `@` or `.`, nor those into anything else |
| Common.NatToStringRoundTrip | src/screens/HistoryScreen.js:40 | `toString` of a non-negative integer reads back as that integer |
| Common.IntToString | src/screens/HistoryScreen.js:40 | negative numbers print as `-` followed by the digits of their magnitude |
| Common.PadZerosRoundTrip | src/screens/HistoryScreen.js:40 | `padStart(n, "0")` on integer text keeps the value |
| Common.PadZeros | src/screens/QuickStartSession.js:22-24 | padding only prepends zeros up to the width and leaves longer text alone |
| Common.ParseInt | src/screens/CreateTemplateScreen.js:78 | `parseInt` returns a number only if the text contains a decimal digit, and NaN otherwise |
| Common.ParseIntReads | src/screens/CreateTemplateScreen.js:78 | `parseInt` of an optional sign, a decimal number with any leading zeros, and text that does not continue it, is that signed number |
| Common.ParseIntReadsDigits | src/screens/CreateTemplateScreen.js:78 | `parseInt` of an optional sign, a run of decimal digits that is no `0x` prefix, and a non-digit, is the run's signed value |
| Common.ParseIntOfInt | src/screens/CreateTemplateScreen.js:78 | `parseInt` of the text of any integer, negative ones included, is that integer |
| Common.ParseIntOfNat | src/screens/CreateTemplateScreen.js:78 | `parseInt` of the decimal text of a number is that number (`parseInt(3)` is 3) |
| Common.JsRem | src/screens/HistoryScreen.js:39 | JavaScript `%` takes the sign of the dividend and agrees with the Euclidean remainder on non-negative operands |
| Common.ClockRoundTrip | src/screens/QuickStartSession.js:19-25 | minutes padded to a width, a colon and seconds padded to two digits read back as `m * 60 + s` |
| Rows.Filter | src/database/templates.js:21 | a row is in the `WHERE` result exactly when it is in the table and satisfies the condition |
| Rows.FilterFilter | src/database/sessions.js:67 | two conditions applied one after the other select the rows of their conjunction |
| Rows.FilterAppend | src/database/templates.js:59 | filtering distributes over concatenation, so rows of another table part stay out |
| Rows.FilterIncreasing | src/database/sessions.js:56 | a filter of rows in rowid order is in rowid order |
| Rows.TextLeTotal | src/database/exercises.js:31 | the text order is total |
| Rows.TextLeTransitive | src/database/exercises.js:31 | the text order is transitive |
| Rows.SortByText | src/database/exercises.js:31 | `ORDER BY` a text column gives a permutation of the rows sorted by that column |
| Rows.SortByInt | src/database/templates.js:60 | `ORDER BY` an integer column gives a permutation of the rows sorted by that column |
| Rows.SortByIntSorted | src/database/templates.js:60 | rows already in key order come back unchanged |
| Rows.FindByKeyExact | src/database/templates.js:32 | in a table in rowid order, the lookup by a row's id finds that row |
| Rows.FindByKeyAll | src/database/templates.js:32 | in a table in rowid order, every row with the id is the one found |
| Rows.CountIsFilterLength | src/database/templates.js:71 | `COUNT(*) WHERE` is the length of the filtered table |
| Rows.KeyedAppend | src/database/templates.js:12 | appending a row with the next rowid keeps the table in rowid order below the incremented counter |
| Rows.KeyedFilter | src/database/templates.js:82-85 | deleting rows keeps the table in rowid order below the counter |
| Schema.FindDef | src/database/init.js:28 | `find` gives a definition with that name exactly when one exists |
| Schema.ParseStatus | src/database/schema.js:39 | the `sessions.status` CHECK accepts exactly its three values |
| Schema.StatusTextRoundTrip | src/database/schema.js:39 | each status is stored as its own text and read back unchanged |
| Schema.ParseSetType | src/database/schema.js:51 | the `series.type` CHECK accepts exactly its five values |
| Schema.SetTypeTextRoundTrip | src/database/schema.js:51 | each set type is stored as its own text and read back unchanged |
| Schema.UniquenessDeclared | src/database/schema.js:3-16 | `users.email` is declared NOT NULL UNIQUE and `exercises.nom` is not unique |
| Schema.CheckDomainsDeclared | src/database/schema.js:34-55 | the status domain is three values with default `en_progress`; the set-type domain is five values |
| Schema.CascadesDeclared | src/database/schema.js:24-55 | exactly three foreign keys cascade on delete: series to sessions, and template_exercises to templates and to exercises |
| Schema.MigratedColumnsNotInBase | src/database/schema.js:18-42 | none of the three migrated columns is in the base definitions |
| Migration.AddColumn | src/database/init.js:33-55 | `ALTER TABLE ADD COLUMN` declares the column and gives every existing row its default (NULL without one) |
| Migration.CreateAllEffect | src/database/init.js:8-11 | `CREATE TABLE IF NOT EXISTS` over a list keeps existing tables with their rows, and creates the missing ones empty |
| Migration.SchemaFacts | src/database/schema.js:1-64 | the seven base tables have distinct names |
| Migration.TemplatesQueryFound | src/database/init.js:28 | `schemaQueries.find` returns the base templates definition |
| Migration.BaseStepEffect | src/database/init.js:8-11 | the `schemaQueries` loop adds exactly the missing schema tables, empty, and keeps every existing table |
| Migration.BaseTables | src/database/init.js:8-11 | after the first step every schema table exists, earlier tables are unchanged, and new ones are empty |
| Migration.BaseTablesIdle | src/database/init.js:8-11 | when every schema table already exists the first step changes nothing |
| Migration.Init | src/database/init.js:4-63 | after start-up template_exercises and sessions exist |
| Migration.MigrateTemplatesEffect | src/database/init.js:16-37 | the templates migration changes only templates; the table is kept, recreated empty (only when it had no rows) or given `user_id` DEFAULT 1 |
| Migration.MigrateTemplatesKeys | src/database/init.js:16-37 | a templates migration that did not throw keeps template_exercises and sessions |
| Migration.MigrateTemplatesOrder | src/database/init.js:16-37 | the templates statements run in source order |
| Migration.MigrateTemplatesFailure | src/database/init.js:14-37 | only the last attempted statement can have thrown, and only an injected fault throws when the table exists |
| Migration.MigrateColumnTrace | src/database/init.js:39-57 | a column migration runs its inspect, then maybe its ALTER, keeping the set of tables |
| Migration.MigrateColumnEffect | src/database/init.js:39-57 | a column migration changes one table at most; a missing column is added with its default unless a statement threw, which leaves everything as it was |
| Migration.MigrateEffect | src/database/init.js:14-60 | the try block only changes templates, template_exercises and sessions, each in its one permitted way |
| Migration.MigrateTrace | src/database/init.js:14-60 | statements run in source order, and the one that threw is the last attempted |
| Migration.MigrateSkips | src/database/init.js:14-60 | an exception skips every later migration |
| Migration.MigrateWithoutFaults | src/database/init.js:39-57 | without exceptions both added columns are present, with their defaults when added |
| Migration.MigratePopulated | src/database/init.js:23-35 | a templates table with rows is never dropped, keeps its row count, and gains `user_id` DEFAULT 1 |
| Migration.MigrateEmptyRecreated | src/database/init.js:25-28 | an empty templates table without `user_id` is dropped and recreated from its definition |
| Migration.MigrateOwned | src/database/init.js:16-19 | a templates table with `user_id` is left alone and nothing is dropped |
| Migration.TemplatesSettled | src/database/init.js:16-28 | a migrated or freshly recreated templates table is not changed again |
| Migration.ColumnSettled | src/database/init.js:39-57 | a column migration that finds its column does nothing |
| Migration.MigrateTwice | src/database/init.js:14-60 | a second try block after one without exceptions changes nothing |
| Migration.PopulatedTemplatesKept | src/database/init.js:23-35 | at start-up a populated templates table keeps its rows, and every row gets `user_id` 1 |
| Migration.EmptyTemplatesRecreatedWithoutOwner | src/database/init.js:25-28 | an empty templates table is recreated without `user_id`, and the next start drops it again |
| Migration.MigratedColumnsPresent | src/database/init.js:39-57 | after a start without exceptions `rest_timer` (DEFAULT 90) and `duration` (no default) exist |
| Migration.SecondRunChangesNothing | src/database/init.js:4-63 | starting twice leaves the database as one start left it |
| Migration.TraceInSourceOrder | src/database/init.js:14-60 | at start-up: source order, the failing statement last, and later tables untouched after an exception |
| Migration.OnlyMigrationChanges | src/database/init.js:14-60 | only templates can be dropped, and only the three named columns are added |
| Migration.FixedSchemaFacts | src/database/schema.js:18-22 | the corrected templates definition has `user_id` and is what `find` returns |
| Migration.FixedBaseTables | src/database/init.js:8-11 | with the corrected definitions a new templates table has the owner column |
| Migration.FreshInstallLacksOwner | src/database/init.js:25-28 | as written, a fresh install ends with templates lacking `user_id` |
| Migration.FixedInitGivesOwner | src/database/init.js:25-28 | with the corrected definition templates gets `user_id`, and the next start drops nothing |
| Migration.Connection.constructor | src/database/init.js:5 | a connection opens on the existing tables |
| Migration.Connection.InitDatabase | src/database/init.js:4-63 | the connection's tables become exactly the start-up result, errors swallowed, and the connection is returned |
| Migration.Connection.CreateSchema | src/database/init.js:8-11 | the loop over the schema statements gives the base tables |
| Migration.Connection.MigrateTemplatesStep | src/database/init.js:16-37 | the templates branch, step by step, gives the function's tables and error |
| Migration.Connection.MigrateColumnStep | src/database/init.js:39-57 | a column branch, step by step, gives the function's tables and error |
| Repositories.JoinExercises | src/database/templates.js:56-58 | the inner join gives exactly the entries whose exercise exists, each joined with it |
| Repositories.Renamed | src/database/templates.js:93-95 | the UPDATE changes name and description of the matching rows only |
| Repositories.WithStatus | src/database/sessions.js:21-23 | the UPDATE changes the status of the matching rows only |
| Repositories.UniqueFound | src/database/schema.js:6 | with unique emails the first row with an email is the row with it |
| Repositories.Database.constructor | src/database/schema.js:1-64 | a new database has empty tables and satisfies the invariant |
| Repositories.Database.CreateTemplate | src/database/templates.js:6-13 | inserts one row with a fresh rowid above every existing one and returns it; a failure changes nothing |
| Repositories.Database.GetTemplatesByUser | src/database/templates.js:18-24 | exactly the user's templates, sorted by `nom` |
| Repositories.Database.GetTemplateById | src/database/templates.js:29-35 | the row with that id if there is one, otherwise nothing |
| Repositories.Database.AddExerciseToTemplate | src/database/templates.js:40-48 | appends one row with the given `ordre` and `series_pred`, and `rest_timer` 90 by default |
| Repositories.Database.GetTemplateExercises | src/database/templates.js:53-63 | the template's entries whose exercise exists, joined and sorted by `ordre` |
| Repositories.Database.GetTemplateExerciseCount | src/database/templates.js:68-75 | the number of the template's rows; 0 exactly when it has none |
| Repositories.Database.DeleteTemplate | src/database/templates.js:80-86 | removes the template and, by the cascade, its entries, and nothing else |
| Repositories.Database.UpdateTemplate | src/database/templates.js:91-97 | renames the matching template and changes no other row or column |
| Repositories.Database.DeleteTemplateExercise | src/database/templates.js:102-108 | removes the entry with that id and nothing else |
| Repositories.Database.CreateSession | src/database/sessions.js:6-14 | appends a session in progress with the next id, the caller's date and NULL duration |
| Repositories.Database.UpdateSessionStatus | src/database/sessions.js:19-25 | writes any status in the domain to the matching row, from any status; a value outside it throws the CHECK violation exactly when a row matches, and changes nothing |
| Repositories.Database.GetSessionById | src/database/sessions.js:30-36 | the session with that id if there is one |
| Repositories.Database.CreateSeries | src/database/sessions.js:41-48 | appends a set with type `normal` by default; a type outside the domain throws and inserts nothing |
| Repositories.Database.GetSeriesBySession | src/database/sessions.js:53-59 | exactly the session's sets, in id order |
| Repositories.Database.GetSeriesByExercise | src/database/sessions.js:64-70 | exactly the session's sets for that exercise, in id order |
| Repositories.Database.CreateExercise | src/database/exercises.js:6-13 | inserts with a fresh id, also when an exercise with the name exists |
| Repositories.Database.GetExerciseById | src/database/exercises.js:18-24 | the exercise with that id if there is one |
| Repositories.Database.GetAllExercises | src/database/exercises.js:29-32 | every exercise, sorted by `nom` |
| Repositories.Database.GetExerciseByName | src/database/exercises.js:37-43 | nothing exactly when no exercise has that exact name, otherwise one that has it |
| Repositories.Database.CreateUser | src/database/users.js:3-10 | stores `sha256(password)` as the hash; a duplicate email violates UNIQUE and nothing is inserted |
| Repositories.Database.GetUserByEmail | src/database/users.js:12-17 | the user with exactly that email if there is one |
| Repositories.Database.LoginUser | src/database/users.js:19-25 | a user is returned exactly when one has that email and the password's hash |
| Composer.SetField | src/screens/CreateTemplateScreen.js:53 | writing a field keeps the entry's exercise and name |
| Composer.SetFieldOnly | src/screens/CreateTemplateScreen.js:53 | writing a field sets that field and no other |
| Composer.RemoveAt | src/screens/CreateTemplateScreen.js:58-62 | `splice(i, 1)` removes the entry at i and keeps the order of the rest; an index past the end removes nothing |
| Composer.OrDefault | src/screens/CreateTemplateScreen.js:78-88 | `parseInt(x) \|\| d` is the parsed value when it is a number other than 0, and d exactly when it is NaN or 0 |
| Composer.OrDefaultKeepsDefaults | src/screens/CreateTemplateScreen.js:78-88 | the untouched defaults 3 and 90 survive the save |
| Composer.OrDefaultKeepsTyped | src/screens/CreateTemplateScreen.js:78-88 | the text of every integer other than 0, negative ones included, is kept |
| Composer.OrDefaultZeroFallsBack | src/screens/CreateTemplateScreen.js:88 | a typed 0 falls back to the default, with or without a sign, more zeros or trailing text |
| Composer.OrDefaultNoDigitsFallsBack | src/screens/CreateTemplateScreen.js:78-88 | every text without a decimal digit, the empty text included, falls back |
| Composer.OrDefaultDigitPrefix | src/screens/CreateTemplateScreen.js:78 | only the leading number counts: a sign, digits with any leading zeros, and then anything that is not a digit (`"12kg"` gives 12) |
| Composer.Fill | src/screens/CreateTemplateScreen.js:77-88 | an entry is saved with its parsed sets and rest, and its weight and reps as typed |
| Composer.FillAll | src/screens/CreateTemplateScreen.js:76-90 | every entry is read this way, in order |
| Composer.NewEntryFill | src/screens/CreateTemplateScreen.js:32-39 | a freshly added entry saves as 3 sets with a 90-second rest |
| Composer.Planned | src/screens/CreateTemplateScreen.js:76-90 | one row per entry |
| Composer.PlannedNumbering | src/screens/CreateTemplateScreen.js:83-89 | rows are numbered `ordre` 1..n in draft order with consecutive rowids, and belong to the template |
| Composer.PlannedSnoc | src/screens/CreateTemplateScreen.js:76-90 | saving one more entry appends one more row |
| Composer.JoinAllFound | src/database/templates.js:56-58 | the join keeps every entry whose exercise exists, in order |
| Composer.SavedCount | src/screens/CreateTemplateScreen.js:76-90 | every entry is inserted unless one insert throws, and then exactly those before it are |
| Composer.PlannedAlone | src/database/templates.js:59 | the new template's rows are exactly the rows this save inserted |
| Composer.JoinedPlannedSorted | src/database/templates.js:53-63 | joining the saved rows loses none of them and keeps them in `ordre` order |
| Composer.SavedTemplateReadsBack | src/screens/CreateTemplateScreen.js:76-90 | after a complete save `getTemplateExercises` returns the draft list in order, each entry with its exercise |
| Composer.InsertEntries | src/screens/CreateTemplateScreen.js:76-90 | the loop appends exactly the planned rows before the throwing one |
| Composer.TemplateComposer.constructor | src/screens/CreateTemplateScreen.js:6-15 | empty fields and list; the user is the route's, or 1 |
| Composer.TemplateComposer.HandleAddExercise | src/screens/CreateTemplateScreen.js:18-48 | a blank name alerts and changes nothing; an existing exercise is reused and no id is used up, otherwise one is created with the next id; a default entry is appended and the modal closes; a failed insert changes only the alert, the id counter included |
| Composer.TemplateComposer.UpdateExerciseValue | src/screens/CreateTemplateScreen.js:51-55 | exactly one field of one entry changes |
| Composer.TemplateComposer.HandleDeleteExercise | src/screens/CreateTemplateScreen.js:58-62 | the list loses the entry at the index |
| Composer.TemplateComposer.HandleSaveTemplate | src/screens/CreateTemplateScreen.js:65-106 | a blank name or a failed template insert writes nothing and keeps both id counters; otherwise one template row with the next id, then the planned rows up to a failure, each counter advanced by what was inserted; the success alert only when all were saved |
| Signup.PatternHasShape | src/screens/SignupScreen.js:14 | text matching the email pattern has the shape: one `@` with text before it, and an inner `.` after it |
| Signup.ShapeHasPattern | src/screens/SignupScreen.js:14 | text of that shape matches the email pattern |
| Signup.EmailPatternIsShape | src/screens/SignupScreen.js:14 | the pattern and the shape agree on every text, in both directions |
| Signup.LowerKeepsEmailShape | src/screens/SignupScreen.js:15 | lower-casing does not change whether text has the shape |
| Signup.ValidateEmailIff | src/screens/SignupScreen.js:13-16 | an email is accepted exactly when it has the shape, lower-cased or not |
| Signup.ValidateNomIff | src/screens/SignupScreen.js:18-21 | a name is accepted exactly when it is not all white space and every character is in the class |
| Signup.ScanPasswordIff | src/screens/SignupScreen.js:24 | the one-pass scan accepts exactly class characters with a letter and a digit seen |
| Signup.ValidatePasswordIff | src/screens/SignupScreen.js:23-26 | a password is accepted exactly when it has at least 8 characters of the class, with a letter and a digit |
| Signup.FirstFailure | src/screens/SignupScreen.js:32-52 | the message shown is that of the first failing check, in the order name, email, password, email taken |
| Signup.SignupForm.constructor | src/screens/SignupScreen.js:7-11 | all five fields start empty |
| Signup.SignupForm.OnSignup | src/screens/SignupScreen.js:28-64 | messages are cleared; a failing check shows its message and writes nothing, the id counter included; otherwise the user is inserted with the next id, the raw email and the hash, the success message shows and the inputs clear; an insert that throws shows the generic error and uses up no id |
| Signup.SignupForm.Check | src/screens/SignupScreen.js:32-52 | the checks made in source order give the first failure |
| Signup.SignupForm.Register | src/screens/SignupScreen.js:54-63 | the insert with the next id, then the success message and cleared inputs, or the generic error with users and counter unchanged |
| Signup.SignupThenLogin | src/database/users.js:19-25 | an account created with an unused email logs in with the same email and password |
| History.FormatDuration | src/screens/HistoryScreen.js:36-41 | a missing or zero duration shows as `0:00` |
| History.FormatDurationRoundTrip | src/screens/HistoryScreen.js:38-40 | a non-negative duration's text is unpadded minutes, a colon and two-digit seconds below 60, and reads back as the duration |
| History.ZeroDurationReadsBack | src/screens/HistoryScreen.js:37 | `0:00` reads back as 0 |
| History.FormatDurationInjective | src/screens/HistoryScreen.js:36-41 | distinct durations show as distinct texts |
| History.FormatDurationNegative | src/screens/HistoryScreen.js:38-39 | a negative duration keeps JavaScript's mixed rounding: -65 s shows as `-2:-5` |
| History.TypeLetter | src/screens/HistoryScreen.js:55-64 | exactly warmup, failure, PR and dropset have a letter, and it is not a digit |
| History.TypeLettersDistinct | src/screens/HistoryScreen.js:55-64 | the four letters are distinct |
| History.GetSetTypeLabel | src/screens/HistoryScreen.js:55-64 | a label starts with a digit exactly when the type has no letter |
| History.LabelRoundTrip | src/screens/HistoryScreen.js:55-64 | a label reads back as the type's letter and the zero-based index |
| History.LabelsDistinct | src/screens/HistoryScreen.js:55-64 | two labels are equal exactly when the types share a letter (or none) and the indices are equal |
| History.GetSetTypeColor | src/screens/HistoryScreen.js:66-74 | the colour is blue exactly for `normal` and unknown types |
| History.ColorMatchesLetter | src/screens/HistoryScreen.js:66-74 | two types share a colour exactly when they share a letter, so the four marked types have four colours |
| QuickStart.FormatTime | src/screens/QuickStartSession.js:19-25 | for non-negative seconds the text is at least 5 characters, with the colon third from the end |
| QuickStart.FormatTimeRoundTrip | src/screens/QuickStartSession.js:19-25 | the timer text is minutes of at least two digits, a colon and seconds 00..59, and reads back as the seconds |
| QuickStart.FormatTimeInjective | src/screens/QuickStartSession.js:19-25 | distinct times show as distinct texts |
| QuickStart.QuickStartSession.constructor | src/screens/QuickStartSession.js:5-7 | the counter starts at 0 with both dialogs hidden |
| QuickStart.QuickStartSession.Display | src/screens/QuickStartSession.js:39 | the shown text reads back as the counter |
| QuickStart.QuickStartSession.Tick | src/screens/QuickStartSession.js:11-13 | each tick adds exactly one second |
| QuickStart.QuickStartSession.AskFinish | src/screens/QuickStartSession.js:32 | "Terminer" opens the finish dialog |
| QuickStart.QuickStartSession.AskAbandon | src/screens/QuickStartSession.js:52 | "Abandonner" opens the abandon dialog |
| QuickStart.QuickStartSession.ConfirmFinish | src/screens/QuickStartSession.js:72-77 | "Oui" closes the dialog and calls `onClose` once; nothing is saved |
| QuickStart.QuickStartSession.ConfirmAbandon | src/screens/QuickStartSession.js:107-112 | "Oui" closes the dialog and calls `onClose` once; nothing is saved |
| QuickStart.QuickStartSession.DeclineFinish | src/screens/QuickStartSession.js:83 | "Non" only closes the finish dialog |
| QuickStart.QuickStartSession.DeclineAbandon | src/screens/QuickStartSession.js:118 | "Non" only closes the abandon dialog |
| QuickStart.FinishAndAbandonAgree | src/screens/QuickStartSession.js:72-111 | confirming finish and confirming abandon end in the same state |

## Left out

- Rendering, styles, navigation and logging (`console.log`, `console.warn`, `console.error`) are left out; they do not change state.
- `getDBConnection` (src/database/database.js) is not part of this model. The repositories act on one `Database` object and `initDatabase` on one `Connection`.
- Timers are left out. `setInterval`/`clearInterval` become explicit `Tick` calls. The 50 ms `setTimeout` before `onClose` becomes an immediate increment of a call counter. Event-loop ordering is not captured.
- SQLite foreign keys are declared data only. An insert does not check that the parent row exists, and a delete applies only the declared cascades. Whether the connection enables foreign-key enforcement is outside the code shown.
- Repositories.Database.DeleteTemplate: always deletes. With enforcement on, the NO ACTION reference `sessions.template_id` (src/database/schema.js:41) would refuse to delete a template that a session names; that refusal is not modelled.
- Repositories.Database.CreateTemplate, Repositories.Database.GetTemplatesByUser, Repositories.Database.AddExerciseToTemplate: the typed tables always have the columns the migrations add (`templates.user_id`, `template_exercises.rest_timer`, `sessions.duration`). "## Findings" shows that a fresh install never gets `templates.user_id`, where these statements would fail; the repository model describes the database the code evidently intends.
- Repositories.Database.CreateSeries: `kind` None stands for an omitted argument, which takes the default `normal`. An explicit `null` binds NULL, which passes the CHECK and is stored; the model has no NULL set type. `poids` and `reps` are never NULL in the model, though their columns allow it.
- Repositories.Database.UpdateSessionStatus: a `null` status would be stored as NULL (a NULL CHECK result passes); the model's status is always text, so that case is not modelled.
- Statements are atomic, and each SQL statement either applies fully or throws. Why the engine throws (disk, locking) is a parameter, not modelled.
- The start-up step's `CREATE TABLE` statements are assumed not to throw. They run outside the `try`, so a failure there would end `initDatabase` itself.
- `series_pred` is JSON text in the source. The model stores the `Prescription` value that `JSON.stringify` encodes (sets, weight, reps), without its text form.
- Migration.Table: column types and constraints of migrated tables are left out; `PRAGMA table_info` only needs names. Rows are maps from column to value.
- Common.LowerChar: `toLowerCase` is modelled on ASCII and the Latin-1 capitals. Other Unicode case mappings are left out; they do not affect `@`, `.` or white space, which is all the email check depends on.
- Common.ParseInt: integers are unbounded. JavaScript's loss of precision above 2^53 and the `Infinity` result are not modelled.
- Real numbers (`poids`, `RPE`) are Dafny `real`. `toFixed(1)` in the history screen is left out.
- Dates are opaque strings: `new Date().toISOString()` becomes a parameter. `formatDate` (`toLocaleDateString`) is left out.
- `weight_logs` is modelled only as a table definition; no code in the core reads or writes it.
- The history screen's `getAllCompletedSessions` and `getSessionDetails` are imported but not defined in src/database/sessions.js. Loading sessions is left out.
- History.FormatDuration: `!seconds` is also true for NaN; durations are integers here, so the NaN case is left out.
- History.GetSetTypeLabel: for an unmarked type the source returns the number itself. The model returns its text, which is what the screen renders.
- QuickStart.FormatTime: the round trip is proved for non-negative seconds, the only values the counter takes. A negative argument is still printed with JavaScript's operators.
- Composer: the draft's `sets` and `restTimer` hold the text of the defaults 3 and 90. The screen only shows them with `toString()` and reads them with `parseInt`, which give the same on the number and on its text.
- Composer.FillAll: the save parses every entry before the inserts, while the source parses each entry just before its insert. Parsing is pure and cannot throw, so the rows and the stopping point are the same.
- Composer.TemplateComposer.UpdateExerciseValue: the source writes into the entry object shared with the previous list (a shallow copy). The model replaces the entry by value; the aliasing is not captured, and nothing in the screen reads the old list afterwards.
- Composer.TemplateComposer.HandleSaveTemplate: the "OK" button of the success alert calls `onClose`. That navigation is not modelled.
- Repositories.Database.GetTemplatesByUser: the order of templates with equal names is not stated, because SQLite does not promise one.
- Repositories.Database.GetExerciseByName: which of several rows with the same name comes back is not stated, because SQLite does not promise one.
- Signup.SignupForm.OnSignup: `getUserByEmail` is awaited in the source; the model runs it synchronously, which is what the synchronous driver call does.

## Findings

| source | as written | input that shows it | evidently intended | confidence | as-written member | corrected member |
|---|---|---|---|---|---|---|
| src/database/init.js:25-28 | when templates lacks `user_id` and has no rows, it is dropped and recreated from the base definition in src/database/schema.js:18-22, which has no `user_id` | a fresh install (no tables): after start-up templates has no `user_id`, which `createTemplate` (src/database/templates.js:9) and `getTemplatesByUser` (src/database/templates.js:21) name; every later start drops and recreates it again | the recreated table has the owner column `user_id INTEGER NOT NULL REFERENCES users(id)` | not executed | Migration.FreshInstallLacksOwner | Migration.FixedInitGivesOwner |
