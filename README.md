# Workout Manager — a verified model of its data services and screen logic

Workout Manager is a React Native fitness tracker. A user browses an exercise catalog
(filtered by name, equipment and body part, one page at a time), builds routines, performs a
routine as a workout with editable sets and a running timer, and looks back at finished
workouts. This project models the logic behind that in Dafny and proves properties of the
model:

- **RealmService** (`realm_service.dfy`): the paginated, filtered catalog query and the write
  operations on routines, trains (workouts), exercise sessions and sets. The store is a class
  whose fields hold the stored objects in insertion order. Every operation except
  `initialize` catches its own errors, so "not initialised", "closed" and "not found" leave
  the store unchanged; `initialize` logs its error and throws it again.
- **SqliteService** (`sqlite_service.dfy`): the SQL text and bound parameters the filtered query
  builds, the count statement derived from it by two `replace` calls, and the order in which
  both run and the promise settles.
- **NewWorkoutScreen** (`new_workout_screen.dfy`): the sets being edited during a workout
  (loading, editing, adding and removing sets with renumbering), the `MM:SS` timer label, and
  the workout handed over when the session is finished (volume and per-exercise sessions).
- **EditRoutineScreen**, **WorkoutDetailScreen** (`edit_routine_screen.dfy`,
  `workout_detail_screen.dfy`): removing an exercise from a selection, the checks and writes of
  saving a routine, the duration label and the video id derived from a media path.
- **ExerciseVideo** (`exercise_video.dfy`): the video player's load / error / automatic retry /
  fallback state machine.
- **Utils**, **ExerciseEquipment**, **ExerciseBodyPart** (`utils.dfy`, `exercise_equipment.dfy`,
  `exercise_body_part.dfy`): name capitalisation and the two closed value lists.
- Shared: `optional.dfy` (an `Option` type), `schema.dfy` (the stored records and primary-key
  lookup), `strings.dfy` (the JavaScript string and number built-ins the code relies on:
  `trim`, `padStart`, `toString`, `replace`, `toLowerCase`/`toUpperCase` on ASCII, and a
  decimal `parseFloat`).

The two volume rules of the code are kept apart, as written. `RealmService.addSet` counts
weight × repetitions for the stored train volume, when both are truthy. The new-workout screen
adds up the parsed weights of all sets and ignores repetitions.

One behaviour of the video player is proved as written rather than changed: the third failure
already shows the fallback view while the third automatic reload (three seconds later) is still
pending, and that reload then hides it again (`ExerciseVideo.ThirdAndFourthFailure`).

## Model

| member | source | states |
|---|---|---|
| Utils.CapitalizeFirstLetter | src/utils/Utils.js:1-3 | same length; the first character is upper-cased and every later character is kept |
| Utils.CapitalizedWords | src/utils/Utils.js:5-26 | reference meaning of capitalising every word: same length, and spaces stay exactly where they were |
| Utils.CapitalizeFirstLetterAllWords | src/utils/Utils.js:5-26 | the one-pass loop with its "capitalise next" flag upper-cases exactly the characters that start a word (non-space, at the start or after a space) and keeps every other character |
| Utils.UpperKeepsSpaces | src/utils/Utils.js:13 | upper-casing maps only a space to a space and is idempotent |
| Utils.CapitalizedWordsIdempotent | src/utils/Utils.js:5-26 | capitalising all words twice is the same as once |
| Utils.NoSpacesAgree | src/utils/Utils.js:1-26 | on a string without spaces both helpers give the same result |
| Utils.EmptyUnchanged | src/utils/Utils.js:1-26 | both helpers leave the empty string alone |
| NewWorkoutScreen.Renumbered | src/pages/workouts/NewWorkoutScreen.js:112-115 | the sets keep their order and every field except the number, which becomes position + 1 |
| NewWorkoutScreen.RenumberedIdentity | src/pages/workouts/NewWorkoutScreen.js:112-115 | renumbering sets already numbered 1..n changes nothing |
| NewWorkoutScreen.InitializedSets | src/pages/workouts/NewWorkoutScreen.js:46-60 | loading keeps the exercises in order and gives each exactly the sets 1, 2, 3, blank and not done |
| NewWorkoutScreen.InitializedVolume | src/pages/workouts/NewWorkoutScreen.js:348-356 | a freshly loaded workout has volume 0 |
| NewWorkoutScreen.UpdateSet | src/pages/workouts/NewWorkoutScreen.js:67-84 | replacing one set changes that set and nothing else: other exercises, other sets of the exercise and the exercise itself are kept |
| NewWorkoutScreen.ChangeWeightFrame | src/pages/workouts/NewWorkoutScreen.js:67-71 | a weight edit sets the addressed set's weight to the value and changes no other field or set |
| NewWorkoutScreen.ChangeRepsFrame | src/pages/workouts/NewWorkoutScreen.js:73-77 | a reps edit sets the addressed set's reps to the value and changes no other field or set |
| NewWorkoutScreen.ToggleDoneTwice | src/pages/workouts/NewWorkoutScreen.js:79-84 | a toggle flips the addressed done flag, and toggling twice restores the exercises |
| NewWorkoutScreen.UpdateSetKeepsNumbering | src/pages/workouts/NewWorkoutScreen.js:67-84 | field edits keep every exercise with at least one set numbered 1..n |
| NewWorkoutScreen.AddSetTo | src/pages/workouts/NewWorkoutScreen.js:86-99 | adding appends one blank set numbered one past the count to the addressed exercise only |
| NewWorkoutScreen.AddSetKeepsNumbering | src/pages/workouts/NewWorkoutScreen.js:86-99 | adding keeps the numbering 1..n and grows the set count by one |
| NewWorkoutScreen.RemoveLastSet | src/pages/workouts/NewWorkoutScreen.js:106-116 | removing touches only the addressed exercise |
| NewWorkoutScreen.RemoveSetKeepsNumbering | src/pages/workouts/NewWorkoutScreen.js:106-121 | with more than one set exactly the last set is dropped (renumbering changes nothing); with one set nothing changes; no exercise is left without sets |
| NewWorkoutScreen.RemoveUndoesAdd | src/pages/workouts/NewWorkoutScreen.js:86-116 | removing right after adding gives back the exercises as they were |
| NewWorkoutScreen.FormatTimeReadsBack | src/pages/workouts/NewWorkoutScreen.js:133-139 | the label is digits, a colon and two digits whose minutes × 60 + seconds is the elapsed time, seconds below 60, and exactly five characters below 100 minutes |
| NewWorkoutScreen.BlankWeighsNothing | src/pages/workouts/NewWorkoutScreen.js:352 | an empty weight counts as 0 |
| NewWorkoutScreen.UpdateSetVolume | src/pages/workouts/NewWorkoutScreen.js:348-356 | replacing one set moves the volume by the difference of the two parsed weights |
| NewWorkoutScreen.ChangeWeightVolume | src/pages/workouts/NewWorkoutScreen.js:348-356 | a weight edit moves the volume by the change in parsed weight (unparseable as 0) |
| NewWorkoutScreen.RepsAndDoneKeepVolume | src/pages/workouts/NewWorkoutScreen.js:348-356 | reps edits and done toggles leave the volume unchanged |
| NewWorkoutScreen.ReplaceExerciseVolume | src/pages/workouts/NewWorkoutScreen.js:348-356 | replacing one exercise moves the volume by the difference of the two exercise volumes |
| NewWorkoutScreen.AddSetVolume | src/pages/workouts/NewWorkoutScreen.js:348-356 | adding a set does not change the volume |
| NewWorkoutScreen.RemoveSetVolume | src/pages/workouts/NewWorkoutScreen.js:348-356 | removing a set subtracts exactly the last set's parsed weight |
| NewWorkoutScreen.SessionsCarryVolume | src/pages/workouts/NewWorkoutScreen.js:347-361 | the sessions handed over number one per exercise, and the parsed weights of their sets add up to the volume handed over beside them |
| NewWorkoutScreen.NewWorkout.constructor | src/pages/workouts/NewWorkoutScreen.js:25-31 | timer 0, no exercises, no open menu, refresh key 0 |
| NewWorkoutScreen.NewWorkout.Tick | src/pages/workouts/NewWorkoutScreen.js:36-38 | the timer advances by one second; nothing else changes |
| NewWorkoutScreen.NewWorkout.LoadExercises | src/pages/workouts/NewWorkoutScreen.js:43-65 | a successful load replaces the exercises by their initialised form; a failed one changes nothing |
| NewWorkoutScreen.NewWorkout.HandleWeightChange | src/pages/workouts/NewWorkoutScreen.js:67-71 | the exercises become the weight edit of the old ones; the numbering invariant is kept |
| NewWorkoutScreen.NewWorkout.HandleRepsChange | src/pages/workouts/NewWorkoutScreen.js:73-77 | the exercises become the reps edit of the old ones; the numbering invariant is kept |
| NewWorkoutScreen.NewWorkout.ToggleSetDone | src/pages/workouts/NewWorkoutScreen.js:79-84 | the exercises become the toggle of the old ones; the numbering invariant is kept |
| NewWorkoutScreen.NewWorkout.AddSet | src/pages/workouts/NewWorkoutScreen.js:86-104 | a set is added, the refresh key goes up by one and the menu closes |
| NewWorkoutScreen.NewWorkout.RemoveSet | src/pages/workouts/NewWorkoutScreen.js:106-123 | the alert is shown exactly when the exercise has one set; otherwise the last set goes and the refresh key goes up; the menu closes either way |
| NewWorkoutScreen.NewWorkout.OpenContextMenu | src/pages/workouts/NewWorkoutScreen.js:125-127 | the menu of the given exercise is open; nothing else changes |
| NewWorkoutScreen.NewWorkout.CloseContextMenu | src/pages/workouts/NewWorkoutScreen.js:129-131 | no menu is open; nothing else changes |
| NewWorkoutScreen.NewWorkout.HandleFinishWorkout | src/pages/workouts/NewWorkoutScreen.js:346-371 | the handed-over workout carries the routine, the timer as duration, the summed parsed weights as volume, empty notes and the per-exercise sessions |
| EditRoutineScreen.Without | src/pages/routines/EditRoutineScreen.js:66-68 | removal never lengthens the selection |
| EditRoutineScreen.WithoutCounts | src/pages/routines/EditRoutineScreen.js:66-68 | entries with the removed id disappear; every other entry stays as often as before |
| EditRoutineScreen.WithoutMembers | src/pages/routines/EditRoutineScreen.js:66-68 | an entry remains exactly when it was there and has a different id |
| EditRoutineScreen.WithoutConcat | src/pages/routines/EditRoutineScreen.js:66-68 | removal distributes over concatenation, so the kept entries keep their order |
| EditRoutineScreen.WithoutAbsent | src/pages/routines/EditRoutineScreen.js:66-68 | a selection without that id is unchanged |
| EditRoutineScreen.WithoutIdempotent | src/pages/routines/EditRoutineScreen.js:66-68 | removing the same exercise twice equals removing it once |
| EditRoutineScreen.BlankNameRejected | src/pages/routines/EditRoutineScreen.js:41-44 | an all-whitespace name gives the name alert, writes nothing and stays on the screen |
| EditRoutineScreen.NothingWrittenIff | src/pages/routines/EditRoutineScreen.js:40-57 | nothing is written exactly when the trimmed name is empty or no exercise is selected; a named but empty selection gives the exercises alert |
| EditRoutineScreen.AcceptedSaveWrites | src/pages/routines/EditRoutineScreen.js:51-63 | an accepted save writes the trimmed name with an empty description, then (if that succeeded) the selection; the screen is left exactly when both succeed, and an alert is shown otherwise |
| WorkoutDetailScreen.EarlyReturnAgrees | src/pages/workouts/WorkoutDetailScreen.js:50-55 | the early "0m 00s" for a missing or zero duration is what the general formula gives for 0 |
| WorkoutDetailScreen.OneHour | src/pages/workouts/WorkoutDetailScreen.js:50-55 | there is no hour field: 3600 s reads "60m 00s" |
| WorkoutDetailScreen.DurationReadsBack | src/pages/workouts/WorkoutDetailScreen.js:52-54 | the label is unpadded minutes, "m ", two seconds digits below 60 and "s", and reads back as the duration |
| WorkoutDetailScreen.NoLeadingZero | src/pages/workouts/WorkoutDetailScreen.js:54 | a number's decimal text starts with '0' only when it is "0" |
| WorkoutDetailScreen.MissingPathIsDefault | src/pages/workouts/WorkoutDetailScreen.js:70-72 | a missing or empty media path gives the id "default" |
| WorkoutDetailScreen.StripWrapped | src/pages/workouts/WorkoutDetailScreen.js:71 | replacing the first prefix and then the first suffix occurrence gives back the wrapped id when the suffix cannot overlap itself and is absent from the id |
| WorkoutDetailScreen.MediaIdOfStoredPath | src/pages/workouts/WorkoutDetailScreen.js:70-72 | the stored path "/mp4s/" + id + ".mp4" gives back id whenever id does not contain ".mp4" |
| ExerciseVideo.RetryScheduledIff | src/components/ExerciseVideo.js:59-70 | a reload is scheduled exactly while the new count is at most 3, after 1000 ms × the new count |
| ExerciseVideo.VisibilityCommutes | src/components/ExerciseVideo.js:30-91 | a visibility change commutes with every other event, a second one overrides the first, and it neither shows nor hides the fallback nor schedules a reload |
| ExerciseVideo.FullBudget | src/components/ExerciseVideo.js:19-101 | from the first render, after a load and after the retry button, at most 3 automatic reloads are scheduled before the next load or button press; after a load, two errors do not show the fallback and a third one does exactly when its message is non-empty |
| ExerciseVideo.FallbackAfterError | src/components/ExerciseVideo.js:55-101 | an error shows the fallback exactly when its message is present and non-empty (an empty string is falsy) and it is the third or a later failure |
| ExerciseVideo.ThirdAndFourthFailure | src/components/ExerciseVideo.js:55-101 | the third failure shows the fallback (for a non-empty message) while a 3000 ms reload is pending; that reload hides it; a fourth failure schedules nothing and shows the fallback for a non-empty message |
| ExerciseVideo.NoFallbackAfterReload | src/components/ExerciseVideo.js:46-101 | load start, load, scheduled reload and retry button all take the fallback away |
| ExerciseVideo.KeyNeverDecreases | src/components/ExerciseVideo.js:46-91 | over any run of events the player key never decreases |
| ExerciseVideo.RetriesBounded | src/components/ExerciseVideo.js:55-91 | without a successful load or a retry press, errors schedule at most 3 − count reloads in total, and the count never decreases |
| ExerciseVideo.VideoPlayer.constructor | src/components/ExerciseVideo.js:19-25 | the player starts in the initial state |
| ExerciseVideo.VideoPlayer.HandleLoadStart | src/components/ExerciseVideo.js:46-48 | the state becomes "loading, no error" |
| ExerciseVideo.VideoPlayer.HandleLoad | src/components/ExerciseVideo.js:50-53 | the state becomes the loaded state |
| ExerciseVideo.VideoPlayer.HandleError | src/components/ExerciseVideo.js:55-81 | the state becomes the failed state and the returned delay is the reload the handler schedules |
| ExerciseVideo.VideoPlayer.FireRetry | src/components/ExerciseVideo.js:62-68 | the state becomes the remounted, loading state with the count kept |
| ExerciseVideo.VideoPlayer.HandleRetry | src/components/ExerciseVideo.js:83-91 | the state becomes the remounted, loading state with the count reset |
| ExerciseVideo.VideoPlayer.SetVisible | src/components/ExerciseVideo.js:30-31 | the state becomes the visibility update |
| ExerciseEquipment.Values | src/enums/ExerciseEquipment.js:32-62 | the list has 28 entries |
| ExerciseEquipment.ValuesDistinct | src/enums/ExerciseEquipment.js:32-62 | no equipment is listed twice |
| ExerciseEquipment.IsValidIffConstant | src/enums/ExerciseEquipment.js:66-68 | a string is valid exactly when it equals one of the 28 constants |
| ExerciseBodyPart.Values | src/enums/ExerciseBodyPart.js:14-26 | the list has 10 entries |
| ExerciseBodyPart.ValuesDistinct | src/enums/ExerciseBodyPart.js:14-26 | no body part is listed twice |
| ExerciseBodyPart.IsValidIffConstant | src/enums/ExerciseBodyPart.js:30-32 | a string is valid exactly when it equals one of the 10 constants |
| Schema.FindId | src/services/RealmService.js:146-153 | a primary-key lookup finds a position holding that key, and finds none exactly when the key is absent |
| RealmService.ConditionsMeanMatches | src/services/RealmService.js:62-74 | the built condition list holds of an exercise exactly when every active filter matches it |
| RealmService.NoActiveFilterMatchesAll | src/services/RealmService.js:64-77 | with no active filter there are no conditions and every exercise matches |
| RealmService.FilteredIsMatching | src/services/RealmService.js:76-80 | filtering by the conditions (or not at all when there are none) yields the matching exercises in store order |
| RealmService.MatchingCount | src/services/RealmService.js:83 | the counted total is the number of matching exercises |
| RealmService.MatchingMembership | src/services/RealmService.js:76-80 | an exercise is in the filtered result exactly when it is in the catalog and matches |
| RealmService.MatchingConcat | src/services/RealmService.js:76-80 | filtering distributes over concatenation: store order is kept |
| RealmService.FilterExercises | src/services/RealmService.js:54-93 | the total counts all matches independently of skip and limit, the page is the slice skip..skip+limit of the matches, and hasMore holds exactly when the total exceeds skip + limit |
| RealmService.PageLength | src/services/RealmService.js:86 | a page holds limit matches, fewer on the last page, none past the end |
| RealmService.PageElements | src/services/RealmService.js:86 | position i of a page is match number skip + i |
| RealmService.PaginationComplete | src/services/RealmService.js:83-93 | asking for pages 0, limit, 2 × limit, … while hasMore yields exactly the matching exercises, in order, each once |
| RealmService.SentinelsAreNotValues | src/services/RealmService.js:68-73 | "All Equipment" and "All Body Parts" are not valid equipment or body parts |
| RealmService.SentinelImposesNoCondition | src/services/RealmService.js:68-73 | selecting both sentinels leaves at most the name condition |
| RealmService.AssignCompose | src/services/RealmService.js:155-166 | two updates equal one merged update, an empty update is a no-op, and repeating an update changes nothing |
| RealmService.RemoveKeepsDistinct | src/services/RealmService.js:168-179 | with unique keys, deleting one routine keeps the keys unique |
| RealmService.RemoveAtKey | src/services/RealmService.js:168-179 | deleting the object at the key's position removes exactly the routines with that key |
| RealmService.KeyAbsent | src/services/RealmService.js:168-179 | deleting an absent key leaves the routines unchanged |
| RealmService.StoredSetVolume | src/services/RealmService.js:251-261 | the stored set, with falsy values nulled, accounts for exactly the increment added to the train volume |
| RealmService.AppendSetVolume | src/services/RealmService.js:256-261 | appending a set to one session raises the sum over all sets by that set's weight × repetitions |
| RealmService.InsertByDate | src/services/RealmService.js:205 | inserting one train adds exactly it to the multiset of trains |
| RealmService.InsertKeepsOrder | src/services/RealmService.js:205 | inserting into a newest-first sequence keeps it newest first |
| RealmService.SortNewestFirst | src/services/RealmService.js:205 | the result is a permutation of the trains ordered by descending date |
| RealmService.RealmService.constructor | src/services/RealmService.js:14-45 | an unopened store over the database file `initialize` will open, holding its catalog, routines and trains, which satisfy the store invariant |
| RealmService.RealmService.Initialize | src/services/RealmService.js:20-52 | the store becomes open and its contents are kept |
| RealmService.RealmService.CloseRealm | src/services/RealmService.js:269-273 | an open store becomes closed; otherwise nothing changes |
| RealmService.RealmService.GetFilteredExercises | src/services/RealmService.js:54-99 | on an open store the page of the filter; otherwise the empty page |
| RealmService.RealmService.GetAllTrains | src/services/RealmService.js:203-210 | on an open store all trains, newest first (a permutation); otherwise none |
| RealmService.RealmService.RoutineIndex | src/services/RealmService.js:146-153 | finds the routine with that key, and nothing exactly when the store is not open or has no such routine |
| RealmService.RealmService.TrainIndex | src/services/RealmService.js:212-219 | finds the train with that key, and nothing exactly when the store is not open or has no such train |
| RealmService.RealmService.ExerciseIndex | src/services/RealmService.js:111-118 | finds the exercise with that key, and nothing exactly when the store is not open or has no such exercise |
| RealmService.RealmService.CreateRoutine | src/services/RealmService.js:121-135 | on an open store the new routine is appended; keys stay unique; nothing else changes |
| RealmService.RealmService.UpdateRoutine | src/services/RealmService.js:155-166 | the routine with that key, if any, gets the update assigned onto it; nothing else changes |
| RealmService.RealmService.DeleteRoutine | src/services/RealmService.js:168-179 | exactly the routine with that key, if any, is removed; nothing else changes |
| RealmService.RealmService.CreateTrain | src/services/RealmService.js:182-201 | for an existing routine one train with no sessions, duration 0, volume 0 and empty notes is appended; otherwise nothing changes |
| RealmService.RealmService.AddExerciseSession | src/services/RealmService.js:222-239 | when both train and exercise exist, an empty session is appended to that train; otherwise nothing changes |
| RealmService.RealmService.AddSet | src/services/RealmService.js:242-266 | for an existing train and session index, the stored set is appended to that session and the volume grows by the increment; otherwise nothing changes; every train's volume stays the sum over its sets |
| SqliteService.FilterParams | src/services/SqliteService.js:72-87 | one bound parameter per active filter |
| SqliteService.PageParamsShape | src/services/SqliteService.js:93-100 | the page parameters are the filter parameters, then limit, then skip, so dropping the last two leaves the filter parameters |
| SqliteService.PlaceholdersOf | src/services/SqliteService.js:69-95 | each assembled statement holds exactly one placeholder per parameter bound to it |
| SqliteService.StatementPlaceholders | src/services/SqliteService.js:69-100 | the page and count statements hold exactly as many "?" as their parameter lists have entries |
| SqliteService.CountSqlFromPageSql | src/services/SqliteService.js:98-99 | replacing the column list and then the first " LIMIT ? OFFSET ?" turns the page statement into the count statement |
| SqliteService.FilterStatement | src/services/SqliteService.js:69-87 | the conditional appends produce the base statement with the equipment, body part and name clauses of the truthy filters, and their parameters in the same order |
| SqliteService.BuildQueries | src/services/SqliteService.js:69-100 | the statements and parameters built before running: the page statement and parameters, the derived count statement, and the parameters without limit and skip |
| SqliteService.FiltersAreBound | src/services/SqliteService.js:72-87 | the equipment value is the first parameter when present, and the "%…%" name pattern the last filter parameter when active |
| SqliteService.SentinelIsBound | src/services/SqliteService.js:73-76 | a sentinel such as "All Equipment" is bound as a real equipment filter |
| SqliteService.BlankSearchIgnored | src/services/SqliteService.js:84-87 | an all-whitespace search adds no clause and no parameter |
| SqliteService.SqliteService.constructor | src/services/SqliteService.js:4-6 | no connection is held |
| SqliteService.SqliteService.Init | src/services/SqliteService.js:8-24 | a connection is held |
| SqliteService.SqliteService.CloseDatabase | src/services/SqliteService.js:133-140 | a close is issued exactly when a connection was held; none is held afterwards |
| SqliteService.SqliteService.GetFilteredExercises | src/services/SqliteService.js:65-131 | without a connection it rejects and runs nothing; otherwise it runs the count statement first, rejects on its failure, then the page statement, and resolves with the rows, the total and hasMore = total > skip + limit |
| Strings.LowerAll | src/services/RealmService.js:65 | case folding keeps the length |
| Strings.NatToStringDigits | src/pages/workouts/WorkoutDetailScreen.js:54 | a number's decimal text is digits reading back as the number, one digit below 10, at most two below 100 |
| Strings.PadStart | src/pages/workouts/NewWorkoutScreen.js:136-138 | padding keeps the text as a suffix and fills at the front up to the width |
| Strings.Pad2Digits | src/pages/workouts/NewWorkoutScreen.js:136-138 | the two-digit padded text reads back as the number and has exactly two characters below 100 |
| Strings.TrimStart | src/pages/routines/EditRoutineScreen.js:53 | only leading whitespace is removed |
| Strings.TrimEnd | src/pages/routines/EditRoutineScreen.js:53 | only trailing whitespace is removed |
| Strings.TrimEmptyIff | src/pages/routines/EditRoutineScreen.js:41 | a trimmed text is empty exactly when it is all whitespace |
| Strings.ParseFloatDigits | src/pages/workouts/NewWorkoutScreen.js:352 | a run of digits followed by a non-numeric character parses to its value |
| Strings.ParseFloatOfNat | src/pages/workouts/NewWorkoutScreen.js:352 | the decimal text of a number parses back to it |
| Strings.ParseFloatNoDigits | src/pages/workouts/NewWorkoutScreen.js:352 | a text without digits does not parse, so the weight counts as 0 |
| Strings.IndexFrom | src/pages/workouts/WorkoutDetailScreen.js:71 | finds the first occurrence of the pattern from a position, or reports that there is none |
| Strings.ReplaceAtFirst | src/pages/workouts/WorkoutDetailScreen.js:71 | replace substitutes the first occurrence of the pattern and keeps the rest |

## Left out

- Rendering, styling, navigation and alerts' wording beyond the alert messages of a save are not modelled; alerts appear as a flag or an optional message.
- `RealmService.initialize`, `SqliteService.init` and `openDatabase` are reduced to their effect (the store is open, a connection is held): copying the bundled file, file-system checks and schema configuration are I/O.
- uuid generation and `new Date()` are parameters: `CreateRoutine` and `CreateTrain` take the fresh id and the date, and require that the id is new.
- JavaScript numbers are modelled as exact integers and reals: there is no float rounding, `NaN`, or `Infinity` in `parseFloat`, and no 32-bit or float precision.
- RealmService.RealmService.AddSet: weights are integers and the train volume is an exact integer; the float weight of the schema and its conversion into the integer volume property are not modelled.
- Upper- and lower-casing is ASCII only; Realm's `CONTAINS[c]` is modelled as case-folded substring search without Unicode folding.
- The Realm query string is not modelled as text: the search text is not escaped, and a quote inside it would break the query in the source; the model uses its meaning, a condition list.
- Realm objects are modelled by their keys: deleting a routine does not nullify the trains or routines that refer to it, and `addExerciseSession` stores the exercise's key.
- `updateRoutine` can be given an `id` field in the source's `updates`; the model's update record does not include the primary key.
- `getAllExercises`, `getExerciseById`, `getAllRoutines`, `getRoutineById` and `getTrainById` are modelled only as the lookups used inside the other operations (`RoutineIndex`, `TrainIndex`, `ExerciseIndex`, `FindId`), not as separate reads of the live collections.
- `sorted('date', true)` is specified by order and permutation; the relative order of trains with equal dates is not claimed.
- Negative `skip`/`limit`, and a `limit` of 0 in the pagination lemma, are not modelled (they are `nat`, and pagination completeness needs `limit > 0`).
- `SqliteService.getAllExercises` and the row reading of the result sets are engine I/O; the engine's answers are parameters of `GetFilteredExercises`.
- The screens call store operations that do not exist in the shown service (`getRoutineExercises`, `createWorkoutSession`, `getRoutineDetails`, `updateRoutine`/`updateExercisesForRoutine` on the SQLite service, `getWorkoutDetails`, `deleteWorkout`): their answers are inputs (an optional list, success flags) and their effects are not modelled. Consequently `loadRoutine` of the edit screen and the load and delete flows of the detail screen are not modelled.
- Promise, transaction and callback scheduling, `console` logging, timers (`setInterval`, `setTimeout`), `debounce`, and video seeking and playback are left out; a timer firing is an event or a method of its own.
- The shallow copies in the new-workout screen share set objects with the previous state; the model treats state as values, so this aliasing is not captured.
- `formatDate` of the detail screen depends on the clock and time zone and is not modelled.
- Durations and timers are natural numbers; negative durations are not modelled.
- Every argument is explicit in the model: the source's defaults (`getFilteredExercises` with no filters, skip 0 and limit 20; `createRoutine` with an empty description and no exercises) are the caller's values, not defaults of the model's members.
- RealmService.RealmService.constructor: the database file that `initialize` opens, the bundled copy or one left by an earlier run, is taken as given; the model assumes its keys are unique and its train volumes agree with its sets, as the operations below keep them.
- The video id expression of the new-workout screen's list item is rendering and is not modelled.
- ExerciseBodyPart.Values, ExerciseEquipment.Values: the contract states the length; the contents are stated by `IsValidIffConstant` and `ValuesDistinct`.
