/**
 * The persisted entities of the Realm schema (Exercise, Set, ExerciseSession, Train,
 * Routine). Links between objects are kept as identifiers; dates are millisecond
 * timestamps; optional properties are `Option`s.
 */
module Schema {
  import opened Optional

  datatype Exercise = Exercise(
    id: string,
    bodyPart: string,
    equipment: string,
    mediaPath: Option<string>,
    name: string,
    target: string,
    instructions: seq<string>)

  /** A recorded set; every property is nullable in the schema. */
  datatype ExerciseSet = ExerciseSet(duration: Option<int>, weight: Option<int>, repetitions: Option<int>)

  /** The sets done for one exercise within a train. */
  datatype ExerciseSession = ExerciseSession(exerciseId: string, sets: seq<ExerciseSet>)

  /** A workout ("train") performed from a routine. */
  datatype Train = Train(
    id: string,
    routineId: string,
    exerciseSessions: seq<ExerciseSession>,
    date: int,
    duration: int,
    volume: int,
    notes: Option<string>)

  datatype Routine = Routine(
    id: string,
    name: string,
    description: Option<string>,
    exercises: seq<string>,
    createdAt: int)

  /** The primary keys of a list of stored objects, in order. */
  function Keys<T>(xs: seq<T>, key: T -> string): (ids: seq<string>)
    ensures |ids| == |xs| && forall i :: 0 <= i < |xs| ==> ids[i] == key(xs[i])
  {
    seq(|xs|, i requires 0 <= i < |xs| => key(xs[i]))
  }

  function ExerciseIds(xs: seq<Exercise>): seq<string> {
    Keys(xs, (x: Exercise) => x.id)
  }

  function RoutineIds(rs: seq<Routine>): seq<string> {
    Keys(rs, (r: Routine) => r.id)
  }

  function TrainIds(ts: seq<Train>): seq<string> {
    Keys(ts, (t: Train) => t.id)
  }

  /** Primary keys are unique. */
  predicate Distinct(ids: seq<string>) {
    forall i, j :: 0 <= i < j < |ids| ==> ids[i] != ids[j]
  }

  /** `objectForPrimaryKey`: the position of the object whose key is `id`, if any. */
  function FindId(ids: seq<string>, id: string): (r: Option<nat>)
    ensures r.Some? ==> r.value < |ids| && ids[r.value] == id
    ensures r.None? <==> id !in ids
    decreases |ids|
  {
    if ids == [] then None
    else if ids[0] == id then Some(0)
    else match FindId(ids[1..], id)
      case None => None
      case Some(k) => Some(k + 1)
  }
}
