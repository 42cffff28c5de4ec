/**
 * The state of the "new workout" screen (`src/pages/workouts/NewWorkoutScreen.js`): the
 * exercises of the routine being performed, each with its editable sets, the running
 * timer, and the workout handed to the store when it is finished.
 */
module NewWorkoutScreen {
  import opened Optional
  import opened Strings

  /** A row of the routine's exercise list as the screen receives it. */
  datatype RoutineExercise = RoutineExercise(
    id: string,
    name: string,
    mediaPath: Option<string>,
    exerciseType: Option<string>)

  /** One editable set; `time` and `km` are set for running exercises only. */
  datatype DraftSet = DraftSet(
    number: nat,
    weight: string,
    reps: string,
    done: bool,
    previous: string,
    time: Option<string>,
    km: Option<string>)

  datatype DraftExercise = DraftExercise(exercise: RoutineExercise, sets: seq<DraftSet>)

  /** What the screen passes on for one exercise when the workout is finished. */
  datatype SessionDraft = SessionDraft(exerciseId: string, sets: seq<DraftSet>)

  /** The workout handed to `createWorkoutSession`. */
  datatype WorkoutDraft = WorkoutDraft(
    routineId: string,
    duration: nat,
    volume: real,
    notes: string,
    exerciseSessions: seq<SessionDraft>)

  const INITIAL_SETS: nat := 3

  predicate IsRunning(x: RoutineExercise) {
    x.exerciseType == Some("running")
  }

  /** A fresh set numbered `number`: nothing entered yet, not done. */
  function BlankSet(number: nat, running: bool): DraftSet {
    DraftSet(
      number, "", "", false,
      if running then "00:32" else "5kg X 10",
      if running then Some("00:00") else None,
      if running then Some("20") else None)
  }

  // ---------------------------------------------------------------------------
  // Set numbering

  /** Set numbers follow positions from 1. */
  predicate Numbered(ss: seq<DraftSet>) {
    forall i :: 0 <= i < |ss| ==> ss[i].number == i + 1
  }

  /** The screen's invariant for one exercise: at least one set, numbered 1..n. */
  predicate WellNumbered(ss: seq<DraftSet>) {
    |ss| >= 1 && Numbered(ss)
  }

  predicate AllWellNumbered(xs: seq<DraftExercise>) {
    forall i :: 0 <= i < |xs| ==> WellNumbered(xs[i].sets)
  }

  /** The sets renumbered 1..n in order, everything else kept. */
  function Renumbered(ss: seq<DraftSet>): (r: seq<DraftSet>)
    ensures |r| == |ss| && Numbered(r)
    ensures forall i :: 0 <= i < |ss| ==> r[i].(number := ss[i].number) == ss[i]
  {
    seq(|ss|, i requires 0 <= i < |ss| => ss[i].(number := i + 1))
  }

  /** Renumbering sets that are already numbered changes nothing. */
  lemma RenumberedIdentity(ss: seq<DraftSet>)
    requires Numbered(ss)
    ensures Renumbered(ss) == ss
  {
  }

  // ---------------------------------------------------------------------------
  // loadExercises

  function InitialSets(x: RoutineExercise): seq<DraftSet> {
    seq(INITIAL_SETS, i requires 0 <= i < INITIAL_SETS => BlankSet(i + 1, IsRunning(x)))
  }

  /** `routineExercises.map(...)`: every exercise starts with three blank sets. */
  function Initialized(xs: seq<RoutineExercise>): seq<DraftExercise> {
    seq(|xs|, i requires 0 <= i < |xs| => DraftExercise(xs[i], InitialSets(xs[i])))
  }

  /** After loading, each exercise has exactly the sets 1, 2, 3, all blank and not done. */
  lemma InitializedSets(xs: seq<RoutineExercise>)
    ensures |Initialized(xs)| == |xs|
    ensures forall i :: 0 <= i < |xs| ==> Initialized(xs)[i].exercise == xs[i]
    ensures forall i :: 0 <= i < |xs| ==> |Initialized(xs)[i].sets| == 3
    ensures forall i, j :: 0 <= i < |xs| && 0 <= j < 3 ==>
      var s := Initialized(xs)[i].sets[j];
      s.number == j + 1 && s.weight == "" && s.reps == "" && !s.done
    ensures AllWellNumbered(Initialized(xs))
  {
    forall i | 0 <= i < |xs|
      ensures forall j :: 0 <= j < 3 ==> Initialized(xs)[i].sets[j] == BlankSet(j + 1, IsRunning(xs[i]))
    {
    }
  }

  // ---------------------------------------------------------------------------
  // Editing one set

  predicate ValidSet(xs: seq<DraftExercise>, e: nat, s: nat) {
    e < |xs| && s < |xs[e].sets|
  }

  /** The exercises with set `s` of exercise `e` replaced by `x`. */
  function UpdateSet(xs: seq<DraftExercise>, e: nat, s: nat, x: DraftSet): (r: seq<DraftExercise>)
    requires ValidSet(xs, e, s)
    ensures |r| == |xs| && ValidSet(r, e, s)
    ensures forall i :: 0 <= i < |xs| && i != e ==> r[i] == xs[i]
    ensures r[e].exercise == xs[e].exercise && |r[e].sets| == |xs[e].sets|
    ensures forall j :: 0 <= j < |xs[e].sets| && j != s ==> r[e].sets[j] == xs[e].sets[j]
    ensures r[e].sets[s] == x
  {
    xs[e := xs[e].(sets := xs[e].sets[s := x])]
  }

  /** `handleWeightChange`. */
  function ChangeWeight(xs: seq<DraftExercise>, e: nat, s: nat, value: string): seq<DraftExercise>
    requires ValidSet(xs, e, s)
  {
    UpdateSet(xs, e, s, xs[e].sets[s].(weight := value))
  }

  /** `handleRepsChange`. */
  function ChangeReps(xs: seq<DraftExercise>, e: nat, s: nat, value: string): seq<DraftExercise>
    requires ValidSet(xs, e, s)
  {
    UpdateSet(xs, e, s, xs[e].sets[s].(reps := value))
  }

  /** `toggleSetDone`. */
  function ToggleDone(xs: seq<DraftExercise>, e: nat, s: nat): seq<DraftExercise>
    requires ValidSet(xs, e, s)
  {
    UpdateSet(xs, e, s, xs[e].sets[s].(done := !xs[e].sets[s].done))
  }

  /** Only the weight of the addressed set changes; it becomes `value`. */
  lemma ChangeWeightFrame(xs: seq<DraftExercise>, e: nat, s: nat, value: string)
    requires ValidSet(xs, e, s)
    ensures var r := ChangeWeight(xs, e, s, value);
      |r| == |xs| && ValidSet(r, e, s) &&
      (forall i :: 0 <= i < |xs| && i != e ==> r[i] == xs[i]) &&
      r[e].exercise == xs[e].exercise && |r[e].sets| == |xs[e].sets| &&
      (forall j :: 0 <= j < |xs[e].sets| && j != s ==> r[e].sets[j] == xs[e].sets[j]) &&
      r[e].sets[s].weight == value && r[e].sets[s].(weight := xs[e].sets[s].weight) == xs[e].sets[s]
  {
  }

  /** Only the repetitions of the addressed set change; they become `value`. */
  lemma ChangeRepsFrame(xs: seq<DraftExercise>, e: nat, s: nat, value: string)
    requires ValidSet(xs, e, s)
    ensures var r := ChangeReps(xs, e, s, value);
      |r| == |xs| && ValidSet(r, e, s) &&
      (forall i :: 0 <= i < |xs| && i != e ==> r[i] == xs[i]) &&
      r[e].exercise == xs[e].exercise && |r[e].sets| == |xs[e].sets| &&
      (forall j :: 0 <= j < |xs[e].sets| && j != s ==> r[e].sets[j] == xs[e].sets[j]) &&
      r[e].sets[s].reps == value && r[e].sets[s].(reps := xs[e].sets[s].reps) == xs[e].sets[s]
  {
  }

  /** Toggling flips exactly one `done` flag, and toggling twice restores the exercises. */
  lemma ToggleDoneTwice(xs: seq<DraftExercise>, e: nat, s: nat)
    requires ValidSet(xs, e, s)
    ensures ToggleDone(xs, e, s)[e].sets[s].done == !xs[e].sets[s].done
    ensures ToggleDone(ToggleDone(xs, e, s), e, s) == xs
  {
    var r := ToggleDone(xs, e, s);
    var rr := ToggleDone(r, e, s);
    assert rr[e].sets == xs[e].sets;
  }

  /** Editing a field of a set keeps every exercise well numbered. */
  lemma UpdateSetKeepsNumbering(xs: seq<DraftExercise>, e: nat, s: nat, x: DraftSet)
    requires ValidSet(xs, e, s) && AllWellNumbered(xs)
    requires x.number == xs[e].sets[s].number
    ensures AllWellNumbered(UpdateSet(xs, e, s, x))
  {
    var r := UpdateSet(xs, e, s, x);
    assert forall j :: 0 <= j < |r[e].sets| ==> r[e].sets[j].number == xs[e].sets[j].number;
  }

  // ---------------------------------------------------------------------------
  // addSet and removeSet

  /** `addSet`: a blank set numbered one past the current count is appended. */
  function AddSetTo(xs: seq<DraftExercise>, e: nat): (r: seq<DraftExercise>)
    requires e < |xs|
    ensures |r| == |xs| && forall i :: 0 <= i < |xs| && i != e ==> r[i] == xs[i]
    ensures r[e].exercise == xs[e].exercise
    ensures r[e].sets == xs[e].sets + [BlankSet(|xs[e].sets| + 1, IsRunning(xs[e].exercise))]
  {
    var ss := xs[e].sets;
    xs[e := xs[e].(sets := ss + [BlankSet(|ss| + 1, IsRunning(xs[e].exercise))])]
  }

  /** `removeSet`: with more than one set, the last is dropped and the rest renumbered. */
  function RemoveLastSet(xs: seq<DraftExercise>, e: nat): (r: seq<DraftExercise>)
    requires e < |xs|
    ensures |r| == |xs| && forall i :: 0 <= i < |xs| && i != e ==> r[i] == xs[i]
    ensures r[e].exercise == xs[e].exercise
  {
    var ss := xs[e].sets;
    if |ss| > 1 then xs[e := xs[e].(sets := Renumbered(ss[..|ss| - 1]))] else xs
  }

  /** Adding a set extends the numbering by one. */
  lemma AddSetKeepsNumbering(xs: seq<DraftExercise>, e: nat)
    requires e < |xs| && AllWellNumbered(xs)
    ensures AllWellNumbered(AddSetTo(xs, e))
    ensures |AddSetTo(xs, e)[e].sets| == |xs[e].sets| + 1
  {
  }

  /**
   * Removing a set never leaves an exercise without sets; on well-numbered sets it drops
   * exactly the last one, and with a single set it changes nothing.
   */
  lemma RemoveSetKeepsNumbering(xs: seq<DraftExercise>, e: nat)
    requires e < |xs| && AllWellNumbered(xs)
    ensures AllWellNumbered(RemoveLastSet(xs, e))
    ensures |xs[e].sets| > 1 ==> RemoveLastSet(xs, e)[e].sets == xs[e].sets[..|xs[e].sets| - 1]
    ensures |xs[e].sets| == 1 ==> RemoveLastSet(xs, e) == xs
  {
    var ss := xs[e].sets;
    if |ss| > 1 {
      RenumberedIdentity(ss[..|ss| - 1]);
    }
  }

  /** Removing the set just added gives back the exercises as they were. */
  lemma RemoveUndoesAdd(xs: seq<DraftExercise>, e: nat)
    requires e < |xs| && AllWellNumbered(xs)
    ensures RemoveLastSet(AddSetTo(xs, e), e) == xs
  {
    var ss := xs[e].sets;
    var added := ss + [BlankSet(|ss| + 1, IsRunning(xs[e].exercise))];
    assert added[..|added| - 1] == ss;
    RenumberedIdentity(ss);
  }

  // ---------------------------------------------------------------------------
  // formatTime

  /** `formatTime`: minutes and seconds, each padded to two digits, separated by a colon. */
  function FormatTime(time: nat): string {
    Pad2(time / 60) + ":" + Pad2(time % 60)
  }

  /**
   * The text reads back as the elapsed time: the minutes field (at least two digits, never
   * truncated) and the two-digit seconds field give `time` again.
   */
  lemma FormatTimeReadsBack(time: nat)
    ensures var r := FormatTime(time); var n := |r|;
      n >= 5 && r[n - 3] == ':' &&
      AllDigits(r[..n - 3]) && AllDigits(r[n - 2..]) &&
      DigitsValue(r[n - 2..]) < 60 &&
      DigitsValue(r[..n - 3]) * 60 + DigitsValue(r[n - 2..]) == time &&
      (n == 5 <==> time < 6000)
  {
    Pad2Digits(time / 60);
    Pad2Digits(time % 60);
    SplitAtColon(Pad2(time / 60), Pad2(time % 60));
  }

  lemma SplitAtColon(a: string, b: string)
    requires |b| == 2
    ensures var r := a + ":" + b;
      |r| == |a| + 3 && r[|r| - 3] == ':' && r[..|r| - 3] == a && r[|r| - 2..] == b
  {
    var r := a + ":" + b;
    assert r[..|r| - 3] == a;
    assert r[|r| - 2..] == b;
  }

  // ---------------------------------------------------------------------------
  // Volume

  /** `parseFloat(set.weight) || 0`: unparseable text counts as 0. */
  function WeightOf(s: DraftSet): real {
    ParseFloat(s.weight).GetOr(0.0)
  }

  /** The sum of `f` over `xs`, added from the left as `reduce` does. */
  function Sum<T>(xs: seq<T>, f: T -> real): real
    decreases |xs|
  {
    if xs == [] then 0.0 else Sum(xs[..|xs| - 1], f) + f(xs[|xs| - 1])
  }

  /** Replacing one element changes the sum by the difference of the two terms. */
  lemma {:induction false} SumUpdate<T>(xs: seq<T>, k: nat, x: T, f: T -> real)
    requires k < |xs|
    ensures Sum(xs[k := x], f) == Sum(xs, f) - f(xs[k]) + f(x)
    decreases |xs|
  {
    var ys := xs[k := x];
    var n := |xs|;
    if k == n - 1 {
      assert ys[..n - 1] == xs[..n - 1];
    } else {
      assert ys[..n - 1] == xs[..n - 1][k := x];
      SumUpdate(xs[..n - 1], k, x, f);
    }
  }

  lemma SumAppend<T>(xs: seq<T>, x: T, f: T -> real)
    ensures Sum(xs + [x], f) == Sum(xs, f) + f(x)
  {
    assert (xs + [x])[..|xs|] == xs;
  }

  /** Sums under two functions agree when the terms agree pointwise. */
  lemma {:induction false} SumPointwise<T, U>(xs: seq<T>, f: T -> real, ys: seq<U>, g: U -> real)
    requires |xs| == |ys| && forall i :: 0 <= i < |xs| ==> f(xs[i]) == g(ys[i])
    ensures Sum(xs, f) == Sum(ys, g)
    decreases |xs|
  {
    if xs != [] {
      var n := |xs|;
      SumPointwise(xs[..n - 1], f, ys[..n - 1], g);
    }
  }

  function SetsVolume(ss: seq<DraftSet>): real {
    Sum(ss, WeightOf)
  }

  function ExerciseVolume(x: DraftExercise): real {
    SetsVolume(x.sets)
  }

  /** The volume of a workout: the parsed weights of all sets added up, repetitions ignored. */
  function Volume(xs: seq<DraftExercise>): real {
    Sum(xs, ExerciseVolume)
  }

  /** Replacing one set changes the volume by the difference of the two weights. */
  lemma UpdateSetVolume(xs: seq<DraftExercise>, e: nat, s: nat, x: DraftSet)
    requires ValidSet(xs, e, s)
    ensures Volume(UpdateSet(xs, e, s, x)) == Volume(xs) - WeightOf(xs[e].sets[s]) + WeightOf(x)
  {
    var ss := xs[e].sets;
    SumUpdate(ss, s, x, WeightOf);
    SumUpdate(xs, e, xs[e].(sets := ss[s := x]), ExerciseVolume);
  }

  /** A weight edit moves the volume by the change in parsed weight. */
  lemma ChangeWeightVolume(xs: seq<DraftExercise>, e: nat, s: nat, value: string)
    requires ValidSet(xs, e, s)
    ensures Volume(ChangeWeight(xs, e, s, value)) ==
      Volume(xs) - WeightOf(xs[e].sets[s]) + ParseFloat(value).GetOr(0.0)
  {
    UpdateSetVolume(xs, e, s, xs[e].sets[s].(weight := value));
  }

  /** Repetitions and the done flag do not count towards the volume. */
  lemma RepsAndDoneKeepVolume(xs: seq<DraftExercise>, e: nat, s: nat, value: string)
    requires ValidSet(xs, e, s)
    ensures Volume(ChangeReps(xs, e, s, value)) == Volume(xs)
    ensures Volume(ToggleDone(xs, e, s)) == Volume(xs)
  {
    UpdateSetVolume(xs, e, s, xs[e].sets[s].(reps := value));
    UpdateSetVolume(xs, e, s, xs[e].sets[s].(done := !xs[e].sets[s].done));
  }

  /** Replacing one exercise changes the volume by the difference of the two exercise volumes. */
  lemma ReplaceExerciseVolume(xs: seq<DraftExercise>, e: nat, x: DraftExercise)
    requires e < |xs|
    ensures Volume(xs[e := x]) == Volume(xs) - ExerciseVolume(xs[e]) + ExerciseVolume(x)
  {
    SumUpdate(xs, e, x, ExerciseVolume);
  }

  lemma AppendBlankVolume(ss: seq<DraftSet>, b: DraftSet)
    requires b.weight == ""
    ensures SetsVolume(ss + [b]) == SetsVolume(ss)
  {
    ParseFloatNoDigits("");
    SumAppend(ss, b, WeightOf);
  }

  /** An added set is blank, so it adds nothing to the volume. */
  lemma AddSetVolume(xs: seq<DraftExercise>, e: nat)
    requires e < |xs|
    ensures Volume(AddSetTo(xs, e)) == Volume(xs)
  {
    var b := BlankSet(|xs[e].sets| + 1, IsRunning(xs[e].exercise));
    AppendBlankVolume(xs[e].sets, b);
    ReplaceExerciseVolume(xs, e, xs[e].(sets := xs[e].sets + [b]));
  }

  lemma {:induction false} ZeroTerms<T>(xs: seq<T>, f: T -> real)
    requires forall i :: 0 <= i < |xs| ==> f(xs[i]) == 0.0
    ensures Sum(xs, f) == 0.0
    decreases |xs|
  {
    if xs != [] {
      ZeroTerms(xs[..|xs| - 1], f);
    }
  }

  lemma BlankWeighsNothing(s: DraftSet)
    requires s.weight == ""
    ensures WeightOf(s) == 0.0
  {
    ParseFloatNoDigits("");
  }

  /** A freshly loaded workout has volume 0. */
  lemma InitializedVolume(xs: seq<RoutineExercise>)
    ensures Volume(Initialized(xs)) == 0.0
  {
    var ys := Initialized(xs);
    InitializedSets(xs);
    forall i | 0 <= i < |ys|
      ensures ExerciseVolume(ys[i]) == 0.0
    {
      var ss := ys[i].sets;
      forall j | 0 <= j < |ss|
        ensures WeightOf(ss[j]) == 0.0
      {
        BlankWeighsNothing(ss[j]);
      }
      ZeroTerms(ss, WeightOf);
    }
    ZeroTerms(ys, ExerciseVolume);
  }

  /** Dropping the last set removes its weight from the volume; renumbering weighs nothing. */
  lemma RemoveSetVolume(xs: seq<DraftExercise>, e: nat)
    requires e < |xs| && |xs[e].sets| > 1
    ensures Volume(RemoveLastSet(xs, e)) == Volume(xs) - WeightOf(xs[e].sets[|xs[e].sets| - 1])
  {
    var ss := xs[e].sets;
    var kept := ss[..|ss| - 1];
    SumPointwise(Renumbered(kept), WeightOf, kept, WeightOf);
    SumUpdate(xs, e, xs[e].(sets := Renumbered(kept)), ExerciseVolume);
  }

  // ---------------------------------------------------------------------------
  // handleFinishWorkout

  /** `exercises.map(...)`: one session per exercise, in order, pairing its id with its sets. */
  function ExerciseSessions(xs: seq<DraftExercise>): seq<SessionDraft> {
    seq(|xs|, i requires 0 <= i < |xs| => SessionDraft(xs[i].exercise.id, xs[i].sets))
  }

  function SessionVolume(x: SessionDraft): real {
    SetsVolume(x.sets)
  }

  /**
   * The sessions hand over every set of the workout: one session per exercise, and the
   * weights of the sessions' sets add up to the volume handed over beside them.
   */
  lemma {:induction false} SessionsCarryVolume(xs: seq<DraftExercise>)
    ensures |ExerciseSessions(xs)| == |xs|
    ensures Sum(ExerciseSessions(xs), SessionVolume) == Volume(xs)
  {
    var r := ExerciseSessions(xs);
    assert forall i :: 0 <= i < |r| ==> SessionVolume(r[i]) == ExerciseVolume(xs[i]);
    SumPointwise(r, SessionVolume, xs, ExerciseVolume);
  }

  // ---------------------------------------------------------------------------
  // The screen

  class NewWorkout {
    const routineId: string
    /** Seconds since the screen opened. */
    var timer: nat
    var exercises: seq<DraftExercise>
    /** The exercise whose set menu is open. */
    var activeContextMenu: Option<nat>
    /** Forces the list to re-render after a set is added or removed. */
    var refreshKey: nat

    predicate Valid()
      reads this
    {
      AllWellNumbered(exercises)
    }

    constructor(routineId: string)
      ensures this.routineId == routineId && timer == 0 && exercises == []
      ensures activeContextMenu == None && refreshKey == 0
      ensures Valid()
    {
      this.routineId := routineId;
      timer := 0;
      exercises := [];
      activeContextMenu := None;
      refreshKey := 0;
    }

    /** One tick of the one-second interval. */
    method Tick()
      modifies this
      ensures timer == old(timer) + 1
      ensures exercises == old(exercises) && activeContextMenu == old(activeContextMenu)
      ensures refreshKey == old(refreshKey)
    {
      timer := timer + 1;
    }

    /**
     * `loadExercises`, given the answer of `getRoutineExercises` (`None` when the query
     * fails, which only logs the error).
     */
    method LoadExercises(answer: Option<seq<RoutineExercise>>)
      modifies this
      ensures answer.Some? ==> exercises == Initialized(answer.value)
      ensures answer.None? ==> exercises == old(exercises)
      ensures timer == old(timer) && activeContextMenu == old(activeContextMenu)
      ensures refreshKey == old(refreshKey)
      ensures old(Valid()) ==> Valid()
    {
      if answer.Some? {
        InitializedSets(answer.value);
        exercises := Initialized(answer.value);
      }
    }

    method HandleWeightChange(e: nat, s: nat, value: string)
      requires ValidSet(exercises, e, s)
      modifies this
      ensures exercises == ChangeWeight(old(exercises), e, s, value)
      ensures timer == old(timer) && activeContextMenu == old(activeContextMenu)
      ensures refreshKey == old(refreshKey)
      ensures old(Valid()) ==> Valid()
    {
      if Valid() {
        UpdateSetKeepsNumbering(exercises, e, s, exercises[e].sets[s].(weight := value));
      }
      exercises := ChangeWeight(exercises, e, s, value);
    }

    method HandleRepsChange(e: nat, s: nat, value: string)
      requires ValidSet(exercises, e, s)
      modifies this
      ensures exercises == ChangeReps(old(exercises), e, s, value)
      ensures timer == old(timer) && activeContextMenu == old(activeContextMenu)
      ensures refreshKey == old(refreshKey)
      ensures old(Valid()) ==> Valid()
    {
      if Valid() {
        UpdateSetKeepsNumbering(exercises, e, s, exercises[e].sets[s].(reps := value));
      }
      exercises := ChangeReps(exercises, e, s, value);
    }

    method ToggleSetDone(e: nat, s: nat)
      requires ValidSet(exercises, e, s)
      modifies this
      ensures exercises == ToggleDone(old(exercises), e, s)
      ensures timer == old(timer) && activeContextMenu == old(activeContextMenu)
      ensures refreshKey == old(refreshKey)
      ensures old(Valid()) ==> Valid()
    {
      if Valid() {
        UpdateSetKeepsNumbering(exercises, e, s, exercises[e].sets[s].(done := !exercises[e].sets[s].done));
      }
      exercises := ToggleDone(exercises, e, s);
    }

    method AddSet(e: nat)
      requires e < |exercises|
      modifies this
      ensures exercises == AddSetTo(old(exercises), e)
      ensures refreshKey == old(refreshKey) + 1 && activeContextMenu == None
      ensures timer == old(timer)
      ensures old(Valid()) ==> Valid()
    {
      if Valid() {
        AddSetKeepsNumbering(exercises, e);
      }
      exercises := AddSetTo(exercises, e);
      refreshKey := refreshKey + 1;
      activeContextMenu := None;
    }

    /** `removeSet`; `alerted` tells that the "Cannot Remove" alert was shown instead. */
    method RemoveSet(e: nat) returns (alerted: bool)
      requires e < |exercises|
      modifies this
      ensures alerted <==> |old(exercises)[e].sets| <= 1
      ensures exercises == RemoveLastSet(old(exercises), e)
      ensures refreshKey == if alerted then old(refreshKey) else old(refreshKey) + 1
      ensures activeContextMenu == None && timer == old(timer)
      ensures old(Valid()) ==> Valid()
    {
      if Valid() {
        RemoveSetKeepsNumbering(exercises, e);
      }
      if |exercises[e].sets| > 1 {
        exercises := RemoveLastSet(exercises, e);
        refreshKey := refreshKey + 1;
        alerted := false;
      } else {
        alerted := true;
      }
      activeContextMenu := None;
    }

    method OpenContextMenu(e: nat)
      modifies this
      ensures activeContextMenu == Some(e)
      ensures exercises == old(exercises) && timer == old(timer) && refreshKey == old(refreshKey)
    {
      activeContextMenu := Some(e);
    }

    method CloseContextMenu()
      modifies this
      ensures activeContextMenu == None
      ensures exercises == old(exercises) && timer == old(timer) && refreshKey == old(refreshKey)
    {
      activeContextMenu := None;
    }

    /** `handleFinishWorkout`: the workout passed to `createWorkoutSession`. */
    method HandleFinishWorkout() returns (w: WorkoutDraft)
      ensures w.routineId == routineId && w.duration == timer && w.notes == ""
      ensures w.volume == Volume(exercises)
      ensures w.exerciseSessions == ExerciseSessions(exercises)
    {
      var volume := Volume(exercises);
      w := WorkoutDraft(routineId, timer, volume, "", ExerciseSessions(exercises));
    }
  }
}
