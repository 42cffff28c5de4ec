/**
 * The "edit routine" screen (`src/pages/routines/EditRoutineScreen.js`): removal of an
 * exercise from the selection, and the checks and writes of a save.
 */
module EditRoutineScreen {
  import opened Optional
  import opened Strings

  datatype SelectedExercise = SelectedExercise(id: string, name: string, bodyPart: string)

  /** A write issued to the store, in order. */
  datatype StoreCall =
    | UpdateRoutine(routineId: string, name: string, description: string)
    | UpdateExercisesForRoutine(routineId: string, exercises: seq<SelectedExercise>)

  /** The calls a save issued, the alert it showed, and whether it left the screen. */
  datatype SaveResult = SaveResult(calls: seq<StoreCall>, alert: Option<string>, goBack: bool)

  const NAME_ALERT := "Please enter a routine name"
  const EXERCISES_ALERT := "Please select at least one exercise"
  const FAILURE_ALERT := "Failed to update routine"

  // ---------------------------------------------------------------------------
  // removeExercise

  /** `prev.filter(e => e.id !== exerciseId)`. */
  function Without(xs: seq<SelectedExercise>, id: string): (r: seq<SelectedExercise>)
    ensures |r| <= |xs|
    decreases |xs|
  {
    if xs == [] then []
    else (if xs[0].id == id then [] else [xs[0]]) + Without(xs[1..], id)
  }

  /** Exactly the entries with a different id remain, each as often as before. */
  lemma {:induction false} WithoutCounts(xs: seq<SelectedExercise>, id: string)
    ensures forall x: SelectedExercise :: multiset(Without(xs, id))[x] == if x.id == id then 0 else multiset(xs)[x]
    decreases |xs|
  {
    if xs != [] {
      WithoutCounts(xs[1..], id);
      assert xs == [xs[0]] + xs[1..];
    }
  }

  /** An entry remains exactly when it was there and has a different id. */
  lemma WithoutMembers(xs: seq<SelectedExercise>, id: string)
    ensures forall x: SelectedExercise :: x in Without(xs, id) <==> x in xs && x.id != id
  {
    WithoutCounts(xs, id);
    forall x: SelectedExercise
      ensures x in Without(xs, id) <==> x in xs && x.id != id
    {
      assert x in Without(xs, id) <==> x in multiset(Without(xs, id));
      assert x in xs <==> x in multiset(xs);
    }
  }

  /** Filtering distributes over concatenation, so the kept entries stay in their order. */
  lemma {:induction false} WithoutConcat(a: seq<SelectedExercise>, b: seq<SelectedExercise>, id: string)
    ensures Without(a + b, id) == Without(a, id) + Without(b, id)
    decreases |a|
  {
    if a == [] {
      assert a + b == b;
    } else {
      assert (a + b)[1..] == a[1..] + b;
      WithoutConcat(a[1..], b, id);
    }
  }

  /** A list with no entry for `id` is left as it is. */
  lemma {:induction false} WithoutAbsent(xs: seq<SelectedExercise>, id: string)
    requires forall i :: 0 <= i < |xs| ==> xs[i].id != id
    ensures Without(xs, id) == xs
    decreases |xs|
  {
    if xs != [] {
      WithoutAbsent(xs[1..], id);
    }
  }

  /** Removing the same exercise twice is the same as removing it once. */
  lemma WithoutIdempotent(xs: seq<SelectedExercise>, id: string)
    ensures Without(Without(xs, id), id) == Without(xs, id)
  {
    var r := Without(xs, id);
    WithoutMembers(xs, id);
    assert forall i :: 0 <= i < |r| ==> r[i] in r;
    WithoutAbsent(r, id);
  }

  // ---------------------------------------------------------------------------
  // handleSaveRoutine

  /**
   * `handleSaveRoutine`: the name check comes first, then the exercise check, then the two
   * writes in order; `routineWritten` and `exercisesWritten` are the store's answers.
   */
  function SaveRoutine(
    routineId: string, routineName: string, selected: seq<SelectedExercise>,
    routineWritten: bool, exercisesWritten: bool): SaveResult
  {
    if Trim(routineName) == "" then SaveResult([], Some(NAME_ALERT), false)
    else if |selected| == 0 then SaveResult([], Some(EXERCISES_ALERT), false)
    else
      var first := UpdateRoutine(routineId, Trim(routineName), "");
      if !routineWritten then SaveResult([first], Some(FAILURE_ALERT), false)
      else
        var calls := [first, UpdateExercisesForRoutine(routineId, selected)];
        if !exercisesWritten then SaveResult(calls, Some(FAILURE_ALERT), false)
        else SaveResult(calls, None, true)
  }

  /** A blank name is refused before anything is written, whatever the selection. */
  lemma BlankNameRejected(routineId: string, routineName: string, selected: seq<SelectedExercise>, ok1: bool, ok2: bool)
    requires forall i :: 0 <= i < |routineName| ==> IsWhitespace(routineName[i])
    ensures SaveRoutine(routineId, routineName, selected, ok1, ok2) == SaveResult([], Some(NAME_ALERT), false)
  {
    TrimEmptyIff(routineName);
  }

  /** Nothing is written exactly when the name is blank or no exercise is selected. */
  lemma NothingWrittenIff(routineId: string, routineName: string, selected: seq<SelectedExercise>, ok1: bool, ok2: bool)
    ensures var r := SaveRoutine(routineId, routineName, selected, ok1, ok2);
      r.calls == [] <==> (Trim(routineName) == "" || selected == [])
    ensures var r := SaveRoutine(routineId, routineName, selected, ok1, ok2);
      Trim(routineName) != "" && selected == [] ==> r.alert == Some(EXERCISES_ALERT) && !r.goBack
  {
  }

  /**
   * An accepted save first writes the trimmed name with an empty description, then the whole
   * selection in order; the screen is left only when both writes succeed.
   */
  lemma AcceptedSaveWrites(routineId: string, routineName: string, selected: seq<SelectedExercise>, ok1: bool, ok2: bool)
    requires Trim(routineName) != "" && selected != []
    ensures var r := SaveRoutine(routineId, routineName, selected, ok1, ok2);
      1 <= |r.calls| <= 2 &&
      r.calls[0] == UpdateRoutine(routineId, Trim(routineName), "") &&
      (|r.calls| == 2 <==> ok1) &&
      (ok1 ==> r.calls[1] == UpdateExercisesForRoutine(routineId, selected)) &&
      (r.goBack <==> ok1 && ok2) &&
      (r.alert.None? <==> r.goBack)
  {
  }
}
