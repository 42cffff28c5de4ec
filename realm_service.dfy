/**
 * The Realm-backed data service: the paginated exercise-catalog query and the write
 * operations on routines, trains (workouts), their exercise sessions and sets.
 *
 * The Realm database is a `RealmService` object whose fields hold the stored objects in
 * insertion order. Every public operation of the service except `initialize` catches its
 * own errors, so "not initialised", "closed" and "not found" all leave the store unchanged;
 * `initialize` logs its error and throws it again.
 */
module RealmService {
  import opened Optional
  import opened Strings
  import opened Schema
  import ExerciseEquipment
  import ExerciseBodyPart

  /** The filter values that stand for "no restriction". */
  const ALL_EQUIPMENT := "All Equipment"
  const ALL_BODY_PARTS := "All Body Parts"

  // ===========================================================================
  // getFilteredExercises

  /** The filtering arguments of `getFilteredExercises`; `None` stands for null/undefined. */
  datatype ExerciseFilter = ExerciseFilter(
    searchQuery: string,
    equipment: Option<string>,
    bodyPart: Option<string>)

  /** All arguments of `getFilteredExercises`: the filter and the page wanted. */
  datatype ExerciseQuery = ExerciseQuery(filter: ExerciseFilter, skip: nat, limit: nat)

  datatype ExercisePage = ExercisePage(exercises: seq<Exercise>, totalCount: nat, hasMore: bool)

  /** What the query answers when Realm is not usable (the caught error). */
  const EMPTY_PAGE := ExercisePage([], 0, false)

  /** One entry of the condition list the query builds. */
  datatype Condition =
    | NameContains(text: string)
    | EquipmentIs(equipment: string)
    | BodyPartIs(bodyPart: string)

  /** Realm's `CONTAINS[c]`: a case-insensitive substring test. */
  predicate ContainsIgnoringCase(hay: string, needle: string) {
    IndexOf(LowerAll(hay), LowerAll(needle)).Some?
  }

  /** A categorical filter is active when set, non-empty and not its sentinel. */
  predicate Active(filter: Option<string>, sentinel: string) {
    filter.Some? && filter.value != "" && filter.value != sentinel
  }

  /** The condition list, in the order the query pushes its entries. */
  function Conditions(f: ExerciseFilter): seq<Condition> {
    (if f.searchQuery != "" then [NameContains(f.searchQuery)] else [])
    + (if Active(f.equipment, ALL_EQUIPMENT) then [EquipmentIs(f.equipment.value)] else [])
    + (if Active(f.bodyPart, ALL_BODY_PARTS) then [BodyPartIs(f.bodyPart.value)] else [])
  }

  predicate Holds(c: Condition, e: Exercise) {
    match c
    case NameContains(text) => ContainsIgnoringCase(e.name, text)
    case EquipmentIs(equipment) => e.equipment == equipment
    case BodyPartIs(bodyPart) => e.bodyPart == bodyPart
  }

  /** The conditions joined with ` AND `. */
  predicate HoldsAll(cs: seq<Condition>, e: Exercise) {
    forall i :: 0 <= i < |cs| ==> Holds(cs[i], e)
  }

  /** `query.filtered(...)`: the exercises satisfying every condition, in store order. */
  function Filtered(xs: seq<Exercise>, cs: seq<Condition>): seq<Exercise>
    decreases |xs|
  {
    if xs == [] then []
    else (if HoldsAll(cs, xs[0]) then [xs[0]] else []) + Filtered(xs[1..], cs)
  }

  /** `slice(start, end)` with non-negative bounds: clamped to the sequence. */
  function Slice<T>(xs: seq<T>, start: nat, end: nat): seq<T> {
    var s := if start < |xs| then start else |xs|;
    var e := if end < |xs| then end else |xs|;
    if e <= s then [] else xs[s..e]
  }

  /** The reference meaning of a filter: every active part of it holds. */
  predicate Matches(f: ExerciseFilter, e: Exercise) {
    && (f.searchQuery != "" ==> ContainsIgnoringCase(e.name, f.searchQuery))
    && (Active(f.equipment, ALL_EQUIPMENT) ==> e.equipment == f.equipment.value)
    && (Active(f.bodyPart, ALL_BODY_PARTS) ==> e.bodyPart == f.bodyPart.value)
  }

  /** The matching exercises of `xs`, in order. */
  function Matching(xs: seq<Exercise>, f: ExerciseFilter): seq<Exercise>
    decreases |xs|
  {
    if xs == [] then []
    else (if Matches(f, xs[0]) then [xs[0]] else []) + Matching(xs[1..], f)
  }

  /** The number of matching exercises of `xs`. */
  function CountMatching(xs: seq<Exercise>, f: ExerciseFilter): nat
    decreases |xs|
  {
    if xs == [] then 0
    else (if Matches(f, xs[0]) then 1 else 0) + CountMatching(xs[1..], f)
  }

  /** The built condition list holds of an exercise exactly when every active filter does. */
  lemma ConditionsMeanMatches(f: ExerciseFilter, e: Exercise)
    ensures HoldsAll(Conditions(f), e) <==> Matches(f, e)
  {
    var n := if f.searchQuery != "" then [NameContains(f.searchQuery)] else [];
    var eq := if Active(f.equipment, ALL_EQUIPMENT) then [EquipmentIs(f.equipment.value)] else [];
    var bp := if Active(f.bodyPart, ALL_BODY_PARTS) then [BodyPartIs(f.bodyPart.value)] else [];
    var cs := Conditions(f);
    assert cs == n + eq + bp;
    if HoldsAll(cs, e) {
      if f.searchQuery != "" {
        assert Holds(cs[0], e);
      }
      if Active(f.equipment, ALL_EQUIPMENT) {
        assert Holds(cs[|n|], e);
      }
      if Active(f.bodyPart, ALL_BODY_PARTS) {
        assert Holds(cs[|n| + |eq|], e);
      }
    }
  }

  /** With no active filter every exercise matches. */
  lemma NoActiveFilterMatchesAll(f: ExerciseFilter, e: Exercise)
    requires f.searchQuery == "" && !Active(f.equipment, ALL_EQUIPMENT) && !Active(f.bodyPart, ALL_BODY_PARTS)
    ensures Conditions(f) == [] && Matches(f, e)
  {
  }

  /** Filtering by the built conditions (or not at all when there are none) is `Matching`. */
  lemma {:induction false} FilteredIsMatching(xs: seq<Exercise>, f: ExerciseFilter)
    ensures (if |Conditions(f)| > 0 then Filtered(xs, Conditions(f)) else xs) == Matching(xs, f)
    decreases |xs|
  {
    if xs != [] {
      FilteredIsMatching(xs[1..], f);
      ConditionsMeanMatches(f, xs[0]);
      if Conditions(f) == [] {
        NoActiveFilterMatchesAll(f, xs[0]);
        assert xs == [xs[0]] + xs[1..];
      }
    }
  }

  lemma {:induction false} MatchingCount(xs: seq<Exercise>, f: ExerciseFilter)
    ensures |Matching(xs, f)| == CountMatching(xs, f)
    decreases |xs|
  {
    if xs != [] {
      MatchingCount(xs[1..], f);
    }
  }

  /** An exercise is in the filtered result iff it is in the catalog and matches. */
  lemma {:induction false} MatchingMembership(xs: seq<Exercise>, f: ExerciseFilter, e: Exercise)
    ensures e in Matching(xs, f) <==> e in xs && Matches(f, e)
    decreases |xs|
  {
    if xs != [] {
      MatchingMembership(xs[1..], f, e);
      assert e in xs <==> e == xs[0] || e in xs[1..];
    }
  }

  /** Filtering keeps store order: it distributes over concatenation. */
  lemma {:induction false} MatchingConcat(a: seq<Exercise>, b: seq<Exercise>, f: ExerciseFilter)
    ensures Matching(a + b, f) == Matching(a, f) + Matching(b, f)
    decreases |a|
  {
    if a == [] {
      assert a + b == b;
    } else {
      assert (a + b)[1..] == a[1..] + b;
      MatchingConcat(a[1..], b, f);
    }
  }

  /**
   * `getFilteredExercises` on an open store: the total is counted before the page is
   * sliced, so it does not depend on `skip` and `limit`.
   */
  function FilterExercises(catalog: seq<Exercise>, q: ExerciseQuery): (r: ExercisePage)
    ensures r.totalCount == CountMatching(catalog, q.filter) == |Matching(catalog, q.filter)|
    ensures r.exercises == Slice(Matching(catalog, q.filter), q.skip, q.skip + q.limit)
    ensures r.hasMore <==> r.totalCount > q.skip + q.limit
  {
    var cs := Conditions(q.filter);
    var query := if |cs| > 0 then Filtered(catalog, cs) else catalog;
    var totalCount := |query|;
    FilteredIsMatching(catalog, q.filter);
    MatchingCount(catalog, q.filter);
    ExercisePage(Slice(query, q.skip, q.skip + q.limit), totalCount, totalCount > q.skip + q.limit)
  }

  function Min(a: int, b: int): int {
    if a <= b then a else b
  }

  /** A page holds `limit` matches, fewer on the last page, none past the end. */
  lemma PageLength(catalog: seq<Exercise>, q: ExerciseQuery)
    ensures var r := FilterExercises(catalog, q);
      |r.exercises| == if q.skip >= r.totalCount then 0 else Min(q.limit, r.totalCount - q.skip)
  {
  }

  /** Position `i` of a page is match number `skip + i`. */
  lemma PageElements(catalog: seq<Exercise>, q: ExerciseQuery, i: nat)
    requires i < |FilterExercises(catalog, q).exercises|
    ensures q.skip + i < CountMatching(catalog, q.filter)
    ensures FilterExercises(catalog, q).exercises[i] == Matching(catalog, q.filter)[q.skip + i]
  {
    SliceIndex(Matching(catalog, q.filter), q.skip, q.skip + q.limit, i);
  }

  lemma SliceIndex<T>(xs: seq<T>, start: nat, end: nat, i: nat)
    requires i < |Slice(xs, start, end)|
    ensures start + i < |xs| && Slice(xs, start, end)[i] == xs[start + i]
  {
  }

  /** The pages from `skip` on, following `hasMore` and advancing by `limit`. */
  function PagesFrom(catalog: seq<Exercise>, f: ExerciseFilter, skip: nat, limit: nat): seq<Exercise>
    requires limit > 0
    decreases CountMatching(catalog, f) - skip
  {
    var page := FilterExercises(catalog, ExerciseQuery(f, skip, limit));
    if page.hasMore then page.exercises + PagesFrom(catalog, f, skip + limit, limit)
    else page.exercises
  }

  /**
   * Pagination completeness: asking for skip = 0, limit, 2 * limit, ... until `hasMore`
   * is false yields exactly the matching exercises, in order, each once.
   */
  lemma PaginationComplete(catalog: seq<Exercise>, f: ExerciseFilter, limit: nat)
    requires limit > 0
    ensures PagesFrom(catalog, f, 0, limit) == Matching(catalog, f)
  {
    MatchingCount(catalog, f);
    PagesFromSuffix(catalog, f, 0, limit);
  }

  lemma {:induction false} PagesFromSuffix(catalog: seq<Exercise>, f: ExerciseFilter, skip: nat, limit: nat)
    requires limit > 0 && skip <= CountMatching(catalog, f)
    ensures |Matching(catalog, f)| == CountMatching(catalog, f)
    ensures PagesFrom(catalog, f, skip, limit) == Matching(catalog, f)[skip..]
    decreases CountMatching(catalog, f) - skip
  {
    MatchingCount(catalog, f);
    if FilterExercises(catalog, ExerciseQuery(f, skip, limit)).hasMore {
      PagesFromSuffix(catalog, f, skip + limit, limit);
      NextPage(catalog, f, skip, limit);
    } else {
      LastPage(catalog, f, skip, limit);
    }
  }

  /** A page with more to come is the next `limit` matches, and the later pages the rest. */
  lemma NextPage(catalog: seq<Exercise>, f: ExerciseFilter, skip: nat, limit: nat)
    requires limit > 0
    requires FilterExercises(catalog, ExerciseQuery(f, skip, limit)).hasMore
    requires PagesFrom(catalog, f, skip + limit, limit) == Matching(catalog, f)[skip + limit..]
    ensures PagesFrom(catalog, f, skip, limit) == Matching(catalog, f)[skip..]
  {
    var m := Matching(catalog, f);
    SliceWithin(m, skip, skip + limit);
    SplitSuffix(m, skip, skip + limit);
  }

  /** The last page is all the remaining matches. */
  lemma LastPage(catalog: seq<Exercise>, f: ExerciseFilter, skip: nat, limit: nat)
    requires limit > 0 && skip <= |Matching(catalog, f)|
    requires !FilterExercises(catalog, ExerciseQuery(f, skip, limit)).hasMore
    ensures PagesFrom(catalog, f, skip, limit) == Matching(catalog, f)[skip..]
  {
    SliceToEnd(Matching(catalog, f), skip, skip + limit);
  }

  lemma SliceWithin<T>(xs: seq<T>, i: nat, j: nat)
    requires i <= j <= |xs|
    ensures Slice(xs, i, j) == xs[i..j]
  {
  }

  lemma SliceToEnd<T>(xs: seq<T>, i: nat, j: nat)
    requires i <= |xs| <= j
    ensures Slice(xs, i, j) == xs[i..]
  {
  }

  lemma SplitSuffix<T>(s: seq<T>, i: nat, j: nat)
    requires i <= j <= |s|
    ensures s[i..] == s[i..j] + s[j..]
  {
  }

  /** The sentinels are not values of their enumerations, so they never name a real filter. */
  lemma SentinelsAreNotValues()
    ensures !ExerciseEquipment.IsValid(ALL_EQUIPMENT)
    ensures !ExerciseBodyPart.IsValid(ALL_BODY_PARTS)
  {
    ExerciseEquipment.IsValidIffConstant(ALL_EQUIPMENT);
    ExerciseBodyPart.IsValidIffConstant(ALL_BODY_PARTS);
  }

  /** Selecting a sentinel imposes no condition at all. */
  lemma SentinelImposesNoCondition(f: ExerciseFilter)
    requires f.equipment == Some(ALL_EQUIPMENT) && f.bodyPart == Some(ALL_BODY_PARTS)
    ensures Conditions(f) == if f.searchQuery != "" then [NameContains(f.searchQuery)] else []
  {
  }

  // ===========================================================================
  // Routine, train, session and set operations

  /** The fields `updateRoutine` may overwrite; `None` means "not in `updates`". */
  datatype RoutineUpdate = RoutineUpdate(
    name: Option<string>,
    description: Option<Option<string>>,
    exercises: Option<seq<string>>,
    createdAt: Option<int>)

  const NO_UPDATE := RoutineUpdate(None, None, None, None)

  /** `Object.assign(routine, updates)`. */
  function Assign(r: Routine, u: RoutineUpdate): Routine {
    Routine(
      r.id,
      if u.name.Some? then u.name.value else r.name,
      if u.description.Some? then u.description.value else r.description,
      if u.exercises.Some? then u.exercises.value else r.exercises,
      if u.createdAt.Some? then u.createdAt.value else r.createdAt)
  }

  /** The later assignment wins on the fields it names. */
  function Merge(u1: RoutineUpdate, u2: RoutineUpdate): RoutineUpdate {
    RoutineUpdate(
      if u2.name.Some? then u2.name else u1.name,
      if u2.description.Some? then u2.description else u1.description,
      if u2.exercises.Some? then u2.exercises else u1.exercises,
      if u2.createdAt.Some? then u2.createdAt else u1.createdAt)
  }

  /** Two successive updates amount to one with the merged fields; an empty one is a no-op. */
  lemma AssignCompose(r: Routine, u1: RoutineUpdate, u2: RoutineUpdate)
    ensures Assign(Assign(r, u1), u2) == Assign(r, Merge(u1, u2))
    ensures Assign(r, NO_UPDATE) == r
    ensures Assign(Assign(r, u1), u1) == Assign(r, u1)
  {
  }

  /** The routines without the one whose key is `id`. */
  function WithoutRoutine(rs: seq<Routine>, id: string): seq<Routine>
    decreases |rs|
  {
    if rs == [] then []
    else (if rs[0].id == id then [] else [rs[0]]) + WithoutRoutine(rs[1..], id)
  }

  /** Removing the object at the key's position is removing exactly that key. */
  lemma {:induction false} RemoveAtKey(rs: seq<Routine>, k: nat)
    requires k < |rs|
    requires forall i :: 0 <= i < |rs| && i != k ==> rs[i].id != rs[k].id
    ensures rs[..k] + rs[k + 1..] == WithoutRoutine(rs, rs[k].id)
    decreases |rs|
  {
    var id := rs[k].id;
    if k == 0 {
      assert rs[..0] + rs[1..] == rs[1..];
      KeyAbsent(rs[1..], id);
    } else {
      var tail := rs[1..];
      assert forall i :: 0 <= i < |tail| && i != k - 1 ==> tail[i].id != tail[k - 1].id by {
        assert forall i :: 0 <= i < |tail| ==> tail[i] == rs[i + 1];
      }
      RemoveAtKey(tail, k - 1);
      assert WithoutRoutine(rs, id) == [rs[0]] + WithoutRoutine(tail, id);
      DropAtCons(rs, k);
    }
  }

  /** With distinct keys, removing one routine keeps the keys distinct and that key unique. */
  lemma RemoveKeepsDistinct(rs: seq<Routine>, k: nat)
    requires k < |rs| && Distinct(RoutineIds(rs))
    ensures forall i :: 0 <= i < |rs| && i != k ==> rs[i].id != rs[k].id
    ensures Distinct(RoutineIds(rs[..k] + rs[k + 1..]))
  {
    var ids := RoutineIds(rs);
    assert forall i :: 0 <= i < |rs| ==> ids[i] == rs[i].id;
    var rest := rs[..k] + rs[k + 1..];
    assert forall i :: 0 <= i < |rest| ==> RoutineIds(rest)[i] == ids[if i < k then i else i + 1];
  }

  /** Dropping position `k > 0` keeps the head and drops position `k - 1` of the tail. */
  lemma DropAtCons<T>(xs: seq<T>, k: nat)
    requires 0 < k < |xs|
    ensures xs[..k] + xs[k + 1..] == [xs[0]] + (xs[1..][..k - 1] + xs[1..][k..])
  {
    assert xs[..k] == [xs[0]] + xs[1..][..k - 1];
    assert xs[k + 1..] == xs[1..][k..];
  }

  lemma {:induction false} KeyAbsent(rs: seq<Routine>, id: string)
    requires forall i :: 0 <= i < |rs| ==> rs[i].id != id
    ensures WithoutRoutine(rs, id) == rs
    decreases |rs|
  {
    if rs != [] {
      KeyAbsent(rs[1..], id);
      assert rs == [rs[0]] + rs[1..];
    }
  }

  /** `setData` of `addSet`; `None` stands for a missing property. */
  datatype SetData = SetData(duration: Option<int>, weight: Option<int>, repetitions: Option<int>)

  predicate Truthy(x: Option<int>) {
    x.Some? && x.value != 0
  }

  /** `x || null`. */
  function OrNull(x: Option<int>): Option<int> {
    if Truthy(x) then x else None
  }

  /** The set object `addSet` creates. */
  function StoredSet(d: SetData): ExerciseSet {
    ExerciseSet(OrNull(d.duration), OrNull(d.weight), OrNull(d.repetitions))
  }

  /** What `addSet` adds to the train volume. */
  function VolumeIncrement(d: SetData): int {
    if Truthy(d.weight) && Truthy(d.repetitions) then d.weight.value * d.repetitions.value else 0
  }

  /** The weight x repetitions a stored set stands for (nulls count as nothing). */
  function SetVolume(s: ExerciseSet): int {
    if s.weight.Some? && s.repetitions.Some? then s.weight.value * s.repetitions.value else 0
  }

  function SetsVolume(sets: seq<ExerciseSet>): int
    decreases |sets|
  {
    if sets == [] then 0 else SetsVolume(sets[..|sets| - 1]) + SetVolume(sets[|sets| - 1])
  }

  function SessionsVolume(sessions: seq<ExerciseSession>): int
    decreases |sessions|
  {
    if sessions == [] then 0
    else SessionsVolume(sessions[..|sessions| - 1]) + SetsVolume(sessions[|sessions| - 1].sets)
  }

  /** A train's stored volume is the sum of weight x repetitions over all its sets. */
  predicate VolumeConsistent(t: Train) {
    t.volume == SessionsVolume(t.exerciseSessions)
  }

  /** The stored set contributes exactly what `addSet` adds to the volume. */
  lemma StoredSetVolume(d: SetData)
    ensures SetVolume(StoredSet(d)) == VolumeIncrement(d)
  {
  }

  lemma SetsVolumeAppend(sets: seq<ExerciseSet>, s: ExerciseSet)
    ensures SetsVolume(sets + [s]) == SetsVolume(sets) + SetVolume(s)
  {
    assert (sets + [s])[..|sets|] == sets;
  }

  lemma SessionsVolumeAppend(sessions: seq<ExerciseSession>, s: ExerciseSession)
    ensures SessionsVolume(sessions + [s]) == SessionsVolume(sessions) + SetsVolume(s.sets)
  {
    assert (sessions + [s])[..|sessions|] == sessions;
  }

  /** Replacing one session changes the total by the difference of that session's volume. */
  lemma {:induction false} SessionsVolumeUpdate(sessions: seq<ExerciseSession>, k: nat, s: ExerciseSession)
    requires k < |sessions|
    ensures SessionsVolume(sessions[k := s])
         == SessionsVolume(sessions) - SetsVolume(sessions[k].sets) + SetsVolume(s.sets)
    decreases |sessions|
  {
    var n := |sessions|;
    var u := sessions[k := s];
    assert u[..n - 1] == if k == n - 1 then sessions[..n - 1] else sessions[..n - 1][k := s];
    if k < n - 1 {
      SessionsVolumeUpdate(sessions[..n - 1], k, s);
    }
  }

  /** Appending a set to one session raises the train's set volume by that set's volume. */
  lemma AppendSetVolume(sessions: seq<ExerciseSession>, k: nat, s: ExerciseSet)
    requires k < |sessions|
    ensures SessionsVolume(sessions[k := sessions[k].(sets := sessions[k].sets + [s])])
         == SessionsVolume(sessions) + SetVolume(s)
  {
    SessionsVolumeUpdate(sessions, k, sessions[k].(sets := sessions[k].sets + [s]));
    SetsVolumeAppend(sessions[k].sets, s);
  }

  // ---------------------------------------------------------------------------
  // getAllTrains: `sorted('date', true)`

  predicate NewestFirst(ts: seq<Train>) {
    forall i, j :: 0 <= i < j < |ts| ==> ts[i].date >= ts[j].date
  }

  /** Inserts `t` before the first train that is not newer than it. */
  function InsertByDate(t: Train, ts: seq<Train>): (r: seq<Train>)
    ensures multiset(r) == multiset(ts) + multiset{t}
    ensures |r| == |ts| + 1
    ensures r[0] == t || (ts != [] && r[0] == ts[0])
    decreases |ts|
  {
    if ts == [] || t.date >= ts[0].date then [t] + ts
    else
      assert ts == [ts[0]] + ts[1..];
      [ts[0]] + InsertByDate(t, ts[1..])
  }

  /** Inserting into a newest-first sequence keeps it newest first. */
  lemma {:induction false} InsertKeepsOrder(t: Train, ts: seq<Train>)
    requires NewestFirst(ts)
    ensures NewestFirst(InsertByDate(t, ts))
    decreases |ts|
  {
    if ts != [] && t.date < ts[0].date {
      var rest := InsertByDate(t, ts[1..]);
      InsertKeepsOrder(t, ts[1..]);
      var r := InsertByDate(t, ts);
      assert r == [ts[0]] + rest;
      assert rest[0].date <= ts[0].date;
      forall i, j | 0 <= i < j < |r|
        ensures r[i].date >= r[j].date
      {
        if i == 0 {
          assert r[j] == rest[j - 1] && rest[0].date >= rest[j - 1].date;
        } else {
          assert r[i] == rest[i - 1] && r[j] == rest[j - 1];
        }
      }
    }
  }

  /** The trains, newest first: a permutation of the stored ones, ordered by descending date. */
  function SortNewestFirst(ts: seq<Train>): (r: seq<Train>)
    ensures multiset(r) == multiset(ts)
    ensures NewestFirst(r)
    decreases |ts|
  {
    if ts == [] then []
    else
      assert ts == [ts[0]] + ts[1..];
      var rest := SortNewestFirst(ts[1..]);
      InsertKeepsOrder(ts[0], rest);
      InsertByDate(ts[0], rest)
  }

  // ---------------------------------------------------------------------------
  // The store

  datatype RealmStatus = Unopened | Open | Closed

  class RealmService {
    var realm: RealmStatus
    var catalog: seq<Exercise>
    var routines: seq<Routine>
    var trains: seq<Train>

    /** Primary keys are unique and every train's volume is the sum of its sets' weight x reps. */
    ghost predicate Valid()
      reads this
    {
      && Distinct(ExerciseIds(catalog))
      && Distinct(RoutineIds(routines))
      && Distinct(TrainIds(trains))
      && forall i :: 0 <= i < |trains| ==> VolumeConsistent(trains[i])
    }

    /**
     * The service before `initialize`, over the database file `initialize` will open: the
     * bundled catalog on a first launch, or the file an earlier run left behind, with the
     * routines and trains written then. Realm keeps primary keys unique, and the stored
     * volumes were written by the operations below.
     */
    constructor (stored: seq<Exercise>, storedRoutines: seq<Routine>, storedTrains: seq<Train>)
      requires Distinct(ExerciseIds(stored)) && Distinct(RoutineIds(storedRoutines))
      requires Distinct(TrainIds(storedTrains))
      requires forall i :: 0 <= i < |storedTrains| ==> VolumeConsistent(storedTrains[i])
      ensures Valid()
      ensures realm == Unopened && catalog == stored && routines == storedRoutines && trains == storedTrains
    {
      realm := Unopened;
      catalog := stored;
      routines := storedRoutines;
      trains := storedTrains;
    }

    /** `initialize`, reduced to its effect: the store becomes usable. */
    method Initialize()
      modifies this
      ensures realm == Open
      ensures catalog == old(catalog) && routines == old(routines) && trains == old(trains)
    {
      realm := Open;
    }

    /** `closeRealm`: closes an open store; otherwise does nothing. */
    method CloseRealm()
      modifies this
      ensures realm == if old(realm) == Open then Closed else old(realm)
      ensures catalog == old(catalog) && routines == old(routines) && trains == old(trains)
    {
      if realm == Open {
        realm := Closed;
      }
    }

    /** `getFilteredExercises`: the page, or the empty answer when the store is not open. */
    method GetFilteredExercises(q: ExerciseQuery) returns (page: ExercisePage)
      ensures realm != Open ==> page == EMPTY_PAGE
      ensures realm == Open ==> page == FilterExercises(catalog, q)
    {
      if realm != Open {
        return EMPTY_PAGE;
      }
      page := FilterExercises(catalog, q);
    }

    /** `getAllTrains`: every train, newest first, or none when the store is not open. */
    method GetAllTrains() returns (result: seq<Train>)
      ensures realm != Open ==> result == []
      ensures realm == Open ==> multiset(result) == multiset(trains) && NewestFirst(result)
    {
      if realm != Open {
        return [];
      }
      result := SortNewestFirst(trains);
    }

    /** `getRoutineById`: the position of the routine, when the store is open and has it. */
    function RoutineIndex(id: string): (r: Option<nat>)
      reads this
      ensures r.Some? ==> r.value < |routines| && routines[r.value].id == id
      ensures r.None? <==> realm != Open || id !in RoutineIds(routines)
    {
      if realm == Open then FindId(RoutineIds(routines), id) else None
    }

    function TrainIndex(id: string): (r: Option<nat>)
      reads this
      ensures r.Some? ==> r.value < |trains| && trains[r.value].id == id
      ensures r.None? <==> realm != Open || id !in TrainIds(trains)
    {
      if realm == Open then FindId(TrainIds(trains), id) else None
    }

    function ExerciseIndex(id: string): (r: Option<nat>)
      reads this
      ensures r.Some? ==> r.value < |catalog| && catalog[r.value].id == id
      ensures r.None? <==> realm != Open || id !in ExerciseIds(catalog)
    {
      if realm == Open then FindId(ExerciseIds(catalog), id) else None
    }

    /** `createRoutine`; `id` is the fresh identifier the source draws from uuid. */
    method CreateRoutine(id: string, name: string, description: string, exercises: seq<string>, createdAt: int)
      requires Valid() && id !in RoutineIds(routines)
      modifies this
      ensures Valid()
      ensures realm == old(realm) && catalog == old(catalog) && trains == old(trains)
      ensures routines == if realm == Open
        then old(routines) + [Routine(id, name, Some(description), exercises, createdAt)]
        else old(routines)
    {
      if realm == Open {
        routines := routines + [Routine(id, name, Some(description), exercises, createdAt)];
        assert RoutineIds(routines) == RoutineIds(old(routines)) + [id];
      }
    }

    /** `updateRoutine`: assigns `updates` onto the routine with that key, if there is one. */
    method UpdateRoutine(id: string, updates: RoutineUpdate)
      requires Valid()
      modifies this
      ensures Valid()
      ensures realm == old(realm) && catalog == old(catalog) && trains == old(trains)
      ensures old(RoutineIndex(id)).None? ==> routines == old(routines)
      ensures old(RoutineIndex(id)).Some? ==>
        var k := old(RoutineIndex(id)).value;
        routines == old(routines)[k := Assign(old(routines)[k], updates)]
    {
      var found := RoutineIndex(id);
      if found.Some? {
        var k := found.value;
        routines := routines[k := Assign(routines[k], updates)];
        assert RoutineIds(routines) == RoutineIds(old(routines));
      }
    }

    /** `deleteRoutine`: removes exactly the routine with that key, if there is one. */
    method DeleteRoutine(id: string)
      requires Valid()
      modifies this
      ensures Valid()
      ensures realm == old(realm) && catalog == old(catalog) && trains == old(trains)
      ensures routines == if old(realm) == Open then WithoutRoutine(old(routines), id) else old(routines)
      ensures |routines| == if old(RoutineIndex(id)).Some? then |old(routines)| - 1 else |old(routines)|
    {
      var found := RoutineIndex(id);
      if found.Some? {
        var k := found.value;
        RemoveKeepsDistinct(routines, k);
        RemoveAtKey(routines, k);
        routines := routines[..k] + routines[k + 1..];
      } else if realm == Open {
        KeyAbsent(routines, id);
      }
    }

    /** `createTrain`: a new empty train of an existing routine. */
    method CreateTrain(id: string, routineId: string, date: int)
      requires Valid() && id !in TrainIds(trains)
      modifies this
      ensures Valid()
      ensures realm == old(realm) && catalog == old(catalog) && routines == old(routines)
      ensures trains == if old(RoutineIndex(routineId)).Some?
        then old(trains) + [Train(id, routineId, [], date, 0, 0, Some(""))]
        else old(trains)
    {
      var routine := RoutineIndex(routineId);
      if routine.None? {
        return;
      }
      trains := trains + [Train(id, routineId, [], date, 0, 0, Some(""))];
      assert TrainIds(trains) == TrainIds(old(trains)) + [id];
    }

    /** `addExerciseSession`: appends an empty session to the train, when both exist. */
    method AddExerciseSession(trainId: string, exerciseId: string)
      requires Valid()
      modifies this
      ensures Valid()
      ensures realm == old(realm) && catalog == old(catalog) && routines == old(routines)
      ensures old(TrainIndex(trainId)).None? || old(ExerciseIndex(exerciseId)).None? ==> trains == old(trains)
      ensures old(TrainIndex(trainId)).Some? && old(ExerciseIndex(exerciseId)).Some? ==>
        var k := old(TrainIndex(trainId)).value;
        var t := old(trains)[k];
        trains == old(trains)[k := t.(exerciseSessions := t.exerciseSessions + [ExerciseSession(exerciseId, [])])]
    {
      var train := TrainIndex(trainId);
      var exercise := ExerciseIndex(exerciseId);
      if train.None? || exercise.None? {
        return;
      }
      var k := train.value;
      var t := trains[k];
      SessionsVolumeAppend(t.exerciseSessions, ExerciseSession(exerciseId, []));
      trains := trains[k := t.(exerciseSessions := t.exerciseSessions + [ExerciseSession(exerciseId, [])])];
      assert TrainIds(trains) == TrainIds(old(trains));
    }

    /**
     * `addSet`: appends the set to session `index` of the train and, when weight and
     * repetitions are both truthy, adds their product to the train volume.
     */
    method AddSet(trainId: string, index: int, setData: SetData)
      requires Valid()
      modifies this
      ensures Valid()
      ensures realm == old(realm) && catalog == old(catalog) && routines == old(routines)
      ensures old(TrainIndex(trainId)).None? ==> trains == old(trains)
      ensures old(TrainIndex(trainId)).Some? ==>
        var k := old(TrainIndex(trainId)).value;
        var t := old(trains)[k];
        if 0 <= index < |t.exerciseSessions| then
          var s := t.exerciseSessions[index];
          trains == old(trains)[k := t.(
            exerciseSessions := t.exerciseSessions[index := s.(sets := s.sets + [StoredSet(setData)])],
            volume := t.volume + VolumeIncrement(setData))]
        else trains == old(trains)
    {
      var train := TrainIndex(trainId);
      if train.None? {
        return;
      }
      var k := train.value;
      var t := trains[k];
      if !(0 <= index < |t.exerciseSessions|) {
        return;
      }
      var session := t.exerciseSessions[index];
      var stored := StoredSet(setData);
      session := session.(sets := session.sets + [stored]);
      t := t.(exerciseSessions := t.exerciseSessions[index := session]);
      if Truthy(setData.weight) && Truthy(setData.repetitions) {
        t := t.(volume := t.volume + setData.weight.value * setData.repetitions.value);
      }
      AppendSetVolume(old(trains)[k].exerciseSessions, index, stored);
      StoredSetVolume(setData);
      trains := trains[k := t];
      assert TrainIds(trains) == TrainIds(old(trains));
    }
  }
}
