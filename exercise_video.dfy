/**
 * The load/retry state of the exercise video player (`src/components/ExerciseVideo.js`).
 * Every handler replaces the state record with an updated copy; a failed load schedules a
 * reload with a growing delay until the third failure, after which a fallback view with a
 * manual retry button is shown. Playback itself and the timer are not modelled: the
 * scheduled delay is returned, and the timer firing is an event of its own.
 */
module ExerciseVideo {
  import opened Optional

  const MAX_RETRIES: nat := 3
  /** Milliseconds; the n-th automatic retry waits n times this. */
  const RETRY_DELAY: nat := 1000

  /** `error` holds the player's error value; `key` remounts the player when it changes. */
  datatype VideoState = VideoState(
    loading: bool,
    error: Option<string>,
    retryCount: nat,
    key: nat,
    paused: bool)

  function InitialState(isVisible: bool): VideoState {
    VideoState(true, None, 0, 0, !isVisible)
  }

  // ---------------------------------------------------------------------------
  // Transitions

  /** `handleLoadStart`. */
  function LoadStarted(s: VideoState): VideoState {
    s.(loading := true, error := None)
  }

  /** `handleLoad`: the load succeeded, so the retry budget is restored. */
  function Loaded(s: VideoState): VideoState {
    s.(loading := false, error := None, retryCount := 0)
  }

  /** `handleError`: the state update. */
  function Failed(s: VideoState, err: Option<string>): VideoState {
    s.(loading := false, error := err, retryCount := s.retryCount + 1)
  }

  /** `handleError`: the delay of the reload it schedules, if it schedules one. */
  function RetryDelay(s: VideoState): Option<nat> {
    var count := s.retryCount + 1;
    if count <= MAX_RETRIES then Some(RETRY_DELAY * count) else None
  }

  /** The scheduled reload firing: remount and start loading again, keeping the count. */
  function RetryFired(s: VideoState): VideoState {
    s.(key := s.key + 1, loading := true, error := None)
  }

  /** `handleRetry`, the fallback's button: remount with a fresh retry budget. */
  function Retried(s: VideoState): VideoState {
    s.(key := s.key + 1, loading := true, error := None, retryCount := 0)
  }

  /** The visibility effect. */
  function VisibilityChanged(s: VideoState, isVisible: bool): VideoState {
    s.(paused := !isVisible)
  }

  /** `state.error` is truthy: an error value is set and is not the empty string. */
  predicate HasError(s: VideoState) {
    s.error.Some? && s.error.value != ""
  }

  /** The fallback view replaces the player when there is an error and retries are spent. */
  predicate ShowsFallback(s: VideoState) {
    HasError(s) && s.retryCount >= MAX_RETRIES
  }

  datatype Event =
    | LoadStart
    | Load
    | Error(err: Option<string>)
    | RetryTimer
    | RetryPressed
    | Visibility(isVisible: bool)

  function Step(s: VideoState, ev: Event): VideoState {
    match ev
    case LoadStart => LoadStarted(s)
    case Load => Loaded(s)
    case Error(err) => Failed(s, err)
    case RetryTimer => RetryFired(s)
    case RetryPressed => Retried(s)
    case Visibility(v) => VisibilityChanged(s, v)
  }

  function Run(s: VideoState, evs: seq<Event>): VideoState
    decreases |evs|
  {
    if evs == [] then s else Run(Step(s, evs[0]), evs[1..])
  }

  // ---------------------------------------------------------------------------
  // Properties of single transitions

  /** A reload is scheduled exactly while the failure count stays within the budget, later each time. */
  lemma RetryScheduledIff(s: VideoState)
    ensures RetryDelay(s).Some? <==> Failed(s, None).retryCount <= MAX_RETRIES
    ensures RetryDelay(s).Some? ==> RetryDelay(s).value == RETRY_DELAY * Failed(s, None).retryCount
    ensures RetryDelay(s).Some? ==> RETRY_DELAY <= RetryDelay(s).value <= RETRY_DELAY * MAX_RETRIES
  {
  }

  /**
   * A visibility change commutes with every other event, and of two visibility changes the
   * later one wins; it neither shows nor hides the fallback nor changes the scheduled delay.
   */
  lemma VisibilityCommutes(s: VideoState, isVisible: bool, ev: Event)
    ensures !ev.Visibility? ==>
      Step(Step(s, Visibility(isVisible)), ev) == Step(Step(s, ev), Visibility(isVisible))
    ensures ev.Visibility? ==> Step(Step(s, Visibility(isVisible)), ev) == Step(s, ev)
    ensures ShowsFallback(VisibilityChanged(s, isVisible)) == ShowsFallback(s)
    ensures RetryDelay(VisibilityChanged(s, isVisible)) == RetryDelay(s)
  {
  }

  /** The fallback appears on an error with a non-empty message exactly when it is the third or a later failure. */
  lemma FallbackAfterError(s: VideoState, err: Option<string>)
    ensures ShowsFallback(Failed(s, err)) <==> err.Some? && err.value != "" && s.retryCount + 1 >= MAX_RETRIES
  {
  }

  /**
   * The third failure already shows the fallback while its reload, three seconds later, is
   * still pending; that reload hides the fallback again, and a fourth failure schedules nothing.
   */
  lemma ThirdAndFourthFailure(s: VideoState, err: string)
    requires s.retryCount == MAX_RETRIES - 1
    ensures (ShowsFallback(Failed(s, Some(err))) <==> err != "") && RetryDelay(s) == Some(3 * RETRY_DELAY)
    ensures !ShowsFallback(RetryFired(Failed(s, Some(err))))
    ensures var t := RetryFired(Failed(s, Some(err)));
      RetryDelay(t).None? && (ShowsFallback(Failed(t, Some(err))) <==> err != "")
  {
  }

  /** Starting a load, a successful load and either kind of retry all take the fallback away. */
  lemma NoFallbackAfterReload(s: VideoState)
    ensures !ShowsFallback(LoadStarted(s)) && !ShowsFallback(Loaded(s))
    ensures !ShowsFallback(RetryFired(s)) && !ShowsFallback(Retried(s))
  {
  }

  // ---------------------------------------------------------------------------
  // Properties of runs

  /** The player key never goes down, whatever happens. */
  lemma {:induction false} KeyNeverDecreases(s: VideoState, evs: seq<Event>)
    ensures Run(s, evs).key >= s.key
    decreases |evs|
  {
    if evs != [] {
      KeyNeverDecreases(Step(s, evs[0]), evs[1..]);
    }
  }

  /** No event resets the failure count except a successful load or the retry button. */
  predicate NoReset(evs: seq<Event>) {
    forall i :: 0 <= i < |evs| ==> !evs[i].Load? && !evs[i].RetryPressed?
  }

  /** The number of reloads scheduled by the errors of a run. */
  function ScheduledRetries(s: VideoState, evs: seq<Event>): nat
    decreases |evs|
  {
    if evs == [] then 0
    else
      (if evs[0].Error? && RetryDelay(s).Some? then 1 else 0)
        + ScheduledRetries(Step(s, evs[0]), evs[1..])
  }

  /**
   * Without a reset, errors schedule at most `MAX_RETRIES - retryCount` reloads in total: the
   * automatic retries are bounded.
   */
  lemma {:induction false} RetriesBounded(s: VideoState, evs: seq<Event>)
    requires NoReset(evs)
    ensures ScheduledRetries(s, evs) <= if s.retryCount >= MAX_RETRIES then 0 else MAX_RETRIES - s.retryCount
    ensures s.retryCount <= Run(s, evs).retryCount
    decreases |evs|
  {
    if evs != [] {
      var t := Step(s, evs[0]);
      assert NoReset(evs[1..]) by {
        assert forall i :: 0 <= i < |evs| - 1 ==> evs[1..][i] == evs[i + 1];
      }
      RetriesBounded(t, evs[1..]);
    }
  }

  /**
   * A fresh player, a successful load and the retry button all give the full budget: without
   * a further reset at most three reloads are scheduled, and it takes three non-empty errors
   * in a row to bring up the fallback.
   */
  lemma FullBudget(isVisible: bool, s: VideoState, evs: seq<Event>, err: string)
    requires NoReset(evs)
    ensures ScheduledRetries(InitialState(isVisible), evs) <= MAX_RETRIES
    ensures ScheduledRetries(Loaded(s), evs) <= MAX_RETRIES
    ensures ScheduledRetries(Retried(s), evs) <= MAX_RETRIES
    ensures var e := Error(Some(err));
      !ShowsFallback(Run(Loaded(s), [e, e])) &&
      (ShowsFallback(Run(Loaded(s), [e, e, e])) <==> err != "")
  {
    RetriesBounded(InitialState(isVisible), evs);
    RetriesBounded(Loaded(s), evs);
    RetriesBounded(Retried(s), evs);
    var e := Error(Some(err));
    var t0 := Loaded(s);
    var t1 := Failed(t0, Some(err));
    var t2 := Failed(t1, Some(err));
    assert [e, e, e][1..] == [e, e] && [e, e][1..] == [e] && [e][1..] == [];
    assert Run(t2, [e]) == Failed(t2, Some(err));
    assert Run(t1, [e]) == t2;
    assert Run(t0, [e, e]) == t2;
    assert Run(t1, [e, e]) == Failed(t2, Some(err));
    assert Run(t0, [e, e, e]) == Failed(t2, Some(err));
  }

  // ---------------------------------------------------------------------------
  // The component's state cell

  class VideoPlayer {
    var state: VideoState

    constructor(isVisible: bool)
      ensures state == InitialState(isVisible)
    {
      state := InitialState(isVisible);
    }

    method HandleLoadStart()
      modifies this
      ensures state == LoadStarted(old(state))
    {
      state := LoadStarted(state);
    }

    method HandleLoad()
      modifies this
      ensures state == Loaded(old(state))
    {
      state := Loaded(state);
    }

    /** `handleError`; `delay` is the reload it schedules, in milliseconds. */
    method HandleError(err: Option<string>) returns (delay: Option<nat>)
      modifies this
      ensures state == Failed(old(state), err)
      ensures delay == RetryDelay(old(state))
    {
      var newRetryCount := state.retryCount + 1;
      if newRetryCount <= MAX_RETRIES {
        delay := Some(RETRY_DELAY * newRetryCount);
      } else {
        delay := None;
      }
      state := state.(loading := false, error := err, retryCount := newRetryCount);
    }

    /** The reload scheduled by `handleError` firing. */
    method FireRetry()
      modifies this
      ensures state == RetryFired(old(state))
    {
      state := RetryFired(state);
    }

    method HandleRetry()
      modifies this
      ensures state == Retried(old(state))
    {
      state := Retried(state);
    }

    method SetVisible(isVisible: bool)
      modifies this
      ensures state == VisibilityChanged(old(state), isVisible)
    {
      state := VisibilityChanged(state, isVisible);
    }
  }
}
