/** The control commands: requesting, clearing and reading the stop flag,
    and a wait that a stop request cuts short. */
module Control {
  import opened Base
  import AppState

  /** `request_stop`. */
  method RequestStop(state: AppState.AppState)
    modifies state
    ensures state.stopRequested
  {
    state.RequestStop();
  }

  /** `clear_stop`. */
  method ClearStop(state: AppState.AppState)
    modifies state
    ensures !state.stopRequested
  {
    state.ClearStop();
  }

  /** `is_stop_requested`. */
  method IsStopRequested(state: AppState.AppState) returns (requested: bool)
    ensures requested == state.stopRequested
  {
    requested := state.IsStopRequested();
  }

  /** The interval, in milliseconds, between two looks at the stop flag. */
  const CHECK_INTERVAL_MS: nat := 100

  /** How many times a wait of `durationMs` looks at the stop flag when no
      stop is requested: once per started interval. */
  function StepCount(durationMs: nat): (n: nat)
    ensures CHECK_INTERVAL_MS * n >= durationMs
    ensures n > 0 ==> CHECK_INTERVAL_MS * (n - 1) < durationMs
  {
    (durationMs + CHECK_INTERVAL_MS - 1) / CHECK_INTERVAL_MS
  }

  /** `wait`. The stop flag is set from other threads, so the value seen at
      each look is given by `flagAtCheck`: `flagAtCheck(k)` is what the
      (k+1)-th look reads. The wait never fails; it reports `true` when the
      whole duration elapsed and `false` as soon as a look sees a stop
      request. `looks` counts the looks at the flag and `slept` the time slept. */
  method Wait(durationMs: nat, flagAtCheck: nat -> bool) returns (r: Result<bool, string>, ghost looks: nat, ghost slept: nat)
    ensures r.Success?
    ensures r.value <==> forall k :: 0 <= k < StepCount(durationMs) ==> !flagAtCheck(k)
    ensures slept <= durationMs
    ensures r.value ==> slept == durationMs && looks == StepCount(durationMs)
    ensures !r.value ==> (looks < StepCount(durationMs) && flagAtCheck(looks)
      && slept == CHECK_INTERVAL_MS * looks
      && forall k :: 0 <= k < looks ==> !flagAtCheck(k))
  {
    var checks: nat := 0;
    var elapsed: nat := 0;
    while elapsed < durationMs
      invariant elapsed <= durationMs
      invariant elapsed == Min(CHECK_INTERVAL_MS * checks, durationMs)
      invariant checks <= StepCount(durationMs)
      invariant forall k :: 0 <= k < checks ==> !flagAtCheck(k)
      decreases durationMs - elapsed
    {
      if flagAtCheck(checks) {
        return Success(false), checks, elapsed;
      }
      var remaining := durationMs - elapsed;
      var sleepTime := Min(CHECK_INTERVAL_MS, remaining);
      elapsed := elapsed + sleepTime;
      checks := checks + 1;
    }
    return Success(true), checks, elapsed;
  }

  /** A zero-length wait never looks at the flag; up to one interval
      takes one look, and one millisecond more takes two. */
  lemma StepCountExamples()
    ensures StepCount(0) == 0
    ensures StepCount(1) == 1 && StepCount(100) == 1
    ensures StepCount(101) == 2 && StepCount(1000) == 10
  {
  }
}
