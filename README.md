# Circuit breaker state machine

A Dafny model of the `CircuitBreaker` class in `circuit_breaker.py`: a three-state
breaker (`closed`, `open`, `half_open`) that counts consecutive failed requests,
opens once the count reaches `error_threshold`, and, when open, waits out a cool-off
window of `time_window` seconds measured from the last attempt before evaluating the
response it was handed. That evaluation closes or reopens the breaker.

- `breaker_spec.dfy`, module `BreakerSpec`: the breaker's mutable fields as a
  `Snapshot` value; `ClosedStep` and `OpenStep`, the effect of one call of
  `closed_state` and `open_state`; `EvaluationTime`, the clock after the cool-off sleep;
  the invariant `Settled`; and lemmas about runs of `closed_state` calls, compared
  with an independent reference count of trailing failures (`CountAfter`).
- `circuit_breaker.dfy`, module `Breaker`: class `CircuitBreaker` with the fields
  `state`, `failedAttemptCount` and `lastAttempt`, the constants `errorThreshold`
  and `timeWindow`, and methods that change the fields in the same order as the
  source. `ClosedState` and `OpenState` are proved to yield the snapshot that
  `BreakerSpec` gives; `UpdateLastAttempt` and `SetState` state their new fields
  directly. A
  ghost field `transitions` records every `set_state` call (from, to), which shows
  that `open_state` passes through `half_open` and never returns in it.
- `scenarios.dfy`, module `Scenarios`: concrete runs with threshold 3 and window
  30, the configuration the demo builds.

The clock (`datetime.utcnow()`) is an integer argument `now`. `sleep` advances the
clock to `last_attempt + time_window`. The response dictionary is reduced to its
`status_code`; 200 is success and every other code is failure. The caller makes the
request and gets its status code before it calls `closed_state` or `open_state`. So the
cool-off bound the model proves applies to the time at which `open_state` evaluates and
records the outcome, not to the time the dependency was contacted. `last_attempt` is an
`Option<int>` that starts as `None`.

Three ways the code departs from the usual circuit-breaker pattern:

- The code never turns away a call made inside the cool-off window. `open_state`
  sleeps until the window has passed and then evaluates the response it was given. A
  call at t=10 on a breaker opened at t=0 with a 30 s window therefore evaluates that
  response at t=30 and records t=30 as the last attempt
  (`Scenarios.EvaluationInsideWindowWaits`). The response itself was obtained at t=10.
- Neither `closed_state` nor `open_state` checks the current state. `closed_state`
  on an open breaker keeps it open even on success, because it only resets the
  counter. `ClosedStep` and `ClosedRunOpens` state this.
- A failure evaluated by `open_state` raises the counter past the threshold (for
  example 3 to 4). Only a success, in either operation, resets it.

## Model

| member | source | states |
|---|---|---|
| `Breaker.CircuitBreaker.constructor` | circuit_breaker.py:15-32 | a new breaker is closed, has a count of 0, has `lastAttempt == None`, keeps the given threshold and window, and satisfies the invariant |
| `Breaker.CircuitBreaker.UpdateLastAttempt` | circuit_breaker.py:34-36 | `lastAttempt` becomes the current clock reading; state and counter are unchanged |
| `Breaker.CircuitBreaker.SetState` | circuit_breaker.py:38-50 | only `state` changes, to the requested value; counter, last attempt and the constant configuration are unchanged; one transition (old, new) is recorded |
| `Breaker.CircuitBreaker.ClosedState` | circuit_breaker.py:52-68 | the new fields are exactly `ClosedStep` of the old ones; the invariant is preserved; `set_state(open)` is called exactly when a failure brings the count to the threshold |
| `Breaker.CircuitBreaker.OpenState` | circuit_breaker.py:72-98 | the new fields are exactly `OpenStep` of the old ones; its ghost result, the evaluation time, is `EvaluationTime` of the previous attempt time, read before it is overwritten; the breaker ends settled; the recorded transitions are old state → half_open → final state |
| `BreakerSpec.ClosedStep` | circuit_breaker.py:52-68 | the attempt time is recorded; status 200 sets the counter to 0 and keeps the state; any other status adds exactly 1, and from closed the breaker opens iff the new count is at least the threshold, else stays closed; the state only ever changes to open, and only on a failure |
| `BreakerSpec.EvaluationTime` | circuit_breaker.py:74-79 | the outcome is evaluated and recorded no earlier than `now` and no earlier than the previous attempt plus the window; it is one of those two instants; if the window has already elapsed there is no wait |
| `BreakerSpec.OpenStep` | circuit_breaker.py:72-98 | the new last attempt is at least the old last attempt plus the window (cool-off respected) and at least `now`, and equals `now` if the window had elapsed; the result is never half_open; status 200 gives closed with count 0, any other status gives open with count + 1 |
| `BreakerSpec.StepsKeepSettled` | circuit_breaker.py:52-98 | both operations keep a settled breaker settled: never half_open between calls, and an open breaker always has a last attempt, so the addition in `open_state` is defined |
| `BreakerSpec.TrailingFailures` | circuit_breaker.py:58-63 | the reference count: the calls after position `|calls| - n` are all failures, and the one before them, if any, is a success |
| `BreakerSpec.ClosedRunCount` | circuit_breaker.py:58-63 | after any run of `closed_state` calls the counter equals the reference count: the trailing failures, plus the starting count if no success occurred |
| `BreakerSpec.ClosedRunOpens` | circuit_breaker.py:61-68 | a run of `closed_state` calls ends open iff the breaker was open already or some failure in it brought the count to the threshold; otherwise the state is unchanged |
| `BreakerSpec.ConsecutiveFailuresOpen` | circuit_breaker.py:61-68 | from closed, enough consecutive failures to reach the threshold (for example `error_threshold` failures from a count of 0) leave the breaker open with every failure counted |
| `BreakerSpec.ShortFailureRunsStayClosed` | circuit_breaker.py:58-68 | from closed with count 0, if no run of consecutive failures reaches the threshold, the breaker stays closed and its count is the length of the final failure run |
| `Scenarios.ThreeFailuresOpen` | circuit_breaker.py:52-68 | threshold 3: fail, fail, fail from a new breaker gives open with count 3 |
| `Scenarios.InterruptedFailuresStayClosed` | circuit_breaker.py:52-68 | threshold 3: fail, fail, success, fail, fail stays closed with count 2 |
| `Scenarios.EvaluatedAfterWindow` | circuit_breaker.py:72-98 | opened at 0, window 30, called at 31: success closes with count 0; failure reopens with count 3 → 4; both are recorded at 31 |
| `Scenarios.EvaluationInsideWindowWaits` | circuit_breaker.py:74-85 | opened at 0, window 30, called at 10: the outcome handed in is evaluated and recorded at 30, after the wait, and a failure reopens with count 4 |
| `Scenarios.Dispatch` | circuit_breaker.py:119-127 | one pass of the demo loop: a closed breaker goes through `ClosedStep`, any other through `OpenStep`; the invariant is kept, and it supplies the last attempt that `open_state` needs |
| `Scenarios.DemoRun` | circuit_breaker.py:116-127 | with the demo's configuration and its dispatch, three failed responses open the breaker, and the next response, obtained at 4, is evaluated and recorded at 33 and closes it |

## Left out

- Logging: the `logging.basicConfig` setup and every `logging.*` call, including the severity that `set_state` picks by destination state. These calls have no effect on control flow. `transitions` records only which transitions happened.
- The `http_client` field: it is stored but never called. The methods take the response, and only its `status_code` is modelled, as an integer. A response without a `status_code` key, which would raise `KeyError`, is not modelled.
- Wall-clock time: `datetime.utcnow().timestamp()` is a float. Here it is the integer argument `now`.
- `Breaker.CircuitBreaker.OpenState`: a real `sleep` may run past its deadline. The model assumes the clock reads exactly `last_attempt + time_window` after the sleep, so it does not capture that overshoot. `open_state` also reads the clock twice: once before the cool-off test and again when it records the attempt. The model treats both readings as the single instant `now` when there is no sleep, so the recorded time equals `now` there, where the source records a slightly later reading.
- `Breaker.CircuitBreaker.OpenState` requires `lastAttempt` to be set. On `None` the source fails with a `TypeError`, and no caller reaches that case: `Settled` guarantees that an open breaker has a last attempt. `Scenarios.Dispatch` proves this for the demo loop's dispatch.
- The `__main__` demo: the random `stub_client`, the `sleep(1)` between passes and the unbounded driving loop. `Scenarios.Dispatch` models one pass, and `Scenarios.DemoRun` runs a fixed sequence of passes.
- Concurrency, locking and fail-fast rejection: the class has none of them.
