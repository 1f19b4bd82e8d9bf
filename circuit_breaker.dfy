/** The `CircuitBreaker` class of circuit_breaker.py, as a Dafny class whose methods
    update its fields step by step in the order the source does. `ClosedState` and
    `OpenState` are proved to produce the snapshot that module BreakerSpec describes;
    `UpdateLastAttempt` and `SetState` state their new fields directly. */
module Breaker {
  import opened BreakerSpec

  /** One call of `set_state`: the state before and the state requested. */
  datatype Transition = Transition(from: BreakerState, to: BreakerState)

  class CircuitBreaker {
    // Configuration, fixed by the constructor and never reassigned.
    const errorThreshold: int
    const timeWindow: int

    var state: BreakerState
    var failedAttemptCount: nat
    var lastAttempt: Option<int>

    /** Every `set_state` call so far, in order: the record the source sends to its log. */
    ghost var transitions: seq<Transition>

    /** The fields a call may change, as one value. */
    function Snap(): Snapshot
      reads this
    {
      Snapshot(state, failedAttemptCount, lastAttempt)
    }

    /** The invariant a caller sees between calls. */
    ghost predicate Valid()
      reads this
    {
      Settled(Snap())
    }

    /** A new breaker is closed, has counted no failures and has never been tried. */
    constructor (errorThreshold: int, timeWindow: int)
      ensures this.errorThreshold == errorThreshold && this.timeWindow == timeWindow
      ensures state == Closed && failedAttemptCount == 0 && lastAttempt == None
      ensures Snap() == Initial() && Valid()
      ensures transitions == []
    {
      this.errorThreshold := errorThreshold;
      this.timeWindow := timeWindow;
      state := Closed;
      lastAttempt := None;
      failedAttemptCount := 0;
      transitions := [];
    }

    /** Records the current clock reading as the time of the last attempt. */
    method UpdateLastAttempt(now: int)
      modifies this`lastAttempt
      ensures lastAttempt == Some(now)
      ensures state == old(state) && failedAttemptCount == old(failedAttemptCount)
    {
      lastAttempt := Some(now);
    }

    /** Changes the state and nothing else (the log message it writes is left out). */
    method SetState(newState: BreakerState)
      modifies this`state, this`transitions
      ensures state == newState
      ensures failedAttemptCount == old(failedAttemptCount) && lastAttempt == old(lastAttempt)
      ensures transitions == old(transitions) + [Transition(old(state), newState)]
    {
      var previousState := state;
      state := newState;
      transitions := transitions + [Transition(previousState, newState)];
    }

    /** Evaluates one attempt made while closed. */
    method ClosedState(now: int, statusCode: int)
      modifies this`state, this`failedAttemptCount, this`lastAttempt, this`transitions
      ensures Snap() == ClosedStep(old(Snap()), errorThreshold, now, statusCode)
      ensures old(Valid()) ==> Valid()
      ensures transitions ==
                if !IsSuccess(statusCode) && failedAttemptCount >= errorThreshold
                then old(transitions) + [Transition(old(state), Open)]
                else old(transitions)
    {
      UpdateLastAttempt(now);
      if statusCode == SuccessStatus {
        failedAttemptCount := 0;
      } else {
        failedAttemptCount := failedAttemptCount + 1;
        if failedAttemptCount >= errorThreshold {
          SetState(Open);
        }
      }
      StepsKeepSettled(old(Snap()), errorThreshold, timeWindow, now, statusCode);
    }

    /** Evaluates one attempt made while open: sleeps until the cool-off window that began
        at the previous attempt has passed, passes through `HalfOpen`, and evaluates the
        outcome it was given (obtained by the caller before the call). The source returns
        nothing; the ghost result names the clock reading after the sleep, which is
        recorded as the last attempt. */
    method OpenState(now: int, statusCode: int) returns (ghost evaluatedAt: int)
      requires lastAttempt.Some?
      modifies this`state, this`failedAttemptCount, this`lastAttempt, this`transitions
      ensures evaluatedAt == EvaluationTime(old(lastAttempt).value, timeWindow, now)
      ensures Snap() == OpenStep(old(Snap()), timeWindow, now, statusCode)
      ensures Valid()
      ensures transitions == old(transitions) + [Transition(old(state), HalfOpen), Transition(HalfOpen, state)]
    {
      var currentTime := now;
      // The window is measured from the previous attempt, read before it is overwritten.
      var deadline := lastAttempt.value + timeWindow;
      if deadline >= currentTime {
        // sleep(deadline - currentTime): the clock advances to the deadline.
        currentTime := currentTime + (deadline - currentTime);
      }
      SetState(HalfOpen);
      UpdateLastAttempt(currentTime);
      if statusCode == SuccessStatus {
        SetState(Closed);
        failedAttemptCount := 0;
      } else {
        failedAttemptCount := failedAttemptCount + 1;
        SetState(Open);
      }
      evaluatedAt := currentTime;
      StepsKeepSettled(old(Snap()), errorThreshold, timeWindow, now, statusCode);
    }
  }
}
