/** Concrete runs of the breaker with an error threshold of 3 and a window of 30 seconds,
    the configuration the source's demo builds (circuit_breaker.py:116). */
module Scenarios {
  import opened BreakerSpec
  import opened Breaker

  const Fail: int := 500

  /** Three failures in a row open a fresh breaker and leave the count at 3. */
  lemma ThreeFailuresOpen()
    ensures ClosedRun(Initial(), 3, [Attempt(1, Fail), Attempt(2, Fail), Attempt(3, Fail)])
              == Snapshot(Open, 3, Some(3))
  {
    var c1 := [Attempt(1, Fail)];
    var c2 := c1 + [Attempt(2, Fail)];
    var c3 := c2 + [Attempt(3, Fail)];
    assert c1[..0] == [] && c2[..1] == c1 && c3[..2] == c2;
    assert ClosedRun(Initial(), 3, c1) == Snapshot(Closed, 1, Some(1));
    assert ClosedRun(Initial(), 3, c2) == Snapshot(Closed, 2, Some(2));
    assert c3 == [Attempt(1, Fail), Attempt(2, Fail), Attempt(3, Fail)];
  }

  /** Failure, failure, success, failure, failure: no three in a row, so it stays closed. */
  lemma InterruptedFailuresStayClosed()
    ensures ClosedRun(Initial(), 3,
              [Attempt(1, Fail), Attempt(2, Fail), Attempt(3, 200), Attempt(4, Fail), Attempt(5, Fail)])
              == Snapshot(Closed, 2, Some(5))
  {
    var c1 := [Attempt(1, Fail)];
    var c2 := c1 + [Attempt(2, Fail)];
    var c3 := c2 + [Attempt(3, 200)];
    var c4 := c3 + [Attempt(4, Fail)];
    var c5 := c4 + [Attempt(5, Fail)];
    assert c1[..0] == [] && c2[..1] == c1 && c3[..2] == c2 && c4[..3] == c3 && c5[..4] == c4;
    assert ClosedRun(Initial(), 3, c1) == Snapshot(Closed, 1, Some(1));
    assert ClosedRun(Initial(), 3, c2) == Snapshot(Closed, 2, Some(2));
    assert ClosedRun(Initial(), 3, c3) == Snapshot(Closed, 0, Some(3));
    assert ClosedRun(Initial(), 3, c4) == Snapshot(Closed, 1, Some(4));
    assert c5 == [Attempt(1, Fail), Attempt(2, Fail), Attempt(3, 200), Attempt(4, Fail), Attempt(5, Fail)];
  }

  /** Opened at t=0 and called at t=31, after the window: the outcome is evaluated and
      recorded at once. */
  lemma EvaluatedAfterWindow()
    ensures OpenStep(Snapshot(Open, 3, Some(0)), 30, 31, 200) == Snapshot(Closed, 0, Some(31))
    ensures OpenStep(Snapshot(Open, 3, Some(0)), 30, 31, Fail) == Snapshot(Open, 4, Some(31))
  {
  }

  /** Opened at t=0 and called at t=10, inside the window: the call sleeps until t=30 and
      then evaluates the outcome it was given, recording t=30; it does not return open
      without evaluating it. */
  lemma EvaluationInsideWindowWaits()
    ensures OpenStep(Snapshot(Open, 3, Some(0)), 30, 10, Fail) == Snapshot(Open, 4, Some(30))
  {
  }

  /** One pass of the demo's loop: a closed breaker evaluates the response with
      `closed_state`, any other with `open_state`. The invariant supplies the last attempt
      that `open_state` needs. */
  method Dispatch(breaker: CircuitBreaker, now: int, statusCode: int)
    requires breaker.Valid()
    modifies breaker
    ensures breaker.Valid()
    ensures breaker.Snap() ==
              if old(breaker.state) == Closed
              then ClosedStep(old(breaker.Snap()), breaker.errorThreshold, now, statusCode)
              else OpenStep(old(breaker.Snap()), breaker.timeWindow, now, statusCode)
  {
    if breaker.state == Closed {
      breaker.ClosedState(now, statusCode);
    } else {
      ghost var evaluatedAt := breaker.OpenState(now, statusCode);
    }
  }

  /** The demo's loop with its configuration: three failed responses open the breaker, and
      the next response, obtained at t=4, is evaluated and recorded at t=33 and closes it. */
  method DemoRun() returns (afterFailures: BreakerState, evaluatedAt: int, afterEvaluation: BreakerState)
    ensures afterFailures == Open
    ensures evaluatedAt == 33 && afterEvaluation == Closed
  {
    var breaker := new CircuitBreaker(3, 30);
    Dispatch(breaker, 1, Fail);
    Dispatch(breaker, 2, Fail);
    Dispatch(breaker, 3, Fail);
    afterFailures := breaker.state;
    Dispatch(breaker, 4, 200);
    evaluatedAt := breaker.lastAttempt.value;
    afterEvaluation := breaker.state;
  }
}
