/**
 * The circuit breaker that guards calls to the narrative-generation service
 * (the CircuitBreaker class of backend/ai/gemini_reasoning.py). Its state is
 * a failure count, a CLOSED / OPEN / HALF_OPEN state and the clock reading
 * of the last recorded failure; the clock is passed in as `now` (seconds).
 *
 * The transitions are first given as functions on a value of the state, so
 * that runs of several calls can be reasoned about; the class's methods are
 * specified by them.
 */
module Breaker {
  import opened Wrappers

  datatype State = Closed | Open | HalfOpen

  /** The mutable part of a breaker. */
  datatype BreakerState = BreakerState(failureCount: int, state: State, lastFailureTime: Option<real>)

  /** The process-wide breaker's configuration. */
  const DefaultThreshold: int := 3
  const DefaultTimeout: real := 60.0

  /** A fresh breaker: no failures, CLOSED, no failure time. */
  const Initial: BreakerState := BreakerState(0, Closed, None)

  /**
   * The invariant every reachable state keeps: a breaker that is not CLOSED
   * has reached the threshold and has a failure time.
   */
  predicate Inv(b: BreakerState, threshold: int) {
    && b.failureCount >= 0
    && (b.state != Closed ==> b.failureCount >= threshold)
    && (b.state != Closed ==> b.lastFailureTime.Some?)
  }

  /** `call_failed`: count the failure, stamp the time, open once the threshold is reached. */
  function AfterFailure(b: BreakerState, threshold: int, now: real): (r: BreakerState)
    ensures r.failureCount == b.failureCount + 1 && r.lastFailureTime == Some(now)
    ensures r.state == Open <==> b.failureCount + 1 >= threshold || b.state == Open
    ensures r.state == HalfOpen <==> b.failureCount + 1 < threshold && b.state == HalfOpen
  {
    var count := b.failureCount + 1;
    BreakerState(count, if count >= threshold then Open else b.state, Some(now))
  }

  /** `call_succeeded`: reset the count and close, whatever the state; the failure time stays. */
  function AfterSuccess(b: BreakerState): (r: BreakerState)
    ensures r.state == Closed && r.failureCount == 0
    ensures r.lastFailureTime == b.lastFailureTime
  {
    b.(failureCount := 0, state := Closed)
  }

  /** True when an OPEN breaker's timeout has strictly elapsed at `now`. */
  predicate TimeoutElapsed(b: BreakerState, timeout: real, now: real)
    requires b.lastFailureTime.Some?
  {
    now - b.lastFailureTime.value > timeout
  }

  /**
   * `can_attempt`: whether a call may be made, and the state afterwards. Only
   * an OPEN breaker whose timeout has elapsed changes, to HALF_OPEN.
   */
  function Attempt(b: BreakerState, timeout: real, now: real): (r: (bool, BreakerState))
    requires b.state == Open ==> b.lastFailureTime.Some?
    ensures b.state != Open ==> r == (true, b)
    ensures b.state == Open ==> (r.0 <==> now - b.lastFailureTime.value > timeout)
    ensures b.state == Open && r.0 ==> r.1 == b.(state := HalfOpen)
    ensures b.state == Open && !r.0 ==> r.1 == b
    ensures r.1.failureCount == b.failureCount && r.1.lastFailureTime == b.lastFailureTime
  {
    match b.state
    case Closed => (true, b)
    case HalfOpen => (true, b)
    case Open =>
      if TimeoutElapsed(b, timeout, now) then (true, b.(state := HalfOpen)) else (false, b)
  }

  /** Each transition keeps the invariant. */
  lemma TransitionsPreserveInv(b: BreakerState, threshold: int, timeout: real, now: real)
    requires Inv(b, threshold)
    ensures Inv(AfterFailure(b, threshold, now), threshold)
    ensures Inv(AfterSuccess(b), threshold)
    ensures Inv(Attempt(b, timeout, now).1, threshold)
  {
  }

  /** In a reachable state one failure during the HALF_OPEN trial re-opens the breaker. */
  lemma HalfOpenFailureReopens(b: BreakerState, threshold: int, now: real)
    requires Inv(b, threshold)
    requires b.state == HalfOpen
    ensures AfterFailure(b, threshold, now).state == Open
  {
  }

  /** The state after recording one failure at each of `times`, in order. */
  function Failures(b: BreakerState, threshold: int, times: seq<real>): BreakerState
    decreases |times|
  {
    if |times| == 0 then b
    else Failures(AfterFailure(b, threshold, times[0]), threshold, times[1..])
  }

  /**
   * From a fresh breaker, fewer consecutive failures than the threshold leave
   * it CLOSED with that many failures; exactly the threshold opens it, with
   * the last failure's time.
   */
  lemma {:induction false} ConsecutiveFailures(threshold: int, times: seq<real>)
    requires |times| <= threshold
    ensures Failures(Initial, threshold, times).failureCount == |times|
    ensures |times| < threshold ==> Failures(Initial, threshold, times).state == Closed
    ensures 0 < |times| == threshold ==>
      Failures(Initial, threshold, times).state == Open &&
      Failures(Initial, threshold, times).lastFailureTime == Some(times[|times| - 1])
  {
    FailuresFromClosed(Initial, threshold, times);
  }

  /** Helper for ConsecutiveFailures: failures from any CLOSED state below the threshold. */
  lemma {:induction false} FailuresFromClosed(b: BreakerState, threshold: int, times: seq<real>)
    requires b.state == Closed
    requires b.failureCount + |times| <= threshold
    ensures Failures(b, threshold, times).failureCount == b.failureCount + |times|
    ensures b.failureCount + |times| < threshold ==> Failures(b, threshold, times).state == Closed
    ensures 0 < |times| && b.failureCount + |times| == threshold ==>
      Failures(b, threshold, times).state == Open &&
      Failures(b, threshold, times).lastFailureTime == Some(times[|times| - 1])
    ensures |times| == 0 ==> Failures(b, threshold, times) == b
    decreases |times|
  {
    if |times| > 0 {
      var next := AfterFailure(b, threshold, times[0]);
      if |times| == 1 {
        assert Failures(next, threshold, times[1..]) == next;
      } else {
        assert next.state == Closed;
        FailuresFromClosed(next, threshold, times[1..]);
        assert times[1..][|times[1..]| - 1] == times[|times| - 1];
      }
    }
  }

  /**
   * Right after the threshold-th failure at `now` the breaker refuses an
   * attempt at that same moment (for a non-negative timeout), and an attempt
   * once more than `timeout` has passed is allowed and moves it to HALF_OPEN.
   */
  lemma OpenedBreakerRefusesThenProbes(threshold: int, timeout: real, times: seq<real>, later: real)
    requires 0 < |times| == threshold
    requires timeout >= 0.0
    requires later - times[|times| - 1] > timeout
    ensures var b := Failures(Initial, threshold, times);
      b.state == Open && b.lastFailureTime == Some(times[|times| - 1]) &&
      Attempt(b, timeout, times[|times| - 1]) == (false, b) &&
      Attempt(b, timeout, later) == (true, b.(state := HalfOpen))
  {
    ConsecutiveFailures(threshold, times);
  }

  /**
   * The process-wide breaker (threshold 3, timeout 60 seconds): two failures
   * leave it CLOSED, the third opens it, an attempt at that moment is refused
   * and one more than a minute later is allowed as the HALF_OPEN trial.
   */
  lemma SharedBreakerCycle(t1: real, t2: real, t3: real, later: real)
    requires later - t3 > DefaultTimeout
    ensures Failures(Initial, DefaultThreshold, [t1, t2]).state == Closed
    ensures var b := Failures(Initial, DefaultThreshold, [t1, t2, t3]);
      b.state == Open && b.lastFailureTime == Some(t3) &&
      Attempt(b, DefaultTimeout, t3) == (false, b) &&
      Attempt(b, DefaultTimeout, later) == (true, b.(state := HalfOpen))
  {
    ConsecutiveFailures(DefaultThreshold, [t1, t2]);
    OpenedBreakerRefusesThenProbes(DefaultThreshold, DefaultTimeout, [t1, t2, t3], later);
  }

  /** The breaker object shared by every insight request. */
  class CircuitBreaker {
    var failureCount: int
    const failureThreshold: int
    const timeout: real
    var lastFailureTime: Option<real>
    var state: State

    /** The breaker's current state as a value. */
    function Model(): BreakerState
      reads this
    {
      BreakerState(failureCount, state, lastFailureTime)
    }

    ghost predicate Valid()
      reads this
    {
      Inv(Model(), failureThreshold)
    }

    constructor (failureThreshold: int, timeout: real)
      ensures Valid()
      ensures Model() == Initial
      ensures this.failureThreshold == failureThreshold && this.timeout == timeout
    {
      this.failureCount := 0;
      this.failureThreshold := failureThreshold;
      this.timeout := timeout;
      this.lastFailureTime := None;
      this.state := Closed;
    }

    /** Records a failed call at clock reading `now`. */
    method CallFailed(now: real)
      requires Valid()
      modifies this
      ensures Valid()
      ensures Model() == AfterFailure(old(Model()), failureThreshold, now)
      ensures failureCount == old(failureCount) + 1 && lastFailureTime == Some(now)
      ensures state == (if failureCount >= failureThreshold then Open else old(state))
    {
      failureCount := failureCount + 1;
      lastFailureTime := Some(now);
      if failureCount >= failureThreshold {
        state := Open;
      }
    }

    /** Records a successful call. */
    method CallSucceeded()
      requires Valid()
      modifies this
      ensures Valid()
      ensures Model() == AfterSuccess(old(Model()))
      ensures failureCount == 0 && state == Closed && lastFailureTime == old(lastFailureTime)
    {
      failureCount := 0;
      state := Closed;
    }

    /** Whether a call may be made at `now`; may move an OPEN breaker to HALF_OPEN. */
    method CanAttempt(now: real) returns (allowed: bool)
      requires Valid()
      modifies this
      ensures Valid()
      ensures (allowed, Model()) == Attempt(old(Model()), timeout, now)
    {
      if state == Closed {
        return true;
      }
      if state == Open {
        if now - lastFailureTime.value > timeout {
          state := HalfOpen;
          return true;
        }
        return false;
      }
      return true;
    }

    /** The current state. */
    function GetState(): (r: State)
      reads this
      ensures Valid() && r != Closed ==> failureCount >= failureThreshold && lastFailureTime.Some?
    {
      state
    }
  }
}
