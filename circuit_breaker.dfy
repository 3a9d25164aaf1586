/**
 * The per-provider circuit breaker of dist/service/CircuitBreaker.js.
 *
 * Time is an explicit integer clock (milliseconds): the two `Date.now()`
 * readings of the source become the parameters `now` (read when the breaker
 * decides whether an OPEN circuit may be probed) and `doneAt` (read when the
 * wrapped call has failed).  The wrapped call itself is represented by its
 * outcome, which the breaker only "observes" when it lets the call run.
 */
module CircuitBreakers {
  import opened Options

  datatype BreakerState = Closed | Open | HalfOpen

  /** What the wrapped call produced: a value, or the message of the error it raised. */
  datatype Outcome<T> = Returned(value: T) | Raised(message: string)

  /** The message of the error raised while the circuit is open. */
  const OpenMessage: string := "Circuit breaker is OPEN"

  /** Constructor defaults: three failures, one minute. */
  const DefaultFailureThreshold: int := 3
  const DefaultTimeout: int := 60000

  /** The mutable fields of a breaker, as a value. */
  datatype Snapshot = Snapshot(state: BreakerState, failureCount: nat, lastFailureTime: Option<int>)

  /** The fields of a freshly constructed breaker. */
  const Initial: Snapshot := Snapshot(Closed, 0, None)

  /** `shouldAttemptReset`: a failure has been recorded and the cooldown has elapsed since. */
  predicate CooledDown(lastFailureTime: Option<int>, timeout: int, now: int) {
    lastFailureTime.Some? && now - lastFailureTime.value >= timeout
  }

  /** `onSuccess`. */
  function AfterSuccess(s: Snapshot): Snapshot {
    s.(state := Closed, failureCount := 0)
  }

  /** `onFailure`. */
  function AfterFailure(s: Snapshot, threshold: int, now: int): Snapshot {
    var count := s.failureCount + 1;
    Snapshot(if count >= threshold then Open else s.state, count, Some(now))
  }

  /** The effect of one `execute`: new fields, what the caller gets, and whether the call ran. */
  datatype Step<T> = Step(after: Snapshot, result: Outcome<T>, invoked: bool)

  /** `execute` as a transition on the breaker's fields. */
  function ExecuteStep<T>(s: Snapshot, threshold: int, timeout: int, now: int, call: Outcome<T>, doneAt: int): Step<T>
  {
    if s.state == Open && !CooledDown(s.lastFailureTime, timeout, now) then
      Step(s, Raised(OpenMessage), false)
    else
      var entered := if s.state == Open then s.(state := HalfOpen) else s;
      match call
      case Returned(_) => Step(AfterSuccess(entered), call, true)
      case Raised(_) => Step(AfterFailure(entered, threshold, doneAt), call, true)
  }

  /**
   * The breaker's state invariant (for a threshold of at least one): a
   * closed circuit has seen fewer failures than the threshold, an open or
   * half-open one at least that many, and has a recorded failure time.
   */
  predicate Consistent(s: Snapshot, threshold: int) {
    (s.state == Closed ==> s.failureCount < threshold) &&
    (s.state != Closed ==> s.failureCount >= threshold && s.lastFailureTime.Some?)
  }

  /** While the cooldown runs, an open breaker rejects without running the call and changes nothing. */
  lemma RejectsWhileOpen<T>(s: Snapshot, threshold: int, timeout: int, now: int, call: Outcome<T>, doneAt: int)
    requires s.state == Open && s.lastFailureTime.Some? && now - s.lastFailureTime.value < timeout
    ensures ExecuteStep(s, threshold, timeout, now, call, doneAt) == Step(s, Raised(OpenMessage), false)
  {
  }

  /** Whatever the state, a call that runs and succeeds closes the circuit and zeroes the counter. */
  lemma SuccessCloses<T>(s: Snapshot, threshold: int, timeout: int, now: int, v: T, doneAt: int)
    requires s.state != Open || CooledDown(s.lastFailureTime, timeout, now)
    ensures var st := ExecuteStep(s, threshold, timeout, now, Returned(v), doneAt);
      st.invoked && st.result == Returned(v) &&
      st.after.state == Closed && st.after.failureCount == 0 && st.after.lastFailureTime == s.lastFailureTime
  {
  }

  /**
   * A call that runs and fails bumps the counter, stamps the failure time and
   * re-raises its error; the circuit is open afterwards exactly when the
   * counter has reached the threshold, and otherwise keeps its state (an
   * open circuit that was probed stays half-open).
   */
  lemma FailureCounts<T>(s: Snapshot, threshold: int, timeout: int, now: int, msg: string, doneAt: int)
    requires s.state != Open || CooledDown(s.lastFailureTime, timeout, now)
    ensures var st := ExecuteStep<T>(s, threshold, timeout, now, Raised(msg), doneAt);
      st.invoked && st.result == Raised(msg) &&
      st.after.failureCount == s.failureCount + 1 && st.after.lastFailureTime == Some(doneAt) &&
      (st.after.state == Open <==> s.failureCount + 1 >= threshold) &&
      (s.failureCount + 1 < threshold ==> st.after.state == (if s.state == Open then HalfOpen else s.state))
  {
  }

  /** `execute` keeps the state invariant. */
  lemma ExecuteKeepsConsistent<T>(s: Snapshot, threshold: int, timeout: int, now: int, call: Outcome<T>, doneAt: int)
    requires threshold >= 1 && Consistent(s, threshold)
    ensures Consistent(ExecuteStep(s, threshold, timeout, now, call, doneAt).after, threshold)
  {
  }

  /** Consequence of the invariant: one failed probe re-opens the circuit. */
  lemma FailedProbeReopens<T>(s: Snapshot, threshold: int, timeout: int, now: int, msg: string, doneAt: int)
    requires Consistent(s, threshold)
    requires s.state == HalfOpen || (s.state == Open && CooledDown(s.lastFailureTime, timeout, now))
    ensures ExecuteStep<T>(s, threshold, timeout, now, Raised(msg), doneAt).after == Snapshot(Open, s.failureCount + 1, Some(doneAt))
  {
  }

  /** A call presented to a breaker: the clock readings and the call's outcome. */
  datatype Call<T> = Call(now: int, outcome: Outcome<T>, doneAt: int)

  /** The fields after a sequence of `execute` calls. */
  function Run<T>(s: Snapshot, threshold: int, timeout: int, calls: seq<Call<T>>): Snapshot
    decreases |calls|
  {
    if calls == [] then s
    else
      var c := calls[0];
      Run(ExecuteStep(s, threshold, timeout, c.now, c.outcome, c.doneAt).after, threshold, timeout, calls[1..])
  }

  /** Any sequence of calls keeps the state invariant. */
  lemma {:induction false} RunKeepsConsistent<T>(s: Snapshot, threshold: int, timeout: int, calls: seq<Call<T>>)
    requires threshold >= 1 && Consistent(s, threshold)
    ensures Consistent(Run(s, threshold, timeout, calls), threshold)
    decreases |calls|
  {
    if calls != [] {
      var c := calls[0];
      ExecuteKeepsConsistent(s, threshold, timeout, c.now, c.outcome, c.doneAt);
      RunKeepsConsistent(ExecuteStep(s, threshold, timeout, c.now, c.outcome, c.doneAt).after, threshold, timeout, calls[1..]);
    }
  }

  /** Every call in the sequence fails. */
  predicate AllFail<T>(calls: seq<Call<T>>) {
    forall k :: 0 <= k < |calls| ==> calls[k].outcome.Raised?
  }

  /**
   * From a closed circuit with counter `c`, consecutive failures keep it
   * closed while the counter stays below the threshold and open it the
   * moment it reaches the threshold, the failure time being that of the
   * last failure.
   */
  lemma {:induction false} ConsecutiveFailures<T>(c: nat, threshold: int, timeout: int, last: Option<int>, calls: seq<Call<T>>)
    requires AllFail(calls) && calls != []
    requires c + |calls| <= threshold
    ensures Run(Snapshot(Closed, c, last), threshold, timeout, calls)
      == Snapshot(if c + |calls| == threshold then Open else Closed, c + |calls|, Some(calls[|calls| - 1].doneAt))
    decreases |calls|
  {
    var x := calls[0];
    var next := ExecuteStep(Snapshot(Closed, c, last), threshold, timeout, x.now, x.outcome, x.doneAt).after;
    assert next == Snapshot(if c + 1 >= threshold then Open else Closed, c + 1, Some(x.doneAt));
    if |calls| > 1 {
      assert AllFail(calls[1..]) by {
        forall k | 0 <= k < |calls[1..]| ensures calls[1..][k].outcome.Raised? {
          assert calls[1..][k] == calls[k + 1];
        }
      }
      ConsecutiveFailures(c + 1, threshold, timeout, Some(x.doneAt), calls[1..]);
    }
  }

  /** A breaker object: the fields `execute`, `onSuccess` and `onFailure` update in place. */
  class CircuitBreaker {
    const failureThreshold: int
    const timeout: int
    var failureCount: nat
    var lastFailureTime: Option<int>
    var state: BreakerState

    /** The mutable fields as a value. */
    function Snap(): Snapshot
      reads this
    {
      Snapshot(state, failureCount, lastFailureTime)
    }

    ghost predicate Valid()
      reads this
    {
      failureThreshold >= 1 && Consistent(Snap(), failureThreshold)
    }

    constructor (failureThreshold: int, timeout: int)
      ensures this.failureThreshold == failureThreshold && this.timeout == timeout
      ensures Snap() == Initial
      ensures failureThreshold >= 1 ==> Valid()
    {
      this.failureThreshold := failureThreshold;
      this.timeout := timeout;
      failureCount := 0;
      lastFailureTime := None;
      state := Closed;
    }

    /**
     * Runs the wrapped call unless the circuit is open and cooling down.
     * `invoked` says whether the call ran; `result` is the call's own
     * outcome when it ran, and the open-circuit error otherwise.
     */
    method Execute<T>(now: int, call: Outcome<T>, doneAt: int) returns (result: Outcome<T>, invoked: bool)
      modifies this
      ensures Step(Snap(), result, invoked) == ExecuteStep(old(Snap()), failureThreshold, timeout, now, call, doneAt)
      ensures old(Valid()) ==> Valid()
    {
      if state == Open {
        if ShouldAttemptReset(now) {
          state := HalfOpen;
        } else {
          return Raised(OpenMessage), false;
        }
      }
      invoked := true;
      result := call;
      match call {
        case Returned(_) => OnSuccess();
        case Raised(_) => OnFailure(doneAt);
      }
      if old(Valid()) {
        ExecuteKeepsConsistent(old(Snap()), failureThreshold, timeout, now, call, doneAt);
      }
    }

    method OnSuccess()
      modifies this
      ensures Snap() == AfterSuccess(old(Snap()))
    {
      failureCount := 0;
      state := Closed;
    }

    method OnFailure(now: int)
      modifies this
      ensures Snap() == AfterFailure(old(Snap()), failureThreshold, now)
    {
      failureCount := failureCount + 1;
      lastFailureTime := Some(now);
      if failureCount >= failureThreshold {
        state := Open;
      }
    }

    function ShouldAttemptReset(now: int): bool
      reads this
    {
      CooledDown(lastFailureTime, timeout, now)
    }

    function GetState(): BreakerState
      reads this
    {
      state
    }
  }
}
