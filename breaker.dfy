/** The circuit breaker built by `createCircuitBreaker` in Code/ErrorHandler.js.
    The clock is a parameter: `now` is the time `execute` is entered and `doneAt` the time the
    wrapped call settles; the wrapped call itself is its outcome, `Succeeds` or `Throws`. */
module Breaker {
  import opened Js

  datatype Mode = Closed | Open | HalfOpen

  /** The breaker object's three fields. */
  datatype Snapshot = Snapshot(failures: nat, lastFailureTime: Option<int>, state: Mode)

  /** How the wrapped call `fn` settles when it is called. */
  datatype Call = Succeeds(value: JsVal) | Throws

  /** What `execute` does: throws 'Circuit breaker is OPEN' without calling `fn`, returns the
      value of `fn`, or rethrows the error of `fn`. */
  datatype Outcome = RejectedOpen | Returned(value: JsVal) | Rethrown

  const DefaultMaxFailures := 5
  const DefaultTimeout := 60000

  function Fresh(): (s: Snapshot)
    ensures s.failures == 0 && s.lastFailureTime == None && s.state == Closed
  {
    Snapshot(0, None, Closed)
  }

  /** `Date.now() - this.lastFailureTime`: a null time counts as 0. */
  function Elapsed(s: Snapshot, now: int): int {
    now - (if s.lastFailureTime.Some? then s.lastFailureTime.value else 0)
  }

  /** The gate at the top of `execute`: in OPEN, either move to HALF_OPEN or refuse. */
  function Gate(s: Snapshot, timeout: int, now: int): (Snapshot, bool) {
    if s.state == Open then
      if Elapsed(s, now) > timeout then (s.(state := HalfOpen), true) else (s, false)
    else (s, true)
  }

  function SuccessStep(s: Snapshot): Snapshot {
    s.(failures := 0, state := Closed)
  }

  function FailureStep(s: Snapshot, maxFailures: int, now: int): Snapshot {
    var f := s.failures + 1;
    Snapshot(f, Some(now), if f >= maxFailures then Open else s.state)
  }

  /** One whole `execute(fn)`. */
  function ExecuteStep(s: Snapshot, maxFailures: int, timeout: int, now: int, call: Call, doneAt: int): (Snapshot, Outcome) {
    var (g, admitted) := Gate(s, timeout, now);
    if !admitted then (g, RejectedOpen)
    else match call
      case Succeeds(v) => (SuccessStep(g), Returned(v))
      case Throws => (FailureStep(g, maxFailures, doneAt), Rethrown)
  }

  /** OPEN and HALF_OPEN are entered only once `failures` has reached `maxFailures`, and a
      failure has then been recorded. */
  predicate Consistent(s: Snapshot, maxFailures: int) {
    s.state != Closed ==> s.failures >= maxFailures && s.lastFailureTime.Some?
  }

  class CircuitBreaker {
    const maxFailures: int
    const timeout: int
    var failures: nat
    var lastFailureTime: Option<int>
    var state: Mode

    function Abs(): Snapshot
      reads this
    {
      Snapshot(failures, lastFailureTime, state)
    }

    ghost predicate Valid()
      reads this
    {
      Consistent(Abs(), maxFailures)
    }

    /** `createCircuitBreaker(maxFailures, timeout)` */
    constructor (maxFailures: int, timeout: int)
      ensures Valid() && Abs() == Fresh()
      ensures this.maxFailures == maxFailures && this.timeout == timeout
    {
      this.maxFailures := maxFailures;
      this.timeout := timeout;
      failures := 0;
      lastFailureTime := None;
      state := Closed;
    }

    method OnSuccess()
      modifies this
      ensures Abs() == SuccessStep(old(Abs()))
    {
      failures := 0;
      state := Closed;
    }

    method OnFailure(now: int)
      modifies this
      ensures Abs() == FailureStep(old(Abs()), maxFailures, now)
    {
      failures := failures + 1;
      lastFailureTime := Some(now);
      if failures >= maxFailures {
        state := Open;
      }
    }

    method Execute(now: int, call: Call, doneAt: int) returns (o: Outcome)
      requires Valid()
      modifies this
      ensures Valid()
      ensures (Abs(), o) == ExecuteStep(old(Abs()), maxFailures, timeout, now, call, doneAt)
    {
      if state == Open {
        var last := if lastFailureTime.Some? then lastFailureTime.value else 0;
        if now - last > timeout {
          state := HalfOpen;
        } else {
          return RejectedOpen;
        }
      }
      match call {
        case Succeeds(v) =>
          OnSuccess();
          o := Returned(v);
        case Throws =>
          OnFailure(doneAt);
          o := Rethrown;
      }
      ExecutePreserves(old(Abs()), maxFailures, timeout, now, call, doneAt);
    }
  }

  lemma ExecutePreserves(s: Snapshot, maxFailures: int, timeout: int, now: int, call: Call, doneAt: int)
    requires Consistent(s, maxFailures)
    ensures Consistent(ExecuteStep(s, maxFailures, timeout, now, call, doneAt).0, maxFailures)
  {
  }

  /** In OPEN within `timeout` of the last failure, `execute` throws without calling `fn`
      and changes nothing. */
  lemma OpenRefuses(s: Snapshot, maxFailures: int, timeout: int, now: int, call: Call, doneAt: int)
    requires s.state == Open && Elapsed(s, now) <= timeout
    ensures ExecuteStep(s, maxFailures, timeout, now, call, doneAt) == (s, RejectedOpen)
  {
  }

  /** In OPEN after `timeout`, the breaker half-opens and `fn` is called: its outcome is
      what `execute` returns or rethrows. */
  lemma OpenAfterTimeoutCalls(s: Snapshot, maxFailures: int, timeout: int, now: int, call: Call, doneAt: int)
    requires s.state == Open && Elapsed(s, now) > timeout
    ensures var (t, o) := ExecuteStep(s, maxFailures, timeout, now, call, doneAt);
      && (call.Succeeds? ==> o == Returned(call.value) && t.state == Closed)
      && (call.Throws? ==> o == Rethrown && t.failures == s.failures + 1)
  {
  }

  /** A call that returns closes the breaker and forgets the failures. */
  lemma SuccessCloses(s: Snapshot, maxFailures: int, timeout: int, now: int, v: JsVal, doneAt: int)
    requires s.state != Open || Elapsed(s, now) > timeout
    ensures var (t, o) := ExecuteStep(s, maxFailures, timeout, now, Succeeds(v), doneAt);
      o == Returned(v) && t.failures == 0 && t.state == Closed && t.lastFailureTime == s.lastFailureTime
  {
  }

  /** A call that throws adds one failure stamped with the time it threw, and opens the
      breaker exactly when the count reaches `maxFailures` (or it was already half-open). */
  lemma FailureCounts(s: Snapshot, maxFailures: int, timeout: int, now: int, doneAt: int)
    requires Consistent(s, maxFailures)
    requires s.state != Open || Elapsed(s, now) > timeout
    ensures var (t, o) := ExecuteStep(s, maxFailures, timeout, now, Throws, doneAt);
      && o == Rethrown
      && t.failures == s.failures + 1
      && t.lastFailureTime == Some(doneAt)
      && (t.state == Open <==> s.failures + 1 >= maxFailures)
      && (t.state != Open ==> t.state == Closed)
  {
  }

  /** Any failure while half-open re-opens at once: `failures` was not reset on the way. */
  lemma HalfOpenFailureReopens(s: Snapshot, maxFailures: int, timeout: int, now: int, doneAt: int)
    requires Consistent(s, maxFailures) && s.state == HalfOpen
    ensures ExecuteStep(s, maxFailures, timeout, now, Throws, doneAt).0.state == Open
  {
  }

  // ---- Runs ----

  /** One call of `execute`: times and the wrapped call's outcome. */
  datatype Attempt = Attempt(now: int, call: Call, doneAt: int)

  function Run(s: Snapshot, maxFailures: int, timeout: int, attempts: seq<Attempt>): Snapshot
    decreases |attempts|
  {
    if attempts == [] then s
    else
      var a := attempts[0];
      Run(ExecuteStep(s, maxFailures, timeout, a.now, a.call, a.doneAt).0, maxFailures, timeout, attempts[1..])
  }

  /** Whether the attempt called `fn` and it threw, returned, or was refused. */
  function Outcomes(s: Snapshot, maxFailures: int, timeout: int, attempts: seq<Attempt>): seq<Outcome>
    decreases |attempts|
  {
    if attempts == [] then []
    else
      var a := attempts[0];
      var (t, o) := ExecuteStep(s, maxFailures, timeout, a.now, a.call, a.doneAt);
      [o] + Outcomes(t, maxFailures, timeout, attempts[1..])
  }

  /** The number of calls of `fn` that threw since the last one that returned. */
  function TrailingFailures(os: seq<Outcome>): nat
    decreases |os|
  {
    if os == [] then 0
    else
      var last := os[|os| - 1];
      match last
      case Returned(_) => 0
      case Rethrown => TrailingFailures(os[..|os| - 1]) + 1
      case RejectedOpen => TrailingFailures(os[..|os| - 1])
  }

  lemma TrailingFailuresSnoc(os: seq<Outcome>, o: Outcome)
    ensures TrailingFailures(os + [o]) ==
      match o
      case Returned(_) => 0
      case Rethrown => TrailingFailures(os) + 1
      case RejectedOpen => TrailingFailures(os)
  {
    assert (os + [o])[..|os + [o]| - 1] == os;
  }

  /** Along any run from a fresh breaker, `failures` is the number of consecutive calls of `fn`
      that threw since the last one that returned; refused attempts do not count. */
  lemma {:induction false} FailuresAreTrailingThrows(s: Snapshot, maxFailures: int, timeout: int, attempts: seq<Attempt>, past: seq<Outcome>)
    requires s.failures == TrailingFailures(past)
    ensures Run(s, maxFailures, timeout, attempts).failures ==
      TrailingFailures(past + Outcomes(s, maxFailures, timeout, attempts))
    decreases |attempts|
  {
    if attempts == [] {
      assert past + [] == past;
    } else {
      var a := attempts[0];
      var (t, o) := ExecuteStep(s, maxFailures, timeout, a.now, a.call, a.doneAt);
      TrailingFailuresSnoc(past, o);
      FailuresAreTrailingThrows(t, maxFailures, timeout, attempts[1..], past + [o]);
      assert past + [o] + Outcomes(t, maxFailures, timeout, attempts[1..])
        == past + Outcomes(s, maxFailures, timeout, attempts);
    }
  }

  /** Starting fresh, the count is exactly the trailing throws of the run. */
  lemma FreshFailuresAreTrailingThrows(maxFailures: int, timeout: int, attempts: seq<Attempt>)
    ensures Run(Fresh(), maxFailures, timeout, attempts).failures ==
      TrailingFailures(Outcomes(Fresh(), maxFailures, timeout, attempts))
  {
    FailuresAreTrailingThrows(Fresh(), maxFailures, timeout, attempts, []);
    assert [] + Outcomes(Fresh(), maxFailures, timeout, attempts) == Outcomes(Fresh(), maxFailures, timeout, attempts);
  }
}
