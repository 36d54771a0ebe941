/** The gateway's per-service circuit breaker middleware.

    Its state lives in the shared cache under two keys per service: the
    failure counter `circuit-breaker:{service}` and the reset time
    `circuit-breaker:{service}:reset`. Both are modelled as maps keyed by the
    service name; time is an integer number of seconds given as input, and
    what the wrapped handler does is an input too. */
module CircuitBreaker {

  import opened Common

  const FailureThreshold: int := 5
  const TimeoutSeconds: int := 60

  /** What the wrapped handler does once the breaker lets the call through. */
  datatype Downstream = Response(status: int) | Exception(message: string)

  /** What the middleware gives back to its caller. */
  datatype Outcome =
    | ShortCircuit(service: string, retryAfter: int)  // 503 'Service temporarily unavailable'
    | Passed(status: int)                             // the downstream response, unchanged
    | Rethrown(message: string)                       // the downstream exception, re-raised

  /** The cache keys of every service. */
  datatype Store = Store(failures: map<string, nat>, resetAt: map<string, int>)

  /** `Cache::get("circuit-breaker:{service}", 0)` */
  function Failures(st: Store, service: string): nat
  {
    if service in st.failures then st.failures[service] else 0
  }

  /** `Cache::get("circuit-breaker:{service}:reset")`, absent as None. */
  function ResetTime(st: Store, service: string): (r: Option<int>)
    ensures r.Some? <==> service in st.resetAt
  {
    if service in st.resetAt then Some(st.resetAt[service]) else None
  }

  /** The call short-circuits: enough failures and the reset time still ahead. */
  predicate IsOpen(st: Store, service: string, now: int)
  {
    Failures(st, service) >= FailureThreshold && service in st.resetAt && now < st.resetAt[service]
  }

  /** Both keys of one service hold the same values in two stores. */
  predicate SameKeys(a: Store, b: Store, service: string)
  {
    Failures(a, service) == Failures(b, service) && ResetTime(a, service) == ResetTime(b, service)
  }

  datatype Step = Step(store: Store, outcome: Outcome, invoked: bool)

  /** One pass through the middleware for `service` at time `now`. */
  function Guard(st: Store, service: string, now: int, downstream: Downstream): (r: Step)
    // open: 503 with the service and the seconds left; nothing called, nothing changed
    ensures IsOpen(st, service, now) ==>
      r == Step(st, ShortCircuit(service, st.resetAt[service] - now), false)
    ensures IsOpen(st, service, now) ==> r.outcome.retryAfter > 0
    // otherwise the downstream is always called and its result handed back unchanged
    ensures !IsOpen(st, service, now) <==> r.invoked
    ensures r.invoked && downstream.Response? ==> r.outcome == Passed(downstream.status)
    ensures r.invoked && downstream.Exception? ==> r.outcome == Rethrown(downstream.message)
    // a response below 500 resets the counter
    ensures r.invoked && downstream.Response? && downstream.status < 500 ==>
      Failures(r.store, service) == 0
    // and leaves the reset key as the call found it (cleared for a half-open call)
    ensures r.invoked && downstream.Response? && downstream.status < 500 ==>
      ResetTime(r.store, service) == if Failures(st, service) >= FailureThreshold then None else ResetTime(st, service)
    // a response of 500 or more leaves the counter as it was when the call was admitted
    ensures r.invoked && downstream.Response? && downstream.status >= 500 ==>
      if Failures(st, service) >= FailureThreshold
      then Failures(r.store, service) == 0 && ResetTime(r.store, service) == None
      else SameKeys(r.store, st, service)
    // an exception adds exactly one failure and restarts the 60-second timer
    ensures r.invoked && downstream.Exception? ==>
      && Failures(r.store, service) ==
           (if Failures(st, service) >= FailureThreshold then 0 else Failures(st, service)) + 1
      && ResetTime(r.store, service) == Some(now + TimeoutSeconds)
    // the keys of every other service are untouched
    ensures forall other :: other != service ==> SameKeys(r.store, st, other)
  {
    var count := Failures(st, service);
    if count >= FailureThreshold && service in st.resetAt && now < st.resetAt[service] then
      Step(st, ShortCircuit(service, st.resetAt[service] - now), false)
    else
      var admitted :=
        if count >= FailureThreshold
        then Store(st.failures - {service}, st.resetAt - {service})
        else st;
      match downstream
      case Response(status) =>
        var after :=
          if status < 500 then Store(admitted.failures - {service}, admitted.resetAt) else admitted;
        Step(after, Passed(status), true)
      case Exception(message) =>
        var after := Store(admitted.failures[service := Failures(admitted, service) + 1],
                           admitted.resetAt[service := now + TimeoutSeconds]);
        Step(after, Rethrown(message), true)
  }

  /** One call to the middleware: the time it happens and what the handler does. */
  datatype Call = Call(now: int, downstream: Downstream)

  /** The store after a sequence of calls for one service. */
  function Run(st: Store, service: string, calls: seq<Call>): Store
  {
    if calls == [] then st
    else
      var last := calls[|calls| - 1];
      Guard(Run(st, service, calls[..|calls| - 1]), service, last.now, last.downstream).store
  }

  predicate AllExceptions(calls: seq<Call>)
  {
    forall i :: 0 <= i < |calls| ==> calls[i].downstream.Exception?
  }

  /** From a closed circuit, k <= 5 exceptions in a row are all let through and
      leave exactly k failures, with the timer restarted by the last of them. */
  lemma {:induction false} ExceptionsAccumulate(st: Store, service: string, calls: seq<Call>)
    requires Failures(st, service) == 0
    requires |calls| <= FailureThreshold && AllExceptions(calls)
    ensures Failures(Run(st, service, calls), service) == |calls|
    ensures calls != [] ==>
      ResetTime(Run(st, service, calls), service) == Some(calls[|calls| - 1].now + TimeoutSeconds)
    ensures forall i :: 0 <= i < |calls| ==>
      !IsOpen(Run(st, service, calls[..i]), service, calls[i].now)
  {
    if calls != [] {
      var n := |calls| - 1;
      var init := calls[..n];
      assert AllExceptions(init) by {
        forall i | 0 <= i < n ensures init[i].downstream.Exception? { assert init[i] == calls[i]; }
      }
      ExceptionsAccumulate(st, service, init);
      var before := Run(st, service, init);
      assert Run(st, service, calls) == Guard(before, service, calls[n].now, calls[n].downstream).store;
      ExceptionAdmitted(before, service, calls[n]);
      forall i | 0 <= i < |calls|
        ensures !IsOpen(Run(st, service, calls[..i]), service, calls[i].now)
      {
        if i < n {
          assert init[..i] == calls[..i] && init[i] == calls[i];
        } else {
          assert calls[..i] == init;
        }
      }
    }
  }

  /** Below the threshold an exception is let through and counted once. */
  lemma ExceptionAdmitted(before: Store, service: string, c: Call)
    requires Failures(before, service) < FailureThreshold && c.downstream.Exception?
    ensures !IsOpen(before, service, c.now)
    ensures Failures(Guard(before, service, c.now, c.downstream).store, service) == Failures(before, service) + 1
    ensures ResetTime(Guard(before, service, c.now, c.downstream).store, service) == Some(c.now + TimeoutSeconds)
  {
  }

  /** After five exceptions in a row from a closed circuit, any call made less
      than 60 seconds after the last of them short-circuits without reaching
      the downstream handler. */
  lemma OpenAfterFiveExceptions(st: Store, service: string, calls: seq<Call>, now: int, next: Downstream)
    requires Failures(st, service) == 0
    requires |calls| == FailureThreshold && AllExceptions(calls)
    requires now < calls[|calls| - 1].now + TimeoutSeconds
    ensures Guard(Run(st, service, calls), service, now, next).outcome.ShortCircuit?
    ensures !Guard(Run(st, service, calls), service, now, next).invoked
  {
    ExceptionsAccumulate(st, service, calls);
  }

  /** Once the reset time has passed, the next call is let through; if it throws,
      the counter restarts at 1, so the circuit is not open again afterwards. */
  lemma ProbeFailureRestartsCount(st: Store, service: string, now: int, message: string, later: int)
    requires Failures(st, service) >= FailureThreshold
    requires !IsOpen(st, service, now)
    ensures Guard(st, service, now, Exception(message)).invoked
    ensures Failures(Guard(st, service, now, Exception(message)).store, service) == 1
    ensures !IsOpen(Guard(st, service, now, Exception(message)).store, service, later)
  {
  }

  /** The cache as the middleware mutates it: one class, one method per request. */
  class Breaker {
    var failures: map<string, nat>
    var resetAt: map<string, int>

    function State(): Store
      reads this
    {
      Store(failures, resetAt)
    }

    constructor ()
      ensures State() == Store(map[], map[])
    {
      failures := map[];
      resetAt := map[];
    }

    method Handle(service: string, now: int, downstream: Downstream) returns (outcome: Outcome, invoked: bool)
      modifies this
      ensures Step(State(), outcome, invoked) == Guard(old(State()), service, now, downstream)
    {
      var count := if service in failures then failures[service] else 0;
      if count >= FailureThreshold {
        if service in resetAt && now < resetAt[service] {
          outcome, invoked := ShortCircuit(service, resetAt[service] - now), false;
          return;
        }
        // try to reset the circuit
        failures := failures - {service};
        resetAt := resetAt - {service};
      }
      invoked := true;
      match downstream {
        case Response(status) =>
          if status < 500 {
            failures := failures - {service};
          }
          outcome := Passed(status);
        case Exception(message) =>
          var current := if service in failures then failures[service] else 0;
          failures := failures[service := current + 1];
          resetAt := resetAt[service := now + TimeoutSeconds];
          outcome := Rethrown(message);
      }
    }
  }
}
