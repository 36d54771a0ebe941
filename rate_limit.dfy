/** The gateway's per-IP rate limiter middleware.

    The cache holds one counter per client address under `rate-limit:{ip}`,
    written with a one-minute expiry on every admitted request. An expired
    entry reads as absent. Time is an integer number of seconds. */
module RateLimit {

  const WindowSeconds: int := 60
  /** `retry_after` of the 429 Too Many Requests reply (section 4 of RFC 6585). */
  const RetryAfterSeconds: int := 60
  const TooManyRequestsStatus: int := 429

  /** A cached counter and the instant it expires. */
  datatype Entry = Entry(count: nat, expiresAt: int)

  /** `Cache::get($key, 0)`: the counter if present and not yet expired, else 0. */
  function Attempts(entries: map<string, Entry>, ip: string, now: int): nat
  {
    if ip in entries && now < entries[ip].expiresAt then entries[ip].count else 0
  }

  datatype Decision =
    | TooManyRequests(retryAfter: int)
    | Allowed(limit: int, remaining: int)  // the X-RateLimit-Limit and X-RateLimit-Remaining headers

  datatype Step = Step(decision: Decision, entries: map<string, Entry>)

  /** One request from `ip` at time `now` against a limit of `maxAttempts`. */
  function Limit(entries: map<string, Entry>, ip: string, maxAttempts: int, now: int): (r: Step)
    ensures r.decision.TooManyRequests? <==> Attempts(entries, ip, now) >= maxAttempts
    // a rejection answers 429 with retry_after 60 and leaves the counter alone
    ensures r.decision.TooManyRequests? ==>
      r.decision.retryAfter == RetryAfterSeconds && r.entries == entries
    // an admitted request counts one more and keeps the key alive for another minute
    ensures r.decision.Allowed? ==>
      && ip in r.entries
      && r.entries[ip].count == Attempts(entries, ip, now) + 1
      && r.entries[ip].expiresAt == now + WindowSeconds
      && (forall later :: now <= later < now + WindowSeconds ==>
            Attempts(r.entries, ip, later) == Attempts(entries, ip, now) + 1)
    // the remaining-quota header lies in [0, max - 1]
    ensures r.decision.Allowed? ==>
      && r.decision.limit == maxAttempts
      && r.decision.remaining == maxAttempts - Attempts(entries, ip, now) - 1
      && 0 <= r.decision.remaining <= maxAttempts - 1
    // other clients' counters are untouched
    ensures forall other :: other != ip ==>
      (other in r.entries <==> other in entries) &&
      (other in entries ==> r.entries[other] == entries[other])
    // no stored counter ever exceeds the limit
    ensures (forall k :: k in entries ==> entries[k].count <= maxAttempts) ==>
      forall k :: k in r.entries ==> r.entries[k].count <= maxAttempts
  {
    var attempts := Attempts(entries, ip, now);
    if attempts >= maxAttempts then
      Step(TooManyRequests(RetryAfterSeconds), entries)
    else
      Step(Allowed(maxAttempts, maxAttempts - attempts - 1),
           entries[ip := Entry(attempts + 1, now + WindowSeconds)])
  }

  /** The store after a client sent requests at the given instants. */
  function Replay(entries: map<string, Entry>, ip: string, maxAttempts: int, times: seq<int>): map<string, Entry>
  {
    if times == [] then entries
    else Limit(Replay(entries, ip, maxAttempts, times[..|times| - 1]), ip, maxAttempts, times[|times| - 1]).entries
  }

  /** An unbroken burst: each request comes less than a minute after the one
      before it, so the counter never expires in between. */
  predicate Unbroken(times: seq<int>)
  {
    forall i :: 0 < i < |times| ==> times[i] < times[i - 1] + WindowSeconds
  }

  /** A prefix of an unbroken burst is unbroken. */
  lemma UnbrokenPrefix(times: seq<int>, k: nat)
    requires Unbroken(times) && k <= |times|
    ensures Unbroken(times[..k])
  {
    var pre := times[..k];
    forall i | 0 < i < |pre| ensures pre[i] < pre[i - 1] + WindowSeconds {
      assert pre[i] == times[i] && pre[i - 1] == times[i - 1];
    }
  }

  /** Starting with no live counter, k <= max requests each within a minute
      of the previous one leave the counter at k, expiring a minute after the
      last of them. */
  lemma {:induction false} BurstCount(entries: map<string, Entry>, ip: string, maxAttempts: int, times: seq<int>)
    requires times != [] ==> Attempts(entries, ip, times[0]) == 0
    requires Unbroken(times) && |times| <= maxAttempts
    ensures times != [] ==>
      && ip in Replay(entries, ip, maxAttempts, times)
      && Replay(entries, ip, maxAttempts, times)[ip] == Entry(|times|, times[|times| - 1] + WindowSeconds)
  {
    if times != [] {
      var n := |times| - 1;
      var init := times[..n];
      UnbrokenPrefix(times, n);
      BurstCount(entries, ip, maxAttempts, init);
      var before := Replay(entries, ip, maxAttempts, init);
      var now := times[n];
      if n > 0 {
        assert init[n - 1] == times[n - 1] && init[0] == times[0];
        LiveCount(before, ip, n, times[n - 1], now);
      }
      AdmittedStep(before, ip, maxAttempts, now);
      assert Replay(entries, ip, maxAttempts, times) == Limit(before, ip, maxAttempts, now).entries;
    }
  }

  /** Starting with no live counter, k <= max requests each within a minute of
      the previous one are all admitted, and the counter then reads k. */
  lemma BurstIsCounted(entries: map<string, Entry>, ip: string, maxAttempts: int, times: seq<int>)
    requires times != [] ==> Attempts(entries, ip, times[0]) == 0
    requires Unbroken(times) && |times| <= maxAttempts
    ensures times != [] ==>
      && ip in Replay(entries, ip, maxAttempts, times)
      && Replay(entries, ip, maxAttempts, times)[ip] == Entry(|times|, times[|times| - 1] + WindowSeconds)
    ensures forall i :: 0 <= i < |times| ==>
      Limit(Replay(entries, ip, maxAttempts, times[..i]), ip, maxAttempts, times[i]).decision.Allowed?
  {
    BurstCount(entries, ip, maxAttempts, times);
    forall i | 0 <= i < |times|
      ensures Limit(Replay(entries, ip, maxAttempts, times[..i]), ip, maxAttempts, times[i]).decision.Allowed?
    {
      var pre := times[..i];
      UnbrokenPrefix(times, i);
      if i > 0 {
        assert pre[0] == times[0] && pre[i - 1] == times[i - 1];
        BurstCount(entries, ip, maxAttempts, pre);
        LiveCount(Replay(entries, ip, maxAttempts, pre), ip, i, times[i - 1], times[i]);
      } else {
        assert pre == [];
      }
      AdmittedStep(Replay(entries, ip, maxAttempts, pre), ip, maxAttempts, times[i]);
    }
  }

  /** A counter stored at `last` is still read less than a minute later. */
  lemma LiveCount(m: map<string, Entry>, ip: string, count: nat, last: int, now: int)
    requires ip in m && m[ip] == Entry(count, last + WindowSeconds) && now < last + WindowSeconds
    ensures Attempts(m, ip, now) == count
  {
  }

  /** Below the limit a request is admitted and its counter goes up by one. */
  lemma AdmittedStep(m: map<string, Entry>, ip: string, maxAttempts: int, now: int)
    requires Attempts(m, ip, now) < maxAttempts
    ensures Limit(m, ip, maxAttempts, now).decision.Allowed?
    ensures Limit(m, ip, maxAttempts, now).entries[ip] == Entry(Attempts(m, ip, now) + 1, now + WindowSeconds)
  {
  }

  /** With limit N, requests 1..N of an unbroken burst are admitted and request
      N+1 is rejected with 429. */
  lemma BurstLimit(entries: map<string, Entry>, ip: string, maxAttempts: nat, times: seq<int>)
    requires Unbroken(times) && |times| == maxAttempts + 1
    requires Attempts(entries, ip, times[0]) == 0
    ensures forall i :: 0 <= i < maxAttempts ==>
      Limit(Replay(entries, ip, maxAttempts, times[..i]), ip, maxAttempts, times[i]).decision.Allowed?
    ensures Limit(Replay(entries, ip, maxAttempts, times[..maxAttempts]), ip, maxAttempts, times[maxAttempts])
              .decision == TooManyRequests(RetryAfterSeconds)
  {
    var burst := times[..maxAttempts];
    assert Unbroken(burst) by {
      forall i | 0 < i < |burst| ensures burst[i] < burst[i - 1] + WindowSeconds {
        assert burst[i] == times[i] && burst[i - 1] == times[i - 1];
      }
    }
    BurstIsCounted(entries, ip, maxAttempts, burst);
    forall i | 0 <= i < maxAttempts
      ensures Limit(Replay(entries, ip, maxAttempts, times[..i]), ip, maxAttempts, times[i]).decision.Allowed?
    {
      assert burst[..i] == times[..i];
      assert burst[i] == times[i];
    }
    var full := Replay(entries, ip, maxAttempts, burst);
    var now := times[maxAttempts];
    assert Attempts(full, ip, now) == maxAttempts by {
      if maxAttempts > 0 {
        assert burst[maxAttempts - 1] == times[maxAttempts - 1];
        assert now < times[maxAttempts - 1] + WindowSeconds;
      }
    }
  }

  /** The shared cache as the middleware mutates it. */
  class Limiter {
    var entries: map<string, Entry>

    constructor ()
      ensures entries == map[]
    {
      entries := map[];
    }

    /** Returns the decision and whether the next handler ran. */
    method Handle(ip: string, maxAttempts: int, now: int) returns (decision: Decision, nextCalled: bool)
      modifies this
      ensures Step(decision, entries) == Limit(old(entries), ip, maxAttempts, now)
      ensures nextCalled <==> decision.Allowed?
    {
      var attempts := if ip in entries && now < entries[ip].expiresAt then entries[ip].count else 0;
      if attempts >= maxAttempts {
        decision, nextCalled := TooManyRequests(RetryAfterSeconds), false;
        return;
      }
      entries := entries[ip := Entry(attempts + 1, now + WindowSeconds)];
      nextCalled := true;
      decision := Allowed(maxAttempts, maxAttempts - attempts - 1);
    }
  }
}
