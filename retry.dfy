/** `api_call_with_retry`: every Drive request goes through a bounded retry
    loop that retries only throttling and server statuses, with a delay that
    doubles after each retry. */
module Backoff {
  import opened Types
  import opened Environment

  const MAX_RETRIES: nat := 5
  /** `BASE_DELAY` is 0.1 s. */
  const BASE_DELAY_MS: nat := 100
  const BACKOFF_MULTIPLIER: nat := 2

  /** The statuses that are retried: 403, 429, 500 and 503. */
  predicate Retryable(status: int)
  {
    status == 403 || status == 429 || status == 500 || status == 503
  }

  /** How one wrapped call ended: the status it raised (None when it
      returned), how many attempts it sent, and the sleeps it made. */
  datatype Call = Call(raised: Option<int>, attempts: nat, sleeps: seq<nat>)

  /** The wrapper's loop from attempt number `attempt` on (0-based), for a
      call whose first request is the `at`-th of the run; the next retry waits
      `delay` ms and `slept` holds the waits made so far. */
  function RetryFrom(fault: nat -> Option<int>, at: nat, attempt: nat, delay: nat, slept: seq<nat>): Call
    requires attempt < MAX_RETRIES
    decreases MAX_RETRIES - attempt
  {
    match fault(at + attempt)
    case None => Call(None, attempt + 1, slept + [BASE_DELAY_MS])
    case Some(status) =>
      if Retryable(status) && attempt < MAX_RETRIES - 1 then
        RetryFrom(fault, at, attempt + 1, delay * BACKOFF_MULTIPLIER, slept + [delay])
      else
        Call(Some(status), attempt + 1, slept)
  }

  /** A whole wrapped call whose first attempt is the `at`-th request. */
  function Retry(fault: nat -> Option<int>, at: nat): Call
  {
    RetryFrom(fault, at, 0, BASE_DELAY_MS, [])
  }

  function Pow2(n: nat): nat
  {
    if n == 0 then 1 else 2 * Pow2(n - 1)
  }

  function Repeat<T>(x: T, n: nat): (r: seq<T>)
    ensures |r| == n
    ensures forall i :: 0 <= i < n ==> r[i] == x
  {
    if n == 0 then [] else Repeat(x, n - 1) + [x]
  }

  function Total(s: seq<nat>): nat
  {
    if s == [] then 0 else Total(s[..|s| - 1]) + s[|s| - 1]
  }

  /** Which attempts `RetryFrom` sends and which outcome it keeps. */
  lemma {:induction false} RetryFromAttempts(fault: nat -> Option<int>, at: nat, attempt: nat, delay: nat, slept: seq<nat>)
    requires attempt < MAX_RETRIES
    ensures var c := RetryFrom(fault, at, attempt, delay, slept);
      && attempt < c.attempts <= MAX_RETRIES
      && (forall q :: at + attempt <= q < at + c.attempts - 1 ==> fault(q).Some? && Retryable(fault(q).value))
      && c.raised == fault(at + c.attempts - 1)
      && (c.raised.Some? ==> !Retryable(c.raised.value) || c.attempts == MAX_RETRIES)
    decreases MAX_RETRIES - attempt
  {
    var f := fault(at + attempt);
    if f.Some? && Retryable(f.value) && attempt < MAX_RETRIES - 1 {
      RetryFromAttempts(fault, at, attempt + 1, delay * BACKOFF_MULTIPLIER, slept + [delay]);
    }
  }

  /** The waits `RetryFrom` makes: `delay`, doubled after each retry, and a
      final `BASE_DELAY_MS` pause after a success. */
  lemma {:induction false} RetryFromSleeps(fault: nat -> Option<int>, at: nat, attempt: nat, delay: nat, slept: seq<nat>)
    requires attempt < MAX_RETRIES
    requires |slept| == attempt && delay == BASE_DELAY_MS * Pow2(attempt)
    requires forall j :: 0 <= j < |slept| ==> slept[j] == BASE_DELAY_MS * Pow2(j)
    ensures var c := RetryFrom(fault, at, attempt, delay, slept);
      && attempt < c.attempts
      && |c.sleeps| == (if c.raised.None? then c.attempts else c.attempts - 1)
      && (forall j :: 0 <= j < c.attempts - 1 ==> c.sleeps[j] == BASE_DELAY_MS * Pow2(j))
      && (c.raised.None? ==> c.sleeps[c.attempts - 1] == BASE_DELAY_MS)
    decreases MAX_RETRIES - attempt
  {
    var f := fault(at + attempt);
    if f.Some? && Retryable(f.value) && attempt < MAX_RETRIES - 1 {
      var slept' := slept + [delay];
      assert forall j :: 0 <= j < |slept'| ==> slept'[j] == BASE_DELAY_MS * Pow2(j);
      RetryFromSleeps(fault, at, attempt + 1, delay * BACKOFF_MULTIPLIER, slept');
    }
  }

  /** The retry policy: at most `MAX_RETRIES` attempts; every attempt but the
      last raised a retryable status; the last one's outcome is the call's
      outcome; a retryable status is given up only on the last allowed attempt;
      the waits between attempts are 100, 200, 400, ... ms, and a success is
      followed by a 100 ms pause. */
  lemma RetryPolicy(fault: nat -> Option<int>, at: nat)
    ensures var c := Retry(fault, at);
      && 1 <= c.attempts <= MAX_RETRIES
      && (forall q :: at <= q < at + c.attempts - 1 ==> fault(q).Some? && Retryable(fault(q).value))
      && c.raised == fault(at + c.attempts - 1)
      && (c.raised.Some? ==> !Retryable(c.raised.value) || c.attempts == MAX_RETRIES)
      && |c.sleeps| == (if c.raised.None? then c.attempts else c.attempts - 1)
      && (forall j :: 0 <= j < c.attempts - 1 ==> c.sleeps[j] == BASE_DELAY_MS * Pow2(j))
      && (c.raised.None? ==> c.sleeps[c.attempts - 1] == BASE_DELAY_MS)
  {
    RetryFromAttempts(fault, at, 0, BASE_DELAY_MS, []);
    RetryFromSleeps(fault, at, 0, BASE_DELAY_MS, []);
  }

  /** A status outside 403, 429, 500, 503 on the first attempt is raised at
      once; a first attempt that succeeds is the only attempt. */
  lemma FirstAttemptDecides(fault: nat -> Option<int>, at: nat)
    requires fault(at).None? || !Retryable(fault(at).value)
    ensures Retry(fault, at).attempts == 1 && Retry(fault, at).raised == fault(at)
  {
    RetryPolicy(fault, at);
  }

  /** One wrapped call never waits more than 1.6 s in all:
      100 + 200 + 400 + 800 ms of backoff and the 100 ms pause. */
  lemma RetryWaitBounded(fault: nat -> Option<int>, at: nat)
    ensures Total(Retry(fault, at).sleeps) <= 1600
  {
    var c := Retry(fault, at);
    RetryPolicy(fault, at);
    var s, k := c.sleeps, c.attempts - 1;
    TotalOfDoubling(s[..k]);
    assert Pow2(k) <= 16 by {
      if k < 4 { Pow2Grows(k, 4); }
    }
    if |s| > k {
      assert s[..|s| - 1] == s[..k];
    } else {
      assert s == s[..k];
    }
  }

  /** Every wait of `s` lasts at most `bound` ms. */
  predicate AtMost(s: seq<nat>, bound: nat)
  {
    forall j :: 0 <= j < |s| ==> s[j] <= bound
  }

  lemma AtMostAppend(s: seq<nat>, t: seq<nat>, bound: nat)
    requires AtMost(s, bound) && AtMost(t, bound)
    ensures AtMost(s + t, bound)
  {
  }

  /** No single wait of a wrapped call lasts more than 800 ms: the backoff
      before the fifth and last attempt. */
  lemma RetryWaitEach(fault: nat -> Option<int>, at: nat)
    ensures AtMost(Retry(fault, at).sleeps, 800)
  {
    var c := Retry(fault, at);
    RetryPolicy(fault, at);
    forall j | 0 <= j < |c.sleeps|
      ensures c.sleeps[j] <= 800
    {
      if j < c.attempts - 1 {
        Pow2Grows(j, 3);
      }
    }
  }

  lemma {:induction false} Pow2Grows(m: nat, n: nat)
    requires m <= n
    ensures Pow2(m) <= Pow2(n)
  {
    if m < n {
      Pow2Grows(m, n - 1);
    }
  }

  /** Backoff waits of 100, 200, 400, ... ms add up to 100 * (2^n - 1). */
  lemma {:induction false} TotalOfDoubling(s: seq<nat>)
    requires forall j :: 0 <= j < |s| ==> s[j] == BASE_DELAY_MS * Pow2(j)
    ensures Total(s) == BASE_DELAY_MS * (Pow2(|s|) - 1)
  {
    if s != [] {
      var init := s[..|s| - 1];
      assert forall j :: 0 <= j < |init| ==> init[j] == s[j];
      TotalOfDoubling(init);
    }
  }

  lemma RepeatGrows<T>(x: T, n: nat, prefix: seq<T>)
    ensures prefix + Repeat(x, n) + [x] == prefix + Repeat(x, n + 1)
  {
  }

  /** Sends `req` through the retry wrapper. */
  method CallWithRetry(service: Service, req: Request) returns (raised: Option<int>)
    modifies service
    ensures var c := Retry(service.fault, |old(service.log)|);
      && raised == c.raised
      && service.log == old(service.log) + Repeat(req, c.attempts)
      && service.sleeps == old(service.sleeps) + c.sleeps
  {
    ghost var at := |service.log|;
    ghost var slept: seq<nat> := [];
    var delay: nat := BASE_DELAY_MS;
    var attempt := 0;
    while attempt < MAX_RETRIES
      invariant attempt < MAX_RETRIES
      invariant service.log == old(service.log) + Repeat(req, attempt)
      invariant service.sleeps == old(service.sleeps) + slept
      invariant RetryFrom(service.fault, at, attempt, delay, slept) == Retry(service.fault, at)
      decreases MAX_RETRIES - attempt
    {
      raised := service.Send(req);
      RepeatGrows(req, attempt, old(service.log));
      if raised.None? {
        service.Sleep(BASE_DELAY_MS);
        return;
      }
      if Retryable(raised.value) && attempt < MAX_RETRIES - 1 {
        service.Sleep(delay);
        slept := slept + [delay];
        delay := delay * BACKOFF_MULTIPLIER;
        attempt := attempt + 1;
      } else {
        return;
      }
    }
    assert false;
  }
}
