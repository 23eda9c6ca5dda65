/**
 Retrying a database operation: transient errors are retried after a growing, capped, jittered wait,
 anything else ends the loop at once.
 */
module Retry {

  /** What one call of the wrapped operation does. */
  datatype Outcome<+T> = Returned(value: T) | TransientError | OtherError

  predicate Ends(o: Outcome) {
    !o.TransientError?
  }

  /** Index of the first call that returns or raises a non-transient error; the length if there is none. */
  function FirstEnd<T>(outcomes: seq<Outcome<T>>): (n: nat)
    ensures n <= |outcomes|
    ensures forall i | 0 <= i < n :: !Ends(outcomes[i])
    ensures n < |outcomes| ==> Ends(outcomes[n])
  {
    if outcomes == [] || Ends(outcomes[0]) then 0 else 1 + FirstEnd(outcomes[1..])
  }

  lemma FirstEndIsFirst<T>(outcomes: seq<Outcome<T>>, n: nat)
    requires n < |outcomes| && Ends(outcomes[n]) && forall i | 0 <= i < n :: !Ends(outcomes[i])
    ensures FirstEnd(outcomes) == n
  {
  }

  /** How many calls are made: up to and including the first that ends the loop, and never more than allowed. */
  function Calls<T>(outcomes: seq<Outcome<T>>, maxRetries: nat): (n: nat)
    requires maxRetries <= |outcomes|
    ensures n <= maxRetries && (n == 0 <==> maxRetries == 0)
  {
    if FirstEnd(outcomes) + 1 < maxRetries then FirstEnd(outcomes) + 1 else maxRetries
  }

  function Pow2(n: nat): nat {
    if n == 0 then 1 else 2 * Pow2(n - 1)
  }

  function Delay(attempt: nat, baseDelay: real, maxDelay: real): real {
    var delay := baseDelay * Pow2(attempt) as real;
    if delay < maxDelay then delay else maxDelay
  }

  /** The wait after a failed attempt, counted from 0. */
  function Wait(attempt: nat, baseDelay: real, maxDelay: real): real {
    var delay := Delay(attempt, baseDelay, maxDelay);
    var jitter := delay * 0.1;
    delay + jitter * (attempt + 1) as real
  }

  function TotalWait(failures: nat, baseDelay: real, maxDelay: real): real {
    if failures == 0 then 0.0
    else TotalWait(failures - 1, baseDelay, maxDelay) + Wait(failures - 1, baseDelay, maxDelay)
  }

  /** The delay starts at its base and doubles up to its cap, and each wait adds a tenth of it for every attempt
      made. */
  lemma WaitsGrow(attempt: nat, baseDelay: real, maxDelay: real)
    requires 0.0 <= baseDelay && 0.0 <= maxDelay
    ensures Delay(0, baseDelay, maxDelay) == if baseDelay < maxDelay then baseDelay else maxDelay
    ensures var delay, next := Delay(attempt, baseDelay, maxDelay), Delay(attempt + 1, baseDelay, maxDelay);
            next == if 2.0 * delay < maxDelay then 2.0 * delay else maxDelay
    ensures var delay := Delay(attempt, baseDelay, maxDelay);
            10.0 * (Wait(attempt, baseDelay, maxDelay) - delay) == delay * (attempt + 1) as real
  {
    var p := Pow2(attempt);
    assert Pow2(attempt + 1) as real == 2.0 * p as real;
    assert baseDelay * Pow2(attempt + 1) as real == 2.0 * (baseDelay * p as real);
  }

  /** The waits of a recording: 55 milliseconds after the first failed attempt and 120 after the second. */
  lemma RecordingWaits()
    ensures Wait(0, 0.05, 0.5) == 0.055 && Wait(1, 0.05, 0.5) == 0.12
  {
    assert Pow2(0) == 1 && Pow2(1) == 2;
  }

  lemma Scale(a: real, b: real, c: real)
    requires a <= b && c >= 0.0
    ensures a * c <= b * c
  {
  }

  /** The cap on one wait in a loop of at most n + 1 calls. */
  function WaitCap(n: nat, maxDelay: real): real {
    maxDelay * (1.0 + 0.1 * n as real)
  }

  lemma WaitIsBounded(attempt: nat, n: nat, baseDelay: real, maxDelay: real)
    requires attempt < n && maxDelay >= 0.0
    ensures Wait(attempt, baseDelay, maxDelay) <= WaitCap(n, maxDelay)
  {
    var delay := Delay(attempt, baseDelay, maxDelay);
    var factor, cap := 1.0 + 0.1 * (attempt + 1) as real, 1.0 + 0.1 * n as real;
    assert delay * 0.1 * (attempt + 1) as real == delay * (0.1 * (attempt + 1) as real);
    Scale(delay, maxDelay, factor);
    Scale(factor, cap, maxDelay);
  }

  /** All the waiting of a loop of at most n + 1 calls. */
  lemma {:induction false} TotalWaitIsBounded(failures: nat, n: nat, baseDelay: real, maxDelay: real)
    requires failures <= n && maxDelay >= 0.0
    ensures TotalWait(failures, baseDelay, maxDelay) <= failures as real * WaitCap(n, maxDelay)
  {
    if failures > 0 {
      TotalWaitIsBounded(failures - 1, n, baseDelay, maxDelay);
      WaitIsBounded(failures - 1, n, baseDelay, maxDelay);
      var cap := WaitCap(n, maxDelay);
      assert failures as real == (failures - 1) as real + 1.0;
      assert failures as real * cap == (failures - 1) as real * cap + cap;
    }
  }

  lemma LoopWaitIsBounded(failures: nat, n: nat, baseDelay: real, maxDelay: real)
    requires failures <= n
    ensures maxDelay >= 0.0 ==> TotalWait(failures, baseDelay, maxDelay) <= n as real * WaitCap(n, maxDelay)
  {
    if maxDelay >= 0.0 {
      TotalWaitIsBounded(failures, n, baseDelay, maxDelay);
      Scale(failures as real, n as real, WaitCap(n, maxDelay));
    }
  }

  /** What a loop over these outcomes comes to: the outcome of the last call made, or, when none is allowed, the
      error of raising nothing. */
  function Result<T>(outcomes: seq<Outcome<T>>, maxRetries: nat): Outcome<T>
    requires maxRetries <= |outcomes|
  {
    if maxRetries == 0 then OtherError else outcomes[Calls(outcomes, maxRetries) - 1]
  }

  /** The loop returns a value exactly when some allowed call returns one and all before it fail transiently; it
      gives up on a transient error exactly when every allowed call fails so. */
  lemma ResultExactly<T>(outcomes: seq<Outcome<T>>, maxRetries: nat)
    requires maxRetries <= |outcomes|
    ensures Result(outcomes, maxRetries).Returned? <==>
              exists i :: 0 <= i < maxRetries && outcomes[i].Returned?
                  && forall j | 0 <= j < i :: outcomes[j].TransientError?
    ensures Result(outcomes, maxRetries).TransientError? <==>
              maxRetries > 0 && forall i | 0 <= i < maxRetries :: outcomes[i].TransientError?
  {
    var n := FirstEnd(outcomes);
    if n < maxRetries {
      assert Result(outcomes, maxRetries) == outcomes[n] && Ends(outcomes[n]);
      forall i | 0 <= i < maxRetries && outcomes[i].Returned? && forall j | 0 <= j < i :: outcomes[j].TransientError?
        ensures i == n
      {
        assert Ends(outcomes[i]);
      }
    } else if maxRetries > 0 {
      assert !Ends(Result(outcomes, maxRetries));
    }
  }

  /** The loop, over what the operation would do at each call. */
  method WithDbRetry<T>(outcomes: seq<Outcome<T>>, maxRetries: nat, baseDelay: real, maxDelay: real)
    returns (result: Outcome<T>, calls: nat, slept: real)
    requires maxRetries <= |outcomes|
    ensures calls == Calls(outcomes, maxRetries) && result == Result(outcomes, maxRetries)
    ensures slept == if calls == 0 then 0.0 else TotalWait(calls - 1, baseDelay, maxDelay)
    ensures maxRetries > 0 && maxDelay >= 0.0 ==> slept <= (maxRetries - 1) as real * WaitCap(maxRetries - 1, maxDelay)
  {
    calls, slept := 0, 0.0;
    if maxRetries == 0 {
      return OtherError, 0, 0.0;
    }
    for attempt := 0 to maxRetries
      invariant calls == attempt < maxRetries
      invariant forall i | 0 <= i < attempt :: !Ends(outcomes[i])
      invariant slept == TotalWait(attempt, baseDelay, maxDelay)
    {
      result := outcomes[attempt];
      calls := calls + 1;
      if Ends(result) || attempt == maxRetries - 1 {
        if Ends(result) {
          FirstEndIsFirst(outcomes, attempt);
        }
        LoopWaitIsBounded(attempt, maxRetries - 1, baseDelay, maxDelay);
        return;
      }
      slept := slept + Wait(attempt, baseDelay, maxDelay);
    }
    assert false;
  }
}
