/** Bounded retry with exponential backoff. */
module Retry {
  import opened Options

  /** What a run of the operation does: an error is known by its code, if it has one. */
  type Run<+T> = Result<T, Option<string>>

  function Pow2(n: nat): (p: nat)
    ensures 0 < p
  {
    if n == 0 then 1 else 2 * Pow2(n - 1)
  }

  function Min(a: nat, b: nat): nat {
    if a < b then a else b
  }

  function CalculateBackoffDelay(attempt: nat, baseMs: nat, maxMs: nat): nat
    requires 0 < attempt
  {
    Min(baseMs * Pow2(attempt - 1), maxMs)
  }

  const RETRYABLE_CODES := {"40001", "40P01", "55P03", "57P01", "57P02", "57P03", "08006", "08001", "08003"}
  const NON_RETRYABLE_CODES := {"23505", "23503", "23502", "23514", "22P02"}

  /** No code is final; a code nobody listed is assumed to be worth a retry. */
  predicate Retryable(code: Option<string>) {
    code.Some? && code.value != "" && (code.value in RETRYABLE_CODES || code.value !in NON_RETRYABLE_CODES)
  }

  /**
    Lost connections, serialization failures, deadlocks, lock timeouts and shutdowns are retried, and
    so is any code not listed; broken constraints, malformed input and errors without a code are final.
   */
  lemma WhatIsRetried(code: string)
    ensures code in ["40001", "40P01", "55P03", "57P01", "57P02", "57P03", "08006", "08001", "08003"] ==>
              Retryable(Some(code))
    ensures Retryable(Some(code)) <==> code != "" && code !in ["23505", "23503", "23502", "23514", "22P02"]
    ensures !Retryable(None)
  {
    assert code in RETRYABLE_CODES ==> code !in NON_RETRYABLE_CODES;
  }

  predicate Transient<T>(r: Run<T>) {
    r.Err? && Retryable(r.error)
  }

  lemma {:induction false} Pow2Grows(a: nat, b: nat)
    requires a <= b
    ensures Pow2(a) <= Pow2(b)
  {
    if a < b {
      Pow2Grows(a, b - 1);
    }
  }

  lemma Scaled(base: nat, x: nat, y: nat)
    requires x <= y
    ensures base * x <= base * y
  {
  }

  /** Backoff never shrinks and never passes its maximum. */
  lemma BackoffIsMonotone(a: nat, b: nat, baseMs: nat, maxMs: nat)
    requires 0 < a <= b
    ensures CalculateBackoffDelay(a, baseMs, maxMs) <= CalculateBackoffDelay(b, baseMs, maxMs) <= maxMs
  {
    Pow2Grows(a - 1, b - 1);
    Scaled(baseMs, Pow2(a - 1), Pow2(b - 1));
  }

  /** With a positive base it does reach the maximum, and stays there. */
  lemma BackoffSaturates(a: nat, baseMs: nat, maxMs: nat)
    requires 0 < baseMs && maxMs < a
    ensures CalculateBackoffDelay(a, baseMs, maxMs) == maxMs
  {
    Pow2Exceeds(a - 1);
    Scaled(Pow2(a - 1), 1, baseMs);
  }

  lemma {:induction false} Pow2Exceeds(n: nat)
    ensures n < Pow2(n)
  {
    if n > 0 {
      Pow2Exceeds(n - 1);
    }
  }

  /** Inside the retry loop the cap is the delay of one attempt too many, so it never bites. */
  lemma CapNeverBites(attempt: nat, retryDelayMs: nat, maxRetries: nat)
    requires attempt < maxRetries
    ensures CalculateBackoffDelay(attempt + 1, retryDelayMs, retryDelayMs * Pow2(maxRetries)) ==
              retryDelayMs * Pow2(attempt)
  {
    Pow2Grows(attempt, maxRetries);
    Scaled(retryDelayMs, Pow2(attempt), Pow2(maxRetries));
  }

  function Total(sleeps: seq<nat>): nat {
    if sleeps == [] then 0 else Total(sleeps[..|sleeps| - 1]) + sleeps[|sleeps| - 1]
  }

  lemma OneMoreDoubling(base: nat, p: nat)
    ensures base * (p - 1) + base * p == base * (2 * p - 1)
  {
  }

  /** Doubling sleeps add up to one less than the next power. */
  lemma {:induction false} DoublingTotal(sleeps: seq<nat>, base: nat)
    requires forall i :: 0 <= i < |sleeps| ==> sleeps[i] == base * Pow2(i)
    ensures Total(sleeps) == base * (Pow2(|sleeps|) - 1)
  {
    if sleeps != [] {
      var n := |sleeps| - 1;
      DoublingTotal(sleeps[..n], base);
      OneMoreDoubling(base, Pow2(n));
    }
  }

  /**
    Runs the operation until it succeeds, fails for good, or has been retried `maxRetries` times.
    `outcomes(i)` is what run i does.
   */
  method ExecuteWithRetry<T>(outcomes: nat -> Run<T>, maxRetries: nat, retryDelayMs: nat)
    returns (r: Run<T>, runs: nat, sleeps: seq<nat>)
    ensures 1 <= runs <= maxRetries + 1 && r == outcomes(runs - 1)
    ensures forall i :: 0 <= i < runs - 1 ==> Transient(outcomes(i))
    ensures Transient(r) ==> runs == maxRetries + 1
    ensures |sleeps| == runs - 1 && forall i :: 0 <= i < |sleeps| ==> sleeps[i] == retryDelayMs * Pow2(i)
    ensures Total(sleeps) == retryDelayMs * (Pow2(runs - 1) - 1)
  {
    hide Pow2, Total, Retryable, CalculateBackoffDelay;
    var attempt := 0;
    var maxDelayMs := retryDelayMs * Pow2(maxRetries);
    sleeps := [];
    while true
      invariant attempt <= maxRetries && |sleeps| == attempt
      invariant forall i :: 0 <= i < attempt ==> Transient(outcomes(i))
      invariant forall i :: 0 <= i < attempt ==> sleeps[i] == retryDelayMs * Pow2(i)
      decreases maxRetries - attempt
    {
      r, runs := outcomes(attempt), attempt + 1;
      if r.Ok? || !Retryable(r.error) || attempt >= maxRetries {
        DoublingTotal(sleeps, retryDelayMs);
        return;
      }
      CapNeverBites(attempt, retryDelayMs, maxRetries);
      sleeps := sleeps + [CalculateBackoffDelay(attempt + 1, retryDelayMs, maxDelayMs)];
      attempt := attempt + 1;
    }
  }

  /**
    The operation is given up as exhausted exactly when every one of its maxRetries + 1 runs fails
    transiently, after sleeping retryDelayMs * (2^maxRetries - 1) in all.
   */
  lemma ExhaustedExactly<T>(outcomes: nat -> Run<T>, maxRetries: nat, retryDelayMs: nat, r: Run<T>,
      runs: nat, sleeps: seq<nat>)
    requires 1 <= runs <= maxRetries + 1 && r == outcomes(runs - 1)
    requires forall i :: 0 <= i < runs - 1 ==> Transient(outcomes(i))
    requires Transient(r) ==> runs == maxRetries + 1
    requires |sleeps| == runs - 1 && forall i :: 0 <= i < |sleeps| ==> sleeps[i] == retryDelayMs * Pow2(i)
    ensures Transient(r) <==> forall i :: 0 <= i <= maxRetries ==> Transient(outcomes(i))
    ensures Transient(r) ==> Total(sleeps) == retryDelayMs * (Pow2(maxRetries) - 1)
  {
    hide *;
    DoublingTotal(sleeps, retryDelayMs);
    if Transient(r) {
      forall i | 0 <= i <= maxRetries ensures Transient(outcomes(i)) {
        assert i == runs - 1 || i < runs - 1;
      }
    }
  }
}
