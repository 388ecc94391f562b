/** The retry loop around a transaction: src/retry.ts. */
module Retry {
  import opened Prelude

  // A thrown value, by the two places an SQLSTATE can sit in it.
  datatype Error = Error(code: Option<string>, driverCode: Option<string>)
  datatype Attempt<T> = Ok(value: T) | Threw(error: Error)
  // `throw last` with nothing caught throws undefined.
  datatype Finished<T> = Returned(result: T, retries: nat) | Rethrew(error: Error) | ThrewUndefined

  function PgErrorCode(error: Error): Option<string> {
    if error.driverCode.Some? then error.driverCode else error.code
  }

  predicate IsRetryable(error: Error) {
    PgErrorCode(error) == Some("40001") || PgErrorCode(error) == Some("40P01")
  }

  // An error is retryable if and only if the code that decides - the driver's if it
  // has one, else the error's own - is a serialization failure or a deadlock.
  lemma RetryableIff(error: Error)
    ensures error.driverCode.Some? ==> (IsRetryable(error) <==> error.driverCode.value in {"40001", "40P01"})
    ensures error.driverCode.None? && error.code.Some? ==>
      (IsRetryable(error) <==> error.code.value in {"40001", "40P01"})
    ensures error.driverCode.None? && error.code.None? ==> !IsRetryable(error)
  {
  }

  predicate Final<T>(attempt: Attempt<T>) { attempt.Ok? || !IsRetryable(attempt.error) }

  // The number of attempts made: up to the first that is final, at most `most`.
  function Calls<T>(run: nat -> Attempt<T>, most: nat, from: nat): (n: nat)
    requires 1 <= from <= most
    ensures from <= n <= most
    ensures n == most || Final(run(n))
    ensures forall k :: from <= k < n ==> !Final(run(k))
    decreases most - from
  {
    if from == most || Final(run(from)) then from else Calls(run, most, from + 1)
  }

  function Pow2(n: nat): nat { if n == 0 then 1 else 2 * Pow2(n - 1) }

  const DEFAULT_ATTEMPTS: int := 8

  // `run(k)` is what the k-th call of fn does; `waited` adds up the backoff in ms.
  method WithSerializationRetry<T>(run: nat -> Attempt<T>, options: Option<int>)
    returns (finished: Finished<T>, calls: nat, waited: nat)
    ensures var most := if options.Some? then options.value else 8;
      if most < 1 then finished == ThrewUndefined && calls == 0 && waited == 0
      else
        && calls == Calls(run, most, 1)
        && waited == 10 * (Pow2(calls - 1) - 1)
        && finished == match run(calls) case Ok(v) => Returned(v, calls - 1) case Threw(e) => Rethrew(e)
  {
    var most := if options.Some? then options.value else DEFAULT_ATTEMPTS;
    var retries := 0;
    calls, waited := 0, 0;
    var attempt := 1;
    while attempt <= most
      invariant calls == attempt - 1 == retries
      invariant attempt <= most ==> Calls(run, most, attempt) == Calls(run, most, 1)
      invariant if most >= 1 then attempt <= most else attempt == 1
      invariant waited == 10 * (Pow2(retries) - 1)
      decreases most - attempt
    {
      calls := calls + 1;
      var outcome := run(attempt);
      if outcome.Ok? { return Returned(outcome.value, retries), calls, waited; }
      if !IsRetryable(outcome.error) || attempt == most { return Rethrew(outcome.error), calls, waited; }
      retries := retries + 1;
      waited := waited + 10 * Pow2(attempt - 1);
      attempt := attempt + 1;
    }
    return ThrewUndefined, calls, waited;
  }

  // The loop succeeds if and only if some attempt within the limit succeeds and
  // every one before it failed with a retryable code; its value is then the
  // value returned, and the retries are the failures before it.
  lemma SucceedsIff<T>(run: nat -> Attempt<T>, most: nat)
    requires most >= 1
    ensures Calls(run, most, 1) >= 1
    ensures run(Calls(run, most, 1)).Ok? <==>
      exists k :: 1 <= k <= most && run(k).Ok? && forall j :: 1 <= j < k ==> !Final(run(j))
  {
    var n := Calls(run, most, 1);
    if run(n).Ok? {
      assert 1 <= n <= most && run(n).Ok? && forall j :: 1 <= j < n ==> !Final(run(j));
    }
    if k :| 1 <= k <= most && run(k).Ok? && forall j :: 1 <= j < k ==> !Final(run(j)) {
      assert n == k;
    }
  }

  // It gives up only after `most` retryable failures; any other error stops it at once.
  lemma ThrowsIff<T>(run: nat -> Attempt<T>, most: nat)
    requires most >= 1
    ensures var n := Calls(run, most, 1);
      run(n).Threw? && IsRetryable(run(n).error) <==> forall j :: 1 <= j <= most ==> !Final(run(j))
  {
    var n := Calls(run, most, 1);
    if run(n).Threw? && IsRetryable(run(n).error) {
      assert n == most;
    }
  }
}
