/**
 * The helpers of nemo_guardrails_cai/utils.py: the `retry_with_backoff` decorator's
 * wrapper loop and `validate_config_path`. The wrapped function is an oracle giving
 * the outcome of each attempt; the sleeps are returned as the list of delays slept,
 * and the file system is a pair of predicates over paths.
 */
module Utils {
  import opened Wrappers
  import PurePath

  /** What one call of the wrapped function does. */
  datatype Attempt<T, E> = Returned(value: T) | Raised(error: E)

  /** How the wrapper ends. */
  datatype Outcome<T, E> =
    | Value(value: T)      // an attempt returned
    | Propagated(error: E) // an attempt raised an exception outside the caught tuple
    | Reraised(error: E)   // every attempt raised a caught exception; the last one is re-raised
    | RaiseNone            // no attempt was made (`max_retries < 0`), so `raise None` fails

  /** `initial_delay * backoff_factor ** k` */
  function Delay(initialDelay: real, factor: real, k: nat): real {
    if k == 0 then initialDelay else Delay(initialDelay, factor, k - 1) * factor
  }

  /** Attempt `i` failed with an exception the decorator catches. */
  predicate CaughtFailure<T, E>(call: nat -> Attempt<T, E>, caught: E -> bool, i: nat) {
    call(i).Raised? && caught(call(i).error)
  }

  /** The wrapper `retry_with_backoff(max_retries, initial_delay, backoff_factor,
      exceptions)` puts around a function. `call(i)` is what the `i`-th call does and
      `caught(e)` whether `e` is an instance of the `exceptions` tuple.
      It calls until an attempt returns, raises an uncaught exception, or
      `max_retries + 1` attempts have failed, sleeping between attempts only. */
  method RetryWithBackoff<T, E>(maxRetries: int, initialDelay: real, factor: real,
                                caught: E -> bool, call: nat -> Attempt<T, E>)
    returns (outcome: Outcome<T, E>, calls: nat, sleeps: seq<real>)
    ensures maxRetries < 0 <==> calls == 0
    ensures maxRetries < 0 <==> outcome.RaiseNone?
    ensures calls <= maxRetries + 1 || calls == 0
    ensures forall i :: 0 <= i < calls - 1 ==> CaughtFailure(call, caught, i)
    ensures outcome.Value? ==> call(calls - 1) == Returned(outcome.value)
    ensures outcome.Propagated? ==> call(calls - 1) == Raised(outcome.error) && !caught(outcome.error)
    ensures outcome.Reraised? ==>
      calls == maxRetries + 1 && call(calls - 1) == Raised(outcome.error) && caught(outcome.error)
    ensures calls > 0 && CaughtFailure(call, caught, calls - 1) ==> outcome.Reraised?
    ensures |sleeps| == if calls == 0 then 0 else calls - 1
    ensures forall k :: 0 <= k < |sleeps| ==> sleeps[k] == Delay(initialDelay, factor, k)
  {
    var delay := initialDelay;
    var last: Option<E> := None;
    calls := 0;
    sleeps := [];
    var attempt := 0;
    while attempt < maxRetries + 1
      invariant attempt == 0 || attempt <= maxRetries
      invariant calls == attempt
      invariant forall i :: 0 <= i < attempt ==> CaughtFailure(call, caught, i)
      invariant last.None? <==> attempt == 0
      invariant last.Some? ==> call(attempt - 1) == Raised(last.value)
      invariant |sleeps| == attempt
      invariant forall k :: 0 <= k < |sleeps| ==> sleeps[k] == Delay(initialDelay, factor, k)
      invariant delay == Delay(initialDelay, factor, attempt)
    {
      var a := call(attempt);
      calls := calls + 1;
      match a {
        case Returned(v) =>
          return Value(v), calls, sleeps;
        case Raised(e) =>
          if !caught(e) {
            return Propagated(e), calls, sleeps;
          }
          last := Some(e);
          if attempt < maxRetries {
            sleeps := sleeps + [delay];
            delay := delay * factor;
          } else {
            outcome := Reraised(e);
            return;
          }
      }
      attempt := attempt + 1;
    }
    outcome := RaiseNone;
  }

  /** What `validate_config_path` reports: whether the path is usable, and the
      required files it warned about. */
  datatype Validation = Validation(valid: bool, warned: seq<string>)

  /** The files a configuration directory should hold. */
  const RequiredFiles: seq<string> := ["config.yml"]

  /** `path / name` */
  function Child(p: PurePath.Path, name: string): PurePath.Path {
    PurePath.Path(p.root, p.parts + [name])
  }

  /** The required files missing from directory `p`, in order. */
  function MissingFiles(present: PurePath.Path -> bool, p: PurePath.Path, names: seq<string>): (r: seq<string>)
    ensures forall f :: f in r <==> f in names && !present(Child(p, f))
  {
    if names == [] then []
    else
      var rest := MissingFiles(present, p, names[1..]);
      if present(Child(p, names[0])) then rest else [names[0]] + rest
  }

  /** `validate_config_path`: false for a path that does not exist or is not a
      directory; otherwise true, even when required files are missing (they are only
      warned about). */
  function ValidateConfigPath(present: PurePath.Path -> bool, isDir: PurePath.Path -> bool,
                              configPath: string): (v: Validation)
    ensures v.valid <==> present(PurePath.Parse(configPath)) && isDir(PurePath.Parse(configPath))
    ensures !v.valid ==> v.warned == []
    ensures v.valid ==> forall f :: f in v.warned <==>
      f in RequiredFiles && !present(Child(PurePath.Parse(configPath), f))
  {
    var path := PurePath.Parse(configPath);
    if !present(path) then Validation(false, [])
    else if !isDir(path) then Validation(false, [])
    else Validation(true, MissingFiles(present, path, RequiredFiles))
  }
}
