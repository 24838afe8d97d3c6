/** The `retry_on_exception` decorator (src/core/retry_handler.py). The
    wrapped call is an oracle: `call(i)` is what the i-th invocation (from 0)
    returns or raises. The sleeps the wrapper performs are returned in order. */
module RetryHandler {
  import opened Common

  /** The decorator's parameters; `allowed` is the `allowed_exceptions` tuple. */
  datatype RetryConfig = RetryConfig(retries: int, delay: real, backoff: real, allowed: seq<ExcClass>)

  /** The decorator's defaults: 3 retries, 2 s, doubling, any `Exception`. */
  const DefaultConfig := RetryConfig(3, 2.0, 2.0, [Exception])

  /** `isinstance(e, allowed_exceptions)` */
  predicate Retryable(cfg: RetryConfig, e: Exc) {
    exists c :: c in cfg.allowed && IsInstance(e, c)
  }

  /** An attempt the wrapper catches and retries. */
  predicate AllowedFailure<T>(cfg: RetryConfig, o: Outcome<T>) {
    o.Raised? && Retryable(cfg, o.exc)
  }

  /** How many times `while _retries > 0` can run. */
  function Budget(cfg: RetryConfig): nat {
    if cfg.retries > 0 then cfg.retries else 0
  }

  /** The i-th sleep (from 0) of a schedule starting at `delay`: `delay * backoff^i`,
      computed as the wrapper does, by repeated `_delay *= backoff`. */
  function NthDelay(delay: real, backoff: real, i: nat): real
    decreases i
  {
    if i == 0 then delay else NthDelay(delay * backoff, backoff, i - 1)
  }

  /** The first `n` sleeps of a schedule starting at `delay`. */
  function Delays(delay: real, backoff: real, n: nat): (r: seq<real>)
    ensures |r| == n
    decreases n
  {
    if n == 0 then [] else [delay] + Delays(delay * backoff, backoff, n - 1)
  }

  /** Each sleep is the previous one times `backoff`. */
  lemma {:induction false} NthDelayStep(delay: real, backoff: real, i: nat)
    ensures NthDelay(delay, backoff, i + 1) == NthDelay(delay, backoff, i) * backoff
    decreases i
  {
    if i > 0 {
      NthDelayStep(delay * backoff, backoff, i - 1);
    }
  }

  lemma {:induction false} DelaysAt(delay: real, backoff: real, n: nat, i: nat)
    requires i < n
    ensures Delays(delay, backoff, n)[i] == NthDelay(delay, backoff, i)
    decreases i
  {
    if i > 0 {
      DelaysAt(delay * backoff, backoff, n - 1, i - 1);
    }
  }

  /** The schedule lists the sleeps in order: delay, delay*backoff, delay*backoff^2, ... */
  lemma DelaysAreGeometric(delay: real, backoff: real, n: nat)
    ensures forall i :: 0 <= i < n ==> Delays(delay, backoff, n)[i] == NthDelay(delay, backoff, i)
    ensures n > 0 ==> Delays(delay, backoff, n)[0] == delay
    ensures forall i :: 0 < i < n ==> Delays(delay, backoff, n)[i] == Delays(delay, backoff, n)[i - 1] * backoff
  {
    var r := Delays(delay, backoff, n);
    forall i | 0 <= i < n ensures r[i] == NthDelay(delay, backoff, i) {
      DelaysAt(delay, backoff, n, i);
    }
    forall i | 0 < i < n ensures r[i] == r[i - 1] * backoff {
      NthDelayStep(delay, backoff, i - 1);
    }
  }

  /** A schedule one sleep longer ends with the next sleep. */
  lemma {:induction false} DelaysSnoc(delay: real, backoff: real, n: nat)
    ensures Delays(delay, backoff, n + 1) == Delays(delay, backoff, n) + [NthDelay(delay, backoff, n)]
    decreases n
  {
    if n > 0 {
      DelaysSnoc(delay * backoff, backoff, n - 1);
    }
  }

  function FirstStopFrom<T>(cfg: RetryConfig, call: nat -> Outcome<T>, i: nat): (k: nat)
    requires i <= Budget(cfg)
    ensures i <= k <= Budget(cfg)
    ensures forall j :: i <= j < k ==> AllowedFailure(cfg, call(j))
    ensures k < Budget(cfg) ==> !AllowedFailure(cfg, call(k))
    decreases Budget(cfg) - i
  {
    if i == Budget(cfg) || !AllowedFailure(cfg, call(i)) then i
    else FirstStopFrom(cfg, call, i + 1)
  }

  /** The number of leading attempts, within the budget, that raise an
      allowed exception: the attempt after them (if inside the budget) is the
      one whose outcome the wrapper passes on. */
  function FirstStop<T>(cfg: RetryConfig, call: nat -> Outcome<T>): (k: nat)
    ensures k <= Budget(cfg)
    ensures forall j :: 0 <= j < k ==> AllowedFailure(cfg, call(j))
    ensures k < Budget(cfg) ==> !AllowedFailure(cfg, call(k))
  {
    FirstStopFrom(cfg, call, 0)
  }

  /** The three properties of `FirstStop` determine it. */
  lemma FirstStopUnique<T>(cfg: RetryConfig, call: nat -> Outcome<T>, k: nat)
    requires k <= Budget(cfg)
    requires forall j :: 0 <= j < k ==> AllowedFailure(cfg, call(j))
    requires k < Budget(cfg) ==> !AllowedFailure(cfg, call(k))
    ensures FirstStop(cfg, call) == k
  {
  }

  /** One allowed failure followed by an attempt that is not one: the loop
      stops at the second attempt. */
  lemma FirstStopAfterOne<T>(cfg: RetryConfig, call: nat -> Outcome<T>)
    requires Budget(cfg) >= 2
    requires AllowedFailure(cfg, call(0)) && !AllowedFailure(cfg, call(1))
    ensures FirstStop(cfg, call) == 1
  {
    FirstStopUnique(cfg, call, 1);
  }

  /** The generic exception raised once the budget is spent. */
  function TerminalError(name: string, retries: int): Exc {
    Exc(Exception, "Function `" + name + "` failed after " + IntToString(retries) + " retries.")
  }

  /** `wrapper(*args, **kwargs)`: `calls` is how many times the function was
      invoked, `sleeps` the delays slept, in order. A success or a
      non-retryable exception is passed on at once; every retryable failure,
      the last one included, is followed by a sleep; the budget and the delay
      start afresh on every call of the wrapper. */
  method Retry<T>(cfg: RetryConfig, name: string, call: nat -> Outcome<T>)
    returns (result: Outcome<T>, calls: nat, sleeps: seq<real>)
    ensures var k := FirstStop(cfg, call);
      && sleeps == Delays(cfg.delay, cfg.backoff, k)
      && (k < Budget(cfg) ==> result == call(k) && calls == k + 1)
      && (k == Budget(cfg) ==> result == Raised(TerminalError(name, cfg.retries)) && calls == k)
  {
    var retriesLeft := cfg.retries;
    var delay := cfg.delay;
    calls, sleeps := 0, [];
    while retriesLeft > 0
      invariant calls <= Budget(cfg) && retriesLeft == cfg.retries - calls
      invariant forall j :: 0 <= j < calls ==> AllowedFailure(cfg, call(j))
      invariant sleeps == Delays(cfg.delay, cfg.backoff, calls)
      invariant delay == NthDelay(cfg.delay, cfg.backoff, calls)
    {
      var attempt := call(calls);
      if attempt.Returned? {
        FirstStopUnique(cfg, call, calls);
        result, calls := attempt, calls + 1;
        return;
      }
      if !Retryable(cfg, attempt.exc) {
        FirstStopUnique(cfg, call, calls);
        result, calls := attempt, calls + 1;
        return;
      }
      retriesLeft := retriesLeft - 1;
      DelaysSnoc(cfg.delay, cfg.backoff, calls);
      sleeps := sleeps + [delay];
      NthDelayStep(cfg.delay, cfg.backoff, calls);
      delay := delay * cfg.backoff;
      calls := calls + 1;
    }
    FirstStopUnique(cfg, call, calls);
    result := Raised(TerminalError(name, cfg.retries));
  }

  /** A call that succeeds on attempt k (counting from 1) within the budget,
      after k-1 retryable failures, yields its result after exactly k-1 sleeps. */
  lemma SuccessAfterFailures<T>(cfg: RetryConfig, call: nat -> Outcome<T>, k: nat)
    requires 1 <= k <= Budget(cfg)
    requires forall j :: 0 <= j < k - 1 ==> AllowedFailure(cfg, call(j))
    requires call(k - 1).Returned?
    ensures FirstStop(cfg, call) == k - 1
    ensures |Delays(cfg.delay, cfg.backoff, FirstStop(cfg, call))| == k - 1
  {
    FirstStopUnique(cfg, call, k - 1);
  }

  /** A call that always raises a retryable exception is made `retries` times
      and slept after each time, the final one included. */
  lemma AlwaysFailingExhaustsBudget<T>(cfg: RetryConfig, call: nat -> Outcome<T>)
    requires forall j :: 0 <= j < Budget(cfg) ==> AllowedFailure(cfg, call(j))
    ensures FirstStop(cfg, call) == Budget(cfg)
    ensures |Delays(cfg.delay, cfg.backoff, FirstStop(cfg, call))| == Budget(cfg)
  {
    FirstStopUnique(cfg, call, Budget(cfg));
  }

  /** A non-retryable exception on the first attempt passes through with no sleep. */
  lemma NonRetryableFirstAttempt<T>(cfg: RetryConfig, call: nat -> Outcome<T>)
    requires cfg.retries > 0
    requires call(0).Raised? && !Retryable(cfg, call(0).exc)
    ensures FirstStop(cfg, call) == 0
    ensures Delays(cfg.delay, cfg.backoff, FirstStop(cfg, call)) == []
  {
    FirstStopUnique(cfg, call, 0);
  }
}
