/** Worker settings in ticks, and the two delay rules of backend/worker/tasks.py. */
module Settings {
  import opened Optional
  import opened Rows

  /** `tick` is the least the clock moves between two steps: 0 is a clock that may stand
      still, 1 a strictly increasing one. `second` is one second in ticks. */
  datatype Tuning = Tuning(
    tick: nat,
    second: int,
    retryBase: int,
    retryCap: int,
    readyInitial: int,
    readyInterval: int,
    readyDeadline: int,
    deliveryInitial: int,
    deliveryInterval: int,
    deliveryDeadline: int,
    unsupportedDelay: int,
    maxAttempts: int)
  {
    /** Every duration setting must be positive, as _read_positive_float_env enforces, and
        the max_attempts column has a positive check constraint. */
    predicate Valid() {
      && 0 < second && 0 < retryBase && 0 < retryCap
      && 0 < readyInitial && 0 < readyInterval && 0 < readyDeadline
      && 0 < deliveryInitial && 0 < deliveryInterval && 0 < deliveryDeadline
      && 0 < unsupportedDelay && 0 < maxAttempts
    }
  }

  const DEFAULTS := Tuning(1, 1, 5, 60, 2, 2, 60, 3, 3, 120, 30, 5)

  type Config = c: Tuning | c.Valid() witness DEFAULTS

  const LEASE_SECONDS := 30
  const FALLBACK_WINDOW_SECONDS := 60

  function Min(a: int, b: int): int {
    if a <= b then a else b
  }

  function Max(a: int, b: int): int {
    if a <= b then b else a
  }

  function Lease(cfg: Config): (d: int)
    ensures 0 < d
  {
    LEASE_SECONDS * cfg.second
  }

  function Pow2(n: nat): (p: int)
    ensures 1 <= p
  {
    if n == 0 then 1 else 2 * Pow2(n - 1)
  }

  /** _task_retry_delay_seconds: the wait after a failure when `attempts` were already
      recorded. */
  function RetryDelay(cfg: Config, attempts: int): (d: int)
    ensures 0 < d <= cfg.retryCap
  {
    assert 0 < cfg.retryBase * Pow2(Max(attempts, 0)) by {
      PositiveProduct(cfg.retryBase, Pow2(Max(attempts, 0)));
    }
    Min(cfg.retryBase * Pow2(Max(attempts, 0)), cfg.retryCap)
  }

  lemma PositiveProduct(a: int, b: int)
    requires 0 < a && 0 < b
    ensures 0 < a * b
  {
  }

  /** _valid_positive_number: a hint is kept only when positive. */
  function ValidHint(raw: Option<int>): (hint: Option<int>)
    ensures hint.Some? ==> 0 < hint.value
  {
    match raw
    case Some(v) => if v > 0 then Some(v) else None
    case None => None
  }

  /** `retry_after_seconds or <fallback>`. */
  function HintOr(raw: Option<int>, fallback: int): (d: int)
    requires 0 < fallback
    ensures 0 < d
    ensures d == raw.GetOr(fallback) || (d == fallback && raw.Some? && raw.value <= 0)
  {
    ValidHint(raw).GetOr(fallback)
  }

  /** _bounded_ready_check_next_run_at and _bounded_delivery_check_next_run_at: the next
      poll, capped so that the deadline still gets one last check. */
  function BoundedPoll(now: Time, delay: int, deadline: Time): (next: Time)
    requires 0 < delay
    ensures next <= deadline && next <= now + delay
    ensures next == deadline || next == now + delay
    ensures now < deadline ==> now < next
  {
    Min(now + delay, deadline)
  }
}
