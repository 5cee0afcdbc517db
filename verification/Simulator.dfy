/** The deterministic timing of the downstream simulator
    (backend/downstream_sim/app.py:205-320). */
module Simulator {

  /** An environment variable: absent, present but not a number, or a number. */
  datatype EnvVar = Unset | NotANumber | Number(value: real)

  /** _read_positive_float_env of the simulator, which never raises. */
  function ReadPositive(env: EnvVar, default: real): (v: real)
    requires 0.0 < default
    ensures 0.0 < v
    ensures v == default || env == Number(v)
  {
    match env
    case Unset => default
    case NotANumber => default
    case Number(x) => if x > 0.0 then x else default
  }

  datatype DelayEnv = DelayEnv(minimum: EnvVar, maximum: EnvVar, fixed: EnvVar, default: real)

  datatype Range = Range(low: real, high: real)

  /** _read_delay_range. */
  function ReadDelayRange(env: DelayEnv): (r: Range)
    requires 0.0 < env.default
    ensures 0.0 < r.low <= r.high
  {
    var fixed := ReadPositive(env.fixed, env.default);
    if env.minimum.Unset? && env.maximum.Unset? then Range(fixed, fixed)
    else
      var low := ReadPositive(env.minimum, fixed);
      var high := ReadPositive(env.maximum, low);
      if high < low then Range(low, low) else Range(low, high)
  }

  function Jitter(unit: real, width: real): (j: real)
    requires 0.0 <= unit <= 1.0 && 0.0 <= width
    ensures 0.0 <= j <= width
  {
    assert 0.0 <= (1.0 - unit) * width;
    unit * width
  }

  /** _deterministic_delay_seconds, where `unit` is the hash of salt and order id mapped to
      the unit interval. */
  function Delay(env: DelayEnv, unit: real): (d: real)
    requires 0.0 < env.default && 0.0 <= unit <= 1.0
    ensures ReadDelayRange(env).low <= d <= ReadDelayRange(env).high
  {
    var r := ReadDelayRange(env);
    if r.low == r.high then r.low
    else
      r.low + Jitter(unit, r.high - r.low)
  }

  /** Configuration of one simulator phase for one order. */
  datatype SimPhase = SimPhase(env: DelayEnv, unit: real, retryAfter: real) {
    predicate Valid() {
      0.0 < env.default && 0.0 <= unit <= 1.0
    }
  }

  datatype Answer = ReadyNow | NotYet(retryAfter: real)

  /** _delayed_status_response at simulator time `now`. */
  function DelayedStatus(phase: SimPhase, startedAt: real, now: real): Answer
    requires phase.Valid()
  {
    if now >= startedAt + Delay(phase.env, phase.unit) then ReadyNow else NotYet(phase.retryAfter)
  }

  /** The answers of one phase of one order switch once, from "not yet" to ready, no earlier
      than the low end of the configured range and no later than its high end. */
  lemma AnswersSwitchOnce(phase: SimPhase, startedAt: real, now: real, later: real)
    requires phase.Valid() && now <= later
    ensures DelayedStatus(phase, startedAt, now).ReadyNow? ==> DelayedStatus(phase, startedAt, later).ReadyNow?
    ensures now < startedAt + ReadDelayRange(phase.env).low ==> DelayedStatus(phase, startedAt, now).NotYet?
    ensures startedAt + ReadDelayRange(phase.env).high <= now ==> DelayedStatus(phase, startedAt, now).ReadyNow?
  {
  }

  /** A misordered range behaves as the fixed minimum; without either bound the fixed delay
      decides. */
  lemma DegenerateRanges(env: DelayEnv, unit: real)
    requires 0.0 < env.default && 0.0 <= unit <= 1.0
    ensures env.minimum.Unset? && env.maximum.Unset? ==> Delay(env, unit) == ReadPositive(env.fixed, env.default)
    ensures env.minimum.Number? && env.maximum.Number? && 0.0 < env.maximum.value < env.minimum.value ==>
              Delay(env, unit) == env.minimum.value
  {
  }

  /** The delay of an order is the point of its unit hash in the range between the two bounds:
      a valid minimum, or else the fixed delay; a valid maximum not below it, or else the same. */
  lemma DelayInterpolates(env: DelayEnv, unit: real)
    requires 0.0 < env.default && 0.0 <= unit <= 1.0
    ensures var fixed := if env.fixed.Number? && 0.0 < env.fixed.value then env.fixed.value else env.default;
            var low := if env.minimum.Number? && 0.0 < env.minimum.value then env.minimum.value else fixed;
            var high := if env.maximum.Number? && low < env.maximum.value then env.maximum.value else low;
            Delay(env, unit) == if env.minimum.Unset? && env.maximum.Unset? then fixed else low + unit * (high - low)
  {
  }

  /** The answer is ready exactly from that delay after the start on; until then it carries the
      configured retry hint. */
  lemma AnswerTime(phase: SimPhase, startedAt: real, now: real)
    requires phase.Valid()
    ensures DelayedStatus(phase, startedAt, now) ==
            if startedAt + Delay(phase.env, phase.unit) <= now then ReadyNow else NotYet(phase.retryAfter)
  {
  }
}
