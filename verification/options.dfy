/** Option defaulting for the readiness poller (acoustic.js
    `whenCustomizationReady`, lines 59-65): `extend({interval: 5000,
    times: 30}, params)` — a caller-supplied value replaces the default, an
    absent one leaves it. */
module PollOptions {
  import opened Wrappers

  const DefaultInterval: nat := 5000
  const DefaultTimes: nat := 30

  /** The parameters a caller passes. Only the fields the poller reads are
      kept; `None` is a property the caller did not set. */
  datatype Params = Params(customizationId: string, interval: Option<nat>, times: Option<nat>)

  /** The options handed to the retry helper: milliseconds between attempts
      and the maximum number of attempts. */
  datatype Options = Options(interval: nat, times: nat)

  /** `extend(defaults, params)` restricted to `interval` and `times`. */
  function Resolve(p: Params): (o: Options)
    ensures p.interval.None? ==> o.interval == DefaultInterval
    ensures p.times.None? ==> o.times == DefaultTimes
    ensures p.interval.Some? ==> o.interval == p.interval.value
    ensures p.times.Some? ==> o.times == p.times.value
  {
    Options(p.interval.GetOr(DefaultInterval), p.times.GetOr(DefaultTimes))
  }

  /** The parameters `trainAcousticModel` passes: only the interval is set. */
  function TrainingParams(acousticModelId: string): Params {
    Params(acousticModelId, Some(10000), None)
  }

  /** `trainAcousticModel` waits 10 seconds between attempts and keeps the
      default budget of 30 attempts. */
  lemma TrainingOptions(acousticModelId: string)
    ensures Resolve(TrainingParams(acousticModelId)) == Options(10000, 30)
  {
  }

  /** Resolving is idempotent: feeding the resolved options back in as
      explicit parameters changes nothing. */
  lemma ResolveIdempotent(p: Params)
    ensures var o := Resolve(p);
            Resolve(Params(p.customizationId, Some(o.interval), Some(o.times))) == o
  {
  }
}
