/**
 * The configuration record and the step run after loading it, which
 * derives a symmetric PID output clamp from the heading bound and the
 * steering reduction ratio.
 */
module Conf {
  import Pid

  datatype Configuration = Configuration(
    Bounds: real,                      // heading error bound, degrees
    SteeringReductionRatio: real,      // motor turns per steering-wheel turn
    MaxPIDOutputLimits: real,          // degrees
    MinPIDOutputLimits: real,          // degrees
    P: real,
    I: real,
    D: real,
    N: real,
    GpsSerialPort: string,
    NoInputMessageTimeoutInSeconds: int,
    MinimumSpeedInKnots: real)

  /** The default bound, and the default ratio 380/25 as integer division. */
  const DefaultBounds: real := 25.0
  const DefaultSteeringReductionRatio: real := (380 / 25) as real

  function PostLoadConfiguration(configuration: Configuration): (r: Configuration)
    ensures r.MaxPIDOutputLimits == configuration.Bounds * configuration.SteeringReductionRatio
    ensures r.MinPIDOutputLimits == -r.MaxPIDOutputLimits
    // every other field is carried over
    ensures r.(MaxPIDOutputLimits := 0.0, MinPIDOutputLimits := 0.0)
         == configuration.(MaxPIDOutputLimits := 0.0, MinPIDOutputLimits := 0.0)
  {
    configuration.(
      MaxPIDOutputLimits := configuration.Bounds * configuration.SteeringReductionRatio,
      MinPIDOutputLimits := -(configuration.Bounds) * configuration.SteeringReductionRatio)
  }

  /** With a non-negative bound and ratio the clamp contains 0, so it is non-empty. */
  lemma DerivedLimitsAreOrdered(configuration: Configuration)
    requires configuration.Bounds >= 0.0 && configuration.SteeringReductionRatio >= 0.0
    ensures var r := PostLoadConfiguration(configuration);
            r.MinPIDOutputLimits <= 0.0 <= r.MaxPIDOutputLimits
  {
  }

  /** Running the step again changes nothing. */
  lemma PostLoadIsIdempotent(configuration: Configuration)
    ensures PostLoadConfiguration(PostLoadConfiguration(configuration)) == PostLoadConfiguration(configuration)
  {
  }

  /** With the defaults (bound 25, ratio 15) the minimum is -375. */
  lemma DefaultLimits(configuration: Configuration)
    requires configuration.Bounds == DefaultBounds
    requires configuration.SteeringReductionRatio == DefaultSteeringReductionRatio
    ensures PostLoadConfiguration(configuration).MinPIDOutputLimits == -375.0
    ensures PostLoadConfiguration(configuration).MaxPIDOutputLimits == 375.0
  {
  }

  /** A controller built from the derived limits never leaves them. */
  lemma DerivedLimitsBoundController(configuration: Configuration, raw: real)
    requires configuration.Bounds >= 0.0 && configuration.SteeringReductionRatio >= 0.0
    ensures var r := PostLoadConfiguration(configuration);
            r.MinPIDOutputLimits <= Pid.Saturate(raw, r.MinPIDOutputLimits, r.MaxPIDOutputLimits) <= r.MaxPIDOutputLimits
  {
    DerivedLimitsAreOrdered(configuration);
  }
}
