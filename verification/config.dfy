/** Start-up validation of the service's settings (src/broadcast-svc/main.go,
    `main`, before any task starts). Settings arrive already parsed. */
module Config {
  import opened Wrappers
  import opened RollingWindow

  /** An integer setting as read from the environment: not set (empty),
      set but not a decimal integer, or parsed. */
  datatype Setting = Unset | Malformed | Parsed(n: int)

  /** The settings the service reads at start-up. */
  datatype Env = Env(
    broadcastAddr: string,
    port: Setting,
    minInterval: Setting,
    maxInterval: Setting,
    avgSeconds: Setting,
    sampleInterval: Setting,
    custom: string)

  /** Why start-up stops; each is fatal. */
  datatype ConfigError =
    | MissingBroadcastAddr
    | MissingPort | InvalidPort
    | MissingMinInterval | InvalidMinInterval
    | MissingMaxInterval | InvalidMaxInterval
    | MinNotBelowMax
    | MissingAvgSeconds | InvalidAvgSeconds
    | InvalidSampleInterval
    | MissingCustom

  /** An accepted configuration. Intervals and periods are in seconds. */
  datatype Settings = Settings(
    broadcastAddr: string,
    port: int,
    minInterval: int,
    maxInterval: int,
    avgSeconds: int,
    sampleInterval: int,
    custom: string)
  {
    /** What the service relies on once it is running. */
    predicate Valid() {
      && broadcastAddr != ""
      && port > 0
      && 0 < minInterval < maxInterval
      && avgSeconds > 0
      && sampleInterval > 0
      && custom != ""
    }

    /** Capacity of each metric history. */
    function WindowCapacity(): Capacity
      requires Valid()
    {
      MaxSamples(avgSeconds, sampleInterval)
    }
  }

  /** Sampling period used when SAMPLE_INTERVAL is not set. */
  const DefaultSampleInterval := 5

  /** A required setting holding a positive integer. */
  predicate Positive(s: Setting) {
    s.Parsed? && s.n > 0
  }

  /** The checks `main` has passed by the time it reads each later setting. */
  predicate PortChecked(env: Env) {
    env.broadcastAddr != "" && Positive(env.port)
  }

  predicate MinChecked(env: Env) {
    PortChecked(env) && Positive(env.minInterval)
  }

  predicate MaxChecked(env: Env) {
    MinChecked(env) && Positive(env.maxInterval)
  }

  predicate OrderChecked(env: Env) {
    MaxChecked(env) && env.minInterval.n < env.maxInterval.n
  }

  predicate AvgChecked(env: Env) {
    OrderChecked(env) && Positive(env.avgSeconds)
  }

  predicate SampleChecked(env: Env) {
    AvgChecked(env) && (env.sampleInterval.Unset? || Positive(env.sampleInterval))
  }

  /** The settings, checked in the order `main` checks them; the first
      failing check decides the error. */
  function Validate(env: Env): (r: Result<Settings, ConfigError>)
    ensures r.Success? <==>
              && env.broadcastAddr != ""
              && Positive(env.port)
              && Positive(env.minInterval)
              && Positive(env.maxInterval)
              && env.minInterval.n < env.maxInterval.n
              && Positive(env.avgSeconds)
              && (env.sampleInterval.Unset? || Positive(env.sampleInterval))
              && env.custom != ""
    ensures r.Success? ==> r.value.Valid()
    ensures r.Success? ==>
              && r.value.broadcastAddr == env.broadcastAddr
              && r.value.port == env.port.n
              && r.value.minInterval == env.minInterval.n
              && r.value.maxInterval == env.maxInterval.n
              && r.value.avgSeconds == env.avgSeconds.n
              && r.value.custom == env.custom
    ensures r.Success? && env.sampleInterval.Unset? ==> r.value.sampleInterval == DefaultSampleInterval
    ensures r.Success? && env.sampleInterval.Parsed? ==> r.value.sampleInterval == env.sampleInterval.n
    // each error is reported exactly when every earlier check passed and its own failed
    ensures r == Failure(MissingBroadcastAddr) <==> env.broadcastAddr == ""
    ensures r == Failure(MissingPort) <==> env.broadcastAddr != "" && env.port.Unset?
    ensures r == Failure(InvalidPort) <==>
              env.broadcastAddr != "" && !env.port.Unset? && !Positive(env.port)
    ensures r == Failure(MissingMinInterval) <==> PortChecked(env) && env.minInterval.Unset?
    ensures r == Failure(InvalidMinInterval) <==>
              PortChecked(env) && !env.minInterval.Unset? && !Positive(env.minInterval)
    ensures r == Failure(MissingMaxInterval) <==> MinChecked(env) && env.maxInterval.Unset?
    ensures r == Failure(InvalidMaxInterval) <==>
              MinChecked(env) && !env.maxInterval.Unset? && !Positive(env.maxInterval)
    ensures r == Failure(MinNotBelowMax) <==>
              MaxChecked(env) && env.minInterval.n >= env.maxInterval.n
    ensures r == Failure(MissingAvgSeconds) <==> OrderChecked(env) && env.avgSeconds.Unset?
    ensures r == Failure(InvalidAvgSeconds) <==>
              OrderChecked(env) && !env.avgSeconds.Unset? && !Positive(env.avgSeconds)
    ensures r == Failure(InvalidSampleInterval) <==>
              AvgChecked(env) && !env.sampleInterval.Unset? && !Positive(env.sampleInterval)
    ensures r == Failure(MissingCustom) <==> SampleChecked(env) && env.custom == ""
  {
    if env.broadcastAddr == "" then Failure(MissingBroadcastAddr)
    else if env.port.Unset? then Failure(MissingPort)
    else if !Positive(env.port) then Failure(InvalidPort)
    else if env.minInterval.Unset? then Failure(MissingMinInterval)
    else if !Positive(env.minInterval) then Failure(InvalidMinInterval)
    else if env.maxInterval.Unset? then Failure(MissingMaxInterval)
    else if !Positive(env.maxInterval) then Failure(InvalidMaxInterval)
    else if env.minInterval.n >= env.maxInterval.n then Failure(MinNotBelowMax)
    else if env.avgSeconds.Unset? then Failure(MissingAvgSeconds)
    else if !Positive(env.avgSeconds) then Failure(InvalidAvgSeconds)
    else if !(env.sampleInterval.Unset? || Positive(env.sampleInterval)) then Failure(InvalidSampleInterval)
    else if env.custom == "" then Failure(MissingCustom)
    else
      var sampleInterval := if env.sampleInterval.Unset? then DefaultSampleInterval else env.sampleInterval.n;
      Success(Settings(env.broadcastAddr, env.port.n, env.minInterval.n, env.maxInterval.n,
                       env.avgSeconds.n, sampleInterval, env.custom))
  }

  /** The environment that spells out a configuration explicitly. */
  function EnvOf(c: Settings): Env {
    Env(c.broadcastAddr, Parsed(c.port), Parsed(c.minInterval), Parsed(c.maxInterval),
        Parsed(c.avgSeconds), Parsed(c.sampleInterval), c.custom)
  }

  /** Validation accepts exactly the valid configurations: every valid one is
      accepted unchanged when spelled out, and anything accepted is valid. */
  lemma ValidateAcceptsExactlyValid(c: Settings)
    ensures Validate(EnvOf(c)).Success? <==> c.Valid()
    ensures c.Valid() ==> Validate(EnvOf(c)) == Success(c)
  {
  }

  /** Leaving SAMPLE_INTERVAL unset is the same as setting it to 5. */
  lemma UnsetSampleIntervalIsFive(env: Env)
    requires env.sampleInterval.Unset?
    ensures Validate(env) == Validate(env.(sampleInterval := Parsed(DefaultSampleInterval)))
  {
  }
}
