/** Process-wide configuration of the scaler, read once from the environment
    at start-up and never changed afterwards. */
module ScalerConfig {

  datatype Config = Config(
    predictionWindow: int,   // samples kept for trend analysis
    spikeThreshold: real,    // users; a jump strictly larger than this is a spike
    usersPerPod: int,        // users one replica can serve
    minPods: int,
    maxPods: int,
    scaleIncrement: int,     // extra replicas added on a spike or resource breach
    cpuThreshold: real,      // mCPU
    memoryThreshold: real    // MiB
  ) {
    /** The assumptions every decision step relies on. */
    predicate Valid() {
      && usersPerPod > 0
      && minPods <= maxPods
      && scaleIncrement >= 0
      && predictionWindow >= 2
    }
  }

  /** The values used when no environment variable overrides them. */
  const Defaults: Config := Config(
    predictionWindow := 5,
    spikeThreshold := 50.0,
    usersPerPod := 3,
    minPods := 2,
    maxPods := 400,
    scaleIncrement := 5,
    cpuThreshold := 700.0,
    memoryThreshold := 300.0
  )
}
