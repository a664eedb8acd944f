/** The replica decisions: pods for a load, the hybrid user-based decision and
    the resource-threshold override. */
module Decision {
  import opened Arith
  import opened ScalerConfig
  import opened Trend

  /** Ceiling of load / divisor, computed as the negated floor of the negated
      quotient: the smallest whole number of divisors that covers the load
      (one divisor fewer, q * divisor - divisor, falls short of it). */
  function CeilDiv(load: real, divisor: int): (q: int)
    requires divisor > 0
    ensures load <= q as real * divisor as real
    ensures q as real * divisor as real < load + divisor as real
  {
    var k := divisor as real;
    var q := -(-load / k).Floor;
    NegateDiv(load, k);
    NegatedFloor(load / k);
    MulDivCancel(load, k);
    RoundedUpQuotient(load, k, load / k, q as real);
    q
  }

  /** A larger load never needs fewer divisors. */
  lemma CeilDivMonotone(lo: real, hi: real, divisor: int)
    requires divisor > 0 && lo <= hi
    ensures CeilDiv(lo, divisor) <= CeilDiv(hi, divisor)
  {
    var k := divisor as real;
    var below := CeilDiv(lo, divisor) as real;
    var above := CeilDiv(hi, divisor) as real;
    RoundedUpOrder(lo, hi, k, below, above);
  }

  /** Replicas needed for `load` users, clamped to [minPods, maxPods]. */
  function PodsForLoad(c: Config, load: real): (pods: int)
    requires c.Valid()
    ensures c.minPods <= pods <= c.maxPods
    // below the cap, the replicas serve the whole load ...
    ensures pods < c.maxPods ==> load <= pods as real * c.usersPerPod as real
    // ... and above the floor, one replica fewer would not
    ensures pods > c.minPods ==> (pods - 1) as real * c.usersPerPod as real < load
  {
    Max(c.minPods, Min(c.maxPods, CeilDiv(load, c.usersPerPod)))
  }

  /** No load asks for the minimum. */
  lemma PodsForNoLoad(c: Config)
    requires c.Valid() && c.minPods >= 0
    ensures PodsForLoad(c, 0.0) == c.minPods
  {
  }

  /** More load never asks for fewer replicas. */
  lemma PodsForLoadMonotone(c: Config, lo: real, hi: real)
    requires c.Valid()
    requires lo <= hi
    ensures PodsForLoad(c, lo) <= PodsForLoad(c, hi)
  {
    CeilDivMonotone(lo, hi, c.usersPerPod);
  }

  /** The load the trend projects one window ahead of `users`; the trend
      of a window that is not yet full is 0. */
  function ProjectedLoad(c: Config, window: seq<real>, users: real): (load: real)
    requires c.Valid()
    ensures PredictTrend(c, window) >= 0.0 ==> users <= load
    ensures PredictTrend(c, window) <= 0.0 ==> load <= users
  {
    var trend := PredictTrend(c, window);
    MulMonotone(0.0, trend, c.predictionWindow as real);
    MulMonotone(trend, 0.0, c.predictionWindow as real);
    users + trend * c.predictionWindow as real
  }

  /** Replicas needed for the load the trend projects one window ahead, or
      the direct demand while the window is not yet full. */
  function RegressionPods(c: Config, window: seq<real>, users: real): (pods: int)
    requires c.Valid()
    ensures c.minPods <= pods <= c.maxPods
    ensures |window| < c.predictionWindow ==> pods == PodsForLoad(c, users)
  {
    if |window| >= c.predictionWindow then PodsForLoad(c, ProjectedLoad(c, window, users))
    else PodsForLoad(c, users)
  }

  /** A rising trend never asks for less than the direct demand, and a
      falling one never for more. */
  lemma RegressionFollowsTrend(c: Config, window: seq<real>, users: real)
    requires c.Valid()
    ensures PredictTrend(c, window) >= 0.0 ==> PodsForLoad(c, users) <= RegressionPods(c, window, users)
    ensures PredictTrend(c, window) <= 0.0 ==> RegressionPods(c, window, users) <= PodsForLoad(c, users)
  {
    if |window| >= c.predictionWindow {
      var load := ProjectedLoad(c, window, users);
      if users <= load {
        PodsForLoadMonotone(c, users, load);
      }
      if load <= users {
        PodsForLoadMonotone(c, load, users);
      }
    }
  }

  /** The user-based decision: the larger of direct and trend-projected
      demand, plus a capped boost when the latest sample is a spike. */
  function HybridScaling(c: Config, window: seq<real>, users: real): (desired: int)
    requires c.Valid()
    ensures c.minPods <= desired <= c.maxPods
    // never below direct demand, so a falling trend cannot scale down ...
    ensures PodsForLoad(c, users) <= desired
    // ... and never below the trend-projected demand either
    ensures RegressionPods(c, window, users) <= desired
  {
    var direct := PodsForLoad(c, users);
    var base := Max(direct, RegressionPods(c, window, users));
    if DetectSpike(c, window) then Min(base + c.scaleIncrement, c.maxPods) else base
  }

  /** Without a spike the decision is exactly the larger demand, and only
      direct demand while the window is filling up. */
  lemma HybridWithoutSpike(c: Config, window: seq<real>, users: real)
    requires c.Valid()
    requires !DetectSpike(c, window)
    ensures HybridScaling(c, window, users)
         == Max(PodsForLoad(c, users), RegressionPods(c, window, users))
    ensures |window| < c.predictionWindow ==> HybridScaling(c, window, users) == PodsForLoad(c, users)
  {
  }

  /** On a spike the larger demand is raised by the increment, but never past
      the maximum. */
  lemma HybridSpikeBoost(c: Config, window: seq<real>, users: real)
    requires c.Valid()
    requires DetectSpike(c, window)
    ensures HybridScaling(c, window, users)
         == Min(Max(PodsForLoad(c, users), RegressionPods(c, window, users)) + c.scaleIncrement, c.maxPods)
    ensures HybridScaling(c, window, users) >= Min(PodsForLoad(c, users) + c.scaleIncrement, c.maxPods)
  {
  }

  /** With the default configuration, a full window rising by 3 users a tick
      and 12 current users projects 12 + 3 * 5 = 27 users, hence 9 pods,
      although 12 users alone need only 4. */
  lemma HybridRisingExample()
    ensures PodsForLoad(Defaults, 12.0) == 4
    ensures HybridScaling(Defaults, [0.0, 3.0, 6.0, 9.0, 12.0], 12.0) == 9
  {
    var w := [0.0, 3.0, 6.0, 9.0, 12.0];
    TrendOfLine(Defaults, w, 0.0, 3.0);
    assert !DetectSpike(Defaults, w);
    assert PodsForLoad(Defaults, 27.0) == 9;
  }

  /** With the default threshold of 50 users, a window ending 10, 70 is a
      spike and the decision gets the boost of 5. */
  lemma HybridSpikeExample(window: seq<real>, users: real)
    requires |window| >= 2
    requires window[|window| - 2] == 10.0 && window[|window| - 1] == 70.0
    ensures DetectSpike(Defaults, window)
    ensures HybridScaling(Defaults, window, users)
         == Min(Max(PodsForLoad(Defaults, users), RegressionPods(Defaults, window, users)) + 5, 400)
  {
  }

  // ---------------------------------------------------------------------
  // Resource override

  /** A metrics reply: named readings; a missing reading counts as 0. */
  type Metrics = map<string, real>

  const CpuKey: string := "total_cpu_usage_mCPU"
  const MemoryKey: string := "total_memory_usage_MiB"

  function Reading(metrics: Metrics, key: string): (value: real)
    ensures key in metrics ==> value == metrics[key]
    ensures key !in metrics ==> value == 0.0
  {
    if key in metrics then metrics[key] else 0.0
  }

  /** CPU or memory use is strictly above its threshold. */
  function ThresholdExceeded(c: Config, metrics: Metrics): (exceeded: bool)
    // with non-negative thresholds only a reading that is present can
    // trigger the override
    ensures exceeded && c.cpuThreshold >= 0.0 && c.memoryThreshold >= 0.0 ==>
      CpuKey in metrics || MemoryKey in metrics
    ensures !exceeded <==>
      Reading(metrics, CpuKey) <= c.cpuThreshold && Reading(metrics, MemoryKey) <= c.memoryThreshold
  {
    Reading(metrics, CpuKey) > c.cpuThreshold || Reading(metrics, MemoryKey) > c.memoryThreshold
  }

  /** Readings other than CPU and memory, such as an "error" entry, do not
      affect the breach test. */
  lemma ThresholdIgnoresOtherKeys(c: Config, metrics: Metrics, key: string, v: real)
    requires key != CpuKey && key != MemoryKey
    ensures ThresholdExceeded(c, metrics[key := v]) == ThresholdExceeded(c, metrics)
  {
  }

  /** The override as the source computes it: on a breach, the larger of
      current + increment and the maximum, so every breach lands at or above
      maxPods. */
  function ResourceBasedScaling(c: Config, metrics: Metrics, currentReplicas: int): (r: int)
    requires c.Valid()
    ensures currentReplicas <= r
    ensures !ThresholdExceeded(c, metrics) ==> r == currentReplicas
    ensures ThresholdExceeded(c, metrics) ==>
      && c.maxPods <= r
      && currentReplicas + c.scaleIncrement <= r
      && (r == c.maxPods <==> currentReplicas + c.scaleIncrement <= c.maxPods)
      && (r == c.maxPods || r == currentReplicas + c.scaleIncrement)
  {
    if ThresholdExceeded(c, metrics) then Max(currentReplicas + c.scaleIncrement, c.maxPods)
    else currentReplicas
  }

  /** Readings that are absent are taken as 0, so a reply without either
      reading only triggers the override when a threshold is negative. */
  lemma MissingReadingsAreZero(c: Config, metrics: Metrics, currentReplicas: int)
    requires c.Valid()
    requires CpuKey !in metrics && MemoryKey !in metrics
    ensures ThresholdExceeded(c, metrics) <==> c.cpuThreshold < 0.0 || c.memoryThreshold < 0.0
    ensures c.cpuThreshold >= 0.0 && c.memoryThreshold >= 0.0 ==>
      ResourceBasedScaling(c, metrics, currentReplicas) == currentReplicas
  {
  }

  /** The override does not respect maxPods: with the defaults, a CPU breach
      at 398 replicas asks for 403 > 400, and a memory breach at 2 replicas
      jumps straight to 400. */
  lemma ResourceOverrideEscapesMax()
    ensures ResourceBasedScaling(Defaults, map[CpuKey := 800.0], 398) == 403 > Defaults.maxPods
    ensures ResourceBasedScaling(Defaults, map[MemoryKey := 301.0], 2) == Defaults.maxPods
  {
    assert CpuKey != MemoryKey;
  }
}
