# Replica autoscaler decision engine, in Dafny

This project models the decision core of a Kubernetes replica autoscaler
(`custom_scaler.py`). Each tick of its control loop takes a user-count
sample. It records the sample in a bounded history window and decides a
replica count from three inputs: the direct demand (users per pod, rounded
up and clamped to `[MIN_PODS, MAX_PODS]`), the demand projected by a
least-squares trend over the window, and a capped boost when the last two
samples differ by more than the spike threshold. It reconciles that count
against the deployment. Then an optional CPU/memory threshold override is
applied and reconciled as well.

Modules:

- `Arith`: integer `min`/`max` and the facts about real multiplication,
  division and rounding up that the proofs use.
- `ScalerConfig`: the configuration record, the validity assumptions
  (`USERS_PER_POD > 0`, `MIN_PODS <= MAX_PODS`, `SCALE_INCREMENT >= 0`,
  `PREDICTION_WINDOW >= 2`) and the default values.
- `Regression`: an exact least-squares slope over positions `0..n-1`.
- `HistoryWindow`: append with eviction of the oldest sample.
- `Trend`: the trend predictor and the spike detector.
- `Decision`: pods for a load, the hybrid decision and the resource override.
- `Reconciler`: apply-if-different against an abstract replica count.
- `ControlLoop`: one tick as a pure transition over (window, replicas), plus
  traces of several ticks.

Loads and the slope are exact `real` values standing in for Python floats.
The replica store is an integer. Each reconcile call is given a store
behaviour: it answers, the read fails, or the patch fails. A failure
changes nothing.

Behaviour kept as the code has it:

- The resource override computes `max(current + SCALE_INCREMENT, MAX_PODS)`.
  So any breach jumps to at least `MAX_PODS`, and the result exceeds
  `MAX_PODS` whenever `current + SCALE_INCREMENT > MAX_PODS`. The model keeps
  this formula. `Decision.ResourceOverrideEscapesMax` exhibits both effects
  with the defaults: 398 becomes 403, and 2 becomes 400. Because the
  override is applied to the hybrid decision, which never exceeds
  `MAX_PODS`, a breach that reaches the store leaves at most
  `MAX_PODS + SCALE_INCREMENT` replicas.
- The trend projection is active from the tick that fills the window. With
  default settings the loads 0, 3, 6, 9, 12 lead to the replica counts
  2, 2, 2, 3, 9. On the fifth sample the window is full. The trend of 3 users
  per tick then projects 12 + 3·5 = 27 users, which need 9 pods, while the
  12 current users alone would need 4 (`ControlLoop.RisingLoadTrace`).
- The fallback user estimate is only clamped at zero for the gauge. The
  value returned, and then pushed into the window, can be negative. The
  model therefore accepts any real sample.

## Model

| member | source | states |
|---|---|---|
| Decision.CeilDiv | custom_scaler.py:81 | `-(-x // k)` is the smallest integer q with q·k ≥ x: q·k ≥ x and q·k < x + k (one k fewer falls short), for any real x, negative included |
| Decision.CeilDivMonotone | custom_scaler.py:81 | a larger load never needs a smaller rounded-up quotient |
| Decision.PodsForLoad | custom_scaler.py:80-81 | the result lies in [MIN_PODS, MAX_PODS]; below MAX_PODS it covers the load (pods·USERS_PER_POD ≥ load); above MIN_PODS one pod fewer would not |
| Decision.PodsForNoLoad | custom_scaler.py:80-81 | a load of 0 gives MIN_PODS (for a non-negative MIN_PODS) |
| Decision.PodsForLoadMonotone | custom_scaler.py:80-81 | a larger load never gives fewer pods |
| HistoryWindow.Push | custom_scaler.py:144-146 | the new sample is last; below capacity the window only grows by that sample; at capacity the oldest sample is dropped and the rest keep their order; the length never exceeds the capacity |
| HistoryWindow.PushAllKeepsNewest | custom_scaler.py:141-146 | after any number of appends, the window is exactly the newest min(total, capacity) samples in arrival order |
| Regression.OlsSlope | custom_scaler.py:86-90 | stands for `LinearRegression().fit(X, y).coef_[0]` with X = 0..n−1: for two or more samples the slope solves the least-squares normal equation slope·Σ(x−x̄)² = Σ(x−x̄)(y−ȳ); fewer than two samples give 0 |
| Regression.SpreadPositive | custom_scaler.py:86-89 | with two or more points the variance of the positions is positive, so the slope is well defined |
| Regression.SlopeOfLine | custom_scaler.py:86-90 | on samples a, a+d, …, a+(n−1)d the least-squares slope is exactly d |
| Regression.SlopeIgnoresOffset | custom_scaler.py:86-90 | adding the same amount to every sample leaves the slope unchanged |
| Trend.PredictTrend | custom_scaler.py:83-85 | a window shorter than PREDICTION_WINDOW has trend 0 |
| Trend.TrendOfLine | custom_scaler.py:83-90 | a full window lying on a line with step d has trend d |
| Trend.TrendOfConstant | custom_scaler.py:83-90 | a constant window has trend 0 at any length |
| Trend.DetectSpike | custom_scaler.py:92-96 | a spike iff there are at least two samples and the last rose or dropped by strictly more than SPIKE_THRESHOLD relative to the one before |
| Trend.SpikeBoundary | custom_scaler.py:95-96 | a jump of exactly the threshold is not a spike; threshold + ε is a spike iff ε > 0 |
| Decision.ProjectedLoad | custom_scaler.py:102-103 | the load `current_users + trend * PREDICTION_WINDOW`: not below the current users for a non-negative trend, not above them for a non-positive one |
| Decision.RegressionPods | custom_scaler.py:100-103 | in [MIN_PODS, MAX_PODS]; equal to the direct demand while the window is not full |
| Decision.RegressionFollowsTrend | custom_scaler.py:100-103 | at least the direct demand when the trend is non-negative, and at most it when the trend is non-positive |
| Decision.HybridScaling | custom_scaler.py:98-108 | the decision lies in [MIN_PODS, MAX_PODS] and is at least both the direct demand and the trend-projected demand, so a falling trend never lowers it |
| Decision.HybridWithoutSpike | custom_scaler.py:99-104 | without a spike the decision is the larger of direct and projected demand; it is the direct demand alone while the window is not full |
| Decision.HybridSpikeBoost | custom_scaler.py:105-107 | on a spike the decision is min(max(direct, projected) + SCALE_INCREMENT, MAX_PODS), hence at least min(direct + SCALE_INCREMENT, MAX_PODS) |
| Decision.HybridRisingExample | custom_scaler.py:98-108 | with the defaults, window [0,3,6,9,12] and 12 users give 9 pods, against 4 for direct demand |
| Decision.HybridSpikeExample | custom_scaler.py:92-96 | with the defaults, a window ending 10, 70 is a spike and gets the capped boost of 5 |
| Decision.Reading | custom_scaler.py:111-112 | a reading present in the reply is its value; an absent one is 0, as `dict.get(key, 0)` gives |
| Decision.ThresholdExceeded | custom_scaler.py:114 | no breach iff the CPU reading is at most CPU_THRESHOLD and the memory reading at most MEMORY_THRESHOLD; with non-negative thresholds only a present reading can breach |
| Decision.ThresholdIgnoresOtherKeys | custom_scaler.py:111-114 | entries other than the CPU and memory readings, an error entry included, do not change the breach test |
| Decision.ResourceBasedScaling | custom_scaler.py:110-117 | without a breach the count is unchanged; on a CPU or memory breach the result is exactly the larger of current + SCALE_INCREMENT and MAX_PODS: it is one of the two, at least both, and equals MAX_PODS iff current + SCALE_INCREMENT ≤ MAX_PODS; it never decreases |
| Decision.MissingReadingsAreZero | custom_scaler.py:111-112 | absent readings count as 0, so a reply with neither reading only breaches a negative threshold |
| Decision.ResourceOverrideEscapesMax | custom_scaler.py:116 | with the defaults a breach at 398 replicas yields 403 > MAX_PODS, and a breach at 2 replicas yields MAX_PODS |
| Reconciler.ScaleDeployment | custom_scaler.py:119-138 | a patch is sent iff the read succeeds and desired ≠ current; a call that gets through leaves the store at desired; a failed read or patch leaves it unchanged |
| Reconciler.ScaleDeploymentIdempotent | custom_scaler.py:125-136 | after a successful call, a second call with the same target sends no patch and keeps the count |
| Reconciler.ReconcileChangesAtMostOnce | custom_scaler.py:119-138 | repeated calls with one target change the store at most once, exactly once iff the target differs and some call gets through, and then the store holds the target |
| ControlLoop.OverrideRuns | custom_scaler.py:154 | the override runs only on a fetched reply; never when the reply has an error entry; on an error-free reply exactly when the reply is non-empty |
| ControlLoop.ErrorEntrySuppressesOverride | custom_scaler.py:154 | an error entry suppresses the override whatever else the reply holds; an error-free reply with a CPU reading always lets it run |
| ControlLoop.Tick | custom_scaler.py:143-156 | the window is updated as by Push and stays within capacity; the store receives the hybrid decision unless a breach overrides it, and keeps it when only the second reconcile fails; a breach that reaches the store leaves between MAX_PODS and MAX_PODS + SCALE_INCREMENT replicas; when the first reconcile fails and the second fails or is not attempted the count is unchanged |
| ControlLoop.RunStep | custom_scaler.py:142 | an endless loop fed one input per iteration passes through states each of which is one step from the state before it, the first from the starting state |
| ControlLoop.Trace | custom_scaler.py:142-156 | a run of the loop yields one state per iteration |
| ControlLoop.TraceStep | custom_scaler.py:142-156 | each state of a run is one `Tick` from the state before it (the first from the starting state), so a run is exactly the loop's iterations in order, each starting where the previous one left the window and the replica count |
| ControlLoop.TraceIsPushAll | custom_scaler.py:140-146 | after tick i the window equals the window obtained by pushing the first i+1 samples |
| ControlLoop.TraceKeepsNewestSamples | custom_scaler.py:140-146 | after every tick the window holds the newest samples seen, as many as fit, oldest first |
| ControlLoop.RisingLoadTrace | custom_scaler.py:140-156 | with the defaults and loads 0, 3, 6, 9, 12, the replica count after each tick is 2, 2, 2, 3, 9 |

## Left out

- Kubernetes client setup and the read/patch API calls (custom_scaler.py:13-18, 69-78, 121-132). They are replaced by an integer replica count and a per-call store behaviour (answers, read fails, patch fails).
- HTTP fetches of the user count and the resource metrics (custom_scaler.py:38-67). They become tick inputs: a real sample and a metrics reply. An unreachable source or a non-200 reply is the `Unavailable` case. A JSON body is a map from names to real readings. Non-numeric readings are not modelled.
- The random-walk fallback estimate (custom_scaler.py:52-55). It depends on `np.random`. The sample is an arbitrary real, negative values included.
- Prometheus gauges and the start-up of their HTTP server (custom_scaler.py:33-34, 45, 54, 134, 291). They are observability only.
- The pod-count read printed at the end of each tick (custom_scaler.py:158). It only logs.
- All other console output: the spike and threshold messages, the scaling and no-scaling messages, and the error messages of the fetches and store calls (custom_scaler.py:48, 50, 63, 66, 77, 106, 115, 133, 136, 138). It only logs and changes no decision.
- The Flask dashboard (custom_scaler.py:161-287), the thread start-up and `time.sleep` (custom_scaler.py:142, 159, 289-297). These are presentation, concurrency and timing.
- `SCALE_THRESHOLD` (custom_scaler.py:24). It is never used.
- IEEE floating-point rounding and the internals of `sklearn.LinearRegression`. The model uses the exact closed-form least-squares slope instead.
- Python's typing of `calculate_desired_pods`. With a float load it returns the float quotient (such as `9.0`) when that lies strictly between `MIN_PODS` and `MAX_PODS`, and the int bound when the result is clamped, because `max` and `min` keep their first argument on a tie. The model treats every decision as an integer; the values agree either way.
- An exception escaping a tick: a non-numeric metric reading compared against a threshold would stop the loop thread. The model gives readings real values only.
- Writers of the replica count other than this loop. Each reconcile call in the source reads the deployment again (custom_scaler.py:121-125). The model instead passes the count left by the first call to the second, and from tick to tick. This assumes that nothing else changes the count in between.
- `custom_app.py`. It is a synthetic load generator built from random numbers, endless threads and a Flask endpoint, with no decision logic.
