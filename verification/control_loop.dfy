/** One iteration of the scaler's control loop, with every external call
    replaced by an input: the user count, how the replica store behaves on
    each of the two reconcile calls, and the resource metrics reply. */
module ControlLoop {
  import opened Arith
  import opened ScalerConfig
  import opened HistoryWindow
  import opened Trend
  import opened Decision
  import opened Reconciler

  /** The resource metrics fetch: unreachable or non-success replies carry an
      error marker; a success carries the reply's readings. */
  datatype MetricsFetch = Unavailable | Fetched(metrics: Metrics)

  /** The override runs only on a non-empty reply without an error entry. */
  function OverrideRuns(fetch: MetricsFetch): (runs: bool)
    ensures fetch.Unavailable? ==> !runs
    ensures fetch.Fetched? && "error" in fetch.metrics ==> !runs
    ensures fetch.Fetched? && "error" !in fetch.metrics ==> (runs <==> |fetch.metrics| > 0)
  {
    fetch.Fetched? && fetch.metrics != map[] && "error" !in fetch.metrics
  }

  /** An error entry suppresses the override whatever else the reply holds,
      and an error-free reply carrying a CPU reading always lets it run. */
  lemma ErrorEntrySuppressesOverride(metrics: Metrics, v: real)
    ensures !OverrideRuns(Fetched(metrics["error" := v]))
    ensures "error" !in metrics ==> OverrideRuns(Fetched(metrics[CpuKey := v]))
  {
    assert CpuKey != "error";
    assert CpuKey in metrics[CpuKey := v];
  }

  /** The loop's history window and the store's replica count. */
  datatype State = State(window: seq<real>, replicas: int)

  /** Everything the outside world contributes to one tick. */
  datatype Observation = Observation(
    users: real,          // fetched user count or the fallback estimate
    firstAccess: Access,  // store behaviour for the user-based reconcile
    metrics: MetricsFetch,
    secondAccess: Access  // store behaviour for the resource-based reconcile
  )

  function Tick(c: Config, s: State, o: Observation): (next: State)
    requires c.Valid()
    ensures next.window == Push(s.window, o.users, c.predictionWindow)
    ensures |s.window| <= c.predictionWindow ==> |next.window| <= c.predictionWindow
    // the user-based decision reaches the store unless the override replaces it
    ensures o.firstAccess.Healthy?
            && !(OverrideRuns(o.metrics) && ThresholdExceeded(c, o.metrics.metrics))
            ==> (next.replicas == HybridScaling(c, next.window, o.users)
                 && c.minPods <= next.replicas <= c.maxPods)
    // a resource breach that reaches the store leaves at least maxPods, and
    // at most one increment above it
    ensures OverrideRuns(o.metrics) && ThresholdExceeded(c, o.metrics.metrics) && o.secondAccess.Healthy?
            ==> (next.replicas == ResourceBasedScaling(c, o.metrics.metrics, HybridScaling(c, next.window, o.users))
                 && c.maxPods <= next.replicas <= c.maxPods + c.scaleIncrement)
    // without a breach the second reconcile retries the user-based target
    ensures OverrideRuns(o.metrics) && !ThresholdExceeded(c, o.metrics.metrics) && o.secondAccess.Healthy?
            ==> next.replicas == HybridScaling(c, next.window, o.users)
    // when only the second reconcile fails, the user-based decision stays
    ensures o.firstAccess.Healthy? && !o.secondAccess.Healthy?
            ==> next.replicas == HybridScaling(c, next.window, o.users)
    // store failures change nothing
    ensures !o.firstAccess.Healthy? && (!OverrideRuns(o.metrics) || !o.secondAccess.Healthy?)
            ==> next.replicas == s.replicas
  {
    var window := Push(s.window, o.users, c.predictionWindow);
    var desired := HybridScaling(c, window, o.users);
    var first := ScaleDeployment(s.replicas, desired, o.firstAccess);
    if OverrideRuns(o.metrics) then
      var second := ScaleDeployment(first.replicas, ResourceBasedScaling(c, o.metrics.metrics, desired), o.secondAccess);
      State(window, second.replicas)
    else
      State(window, first.replicas)
  }

  /** The states a step function passes through when fed `obs` one at a
      time from `s`. */
  function Run(step: (State, Observation) -> State, s: State, obs: seq<Observation>): (states: seq<State>)
    ensures |states| == |obs|
    decreases |obs|
  {
    if |obs| == 0 then []
    else
      var next := step(s, obs[0]);
      [next] + Run(step, next, obs[1..])
  }

  /** Each state of a run is one step from the state before it, the first
      one step from the starting state. */
  lemma {:induction false} RunStep(step: (State, Observation) -> State, s: State, obs: seq<Observation>, i: nat)
    requires i < |obs|
    ensures Run(step, s, obs)[i] == step(if i == 0 then s else Run(step, s, obs)[i - 1], obs[i])
    decreases i
  {
    if i > 0 {
      var next := step(s, obs[0]);
      assert Run(step, s, obs) == [next] + Run(step, next, obs[1..]);
      RunStep(step, next, obs[1..], i - 1);
      assert obs[1..][i - 1] == obs[i];
    }
  }

  /** The state after each of the ticks driven by `obs`. */
  function Trace(c: Config, s: State, obs: seq<Observation>): (states: seq<State>)
    requires c.Valid()
    ensures |states| == |obs|
  {
    Run((st: State, o: Observation) => Tick(c, st, o), s, obs)
  }

  /** Each state of a run of the loop is one tick from the state before it,
      the first one tick from the starting state. */
  lemma TraceStep(c: Config, s: State, obs: seq<Observation>, i: nat)
    requires c.Valid()
    requires i < |obs|
    ensures Trace(c, s, obs)[i] == Tick(c, if i == 0 then s else Trace(c, s, obs)[i - 1], obs[i])
  {
    RunStep((st: State, o: Observation) => Tick(c, st, o), s, obs, i);
  }

  function Users(obs: seq<Observation>): (users: seq<real>)
  {
    seq(|obs|, i requires 0 <= i < |obs| => obs[i].users)
  }

  /** After every tick of a run, the window holds the most recent samples
      seen since the run started, as many as fit, oldest first. */
  lemma {:induction false} TraceKeepsNewestSamples(c: Config, s: State, obs: seq<Observation>, i: nat)
    requires c.Valid()
    requires |s.window| <= c.predictionWindow
    requires i < |obs|
    ensures Trace(c, s, obs)[i].window
         == Newest(s.window + Users(obs[..i + 1]), Min(|s.window| + i + 1, c.predictionWindow))
  {
    var w := c.predictionWindow;
    TraceIsPushAll(c, s, obs, i);
    PushAllKeepsNewest(s.window, Users(obs[..i + 1]), w);
  }

  lemma {:induction false} TraceIsPushAll(c: Config, s: State, obs: seq<Observation>, i: nat)
    requires c.Valid()
    requires i < |obs|
    ensures Trace(c, s, obs)[i].window == PushAll(s.window, Users(obs[..i + 1]), c.predictionWindow)
    decreases i
  {
    var w := c.predictionWindow;
    var next := Tick(c, s, obs[0]);
    var users := Users(obs[..i + 1]);
    UsersSplit(obs, i);
    TraceUnfold(c, s, obs, i);
    assert next.window == Push(s.window, users[0], w);
    assert PushAll(s.window, users, w) == PushAll(next.window, users[1..], w);
    if i > 0 {
      TraceIsPushAll(c, next, obs[1..], i - 1);
    } else {
      assert users[1..] == [];
    }
  }

  /** A run starts with one tick and continues from the state it leaves. */
  lemma TraceUnfold(c: Config, s: State, obs: seq<Observation>, i: nat)
    requires c.Valid()
    requires i < |obs|
    ensures i == 0 ==> Trace(c, s, obs)[i] == Tick(c, s, obs[0])
    ensures i > 0 ==> Trace(c, s, obs)[i] == Trace(c, Tick(c, s, obs[0]), obs[1..])[i - 1]
  {
  }

  /** The users of a prefix are the first observation's users followed by
      those of the rest. */
  lemma UsersSplit(obs: seq<Observation>, i: nat)
    requires i < |obs|
    ensures Users(obs[..i + 1])[0] == obs[0].users
    ensures Users(obs[..i + 1])[1..] == Users(obs[1..][..i])
  {
  }

  /** A tick where the store answers and the metrics source is down. */
  function Quiet(users: real): Observation
  {
    Observation(users, Healthy, Unavailable, Healthy)
  }

  /** A quiet tick on a window that is still filling up and shows no spike
      sets the replicas to the direct demand. */
  lemma QuietFillingTick(s: State, users: real)
    requires |s.window| + 1 < Defaults.predictionWindow
    requires !DetectSpike(Defaults, s.window + [users])
    ensures Tick(Defaults, s, Quiet(users))
         == State(s.window + [users], PodsForLoad(Defaults, users))
  {
    HybridWithoutSpike(Defaults, s.window + [users], users);
  }

  /** The direct demand of the first four loads of the rising example. */
  lemma SmallLoads()
    ensures PodsForLoad(Defaults, 0.0) == 2 && PodsForLoad(Defaults, 3.0) == 2
    ensures PodsForLoad(Defaults, 6.0) == 2 && PodsForLoad(Defaults, 9.0) == 3
  {
  }

  /** The four ticks that fill the window in the rising example. */
  lemma RisingFillingTicks(replicas: int)
    ensures Tick(Defaults, State([], replicas), Quiet(0.0)) == State([0.0], 2)
    ensures Tick(Defaults, State([0.0], 2), Quiet(3.0)) == State([0.0, 3.0], 2)
    ensures Tick(Defaults, State([0.0, 3.0], 2), Quiet(6.0)) == State([0.0, 3.0, 6.0], 2)
    ensures Tick(Defaults, State([0.0, 3.0, 6.0], 2), Quiet(9.0)) == State([0.0, 3.0, 6.0, 9.0], 3)
  {
    SmallLoads();
    QuietFillingTick(State([], replicas), 0.0);
    QuietFillingTick(State([0.0], 2), 3.0);
    QuietFillingTick(State([0.0, 3.0], 2), 6.0);
    QuietFillingTick(State([0.0, 3.0, 6.0], 2), 9.0);
  }

  /** The tick that fills the window in the rising example. */
  lemma RisingFullTick()
    ensures Tick(Defaults, State([0.0, 3.0, 6.0, 9.0], 3), Quiet(12.0)).replicas == 9
  {
    HybridRisingExample();
    assert Push([0.0, 3.0, 6.0, 9.0], 12.0, 5) == [0.0, 3.0, 6.0, 9.0, 12.0];
  }

  /** With the default configuration and a user count rising 0, 3, 6, 9, 12,
      the replica count goes 2, 2, 2, 3, and then 9 once the full window
      reveals the trend. */
  lemma RisingLoadTrace(replicas: int)
    ensures var states := Trace(Defaults, State([], replicas),
                                [Quiet(0.0), Quiet(3.0), Quiet(6.0), Quiet(9.0), Quiet(12.0)]);
            && states[0].replicas == 2
            && states[1].replicas == 2
            && states[2].replicas == 2
            && states[3].replicas == 3
            && states[4].replicas == 9
  {
    var obs := [Quiet(0.0), Quiet(3.0), Quiet(6.0), Quiet(9.0), Quiet(12.0)];
    var states := Trace(Defaults, State([], replicas), obs);
    RisingFillingTicks(replicas);
    RisingFullTick();
    TraceStep(Defaults, State([], replicas), obs, 0);
    TraceStep(Defaults, State([], replicas), obs, 1);
    TraceStep(Defaults, State([], replicas), obs, 2);
    TraceStep(Defaults, State([], replicas), obs, 3);
    TraceStep(Defaults, State([], replicas), obs, 4);
  }
}
