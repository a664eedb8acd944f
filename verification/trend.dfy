/** Trend and spike analysis over the history window. */
module Trend {
  import opened ScalerConfig
  import opened Regression

  function Abs(x: real): real { if x < 0.0 then -x else x }

  /** The load change per tick, or no trend at all until the window has been
      filled once. */
  function PredictTrend(c: Config, window: seq<real>): (trend: real)
    ensures |window| < c.predictionWindow ==> trend == 0.0
  {
    if |window| < c.predictionWindow then 0.0 else OlsSlope(window)
  }

  /** The trend of a full window lying on a straight line is that line's
      step; a full window that never changes has no trend. */
  lemma TrendOfLine(c: Config, window: seq<real>, a: real, d: real)
    requires c.Valid()
    requires |window| >= c.predictionWindow
    requires forall i :: 0 <= i < |window| ==> window[i] == a + d * i as real
    ensures PredictTrend(c, window) == d
  {
    SlopeOfLine(window, a, d);
  }

  lemma TrendOfConstant(c: Config, window: seq<real>, a: real)
    requires c.Valid()
    requires forall i :: 0 <= i < |window| ==> window[i] == a
    ensures PredictTrend(c, window) == 0.0
  {
    if |window| >= c.predictionWindow {
      TrendOfLine(c, window, a, 0.0);
    }
  }

  /** A spike is a rise or a drop of strictly more than the threshold
      between the two most recent samples; fewer than two samples never make
      one. */
  predicate DetectSpike(c: Config, window: seq<real>)
    ensures DetectSpike(c, window) <==>
      && |window| >= 2
      && (|| window[|window| - 1] > window[|window| - 2] + c.spikeThreshold
          || window[|window| - 2] > window[|window| - 1] + c.spikeThreshold)
  {
    |window| >= 2 && Abs(window[|window| - 1] - window[|window| - 2]) > c.spikeThreshold
  }

  /** A jump of exactly the threshold is not a spike; any larger one is. */
  lemma SpikeBoundary(c: Config, window: seq<real>, eps: real)
    requires |window| >= 2
    requires window[|window| - 1] == window[|window| - 2] + c.spikeThreshold + eps
    requires c.spikeThreshold + eps >= 0.0
    ensures DetectSpike(c, window) <==> eps > 0.0
  {
  }
}
