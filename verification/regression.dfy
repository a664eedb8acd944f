/** Ordinary least-squares fit of a line through the points (i, ys[i]),
    i = 0 .. |ys|-1, in exact real arithmetic. */
module Regression {
  import opened Arith

  function Sum(s: seq<real>): real
  {
    if |s| == 0 then 0.0 else s[0] + Sum(s[1..])
  }

  function Mean(s: seq<real>): real
    requires |s| > 0
  {
    Sum(s) / |s| as real
  }

  /** The independent variable: the window positions 0, 1, ..., n-1. */
  function Positions(n: nat): seq<real>
  {
    seq(n, i => i as real)
  }

  /** Each element's distance from `m`. */
  function Deviations(s: seq<real>, m: real): (d: seq<real>)
    ensures |d| == |s|
  {
    seq(|s|, i requires 0 <= i < |s| => s[i] - m)
  }

  function Dot(u: seq<real>, v: seq<real>): real
    requires |u| == |v|
  {
    if |u| == 0 then 0.0 else u[0] * v[0] + Dot(u[1..], v[1..])
  }

  /** Deviations of the positions, and of the samples, from their means. */
  function PositionDeviations(n: nat): seq<real>
    requires n > 0
  {
    Deviations(Positions(n), Mean(Positions(n)))
  }

  function SampleDeviations(ys: seq<real>): seq<real>
    requires |ys| > 0
  {
    Deviations(ys, Mean(ys))
  }

  /** Sum of squared deviations of the positions from their mean. */
  function PositionSpread(n: nat): real
    requires n > 0
  {
    Dot(PositionDeviations(n), PositionDeviations(n))
  }

  /** The fitted slope; a single point (or none) has no trend. For two or
      more points it solves the least-squares normal equation
      slope * Sxx == Sxy. */
  function OlsSlope(ys: seq<real>): (slope: real)
    ensures |ys| < 2 ==> slope == 0.0
    ensures |ys| >= 2 ==>
      slope * PositionSpread(|ys|) == Dot(PositionDeviations(|ys|), SampleDeviations(ys))
  {
    if |ys| < 2 then 0.0
    else
      var sxy := Dot(PositionDeviations(|ys|), SampleDeviations(ys));
      SpreadPositive(|ys|);
      MulDivCancel(sxy, PositionSpread(|ys|));
      sxy / PositionSpread(|ys|)
  }

  lemma {:induction false} DotSelfNonNegative(u: seq<real>)
    ensures Dot(u, u) >= 0.0
  {
    if |u| > 0 {
      DotSelfNonNegative(u[1..]);
      if u[0] != 0.0 {
        SquarePositive(u[0]);
        ProductPlusPositive(u[0], u[0], Dot(u[1..], u[1..]));
      }
    }
  }

  /** A sum of terms that are each at least 1 is at least their number. */
  lemma {:induction false} SumAtLeastCount(s: seq<real>)
    requires forall i :: 0 <= i < |s| ==> s[i] >= 1.0
    ensures Sum(s) >= |s| as real
  {
    if |s| > 0 {
      SumAtLeastCount(s[1..]);
    }
  }

  /** The mean position of two or more points is positive. */
  lemma MeanPositionPositive(n: nat)
    requires n >= 2
    ensures Mean(Positions(n)) > 0.0
  {
    var xs := Positions(n);
    assert forall i :: 0 <= i < |xs[1..]| ==> xs[1..][i] == (i + 1) as real;
    SumAtLeastCount(xs[1..]);
    assert Sum(xs) == Sum(xs[1..]) >= 1.0;
    QuotientPositive(Sum(xs), n as real);
  }

  /** A sum of squares with a non-zero first term is positive. */
  lemma DotSelfPositive(u: seq<real>)
    requires |u| > 0 && u[0] != 0.0
    ensures Dot(u, u) > 0.0
  {
    DotSelfNonNegative(u[1..]);
    SquarePositive(u[0]);
    ProductPlusPositive(u[0], u[0], Dot(u[1..], u[1..]));
  }

  /** With at least two positions the spread is strictly positive, so the
      slope's denominator never vanishes. */
  lemma SpreadPositive(n: nat)
    requires n >= 2
    ensures PositionSpread(n) > 0.0
  {
    var xs := Positions(n);
    var dx := PositionDeviations(n);
    MeanPositionPositive(n);
    assert dx[0] == xs[0] - Mean(xs);
    assert xs[0] == 0.0;
    DotSelfPositive(dx);
  }

  /** Summing an affine image of `xs` element by element. */
  lemma {:induction false} SumAffine(xs: seq<real>, ys: seq<real>, a: real, d: real)
    requires |ys| == |xs|
    requires forall i :: 0 <= i < |xs| ==> ys[i] == a + d * xs[i]
    ensures Sum(ys) == |xs| as real * a + d * Sum(xs)
  {
    if |xs| > 0 {
      SumAffine(xs[1..], ys[1..], a, d);
      var k := (|xs| - 1) as real;
      Distribute(d, xs[0], Sum(xs[1..]));
      Distribute(a, k, 1.0);
      assert a * k + a * 1.0 == (k + 1.0) * a;
    }
  }

  /** The mean of an affine image is the affine image of the mean. */
  lemma MeanAffine(xs: seq<real>, ys: seq<real>, a: real, d: real)
    requires |ys| == |xs| > 0
    requires forall i :: 0 <= i < |xs| ==> ys[i] == a + d * xs[i]
    ensures Mean(ys) == a + d * Mean(xs)
  {
    var n := |xs| as real;
    SumAffine(xs, ys, a, d);
    AffineQuotient(Sum(xs), Sum(ys), n, a, d);
    assert Mean(ys) == Sum(ys) / n && Mean(xs) == Sum(xs) / n;
  }

  /** Scaling one factor of a dot product scales the product. */
  lemma {:induction false} DotScaled(u: seq<real>, v: seq<real>, w: seq<real>, d: real)
    requires |u| == |v| == |w|
    requires forall i :: 0 <= i < |w| ==> w[i] == d * v[i]
    ensures Dot(u, w) == d * Dot(u, v)
  {
    if |u| > 0 {
      DotScaled(u[1..], v[1..], w[1..], d);
      assert u[0] * w[0] == d * (u[0] * v[0]);
      Distribute(d, u[0] * v[0], Dot(u[1..], v[1..]));
    }
  }

  /** On the points of a straight line a, a+d, ..., a+(n-1)d each sample's
      deviation is `d` times its position's deviation. */
  lemma LineDeviations(ys: seq<real>, a: real, d: real)
    requires |ys| > 0
    requires forall i :: 0 <= i < |ys| ==> ys[i] == a + d * i as real
    ensures forall i :: 0 <= i < |ys| ==>
      SampleDeviations(ys)[i] == d * PositionDeviations(|ys|)[i]
  {
    var n := |ys|;
    var xs := Positions(n);
    MeanAffine(xs, ys, a, d);
    var m := Mean(xs);
    forall i | 0 <= i < n
      ensures SampleDeviations(ys)[i] == d * PositionDeviations(n)[i]
    {
      Distribute(d, xs[i], m);
    }
  }

  /** On the points of a straight line the fit recovers the line's slope
      exactly. */
  lemma SlopeOfLine(ys: seq<real>, a: real, d: real)
    requires |ys| >= 2
    requires forall i :: 0 <= i < |ys| ==> ys[i] == a + d * i as real
    ensures OlsSlope(ys) == d
  {
    var n := |ys|;
    var dx := PositionDeviations(n);
    var dy := SampleDeviations(ys);
    LineDeviations(ys, a, d);
    DotScaled(dx, dx, dy, d);
    SpreadPositive(n);
    MulCancel(OlsSlope(ys), d, PositionSpread(n));
  }

  /** Moving every sample by the same amount leaves the slope unchanged:
      the fit reacts to change, not to level. */
  lemma SlopeIgnoresOffset(ys: seq<real>, zs: seq<real>, c: real)
    requires |zs| == |ys|
    requires forall i :: 0 <= i < |ys| ==> zs[i] == ys[i] + c
    ensures OlsSlope(zs) == OlsSlope(ys)
  {
    if |ys| >= 2 {
      var n := |ys|;
      MeanAffine(ys, zs, c, 1.0);
      assert SampleDeviations(zs) == SampleDeviations(ys);
      SpreadPositive(n);
      MulCancel(OlsSlope(zs), OlsSlope(ys), PositionSpread(n));
    }
  }
}
