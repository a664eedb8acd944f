/** The bounded history of load samples kept by the control loop. */
module HistoryWindow {
  import opened Arith

  /** Append a sample; when that makes the window longer than `capacity`,
      drop the oldest sample. */
  function Push(window: seq<real>, sample: real, capacity: int): (w: seq<real>)
    requires capacity > 0
    ensures |window| <= capacity ==> |w| <= capacity
    ensures |w| > 0 && w[|w| - 1] == sample
    ensures |window| < capacity ==> w == window + [sample]
    ensures |window| >= capacity ==> w == window[1..] + [sample]
  {
    var appended := window + [sample];
    if |appended| > capacity then appended[1..] else appended
  }

  /** The window after pushing every sample of `samples`, oldest first. */
  function PushAll(window: seq<real>, samples: seq<real>, capacity: int): seq<real>
    requires capacity > 0
    decreases |samples|
  {
    if |samples| == 0 then window
    else PushAll(Push(window, samples[0], capacity), samples[1..], capacity)
  }

  /** The last `k` elements of `s`. */
  function Newest(s: seq<real>, k: nat): seq<real>
    requires k <= |s|
  {
    s[|s| - k..]
  }

  /** One push keeps the newest samples that fit. */
  lemma PushKeepsNewest(window: seq<real>, x: real, capacity: int)
    requires 0 < capacity && |window| <= capacity
    ensures Push(window, x, capacity) == Newest(window + [x], Min(|window| + 1, capacity))
  {
  }

  /** The newest samples of an extended suffix are the newest of the whole. */
  lemma NewestOfSuffix(s: seq<real>, j: nat, t: seq<real>, k: nat)
    requires j <= |s| && k <= j + |t|
    ensures Newest(Newest(s, j) + t, k) == Newest(s + t, k)
  {
    assert Newest(s, j) + t == (s + t)[|s| - j..];
  }

  /** Keeping the newest samples after one push and then after the rest
      keeps the newest samples of the whole history. */
  lemma NewestAfterFirst(window: seq<real>, x: real, rest: seq<real>, capacity: int)
    requires 0 < capacity && |window| <= capacity
    ensures var m := Min(|window| + 1, capacity);
      (Newest(Newest(window + [x], m) + rest, Min(m + |rest|, capacity))
       == Newest((window + [x]) + rest, Min(|window| + 1 + |rest|, capacity)))
  {
    var m := Min(|window| + 1, capacity);
    var k := Min(m + |rest|, capacity);
    assert k == Min(|window| + 1 + |rest|, capacity);
    NewestOfSuffix(window + [x], m, rest, k);
  }

  /** Splitting the samples into the first and the rest. */
  lemma AppendFirst(window: seq<real>, samples: seq<real>)
    requires |samples| > 0
    ensures (window + [samples[0]]) + samples[1..] == window + samples
  {
    assert samples == [samples[0]] + samples[1..];
  }

  /** Starting from a window within capacity, the window always holds exactly
      the most recent samples of the whole history, in arrival order, as many
      as fit. */
  lemma {:induction false} PushAllKeepsNewest(window: seq<real>, samples: seq<real>, capacity: int)
    requires capacity > 0
    requires |window| <= capacity
    ensures PushAll(window, samples, capacity)
         == Newest(window + samples, Min(|window| + |samples|, capacity))
    decreases |samples|
  {
    if |samples| > 0 {
      var x, rest := samples[0], samples[1..];
      var next := Push(window, x, capacity);
      PushKeepsNewest(window, x, capacity);
      PushAllKeepsNewest(next, rest, capacity);
      NewestAfterFirst(window, x, rest, capacity);
      AppendFirst(window, samples);
    }
  }
}
