/**
 * The timing controller: an adaptive-quality state machine fed one frame
 * time per processed frame. It keeps a window of the last 60 frame times,
 * counts consecutive over- and under-budget frames, and on that evidence
 * (or on the GPU temperature) lowers or raises the interpolation model's
 * resolution scale and quality, writing both back into the engine
 * configuration.
 *
 * `Step` is the specification of one `onFrameComplete` call on a value of
 * the controller's state; the class method is the imperative code, proved
 * to agree with it, and the lemmas below state what `Step` promises.
 * The GPU temperature is a parameter: the sysfs reads are outside the
 * model, except for the unit rule and the selection rule over the
 * readings, which `ThermalReading` and `GpuTemperature` capture.
 */
module Timing {
  import opened Types

  const HistorySize: nat := 60
  const ThrottleTemp: real := 75.0
  const CriticalTemp: real := 85.0
  const MinScale: real := 0.25
  const MaxRaisedScale: real := 0.75

  datatype AdaptiveState = AdaptiveState(
    currentScale: real,
    currentQuality: real,
    targetMs: real,
    avgMs: real,
    maxMs: real,
    minMs: real,
    throttled: bool,
    consecutiveOverBudget: nat,
    consecutiveUnderBudget: nat)

  /** The state a fresh controller holds before `init`. */
  function DefaultState(): (s: AdaptiveState)
    ensures s.currentScale == 0.5 && s.currentQuality == 0.5 && s.targetMs == 8.0
    ensures s.avgMs == 0.0 && s.maxMs == 0.0 && s.minMs == 999.0
    ensures !s.throttled && s.consecutiveOverBudget == 0 && s.consecutiveUnderBudget == 0
  {
    AdaptiveState(0.5, 0.5, 8.0, 0.0, 0.0, 999.0, false, 0, 0)
  }

  // ---------------------------------------------------------------
  // The latency window and its statistics
  // ---------------------------------------------------------------

  /** The last `n` elements of `s` (all of them when there are fewer). */
  function LastN<T>(s: seq<T>, n: nat): (r: seq<T>)
    ensures |r| == if |s| <= n then |s| else n
    ensures r == s[|s| - |r|..]
  {
    if |s| <= n then s else s[|s| - n..]
  }

  /** Appends `sample` and evicts the oldest entry once the window exceeds 60. */
  function Window(history: seq<real>, sample: real): (w: seq<real>)
    ensures w != [] && w[|w| - 1] == sample
    ensures |history| <= HistorySize ==> w == LastN(history + [sample], HistorySize)
  {
    var h := history + [sample];
    if |h| > HistorySize then h[1..] else h
  }

  function Sum(s: seq<real>): real
  {
    if s == [] then 0.0 else Sum(s[..|s| - 1]) + s[|s| - 1]
  }

  function Mean(s: seq<real>): real
    requires s != []
  {
    Sum(s) / |s| as real
  }

  function SeqMax(s: seq<real>): real
    requires s != []
  {
    if |s| == 1 then s[0]
    else if s[|s| - 1] > SeqMax(s[..|s| - 1]) then s[|s| - 1]
    else SeqMax(s[..|s| - 1])
  }

  function SeqMin(s: seq<real>): real
    requires s != []
  {
    if |s| == 1 then s[0]
    else if s[|s| - 1] < SeqMin(s[..|s| - 1]) then s[|s| - 1]
    else SeqMin(s[..|s| - 1])
  }

  /** The window maximum and minimum are samples of the window and bound every sample. */
  lemma {:induction false} MaxMinBound(s: seq<real>)
    requires s != []
    ensures exists i :: 0 <= i < |s| && s[i] == SeqMax(s)
    ensures exists i :: 0 <= i < |s| && s[i] == SeqMin(s)
    ensures forall i :: 0 <= i < |s| ==> SeqMin(s) <= s[i] <= SeqMax(s)
  {
    if |s| > 1 {
      var init := s[..|s| - 1];
      MaxMinBound(init);
      assert forall i :: 0 <= i < |init| ==> init[i] == s[i];
      var j :| 0 <= j < |init| && init[j] == SeqMax(init);
      var k :| 0 <= k < |init| && init[k] == SeqMin(init);
      if s[|s| - 1] <= SeqMax(init) { assert s[j] == SeqMax(s); }
      if s[|s| - 1] >= SeqMin(init) { assert s[k] == SeqMin(s); }
    } else {
      assert s[0] == SeqMax(s) && s[0] == SeqMin(s);
    }
  }

  lemma {:induction false} SumBounds(s: seq<real>, lo: real, hi: real)
    requires forall i :: 0 <= i < |s| ==> lo <= s[i] <= hi
    ensures |s| as real * lo <= Sum(s) <= |s| as real * hi
  {
    if s != [] {
      var init := s[..|s| - 1];
      assert forall i :: 0 <= i < |init| ==> init[i] == s[i];
      SumBounds(init, lo, hi);
      assert |s| as real * lo == |init| as real * lo + lo;
      assert |s| as real * hi == |init| as real * hi + hi;
    }
  }

  lemma DivideBounds(total: real, n: real, lo: real, hi: real)
    requires n > 0.0 && n * lo <= total <= n * hi
    ensures lo <= total / n <= hi
  {
    assert total / n * n == total;
  }

  /** The mean of a non-empty window lies between its minimum and maximum. */
  lemma MeanBetween(s: seq<real>)
    requires s != []
    ensures SeqMin(s) <= Mean(s) <= SeqMax(s)
  {
    MaxMinBound(s);
    SumBounds(s, SeqMin(s), SeqMax(s));
    DivideBounds(Sum(s), |s| as real, SeqMin(s), SeqMax(s));
  }

  // ---------------------------------------------------------------
  // The adjustment rules
  // ---------------------------------------------------------------

  /** Which rule of `onFrameComplete` fires, in priority order. */
  datatype Rule = Critical | ThrottledReduce | OverBudgetReduce | HeadroomIncrease | NoRule

  /**
   * Each rule fires exactly when its own condition holds and no rule
   * before it in priority order does: the critical temperature, then the
   * throttled streak (both only with thermal protection on), then the
   * over-budget streak, then the headroom raise.
   */
  function Decide(thermalProtection: bool, temperature: real, s: AdaptiveState): (r: Rule)
    ensures r == Critical <==> thermalProtection && temperature > CriticalTemp
    ensures r == ThrottledReduce <==>
      thermalProtection && !(temperature > CriticalTemp) && s.throttled && s.consecutiveOverBudget >= 3
    ensures r == OverBudgetReduce <==>
      && !(thermalProtection && temperature > CriticalTemp)
      && !(thermalProtection && s.throttled && s.consecutiveOverBudget >= 3)
      && s.consecutiveOverBudget >= 5
    ensures r == HeadroomIncrease <==>
      && !(thermalProtection && temperature > CriticalTemp)
      && !(thermalProtection && s.throttled && s.consecutiveOverBudget >= 3)
      && s.consecutiveOverBudget < 5
      && s.consecutiveUnderBudget >= 30 && s.avgMs < s.targetMs * 0.7
    ensures r == NoRule <==> r !in {Critical, ThrottledReduce, OverBudgetReduce, HeadroomIncrease}
  {
    if thermalProtection && temperature > CriticalTemp then Critical
    else if thermalProtection && s.throttled && s.consecutiveOverBudget >= 3 then ThrottledReduce
    else if s.consecutiveOverBudget >= 5 then OverBudgetReduce
    else if s.consecutiveUnderBudget >= 30 && s.avgMs < s.targetMs * 0.7 then HeadroomIncrease
    else NoRule
  }

  /** `adjustQuality(true)`: scale down by 0.1 to no less than 0.25, quality down by 0.15 to no less than 0; counters reset. */
  function Lowered(s: AdaptiveState): (r: AdaptiveState)
    ensures r.currentScale >= MinScale && r.currentQuality >= 0.0
    ensures r.currentScale >= s.currentScale - 0.1 && r.currentQuality >= s.currentQuality - 0.15
    ensures s.currentScale >= MinScale ==> r.currentScale <= s.currentScale
    ensures s.currentQuality >= 0.0 ==> r.currentQuality <= s.currentQuality
    ensures s.currentScale - 0.1 > MinScale ==> r.currentScale == s.currentScale - 0.1
    ensures s.currentQuality - 0.15 > 0.0 ==> r.currentQuality == s.currentQuality - 0.15
    ensures r.consecutiveOverBudget == 0 && r.consecutiveUnderBudget == 0
  {
    s.(currentScale := if MinScale < s.currentScale - 0.1 then s.currentScale - 0.1 else MinScale,
       currentQuality := if 0.0 < s.currentQuality - 0.15 then s.currentQuality - 0.15 else 0.0,
       consecutiveOverBudget := 0,
       consecutiveUnderBudget := 0)
  }

  /** `adjustQuality(false)`: scale up by 0.05 to no more than 0.75, quality up by 0.05 to no more than 1; counters reset. */
  function Raised(s: AdaptiveState): (r: AdaptiveState)
    ensures r.currentScale <= MaxRaisedScale && r.currentQuality <= 1.0
    ensures r.currentScale <= s.currentScale + 0.05 && r.currentQuality <= s.currentQuality + 0.05
    ensures s.currentScale <= MaxRaisedScale ==> r.currentScale >= s.currentScale
    ensures s.currentQuality <= 1.0 ==> r.currentQuality >= s.currentQuality
    ensures s.currentScale + 0.05 < MaxRaisedScale ==> r.currentScale == s.currentScale + 0.05
    ensures s.currentQuality + 0.05 < 1.0 ==> r.currentQuality == s.currentQuality + 0.05
    ensures r.consecutiveOverBudget == 0 && r.consecutiveUnderBudget == 0
  {
    s.(currentScale := if s.currentScale + 0.05 < MaxRaisedScale then s.currentScale + 0.05 else MaxRaisedScale,
       currentQuality := if s.currentQuality + 0.05 < 1.0 then s.currentQuality + 0.05 else 1.0,
       consecutiveOverBudget := 0,
       consecutiveUnderBudget := 0)
  }

  /** The configuration with the state's scale and quality copied into it. */
  function WriteBack(c: Config, s: AdaptiveState): (r: Config)
    ensures r.modelScale == s.currentScale && r.quality == s.currentQuality
  {
    c.(modelScale := s.currentScale, quality := s.currentQuality)
  }

  // ---------------------------------------------------------------
  // One call of onFrameComplete, as a function on values
  // ---------------------------------------------------------------

  /** Everything `onFrameComplete` reads and writes: the state, the engine configuration it points at, and the window. */
  datatype Controller = Controller(state: AdaptiveState, config: Config, history: seq<real>)

  datatype StepResult = StepResult(next: Controller, onBudget: bool)

  /**
   * The state after recording a frame: the window statistics, the
   * hysteresis counters and, with thermal protection on, `throttled`.
   */
  function Observed(s: AdaptiveState, h: seq<real>, overBudget: bool, thermalProtection: bool, temperature: real): AdaptiveState
    requires h != []
  {
    s.(avgMs := Mean(h), maxMs := SeqMax(h), minMs := SeqMin(h),
       consecutiveOverBudget := if overBudget then s.consecutiveOverBudget + 1 else 0,
       consecutiveUnderBudget := if overBudget then 0 else s.consecutiveUnderBudget + 1,
       throttled := if thermalProtection then temperature > ThrottleTemp else s.throttled)
  }

  /** The state after the chosen rule has been applied. */
  function Applied(rule: Rule, s: AdaptiveState): AdaptiveState
  {
    match rule
    case Critical => s.(currentScale := MinScale, currentQuality := 0.0)
    case ThrottledReduce => Lowered(s)
    case OverBudgetReduce => Lowered(s)
    case HeadroomIncrease => Raised(s)
    case NoRule => s
  }

  function Step(c: Controller, frameTimeMs: real, temperature: real): StepResult
  {
    var h := Window(c.history, frameTimeMs);
    var overBudget := frameTimeMs > c.state.targetMs;
    var s := Observed(c.state, h, overBudget, c.config.thermalProtection, temperature);
    var rule := Decide(c.config.thermalProtection, temperature, s);
    var n := Applied(rule, s);
    StepResult(
      Controller(n, if rule == NoRule then c.config else WriteBack(c.config, n), h),
      !overBudget && rule in {NoRule, HeadroomIncrease})
  }

  /** One frame as the controller sees it: its processing time and the temperature at that moment. */
  datatype Sample = Sample(frameTimeMs: real, temperature: real)

  function FrameTimes(samples: seq<Sample>): (r: seq<real>)
    ensures |r| == |samples|
    ensures forall i :: 0 <= i < |samples| ==> r[i] == samples[i].frameTimeMs
  {
    if samples == [] then [] else [samples[0].frameTimeMs] + FrameTimes(samples[1..])
  }

  /** The controller after a run of consecutive `onFrameComplete` calls. */
  function Run(c: Controller, samples: seq<Sample>): Controller
    decreases |samples|
  {
    if samples == [] then c
    else Run(Step(c, samples[0].frameTimeMs, samples[0].temperature).next, samples[1..])
  }

  // ---------------------------------------------------------------
  // What one step promises
  // ---------------------------------------------------------------

  /** Scale within [0.25, 1] and quality within [0, 1]: the range every producer of these values keeps. */
  ghost predicate InRange(s: AdaptiveState)
  {
    MinScale <= s.currentScale <= 1.0 && 0.0 <= s.currentQuality <= 1.0
  }

  /**
   * The window gains the sample, keeps at most 60 entries and its
   * statistics satisfy min <= avg <= max; the over-budget test is strict;
   * at least one hysteresis counter is zero afterwards.
   */
  lemma StepWindowAndCounters(c: Controller, frameTimeMs: real, temperature: real)
    requires |c.history| <= HistorySize
    ensures var n := Step(c, frameTimeMs, temperature).next;
      && |n.history| <= HistorySize
      && n.history[|n.history| - 1] == frameTimeMs
      && n.state.minMs <= n.state.avgMs <= n.state.maxMs
            && (n.state.consecutiveOverBudget == 0 || n.state.consecutiveUnderBudget == 0)
      && (frameTimeMs > c.state.targetMs ==> n.state.consecutiveUnderBudget == 0)
      && (frameTimeMs <= c.state.targetMs ==> n.state.consecutiveOverBudget == 0)
      && n.state.targetMs == c.state.targetMs
  {
    MeanBetween(Window(c.history, frameTimeMs));
  }

  /**
   * A call reports "on budget" exactly when the frame was within the
   * budget and the critical thermal rule did not fire: every reduction
   * needs an over-budget streak that includes this frame.
   */
  lemma StepOnBudget(c: Controller, frameTimeMs: real, temperature: real)
    ensures Step(c, frameTimeMs, temperature).onBudget
        <==> frameTimeMs <= c.state.targetMs && !(c.config.thermalProtection && temperature > CriticalTemp)
  {
  }

  /** Above 85 degrees with protection on: minimum scale and quality, mirrored in the config, counters left as tracked. */
  lemma CriticalForcesMinimum(c: Controller, frameTimeMs: real, temperature: real)
    requires c.config.thermalProtection && temperature > CriticalTemp
    ensures var r := Step(c, frameTimeMs, temperature);
      && !r.onBudget
      && r.next.state.currentScale == 0.25 && r.next.state.currentQuality == 0.0
      && r.next.config.modelScale == 0.25 && r.next.config.quality == 0.0
      && r.next.state.throttled
      && r.next.state.consecutiveOverBudget == (if frameTimeMs > c.state.targetMs then c.state.consecutiveOverBudget + 1 else 0)
      && r.next.state.consecutiveUnderBudget == (if frameTimeMs > c.state.targetMs then 0 else c.state.consecutiveUnderBudget + 1)
  {
  }

  /** With protection off the temperature is never consulted and `throttled` keeps its value. */
  lemma ThermalOffIgnoresTemperature(c: Controller, frameTimeMs: real, t1: real, t2: real)
    requires !c.config.thermalProtection
    ensures Step(c, frameTimeMs, t1) == Step(c, frameTimeMs, t2)
    ensures Step(c, frameTimeMs, t1).next.state.throttled == c.state.throttled
  {
  }

  /**
   * A step changes scale or quality only through one of the rules; after
   * a change the configuration mirrors the new values and, unless the
   * critical rule fired, both counters are zero. The range [0.25, 1] x
   * [0, 1] is preserved.
   */
  lemma StepAdjustment(c: Controller, frameTimeMs: real, temperature: real)
    ensures var n := Step(c, frameTimeMs, temperature).next;
      && n.config.(modelScale := c.config.modelScale, quality := c.config.quality) == c.config
      && ((n.state.currentScale, n.state.currentQuality) != (c.state.currentScale, c.state.currentQuality) ==>
            && n.config.modelScale == n.state.currentScale
            && n.config.quality == n.state.currentQuality)
      && (InRange(c.state) ==> InRange(n.state))
  {
  }

  /** A raise needs 30 consecutive under-budget frames and a window average below 70% of the budget. */
  lemma RaiseNeedsHeadroom(c: Controller, frameTimeMs: real, temperature: real)
    requires InRange(c.state) && |c.history| <= HistorySize
    requires Step(c, frameTimeMs, temperature).next.state.currentQuality > c.state.currentQuality
    ensures c.state.consecutiveUnderBudget + 1 >= 30
    ensures frameTimeMs <= c.state.targetMs
    ensures Mean(Window(c.history, frameTimeMs)) < c.state.targetMs * 0.7
  {
  }

  // ---------------------------------------------------------------
  // What a run of steps promises
  // ---------------------------------------------------------------

  lemma LastNAppend(a: seq<real>, b: seq<real>, n: nat)
    ensures LastN(LastN(a, n) + b, n) == LastN(a + b, n)
  {
    var l := LastN(a, n);
    var lhs := LastN(l + b, n);
    var rhs := LastN(a + b, n);
    assert |lhs| == |rhs|;
    forall i | 0 <= i < |lhs| ensures lhs[i] == rhs[i] {
      var k := |lhs| - i;
      assert lhs[i] == (l + b)[|l + b| - k];
      assert rhs[i] == (a + b)[|a + b| - k];
      if k <= |b| {
        assert (l + b)[|l + b| - k] == b[|b| - k];
        assert (a + b)[|a + b| - k] == b[|b| - k];
      } else {
        assert (l + b)[|l + b| - k] == l[|l| - (k - |b|)];
        assert (a + b)[|a + b| - k] == a[|a| - (k - |b|)];
      }
    }
  }

  lemma SeqAssoc<T>(a: seq<T>, b: seq<T>, c: seq<T>)
    ensures (a + b) + c == a + (b + c)
  {
  }

  /** After any run, the window is the last 60 frame times seen, oldest first. */
  lemma {:induction false} RunWindow(c: Controller, samples: seq<Sample>)
    requires |c.history| <= HistorySize
    ensures Run(c, samples).history == LastN(c.history + FrameTimes(samples), HistorySize)
    decreases |samples|
  {
    if samples == [] {
      assert c.history + FrameTimes(samples) == c.history;
    } else {
      var f := samples[0].frameTimeMs;
      var rest := samples[1..];
      var n := Step(c, f, samples[0].temperature).next;
      assert Run(c, samples) == Run(n, rest);
      assert n.history == Window(c.history, f) == LastN(c.history + [f], HistorySize);
      RunWindow(n, rest);
      var times := FrameTimes(rest);
      LastNAppend(c.history + [f], times, HistorySize);
      assert FrameTimes(samples) == [f] + times;
      SeqAssoc(c.history, [f], times);
    }
  }

  /**
   * The throttled rule: with protection on, above 75 but not above 85
   * degrees, a third consecutive over-budget frame applies one reduction,
   * mirrored into the config, and the call reports failure.
   */
  lemma ThrottledStreakLowers(c: Controller, frameTimeMs: real, temperature: real)
    requires c.config.thermalProtection && ThrottleTemp < temperature <= CriticalTemp
    requires frameTimeMs > c.state.targetMs && c.state.consecutiveOverBudget >= 2
    ensures var r := Step(c, frameTimeMs, temperature);
      && !r.onBudget && r.next.state.throttled
      && r.next.state.currentScale == Lowered(c.state).currentScale
      && r.next.state.currentQuality == Lowered(c.state).currentQuality
      && r.next.state.consecutiveOverBudget == 0 && r.next.state.consecutiveUnderBudget == 0
      && r.next.config == WriteBack(c.config, r.next.state)
  {
  }

  /** Every sample is below `bound`. */
  ghost predicate AllBelow(s: seq<real>, bound: real)
  {
    forall i :: 0 <= i < |s| ==> s[i] < bound
  }

  /** A window of samples all below a bound has its mean below it. */
  lemma MeanBelow(s: seq<real>, bound: real)
    requires s != [] && AllBelow(s, bound)
    ensures Mean(s) < bound
  {
    MeanBetween(s);
    MaxMinBound(s);
  }

  /** Keeping the last n samples keeps them below the bound. */
  lemma LastNBelow(s: seq<real>, n: nat, bound: real)
    requires AllBelow(s, bound)
    ensures AllBelow(LastN(s, n), bound)
  {
    var r := LastN(s, n);
    forall i | 0 <= i < |r| ensures r[i] < bound {
      assert r[i] == s[|s| - |r| + i];
    }
  }

  /** The frame that completes a 30-frame in-budget streak with headroom in the window raises once. */
  lemma HeadroomStepRaises(c: Controller, frameTimeMs: real, temperature: real)
    requires !c.config.thermalProtection && c.state.consecutiveUnderBudget == 29
    requires frameTimeMs <= c.state.targetMs
    requires Mean(Window(c.history, frameTimeMs)) < c.state.targetMs * 0.7
    ensures var n := Step(c, frameTimeMs, temperature).next;
      && n.state.currentScale == Raised(c.state).currentScale
      && n.state.currentQuality == Raised(c.state).currentQuality
      && n.state.consecutiveOverBudget == 0 && n.state.consecutiveUnderBudget == 0
      && n.config == WriteBack(c.config, n.state)
  {
  }

  /**
   * Hysteresis upwards, the sufficient direction: with protection off, a
   * window whose samples are all below 70% of the budget and 30 further
   * frames below it from a zero counter apply exactly one raise, on the
   * 30th frame, mirrored into the config.
   */
  lemma ThirtyHeadroomFramesRaise(c: Controller, samples: seq<Sample>)
    requires !c.config.thermalProtection && |samples| == 30
    requires c.state.consecutiveUnderBudget == 0 && c.state.targetMs > 0.0
    requires |c.history| <= HistorySize && AllBelow(c.history, c.state.targetMs * 0.7)
    requires forall i :: 0 <= i < |samples| ==> samples[i].frameTimeMs < c.state.targetMs * 0.7
    ensures var n := Run(c, samples);
      && n.state.currentScale == Raised(c.state).currentScale
      && n.state.currentQuality == Raised(c.state).currentQuality
      && n.state.consecutiveOverBudget == 0 && n.state.consecutiveUnderBudget == 0
      && n.config == WriteBack(c.config, n.state)
  {
    var bound := c.state.targetMs * 0.7;
    var prefix, last := samples[..29], samples[29..];
    var m := Run(c, prefix);
    assert UnderBudgetRun(c, prefix);
    UnderStreakWaits(c, prefix);
    assert m.state.consecutiveUnderBudget == 29 && m.state.targetMs == c.state.targetMs;
    assert m.config == c.config;
    var f := samples[29].frameTimeMs;
    assert Mean(Window(m.history, f)) < bound by {
      RunWindow(c, prefix);
      assert AllBelow(FrameTimes(prefix), bound);
      assert AllBelow(c.history + FrameTimes(prefix), bound);
      LastNBelow(c.history + FrameTimes(prefix), HistorySize, bound);
      assert AllBelow(m.history + [f], bound);
      LastNBelow(m.history + [f], HistorySize, bound);
      MeanBelow(Window(m.history, f), bound);
    }
    HeadroomStepRaises(m, f, samples[29].temperature);
    assert Run(c, samples) == Step(m, f, samples[29].temperature).next by {
      RunSplit(c, prefix, last);
      assert prefix + last == samples;
      assert last[1..] == [];
    }
  }

  /** Every frame of the run is over budget and protection is off. */
  ghost predicate OverBudgetRun(c: Controller, samples: seq<Sample>)
  {
    forall i :: 0 <= i < |samples| ==> samples[i].frameTimeMs > c.state.targetMs
  }

  /** Every frame of the run is within budget. */
  ghost predicate UnderBudgetRun(c: Controller, samples: seq<Sample>)
  {
    forall i :: 0 <= i < |samples| ==> samples[i].frameTimeMs <= c.state.targetMs
  }

  /**
   * Hysteresis downwards: with protection off, an over-budget streak that
   * keeps the counter below 5 changes neither scale nor quality; the
   * counter just grows.
   */
  lemma {:induction false} OverStreakWaits(c: Controller, samples: seq<Sample>)
    requires !c.config.thermalProtection && OverBudgetRun(c, samples)
    requires c.state.consecutiveOverBudget + |samples| < 5
    ensures var n := Run(c, samples);
      && n.state.currentScale == c.state.currentScale
      && n.state.currentQuality == c.state.currentQuality
      && n.state.consecutiveOverBudget == c.state.consecutiveOverBudget + |samples|
      && n.state.targetMs == c.state.targetMs
      && n.config == c.config
      && (samples != [] ==> n.state.consecutiveUnderBudget == 0)
    decreases |samples|
  {
    if samples != [] {
      var n := Step(c, samples[0].frameTimeMs, samples[0].temperature).next;
      assert OverBudgetRun(n, samples[1..]) by {
        forall i | 0 <= i < |samples[1..]| ensures samples[1..][i].frameTimeMs > n.state.targetMs {
          assert samples[1..][i] == samples[i + 1];
        }
      }
      OverStreakWaits(n, samples[1..]);
    }
  }

  /** ... and the fifth consecutive over-budget frame lowers scale and quality and resets the counters. */
  lemma FifthOverBudgetLowers(c: Controller, samples: seq<Sample>)
    requires !c.config.thermalProtection && OverBudgetRun(c, samples)
    requires c.state.consecutiveOverBudget == 0 && |samples| == 5
    ensures var n := Run(c, samples);
      && n.state == Lowered(n.state.(currentScale := c.state.currentScale, currentQuality := c.state.currentQuality))
      && n.config.modelScale == n.state.currentScale && n.config.quality == n.state.currentQuality
  {
    var prefix := samples[..4];
    assert OverBudgetRun(c, prefix);
    OverStreakWaits(c, prefix);
    var m := Run(c, prefix);
    RunSplit(c, prefix, samples[4..]);
    assert prefix + samples[4..] == samples;
    assert samples[4..][1..] == [];
  }

  lemma {:induction false} RunSplit(c: Controller, a: seq<Sample>, b: seq<Sample>)
    ensures Run(c, a + b) == Run(Run(c, a), b)
    decreases |a|
  {
    if a == [] {
      assert a + b == b;
    } else {
      assert (a + b)[0] == a[0];
      assert (a + b)[1..] == a[1..] + b;
      RunSplit(Step(c, a[0].frameTimeMs, a[0].temperature).next, a[1..], b);
    }
  }

  /**
   * Hysteresis upwards: with protection off, an under-budget streak that
   * keeps the counter below 30 changes neither scale nor quality.
   */
  lemma {:induction false} UnderStreakWaits(c: Controller, samples: seq<Sample>)
    requires !c.config.thermalProtection && UnderBudgetRun(c, samples)
    requires c.state.consecutiveUnderBudget + |samples| < 30
    ensures var n := Run(c, samples);
      && n.state.currentScale == c.state.currentScale
      && n.state.currentQuality == c.state.currentQuality
      && n.state.consecutiveUnderBudget == c.state.consecutiveUnderBudget + |samples|
      && n.state.targetMs == c.state.targetMs
      && n.config == c.config
    decreases |samples|
  {
    if samples != [] {
      var n := Step(c, samples[0].frameTimeMs, samples[0].temperature).next;
      assert UnderBudgetRun(n, samples[1..]) by {
        forall i | 0 <= i < |samples[1..]| ensures samples[1..][i].frameTimeMs <= n.state.targetMs {
          assert samples[1..][i] == samples[i + 1];
        }
      }
      UnderStreakWaits(n, samples[1..]);
    }
  }

  // ---------------------------------------------------------------
  // Thermal readings
  // ---------------------------------------------------------------

  /**
   * One thermal-zone reading in degrees: -1 when the zone cannot be
   * opened; a raw value above 1000 is in millidegrees.
   */
  function ThermalReading(raw: Option<int>): (t: real)
    ensures raw.None? ==> t == -1.0
    ensures raw.Some? && raw.value > 1000 ==> t * 1000.0 == raw.value as real
    ensures raw.Some? && raw.value <= 1000 ==> t == raw.value as real
    ensures t > 0.0 <==> raw.Some? && raw.value > 0
  {
    match raw
    case None => -1.0
    case Some(v) => if v > 1000 then v as real / 1000.0 else v as real
  }

  /** The first positive reading in source order, or 0 when there is none. */
  function FirstPositive(raws: seq<Option<int>>): (t: real)
    ensures t >= 0.0
  {
    if raws == [] then 0.0
    else if ThermalReading(raws[0]) > 0.0 then ThermalReading(raws[0])
    else FirstPositive(raws[1..])
  }

  /**
   * The selected temperature is 0 exactly when no reading is positive, and
   * otherwise the reading of the first zone that gave a positive value.
   */
  lemma {:induction false} FirstPositiveSelects(raws: seq<Option<int>>)
    ensures FirstPositive(raws) == 0.0 <==> forall i :: 0 <= i < |raws| ==> ThermalReading(raws[i]) <= 0.0
    ensures FirstPositive(raws) > 0.0 ==>
      exists i :: 0 <= i < |raws| && FirstPositive(raws) == ThermalReading(raws[i])
                  && forall j :: 0 <= j < i ==> ThermalReading(raws[j]) <= 0.0
  {
    if raws != [] && ThermalReading(raws[0]) <= 0.0 {
      var t := FirstPositive(raws[1..]);
      FirstPositiveSelects(raws[1..]);
      assert forall i :: 0 < i < |raws| ==> raws[i] == raws[1..][i - 1];
      if t > 0.0 {
        var i :| 0 <= i < |raws[1..]| && t == ThermalReading(raws[1..][i])
                 && forall j :: 0 <= j < i ==> ThermalReading(raws[1..][j]) <= 0.0;
        assert t == ThermalReading(raws[i + 1]);
        forall j | 0 <= j < i + 1 ensures ThermalReading(raws[j]) <= 0.0 {
          if j > 0 { assert raws[j] == raws[1..][j - 1]; }
        }
      }
    }
  }

  /**
   * `getGpuTemperature`: tries the candidate zones in order (the four fixed
   * sysfs paths, then at most the first zone whose type names the GPU) and
   * returns the first positive reading, or 0. The source closes the
   * directory inside its scan loop, so nothing after that first GPU zone
   * is a candidate here.
   */
  method GpuTemperature(raws: seq<Option<int>>) returns (t: real)
    ensures t == FirstPositive(raws)
  {
    var i := 0;
    while i < |raws|
      invariant 0 <= i <= |raws|
      invariant FirstPositive(raws) == FirstPositive(raws[i..])
    {
      assert raws[i..][1..] == raws[i + 1..];
      var reading := ThermalReading(raws[i]);
      if reading > 0.0 {
        return reading;
      }
      i := i + 1;
    }
    return 0.0;
  }

  // ---------------------------------------------------------------
  // The controller object
  // ---------------------------------------------------------------

  class TimingController {
    /** The engine configuration the controller writes back into (the source holds a pointer to it). */
    var config: Config
    /** Whether `init` has installed a configuration. */
    var hasConfig: bool
    var state: AdaptiveState
    var history: seq<real>

    ghost predicate Valid()
      reads this
    {
      |history| <= HistorySize
    }

    function Snapshot(): Controller
      reads this
    {
      Controller(state, config, history)
    }

    constructor ()
      ensures Valid() && !hasConfig && state == DefaultState() && history == []
    {
      config := DefaultConfig();
      hasConfig := false;
      state := DefaultState();
      history := [];
    }

    /** Takes the budget (converted to ms), scale and quality from the configuration. */
    method Init(cfg: Config)
      modifies this
      ensures hasConfig && config == cfg && history == old(history)
      ensures state == old(state).(targetMs := NsToMs(cfg.maxFrameTimeNs),
                                   currentScale := cfg.modelScale,
                                   currentQuality := cfg.quality)
    {
      config := cfg;
      hasConfig := true;
      state := state.(targetMs := NsToMs(cfg.maxFrameTimeNs));
      state := state.(currentScale := cfg.modelScale);
      state := state.(currentQuality := cfg.quality);
    }

    method SetTargetMs(ms: real)
      modifies this
      ensures state == old(state).(targetMs := ms)
      ensures config == old(config) && hasConfig == old(hasConfig) && history == old(history)
    {
      state := state.(targetMs := ms);
    }

    method SetBudget(ns: nat)
      modifies this
      ensures state == old(state).(targetMs := NsToMs(ns))
      ensures state.targetMs * NsPerMs as real == ns as real
      ensures config == old(config) && hasConfig == old(hasConfig) && history == old(history)
    {
      state := state.(targetMs := NsToMs(ns));
    }

    function GetState(): (s: AdaptiveState)
      reads this
      ensures s == Snapshot().state
    {
      state
    }

    function IsThermalThrottled(): (b: bool)
      reads this
      ensures b <==> Snapshot().state.throttled
    {
      state.throttled
    }

    method AdjustQuality(overBudget: bool)
      modifies this
      ensures state == if overBudget then Lowered(old(state)) else Raised(old(state))
      ensures config == if old(hasConfig) then WriteBack(old(config), state) else old(config)
      ensures hasConfig == old(hasConfig) && history == old(history)
    {
      if overBudget {
        var scale := if MinScale < state.currentScale - 0.1 then state.currentScale - 0.1 else MinScale;
        var quality := if 0.0 < state.currentQuality - 0.15 then state.currentQuality - 0.15 else 0.0;
        state := state.(currentScale := scale, currentQuality := quality);
      } else {
        var scale := if state.currentScale + 0.05 < MaxRaisedScale then state.currentScale + 0.05 else MaxRaisedScale;
        var quality := if state.currentQuality + 0.05 < 1.0 then state.currentQuality + 0.05 else 1.0;
        state := state.(currentScale := scale, currentQuality := quality);
      }
      if hasConfig {
        config := config.(modelScale := state.currentScale, quality := state.currentQuality);
      }
      state := state.(consecutiveOverBudget := 0, consecutiveUnderBudget := 0);
    }

    /**
     * Records one frame time; `temperature` is what `getGpuTemperature`
     * would read now, consulted only with thermal protection on.
     */
    method OnFrameComplete(frameTimeMs: real, temperature: real) returns (onBudget: bool)
      requires Valid() && hasConfig
      modifies this
      ensures Valid() && hasConfig
      ensures StepResult(Snapshot(), onBudget) == Step(old(Snapshot()), frameTimeMs, temperature)
    {
      ghost var before := Snapshot();
      history := history + [frameTimeMs];
      if |history| > HistorySize {
        history := history[1..];
      }
      assert history == Window(before.history, frameTimeMs);

      state := state.(avgMs := Mean(history), maxMs := SeqMax(history), minMs := SeqMin(history));

      var overBudget := frameTimeMs > state.targetMs;
      if overBudget {
        state := state.(consecutiveOverBudget := state.consecutiveOverBudget + 1, consecutiveUnderBudget := 0);
      } else {
        state := state.(consecutiveUnderBudget := state.consecutiveUnderBudget + 1, consecutiveOverBudget := 0);
      }
      ghost var observed := Observed(before.state, history, overBudget, config.thermalProtection, temperature);
      ghost var rule := Decide(config.thermalProtection, temperature, observed);

      if config.thermalProtection {
        state := state.(throttled := temperature > ThrottleTemp);
        assert state == observed;
        if temperature > CriticalTemp {
          state := state.(currentScale := MinScale, currentQuality := 0.0);
          config := config.(modelScale := MinScale, quality := 0.0);
          assert rule == Critical && state == Applied(rule, observed);
          return false;
        }
        if state.throttled && state.consecutiveOverBudget >= 3 {
          AdjustQuality(true);
          assert rule == ThrottledReduce && state == Applied(rule, observed);
          return false;
        }
      }
      assert state == observed;

      if state.consecutiveOverBudget >= 5 {
        AdjustQuality(true);
        assert rule == OverBudgetReduce && state == Applied(rule, observed);
        return false;
      }

      if state.consecutiveUnderBudget >= 30 && state.avgMs < state.targetMs * 0.7 {
        AdjustQuality(false);
        assert rule == HeadroomIncrease && state == Applied(rule, observed);
      } else {
        assert rule == NoRule;
      }
      return !overBudget;
    }
  }
}
