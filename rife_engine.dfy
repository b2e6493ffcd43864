/**
 * The RIFE interpolation engine's control logic: which backend runs, the
 * timestep schedule of a multi-frame request and its truncation at the
 * first frame that misses the budget, the quality-to-scale tiers, the
 * clamps, the padding of model input sizes to a multiple of 32, and the
 * metadata and dispatch schedule of the compute fallback.
 *
 * The inference itself is an oracle: each attempt reports how long it
 * took (in ms) and which semaphore the submitted work signals, and an
 * attempt succeeds exactly when it finished within the frame budget.
 */
module Rife {
  import opened Types
  import opened Compute

  datatype Backend = Ncnn | ComputeFallback

  /** What the clock and the GPU submission report for one interpolation attempt. */
  datatype Attempt = Attempt(elapsedMs: real, doneSemaphore: Handle)

  /** The outcome of `interpolate`: success, the written output frame and the commands recorded. */
  datatype Interpolation = Interpolation(ok: bool, output: FrameData, commands: seq<Command>)

  /** The fallback's workgroup tile edge and its optical-flow block size. */
  const FallbackTile: nat := 16

  /** The timestep of the `i`-th of `count` intermediate frames: (i+1)/(count+1). */
  function Timestep(i: nat, count: nat): real
  {
    (i + 1) as real / (count + 1) as real
  }

  lemma DivStrict(a: real, b: real, d: real)
    requires d > 0.0 && a < b
    ensures a / d < b / d
  {
    assert a / d * d == a && b / d * d == b;
  }

  /**
   * The timesteps of a request for `count` frames lie strictly between 0
   * and 1 and increase with the index; a single frame sits at 0.5.
   */
  lemma TimestepSchedule(count: nat)
    ensures forall i :: 0 <= i < count ==> 0.0 < Timestep(i, count) < 1.0
    ensures forall i, j :: 0 <= i < j < count ==> Timestep(i, count) < Timestep(j, count)
    ensures count == 1 ==> Timestep(0, 1) == 0.5
  {
    var d := (count + 1) as real;
    forall i | 0 <= i < count ensures 0.0 < Timestep(i, count) < 1.0 {
      DivStrict(0.0, (i + 1) as real, d);
      DivStrict((i + 1) as real, d, d);
    }
    forall i, j | 0 <= i < j < count ensures Timestep(i, count) < Timestep(j, count) {
      DivStrict((i + 1) as real, (j + 1) as real, d);
    }
  }

  /** `std::max(lo, std::min(hi, x))`. */
  function Clamp(x: real, lo: real, hi: real): (r: real)
    requires lo <= hi
    ensures lo <= r <= hi
    ensures lo <= x <= hi ==> r == x
    ensures x < lo ==> r == lo
    ensures x > hi ==> r == hi
  {
    var m := if hi < x then hi else x;
    if m < lo then lo else m
  }

  /** The model scale `setQuality` picks for a clamped quality. */
  function ScaleTier(quality: real): real
  {
    if quality < 0.3 then 0.25 else if quality < 0.6 then 0.5 else 0.75
  }

  /** Tiers are 0.25, 0.5 and 0.75 and never decrease as quality rises. */
  lemma ScaleTierMonotone(q1: real, q2: real)
    requires q1 <= q2
    ensures ScaleTier(q1) <= ScaleTier(q2)
    ensures ScaleTier(q1) in {0.25, 0.5, 0.75}
  {
  }

  /** The model input edge: the scaled edge truncated to an integer, then rounded up to a multiple of 32. */
  function ScaledDim(dim: nat, scale: real): (w: nat)
    requires scale >= 0.0
    ensures w as real <= dim as real * scale < w as real + 1.0
  {
    (dim as real * scale).Floor
  }

  function PaddedDim(w: nat): (p: nat)
    ensures p >= w
    ensures p % 32 == 0
    ensures p - w < 32
  {
    (w + 31) / 32 * 32
  }

  /** The smallest multiple of 32 that is at least `w`: no multiple of 32 lies in [w, padded). */
  lemma PaddedIsLeast(w: nat, m: nat)
    requires m % 32 == 0 && m >= w
    ensures PaddedDim(w) <= m
  {
  }

  /**
   * The fallback's command schedule for one frame: optical flow, warp,
   * blend, each over ceil(w/16) x ceil(h/16) groups and separated by a
   * barrier; flow and blend carry the timestep.
   */
  function FallbackSchedule(frame1: FrameData, timestep: real): (cmds: seq<Command>)
    ensures BarrierSeparated(cmds) && |cmds| == 5
    ensures cmds[0] == Grid("optical_flow", frame1.width, frame1.height, FallbackTile,
                            TimestepPush(timestep, frame1.width, frame1.height, FallbackTile))
    ensures cmds[2] == Grid("frame_warp", frame1.width, frame1.height, FallbackTile, NoPush)
    ensures cmds[4] == Grid("frame_blend", frame1.width, frame1.height, FallbackTile,
                            BlendPush(timestep, frame1.width, frame1.height))
  {
    [ Grid("optical_flow", frame1.width, frame1.height, FallbackTile,
           TimestepPush(timestep, frame1.width, frame1.height, FallbackTile)),
      Barrier,
      Grid("frame_warp", frame1.width, frame1.height, FallbackTile, NoPush),
      Barrier,
      Grid("frame_blend", frame1.width, frame1.height, FallbackTile,
           BlendPush(timestep, frame1.width, frame1.height)) ]
  }

  /** `outputs.resize(n)`: keeps a prefix, or pads with default frames. */
  function Resized(s: seq<FrameData>, n: nat): (r: seq<FrameData>)
    ensures |r| == n
    ensures forall i :: 0 <= i < n && i < |s| ==> r[i] == s[i]
    ensures forall i :: |s| <= i < n ==> r[i] == DefaultFrame()
  {
    if n <= |s| then s[..n] else s + seq(n - |s|, _ => DefaultFrame())
  }

  class RifeEngine {
    /** Whether the NCNN backend was compiled in. */
    const ncnnEnabled: bool
    var config: Config
    var modelLoaded: bool

    constructor (ncnnEnabled: bool)
      ensures this.ncnnEnabled == ncnnEnabled
      ensures config == DefaultConfig() && !modelLoaded
    {
      this.ncnnEnabled := ncnnEnabled;
      config := DefaultConfig();
      modelLoaded := false;
    }

    /**
     * `init`: stores the configuration; fails when the sampler cannot be
     * created; with NCNN compiled in, a loaded model selects NCNN;
     * otherwise the compute fallback is set up, which always succeeds.
     */
    method Init(cfg: Config, samplerCreated: bool, ncnnModelLoaded: bool) returns (ok: bool)
      modifies this
      ensures config == cfg
      ensures ok == samplerCreated
      ensures modelLoaded == (old(modelLoaded) || (samplerCreated && ncnnEnabled && ncnnModelLoaded))
    {
      config := cfg;
      if !samplerCreated {
        return false;
      }
      if ncnnEnabled && ncnnModelLoaded {
        modelLoaded := true;
        return true;
      }
      return true;
    }

    method Shutdown()
      modifies this
      ensures !modelLoaded && config == old(config)
    {
      modelLoaded := false;
    }

    /** NCNN runs only when it is compiled in and its model loaded. */
    function ActiveBackend(): (b: Backend)
      reads this
      ensures b == Ncnn <==> ncnnEnabled && modelLoaded
    {
      if ncnnEnabled && modelLoaded then Ncnn else ComputeFallback
    }

    function BudgetMs(): real
      reads this
    {
      NsToMs(config.maxFrameTimeNs)
    }

    /**
     * `interpolate`. Either backend succeeds exactly when the attempt
     * finished within the budget. The NCNN path records nothing and leaves
     * the output frame as it was; the fallback records its schedule and
     * marks the output as synthetic, stamped halfway between the inputs
     * and signalled by the submission's semaphore.
     */
    function Interpolate(frame1: FrameData, frame2: FrameData, timestep: real, output: FrameData, attempt: Attempt): (r: Interpolation)
      reads this
      ensures r.ok <==> attempt.elapsedMs < BudgetMs()
      ensures ActiveBackend() == Ncnn ==> r.output == output && r.commands == []
      ensures ActiveBackend() == ComputeFallback ==>
        && r.commands == FallbackSchedule(frame1, timestep)
        && r.output.isInterpolated
        && r.output.timestampNs == (frame1.timestampNs + frame2.timestampNs) / 2
        && r.output.renderComplete == attempt.doneSemaphore
        && r.output.(isInterpolated := output.isInterpolated, timestampNs := output.timestampNs,
                     renderComplete := output.renderComplete) == output
    {
      var ok := attempt.elapsedMs < BudgetMs();
      if ncnnEnabled && modelLoaded then
        Interpolation(ok, output, [])
      else
        var out := output.(renderComplete := attempt.doneSemaphore,
                           isInterpolated := true,
                           timestampNs := (frame1.timestampNs + frame2.timestampNs) / 2);
        Interpolation(ok, out, FallbackSchedule(frame1, timestep))
    }

    /** The index of the first attempt at or after `i` that misses the budget, or `count` if none does. */
    function FirstMiss(i: nat, count: nat, attempts: nat -> Attempt): (k: nat)
      reads this
      requires i <= count
      ensures i <= k <= count
      ensures forall j :: i <= j < k ==> attempts(j).elapsedMs < BudgetMs()
      ensures k < count ==> attempts(k).elapsedMs >= BudgetMs()
      decreases count - i
    {
      if i == count then count
      else if attempts(i).elapsedMs < BudgetMs() then FirstMiss(i + 1, count, attempts)
      else i
    }

    /**
     * `interpolateMulti`: resizes `outputs` to `count` and fills slot i
     * with the frame at timestep (i+1)/(count+1), in increasing i. At the
     * first miss the vector is cut to the frames already produced and the
     * call reports whether there is at least one; no later timestep is
     * attempted. `timesteps` lists the timesteps attempted, in order.
     */
    method InterpolateMulti(frame1: FrameData, frame2: FrameData, count: nat,
                            outputsIn: seq<FrameData>, attempts: nat -> Attempt)
      returns (ok: bool, outputs: seq<FrameData>, timesteps: seq<real>)
      ensures var k := FirstMiss(0, count, attempts);
        && |outputs| == k
        && ok == (k == count || k > 0)
        && |timesteps| == (if k < count then k + 1 else count)
      ensures forall i :: 0 <= i < |timesteps| ==> timesteps[i] == Timestep(i, count)
      ensures forall i :: 0 <= i < |outputs| ==>
        outputs[i] == Interpolate(frame1, frame2, Timestep(i, count), Resized(outputsIn, count)[i], attempts(i)).output
    {
      outputs := Resized(outputsIn, count);
      ghost var initial := outputs;
      timesteps := [];
      var i := 0;
      while i < count
        invariant 0 <= i <= count
        invariant FirstMiss(0, count, attempts) == FirstMiss(i, count, attempts)
        invariant |outputs| == count && |timesteps| == i
        invariant forall j :: 0 <= j < i ==> timesteps[j] == Timestep(j, count)
        invariant forall j :: i <= j < count ==> outputs[j] == initial[j]
        invariant forall j :: 0 <= j < i ==>
          outputs[j] == Interpolate(frame1, frame2, Timestep(j, count), initial[j], attempts(j)).output
      {
        var t := (i + 1) as real / (count + 1) as real;
        timesteps := timesteps + [t];
        var r := Interpolate(frame1, frame2, t, outputs[i], attempts(i));
        outputs := outputs[i := r.output];
        if !r.ok {
          outputs := outputs[..i];
          return i > 0, outputs, timesteps;
        }
        i := i + 1;
      }
      return true, outputs, timesteps;
    }

    /** Clamps quality into [0, 1] and picks the model scale tier from it; nothing else changes. */
    method SetQuality(quality: real)
      modifies this
      ensures config == old(config).(quality := Clamp(quality, 0.0, 1.0),
                                     modelScale := ScaleTier(Clamp(quality, 0.0, 1.0)))
      ensures 0.0 <= config.quality <= 1.0 && config.modelScale in {0.25, 0.5, 0.75}
      ensures modelLoaded == old(modelLoaded)
    {
      var q := if 1.0 < quality then 1.0 else quality;
      q := if q < 0.0 then 0.0 else q;
      config := config.(quality := q);
      if config.quality < 0.3 {
        config := config.(modelScale := 0.25);
      } else if config.quality < 0.6 {
        config := config.(modelScale := 0.5);
      } else {
        config := config.(modelScale := 0.75);
      }
    }

    /** Clamps the model scale into [0.25, 1]; nothing else changes. */
    method SetModelScale(scale: real)
      modifies this
      ensures config == old(config).(modelScale := Clamp(scale, 0.25, 1.0))
      ensures 0.25 <= config.modelScale <= 1.0
      ensures modelLoaded == old(modelLoaded)
    {
      var s := if 1.0 < scale then 1.0 else scale;
      s := if s < 0.25 then 0.25 else s;
      config := config.(modelScale := s);
    }

    /** The padded NCNN input size for a frame, under the current model scale. */
    function ModelInputSize(frame: FrameData): (size: (nat, nat))
      reads this
      requires config.modelScale >= 0.0
      ensures size.0 % 32 == 0 && size.1 % 32 == 0
      ensures size.0 >= ScaledDim(frame.width, config.modelScale)
      ensures size.1 >= ScaledDim(frame.height, config.modelScale)
      ensures size.0 - ScaledDim(frame.width, config.modelScale) < 32
      ensures size.1 - ScaledDim(frame.height, config.modelScale) < 32
    {
      (PaddedDim(ScaledDim(frame.width, config.modelScale)),
       PaddedDim(ScaledDim(frame.height, config.modelScale)))
    }
  }
}
