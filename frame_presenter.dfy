/**
 * The presenter: the pipeline orchestrator between capture and display.
 * Captured frames enter a capacity-8 queue; the interpolation worker pops
 * them one at a time and feeds the present queue (capacity 16) with the
 * previous frame followed by the synthetic frames between it and the
 * current one; the presentation worker pops the present queue once per
 * display interval and hands each frame to the installed sink.
 *
 * The two workers are threads in the source; here each is one iteration
 * of its loop, as a method. Clock readings are parameters, the
 * interpolation engine's per-frame outcome is the engine's oracle, and the
 * sink is identified by a number, with the frames handed to it recorded
 * in `delivered`.
 */
module Presenter {
  import opened Types
  import opened FrameQueues
  import opened Rife

  const CapturedCapacity: nat := 8
  const PresentCapacity: nat := 16
  const NsPerSecond: nat := 1_000_000_000

  /** Identifies an installed present callback. */
  type SinkId = nat

  /** The game-side frame rate the fixed modes assume. */
  const BaseFps: nat := 30

  /**
   * `getInterpolationCount`: how many synthetic frames go between two
   * captured ones. OFF adds none; each named mode adds enough to lift a
   * 30 fps game to its rate; any other value of the enum adds one.
   */
  function InterpolationCount(mode: Mode): (n: nat)
    ensures n == 0 <==> mode == Off
    ensures mode == Fps60 ==> BaseFps * (n + 1) == 60
    ensures mode == Fps90 ==> BaseFps * (n + 1) == 90
    ensures mode == Fps120 ==> BaseFps * (n + 1) == 120
    ensures mode > Fps120 ==> n == 1
  {
    match mode
    case 0 => 0
    case 1 => 1
    case 2 => 2
    case 3 => 3
    case _ => 1
  }

  /** The named modes ask for strictly more synthetic frames as their rate rises. */
  lemma InterpolationCountMonotone()
    ensures InterpolationCount(Off) < InterpolationCount(Fps60) < InterpolationCount(Fps90) < InterpolationCount(Fps120)
  {
  }

  /**
   * The queue contents after pushing `frames` in order onto a queue of
   * the given capacity, with nothing popped in between: each push is
   * accepted while fewer than capacity-1 frames are held.
   */
  function Enqueue(contents: seq<FrameData>, frames: seq<FrameData>, capacity: nat): (r: seq<FrameData>)
    decreases |frames|
  {
    if frames == [] || |contents| >= capacity - 1 then contents
    else Enqueue(contents + [frames[0]], frames[1..], capacity)
  }

  /** How many of `n` pushes a queue with `held` frames and the given capacity accepts. */
  function Accepted(held: nat, n: nat, capacity: nat): (a: nat)
    ensures a <= n
  {
    if held >= capacity - 1 then 0
    else if n <= capacity - 1 - held then n
    else capacity - 1 - held
  }

  /** `interval` is the largest whole number of nanoseconds that fits `rate` times into one second. */
  predicate IntervalFits(interval: nat, rate: nat)
  {
    interval * rate <= NsPerSecond < (interval + 1) * rate
  }

  /**
   * The present interval for a refresh rate: one second divided by the rate
   * in whole nanoseconds, i.e. the largest interval that fits `rate` times
   * into one second.
   */
  function PresentInterval(rate: nat): (interval: nat)
    requires rate > 0
    ensures IntervalFits(interval, rate)
  {
    NsPerSecond / rate
  }

  /** Drops a present-queue holding `held` frames counts for one refused push of a single frame. */
  function QueueRefusal(held: nat): nat
  {
    if held >= PresentCapacity - 1 then 1 else 0
  }

  /** Drops the present queue counts for the push loop over `n` frames: one if any frame is refused. */
  function QueueRefusals(held: nat, n: nat): nat
  {
    if Accepted(held, n, PresentCapacity) < n then 1 else 0
  }

  /** Sequential pushes accept a prefix of the frames: as many as fit, in order. */
  lemma {:induction false} EnqueuePrefix(contents: seq<FrameData>, frames: seq<FrameData>, capacity: nat)
    ensures Accepted(|contents|, |frames|, capacity) <= |frames|
    ensures Enqueue(contents, frames, capacity) == contents + frames[..Accepted(|contents|, |frames|, capacity)]
    decreases |frames|
  {
    if frames == [] || |contents| >= capacity - 1 {
      assert frames[..0] == [];
    } else {
      EnqueuePrefix(contents + [frames[0]], frames[1..], capacity);
      var a := Accepted(|contents|, |frames|, capacity);
      assert Accepted(|contents| + 1, |frames| - 1, capacity) == a - 1;
      assert [frames[0]] + frames[1..][..a - 1] == frames[..a];
    }
  }

  /** The synthetic frames as the presenter resizes them to its own output size. */
  function Sized(frames: seq<FrameData>, width: nat, height: nat): (r: seq<FrameData>)
    ensures |r| == |frames|
    ensures forall i :: 0 <= i < |r| ==> r[i] == frames[i].(width := width, height := height)
  {
    seq(|frames|, i requires 0 <= i < |frames| => frames[i].(width := width, height := height))
  }

  class FramePresenter {
    var config: Config
    var interpolator: RifeEngine?
    var device: Handle
    var presentQueue: Handle
    var swapchain: Handle
    var width: nat
    var height: nat
    /** Raw captured frames. */
    const captured: FrameQueue
    /** Frames ready to present, synthetic ones included. */
    const presented: FrameQueue
    var running: bool
    var framesGenerated: nat
    var framesDropped: nat
    var callback: Option<SinkId>
    /** The frames handed to present callbacks, in order, with the callback that received each. */
    var delivered: seq<(SinkId, FrameData)>
    var previousFrame: FrameData
    var hasPreviousFrame: bool
    var presentIntervalNs: nat
    var lastPresentNs: nat

    ghost var Repr: set<object>

    ghost predicate Valid()
      reads this, Repr
    {
      && this in Repr
      && captured in Repr && captured.Repr <= Repr && this !in captured.Repr && captured.Valid()
      && presented in Repr && presented.Repr <= Repr && this !in presented.Repr && presented.Valid()
      && captured.Repr !! presented.Repr
      && captured.capacity == CapturedCapacity && presented.capacity == PresentCapacity
      && (interpolator != null ==> interpolator !in Repr)
    }

    /** A presenter before `init`: stopped, no previous frame, both timers 0, both queues empty. */
    constructor ()
      ensures Valid() && fresh(Repr)
      ensures !running && !hasPreviousFrame && presentIntervalNs == 0 && lastPresentNs == 0
      ensures captured.Contents == [] && presented.Contents == []
      ensures framesGenerated == 0 && framesDropped == 0 && callback == None && delivered == []
      ensures config == DefaultConfig() && interpolator == null
    {
      config := DefaultConfig();
      interpolator := null;
      device, presentQueue, swapchain := NullHandle, NullHandle, NullHandle;
      width, height := 0, 0;
      captured := new FrameQueue(CapturedCapacity);
      presented := new FrameQueue(PresentCapacity);
      running := false;
      framesGenerated, framesDropped := 0, 0;
      callback := None;
      delivered := [];
      previousFrame := DefaultFrame();
      hasPreviousFrame := false;
      presentIntervalNs, lastPresentNs := 0, 0;
      new;
      Repr := {this} + captured.Repr + presented.Repr;
    }

    /**
     * `init`: stores the collaborators, the output size and the
     * configuration, and sets the present interval to one second divided
     * (in whole nanoseconds) by the target refresh rate. It always succeeds.
     */
    method Init(engine: RifeEngine?, dev: Handle, queue: Handle, chain: Handle, w: nat, h: nat, cfg: Config)
        returns (ok: bool)
      requires Valid() && cfg.targetRefreshRate > 0
      requires engine != null ==> engine !in Repr
      modifies this`interpolator, this`device, this`presentQueue, this`swapchain
      modifies this`width, this`height, this`config, this`presentIntervalNs
      ensures Valid() && Repr == old(Repr) && ok
      ensures interpolator == engine && config == cfg && width == w && height == h
      ensures device == dev && presentQueue == queue && swapchain == chain
      ensures presentIntervalNs == PresentInterval(cfg.targetRefreshRate)
      ensures IntervalFits(presentIntervalNs, cfg.targetRefreshRate)
      ensures unchanged(this`running, this`hasPreviousFrame, this`lastPresentNs, this`framesGenerated,
                        this`framesDropped, this`callback, this`delivered, this`previousFrame)
    {
      var interval := PresentInterval(cfg.targetRefreshRate);
      interpolator := engine;
      device := dev;
      presentQueue := queue;
      swapchain := chain;
      width := w;
      height := h;
      config := cfg;
      presentIntervalNs := interval;
      ok := true;
    }

    /** Sets the running flag; a no-op when already running. */
    method Start()
      modifies this`running
      ensures running
    {
      if running {
        return;
      }
      running := true;
    }

    /** Clears the running flag; a no-op when already stopped. */
    method Stop()
      modifies this`running
      ensures !running
    {
      if !running {
        return;
      }
      running := false;
    }

    /** `shutdown`: stops and empties both queues. */
    method Shutdown()
      requires Valid()
      modifies captured, presented, this`running
      ensures Valid()
      ensures !running && captured.Contents == [] && presented.Contents == []
      ensures captured.dropped == old(captured.dropped) && presented.dropped == old(presented.dropped)
    {
      Stop();
      captured.Clear();
      presented.Clear();
    }

    /** `setMode`: overwrites the mode and nothing else. */
    method SetMode(mode: Mode)
      modifies this`config
      ensures config == old(config).(mode := mode)
    {
      config := config.(mode := mode);
    }

    /** `setQuality`: records the quality and, when an engine is attached, passes it on. */
    method SetQuality(quality: real)
      requires Valid()
      modifies this`config, interpolator
      ensures Valid()
      ensures config == old(config).(quality := quality)
      ensures interpolator != null ==>
        interpolator.config == old(interpolator.config).(quality := Clamp(quality, 0.0, 1.0),
                                                          modelScale := ScaleTier(Clamp(quality, 0.0, 1.0)))
      ensures interpolator != null ==> interpolator.modelLoaded == old(interpolator.modelLoaded)
    {
      config := config.(quality := quality);
      if interpolator != null {
        interpolator.SetQuality(quality);
      }
    }

    /** `setPresentCallback`: installs the sink later presents go to (or removes it). */
    method SetPresentCallback(sink: Option<SinkId>)
      modifies this`callback
      ensures callback == sink
    {
      callback := sink;
    }

    /** `presentFrame`: hands the frame to the installed sink; without one it does nothing. */
    method PresentFrame(frame: FrameData)
      modifies this`delivered
      ensures callback.Some? ==> delivered == old(delivered) + [(callback.value, frame)]
      ensures callback.None? ==> delivered == old(delivered)
    {
      if callback.Some? {
        delivered := delivered + [(callback.value, frame)];
        return;
      }
    }

    /** `onFrameCaptured`: queues the frame; a refused push counts one dropped frame. */
    method OnFrameCaptured(frame: FrameData)
      requires Valid()
      modifies captured.Repr, this`framesDropped
      ensures Valid()
      ensures old(|captured.Contents|) < CapturedCapacity - 1 ==>
        captured.Contents == old(captured.Contents) + [frame] && framesDropped == old(framesDropped)
      ensures old(|captured.Contents|) >= CapturedCapacity - 1 ==>
        captured.Contents == old(captured.Contents) && framesDropped == old(framesDropped) + 1
    {
      var ok := captured.Push(frame);
      if !ok {
        framesDropped := framesDropped + 1;
      }
    }

    /** One push onto the present queue whose result the worker ignores: a full queue counts a drop. */
    method PushPresented(frame: FrameData)
      requires Valid()
      modifies presented.Repr
      ensures Valid() && presented.Repr == old(presented.Repr)
      ensures presented.Contents == Enqueue(old(presented.Contents), [frame], PresentCapacity)
      ensures presented.dropped == old(presented.dropped) + QueueRefusal(|old(presented.Contents)|)
    {
      var pushed := presented.Push(frame);
      EnqueueOne(old(presented.Contents), frame);
    }

    /**
     * The loop over the synthetic frames: each is resized to the
     * presenter's output size and pushed; every accepted push counts one
     * generated frame, and the first refused push counts one dropped frame
     * and ends the loop.
     */
    method PushSynthetic(frames: seq<FrameData>) returns (accepted: nat)
      requires Valid()
      modifies presented.Repr, this`framesGenerated, this`framesDropped
      ensures Valid()
      ensures accepted == Accepted(old(|presented.Contents|), |frames|, PresentCapacity)
      ensures presented.Contents == Enqueue(old(presented.Contents), Sized(frames, width, height), PresentCapacity)
      ensures framesGenerated == old(framesGenerated) + accepted
      ensures framesDropped == old(framesDropped) + (if accepted < |frames| then 1 else 0)
      ensures presented.dropped == old(presented.dropped) + (if accepted < |frames| then 1 else 0)
    {
      ghost var start := presented.Contents;
      ghost var sized := Sized(frames, width, height);
      EnqueuePrefix(start, sized, PresentCapacity);
      ghost var room := Accepted(|start|, |frames|, PresentCapacity);
      accepted := 0;
      while accepted < |frames|
        invariant Valid() && presented.Repr == old(presented.Repr)
        invariant accepted <= room
        invariant presented.Contents == start + sized[..accepted]
        invariant framesGenerated == old(framesGenerated) + accepted
        invariant framesDropped == old(framesDropped) && presented.dropped == old(presented.dropped)
      {
        var frame := frames[accepted].(width := width, height := height);
        var ok := presented.Push(frame);
        if !ok {
          framesDropped := framesDropped + 1;
          return;
        }
        assert sized[..accepted + 1] == sized[..accepted] + [frame];
        framesGenerated := framesGenerated + 1;
        accepted := accepted + 1;
      }
      assert sized[..accepted] == sized;
    }

    /**
     * The interpolating branch of the worker, for a current frame after a
     * previous one: the previous frame is queued, the engine is asked for
     * the synthetic frames between the two, and those are pushed (see
     * `PushSynthetic`); if the engine fails, every requested frame counts
     * as dropped.
     */
    method InterpolateBetween(current: FrameData, attempts: nat -> Attempt) returns (synthetic: seq<FrameData>, ok: bool)
      requires Valid() && interpolator != null && InterpolationCount(config.mode) > 0
      modifies presented.Repr, this`framesGenerated, this`framesDropped
      ensures Valid()
      ensures
        var count := InterpolationCount(config.mode);
        var afterPrevious := Enqueue(old(presented.Contents), [previousFrame], PresentCapacity);
        && |synthetic| == interpolator.FirstMiss(0, count, attempts)
        && ok == (|synthetic| == count || |synthetic| > 0)
        && (forall i :: 0 <= i < |synthetic| ==>
              synthetic[i] == interpolator.Interpolate(previousFrame, current, Timestep(i, count),
                                                       DefaultFrame(), attempts(i)).output)
        && (ok ==>
              && presented.Contents == Enqueue(afterPrevious, Sized(synthetic, width, height), PresentCapacity)
              && framesGenerated == old(framesGenerated) + Accepted(|afterPrevious|, |synthetic|, PresentCapacity)
              && framesDropped == old(framesDropped)
                   + (if Accepted(|afterPrevious|, |synthetic|, PresentCapacity) < |synthetic| then 1 else 0))
        && (!ok ==>
              && presented.Contents == afterPrevious
              && framesGenerated == old(framesGenerated) && framesDropped == old(framesDropped) + count)
      ensures presented.dropped == old(presented.dropped) + QueueRefusal(|old(presented.Contents)|)
        + (if ok then QueueRefusals(|Enqueue(old(presented.Contents), [previousFrame], PresentCapacity)|, |synthetic|) else 0)
    {
      var count := InterpolationCount(config.mode);
      PushPresented(previousFrame);
      ghost var afterPrevious := presented.Contents;
      var timesteps;
      ok, synthetic, timesteps := interpolator.InterpolateMulti(previousFrame, current, count, [], attempts);
      ResizedEmpty(count);
      assert presented.Contents == afterPrevious;
      if ok {
        var accepted := PushSynthetic(synthetic);
      } else {
        framesDropped := framesDropped + count;
      }
    }

    /**
     * One iteration of the interpolation worker. Nothing happens when no
     * frame was captured. The first frame is queued for presentation and
     * remembered. Each later frame: with OFF (no synthetic frames) it is
     * queued itself; otherwise `InterpolateBetween` runs. Either way the
     * current frame becomes the previous one. `synthetic` and `ok` are what
     * the engine returned (empty and false when it was not called).
     */
    method InterpolationStep(attempts: nat -> Attempt) returns (popped: bool, synthetic: seq<FrameData>, ok: bool)
      requires Valid()
      requires interpolator != null || InterpolationCount(config.mode) == 0
      modifies captured, presented.Repr, this`previousFrame, this`hasPreviousFrame
      modifies this`framesGenerated, this`framesDropped
      ensures Valid()
      ensures popped <==> old(captured.Contents) != []
      ensures !popped ==>
        && presented.Contents == old(presented.Contents) && captured.Contents == old(captured.Contents)
        && previousFrame == old(previousFrame) && hasPreviousFrame == old(hasPreviousFrame)
        && framesGenerated == old(framesGenerated) && framesDropped == old(framesDropped)
      ensures popped ==>
        && captured.Contents == old(captured.Contents)[1..]
        && previousFrame == old(captured.Contents)[0] && hasPreviousFrame
      ensures popped && (!old(hasPreviousFrame) || InterpolationCount(config.mode) == 0) ==>
        && presented.Contents == Enqueue(old(presented.Contents), [old(captured.Contents)[0]], PresentCapacity)
        && framesGenerated == old(framesGenerated) && framesDropped == old(framesDropped)
        && synthetic == [] && !ok
      ensures popped && old(hasPreviousFrame) && InterpolationCount(config.mode) > 0 ==>
        var count := InterpolationCount(config.mode);
        var afterPrevious := Enqueue(old(presented.Contents), [old(previousFrame)], PresentCapacity);
        && |synthetic| == interpolator.FirstMiss(0, count, attempts)
        && ok == (|synthetic| == count || |synthetic| > 0)
        && (forall i :: 0 <= i < |synthetic| ==>
              synthetic[i] == interpolator.Interpolate(old(previousFrame), old(captured.Contents)[0],
                                                       Timestep(i, count), DefaultFrame(), attempts(i)).output)
        && (ok ==>
              && presented.Contents == Enqueue(afterPrevious, Sized(synthetic, width, height), PresentCapacity)
              && framesGenerated == old(framesGenerated) + Accepted(|afterPrevious|, |synthetic|, PresentCapacity)
              && framesDropped == old(framesDropped)
                   + (if Accepted(|afterPrevious|, |synthetic|, PresentCapacity) < |synthetic| then 1 else 0))
        && (!ok ==>
              && presented.Contents == afterPrevious
              && framesGenerated == old(framesGenerated) && framesDropped == old(framesDropped) + count)
      ensures captured.dropped == old(captured.dropped)
      ensures !popped ==> presented.dropped == old(presented.dropped)
      ensures popped && (!old(hasPreviousFrame) || InterpolationCount(config.mode) == 0) ==>
        presented.dropped == old(presented.dropped) + QueueRefusal(|old(presented.Contents)|)
      ensures popped && old(hasPreviousFrame) && InterpolationCount(config.mode) > 0 ==>
        presented.dropped == old(presented.dropped) + QueueRefusal(|old(presented.Contents)|)
          + (if ok then QueueRefusals(|Enqueue(old(presented.Contents), [old(previousFrame)], PresentCapacity)|,
                                      |synthetic|) else 0)
    {
      synthetic := [];
      ok := false;
      var frameOpt := captured.Pop();
      if frameOpt.None? {
        return false, synthetic, ok;
      }
      popped := true;
      var currentFrame := frameOpt.value;

      if !hasPreviousFrame {
        PushPresented(currentFrame);
        hasPreviousFrame := true;
      } else if InterpolationCount(config.mode) == 0 || config.mode == Off {
        PushPresented(currentFrame);
      } else {
        synthetic, ok := InterpolateBetween(currentFrame, attempts);
      }
      previousFrame := currentFrame;
    }

    /**
     * One iteration of the presentation worker, after its wait for the
     * next display slot: `waitedNs` is the clock reading once the wait is
     * over (never before the last present plus the interval) and `endNs`
     * the reading after the present. With nothing queued, the slot is
     * counted as a dropped frame and the slot time is recorded; otherwise
     * the oldest frame goes to `presentFrame`, the end time is recorded,
     * and the worker's frame counter moves on (restarting at each full
     * second since `fpsTimerNs`).
     */
    method PresentationStep(waitedNs: nat, endNs: nat, frameCount: nat, fpsTimerNs: nat)
        returns (shown: Option<FrameData>, newFrameCount: nat, newFpsTimerNs: nat)
      requires Valid()
      requires lastPresentNs + presentIntervalNs <= waitedNs <= endNs && fpsTimerNs <= endNs
      modifies presented, this`framesDropped, this`lastPresentNs, this`delivered
      ensures Valid()
      ensures shown == old(presented.Peek())
      ensures lastPresentNs >= old(lastPresentNs) + presentIntervalNs
      ensures old(presented.Contents) == [] ==>
        && framesDropped == old(framesDropped) + 1 && lastPresentNs == waitedNs
        && delivered == old(delivered) && newFrameCount == frameCount && newFpsTimerNs == fpsTimerNs
      ensures old(presented.Contents) != [] ==>
        && presented.Contents == old(presented.Contents)[1..]
        && framesDropped == old(framesDropped) && lastPresentNs == endNs
        && delivered == old(delivered) + (if callback.Some? then [(callback.value, old(presented.Contents)[0])] else [])
        && (endNs - fpsTimerNs >= NsPerSecond ==> newFrameCount == 0 && newFpsTimerNs == endNs)
        && (endNs - fpsTimerNs < NsPerSecond ==> newFrameCount == frameCount + 1 && newFpsTimerNs == fpsTimerNs)
    {
      newFrameCount, newFpsTimerNs := frameCount, fpsTimerNs;
      shown := presented.Pop();
      if shown.None? {
        framesDropped := framesDropped + 1;
        lastPresentNs := waitedNs;
        return;
      }
      PresentFrame(shown.value);
      lastPresentNs := endNs;
      newFrameCount := newFrameCount + 1;
      if endNs - fpsTimerNs >= NsPerSecond {
        newFrameCount := 0;
        newFpsTimerNs := endNs;
      }
    }
  }

  /** Resizing an empty output list to n yields n default frames. */
  lemma ResizedEmpty(n: nat)
    ensures forall i :: 0 <= i < n ==> Resized([], n)[i] == DefaultFrame()
  {
  }

  /** One push onto a queue: accepted iff there is room. */
  lemma EnqueueOne(contents: seq<FrameData>, frame: FrameData)
    ensures |contents| < PresentCapacity - 1 ==> Enqueue(contents, [frame], PresentCapacity) == contents + [frame]
    ensures |contents| >= PresentCapacity - 1 ==> Enqueue(contents, [frame], PresentCapacity) == contents
  {
    if |contents| < PresentCapacity - 1 {
      assert [frame][1..] == [];
    }
  }

  /** A fresh engine without NCNN and a presenter at the default configuration holding three captured frames. */
  method ThreeCaptured(f1: FrameData, f2: FrameData, f3: FrameData, w: nat, h: nat) returns (p: FramePresenter)
    ensures p.Valid() && fresh(p.Repr) && p.interpolator != null
    ensures p.interpolator.BudgetMs() == 8.0 && p.interpolator.ActiveBackend() == ComputeFallback
    ensures p.config == DefaultConfig() && p.width == w && p.height == h && !p.hasPreviousFrame
    ensures p.captured.Contents == [f1, f2, f3] && p.presented.Contents == []
  {
    var engine := new RifeEngine(false);
    p := new FramePresenter();
    var initialised := p.Init(engine, NullHandle, NullHandle, NullHandle, w, h, DefaultConfig());
    p.OnFrameCaptured(f1);
    p.OnFrameCaptured(f2);
    p.OnFrameCaptured(f3);
  }

  /**
   * At FPS_60, with the attempt within budget and room in the present
   * queue, each frame after the first queues the previous frame and then
   * one synthetic frame at the output size, stamped halfway between the two.
   */
  method LaterFrameAt60(p: FramePresenter, current: FrameData, rest: seq<FrameData>, attempts: nat -> Attempt)
      returns (synthetic: FrameData)
    requires p.Valid() && p.interpolator != null && p.config.mode == Fps60
    requires p.interpolator.BudgetMs() == 8.0 && p.interpolator.ActiveBackend() == ComputeFallback
    requires attempts(0).elapsedMs < 8.0
    requires p.hasPreviousFrame && p.captured.Contents == [current] + rest
    requires |p.presented.Contents| + 2 < PresentCapacity
    modifies p.captured, p.presented.Repr, p`previousFrame, p`hasPreviousFrame, p`framesGenerated, p`framesDropped
    ensures p.Valid() && p.previousFrame == current && p.hasPreviousFrame && p.captured.Contents == rest
    ensures p.presented.Contents == old(p.presented.Contents) + [old(p.previousFrame), synthetic]
    ensures synthetic.isInterpolated && synthetic.width == p.width && synthetic.height == p.height
    ensures synthetic.timestampNs == (old(p.previousFrame).timestampNs + current.timestampNs) / 2
  {
    ghost var before := p.presented.Contents;
    ghost var previous := p.previousFrame;
    assert p.interpolator.FirstMiss(1, 1, attempts) == 1;
    var popped, s, ok := p.InterpolationStep(attempts);
    assert |s| == 1 && ok;
    EnqueueOne(before, previous);
    EnqueuePrefix(before + [previous], Sized(s, p.width, p.height), PresentCapacity);
    synthetic := Sized(s, p.width, p.height)[0];
    assert Sized(s, p.width, p.height) == [synthetic];
  }

  /**
   * Three captures through a fresh presenter at FPS_60, with every
   * interpolation attempt within budget: the present queue receives the
   * first frame twice, then the synthetic frame between the first and the
   * second, the second frame, and the synthetic frame between the second
   * and the third, in that order.
   */
  method ThreeCaptures(f1: FrameData, f2: FrameData, f3: FrameData, w: nat, h: nat, attempts: nat -> Attempt)
      returns (shown: seq<FrameData>)
    requires attempts(0).elapsedMs < 8.0
    ensures |shown| == 5
    ensures shown[0] == f1 && shown[1] == f1 && shown[3] == f2
    ensures shown[2].isInterpolated && shown[2].width == w && shown[2].height == h
    ensures shown[2].timestampNs == (f1.timestampNs + f2.timestampNs) / 2
    ensures shown[4].isInterpolated && shown[4].width == w && shown[4].height == h
    ensures shown[4].timestampNs == (f2.timestampNs + f3.timestampNs) / 2
  {
    var p := ThreeCaptured(f1, f2, f3, w, h);
    var popped, none, ok := p.InterpolationStep(attempts);
    EnqueueOne([], f1);
    assert p.presented.Contents == [f1];
    var s12 := LaterFrameAt60(p, f2, [f3], attempts);
    var s23 := LaterFrameAt60(p, f3, [], attempts);
    ghost var expected := [f1, f1, s12, f2, s23];
    assert p.presented.Contents == expected;

    assert s12.width == w && s12.height == h && s23.width == w && s23.height == h;
    shown := Drain(p.presented);
    assert shown == expected;
  }

  /** Pops a queue until it is empty, returning the frames in the order they came out. */
  method Drain(q: FrameQueue) returns (out: seq<FrameData>)
    requires q.Valid()
    modifies q
    ensures q.Valid() && out == old(q.Contents) && q.Contents == []
  {
    out := [];
    var next := q.Pop();
    while next.Some?
      invariant q.Valid() && q.Repr == old(q.Repr)
      invariant next.Some? ==> out + [next.value] + q.Contents == old(q.Contents)
      invariant next.None? ==> out == old(q.Contents) && q.Contents == []
      decreases |q.Contents| + (if next.Some? then 1 else 0)
    {
      out := out + [next.value];
      ghost var queued := q.Contents;
      next := q.Pop();
      if next.Some? {
        assert queued == [next.value] + q.Contents;
      }
    }
  }
}
