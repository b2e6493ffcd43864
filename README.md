# Frame generation engine: a Dafny model of the host-side control logic

The engine raises an Android game's frame rate by inserting synthetic frames
between pairs of captured frames. A Vulkan layer intercepts presents. A capture
ring copies rendered frames. An interpolator (RIFE through NCNN, or a compute
fallback) produces intermediate frames. A presenter paces them out, and a
timing controller trades quality for latency. This project models the
sequential control logic around that GPU work and proves what it promises:

- `types.dfy` (module `Types`): configuration and frame records, their
  defaults, and the nanosecond-to-millisecond conversion.
- `compute.dfy` (module `Compute`): a recorded command buffer as a sequence of
  dispatch and barrier records, with ceiling-division group counts.
- `frame_queue.dfy` (module `FrameQueues`): the fixed-capacity ring buffer as
  a class over an `array`. Its `head`, `tail` and drop counter change in place,
  and a ghost `Contents` sequence gives the abstract queue.
- `timing_controller.dfy` (module `Timing`): the adaptive quality state
  machine. It has a 60-sample window, hysteresis counters, thermal override
  rules and clamped quality steps. It is a class whose `OnFrameComplete` is
  proved equal to a pure step function; lemmas about runs of steps sit beside
  that function.
- `rife_engine.dfy` (module `Rife`): backend choice, the timestep schedule and
  truncation of `interpolateMulti`, quality tiers, clamps, padding to
  multiples of 32, and the fallback dispatch schedule.
- `frame_presenter.dfy` (module `Presenter`): the mode-to-count map, one
  iteration of the interpolation worker and one of the presentation worker,
  the start/stop flag and the present sink. It includes a three-capture
  scenario.
- `motion_estimator.dfy` (module `Motion`) and `optical_flow.dfy` (module
  `Flow`): pyramid geometry, and the exact dispatch schedules their `estimate`
  and `computeBidirectional` record.
- `vulkan_capture.dfy` (module `Capture`): ring-slot bookkeeping, "last two
  frames" indexing, and the memory-type search.
- `vulkan_layer.dfy` (module `Layer`): the swapchain image-count rule, the
  per-device present bookkeeping (staging swap, `hasPrev`, counters), the
  staging reset rule, and the layer enumeration protocol.
- `shader_compiler.dfy` (module `Shaders`): SPIR-V blob validation, with the
  serialisation round trip.

Every Vulkan call, every NCNN call, the clock and the thermal sysfs reads are
parameters:

- an interpolation attempt reports its elapsed milliseconds;
- a creation reports success and the handle it made;
- a present or acquire reports its `VkResult`;
- a time is a number of nanoseconds passed in.

Floats are modelled as reals and 64-bit counters as unbounded naturals. Handles
are naturals, with 0 as the null handle.

The presenter's header promises to insert interpolated frames between the originals
(frame_presenter.h:3-8). Where such design promises and the code disagree, the model follows the code:

- The first captured frame is enqueued twice: once when it arrives, and again
  as the "previous frame" when the second frame arrives. Captures 1, 2, 3 at
  60 fps give the present order 1, 1, s(1,2), 2, s(2,3), not 1, s(1,2), 2,
  s(2,3). `Presenter.ThreeCaptures` states the order the code produces.
- When the first interpolation of `interpolateMulti` misses its budget, the
  call returns false with an empty result. It does not keep a non-empty
  prefix.
- On the NCNN path the output frame's metadata (`is_interpolated`, timestamp,
  semaphore) is left as the caller passed it. Only the compute fallback sets
  it.

## Model

| member | source | states |
|---|---|---|
| Types.DefaultConfig | app/src/main/cpp/framegen_types.h:40-58 | default mode is 60 fps, the budget is 8,000,000 ns, quality and model scale are 0.5, the ring holds 4, thermal protection is on, and the target is 120 Hz |
| Types.DefaultFrame | app/src/main/cpp/framegen_types.h:64-81 | a default frame has null handles, zero size, timestamp and index, RGBA8 format, and is not interpolated |
| Types.NsToMs | app/src/main/cpp/framegen_types.h:117-119 | the result is non-negative, and multiplied by 1,000,000 it gives back the nanoseconds |
| Types.NsToMsMonotone | app/src/main/cpp/framegen_types.h:117-119 | the conversion preserves order in both directions, and whole milliseconds convert exactly |
| Compute.CeilDiv | app/src/main/cpp/interpolation/motion_estimator.cpp:88-89 | `(n + size - 1) / size` is the least group count covering n: g·size ≥ n and g·size < n + size |
| Compute.Grid | app/src/main/cpp/interpolation/optical_flow.cpp:54-62 | a dispatch record carries the pipeline and push constants, and its X/Y group counts are the least covering the width and height with the tile size; Z is 1 |
| Compute.Dispatches | app/src/main/cpp/interpolation/optical_flow.cpp:54-138 | the dispatches of a recording, in order: every entry is a dispatch, and with the barriers they account for every command |
| Compute.BarrierCount | app/src/main/cpp/interpolation/optical_flow.cpp:63-66 | the number of barriers never exceeds the recording's length, and is zero iff the recording has no barrier |
| Compute.DispatchesMembers | app/src/main/cpp/interpolation/optical_flow.cpp:54-138 | a command is among the dispatches iff it is in the recording and is a dispatch |
| Compute.DispatchesAppend | app/src/main/cpp/interpolation/optical_flow.cpp:54-138 | appending recordings appends their dispatch lists and adds their barrier counts |
| Compute.BarrierSeparatedCounts | app/src/main/cpp/interpolation/motion_estimator.cpp:94-97 | in a recording where dispatches and barriers alternate, starting and ending with a dispatch, there are n/2+1 dispatches and n/2 barriers, and the k-th dispatch is entry 2k |
| FrameQueues.Distance | app/src/main/cpp/pipeline/frame_queue.h:62-66 | the unsigned ring distance `(head - tail) % Capacity` lies in [0, Capacity) and equals the mathematical residue |
| FrameQueues.SlotAfter | app/src/main/cpp/pipeline/frame_queue.h:49-51 | the slot i places after `tail` wraps modulo the capacity and stays in range |
| FrameQueues.FrameQueue.constructor | app/src/main/cpp/pipeline/frame_queue.h:80-83 | a new queue is empty, with `head = tail = 0`, no drops and default frames in every slot |
| FrameQueues.FrameQueue.Push | app/src/main/cpp/pipeline/frame_queue.h:27-40 | push succeeds iff fewer than Capacity−1 frames are held. On success the frame is stored at `head`, appended to the contents, and `head` advances modulo Capacity. On failure exactly one drop is counted and buffer, head and tail are unchanged |
| FrameQueues.FrameQueue.Pop | app/src/main/cpp/pipeline/frame_queue.h:42-52 | pop returns what `peek` would. An empty queue yields none and is unchanged. Otherwise it returns the oldest frame (`buffer[tail]`), removes it, and advances `tail` modulo Capacity |
| FrameQueues.FrameQueue.Peek | app/src/main/cpp/pipeline/frame_queue.h:54-60 | the oldest frame if any, else none, reading nothing it could change |
| FrameQueues.FrameQueue.Size | app/src/main/cpp/pipeline/frame_queue.h:62-66 | the ring distance is the number of frames held, and it never exceeds Capacity−1 |
| FrameQueues.FrameQueue.IsEmpty | app/src/main/cpp/pipeline/frame_queue.h:68 | true exactly when no frame is held |
| FrameQueues.FrameQueue.IsFull | app/src/main/cpp/pipeline/frame_queue.h:69 | true exactly when Capacity−1 frames are held |
| FrameQueues.FrameQueue.ResetStats | app/src/main/cpp/pipeline/frame_queue.h:72 | the drop counter becomes 0; contents, head and tail are unchanged |
| FrameQueues.FrameQueue.Clear | app/src/main/cpp/pipeline/frame_queue.h:74-77 | head and tail become 0 and the queue is empty; the drop counter is kept |
| FrameQueues.FillFromEmpty | app/src/main/cpp/pipeline/frame_queue.h:27-39 | pushing n frames into a fresh queue accepts min(n, Capacity−1) of them and drops the rest |
| Timing.DefaultState | app/src/main/cpp/pipeline/timing_controller.h:42-52 | the initial state has scale and quality 0.5, a 8 ms target, avg and max 0, min 999, is not throttled, and both counters are 0 |
| Timing.LastN | app/src/main/cpp/pipeline/timing_controller.cpp:28-31 | the last min(n, length) samples, as a suffix of the history |
| Timing.Window | app/src/main/cpp/pipeline/timing_controller.cpp:28-31 | after a `push_back` and eviction from the front, the newest sample is last, and the window is the last 60 of the history plus the sample |
| Timing.MaxMinBound | app/src/main/cpp/pipeline/timing_controller.cpp:34-37 | the window's max and min are attained by samples and bound every sample |
| Timing.SumBounds | app/src/main/cpp/pipeline/timing_controller.cpp:34-35 | a sum of samples lying between lo and hi lies between n·lo and n·hi |
| Timing.DivideBounds | app/src/main/cpp/pipeline/timing_controller.cpp:35 | dividing such a sum by the count lands between lo and hi |
| Timing.MeanBetween | app/src/main/cpp/pipeline/timing_controller.cpp:34-37 | min ≤ avg ≤ max over the window |
| Timing.Decide | app/src/main/cpp/pipeline/timing_controller.cpp:51-80 | each rule fires iff its own condition holds and no earlier rule fired: critical iff protection is on and the temperature is above 85; the throttled reduction iff protection is on, `throttled` is set and ≥ 3 frames are over budget; the plain reduction iff ≥ 5 are; a raise iff ≥ 30 are under budget and avg < 0.7·target; otherwise no rule |
| Timing.Lowered | app/src/main/cpp/pipeline/timing_controller.cpp:144-169 | a reduction lowers scale by 0.1 to no less than 0.25 and quality by 0.15 to no less than 0, and resets both counters |
| Timing.Raised | app/src/main/cpp/pipeline/timing_controller.cpp:152-169 | a raise adds 0.05 to scale, capped at 0.75, and 0.05 to quality, capped at 1, and resets both counters |
| Timing.WriteBack | app/src/main/cpp/pipeline/timing_controller.cpp:161-165 | after an adjustment the config's model scale and quality mirror the state |
| Timing.FrameTimes | app/src/main/cpp/pipeline/timing_controller.cpp:24-28 | the frame times of a run of samples, one per sample in order |
| Timing.StepWindowAndCounters | app/src/main/cpp/pipeline/timing_controller.cpp:28-48 | after a call the window has ≤ 60 samples ending with the new one, and min ≤ avg ≤ max. Over budget is strict (`>`); the other counter is reset, so one counter is always 0. The target is unchanged |
| Timing.StepOnBudget | app/src/main/cpp/pipeline/timing_controller.cpp:55-82 | a call returns true exactly when the frame met its budget and the critical rule did not fire |
| Timing.CriticalForcesMinimum | app/src/main/cpp/pipeline/timing_controller.cpp:55-63 | above 85 °C with protection on, scale becomes 0.25 and quality 0, the config mirrors both, `throttled` is set and the call returns false. The counters keep their ordinary update |
| Timing.ThermalOffIgnoresTemperature | app/src/main/cpp/pipeline/timing_controller.cpp:51-53 | with protection off the step is the same for every temperature, and `throttled` keeps its value |
| Timing.StepAdjustment | app/src/main/cpp/pipeline/timing_controller.cpp:55-80 | a step changes only the config's scale and quality; when they change the config mirrors the state; the range [0.25, 1] × [0, 1] is preserved |
| Timing.RaiseNeedsHeadroom | app/src/main/cpp/pipeline/timing_controller.cpp:78-80 | a quality increase happens only on the 30th consecutive in-budget frame with a window average below 70% of the target |
| Timing.LastNAppend | app/src/main/cpp/pipeline/timing_controller.cpp:28-31 | evicting to n before appending leaves the same last n as evicting after |
| Timing.RunWindow | app/src/main/cpp/pipeline/timing_controller.cpp:28-31 | after any run of calls the window holds exactly the last 60 frame times, oldest evicted first |
| Timing.OverStreakWaits | app/src/main/cpp/pipeline/timing_controller.cpp:39-48 | with protection off, fewer than 5 consecutive over-budget frames change neither scale, quality, target nor config; the counter counts them |
| Timing.FifthOverBudgetLowers | app/src/main/cpp/pipeline/timing_controller.cpp:72-75 | with protection off, five over-budget frames in a row from a zero counter apply exactly one reduction, and the config mirrors it |
| Timing.RunSplit | app/src/main/cpp/pipeline/timing_controller.cpp:24-83 | running two sample sequences one after the other is running their concatenation |
| Timing.UnderStreakWaits | app/src/main/cpp/pipeline/timing_controller.cpp:78-80 | with protection off, fewer than 30 consecutive in-budget frames change neither scale, quality, target nor config |
| Timing.ThrottledStreakLowers | app/src/main/cpp/pipeline/timing_controller.cpp:51-68 | with protection on, a temperature above 75 (which sets `throttled`) and at most 85, and at least two over-budget frames already counted, one more over-budget frame applies one reduction, keeps `throttled`, returns false, and the config mirrors it |
| Timing.MeanBelow | app/src/main/cpp/pipeline/timing_controller.cpp:34-37 | the average of a window whose every sample is below a bound is below it |
| Timing.LastNBelow | app/src/main/cpp/pipeline/timing_controller.cpp:28-31 | evicting old samples keeps every remaining one below a bound the whole window was below |
| Timing.HeadroomStepRaises | app/src/main/cpp/pipeline/timing_controller.cpp:78-80 | with protection off, 29 in-budget frames counted and a window average below 70% of the target, one more in-budget frame applies exactly one raise, and the config mirrors it |
| Timing.ThirtyHeadroomFramesRaise | app/src/main/cpp/pipeline/timing_controller.cpp:24-83 | with protection off, 30 frames in a row under 70% of the target from a zero counter, and a window already below that, apply exactly one raise, and the config mirrors it |
| Timing.ThermalReading | app/src/main/cpp/pipeline/timing_controller.cpp:130-142 | an unreadable zone gives −1; a raw value above 1000 is millidegrees and is divided by 1000; otherwise it is degrees; the reading is positive exactly when the raw value is |
| Timing.FirstPositive | app/src/main/cpp/pipeline/timing_controller.cpp:85-124 | the selected temperature is never negative |
| Timing.FirstPositiveSelects | app/src/main/cpp/pipeline/timing_controller.cpp:94-123 | the temperature is 0 iff no zone gives a positive reading; otherwise it is the reading of the first zone, in order, that does |
| Timing.GpuTemperature | app/src/main/cpp/pipeline/timing_controller.cpp:85-124 | the loop over the candidate zones (four fixed paths, then at most the first GPU-typed zone) returns the first positive reading, or 0 |
| Timing.TimingController.constructor | app/src/main/cpp/pipeline/timing_controller.h:42-64 | a new controller has the default state, an empty window and no config |
| Timing.TimingController.Init | app/src/main/cpp/pipeline/timing_controller.cpp:14-22 | init stores the config and copies its budget (ns→ms), model scale and quality into the state |
| Timing.TimingController.SetTargetMs | app/src/main/cpp/pipeline/timing_controller.h:57 | only the target changes, to the argument |
| Timing.TimingController.SetBudget | app/src/main/cpp/pipeline/timing_controller.h:58 | only the target changes, to the budget in milliseconds |
| Timing.TimingController.GetState | app/src/main/cpp/pipeline/timing_controller.h:54 | returns the current state and changes nothing |
| Timing.TimingController.IsThermalThrottled | app/src/main/cpp/pipeline/timing_controller.cpp:126-128 | true exactly when the state is throttled |
| Timing.TimingController.AdjustQuality | app/src/main/cpp/pipeline/timing_controller.cpp:144-170 | over budget lowers, otherwise raises, and both counters reset. With a config attached it mirrors the new scale and quality; without one nothing else changes |
| Timing.TimingController.OnFrameComplete | app/src/main/cpp/pipeline/timing_controller.cpp:24-83 | one call moves controller state and config exactly as the step function does, and returns its on-budget verdict; the lemmas above state what that step does |
| Rife.DivStrict | app/src/main/cpp/interpolation/rife_engine.cpp:296-298 | dividing by a positive number keeps strict order (used for the timestep schedule) |
| Rife.TimestepSchedule | app/src/main/cpp/interpolation/rife_engine.cpp:296-298 | every timestep (i+1)/(count+1) lies strictly between 0 and 1, they increase with i, and one intermediate frame is at 0.5 |
| Rife.Clamp | app/src/main/cpp/interpolation/rife_engine.cpp:309-326 | the clamp lands in [lo, hi], is the identity inside and the nearer bound outside |
| Rife.ScaleTierMonotone | app/src/main/cpp/interpolation/rife_engine.cpp:312-319 | the scale tier is 0.25, 0.5 or 0.75 and never decreases as quality rises |
| Rife.ScaledDim | app/src/main/cpp/interpolation/rife_engine.cpp:122-123 | the truncating cast of dim·scale is its floor |
| Rife.PaddedDim | app/src/main/cpp/interpolation/rife_engine.cpp:126-127 | the padded size is at least w, a multiple of 32, and less than w + 32 |
| Rife.PaddedIsLeast | app/src/main/cpp/interpolation/rife_engine.cpp:126-127 | it is the least multiple of 32 not below w |
| Rife.FallbackSchedule | app/src/main/cpp/interpolation/rife_engine.cpp:210-267 | the fallback records optical_flow (with the timestep), barrier, frame_warp, barrier, frame_blend, over ceil(w/16) × ceil(h/16) groups |
| Rife.Resized | app/src/main/cpp/interpolation/rife_engine.cpp:294 | `outputs.resize(count)` keeps the first entries and fills new ones with default frames |
| Rife.RifeEngine.constructor | app/src/main/cpp/interpolation/rife_engine.h:28-70 | a new engine has the default config and no model loaded |
| Rife.RifeEngine.Init | app/src/main/cpp/interpolation/rife_engine.cpp:15-51 | init stores the config and succeeds iff the fallback sampler was created; the model is loaded only when NCNN is compiled in and loading succeeded |
| Rife.RifeEngine.Shutdown | app/src/main/cpp/interpolation/rife_engine.cpp:53-74 | the model is unloaded and the config kept |
| Rife.RifeEngine.ActiveBackend | app/src/main/cpp/interpolation/rife_engine.cpp:282-290 | NCNN is used exactly when it is compiled in and the model is loaded; otherwise the compute fallback |
| Rife.RifeEngine.Interpolate | app/src/main/cpp/interpolation/rife_engine.cpp:272-290 | success iff the elapsed time is under the budget in ms. The fallback records its schedule and marks the output as interpolated, timestamped at the midpoint, and signalled by its semaphore, leaving every other field as given. The NCNN path leaves the output as given |
| Rife.RifeEngine.FirstMiss | app/src/main/cpp/interpolation/rife_engine.cpp:298-303 | the index of the first attempt that misses its budget, or count: all before it succeed |
| Rife.RifeEngine.InterpolateMulti | app/src/main/cpp/interpolation/rife_engine.cpp:292-307 | attempts run at timesteps (i+1)/(count+1) in order, and stop after the first miss k, which is still attempted. The result is exactly the k frames before the miss, and the call succeeds iff all count succeeded or k > 0 |
| Rife.RifeEngine.SetQuality | app/src/main/cpp/interpolation/rife_engine.cpp:309-322 | quality is clamped into [0, 1] and the model scale becomes its tier (0.25 below 0.3, 0.5 below 0.6, else 0.75); nothing else changes |
| Rife.RifeEngine.SetModelScale | app/src/main/cpp/interpolation/rife_engine.cpp:324-326 | the model scale is clamped into [0.25, 1]; nothing else changes |
| Rife.RifeEngine.ModelInputSize | app/src/main/cpp/interpolation/rife_engine.cpp:122-127 | the model input is each scaled dimension padded to the next multiple of 32 |
| Presenter.InterpolationCount | app/src/main/cpp/pipeline/frame_presenter.cpp:234-247 | no frames are generated exactly in mode OFF; the 60/90/120 modes generate 1/2/3 so that 30 fps becomes 60/90/120; any other mode value gives 1 |
| Presenter.InterpolationCountMonotone | app/src/main/cpp/pipeline/frame_presenter.cpp:234-247 | higher modes generate strictly more frames |
| Presenter.Accepted | app/src/main/cpp/pipeline/frame_presenter.cpp:127-137 | no more frames are accepted than offered |
| Presenter.EnqueuePrefix | app/src/main/cpp/pipeline/frame_presenter.cpp:127-137 | pushing frames until the first rejected push leaves the queue holding its old contents plus a prefix of the frames |
| Presenter.PresentInterval | app/src/main/cpp/pipeline/frame_presenter.cpp:24-26 | the interval is the largest whole number of nanoseconds that fits refresh-rate times into one second |
| Presenter.Sized | app/src/main/cpp/pipeline/frame_presenter.cpp:129-130 | each synthetic frame gets the presenter's width and height, all else kept |
| Presenter.FramePresenter.constructor | app/src/main/cpp/pipeline/frame_presenter.h:74-95 | a new presenter is not running, has no previous frame, zero interval and last-present time, no counters, no sink, and empty 8- and 16-slot queues |
| Presenter.FramePresenter.Init | app/src/main/cpp/pipeline/frame_presenter.cpp:14-31 | init stores its parameters, sets the interval to 1,000,000,000 / refresh rate (integer division) and returns true. Running state, counters, sink, delivered frames and previous frame are kept |
| Presenter.FramePresenter.Start | app/src/main/cpp/pipeline/frame_presenter.cpp:39-57 | the presenter is running afterwards |
| Presenter.FramePresenter.Stop | app/src/main/cpp/pipeline/frame_presenter.cpp:59-73 | the presenter is stopped afterwards |
| Presenter.FramePresenter.Shutdown | app/src/main/cpp/pipeline/frame_presenter.cpp:33-37 | shutdown stops and empties both queues, keeping their drop counters |
| Presenter.FramePresenter.SetMode | app/src/main/cpp/pipeline/frame_presenter.h:57 | only the config's mode changes |
| Presenter.FramePresenter.SetQuality | app/src/main/cpp/pipeline/frame_presenter.cpp:249-254 | the config quality is set and, when there is an interpolator, its quality is clamped and its scale tier chosen, and whether its model is loaded is kept |
| Presenter.FramePresenter.SetPresentCallback | app/src/main/cpp/pipeline/frame_presenter.h:62 | installs the sink |
| Presenter.FramePresenter.PresentFrame | app/src/main/cpp/pipeline/frame_presenter.cpp:216-232 | with a sink the frame is delivered to it; without one nothing observable happens |
| Presenter.FramePresenter.OnFrameCaptured | app/src/main/cpp/pipeline/frame_presenter.cpp:75-80 | the frame joins the captured queue when it has room; otherwise exactly one drop is counted |
| Presenter.FramePresenter.PushPresented | app/src/main/cpp/pipeline/frame_presenter.cpp:101-115 | one push onto the present queue: the frame is appended when there is room; otherwise the queue counts one drop |
| Presenter.FramePresenter.PushSynthetic | app/src/main/cpp/pipeline/frame_presenter.cpp:127-137 | the resized frames are pushed in order until the first rejection. Each accepted push counts one generated frame, and a rejection counts one drop, in the presenter and in the queue, and stops the loop |
| Presenter.FramePresenter.InterpolateBetween | app/src/main/cpp/pipeline/frame_presenter.cpp:113-141 | the previous frame is pushed, then the intermediate frames of `interpolateMulti`. On failure nothing more is pushed and `interpCount` drops are counted. The present queue counts one drop per refused push |
| Presenter.FramePresenter.InterpolationStep | app/src/main/cpp/pipeline/frame_presenter.cpp:88-148 | with an empty captured queue nothing changes. The first frame is pushed and remembered. In mode OFF only the current frame is pushed; otherwise the previous frame and the generated frames are pushed as above. The current frame always becomes the previous one. The present queue counts one drop per refused push; the captured queue's drop count is kept |
| Presenter.FramePresenter.PresentationStep | app/src/main/cpp/pipeline/frame_presenter.cpp:162-211 | an empty queue counts a drop and sets the last present time to the clock after waiting. Otherwise the oldest frame goes to the sink, the last present time becomes the end time, and the fps counter rolls over once a second has passed. Either way the last present time advances by at least one interval |
| Presenter.LaterFrameAt60 | app/src/main/cpp/pipeline/frame_presenter.cpp:113-147 | at 60 fps with room, a later frame enqueues the previous frame and one synthetic frame, sized for the presenter and timestamped at the midpoint |
| Presenter.ThreeCaptures | app/src/main/cpp/pipeline/frame_presenter.cpp:99-147 | captures 1, 2, 3 at 60 fps are presented as 1, 1, s(1,2), 2, s(2,3) |
| Motion.Pow2 | app/src/main/cpp/interpolation/motion_estimator.cpp:214-233 | powers of two are positive |
| Motion.HalveCeil | app/src/main/cpp/interpolation/motion_estimator.cpp:224-225 | halving rounded up, `(x+1)/2`, of ceil(x/d) is ceil(x/2d) |
| Motion.HalvingsIsCeil | app/src/main/cpp/interpolation/motion_estimator.cpp:214-233 | i repeated halvings rounded up give ceil(x/2^i) |
| Motion.HalvingsShrink | app/src/main/cpp/interpolation/motion_estimator.cpp:224-225 | halving never increases a dimension and keeps a positive one positive |
| Motion.PyramidSpec | app/src/main/cpp/interpolation/motion_estimator.cpp:214-233 | a pyramid has one entry per level, level i being the i-th halving of width and height |
| Motion.PyramidGeometry | app/src/main/cpp/interpolation/motion_estimator.cpp:220-226 | level i is ceil(width/2^i) × ceil(height/2^i), levels never grow, and stay at least 1×1 for a non-empty image |
| Motion.MotionEstimator.constructor | app/src/main/cpp/interpolation/motion_estimator.h:54-56 | block size 8, search radius 16, 4 pyramid levels, no compute context, empty pyramid |
| Motion.MotionEstimator.SetBlockSize | app/src/main/cpp/interpolation/motion_estimator.h:47 | only the block size changes; the pyramid is not rebuilt |
| Motion.MotionEstimator.SetSearchRadius | app/src/main/cpp/interpolation/motion_estimator.h:48 | only the search radius changes |
| Motion.MotionEstimator.SetPyramidLevels | app/src/main/cpp/interpolation/motion_estimator.h:49 | only the level count changes; the pyramid is not rebuilt |
| Motion.MotionEstimator.CreatePyramid | app/src/main/cpp/interpolation/motion_estimator.cpp:214-234 | the loop builds exactly the specified pyramid and returns true |
| Motion.MotionEstimator.Init | app/src/main/cpp/interpolation/motion_estimator.cpp:13-53 | init records the size; it fails iff flow-field creation fails, and otherwise builds the pyramid |
| Motion.MotionEstimator.Shutdown | app/src/main/cpp/interpolation/motion_estimator.cpp:55-67 | without a compute context nothing changes; otherwise the pyramid is dropped and the context released |
| Motion.MotionEstimator.Estimate | app/src/main/cpp/interpolation/motion_estimator.cpp:69-153 | records downsample for levels 0..L−1 ascending, then block_match for L−1..0 descending, each followed by a barrier, then one flow_refine. Group counts and push constants are as in the source |
| Motion.EstimateCounts | app/src/main/cpp/interpolation/motion_estimator.cpp:82-142 | such a recording has 2L+1 dispatches and 2L barriers |
| Flow.FirstFailedCreation | app/src/main/cpp/interpolation/optical_flow.cpp:19-23 | the first of the five image creations that fails, or 5: all before it succeeded |
| Flow.OpticalFlow.Images | app/src/main/cpp/interpolation/optical_flow.h:59-70 | the engine owns five flow images |
| Flow.OpticalFlow.constructor | app/src/main/cpp/interpolation/optical_flow.h:29-70 | a new engine has no images and no compute context |
| Flow.OpticalFlow.Init | app/src/main/cpp/interpolation/optical_flow.cpp:13-27 | init creates the images in order, stopping at the first failure, and succeeds iff all five were created |
| Flow.OpticalFlow.Shutdown | app/src/main/cpp/interpolation/optical_flow.cpp:29-39 | without a compute context nothing changes; otherwise every image is reset |
| Flow.OpticalFlow.ComputeBidirectional | app/src/main/cpp/interpolation/optical_flow.cpp:41-156 | records rgb_to_gray, forward block_match (+1), backward block_match (−1) and flow_consistency (threshold 1.5), barrier-separated, with their group counts. It returns the engine's own flow and confidence images |
| Flow.BidirectionalOrder | app/src/main/cpp/interpolation/optical_flow.cpp:54-138 | that recording has 4 dispatches and 3 barriers, with consistency after both flows |
| Capture.Created | app/src/main/cpp/vulkan/vulkan_capture.cpp:36-41 | slot creation installs the image and semaphore and keeps the bookkeeping |
| Capture.ResizedRing | app/src/main/cpp/vulkan/vulkan_capture.cpp:35 | the ring is resized to the buffer count, keeping existing slots |
| Capture.CreateSlots | app/src/main/cpp/vulkan/vulkan_capture.cpp:35-41 | slots are created in order up to and including the first failure, later ones untouched; success iff every slot was created |
| Capture.FirstFailedSlot | app/src/main/cpp/vulkan/vulkan_capture.cpp:36-41 | the first slot whose creation fails, or the buffer count |
| Capture.Back | app/src/main/cpp/vulkan/vulkan_capture.cpp:250-251 | `(cur + N − d) % N` is the slot d steps before the current one |
| Capture.SlotFrame | app/src/main/cpp/vulkan/vulkan_capture.cpp:253-266 | a slot's frame carries its image, index, timestamp and semaphore, the capture size and format, and is not interpolated |
| Capture.FindMemoryType | app/src/main/cpp/vulkan/vulkan_capture.cpp:271-284 | returns the smallest memory type allowed by the filter whose flags hold every requested property, else 0 |
| Capture.VulkanCapture.constructor | app/src/main/cpp/vulkan/vulkan_capture.h:40-61 | a new capture has no device, no pool, no slots and index 0 |
| Capture.VulkanCapture.Init | app/src/main/cpp/vulkan/vulkan_capture.cpp:14-45 | init records device, size and format. It fails without a command pool. Otherwise it sizes the ring, creates slots until the first failure, and succeeds iff all were created |
| Capture.VulkanCapture.Shutdown | app/src/main/cpp/vulkan/vulkan_capture.cpp:47-63 | without a device nothing changes; otherwise the ring is emptied and the device nulled, while the size, format and physical device are kept |
| Capture.VulkanCapture.CaptureFrame | app/src/main/cpp/vulkan/vulkan_capture.cpp:154-245 | writes the current slot (index, time, ready) and returns its frame, not interpolated. It advances the index modulo the buffer count and records the capture in history; device, pool, physical device, size and format are kept |
| Capture.VulkanCapture.LastTwoFrames | app/src/main/cpp/vulkan/vulkan_capture.cpp:247-269 | after k ≥ 2 captures the two frames read are the (k−1)-th and k-th captures |
| Capture.CaptureTwiceThenRead | app/src/main/cpp/vulkan/vulkan_capture.cpp:154-269 | two captures followed by a read return exactly those two frames in order |
| Layer.DestroyStagingImage | app/src/main/cpp/vulkan/vulkan_layer.cpp:606-616 | destroying leaves null image and memory and an invalid staging image |
| Layer.DestroyIdempotent | app/src/main/cpp/vulkan/vulkan_layer.cpp:606-616 | destroying twice is destroying once |
| Layer.CreateStagingImage | app/src/main/cpp/vulkan/vulkan_layer.cpp:565-604 | the image is valid only when both image and memory creation succeed. A failed image creation changes nothing, and a failed allocation nulls the image |
| Layer.EnsureStagingSpec | app/src/main/cpp/vulkan/vulkan_layer.cpp:543-563 | a no-op when the current staging is valid and matches size and format. Otherwise both images are recreated, the new size and format recorded, and `hasPrev` cleared; counters and swapchains are kept |
| Layer.EnsureStagingSettles | app/src/main/cpp/vulkan/vulkan_layer.cpp:543-563 | once staging was created successfully, a second `ensureStaging` with the same size and format changes nothing |
| Layer.RequestedImageCount | app/src/main/cpp/vulkan/vulkan_layer.cpp:241 | in 32-bit arithmetic the layer asks for at least 3 images and more than the app's minimum, unless that minimum + 1 wraps |
| Layer.RequestedIsMax | app/src/main/cpp/vulkan/vulkan_layer.cpp:241 | without wrap-around the request is max(minImageCount + 1, 3) |
| Layer.ModifiedCreateInfo | app/src/main/cpp/vulkan/vulkan_layer.cpp:240-245 | the modified info asks for that image count and adds TRANSFER_SRC and TRANSFER_DST to the app's usage, keeping its bits, format and extent |
| Layer.SwapStaging | app/src/main/cpp/vulkan/vulkan_layer.cpp:526-528 | prev and cur staging images are exchanged and `hasPrev` set; counters and swapchains are kept |
| Layer.Prepared | app/src/main/cpp/vulkan/vulkan_layer.cpp:308-338 | the device after the per-call bookkeeping and staging check: frame count +1, interpolation count unchanged |
| Layer.PresentSpec | app/src/main/cpp/vulkan/vulkan_layer.cpp:308-537 | the frame count rises by one. Unknown images or invalid staging forward the present. With `hasPrev` the previous frame is presented first; `interpCount` rises iff that present succeeds, and the real frame follows only if the acquire also succeeds. The full path swaps staging and returns success |
| Layer.FullPathFeedsNext | app/src/main/cpp/vulkan/vulkan_layer.cpp:374-537 | after a present on the full path, the frame just captured is the next call's previous frame, and the next call presents an intermediate first |
| Layer.EnumerateLayerProperties | app/src/main/cpp/vulkan/vulkan_layer.cpp:768-777 | a null array reports count 1. A count ≥ 1 writes the one entry and reports success; count 0 writes nothing and reports INCOMPLETE. It never writes beyond the count |
| Layer.EnumerateTwoCalls | app/src/main/cpp/vulkan/vulkan_layer.cpp:768-777 | the usual two-call pattern (ask for the count, then pass it back) yields success and the layer's properties |
| Layer.EnumerateExtensionProperties | app/src/main/cpp/vulkan/vulkan_layer.cpp:783-799 | asked for its own name the layer reports success and zero extensions; otherwise LAYER_NOT_PRESENT with the count untouched |
| Layer.VulkanLayer.constructor | app/src/main/cpp/vulkan/vulkan_layer.h:226-228 | a new layer is enabled, tracks no device and has zero totals |
| Layer.VulkanLayer.SetEnabled | app/src/main/cpp/vulkan/vulkan_layer.h:111 | only the enabled flag changes |
| Layer.VulkanLayer.OnCreateDevice | app/src/main/cpp/vulkan/vulkan_layer.cpp:105-203 | without the loader's link info it fails with INITIALIZATION_FAILED and tracks nothing; a driver failure is returned unchanged and tracks nothing; on success the device is tracked with fresh state. Totals and the enabled flag are kept |
| Layer.VulkanLayer.OnDestroyDevice | app/src/main/cpp/vulkan/vulkan_layer.cpp:205-228 | the device is no longer tracked and every other device is kept |
| Layer.VulkanLayer.EnsureStaging | app/src/main/cpp/vulkan/vulkan_layer.cpp:543-563 | the device's entry becomes its `ensureStaging` result |
| Layer.VulkanLayer.OnCreateSwapchain | app/src/main/cpp/vulkan/vulkan_layer.cpp:230-277 | the modified info is tried first and, on failure, the original once. On success the swapchain is recorded and staging ensured for its size and format; on failure nothing is recorded |
| Layer.VulkanLayer.OnDestroySwapchain | app/src/main/cpp/vulkan/vulkan_layer.cpp:279-292 | the swapchain is no longer tracked by its device |
| Layer.VulkanLayer.OnQueuePresent | app/src/main/cpp/vulkan/vulkan_layer.cpp:297-538 | when disabled or with no swapchain the present is forwarded and nothing changes. Otherwise the device moves as the present specification says, `totalFrames` rises by one, and `totalInterp` by the device's interpolation increment |
| Shaders.Validated | app/src/main/cpp/utils/shader_compiler.cpp:25-42 | the result is non-empty iff the blob is non-empty, a whole number of words and starts with 0x07230203. It then has size/4 words, each read from its four bytes |
| Shaders.LoadFromAsset | app/src/main/cpp/utils/shader_compiler.cpp:11-43 | no asset manager or an unopenable asset gives the empty result; otherwise the validated contents |
| Shaders.LoadFromFile | app/src/main/cpp/utils/shader_compiler.cpp:45-68 | an unopenable file gives the empty result; otherwise the same validation as assets |
| Shaders.CreateModule | app/src/main/cpp/utils/shader_compiler.cpp:70-86 | an empty word sequence gives the null handle without creating anything; otherwise the created handle, or null on failure |
| Shaders.WordBytes | app/src/main/cpp/utils/shader_compiler.cpp:31-32 | a word is laid out as four bytes |
| Shaders.WordBytesRoundTrip | app/src/main/cpp/utils/shader_compiler.cpp:31-32 | reading a word back from its four bytes gives the word |
| Shaders.SerialiseLayout | app/src/main/cpp/utils/shader_compiler.cpp:31-32 | serialising n words gives 4n bytes with word i at byte 4i |
| Shaders.WordsOfSerialise | app/src/main/cpp/utils/shader_compiler.cpp:31-32 | reading the words of a serialised sequence gives it back |
| Shaders.SerialiseInverse | app/src/main/cpp/utils/shader_compiler.cpp:31-32 | serialising the words of a whole-word blob gives the blob back |
| Shaders.BytesOfWordAt | app/src/main/cpp/utils/shader_compiler.cpp:31-32 | the bytes a word was read from are the bytes it serialises to |
| Shaders.LoadRoundTrip | app/src/main/cpp/utils/shader_compiler.cpp:45-68 | every module starting with the magic number loads back unchanged from its serialisation, and every blob that loads is the serialisation of what it loads as |

## Left out

- Threads and atomics: the worker threads and the `running_` loops, sleeps and
  the busy-wait are not modelled. One iteration of each worker is a method,
  and the queues are sequential. The memory orders of the queue's atomics are
  not modelled.
- Clocks: `now_ns` readings are parameters (`PresentationStep` receives the
  time after waiting and the time after presenting). Timing statistics that
  only store durations (`interpolation_ms`, `present_ms`, `total_ms`) are not
  modelled.
- Floating point: floats are reals, so single-precision rounding is not
  captured. The effective-fps ratio in the presentation loop is not computed;
  only its once-a-second counter reset is modelled.
- Thermal I/O: opening sysfs files and scanning `/sys/class/thermal` are I/O.
  Each candidate zone's raw reading, in the code's order, is an input.
- The shader algorithms (block matching, refinement, consistency, warp,
  blend) are not part of this model. Only the host-side dispatch schedule is.
- NCNN inference and model loading are a foreign library. An interpolation
  attempt is an oracle reporting its elapsed time, and success is "elapsed
  under budget" on both backends.
- Vulkan object creation and destruction, command-buffer begin/submit,
  barriers' access masks and image layouts, and `vkCmdBlitImage` are foreign
  calls. Their outcomes are parameters and their effects are left out.
- In the layer, the instance creation hook, loading the dispatch tables, and
  the `getInstanceProcAddr`/`getDeviceProcAddr` name routing are not part of
  this model. The device hooks model only which devices are tracked.
- Thermal scan: `getGpuTemperature` calls `closedir` inside its `readdir` loop
  (timing_controller.cpp:114) and then reads and closes the closed handle
  again (line 119), which is undefined. The candidates modelled are the four
  fixed paths and at most the first GPU-typed zone.
- vulkan_compute.cpp, gpu_buffer.cpp, perf_monitor.cpp and framegen_jni.cpp
  are not part of this model. A recorded dispatch is "append a record".
- FrameData's image view, memory, framebuffer and fence handles are not
  carried. Words are read in little-endian order, the order of the targeted
  devices.
- Rife.RifeEngine: `lastInferenceMs_` is not tracked, so `Interpolate` reads
  but does not write the engine.
- Presenter.FramePresenter.Init: requires a non-zero refresh rate, since the
  source divides by it unguarded.
- Timing.TimingController: the source holds the config through a pointer to
  the caller's object (timing_controller.h:61, timing_controller.cpp:15), so
  its write-backs reach that object. The model holds the config by value, so
  that aliasing is not captured.
- Timing.TimingController.OnFrameComplete requires a config, i.e. `init` was
  called. The source reads `config_->thermal_protection` unchecked
  (timing_controller.cpp:51) and writes through `config_` at lines 59-60,
  which dereferences null before `init`.
- Presenter.FramePresenter.Shutdown: stopping the worker threads is the
  `running` flag only.
- Presenter.FramePresenter.PresentationStep: requires the clock readings to be
  ordered (wait end ≥ last present + interval, end ≥ wait end), which the
  busy-wait and a monotonic clock guarantee in the source. `stats_` counters
  other than drops and generated frames are not modelled.
- Motion.MotionEstimator.Estimate: requires a pyramid of at least
  `pyramidLevels` entries and a positive block size. The source indexes the
  pyramid and divides by the block size unguarded.
- Rife.ScaledDim: requires a non-negative scale; the setters never produce a
  negative one.
- Layer.VulkanLayer.OnQueuePresent, Layer.VulkanLayer.OnCreateSwapchain,
  Layer.VulkanLayer.OnDestroySwapchain and Layer.VulkanLayer.EnsureStaging
  require the device to be tracked. For an unknown device the source's
  `devices_[key]` inserts an entry with null function pointers and then calls
  through one, which is undefined.
- Presenter.FramePresenter.InterpolationStep and
  Presenter.FramePresenter.InterpolateBetween require an interpolator whenever
  the mode generates frames. The source dereferences it unchecked
  (frame_presenter.cpp:120).
- Capture.VulkanCapture.CaptureFrame and Capture.VulkanCapture.LastTwoFrames
  require an initialised ring. The source indexes the buffer vector unchecked
  (vulkan_capture.cpp:159), which is undefined when it is empty.
- Integer widths: counters and sizes are unbounded. 32-bit wrap-around is
  written out only in `Layer.RequestedImageCount`.
