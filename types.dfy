/**
 * Core types shared by every stage: the engine configuration with its
 * defaults, the frame descriptor with its defaults, and the nanosecond to
 * millisecond conversion.
 *
 * Floating-point fields are modelled as `real`, unsigned counters and
 * timestamps as `nat`, and Vulkan handles as `nat` with 0 standing for
 * VK_NULL_HANDLE.
 */
module Types {

  datatype Option<T> = None | Some(value: T)

  /** An 8-bit unsigned value, the storage of the interpolation-mode enum. */
  newtype U8 = x: int | 0 <= x < 256

  /**
   * The interpolation mode. The source stores it as a uint8 enum and the
   * host glue casts arbitrary integers into it, so every uint8 value is a
   * possible mode; the four named ones are below.
   */
  type Mode = U8

  const Off: Mode := 0
  const Fps60: Mode := 1
  const Fps90: Mode := 2
  const Fps120: Mode := 3

  /** A Vulkan handle; 0 is VK_NULL_HANDLE. */
  type Handle = nat

  const NullHandle: Handle := 0

  /** VkFormat values used by the model. */
  type Format = nat

  const FormatUndefined: Format := 0
  const FormatR8G8B8A8Unorm: Format := 37

  datatype Config = Config(
    mode: Mode,
    maxFrameTimeNs: nat,
    quality: real,
    modelScale: real,
    ringBufferSize: nat,
    thermalProtection: bool,
    targetRefreshRate: nat)

  /** The configuration a default-constructed `Config` holds. */
  function DefaultConfig(): (c: Config)
    ensures c.mode == Fps60 && c.maxFrameTimeNs == 8_000_000
    ensures c.quality == 0.5 && c.modelScale == 0.5
    ensures c.ringBufferSize == 4 && c.thermalProtection && c.targetRefreshRate == 120
  {
    Config(Fps60, 8_000_000, 0.5, 0.5, 4, true, 120)
  }

  /**
   * The frame descriptor: an image handle (a view onto a ring-buffer slot,
   * not an owner), its size and format, the capture time, the monotonic
   * frame index and whether it was synthesised.
   */
  datatype FrameData = FrameData(
    image: Handle,
    width: nat,
    height: nat,
    format: Format,
    timestampNs: nat,
    frameIndex: nat,
    isInterpolated: bool,
    renderComplete: Handle)

  /** The descriptor a default-constructed `FrameData` holds. */
  function DefaultFrame(): (f: FrameData)
    ensures f.image == NullHandle && f.renderComplete == NullHandle
    ensures f.width == 0 && f.height == 0
    ensures f.timestampNs == 0 && f.frameIndex == 0 && !f.isInterpolated
    ensures f.format == FormatR8G8B8A8Unorm
  {
    FrameData(NullHandle, 0, 0, FormatR8G8B8A8Unorm, 0, 0, false, NullHandle)
  }

  const NsPerMs: nat := 1_000_000

  /** Converts nanoseconds to milliseconds (exactly; the source rounds to float). */
  function NsToMs(ns: nat): (ms: real)
    ensures ms >= 0.0
    ensures ms * NsPerMs as real == ns as real
  {
    ns as real / NsPerMs as real
  }

  /** Conversion is monotone, and exact on whole milliseconds. */
  lemma NsToMsMonotone(a: nat, b: nat)
    ensures a <= b <==> NsToMs(a) <= NsToMs(b)
    ensures NsToMs(a * NsPerMs) == a as real
  {
  }
}
