/**
 * The implicit Vulkan layer that doubles the presented frame rate inside
 * the game's process. Per device it tracks the swapchains it saw created
 * and two staging images (the previous and the current game frame); on
 * every present it copies the game frame into the current staging image
 * and, once a previous frame exists, first presents that previous frame
 * as the intermediate and then acquires a new image and presents the real
 * frame into it.
 *
 * Every call into the next layer or the driver is an oracle: the result a
 * present returns is a function of the present issued, and image
 * creation, memory allocation, acquire and swapchain creation are given
 * results. The copies, blits, barriers, fences and submits are GPU work
 * and are not modelled; what is modelled is the bookkeeping and the
 * sequence of presents the hook issues.
 */
module Layer {
  import opened Types

  /** A VkResult code. */
  type VkResult = int

  const VkSuccess: VkResult := 0
  const VkIncomplete: VkResult := 5
  const VkSuboptimal: VkResult := 1000001003
  const VkErrorLayerNotPresent: VkResult := -6
  const VkErrorInitializationFailed: VkResult := -3

  /** A present result the hook treats as a success. */
  predicate PresentOk(r: VkResult) {
    r == VkSuccess || r == VkSuboptimal
  }

  const UsageTransferSrc: bv32 := 0x1
  const UsageTransferDst: bv32 := 0x2

  const Uint32Modulus: nat := 0x1_0000_0000

  // ---------------------------------------------------------------
  // Staging images
  // ---------------------------------------------------------------

  datatype StagingImage = StagingImage(image: Handle, memory: Handle, valid: bool)

  const NoStaging: StagingImage := StagingImage(NullHandle, NullHandle, false)

  /** What creating one staging image reports: image creation and memory allocation. */
  datatype StagingCreation = StagingCreation(imageOk: bool, image: Handle, memoryOk: bool, memory: Handle)

  /** `destroyStagingImage`: releases whatever the image holds and marks it invalid. */
  function DestroyStagingImage(img: StagingImage): (r: StagingImage)
    ensures r.image == NullHandle && r.memory == NullHandle && !r.valid
  {
    var img1 := if img.image != NullHandle then img.(image := NullHandle) else img;
    var img2 := if img1.memory != NullHandle then img1.(memory := NullHandle) else img1;
    img2.(valid := false)
  }

  /** Destroying twice is destroying once. */
  lemma DestroyIdempotent(img: StagingImage)
    ensures DestroyStagingImage(DestroyStagingImage(img)) == DestroyStagingImage(img)
  {
  }

  /**
   * `createStagingImage`: a failed image creation changes nothing; a
   * failed allocation destroys the new image and leaves the handle null;
   * only when both succeed does the image hold the new handles and become
   * valid.
   */
  function CreateStagingImage(img: StagingImage, c: StagingCreation): (r: StagingImage)
    ensures (c.imageOk && c.memoryOk) ==> r.valid && r.image == c.image && r.memory == c.memory
    ensures !c.imageOk ==> r == img
    ensures c.imageOk && !c.memoryOk ==> r.image == NullHandle && r.memory == img.memory && r.valid == img.valid
  {
    if !c.imageOk then img
    else if !c.memoryOk then img.(image := NullHandle)
    else img.(image := c.image, memory := c.memory, valid := true)
  }

  // ---------------------------------------------------------------
  // Per-device state
  // ---------------------------------------------------------------

  datatype SwapchainData = SwapchainData(handle: Handle, images: seq<Handle>, format: Format, width: nat, height: nat)

  datatype DeviceData = DeviceData(
    swapchains: map<Handle, SwapchainData>,
    prevFrame: StagingImage,
    curFrame: StagingImage,
    hasPrev: bool,
    captureW: nat,
    captureH: nat,
    captureFormat: Format,
    frameCount: nat,
    interpCount: nat)

  /** The state `onCreateDevice` registers for a new device. */
  const NewDevice: DeviceData :=
    DeviceData(map[], NoStaging, NoStaging, false, 0, 0, FormatUndefined, 0, 0)

  /** The staging images are usable as they are for a w x h image of format `fmt`. */
  predicate StagingMatches(dev: DeviceData, w: nat, h: nat, fmt: Format) {
    dev.curFrame.valid && dev.captureW == w && dev.captureH == h && dev.captureFormat == fmt
  }

  /**
   * The device after `ensureStaging`: untouched when the current staging
   * image is valid and of the right size and format; otherwise both
   * staging images are destroyed and created anew, the capture size and
   * format are recorded and the previous frame is forgotten.
   */
  function EnsureStagingSpec(dev: DeviceData, w: nat, h: nat, fmt: Format,
                             prevC: StagingCreation, curC: StagingCreation): (r: DeviceData)
    ensures StagingMatches(dev, w, h, fmt) ==> r == dev
    ensures !StagingMatches(dev, w, h, fmt) ==>
      && r.captureW == w && r.captureH == h && r.captureFormat == fmt && !r.hasPrev
      && (r.prevFrame.valid <==> prevC.imageOk && prevC.memoryOk)
      && (r.curFrame.valid <==> curC.imageOk && curC.memoryOk)
    ensures r.swapchains == dev.swapchains
    ensures r.frameCount == dev.frameCount && r.interpCount == dev.interpCount
  {
    if StagingMatches(dev, w, h, fmt) then dev
    else
      dev.(prevFrame := CreateStagingImage(DestroyStagingImage(dev.prevFrame), prevC),
           curFrame := CreateStagingImage(DestroyStagingImage(dev.curFrame), curC),
           captureW := w, captureH := h, captureFormat := fmt, hasPrev := false)
  }

  /** Once the current staging image was created for this size and format, a further `ensureStaging` is a no-op. */
  lemma EnsureStagingSettles(dev: DeviceData, w: nat, h: nat, fmt: Format,
                             c1: StagingCreation, c2: StagingCreation, c3: StagingCreation, c4: StagingCreation)
    requires EnsureStagingSpec(dev, w, h, fmt, c1, c2).curFrame.valid
    ensures EnsureStagingSpec(EnsureStagingSpec(dev, w, h, fmt, c1, c2), w, h, fmt, c3, c4)
            == EnsureStagingSpec(dev, w, h, fmt, c1, c2)
  {
  }

  // ---------------------------------------------------------------
  // Swapchain creation
  // ---------------------------------------------------------------

  datatype SwapchainCreateInfo = SwapchainCreateInfo(
    minImageCount: nat, imageUsage: bv32, imageFormat: Format, width: nat, height: nat)

  /**
   * The image count the layer asks for: one more than the game asked for
   * (in 32-bit unsigned arithmetic), and at least 3.
   */
  function RequestedImageCount(minImageCount: nat): (n: nat)
    requires minImageCount < Uint32Modulus
    ensures n >= 3
    ensures minImageCount + 1 < Uint32Modulus ==> n > minImageCount
    ensures minImageCount + 1 < Uint32Modulus ==> (n == 3 || n == minImageCount + 1)
  {
    var bumped := (minImageCount + 1) % Uint32Modulus;
    if bumped > 3 then bumped else 3
  }

  /** Below the 32-bit limit the requested count is exactly max(minImageCount + 1, 3). */
  lemma RequestedIsMax(minImageCount: nat)
    requires minImageCount + 1 < Uint32Modulus
    ensures RequestedImageCount(minImageCount) == if minImageCount + 1 > 3 then minImageCount + 1 else 3
  {
  }

  /** The create info the layer passes on first: more images, and transfer source and destination usage added. */
  function ModifiedCreateInfo(info: SwapchainCreateInfo): (m: SwapchainCreateInfo)
    requires info.minImageCount < Uint32Modulus
    ensures m.minImageCount == RequestedImageCount(info.minImageCount)
    ensures m.imageUsage & UsageTransferSrc == UsageTransferSrc
    ensures m.imageUsage & UsageTransferDst == UsageTransferDst
    ensures m.imageUsage & info.imageUsage == info.imageUsage
    ensures m.imageFormat == info.imageFormat && m.width == info.width && m.height == info.height
  {
    info.(minImageCount := RequestedImageCount(info.minImageCount),
          imageUsage := info.imageUsage | UsageTransferSrc | UsageTransferDst)
  }

  // ---------------------------------------------------------------
  // Present
  // ---------------------------------------------------------------

  datatype PresentInfo = PresentInfo(swapchains: seq<Handle>, imageIndices: seq<nat>, waitSemaphores: seq<Handle>)

  /** A present the hook issues to the next layer. */
  datatype PresentCall =
    | Forwarded                                        // the game's own present, unchanged
    | FirstFrame                                       // the game's swapchains and indices, without its wait semaphores
    | Intermediate(swapchain: Handle, imageIndex: nat) // the previous frame, blitted into the game's image
    | Real(swapchain: Handle, imageIndex: nat)         // the current frame, blitted into a newly acquired image

  /** What the next layer and the driver answer during one present. */
  datatype Driver = Driver(
    present: PresentCall -> VkResult,
    acquire: VkResult,
    acquiredIndex: nat,
    prevCreation: StagingCreation,
    curCreation: StagingCreation)

  datatype PresentOutcome = PresentOutcome(dev: DeviceData, result: VkResult, calls: seq<PresentCall>)

  /** The staging images after one full present: current becomes previous, and a previous frame exists. */
  function SwapStaging(dev: DeviceData): (r: DeviceData)
    ensures r.prevFrame == dev.curFrame && r.curFrame == dev.prevFrame && r.hasPrev
    ensures r.swapchains == dev.swapchains && r.frameCount == dev.frameCount && r.interpCount == dev.interpCount
  {
    dev.(prevFrame := dev.curFrame, curFrame := dev.prevFrame, hasPrev := true)
  }

  /** The swapchain and image index of the present resolve to a tracked swapchain image. */
  predicate KnownImage(dev: DeviceData, info: PresentInfo)
    requires |info.swapchains| > 0 && |info.imageIndices| == |info.swapchains|
  {
    && info.swapchains[0] in dev.swapchains
    && |dev.swapchains[info.swapchains[0]].images| > 0
    && info.imageIndices[0] < |dev.swapchains[info.swapchains[0]].images|
  }

  /** The device after the frame was counted and the staging images were ensured for the present's swapchain. */
  function Prepared(dev: DeviceData, info: PresentInfo, d: Driver): (r: DeviceData)
    requires |info.swapchains| > 0 && |info.imageIndices| == |info.swapchains|
    requires KnownImage(dev, info)
    ensures r.frameCount == dev.frameCount + 1 && r.interpCount == dev.interpCount
  {
    var sd := dev.swapchains[info.swapchains[0]];
    EnsureStagingSpec(dev.(frameCount := dev.frameCount + 1), sd.width, sd.height, sd.format,
                      d.prevCreation, d.curCreation)
  }

  /**
   * `onQueuePresent` on an enabled layer with at least one swapchain:
   * counts the frame; passes the present through unchanged for an unknown
   * swapchain, an out-of-range image index or unusable staging images;
   * otherwise presents the game frame directly the first time and, once a
   * previous frame exists, the previous frame first and then (if that
   * present and the acquire succeeded) the real frame; it then swaps the
   * staging images and reports success.
   */
  function PresentSpec(dev: DeviceData, info: PresentInfo, d: Driver): (o: PresentOutcome)
    requires |info.swapchains| > 0 && |info.imageIndices| == |info.swapchains|
    ensures o.dev.frameCount == dev.frameCount + 1
    ensures o.dev.swapchains == dev.swapchains
    ensures o.calls == [Forwarded] ==> o.result == d.present(Forwarded)
    ensures o.calls != [Forwarded] ==> o.result == VkSuccess && o.dev.hasPrev
    ensures o.calls == [Forwarded] || o.calls == [FirstFrame]
         || o.calls == [Intermediate(info.swapchains[0], info.imageIndices[0])]
         || o.calls == [Intermediate(info.swapchains[0], info.imageIndices[0]), Real(info.swapchains[0], d.acquiredIndex)]
    ensures o.calls[0].Intermediate? <==>
      KnownImage(dev, info) && Prepared(dev, info, d).hasPrev
      && Prepared(dev, info, d).curFrame.valid && Prepared(dev, info, d).prevFrame.valid
    ensures o.dev.interpCount == dev.interpCount + (if o.calls[0].Intermediate? && PresentOk(d.present(o.calls[0])) then 1 else 0)
    ensures |o.calls| == 2 <==> o.calls[0].Intermediate? && PresentOk(d.present(o.calls[0])) && PresentOk(d.acquire)
  {
    var counted := dev.(frameCount := dev.frameCount + 1);
    if !KnownImage(dev, info) then
      PresentOutcome(counted, d.present(Forwarded), [Forwarded])
    else
      var prepared := Prepared(dev, info, d);
      if !prepared.curFrame.valid || !prepared.prevFrame.valid then
        PresentOutcome(prepared, d.present(Forwarded), [Forwarded])
      else if !prepared.hasPrev then
        PresentOutcome(SwapStaging(prepared), VkSuccess, [FirstFrame])
      else
        var interp := Intermediate(info.swapchains[0], info.imageIndices[0]);
        if !PresentOk(d.present(interp)) then
          PresentOutcome(SwapStaging(prepared), VkSuccess, [interp])
        else
          var interpolated := prepared.(interpCount := prepared.interpCount + 1);
          if PresentOk(d.acquire) then
            PresentOutcome(SwapStaging(interpolated), VkSuccess, [interp, Real(info.swapchains[0], d.acquiredIndex)])
          else
            PresentOutcome(SwapStaging(interpolated), VkSuccess, [interp])
  }

  /**
   * On the full path the staging image that received this frame becomes
   * the previous frame of the next present, and the next present (same
   * swapchain, same size, no recreation needed) issues the intermediate.
   */
  lemma {:induction false} FullPathFeedsNext(dev: DeviceData, info: PresentInfo, d1: Driver, d2: Driver)
    requires |info.swapchains| > 0 && |info.imageIndices| == |info.swapchains|
    requires PresentSpec(dev, info, d1).calls != [Forwarded]
    ensures PresentSpec(dev, info, d1).dev.prevFrame == Prepared(dev, info, d1).curFrame
    ensures PresentSpec(PresentSpec(dev, info, d1).dev, info, d2).calls[0].Intermediate?
  {
    var o := PresentSpec(dev, info, d1);
    var p := Prepared(dev, info, d1);
    assert KnownImage(dev, info) && p.curFrame.valid && p.prevFrame.valid;
    var sd := dev.swapchains[info.swapchains[0]];
    assert StagingMatches(p, sd.width, sd.height, sd.format);
    assert o.dev.curFrame == p.prevFrame && o.dev.prevFrame == p.curFrame;
    assert KnownImage(o.dev, info);
    var p2 := Prepared(o.dev, info, d2);
    assert StagingMatches(o.dev, sd.width, sd.height, sd.format) by {
      assert o.dev.captureW == p.captureW && o.dev.captureH == p.captureH && o.dev.captureFormat == p.captureFormat;
    }
    assert p2.curFrame == o.dev.curFrame && p2.prevFrame == o.dev.prevFrame && p2.hasPrev;
  }

  // ---------------------------------------------------------------
  // Layer enumeration
  // ---------------------------------------------------------------

  datatype LayerProperties = LayerProperties(layerName: string, specVersion: nat, implementationVersion: nat, description: string)

  const LayerName: string := "VK_LAYER_FRAMEGEN_capture"

  /** VK_MAKE_VERSION(major, minor, patch). */
  function MakeVersion(major: nat, minor: nat, patch: nat): nat {
    major * 0x400000 + minor * 0x1000 + patch
  }

  const LayerProps: LayerProperties :=
    LayerProperties(LayerName, MakeVersion(1, 3, 0), 1, "FrameGen — rootless frame generation layer")

  /** Result of an enumeration call: the code, the count written back, and the entries written. */
  datatype Enumeration = Enumeration(result: VkResult, count: nat, written: seq<LayerProperties>)

  /**
   * `framegen_EnumerateInstanceLayerProperties` (the device variant
   * forwards to it): without an array it reports one layer; with room for
   * at least one entry it writes this layer's properties and reports one;
   * with no room it leaves the count alone and reports VK_INCOMPLETE.
   */
  function EnumerateLayerProperties(hasArray: bool, count: nat): (e: Enumeration)
    ensures !hasArray ==> e == Enumeration(VkSuccess, 1, [])
    ensures hasArray && count >= 1 ==> e.result == VkSuccess && e.count == 1 && e.written == [LayerProps]
    ensures hasArray && count == 0 ==> e.result == VkIncomplete && e.count == count && e.written == []
    ensures |e.written| <= count
  {
    if !hasArray then Enumeration(VkSuccess, 1, [])
    else if count >= 1 then Enumeration(VkSuccess, 1, [LayerProps])
    else Enumeration(VkIncomplete, count, [])
  }

  /** The usual two-call pattern: ask for the count, then pass an array of that size; it gets exactly this layer. */
  lemma EnumerateTwoCalls()
    ensures var first := EnumerateLayerProperties(false, 0);
            EnumerateLayerProperties(true, first.count) == Enumeration(VkSuccess, 1, [LayerProps])
  {
  }

  /**
   * `framegen_Enumerate{Instance,Device}ExtensionProperties`: this layer
   * has no extensions; asked by its own name it reports zero of them,
   * asked about any other layer (or none) it reports the layer absent and
   * leaves the count alone.
   */
  function EnumerateExtensionProperties(layerName: Option<string>, count: nat): (r: (VkResult, nat))
    ensures r.0 == VkSuccess <==> layerName == Some(LayerName)
    ensures r.0 == VkSuccess ==> r.1 == 0
    ensures r.0 != VkSuccess ==> r.0 == VkErrorLayerNotPresent && r.1 == count
  {
    if layerName.Some? && layerName.value == LayerName then (VkSuccess, 0)
    else (VkErrorLayerNotPresent, count)
  }

  // ---------------------------------------------------------------
  // The layer singleton
  // ---------------------------------------------------------------

  class VulkanLayer {
    var enabled: bool
    /** Per-device state, by the device's dispatch key. */
    var devices: map<Handle, DeviceData>
    var totalFrames: nat
    var totalInterp: nat

    constructor ()
      ensures enabled && devices == map[] && totalFrames == 0 && totalInterp == 0
    {
      enabled := true;
      devices := map[];
      totalFrames, totalInterp := 0, 0;
    }

    method SetEnabled(e: bool)
      modifies this
      ensures enabled == e
      ensures devices == old(devices) && totalFrames == old(totalFrames) && totalInterp == old(totalInterp)
    {
      enabled := e;
    }

    /**
     * `onCreateDevice`: without the loader's layer link the call fails
     * before the driver is reached; a driver failure is returned as is;
     * otherwise the device is registered under its dispatch key with no
     * swapchains, no staging images and zero counters.
     */
    method OnCreateDevice(key: Handle, hasLayerInfo: bool, driverResult: VkResult) returns (result: VkResult)
      modifies this
      ensures !hasLayerInfo ==> result == VkErrorInitializationFailed && devices == old(devices)
      ensures hasLayerInfo && driverResult != VkSuccess ==> result == driverResult && devices == old(devices)
      ensures hasLayerInfo && driverResult == VkSuccess ==>
        result == VkSuccess && devices == old(devices)[key := NewDevice]
      ensures result == VkSuccess <==> key in devices && devices[key] == NewDevice && hasLayerInfo
                                       && driverResult == VkSuccess
      ensures enabled == old(enabled) && totalFrames == old(totalFrames) && totalInterp == old(totalInterp)
    {
      if !hasLayerInfo {
        return VkErrorInitializationFailed;
      }
      if driverResult != VkSuccess {
        return driverResult;
      }
      devices := devices[key := NewDevice];
      return VkSuccess;
    }

    /** `onDestroyDevice`: the device's entry is removed; every other device is untouched. */
    method OnDestroyDevice(key: Handle)
      modifies this
      ensures devices == old(devices) - {key}
      ensures key !in devices
      ensures enabled == old(enabled) && totalFrames == old(totalFrames) && totalInterp == old(totalInterp)
    {
      devices := devices - {key};
    }

    /** `ensureStaging` on the device with dispatch key `key`. */
    method EnsureStaging(key: Handle, w: nat, h: nat, fmt: Format, prevC: StagingCreation, curC: StagingCreation)
      requires key in devices
      modifies this
      ensures devices == old(devices)[key := EnsureStagingSpec(old(devices[key]), w, h, fmt, prevC, curC)]
      ensures enabled == old(enabled) && totalFrames == old(totalFrames) && totalInterp == old(totalInterp)
    {
      var dev := devices[key];
      if dev.curFrame.valid && dev.captureW == w && dev.captureH == h && dev.captureFormat == fmt {
        return;
      }
      dev := dev.(prevFrame := DestroyStagingImage(dev.prevFrame));
      dev := dev.(curFrame := DestroyStagingImage(dev.curFrame));
      dev := dev.(prevFrame := CreateStagingImage(dev.prevFrame, prevC));
      dev := dev.(curFrame := CreateStagingImage(dev.curFrame, curC));
      dev := dev.(captureW := w, captureH := h, captureFormat := fmt);
      dev := dev.(hasPrev := false);
      devices := devices[key := dev];
    }

    /**
     * `onCreateSwapchain`: passes on the modified create info and, if
     * that fails, the game's original one; on success it records the
     * swapchain (with the game's requested format and extent and the
     * images the driver reports) and ensures the staging images.
     * `attempts` lists the create infos passed on, in order.
     */
    method OnCreateSwapchain(key: Handle, info: SwapchainCreateInfo,
                             create: SwapchainCreateInfo -> VkResult, handle: Handle, images: seq<Handle>,
                             prevC: StagingCreation, curC: StagingCreation)
        returns (result: VkResult, attempts: seq<SwapchainCreateInfo>)
      requires key in devices && info.minImageCount < Uint32Modulus
      modifies this
      ensures attempts == if create(ModifiedCreateInfo(info)) == VkSuccess
                          then [ModifiedCreateInfo(info)] else [ModifiedCreateInfo(info), info]
      ensures result == VkSuccess <==> create(attempts[|attempts| - 1]) == VkSuccess
      ensures result != VkSuccess ==> result == create(info) && devices == old(devices)
      ensures result == VkSuccess ==>
        var tracked := old(devices[key]).(swapchains := old(devices[key]).swapchains[handle :=
                         SwapchainData(handle, images, info.imageFormat, info.width, info.height)]);
        devices == old(devices)[key := EnsureStagingSpec(tracked, info.width, info.height, info.imageFormat, prevC, curC)]
      ensures enabled == old(enabled) && totalFrames == old(totalFrames) && totalInterp == old(totalInterp)
    {
      var modified := ModifiedCreateInfo(info);
      attempts := [modified];
      result := create(modified);
      if result != VkSuccess {
        attempts := attempts + [info];
        result := create(info);
        if result != VkSuccess {
          return;
        }
      }
      var scData := SwapchainData(handle, images, info.imageFormat, info.width, info.height);
      var dev := devices[key];
      devices := devices[key := dev.(swapchains := dev.swapchains[handle := scData])];
      EnsureStaging(key, scData.width, scData.height, scData.format, prevC, curC);
    }

    /** `onDestroySwapchain`: forgets the swapchain; nothing else changes. */
    method OnDestroySwapchain(key: Handle, swapchain: Handle)
      requires key in devices
      modifies this
      ensures devices == old(devices)[key := old(devices[key]).(swapchains := old(devices[key]).swapchains - {swapchain})]
      ensures swapchain !in devices[key].swapchains
      ensures enabled == old(enabled) && totalFrames == old(totalFrames) && totalInterp == old(totalInterp)
    {
      var dev := devices[key];
      devices := devices[key := dev.(swapchains := dev.swapchains - {swapchain})];
    }

    /**
     * `onQueuePresent`: a disabled layer or a present without swapchains
     * is passed through with no counter touched; otherwise the device
     * state, the result and the presents issued are those of
     * `PresentSpec`, and the layer-wide totals move with the device's
     * counters.
     */
    method OnQueuePresent(key: Handle, info: PresentInfo, d: Driver) returns (result: VkResult, calls: seq<PresentCall>)
      requires key in devices && |info.imageIndices| == |info.swapchains|
      modifies this
      ensures !old(enabled) || |info.swapchains| == 0 ==>
        result == d.present(Forwarded) && calls == [Forwarded]
        && devices == old(devices) && totalFrames == old(totalFrames) && totalInterp == old(totalInterp)
      ensures old(enabled) && |info.swapchains| > 0 ==>
        var o := PresentSpec(old(devices[key]), info, d);
        && devices == old(devices)[key := o.dev] && result == o.result && calls == o.calls
        && totalFrames == old(totalFrames) + 1
        && totalInterp == old(totalInterp) + (o.dev.interpCount - old(devices[key]).interpCount)
      ensures enabled == old(enabled)
    {
      if !enabled || |info.swapchains| == 0 {
        return d.present(Forwarded), [Forwarded];
      }
      ghost var dev0 := devices[key];
      var dev := devices[key];
      dev := dev.(frameCount := dev.frameCount + 1);
      devices := devices[key := dev];
      totalFrames := totalFrames + 1;

      var swapchain := info.swapchains[0];
      var imageIndex := info.imageIndices[0];
      if swapchain !in dev.swapchains || |dev.swapchains[swapchain].images| == 0
         || imageIndex >= |dev.swapchains[swapchain].images| {
        return d.present(Forwarded), [Forwarded];
      }
      var scData := dev.swapchains[swapchain];
      EnsureStaging(key, scData.width, scData.height, scData.format, d.prevCreation, d.curCreation);
      dev := devices[key];
      assert dev == Prepared(dev0, info, d);
      if !dev.curFrame.valid || !dev.prevFrame.valid {
        return d.present(Forwarded), [Forwarded];
      }

      if dev.hasPrev {
        var interp := Intermediate(swapchain, imageIndex);
        calls := [interp];
        var interpResult := d.present(interp);
        if interpResult == VkSuccess || interpResult == VkSuboptimal {
          dev := dev.(interpCount := dev.interpCount + 1);
          totalInterp := totalInterp + 1;
          var acqResult := d.acquire;
          if acqResult == VkSuccess || acqResult == VkSuboptimal {
            calls := calls + [Real(swapchain, d.acquiredIndex)];
          }
        }
      } else {
        calls := [FirstFrame];
      }

      dev := dev.(prevFrame := dev.curFrame, curFrame := dev.prevFrame);
      dev := dev.(hasPrev := true);
      devices := devices[key := dev];
      result := VkSuccess;
    }
  }
}
