/**
 * The capture ring: a fixed number of GPU image slots written in turn.
 * Each capture copies the swapchain image into the slot at the current
 * index, stamps it with the frame index and the capture time and advances
 * the index modulo the ring size; the last two captures can be read back
 * as the interpolation input.
 *
 * Vulkan object creation is an oracle (whether each slot's creation
 * succeeded and which handles it produced); the clock reading of a
 * capture is a parameter. The copy, the layout transitions, the fence
 * wait and the submit are GPU work and are not modelled.
 */
module Capture {
  import opened Types
  import FrameQueues

  /** One ring slot: its GPU objects and the metadata of the frame it last received. */
  datatype Slot = Slot(
    image: Handle, view: Handle, memory: Handle, semaphore: Handle, fence: Handle,
    frameIndex: nat, timestampNs: nat, ready: bool)

  /** A value-initialised slot. */
  const EmptySlot: Slot := Slot(NullHandle, NullHandle, NullHandle, NullHandle, NullHandle, 0, 0, false)

  /** What creating one slot's objects reports: success, and the handles it wrote. */
  datatype SlotCreation = SlotCreation(
    ok: bool, image: Handle, view: Handle, memory: Handle, semaphore: Handle, fence: Handle)

  /** The slot after `createBuffer` wrote the handles; its metadata is untouched. */
  function Created(s: Slot, c: SlotCreation): (r: Slot)
    ensures r.frameIndex == s.frameIndex && r.timestampNs == s.timestampNs && r.ready == s.ready
    ensures r.image == c.image && r.semaphore == c.semaphore
  {
    s.(image := c.image, view := c.view, memory := c.memory, semaphore := c.semaphore, fence := c.fence)
  }

  /** `s` grown with value-initialised slots or cut down to exactly `n` slots, as `vector::resize` does. */
  function ResizedRing(s: seq<Slot>, n: nat): (r: seq<Slot>)
    ensures |r| == n
    ensures forall j :: 0 <= j < n ==> r[j] == if j < |s| then s[j] else EmptySlot
  {
    if n <= |s| then s[..n] else s + seq(n - |s|, _ => EmptySlot)
  }

  /** The index of the first failed slot creation below `n`, searching from `from`, or `n`. */
  function FirstFailedSlot(creations: nat -> SlotCreation, from: nat, n: nat): (k: nat)
    requires from <= n
    ensures from <= k <= n
    ensures forall j :: from <= j < k ==> creations(j).ok
    ensures k < n ==> !creations(k).ok
    decreases n - from
  {
    if from == n then n
    else if !creations(from).ok then from
    else FirstFailedSlot(creations, from + 1, n)
  }

  /** The slot `d` places before `current` in a ring of `n`, as `(current + n - d) % n`. */
  function Back(current: nat, d: nat, n: nat): (s: nat)
    requires current < n && 1 <= d <= n
    ensures s < n
    ensures s == (current + n - d) % n
  {
    FrameQueues.ModWrap(current + n - d, n);
    if current >= d then current - d else current + n - d
  }

  /** The descriptor `getLastTwoFrames` builds for a slot. */
  function SlotFrame(s: Slot, width: nat, height: nat, format: Format): (f: FrameData)
    ensures f.image == s.image && f.frameIndex == s.frameIndex && f.timestampNs == s.timestampNs
    ensures f.width == width && f.height == height && f.format == format
    ensures !f.isInterpolated && f.renderComplete == s.semaphore
  {
    FrameData(s.image, width, height, format, s.timestampNs, s.frameIndex, false, s.semaphore)
  }

  /** Bit `i` of a Vulkan memory-type filter. */
  predicate FilterHas(typeFilter: bv32, i: nat)
    requires i < 32
  {
    typeFilter & (1 as bv32 << i) != 0
  }

  /** Memory type `i` is allowed by the filter and has every requested property. */
  predicate Suitable(typeFilter: bv32, typeFlags: seq<bv32>, properties: bv32, i: nat)
    requires i < |typeFlags| <= 32
  {
    FilterHas(typeFilter, i) && typeFlags[i] & properties == properties
  }

  /**
   * `findMemoryType`: scans the device's memory types in order and returns
   * the first suitable one; when none is, it falls back to type 0.
   */
  method FindMemoryType(typeFilter: bv32, typeFlags: seq<bv32>, properties: bv32) returns (i: nat)
    requires |typeFlags| <= 32
    ensures (exists j :: 0 <= j < |typeFlags| && Suitable(typeFilter, typeFlags, properties, j)) ==>
              && i < |typeFlags| && Suitable(typeFilter, typeFlags, properties, i)
              && forall j :: 0 <= j < i ==> !Suitable(typeFilter, typeFlags, properties, j)
    ensures (forall j :: 0 <= j < |typeFlags| ==> !Suitable(typeFilter, typeFlags, properties, j)) ==> i == 0
  {
    var k := 0;
    while k < |typeFlags|
      invariant 0 <= k <= |typeFlags|
      invariant forall j :: 0 <= j < k ==> !Suitable(typeFilter, typeFlags, properties, j)
    {
      if FilterHas(typeFilter, k) && typeFlags[k] & properties == properties {
        assert Suitable(typeFilter, typeFlags, properties, k);
        return k;
      }
      k := k + 1;
    }
    return 0;
  }

  /**
   * The slot-creation loop of `init`: creates the slots of `ring` in order
   * and stops at the first failure, whose slot keeps the handles that
   * failed creation wrote. Succeeds iff every slot was created.
   */
  method CreateSlots(ring: seq<Slot>, creations: nat -> SlotCreation) returns (slots: seq<Slot>, ok: bool)
    ensures |slots| == |ring|
    ensures ok <==> FirstFailedSlot(creations, 0, |ring|) == |ring|
    ensures forall j :: 0 <= j < |ring| ==>
      slots[j] == if j <= FirstFailedSlot(creations, 0, |ring|) then Created(ring[j], creations(j)) else ring[j]
  {
    ghost var k := FirstFailedSlot(creations, 0, |ring|);
    slots := ring;
    var j := 0;
    while j < |ring|
      invariant 0 <= j <= |ring| && j <= k
      invariant FirstFailedSlot(creations, j, |ring|) == k
      invariant |slots| == |ring|
      invariant forall i :: 0 <= i < |ring| ==> slots[i] == if i < j then Created(ring[i], creations(i)) else ring[i]
    {
      slots := slots[j := Created(slots[j], creations(j))];
      if !creations(j).ok {
        assert k == j;
        return slots, false;
      }
      j := j + 1;
    }
    return slots, true;
  }

  class VulkanCapture {
    var device: Handle
    var physicalDevice: Handle
    var commandPool: Handle
    var width: nat
    var height: nat
    var format: Format
    /** The ring size; fixed at 4 for the object's lifetime. */
    const bufferCount: nat
    var buffers: seq<Slot>
    var currentIndex: nat

    /** The frames captured since the ring was last created, oldest first. */
    ghost var Captured: seq<FrameData>

    /**
     * The index stays inside the ring; the ring is either absent or has
     * `bufferCount` slots; and the slot `d` places behind the current index
     * holds the d-th most recent capture.
     */
    ghost predicate Valid()
      reads this
    {
      && bufferCount == 4
      && currentIndex < bufferCount
      && (|buffers| == 0 || |buffers| == bufferCount)
      && (|buffers| == 0 ==> Captured == [])
      && (|buffers| == bufferCount ==>
            forall d :: 1 <= d <= bufferCount && d <= |Captured| ==>
              SlotFrame(buffers[Back(currentIndex, d, bufferCount)], width, height, format)
                == Captured[|Captured| - d])
    }

    constructor ()
      ensures Valid()
      ensures device == NullHandle && commandPool == NullHandle && buffers == []
      ensures currentIndex == 0 && width == 0 && height == 0 && format == FormatR8G8B8A8Unorm
    {
      device, physicalDevice, commandPool := NullHandle, NullHandle, NullHandle;
      width, height, format := 0, 0, FormatR8G8B8A8Unorm;
      bufferCount := 4;
      buffers := [];
      currentIndex := 0;
      Captured := [];
    }

    /**
     * `init`: records the device and the capture size, creates the command
     * pool, then sizes the ring to `bufferCount` slots and creates them in
     * order. A failed pool creation fails before the ring is touched; slot
     * j is written iff every earlier slot creation succeeded; the call
     * succeeds iff the pool and all slots were created.
     */
    method Init(dev: Handle, physDev: Handle, w: nat, h: nat, fmt: Format,
                pool: Option<Handle>, creations: nat -> SlotCreation) returns (ok: bool)
      requires Valid()
      modifies this
      ensures Valid()
      ensures device == dev && physicalDevice == physDev && width == w && height == h && format == fmt
      ensures currentIndex == old(currentIndex)
      ensures pool.None? ==> !ok && buffers == old(buffers) && commandPool == old(commandPool)
      ensures pool.Some? ==>
        && commandPool == pool.value
        && (ok <==> FirstFailedSlot(creations, 0, bufferCount) == bufferCount)
        && |buffers| == bufferCount
        && forall j :: 0 <= j < bufferCount ==>
             buffers[j] == if j <= FirstFailedSlot(creations, 0, bufferCount)
                           then Created(ResizedRing(old(buffers), bufferCount)[j], creations(j))
                           else ResizedRing(old(buffers), bufferCount)[j]
    {
      device := dev;
      physicalDevice := physDev;
      width, height, format := w, h, fmt;
      Captured := [];
      if pool.None? {
        return false;
      }
      commandPool := pool.value;
      buffers, ok := CreateSlots(ResizedRing(buffers, bufferCount), creations);
    }

    /** A no-op without a device; otherwise drops the ring and the pool and forgets the device. */
    method Shutdown()
      requires Valid()
      modifies this
      ensures Valid()
      ensures device == NullHandle
      ensures old(device) == NullHandle ==> unchanged(this)
      ensures old(device) != NullHandle ==> buffers == [] && commandPool == NullHandle
      ensures currentIndex == old(currentIndex)
      ensures width == old(width) && height == old(height) && format == old(format)
      ensures physicalDevice == old(physicalDevice)
    {
      if device == NullHandle {
        return;
      }
      buffers := [];
      Captured := [];
      if commandPool != NullHandle {
        commandPool := NullHandle;
      }
      device := NullHandle;
    }

    /**
     * `captureFrame`: writes the slot at the current index (its frame
     * index, its capture time `nowNs`, ready), returns the descriptor of
     * that slot and advances the index modulo the ring size.
     */
    method CaptureFrame(frameIndex: nat, nowNs: nat) returns (frame: FrameData)
      requires Valid() && |buffers| == bufferCount
      modifies this
      ensures Valid() && |buffers| == bufferCount
      ensures frame == SlotFrame(buffers[old(currentIndex)], width, height, format)
      ensures frame.frameIndex == frameIndex && frame.timestampNs == nowNs && !frame.isInterpolated
      ensures frame.image == old(buffers[currentIndex].image)
      ensures buffers == old(buffers)[old(currentIndex) :=
        old(buffers[currentIndex]).(frameIndex := frameIndex, timestampNs := nowNs, ready := true)]
      ensures currentIndex == (old(currentIndex) + 1) % bufferCount
      ensures Captured == old(Captured) + [frame]
      ensures width == old(width) && height == old(height) && format == old(format)
      ensures device == old(device) && commandPool == old(commandPool) && physicalDevice == old(physicalDevice)
    {
      var slot := buffers[currentIndex].(frameIndex := frameIndex, timestampNs := nowNs, ready := true);
      buffers := buffers[currentIndex := slot];
      frame := FrameData(slot.image, width, height, format, slot.timestampNs, frameIndex, false, slot.semaphore);
      ghost var oldIndex := currentIndex;
      FrameQueues.ModWrap(currentIndex + 1, bufferCount);
      currentIndex := (currentIndex + 1) % bufferCount;
      Captured := Captured + [frame];
      forall d | 1 <= d <= bufferCount && d <= |Captured|
        ensures SlotFrame(buffers[Back(currentIndex, d, bufferCount)], width, height, format)
                  == Captured[|Captured| - d]
      {
        if d == 1 {
          assert Back(currentIndex, d, bufferCount) == oldIndex;
        } else {
          assert Back(currentIndex, d, bufferCount) == Back(oldIndex, d - 1, bufferCount);
        }
      }
    }

    /**
     * `getLastTwoFrames`: the descriptors of the slots two and one places
     * behind the current index. Once two frames were captured since the
     * ring was created, they are the second-to-last and the last capture.
     */
    function LastTwoFrames(): (pair: (FrameData, FrameData))
      requires Valid() && |buffers| == bufferCount
      reads this
      ensures |Captured| >= 2 ==> pair == (Captured[|Captured| - 2], Captured[|Captured| - 1])
      ensures |Captured| == 1 ==> pair.1 == Captured[0]
    {
      var prev := (currentIndex + bufferCount - 2) % bufferCount;
      var curr := (currentIndex + bufferCount - 1) % bufferCount;
      assert prev == Back(currentIndex, 2, bufferCount);
      assert curr == Back(currentIndex, 1, bufferCount);
      (SlotFrame(buffers[prev], width, height, format), SlotFrame(buffers[curr], width, height, format))
    }
  }

  /**
   * Two captures in a row on an initialised ring: reading back the last
   * two frames gives exactly what the two calls returned, in order.
   */
  method CaptureTwiceThenRead(c: VulkanCapture, i1: nat, t1: nat, i2: nat, t2: nat)
      returns (f1: FrameData, f2: FrameData, pair: (FrameData, FrameData))
    requires c.Valid() && |c.buffers| == c.bufferCount
    modifies c
    ensures pair == (f1, f2)
    ensures f1.frameIndex == i1 && f2.frameIndex == i2
    ensures f1.timestampNs == t1 && f2.timestampNs == t2
  {
    f1 := c.CaptureFrame(i1, t1);
    f2 := c.CaptureFrame(i2, t2);
    pair := c.LastTwoFrames();
  }
}
