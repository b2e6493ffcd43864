/**
 * The bidirectional optical-flow stage's host code: the five intermediate
 * images it owns, `init` creating them in order and stopping at the first
 * failure, `shutdown`, and the four dispatches `computeBidirectional`
 * records (grayscale, forward match, backward match, consistency check),
 * one barrier between each pair.
 *
 * Image creation is an oracle: attempt j reports whether it succeeded and
 * which handles it left in the image record (a failed attempt can leave
 * some of them set).
 */
module Flow {
  import opened Types
  import opened Compute

  datatype FlowImage = FlowImage(image: Handle, view: Handle, memory: Handle)

  const NoImage: FlowImage := FlowImage(NullHandle, NullHandle, NullHandle)

  /** What creating one image reports. */
  datatype Creation = Creation(ok: bool, images: FlowImage)

  datatype FlowResult = FlowResult(
    forwardFlow: Handle, backwardFlow: Handle, confidenceMap: Handle,
    forwardFlowView: Handle, backwardFlowView: Handle, confidenceView: Handle)

  /** Number of images `init` creates, in the order forward, backward, confidence, gray 1, gray 2. */
  const ImageCount: nat := 5

  const MatchBlock: nat := 8
  const MatchRadius: nat := 16
  const ConsistencyThreshold: real := 1.5

  /** The index of the first failed creation among the five, or 5. */
  function FirstFailedCreation(creations: nat -> Creation): (k: nat)
    ensures k <= ImageCount
    ensures forall j :: 0 <= j < k ==> creations(j).ok
    ensures k < ImageCount ==> !creations(k).ok
  {
    if !creations(0).ok then 0
    else if !creations(1).ok then 1
    else if !creations(2).ok then 2
    else if !creations(3).ok then 3
    else if !creations(4).ok then 4
    else 5
  }

  class OpticalFlow {
    var hasCompute: bool
    var width: nat
    var height: nat
    var forwardFlow: FlowImage
    var backwardFlow: FlowImage
    var confidenceMap: FlowImage
    var grayscale1: FlowImage
    var grayscale2: FlowImage

    /** The five images in creation order. */
    function Images(): (imgs: seq<FlowImage>)
      reads this
      ensures |imgs| == ImageCount
    {
      [forwardFlow, backwardFlow, confidenceMap, grayscale1, grayscale2]
    }

    constructor ()
      ensures !hasCompute && width == 0 && height == 0
      ensures forall j :: 0 <= j < ImageCount ==> Images()[j] == NoImage
    {
      hasCompute := false;
      width, height := 0, 0;
      forwardFlow, backwardFlow, confidenceMap := NoImage, NoImage, NoImage;
      grayscale1, grayscale2 := NoImage, NoImage;
    }

    /**
     * `init`: attaches the context and size, then creates the five images
     * in order. Image j is written iff every earlier creation succeeded;
     * the call succeeds iff all five did.
     */
    method Init(w: nat, h: nat, creations: nat -> Creation) returns (ok: bool)
      modifies this
      ensures hasCompute && width == w && height == h
      ensures ok <==> FirstFailedCreation(creations) == ImageCount
      ensures forall j :: 0 <= j < ImageCount ==>
        Images()[j] == if j <= FirstFailedCreation(creations) then creations(j).images else old(Images())[j]
    {
      hasCompute := true;
      width := w;
      height := h;
      forwardFlow := creations(0).images;
      if !creations(0).ok { return false; }
      backwardFlow := creations(1).images;
      if !creations(1).ok { return false; }
      confidenceMap := creations(2).images;
      if !creations(2).ok { return false; }
      grayscale1 := creations(3).images;
      if !creations(3).ok { return false; }
      grayscale2 := creations(4).images;
      if !creations(4).ok { return false; }
      return true;
    }

    /** A no-op without a context; otherwise resets all five images and detaches. */
    method Shutdown()
      modifies this
      ensures !hasCompute
      ensures old(hasCompute) ==> forall j :: 0 <= j < ImageCount ==> Images()[j] == NoImage
      ensures !old(hasCompute) ==> Images() == old(Images())
      ensures width == old(width) && height == old(height)
    {
      if !hasCompute {
        return;
      }
      forwardFlow, backwardFlow, confidenceMap := NoImage, NoImage, NoImage;
      grayscale1, grayscale2 := NoImage, NoImage;
      hasCompute := false;
    }

    /**
     * `computeBidirectional`: grayscale conversion, forward block match
     * (direction +1), backward block match (direction -1) and the
     * consistency check (threshold 1.5 px), in that order and each pair
     * separated by one barrier; matches run over ceil(w/8) x ceil(h/8)
     * groups with radius 16 and block 8, the rest over ceil(w/16) x
     * ceil(h/16). It hands back the engine's own flow and confidence
     * images.
     */
    method ComputeBidirectional() returns (cmds: seq<Command>, result: FlowResult)
      requires hasCompute
      ensures BarrierSeparated(cmds) && |cmds| == 7
      ensures cmds[0] == Grid("rgb_to_gray", width, height, 16, NoPush)
      ensures cmds[2] == Grid("block_match", width, height, MatchBlock,
                              FlowPush(width, height, MatchRadius, MatchBlock, 1.0))
      ensures cmds[4] == Grid("block_match", width, height, MatchBlock,
                              FlowPush(width, height, MatchRadius, MatchBlock, -1.0))
      ensures cmds[6] == Grid("flow_consistency", width, height, 16,
                              ConsistencyPush(width, height, ConsistencyThreshold))
      ensures result == FlowResult(forwardFlow.image, backwardFlow.image, confidenceMap.image,
                                   forwardFlow.view, backwardFlow.view, confidenceMap.view)
    {
      cmds := [Grid("rgb_to_gray", width, height, 16, NoPush)];
      cmds := cmds + [Barrier];
      cmds := cmds + [Grid("block_match", width, height, MatchBlock,
                           FlowPush(width, height, MatchRadius, MatchBlock, 1.0))];
      cmds := cmds + [Barrier];
      cmds := cmds + [Grid("block_match", width, height, MatchBlock,
                           FlowPush(width, height, MatchRadius, MatchBlock, -1.0))];
      cmds := cmds + [Barrier];
      cmds := cmds + [Grid("flow_consistency", width, height, 16,
                           ConsistencyPush(width, height, ConsistencyThreshold))];
      result := FlowResult(forwardFlow.image, backwardFlow.image, confidenceMap.image,
                           forwardFlow.view, backwardFlow.view, confidenceMap.view);
    }
  }

  /**
   * The recorded schedule has four dispatches and three barriers, and the
   * consistency check comes after both flows, which come after the
   * grayscale conversion.
   */
  lemma BidirectionalOrder(cmds: seq<Command>)
    requires BarrierSeparated(cmds) && |cmds| == 7
    ensures |Dispatches(cmds)| == 4 && BarrierCount(cmds) == 3
    ensures Dispatches(cmds) == [cmds[0], cmds[2], cmds[4], cmds[6]]
  {
    BarrierSeparatedCounts(cmds);
  }
}
