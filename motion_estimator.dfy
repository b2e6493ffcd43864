/**
 * The motion estimator's host code: the image-pyramid geometry (each
 * level halves the previous one, rounding up) and the compute dispatches
 * `estimate` records: a downsample per level from fine to coarse, a block
 * match per level from coarse to fine, then one refinement at full size,
 * with a barrier after every dispatch but the last.
 *
 * Image creation is a parameter (whether the flow field could be
 * created); the pyramid levels carry only their sizes, as in the source.
 */
module Motion {
  import opened Compute

  datatype LevelSize = LevelSize(width: nat, height: nat)

  /** Workgroup tile edge of the downsample and refine pipelines. */
  const PixelTile: nat := 16

  function Pow2(i: nat): (p: nat)
    ensures p >= 1
  {
    if i == 0 then 1 else 2 * Pow2(i - 1)
  }

  /** `x` halved `i` times, each time rounding up: `(x + 1) / 2`. */
  function Halvings(x: nat, i: nat): nat
  {
    if i == 0 then x else (Halvings(x, i - 1) + 1) / 2
  }

  lemma MulMono(a: nat, b: nat, d: nat)
    requires a <= b
    ensures a * d <= b * d
  {
    assert b * d == a * d + (b - a) * d;
  }

  /** At most one multiple of `d` can lie in the window [x, x + d). */
  lemma CeilUnique(x: nat, d: nat, q: nat, q': nat)
    requires d > 0
    requires x <= q * d < x + d && x <= q' * d < x + d
    ensures q == q'
  {
    var lo := if q < q' then q else q';
    var hi := if q < q' then q' else q;
    MulMono(lo + 1, if lo < hi then hi else lo + 1, d);
    assert (lo + 1) * d == lo * d + d;
  }

  /** Halving a ceiling quotient by `d`, rounding up, gives the ceiling quotient by `2d`. */
  lemma HalveCeil(x: nat, d: nat)
    requires d > 0
    ensures (CeilDiv(x, d) + 1) / 2 == CeilDiv(x, 2 * d)
  {
    var g := CeilDiv(x, d);
    var q := (g + 1) / 2;
    assert g <= 2 * q <= g + 1;
    assert q * (2 * d) == (2 * q) * d;
    MulMono(g, 2 * q, d);
    MulMono(2 * q, g + 1, d);
    assert (g + 1) * d == g * d + d;
    CeilUnique(x, 2 * d, q, CeilDiv(x, 2 * d));
  }

  /** Halving `i` times, rounding up each time, is one ceiling division by 2^i. */
  lemma {:induction false} HalvingsIsCeil(x: nat, i: nat)
    ensures Halvings(x, i) == CeilDiv(x, Pow2(i))
  {
    if i == 0 {
      CeilUnique(x, 1, x, CeilDiv(x, 1));
    } else {
      HalvingsIsCeil(x, i - 1);
      HalveCeil(x, Pow2(i - 1));
    }
  }

  /** Levels never grow, and stay at least 1 when the full size is at least 1. */
  lemma {:induction false} HalvingsShrink(x: nat, i: nat)
    ensures Halvings(x, i + 1) <= Halvings(x, i)
    ensures x >= 1 ==> Halvings(x, i) >= 1
  {
    if i > 0 {
      HalvingsShrink(x, i - 1);
    }
  }

  /** The pyramid `createPyramid` builds: level i is the full size halved i times. */
  function PyramidSpec(width: nat, height: nat, levels: nat): (p: seq<LevelSize>)
    ensures |p| == levels
    ensures forall i :: 0 <= i < levels ==> p[i] == LevelSize(Halvings(width, i), Halvings(height, i))
  {
    seq(levels, i requires 0 <= i => LevelSize(Halvings(width, i), Halvings(height, i)))
  }

  /**
   * Level i of the pyramid is ceil(width / 2^i) x ceil(height / 2^i);
   * sizes never increase with the level and stay at least 1 x 1 when the
   * frame is at least 1 x 1.
   */
  lemma PyramidGeometry(width: nat, height: nat, levels: nat)
    ensures forall i :: 0 <= i < levels ==>
      PyramidSpec(width, height, levels)[i] == LevelSize(CeilDiv(width, Pow2(i)), CeilDiv(height, Pow2(i)))
    ensures forall i :: 0 <= i < levels - 1 ==>
      && PyramidSpec(width, height, levels)[i + 1].width <= PyramidSpec(width, height, levels)[i].width
      && PyramidSpec(width, height, levels)[i + 1].height <= PyramidSpec(width, height, levels)[i].height
    ensures width >= 1 && height >= 1 ==> forall i :: 0 <= i < levels ==>
      PyramidSpec(width, height, levels)[i].width >= 1 && PyramidSpec(width, height, levels)[i].height >= 1
  {
    var p := PyramidSpec(width, height, levels);
    forall i | 0 <= i < levels
      ensures p[i] == LevelSize(CeilDiv(width, Pow2(i)), CeilDiv(height, Pow2(i)))
      ensures width >= 1 && height >= 1 ==> p[i].width >= 1 && p[i].height >= 1
    {
      HalvingsIsCeil(width, i);
      HalvingsIsCeil(height, i);
      HalvingsShrink(width, i);
      HalvingsShrink(height, i);
    }
    forall i | 0 <= i < levels - 1
      ensures p[i + 1].width <= p[i].width && p[i + 1].height <= p[i].height
    {
      HalvingsShrink(width, i);
      HalvingsShrink(height, i);
    }
  }

  function DownsampleDispatch(level: LevelSize): Command
  {
    Grid("downsample", level.width, level.height, PixelTile, NoPush)
  }

  function MatchDispatch(level: LevelSize, index: nat, blockSize: nat, searchRadius: nat, levels: nat): Command
    requires blockSize > 0
  {
    Grid("block_match", level.width, level.height, blockSize,
         MatchPush(level.width, level.height, blockSize, searchRadius, index, levels))
  }

  function RefineDispatch(width: nat, height: nat): Command
  {
    Grid("flow_refine", width, height, PixelTile, NoPush)
  }

  class MotionEstimator {
    /** Whether a compute context is attached (`compute_` non-null). */
    var hasCompute: bool
    var width: nat
    var height: nat
    var blockSize: nat
    var searchRadius: nat
    var pyramidLevels: nat
    var pyramid: seq<LevelSize>

    constructor ()
      ensures !hasCompute && width == 0 && height == 0 && pyramid == []
      ensures blockSize == 8 && searchRadius == 16 && pyramidLevels == 4
    {
      hasCompute := false;
      width, height := 0, 0;
      blockSize, searchRadius, pyramidLevels := 8, 16, 4;
      pyramid := [];
    }

    /** The setters store their value and rebuild nothing. */
    method SetBlockSize(size: nat)
      modifies this
      ensures blockSize == size
      ensures hasCompute == old(hasCompute) && width == old(width) && height == old(height)
      ensures searchRadius == old(searchRadius) && pyramidLevels == old(pyramidLevels) && pyramid == old(pyramid)
    {
      blockSize := size;
    }

    method SetSearchRadius(radius: nat)
      modifies this
      ensures searchRadius == radius
      ensures hasCompute == old(hasCompute) && width == old(width) && height == old(height)
      ensures blockSize == old(blockSize) && pyramidLevels == old(pyramidLevels) && pyramid == old(pyramid)
    {
      searchRadius := radius;
    }

    method SetPyramidLevels(levels: nat)
      modifies this
      ensures pyramidLevels == levels
      ensures hasCompute == old(hasCompute) && width == old(width) && height == old(height)
      ensures blockSize == old(blockSize) && searchRadius == old(searchRadius) && pyramid == old(pyramid)
    {
      pyramidLevels := levels;
    }

    /** `createPyramid`: one entry per level, halving (rounded up) from the full size. */
    method CreatePyramid() returns (ok: bool)
      modifies this
      ensures ok
      ensures pyramid == PyramidSpec(width, height, pyramidLevels)
      ensures hasCompute == old(hasCompute) && width == old(width) && height == old(height)
      ensures blockSize == old(blockSize) && searchRadius == old(searchRadius) && pyramidLevels == old(pyramidLevels)
    {
      var levels := seq(pyramidLevels, _ => LevelSize(0, 0));
      var w := width;
      var h := height;
      var i := 0;
      while i < pyramidLevels
        invariant 0 <= i <= pyramidLevels && |levels| == pyramidLevels
        invariant i > 0 ==> w == Halvings(width, i - 1) && h == Halvings(height, i - 1)
        invariant i == 0 ==> w == width && h == height
        invariant forall j :: 0 <= j < i ==> levels[j] == LevelSize(Halvings(width, j), Halvings(height, j))
      {
        if i > 0 {
          w := (w + 1) / 2;
          h := (h + 1) / 2;
        }
        levels := levels[i := LevelSize(w, h)];
        i := i + 1;
      }
      pyramid := levels;
      return true;
    }

    /**
     * `init`: attaches the compute context and the frame size; fails if
     * the flow field cannot be created (the pyramid is then left as it
     * was), otherwise builds the pyramid and succeeds.
     */
    method Init(w: nat, h: nat, flowFieldCreated: bool) returns (ok: bool)
      modifies this
      ensures hasCompute && width == w && height == h
      ensures ok == flowFieldCreated
      ensures ok ==> pyramid == PyramidSpec(w, h, pyramidLevels)
      ensures !ok ==> pyramid == old(pyramid)
      ensures blockSize == old(blockSize) && searchRadius == old(searchRadius) && pyramidLevels == old(pyramidLevels)
    {
      hasCompute := true;
      width := w;
      height := h;
      if !flowFieldCreated {
        return false;
      }
      ok := CreatePyramid();
    }

    /** A no-op without a compute context; otherwise drops the pyramid and detaches. */
    method Shutdown()
      modifies this
      ensures !hasCompute
      ensures old(hasCompute) ==> pyramid == []
      ensures !old(hasCompute) ==> pyramid == old(pyramid)
      ensures width == old(width) && height == old(height)
      ensures blockSize == old(blockSize) && searchRadius == old(searchRadius) && pyramidLevels == old(pyramidLevels)
    {
      if !hasCompute {
        return;
      }
      pyramid := [];
      hasCompute := false;
    }

    /**
     * The commands `estimate` records, for L = `pyramidLevels`: downsample
     * of levels 0..L-1, then block match of levels L-1..0, then one
     * refinement over the full frame, each dispatch but the last followed
     * by a barrier. The source reads `pyramid_[level]` unchecked and
     * divides by `blockSize_`, hence the two requirements.
     */
    method Estimate() returns (cmds: seq<Command>)
      requires hasCompute
      requires |pyramid| >= pyramidLevels && blockSize > 0
      ensures |cmds| == 4 * pyramidLevels + 1
      ensures BarrierSeparated(cmds)
      ensures forall k :: 0 <= k < 2 * pyramidLevels && k % 2 == 0 ==>
        cmds[k] == DownsampleDispatch(pyramid[k / 2])
      ensures forall k :: 2 * pyramidLevels <= k < 4 * pyramidLevels && k % 2 == 0 ==>
        var level := pyramidLevels - 1 - (k - 2 * pyramidLevels) / 2;
        cmds[k] == MatchDispatch(pyramid[level], level, blockSize, searchRadius, pyramidLevels)
      ensures cmds[4 * pyramidLevels] == RefineDispatch(width, height)
    {
      var L := pyramidLevels;
      cmds := [];
      var level := 0;
      while level < L
        invariant 0 <= level <= L
        invariant |cmds| == 2 * level
        invariant forall k :: 0 <= k < |cmds| ==> (cmds[k].Barrier? <==> k % 2 == 1)
        invariant forall k :: 0 <= k < |cmds| && k % 2 == 0 ==> cmds[k] == DownsampleDispatch(pyramid[k / 2])
      {
        cmds := cmds + [DownsampleDispatch(pyramid[level]), Barrier];
        level := level + 1;
      }

      var coarse: int := L - 1;
      while coarse >= 0
        invariant -1 <= coarse <= L - 1
        invariant |cmds| == 2 * L + 2 * (L - 1 - coarse)
        invariant forall k :: 0 <= k < |cmds| ==> (cmds[k].Barrier? <==> k % 2 == 1)
        invariant forall k :: 0 <= k < 2 * L && k % 2 == 0 ==> cmds[k] == DownsampleDispatch(pyramid[k / 2])
        invariant forall k :: 2 * L <= k < |cmds| && k % 2 == 0 ==>
          cmds[k] == MatchDispatch(pyramid[L - 1 - (k - 2 * L) / 2], L - 1 - (k - 2 * L) / 2, blockSize, searchRadius, L)
      {
        cmds := cmds + [MatchDispatch(pyramid[coarse], coarse, blockSize, searchRadius, L), Barrier];
        coarse := coarse - 1;
      }

      cmds := cmds + [RefineDispatch(width, height)];
    }
  }

  /** `estimate` records 2L+1 dispatches and 2L barriers. */
  lemma EstimateCounts(cmds: seq<Command>, levels: nat)
    requires |cmds| == 4 * levels + 1 && BarrierSeparated(cmds)
    ensures |Dispatches(cmds)| == 2 * levels + 1
    ensures BarrierCount(cmds) == 2 * levels
  {
    BarrierSeparatedCounts(cmds);
  }
}
