/**
 * The GPU compute substrate, reduced to what the host code records into a
 * command buffer: a dispatch of a named pipeline with its workgroup counts
 * and push constants, or a compute-to-compute memory barrier. Submission,
 * descriptor binding and the shaders themselves are not modelled.
 */
module Compute {

  /** The push-constant block of each pipeline, field by field. */
  datatype Push =
    | NoPush
      /** motion estimator block_match: level size, block, radius, level, level count */
    | MatchPush(width: nat, height: nat, blockSize: nat, searchRadius: nat, level: nat, totalLevels: nat)
      /** optical-flow block_match: size, radius, block, direction (+1 forward, -1 backward) */
    | FlowPush(width: nat, height: nat, searchRadius: nat, blockSize: nat, direction: real)
      /** flow_consistency: size and occlusion threshold in pixels */
    | ConsistencyPush(width: nat, height: nat, threshold: real)
      /** fallback interpolation optical_flow: timestep, size, block */
    | TimestepPush(timestep: real, width: nat, height: nat, blockSize: nat)
      /** fallback interpolation frame_blend: blend factor, size */
    | BlendPush(blendFactor: real, width: nat, height: nat)

  datatype Command =
    | Dispatch(pipeline: string, groupsX: nat, groupsY: nat, groupsZ: nat, push: Push)
    | Barrier

  /** Workgroups needed to cover `n` items with groups of `size` (the source's `(n + size - 1) / size`). */
  function CeilDiv(n: nat, size: nat): (g: nat)
    requires size > 0
    ensures g * size >= n
    ensures g * size < n + size
  {
    (n + size - 1) / size
  }

  /** A two-dimensional dispatch with a square workgroup of `tile` pixels. */
  function Grid(pipeline: string, width: nat, height: nat, tile: nat, push: Push): (c: Command)
    requires tile > 0
    ensures c.Dispatch? && c.pipeline == pipeline && c.push == push && c.groupsZ == 1
    ensures c.groupsX * tile >= width && c.groupsY * tile >= height
    ensures c.groupsX * tile < width + tile && c.groupsY * tile < height + tile
  {
    Dispatch(pipeline, CeilDiv(width, tile), CeilDiv(height, tile), 1, push)
  }

  /**
   * Dispatches and barriers alternate, starting and ending with a dispatch:
   * exactly one barrier separates each consecutive pair of dispatches and
   * none trails the last one.
   */
  ghost predicate BarrierSeparated(cmds: seq<Command>)
  {
    && |cmds| % 2 == 1
    && forall k :: 0 <= k < |cmds| ==> (cmds[k].Barrier? <==> k % 2 == 1)
  }

  /**
   * The dispatches of a command sequence, in recording order; with the
   * barriers they account for every command. `DispatchesMembers` says they
   * are exactly the sequence's dispatches, `DispatchesAppend` that the
   * order is kept.
   */
  function Dispatches(cmds: seq<Command>): (ds: seq<Command>)
    ensures forall d :: d in ds ==> d.Dispatch?
    ensures |ds| + BarrierCount(cmds) == |cmds|
  {
    if cmds == [] then []
    else if cmds[0].Dispatch? then [cmds[0]] + Dispatches(cmds[1..])
    else Dispatches(cmds[1..])
  }

  /** A command is among the dispatches exactly when it is a dispatch recorded in the sequence. */
  lemma {:induction false} DispatchesMembers(cmds: seq<Command>, c: Command)
    ensures c in Dispatches(cmds) <==> c in cmds && c.Dispatch?
  {
    if cmds != [] {
      DispatchesMembers(cmds[1..], c);
      assert cmds == [cmds[0]] + cmds[1..];
    }
  }

  /** The number of barriers in a command sequence. */
  function BarrierCount(cmds: seq<Command>): (n: nat)
    ensures n <= |cmds|
    ensures n == 0 <==> Barrier !in cmds
  {
    if cmds == [] then 0
    else (if cmds[0].Barrier? then 1 else 0) + BarrierCount(cmds[1..])
  }

  lemma {:induction false} DispatchesAppend(a: seq<Command>, b: seq<Command>)
    ensures Dispatches(a + b) == Dispatches(a) + Dispatches(b)
    ensures BarrierCount(a + b) == BarrierCount(a) + BarrierCount(b)
  {
    if a == [] {
      assert a + b == b;
    } else {
      assert (a + b)[1..] == a[1..] + b;
      DispatchesAppend(a[1..], b);
    }
  }

  /**
   * In a barrier-separated sequence of 2n+1 commands there are n+1 dispatches,
   * n barriers, and every dispatch count and barrier count add up.
   */
  lemma {:induction false} BarrierSeparatedCounts(cmds: seq<Command>)
    requires BarrierSeparated(cmds)
    ensures |Dispatches(cmds)| == |cmds| / 2 + 1
    ensures BarrierCount(cmds) == |cmds| / 2
    ensures forall k :: 0 <= k <= |cmds| / 2 ==> Dispatches(cmds)[k] == cmds[2 * k]
  {
    if |cmds| == 1 {
      assert cmds == [cmds[0]] + [];
      assert cmds[1..] == [];
    } else {
      var rest := cmds[2..];
      assert BarrierSeparated(rest) by {
        forall k | 0 <= k < |rest| ensures rest[k].Barrier? <==> k % 2 == 1 {
          assert rest[k] == cmds[k + 2];
        }
      }
      BarrierSeparatedCounts(rest);
      assert cmds == [cmds[0], cmds[1]] + rest;
      DispatchesAppend([cmds[0], cmds[1]], rest);
      assert cmds[1].Barrier?;
      assert Dispatches([cmds[0], cmds[1]]) == [cmds[0]] by {
        assert [cmds[0], cmds[1]][1..] == [cmds[1]];
        assert [cmds[1]][1..] == [];
      }
      assert BarrierCount([cmds[0], cmds[1]]) == 1 by {
        assert [cmds[0], cmds[1]][1..] == [cmds[1]];
        assert [cmds[1]][1..] == [];
      }
      forall k | 0 <= k <= |cmds| / 2 ensures Dispatches(cmds)[k] == cmds[2 * k] {
        if k > 0 {
          assert Dispatches(cmds)[k] == Dispatches(rest)[k - 1];
          assert rest[2 * (k - 1)] == cmds[2 * k];
        }
      }
    }
  }
}
