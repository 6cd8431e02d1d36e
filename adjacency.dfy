/**
 * Neighbour positions of a block (`getPlaneAdjacent`, `getSpaceAdjacent`) and
 * the blocks found there (`getPlaneAdjacentBlocks`, `getSpaceAdjacentBlocks`).
 * A dimension, as the BUD handlers see it, is a total map from a block
 * position to its block type.
 */
module Adjacency {
  import opened Common
  import MapUtils

  /** The block types of one dimension: every position holds some block type. */
  type Grid = g: imap<BlockPos, string> | forall p: BlockPos :: p in g
    ghost witness imap p: BlockPos :: "air"

  /** A block position as a distance point, with its z present. */
  function AsPoint(p: BlockPos): MapUtils.Point
  {
    MapUtils.Point(p.x, p.y, Some(p.z))
  }

  /** `getPlaneAdjacent`: the four horizontal neighbours, in the order −x, +x, −y, +y. */
  function PlaneAdjacent(p: BlockPos): (ns: seq<BlockPos>)
    ensures |ns| == 4
    ensures forall q :: q in ns ==> q.z == p.z
  {
    [BlockPos(p.x - 1, p.y, p.z), BlockPos(p.x + 1, p.y, p.z),
     BlockPos(p.x, p.y - 1, p.z), BlockPos(p.x, p.y + 1, p.z)]
  }

  /** A position is a plane neighbour exactly when it is one horizontal step away at the same height. */
  lemma PlaneAdjacentCharacterized(p: BlockPos, q: BlockPos)
    ensures q in PlaneAdjacent(p) <==> q.z == p.z && MapUtils.ManhattanDistance(AsPoint(p), AsPoint(q)) == 1
  {
  }

  /** The four plane neighbours are pairwise distinct and none is the position itself. */
  lemma PlaneAdjacentDistinct(p: BlockPos)
    ensures forall i, j :: 0 <= i < j < 4 ==> PlaneAdjacent(p)[i] != PlaneAdjacent(p)[j]
    ensures p !in PlaneAdjacent(p)
  {
  }

  /**
   * `getSpaceAdjacent`: the plane four, then the block below if `z > 0`, then
   * the block above if `z < HEIGHT - 1`.
   */
  function SpaceAdjacent(p: BlockPos): (ns: seq<BlockPos>)
    ensures 4 <= |ns| <= 6
    ensures ns[..4] == PlaneAdjacent(p)
  {
    PlaneAdjacent(p)
      + (if p.z > 0 then [BlockPos(p.x, p.y, p.z - 1)] else [])
      + (if p.z < ChunkHeight - 1 then [BlockPos(p.x, p.y, p.z + 1)] else [])
  }

  /**
   * The vertical neighbours are present exactly when they stay in the chunk
   * height, so from an in-range position every neighbour is in range; every
   * space neighbour is one step away.
   */
  lemma SpaceAdjacentInRange(p: BlockPos)
    ensures BlockPos(p.x, p.y, p.z - 1) in SpaceAdjacent(p) <==> p.z > 0
    ensures BlockPos(p.x, p.y, p.z + 1) in SpaceAdjacent(p) <==> p.z < ChunkHeight - 1
    ensures 0 <= p.z < ChunkHeight ==> forall q :: q in SpaceAdjacent(p) ==> 0 <= q.z < ChunkHeight
    ensures forall q :: q in SpaceAdjacent(p) ==> MapUtils.ManhattanDistance(AsPoint(p), AsPoint(q)) == 1
    ensures 0 < p.z < ChunkHeight - 1 ==> |SpaceAdjacent(p)| == 6
  {
    var below, above := BlockPos(p.x, p.y, p.z - 1), BlockPos(p.x, p.y, p.z + 1);
    var lo := if p.z > 0 then [below] else [];
    var hi := if p.z < ChunkHeight - 1 then [above] else [];
    var ns := SpaceAdjacent(p);
    assert ns == PlaneAdjacent(p) + lo + hi;
    assert below !in PlaneAdjacent(p) && above !in PlaneAdjacent(p);
    forall q | q in ns
      ensures MapUtils.ManhattanDistance(AsPoint(p), AsPoint(q)) == 1
      ensures 0 <= p.z < ChunkHeight ==> 0 <= q.z < ChunkHeight
    {
      if q in PlaneAdjacent(p) {
        PlaneAdjacentCharacterized(p, q);
      } else if q in lo {
        assert q == below;
      } else {
        assert q == above;
      }
    }
  }

  /** The block type at each position, in the same order (`dimension.getBlock` over the list). */
  function BlocksAt(g: Grid, ps: seq<BlockPos>): (bs: seq<string>)
    ensures |bs| == |ps|
    ensures forall i :: 0 <= i < |ps| ==> bs[i] == g[ps[i]]
  {
    seq(|ps|, i requires 0 <= i < |ps| => g[ps[i]])
  }

  /** `getPlaneAdjacentBlocks`. */
  function PlaneAdjacentBlocks(g: Grid, p: BlockPos): (bs: seq<string>)
    ensures |bs| == 4
    ensures forall i :: 0 <= i < 4 ==> bs[i] == g[PlaneAdjacent(p)[i]]
  {
    BlocksAt(g, PlaneAdjacent(p))
  }

  /** `getSpaceAdjacentBlocks`. */
  function SpaceAdjacentBlocks(g: Grid, p: BlockPos): (bs: seq<string>)
    ensures |bs| == |SpaceAdjacent(p)|
    ensures forall i :: 0 <= i < |bs| ==> bs[i] == g[SpaceAdjacent(p)[i]]
    ensures bs[..4] == PlaneAdjacentBlocks(g, p)
  {
    BlocksAt(g, SpaceAdjacent(p))
  }
}
