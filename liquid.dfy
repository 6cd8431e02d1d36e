/**
 * The `NORMAL` BUD handler (`NormalUpdate`, delegating to `Liquid.flow` in
 * src/data/bud/normal.ts and to the identical `Water.flow` in
 * src/bud/normal.ts): a block with at least two water blocks among its four
 * plane neighbours becomes water, and every plane neighbour that is air is
 * queued for its own update one tick later. These functions state what one
 * flow does to a dimension and which requests it queues; the queuing itself
 * goes through each detector's `add`.
 */
module Liquid {
  import opened Common
  import opened Adjacency
  import opened BudTypes

  /** The number of `"water"` entries (`filter(...).length`). */
  function WaterCount(bs: seq<string>): (n: nat)
    ensures n <= |bs|
  {
    if bs == [] then 0
    else WaterCount(bs[..|bs| - 1]) + (if bs[|bs| - 1] == "water" then 1 else 0)
  }

  /** Whether the block at `p` turns to water: at least two plane neighbours are water. */
  predicate Flows(g: Grid, p: BlockPos)
  {
    WaterCount(PlaneAdjacentBlocks(g, p)) >= 2
  }

  /** The dimension after the flow at `p`. */
  function FlowGrid(g: Grid, p: BlockPos): (r: Grid)
    ensures forall q :: q != p ==> r[q] == g[q]
    ensures r[p] == if Flows(g, p) then "water" else g[p]
  {
    if Flows(g, p) then g[p := "water"] else g
  }

  /** The requests queued for the neighbours of `p` among `ns` that are air in `g`, in order. */
  function AirTargets(g: Grid, dim: DimId, ns: seq<BlockPos>): seq<BudData>
  {
    if ns == [] then []
    else
      var q := ns[|ns| - 1];
      AirTargets(g, dim, ns[..|ns| - 1]) + (if g[q] == "air" then [BudData(dim, q, Normal, Some(1))] else [])
  }

  /** One more neighbour scanned: its request is added when it holds air. */
  lemma AirTargetsStep(g: Grid, dim: DimId, ns: seq<BlockPos>, i: int)
    requires 0 <= i < |ns|
    ensures AirTargets(g, dim, ns[..i + 1])
      == AirTargets(g, dim, ns[..i]) + (if g[ns[i]] == "air" then [BudData(dim, ns[i], Normal, Some(1))] else [])
  {
    assert ns[..i + 1][..i] == ns[..i];
  }

  /** The requests the flow of `d` queues: none when it does not flow. */
  function FlowTargets(g: Grid, d: BudData): seq<BudData>
  {
    if Flows(g, d.pos) then AirTargets(FlowGrid(g, d.pos), d.dimension, PlaneAdjacent(d.pos)) else []
  }

  /** A request is among those queued for `ns` exactly when it is a `NORMAL`, one-tick request at an air neighbour of `ns`. */
  lemma {:induction false} AirTargetsMember(g: Grid, dim: DimId, ns: seq<BlockPos>, r: BudData)
    ensures r in AirTargets(g, dim, ns) <==>
      r.pos in ns && g[r.pos] == "air" && r == BudData(dim, r.pos, Normal, Some(1))
  {
    if ns != [] {
      var n := |ns| - 1;
      AirTargetsMember(g, dim, ns[..n], r);
      assert ns == ns[..n] + [ns[n]];
    }
  }

  /**
   * The flow of `d` queues exactly one `NORMAL` request with delay 1 for each
   * plane neighbour that is air, and nothing when fewer than two neighbours
   * are water. The flowing block itself is never queued.
   */
  lemma FlowTargetsCharacterized(g: Grid, d: BudData, r: BudData)
    ensures r in FlowTargets(g, d) <==>
      Flows(g, d.pos) && r.pos in PlaneAdjacent(d.pos) && g[r.pos] == "air"
      && r == BudData(d.dimension, r.pos, Normal, Some(1))
    ensures r in FlowTargets(g, d) ==> r.pos != d.pos
  {
    PlaneAdjacentDistinct(d.pos);
    if Flows(g, d.pos) {
      AirTargetsMember(FlowGrid(g, d.pos), d.dimension, PlaneAdjacent(d.pos), r);
    }
  }

  /** The world after `dimension.setBlock(p, new Block(b))` in dimension `dim`. */
  function WithBlock(w: World, dim: DimId, p: BlockPos, b: string): (r: World)
    ensures forall other :: other != dim ==> r(other) == w(other)
    ensures r(dim) == w(dim)[p := b]
  {
    other => if other == dim then w(dim)[p := b] else w(other)
  }

  /** The handler's effect on the world: only the flowing position of the request's dimension can change. */
  function HandleWorld(w: World, d: BudData): (r: World)
    ensures forall dim :: dim != d.dimension ==> r(dim) == w(dim)
    ensures forall q :: q != d.pos ==> r(d.dimension)[q] == w(d.dimension)[q]
    ensures r(d.dimension)[d.pos] == if Flows(w(d.dimension), d.pos) then "water" else w(d.dimension)[d.pos]
    ensures r(d.dimension) == FlowGrid(w(d.dimension), d.pos)
  {
    if Flows(w(d.dimension), d.pos) then WithBlock(w, d.dimension, d.pos, "water") else w
  }

  lemma WaterCountExample(a: string, b: string, c: string, e: string)
    ensures WaterCount([a, b, c, e]) ==
      (if a == "water" then 1 else 0) + (if b == "water" then 1 else 0)
      + (if c == "water" then 1 else 0) + (if e == "water" then 1 else 0)
  {
    assert [a][..0] == [];
    assert WaterCount([a]) == (if a == "water" then 1 else 0);
    assert [a, b][..1] == [a];
    assert WaterCount([a, b]) == WaterCount([a]) + (if b == "water" then 1 else 0);
    assert [a, b, c][..2] == [a, b];
    assert WaterCount([a, b, c]) == WaterCount([a, b]) + (if c == "water" then 1 else 0);
    assert [a, b, c, e][..3] == [a, b, c];
  }

  /** The request queued for one neighbour `q`, if it is air. */
  function TargetAt(g: Grid, dim: DimId, q: BlockPos): seq<BudData>
  {
    if g[q] == "air" then [BudData(dim, q, Normal, Some(1))] else []
  }

  lemma AirTargetsOfFour(g: Grid, dim: DimId, a: BlockPos, b: BlockPos, c: BlockPos, e: BlockPos)
    ensures AirTargets(g, dim, [a, b, c, e])
      == TargetAt(g, dim, a) + TargetAt(g, dim, b) + TargetAt(g, dim, c) + TargetAt(g, dim, e)
  {
    assert [a][..0] == [];
    assert AirTargets(g, dim, [a]) == [] + TargetAt(g, dim, a) == TargetAt(g, dim, a);
    assert [a, b][..1] == [a];
    assert AirTargets(g, dim, [a, b]) == TargetAt(g, dim, a) + TargetAt(g, dim, b);
    assert [a, b, c][..2] == [a, b];
    assert AirTargets(g, dim, [a, b, c]) == TargetAt(g, dim, a) + TargetAt(g, dim, b) + TargetAt(g, dim, c);
    assert [a, b, c, e][..3] == [a, b, c];
  }

  /** Two water neighbours make the block water and queue its air neighbours. */
  lemma FlowExample(g: Grid, p: BlockPos)
    requires g[BlockPos(p.x - 1, p.y, p.z)] == "water" && g[BlockPos(p.x + 1, p.y, p.z)] == "water"
    requires g[BlockPos(p.x, p.y - 1, p.z)] == "air" && g[BlockPos(p.x, p.y + 1, p.z)] == "stone"
    ensures Flows(g, p) && FlowGrid(g, p)[p] == "water"
    ensures FlowTargets(g, BudData("overworld", p, Normal, None))
      == [BudData("overworld", BlockPos(p.x, p.y - 1, p.z), Normal, Some(1))]
  {
    var bs := PlaneAdjacentBlocks(g, p);
    assert bs == ["water", "water", "air", "stone"];
    WaterCountExample("water", "water", "air", "stone");
    var ns := PlaneAdjacent(p);
    var f := FlowGrid(g, p);
    PlaneAdjacentDistinct(p);
    assert f[ns[0]] == "water" && f[ns[1]] == "water" && f[ns[2]] == "air" && f[ns[3]] == "stone";
    AirTargetsOfFour(f, "overworld", ns[0], ns[1], ns[2], ns[3]);
    assert ns == [ns[0], ns[1], ns[2], ns[3]];
  }

  /** One water neighbour is not enough: nothing flows and nothing is queued. */
  lemma NoFlowExample(g: Grid, p: BlockPos)
    requires g[BlockPos(p.x - 1, p.y, p.z)] == "water" && g[BlockPos(p.x + 1, p.y, p.z)] == "air"
    requires g[BlockPos(p.x, p.y - 1, p.z)] == "air" && g[BlockPos(p.x, p.y + 1, p.z)] == "stone"
    ensures !Flows(g, p) && FlowGrid(g, p) == g
    ensures FlowTargets(g, BudData("overworld", p, Normal, None)) == []
  {
    var bs := PlaneAdjacentBlocks(g, p);
    assert bs == ["water", "air", "air", "stone"];
    WaterCountExample("water", "air", "air", "stone");
  }
}
