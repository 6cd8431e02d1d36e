/**
 * Chunk-relative coordinates (`Chunk.absoluteToRelativePosition`,
 * `Chunk.relativeToAbsolutePosition`). The code of src/map/chunk.ts and
 * src/data/map/chunk.ts is the same; this module models both. A chunk is
 * generic in what its block columns hold (`Block` objects with a position in
 * src/map, bare block types in src/data/map).
 */
module Chunks {
  import opened Common

  /** The position of a chunk: the chunk grid is the block grid divided by 16 on x and y. */
  datatype ChunkPos = ChunkPos(x: int, y: int)

  /** A chunk: its position and its blocks indexed `[x][y][z]`. */
  datatype Chunk<B> = Chunk(pos: ChunkPos, blocks: seq<seq<seq<B>>>)

  /**
   * One coordinate of `absoluteToRelativePosition`: the truncating remainder,
   * shifted by SIZE when the input is negative, with 16 folded back to 0.
   */
  function RelativeCoord(v: int): (r: int)
    ensures 0 <= r < ChunkSize
    ensures r == v % ChunkSize
  {
    var m := if v < 0 then JsRem(v, ChunkSize) + ChunkSize else JsRem(v, ChunkSize);
    if m == 16 then 0 else m
  }

  /** `absoluteToRelativePosition`; it does not read the chunk's own position. */
  function AbsoluteToRelative<B>(chunk: Chunk<B>, p: BlockPos): (r: BlockPos)
    ensures 0 <= r.x < ChunkSize && 0 <= r.y < ChunkSize
    ensures r.x == p.x % ChunkSize && r.y == p.y % ChunkSize
    ensures r.z == p.z
  {
    BlockPos(RelativeCoord(p.x), RelativeCoord(p.y), p.z)
  }

  /** `relativeToAbsolutePosition`: shift x and y by the chunk's origin. */
  function RelativeToAbsolute<B>(chunk: Chunk<B>, r: BlockPos): (p: BlockPos)
    ensures p.z == r.z
    ensures 0 <= r.x < ChunkSize && 0 <= r.y < ChunkSize ==> ChunkOf(p) == chunk.pos
  {
    BlockPos(r.x + chunk.pos.x * ChunkSize, r.y + chunk.pos.y * ChunkSize, r.z)
  }

  /**
   * The chunk holding a block (`Math.floor(pos / Chunk.SIZE)` in
   * `Dimension.getChunkFromBlockPos`); Dafny's `/` by a positive divisor floors.
   */
  function ChunkOf(p: BlockPos): (c: ChunkPos)
    ensures c.x * ChunkSize <= p.x < c.x * ChunkSize + ChunkSize
    ensures c.y * ChunkSize <= p.y < c.y * ChunkSize + ChunkSize
  {
    ChunkPos(p.x / ChunkSize, p.y / ChunkSize)
  }

  /** The conversion to relative coordinates is the same for every chunk. */
  lemma AbsoluteToRelativeIgnoresChunk<B>(c1: Chunk<B>, c2: Chunk<B>, p: BlockPos)
    ensures AbsoluteToRelative(c1, p) == AbsoluteToRelative(c2, p)
  {
  }

  /** Relative then absolute, in the chunk that holds the position, is the identity. */
  lemma AbsoluteRelativeRoundTrip<B>(chunk: Chunk<B>, p: BlockPos)
    requires chunk.pos == ChunkOf(p)
    ensures RelativeToAbsolute(chunk, AbsoluteToRelative(chunk, p)) == p
  {
  }

  /** Absolute then relative gives back any in-chunk relative position. */
  lemma RelativeAbsoluteRoundTrip<B>(chunk: Chunk<B>, r: BlockPos)
    requires 0 <= r.x < ChunkSize && 0 <= r.y < ChunkSize
    ensures AbsoluteToRelative(chunk, RelativeToAbsolute(chunk, r)) == r
  {
    var p := RelativeToAbsolute(chunk, r);
    assert ChunkOf(p) == chunk.pos;
  }

  /** The worked examples of the chunk tests. */
  lemma ConversionExamples(c: Chunk<int>)
    ensures AbsoluteToRelative(c, BlockPos(3, 16, 3)) == BlockPos(3, 0, 3)
    ensures AbsoluteToRelative(c, BlockPos(-32, -1, 3)) == BlockPos(0, 15, 3)
    ensures RelativeToAbsolute(c.(pos := ChunkPos(1, 1)), BlockPos(3, 0, 3)) == BlockPos(19, 16, 3)
    ensures RelativeToAbsolute(c.(pos := ChunkPos(-2, -1)), BlockPos(0, 15, 3)) == BlockPos(-32, -1, 3)
  {
  }
}
