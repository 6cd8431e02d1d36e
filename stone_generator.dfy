/**
 * The placeholder generator of the chunked world (`MapGenerator`): every
 * block of a generated chunk is stone. Block positions are left at the
 * origin rather than made absolute.
 */
module StoneGenerator {
  import opened Common
  import opened Chunks

  /** `generateBlock`: a stone block at the given position. */
  function GenerateBlock(p: BlockPos): (b: Block)
    ensures b.pos == p && b.blockType == "stone"
  {
    Block(p, "stone")
  }

  /** `generateChunk`: a SIZE × SIZE × HEIGHT chunk of stone at `pos`. */
  function GenerateChunk(pos: ChunkPos): (c: Chunk<Block>)
    ensures c.pos == pos
    ensures |c.blocks| == ChunkSize
    ensures forall x :: 0 <= x < ChunkSize ==> |c.blocks[x]| == ChunkSize
    ensures forall x, y :: 0 <= x < ChunkSize && 0 <= y < ChunkSize ==> |c.blocks[x][y]| == ChunkHeight
    ensures forall x, y, z :: 0 <= x < ChunkSize && 0 <= y < ChunkSize && 0 <= z < ChunkHeight ==>
      c.blocks[x][y][z] == Block(BlockPos(0, 0, 0), "stone")
  {
    var column := seq(ChunkHeight, _ => GenerateBlock(BlockPos(0, 0, 0)));
    Chunk(pos, seq(ChunkSize, _ => seq(ChunkSize, _ => column)))
  }
}
