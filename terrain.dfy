/**
 * Terrain columns of the data-tree generator (`Generator3D`). The ground
 * height of a column is `⌊maxGroundHeight × noise⌋`; the noise is outside
 * this model, so the height is an integer input. The height constants
 * evaluate to `maxGroundHeight = 3/4 × 16 = 12`, `seaLevel = 1/3 × 12 = 4`
 * and `mountLevel = 5/6 × 12 = 10`. A block of this tree is just its type
 * name, so a column is a sequence of type names, index 0 at the bottom.
 */
module Terrain {
  import opened Common
  import opened Chunks

  const MaxGroundHeight: int := 12
  const SeaLevel: int := 4
  const MountLevel: int := 10

  /** The number of dirt blocks under the grass of a land column. */
  function DirtDepth(h: int): nat
  {
    if h > SeaLevel + 2 then 2 else 1
  }

  /** The column `generateZAxis` builds for ground height `h`, layer by layer. */
  function Column(h: int): seq<string>
  {
    if h < SeaLevel then
      var stones := Max(0, h);
      Repeat("stone", stones) + ["sand"] + Repeat("water", SeaLevel - stones)
        + Repeat("air", ChunkHeight - SeaLevel - 1)
    else if h == SeaLevel then
      Repeat("stone", h) + ["sand"] + Repeat("air", ChunkHeight - h - 1)
    else if h < MountLevel then
      Repeat("stone", h) + Repeat("dirt", DirtDepth(h)) + ["grass"]
        + Repeat("air", ChunkHeight - h - DirtDepth(h) - 1)
    else
      []
  }

  /**
   * The column's content, index by index: an ocean column has stone up to the
   * ground, one sand, water up to and including the sea level and air above;
   * a sea-level column has stone, sand at the sea level and air; a land
   * column has stone up to the ground, one or two dirt, grass and air. Each
   * of these has exactly `HEIGHT` blocks.
   */
  lemma ColumnLayers(h: int, i: int)
    requires 0 <= i < ChunkHeight
    requires h < MountLevel
    ensures |Column(h)| == ChunkHeight
    ensures h < SeaLevel ==> (Column(h)[i] ==
      if i < h then "stone" else if i == Max(0, h) then "sand" else if i <= SeaLevel then "water" else "air")
    ensures h == SeaLevel ==> (Column(h)[i] ==
      if i < SeaLevel then "stone" else if i == SeaLevel then "sand" else "air")
    ensures SeaLevel < h ==> (Column(h)[i] ==
      if i < h then "stone" else if i < h + DirtDepth(h) then "dirt" else if i == h + DirtDepth(h) then "grass" else "air")
  {
    var c := Column(h);
    if h < SeaLevel {
      var s := Max(0, h);
      var a := Repeat("stone", s);
      var b := a + ["sand"];
      var w := b + Repeat("water", SeaLevel - s);
      assert c == w + Repeat("air", ChunkHeight - SeaLevel - 1);
      if i < s {
        assert c[i] == w[i] == b[i] == a[i];
      } else if i == s {
        assert c[i] == w[i] == b[i];
      } else if i <= SeaLevel {
        assert c[i] == w[i];
      }
    } else if h == SeaLevel {
      var b := Repeat("stone", h) + ["sand"];
      assert c == b + Repeat("air", ChunkHeight - h - 1);
      if i <= SeaLevel {
        assert c[i] == b[i];
      }
    } else {
      var a := Repeat("stone", h);
      var d := a + Repeat("dirt", DirtDepth(h));
      var g := d + ["grass"];
      assert c == g + Repeat("air", ChunkHeight - h - DirtDepth(h) - 1);
      if i < h {
        assert c[i] == g[i] == d[i] == a[i];
      } else if i < h + DirtDepth(h) {
        assert c[i] == g[i] == d[i];
      } else if i == h + DirtDepth(h) {
        assert c[i] == g[i];
      }
    }
  }

  /**
   * The mountain layering is nested inside the `h < mountLevel` guard, so for
   * a ground height at or above the mountain level no block is pushed.
   */
  lemma MountainColumnEmpty(h: int)
    requires h >= MountLevel
    ensures Column(h) == []
  {
  }

  /**
   * The column with the mountain branch reachable: below the mountain level
   * the column as written, at or above it the mountain branch's pushes, one
   * dirt under the grass and the snow. The layering comment asks for two
   * dirt blocks there; this follows the branch's code, not the comment.
   */
  function ColumnIntended(h: int): seq<string>
  {
    if h < MountLevel then Column(h)
    else Repeat("stone", h) + ["dirt", "grass", "snow"] + Repeat("air", Max(0, ChunkHeight - h - 3))
  }

  /**
   * With the mountain branch reachable, every column up to the maximum
   * ground height has exactly `HEIGHT` blocks, and a mountain column holds
   * stone, one dirt, grass and then snow at height `h + 2`.
   */
  lemma ColumnIntendedLayers(h: int)
    requires h <= MaxGroundHeight
    ensures |ColumnIntended(h)| == ChunkHeight
    ensures h >= MountLevel ==>
      (forall i :: 0 <= i < h ==> ColumnIntended(h)[i] == "stone")
      && ColumnIntended(h)[h] == "dirt" && ColumnIntended(h)[h + 1] == "grass" && ColumnIntended(h)[h + 2] == "snow"
  {
    if h < MountLevel {
      ColumnLayers(h, 0);
    } else {
      var a := Repeat("stone", h);
      var t := a + ["dirt", "grass", "snow"];
      assert ColumnIntended(h) == t + Repeat("air", ChunkHeight - h - 3);
      forall i | 0 <= i < h
        ensures ColumnIntended(h)[i] == "stone"
      {
        assert ColumnIntended(h)[i] == t[i] == a[i];
      }
      assert ColumnIntended(h)[h + 2] == t[h + 2];
    }
  }

  /** At the mountain level the column as written is empty where the layering gives a full column. */
  lemma MountainBranchDead()
    ensures Column(MountLevel) == []
    ensures |ColumnIntended(MountLevel)| == ChunkHeight && ColumnIntended(MountLevel)[MountLevel + 2] == "snow"
  {
    ColumnIntendedLayers(MountLevel);
  }

  /** `generateZAxis` for a column of ground height `groundHeight`, pushing block by block. */
  method GenerateZAxis(groundHeight: int) returns (blocks: seq<string>)
    ensures blocks == Column(groundHeight)
  {
    blocks := [];
    // Ocean
    if groundHeight < SeaLevel {
      while |blocks| < groundHeight
        invariant |blocks| <= Max(0, groundHeight)
        invariant blocks == Repeat("stone", |blocks|)
      {
        blocks := blocks + ["stone"];
      }
      blocks := blocks + ["sand"];
      ghost var ground := blocks;
      while |blocks| <= SeaLevel
        invariant |ground| <= |blocks| <= SeaLevel + 1
        invariant blocks == ground + Repeat("water", |blocks| - |ground|)
      {
        blocks := blocks + ["water"];
      }
      ghost var sea := blocks;
      while |blocks| < ChunkHeight
        invariant |sea| <= |blocks| <= ChunkHeight
        invariant blocks == sea + Repeat("air", |blocks| - |sea|)
      {
        blocks := blocks + ["air"];
      }
    }
    // Sea level
    if groundHeight == SeaLevel {
      while |blocks| < groundHeight
        invariant |blocks| <= groundHeight
        invariant blocks == Repeat("stone", |blocks|)
      {
        blocks := blocks + ["stone"];
      }
      blocks := blocks + ["sand"];
      ghost var ground := blocks;
      while |blocks| < ChunkHeight
        invariant |ground| <= |blocks| <= ChunkHeight
        invariant blocks == ground + Repeat("air", |blocks| - |ground|)
      {
        blocks := blocks + ["air"];
      }
    }
    // Above sea level and below the mountain level
    if groundHeight > SeaLevel && groundHeight < MountLevel {
      if groundHeight < MountLevel {
        while |blocks| < groundHeight
          invariant |blocks| <= groundHeight
          invariant blocks == Repeat("stone", |blocks|)
        {
          blocks := blocks + ["stone"];
        }
        ghost var ground := blocks;
        for i := 0 to (if groundHeight > SeaLevel + 2 then 2 else 1)
          invariant blocks == ground + Repeat("dirt", i)
        {
          blocks := blocks + ["dirt"];
        }
        blocks := blocks + ["grass"];
        ghost var top := blocks;
        while |blocks| < ChunkHeight
          invariant |top| <= |blocks| <= ChunkHeight
          invariant blocks == top + Repeat("air", |blocks| - |top|)
        {
          blocks := blocks + ["air"];
        }
      }
      // Mountain level: `dirt`, `grass`, `snow` over the stones, but this
      // test sits inside the `groundHeight < mountLevel` guard.
      if groundHeight >= MountLevel {
        assert false;
      }
    }
  }

  /**
   * `generateChunk`: a SIZE × SIZE grid of columns at `pos`; the column at
   * relative `(x, y)` is the one for the ground height at the absolute
   * position `relativeToAbsolutePosition({x, y, z: 0})`. `height` stands for
   * `⌊maxGroundHeight × noise2d(x, y)⌋`.
   */
  function GenerateChunk(pos: ChunkPos, height: (int, int) -> int): (c: Chunk<string>)
    ensures c.pos == pos
    ensures |c.blocks| == ChunkSize
    ensures forall x :: 0 <= x < ChunkSize ==> |c.blocks[x]| == ChunkSize
  {
    Chunk(pos, seq(ChunkSize, x => seq(ChunkSize, y =>
      Column(height(x + pos.x * ChunkSize, y + pos.y * ChunkSize)))))
  }

  /** Column `(x, y)` of the generated chunk is the column for the height at its absolute position, which lies in the chunk. */
  lemma GenerateChunkColumns(pos: ChunkPos, height: (int, int) -> int)
    ensures forall x, y :: 0 <= x < ChunkSize && 0 <= y < ChunkSize ==>
      var c := GenerateChunk(pos, height);
      var p := RelativeToAbsolute(c, BlockPos(x, y, 0));
      ChunkOf(p) == pos && c.blocks[x][y] == Column(height(p.x, p.y))
  {
    var c := GenerateChunk(pos, height);
    forall x, y | 0 <= x < ChunkSize && 0 <= y < ChunkSize
      ensures var p := RelativeToAbsolute(c, BlockPos(x, y, 0));
        ChunkOf(p) == pos && c.blocks[x][y] == Column(height(p.x, p.y))
    {
      var p := RelativeToAbsolute(c, BlockPos(x, y, 0));
      assert p.x == x + pos.x * ChunkSize && p.y == y + pos.y * ChunkSize;
      assert c.blocks[x][y] == Column(height(x + pos.x * ChunkSize, y + pos.y * ChunkSize));
    }
  }

  /** Where every ground height is below the mountain level, the chunk is SIZE × SIZE × HEIGHT. */
  lemma GenerateChunkFull(pos: ChunkPos, height: (int, int) -> int)
    requires forall x, y :: height(x, y) < MountLevel
    ensures forall x, y :: 0 <= x < ChunkSize && 0 <= y < ChunkSize ==>
      |GenerateChunk(pos, height).blocks[x][y]| == ChunkHeight
  {
    forall x, y | 0 <= x < ChunkSize && 0 <= y < ChunkSize
      ensures |GenerateChunk(pos, height).blocks[x][y]| == ChunkHeight
    {
      GenerateChunkColumns(pos, height);
      var p := RelativeToAbsolute(GenerateChunk(pos, height), BlockPos(x, y, 0));
      ColumnLayers(height(p.x, p.y), 0);
    }
  }
}
