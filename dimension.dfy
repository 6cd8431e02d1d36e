/**
 * A dimension of the chunked world (`Dimension`): a dictionary from chunk
 * position to chunk, filled on demand by a generator, with block reads and
 * writes through chunk-relative indices. The dictionary key `"x,y"` is
 * injective on integer pairs, so it is modelled by the chunk position itself.
 */
module Dimensions {
  import opened Common
  import opened Chunks
  import MapUtils

  /** The chunk dictionary. */
  type ChunkMap = map<ChunkPos, Chunk<Block>>

  /** `blocks[r.x][r.y][r.z]`, or `None` where an index falls outside the arrays. */
  function Cell<B>(blocks: seq<seq<seq<B>>>, r: BlockPos): Option<B>
  {
    if 0 <= r.x < |blocks| && 0 <= r.y < |blocks[r.x]| && 0 <= r.z < |blocks[r.x][r.y]|
    then Some(blocks[r.x][r.y][r.z])
    else None
  }

  /**
   * The assignment `blocks[r.x][r.y][r.z] = b` where the indices are in
   * range; out of range the blocks are left unchanged (positions outside the
   * chunk are not modelled).
   */
  function WithCell<B>(blocks: seq<seq<seq<B>>>, r: BlockPos, b: B): (res: seq<seq<seq<B>>>)
    ensures Cell(blocks, r).Some? ==> Cell(res, r) == Some(b)
    ensures forall q :: q != r ==> Cell(res, q) == Cell(blocks, q)
  {
    if Cell(blocks, r).Some?
    then blocks[r.x := blocks[r.x][r.y := blocks[r.x][r.y][r.z := b]]]
    else blocks
  }

  /** The block `getBlock` reads at `p` from the chunks present, without generating. */
  function BlockAt(m: ChunkMap, p: BlockPos): Option<Block>
  {
    var cp := ChunkOf(p);
    if cp in m then Cell(m[cp].blocks, AbsoluteToRelative(m[cp], p)) else None
  }

  /** The chunk map after `setBlock` writes `b` at `p` into the chunks present. */
  function PutBlock(m: ChunkMap, p: BlockPos, b: Block): (res: ChunkMap)
    ensures res.Keys == m.Keys
  {
    var cp := ChunkOf(p);
    if cp in m then m[cp := m[cp].(blocks := WithCell(m[cp].blocks, AbsoluteToRelative(m[cp], p), b))]
    else m
  }

  /** Two positions with the same chunk and the same chunk-relative position are the same. */
  lemma RelativeInjective(c: Chunk<Block>, p: BlockPos, q: BlockPos)
    requires ChunkOf(p) == ChunkOf(q)
    requires AbsoluteToRelative(c, p) == AbsoluteToRelative(c, q)
    ensures p == q
  {
    assert p.x == ChunkOf(p).x * ChunkSize + p.x % ChunkSize;
    assert q.x == ChunkOf(q).x * ChunkSize + q.x % ChunkSize;
    assert p.y == ChunkOf(p).y * ChunkSize + p.y % ChunkSize;
    assert q.y == ChunkOf(q).y * ChunkSize + q.y % ChunkSize;
  }

  /**
   * Reading after a write: the written position reads back the new block
   * (when it was readable), and every other position reads as before.
   */
  lemma {:induction false} ReadOverWrite(m: ChunkMap, p: BlockPos, b: Block, q: BlockPos)
    ensures BlockAt(PutBlock(m, p, b), q) ==
      (if q == p && BlockAt(m, p).Some? then Some(b) else BlockAt(m, q))
  {
    var cp := ChunkOf(p);
    if cp in m && ChunkOf(q) == cp && q != p {
      var c := m[cp];
      if AbsoluteToRelative(c, q) == AbsoluteToRelative(c, p) {
        RelativeInjective(c, p, q);
      }
    }
  }

  /** `generate2DArray(...).flat()`: the rows concatenated in order. */
  function Flatten<T>(rows: seq<seq<T>>): seq<T>
  {
    if rows == [] then [] else Flatten(rows[..|rows| - 1]) + rows[|rows| - 1]
  }

  /** An element is in the flattened rows exactly when it sits at some row and column. */
  lemma {:induction false} FlattenMember<T>(rows: seq<seq<T>>, v: T)
    ensures v in Flatten(rows) <==> exists i, j :: 0 <= i < |rows| && 0 <= j < |rows[i]| && rows[i][j] == v
  {
    if rows != [] {
      var n := |rows| - 1;
      FlattenMember(rows[..n], v);
      if v in rows[n] {
        var j :| 0 <= j < |rows[n]| && rows[n][j] == v;
        assert rows[n][j] == v;
      }
      if exists i, j :: 0 <= i < |rows| && 0 <= j < |rows[i]| && rows[i][j] == v {
        var i, j :| 0 <= i < |rows| && 0 <= j < |rows[i]| && rows[i][j] == v;
        if i < n {
          assert rows[..n][i][j] == v;
        }
      }
    }
  }

  /**
   * The chunk positions `getChunksInRadius` asks for, in order, as written:
   * a grid of `2r + 1 + pos.x` by `2r + 1 + pos.y` cells, cell `(x, y)` asking
   * for chunk `(x − r, y − r)`. The centre only enters the grid's size.
   */
  function RadiusKeysAsWritten(pos: ChunkPos, radius: int): seq<ChunkPos>
  {
    Flatten(MapUtils.Generate2D(radius * 2 + 1 + pos.x, radius * 2 + 1 + pos.y, AsWrittenCell(radius)))
  }

  /** The `generate2DArray` callback of `getChunksInRadius`: cell `(x, y)` asks for chunk `(x − r, y − r)`. */
  function AsWrittenCell(radius: int): (int, int) -> ChunkPos
  {
    (x, y) => ChunkPos(x - radius, y - radius)
  }

  /** The centred callback: cell `(i, j)` asks for chunk `pos + (i − r, j − r)`. */
  function CentredCell(pos: ChunkPos, radius: int): (int, int) -> ChunkPos
  {
    (i, j) => ChunkPos(pos.x + i - radius, pos.y + j - radius)
  }

  /** The chunk positions of a radius query centred on `pos`: cell `(i, j)` asks for `pos + (i − r, j − r)`. */
  function RadiusKeys(pos: ChunkPos, radius: int): seq<ChunkPos>
  {
    Flatten(MapUtils.Generate2D(radius * 2 + 1, radius * 2 + 1, CentredCell(pos, radius)))
  }

  /** A chunk position as a distance point without z. */
  function ChunkPoint(c: ChunkPos): MapUtils.Point
  {
    MapUtils.Point(c.x, c.y, None)
  }

  /** The as-written keys are the chunks with `−r <= x < r + 1 + pos.x` and the same on y. */
  lemma RadiusKeysAsWrittenMember(pos: ChunkPos, radius: int, k: ChunkPos)
    ensures k in RadiusKeysAsWritten(pos, radius) <==>
      -radius <= k.x < radius + 1 + pos.x && -radius <= k.y < radius + 1 + pos.y
  {
    var f := AsWrittenCell(radius);
    var g := MapUtils.Generate2D(radius * 2 + 1 + pos.x, radius * 2 + 1 + pos.y, f);
    FlattenMember(g, k);
    if -radius <= k.x < radius + 1 + pos.x && -radius <= k.y < radius + 1 + pos.y {
      assert g[k.x + radius][k.y + radius] == k;
    }
  }

  /** The centred keys are exactly the chunks within Chebyshev distance `r` of the centre. */
  lemma RadiusKeysMember(pos: ChunkPos, radius: int, k: ChunkPos)
    ensures k in RadiusKeys(pos, radius) <==>
      MapUtils.ChebyshevDistance(ChunkPoint(k), ChunkPoint(pos)) <= radius
  {
    var f := CentredCell(pos, radius);
    var g := MapUtils.Generate2D(radius * 2 + 1, radius * 2 + 1, f);
    FlattenMember(g, k);
    if MapUtils.ChebyshevDistance(ChunkPoint(k), ChunkPoint(pos)) <= radius {
      assert g[k.x - pos.x + radius][k.y - pos.y + radius] == k;
    }
  }

  /** Around the origin the as-written query asks for exactly the centred keys, in the same order. */
  lemma RadiusKeysAtOrigin(radius: int)
    ensures RadiusKeysAsWritten(ChunkPos(0, 0), radius) == RadiusKeys(ChunkPos(0, 0), radius)
  {
    var pos := ChunkPos(0, 0);
    var a := MapUtils.Generate2D(radius * 2 + 1 + pos.x, radius * 2 + 1 + pos.y,
                                 AsWrittenCell(radius));
    var b := MapUtils.Generate2D(radius * 2 + 1, radius * 2 + 1,
                                 CentredCell(pos, radius));
    forall x | 0 <= x < |a|
      ensures a[x] == b[x]
    {
      assert |a[x]| == |b[x]|;
      forall y | 0 <= y < |a[x]|
        ensures a[x][y] == b[x][y]
      {
      }
    }
    assert a == b;
    assert RadiusKeysAsWritten(pos, radius) == Flatten(a);
    assert RadiusKeys(pos, radius) == Flatten(b);
  }

  /**
   * Off the origin the as-written query is not centred: around (1, 0) with
   * radius 0 it asks for two chunks, (0, 0) and (1, 0), instead of (1, 0)
   * alone; around (−3, 0) with radius 1 it asks for none.
   */
  lemma RadiusKeysAsWrittenNotCentred()
    ensures RadiusKeysAsWritten(ChunkPos(1, 0), 0) == [ChunkPos(0, 0), ChunkPos(1, 0)]
    ensures RadiusKeys(ChunkPos(1, 0), 0) == [ChunkPos(1, 0)]
    ensures RadiusKeysAsWritten(ChunkPos(-3, 0), 1) == []
    ensures |RadiusKeys(ChunkPos(-3, 0), 1)| == 9
  {
    AsWrittenAroundOne();
    CentredAroundOne();
    AsWrittenAroundMinusThree();
    FlattenLength(MapUtils.Generate2D(3, 3, CentredCell(ChunkPos(-3, 0), 1)), 3);
  }

  /** The as-written query around (1, 0) with radius 0: a 2 × 1 grid. */
  lemma AsWrittenAroundOne()
    ensures RadiusKeysAsWritten(ChunkPos(1, 0), 0) == [ChunkPos(0, 0), ChunkPos(1, 0)]
  {
    var a := MapUtils.Generate2D(2, 1, AsWrittenCell(0));
    assert RadiusKeysAsWritten(ChunkPos(1, 0), 0) == Flatten(a) by { assert 0 * 2 + 1 + 1 == 2; }
    assert |a| == 2;
    assert a[0] == [ChunkPos(0, 0)] by { assert |a[0]| == 1 && a[0][0] == ChunkPos(0, 0); }
    assert a[1] == [ChunkPos(1, 0)] by { assert |a[1]| == 1 && a[1][0] == ChunkPos(1, 0); }
    assert Flatten(a[..1]) == a[0] by { assert a[..1][..0] == []; }
    assert Flatten(a) == Flatten(a[..1]) + a[1];
  }

  /** The as-written query around (−3, 0) with radius 1: a grid with no rows. */
  lemma AsWrittenAroundMinusThree()
    ensures RadiusKeysAsWritten(ChunkPos(-3, 0), 1) == []
  {
    var a := MapUtils.Generate2D(0, 3, AsWrittenCell(1));
    assert |a| == 0;
    FlattenLength(a, 3);
  }

  /** The centred query around (1, 0) with radius 0: the centre alone. */
  lemma CentredAroundOne()
    ensures RadiusKeys(ChunkPos(1, 0), 0) == [ChunkPos(1, 0)]
  {
    var b := MapUtils.Generate2D(1, 1, CentredCell(ChunkPos(1, 0), 0));
    assert b[0] == [ChunkPos(1, 0)] by { assert |b[0]| == 1 && b[0][0] == ChunkPos(1, 0); }
    assert b == [[ChunkPos(1, 0)]];
    assert Flatten(b) == Flatten(b[..0]) + b[0];
  }

  /** Flattening `n` rows of `n` elements gives `n * n` elements. */
  lemma {:induction false} FlattenLength<T>(rows: seq<seq<T>>, n: nat)
    requires forall i :: 0 <= i < |rows| ==> |rows[i]| == n
    ensures |Flatten(rows)| == |rows| * n
  {
    if rows != [] {
      var m := |rows| - 1;
      forall i | 0 <= i < m
        ensures |rows[..m][i]| == n
      {
        assert rows[..m][i] == rows[i];
      }
      FlattenLength(rows[..m], n);
      assert |Flatten(rows)| == m * n + n;
      assert (m + 1) * n == m * n + n;
    }
  }

  /** The chunks present at the given keys, in key order (the `filter` of nulls). */
  function Present(m: ChunkMap, keys: seq<ChunkPos>): (cs: seq<Chunk<Block>>)
    ensures |cs| <= |keys|
    ensures (forall k :: k in keys ==> k in m) ==> |cs| == |keys|
    ensures forall c :: c in cs ==> exists k :: k in keys && k in m && m[k] == c
  {
    if keys == [] then []
    else
      var k := keys[|keys| - 1];
      Present(m, keys[..|keys| - 1]) + (if k in m then [m[k]] else [])
  }

  /** One more key adds its chunk when it is present. */
  lemma PresentStep(m: ChunkMap, keys: seq<ChunkPos>, i: int)
    requires 0 <= i < |keys|
    ensures Present(m, keys[..i + 1]) == Present(m, keys[..i]) + (if keys[i] in m then [m[keys[i]]] else [])
  {
    assert keys[..i + 1][..i] == keys[..i];
  }

  /** Adding an absent key does not change the chunks present at keys that were all there. */
  lemma {:induction false} PresentAddAbsent(m: ChunkMap, k: ChunkPos, c: Chunk<Block>, keys: seq<ChunkPos>)
    requires k !in m
    requires forall q :: q in keys ==> q in m
    ensures Present(m[k := c], keys) == Present(m, keys)
  {
    if keys != [] {
      PresentAddAbsent(m, k, c, keys[..|keys| - 1]);
    }
  }

  class Dimension {
    /** The dimension's id. */
    const id: string
    /** The chunk dictionary, keyed by chunk position. */
    var chunks: ChunkMap
    /** The generator's `generateChunk`, a function of the chunk position. */
    const generator: ChunkPos -> Chunk<Block>

    /** A dimension with the given id, initial chunks (empty when none are given) and generator. */
    constructor(id: string, chunks: ChunkMap, generator: ChunkPos -> Chunk<Block>)
      ensures this.id == id && this.chunks == chunks && this.generator == generator
    {
      this.id := id;
      this.chunks := chunks;
      this.generator := generator;
    }

    /** `hasChunk`: a chunk is stored under the position. */
    predicate HasChunk(pos: ChunkPos)
      reads this
    {
      pos in chunks
    }

    /** The chunk map after a lookup of `key` that generates on a miss when `generate` is set. */
    function Fetched(m: ChunkMap, key: ChunkPos, generate: bool): (res: ChunkMap)
      ensures key in m ==> res == m
      ensures key !in m && !generate ==> res == m
      ensures key !in m && generate ==> res == m[key := generator(key)]
    {
      if key !in m && generate then m[key := generator(key)] else m
    }

    /** The chunk map after looking up each key in turn, generating misses when `generate` is set. */
    function FetchedAll(m: ChunkMap, keys: seq<ChunkPos>, generate: bool): (res: ChunkMap)
      ensures m.Keys <= res.Keys
      ensures forall k :: k in m ==> res[k] == m[k]
      ensures generate ==> forall k :: k in keys ==> k in res
      ensures !generate ==> res == m
    {
      if keys == [] then m
      else Fetched(FetchedAll(m, keys[..|keys| - 1], generate), keys[|keys| - 1], generate)
    }

    /** Looking up one more key is one more `Fetched`. */
    lemma FetchedAllStep(m: ChunkMap, keys: seq<ChunkPos>, i: int, generate: bool)
      requires 0 <= i < |keys|
      ensures FetchedAll(m, keys[..i + 1], generate) == Fetched(FetchedAll(m, keys[..i], generate), keys[i], generate)
    {
      assert keys[..i + 1][..i] == keys[..i];
    }

    /** `generateChunk`: generate the chunk and store it, replacing any chunk already there. */
    method GenerateChunk(pos: ChunkPos) returns (c: Chunk<Block>)
      modifies this
      ensures c == generator(pos)
      ensures chunks == old(chunks)[pos := c]
      ensures HasChunk(pos)
    {
      c := generator(pos);
      chunks := chunks[pos := c];
    }

    /**
     * `getChunkFromChunkPos`: the stored chunk; on a miss, the generated chunk
     * (now stored) when `generate` is set and `None` otherwise.
     */
    method GetChunkFromChunkPos(pos: ChunkPos, generate: bool) returns (c: Option<Chunk<Block>>)
      modifies this
      ensures chunks == Fetched(old(chunks), pos, generate)
      ensures pos in old(chunks) ==> c == Some(old(chunks)[pos])
      ensures pos !in old(chunks) && generate ==> c == Some(generator(pos)) && HasChunk(pos)
      ensures pos !in old(chunks) && !generate ==> c == None
      ensures c.Some? <==> pos in chunks
      ensures c.Some? ==> c.value == chunks[pos]
    {
      if pos !in chunks && generate {
        var g := GenerateChunk(pos);
        return Some(g);
      }
      if pos in chunks {
        c := Some(chunks[pos]);
      } else {
        c := None;
      }
    }

    /** `getChunkFromBlockPos`: the chunk at `(⌊x/16⌋, ⌊y/16⌋)`; z is ignored. */
    method GetChunkFromBlockPos(p: BlockPos, generate: bool) returns (c: Option<Chunk<Block>>)
      modifies this
      ensures chunks == Fetched(old(chunks), ChunkOf(p), generate)
      ensures c.Some? <==> ChunkOf(p) in chunks
      ensures c.Some? ==> c.value == chunks[ChunkOf(p)]
    {
      c := GetChunkFromChunkPos(ChunkPos(p.x / ChunkSize, p.y / ChunkSize), generate);
    }

    /** `getBlock`: the block at `p` in its chunk, or `None` when the chunk is absent. */
    method GetBlock(p: BlockPos, generate: bool) returns (b: Option<Block>)
      modifies this
      ensures chunks == Fetched(old(chunks), ChunkOf(p), generate)
      ensures b == BlockAt(chunks, p)
    {
      var chunk := GetChunkFromBlockPos(p, generate);
      if chunk.None? {
        return None;
      }
      var r := AbsoluteToRelative(chunk.value, p);
      b := Cell(chunk.value.blocks, r);
    }

    /** `setBlock`: write `b` at `p` in its chunk; nothing is written when the chunk is absent. */
    method SetBlock(p: BlockPos, b: Block, generate: bool)
      modifies this
      ensures chunks == PutBlock(Fetched(old(chunks), ChunkOf(p), generate), p, b)
    {
      var chunk := GetChunkFromBlockPos(p, generate);
      if chunk.None? {
        return;
      }
      var r := AbsoluteToRelative(chunk.value, p);
      chunks := chunks[ChunkOf(p) := chunk.value.(blocks := WithCell(chunk.value.blocks, r, b))];
    }

    /**
     * Fetch the chunk at each key in order and keep those found: the
     * `generate2DArray` callback followed by `flat` and the null `filter`.
     */
    method ChunksAt(keys: seq<ChunkPos>, generate: bool) returns (cs: seq<Chunk<Block>>)
      modifies this
      ensures chunks == FetchedAll(old(chunks), keys, generate)
      ensures cs == Present(chunks, keys)
    {
      cs := [];
      var i := 0;
      while i < |keys|
        invariant 0 <= i <= |keys|
        invariant chunks == FetchedAll(old(chunks), keys[..i], generate)
        invariant cs == Present(chunks, keys[..i])
      {
        var k := keys[i];
        ghost var before := chunks;
        var c := GetChunkFromChunkPos(k, generate);
        FetchedAllStep(old(chunks), keys, i, generate);
        PresentStep(chunks, keys, i);
        if k !in before && generate {
          PresentAddAbsent(before, k, generator(k), keys[..i]);
        }
        if c.Some? {
          cs := cs + [c.value];
        }
        i := i + 1;
      }
      assert keys[..|keys|] == keys;
    }

    /** `getChunksInRadius` as written: the grid is sized by the centre and not shifted by it. */
    method GetChunksInRadius(pos: ChunkPos, radius: int, generate: bool) returns (cs: seq<Chunk<Block>>)
      modifies this
      ensures chunks == FetchedAll(old(chunks), RadiusKeysAsWritten(pos, radius), generate)
      ensures cs == Present(chunks, RadiusKeysAsWritten(pos, radius))
    {
      cs := ChunksAt(RadiusKeysAsWritten(pos, radius), generate);
    }

    /** The centred radius query: the chunks within Chebyshev distance `radius` of `pos`. */
    method GetChunksInRadiusCentred(pos: ChunkPos, radius: int, generate: bool) returns (cs: seq<Chunk<Block>>)
      modifies this
      ensures chunks == FetchedAll(old(chunks), RadiusKeys(pos, radius), generate)
      ensures cs == Present(chunks, RadiusKeys(pos, radius))
    {
      cs := ChunksAt(RadiusKeys(pos, radius), generate);
    }
  }

  /**
   * `setBlock` then `getBlock` at the same position: the lookup after the
   * write generates nothing new, and reads back the written block when the
   * chunk holds that index; every other position reads as before the write.
   */
  lemma SetThenGet(d: Dimension, m: ChunkMap, p: BlockPos, b: Block, q: BlockPos, generate: bool)
    ensures var written := PutBlock(d.Fetched(m, ChunkOf(p), generate), p, b);
      && (ChunkOf(p) in written ==> d.Fetched(written, ChunkOf(p), generate) == written)
      && BlockAt(written, q) == (if q == p && BlockAt(d.Fetched(m, ChunkOf(p), generate), p).Some? then Some(b)
                                 else BlockAt(d.Fetched(m, ChunkOf(p), generate), q))
  {
    ReadOverWrite(d.Fetched(m, ChunkOf(p), generate), p, b, q);
  }
}
