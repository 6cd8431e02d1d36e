/**
 * The block update detector's data (src/bud/types.ts): a request to update
 * the block at a position of a dimension, with a type that ranks it and an
 * optional delay in ticks. The dimensions the handlers read and write are a
 * world: a block type at every position of every dimension.
 */
module BudTypes {
  import opened Common
  import opened Adjacency

  /** `BudType`: `NORMAL` (0) and `POWERED` (1); the higher the value, the higher the priority. */
  datatype BudType = Normal | Powered

  /** The enum's numeric value. */
  function Ordinal(t: BudType): (n: nat)
    ensures n < 2
    ensures t.Normal? <==> n == 0
  {
    match t
    case Normal => 0
    case Powered => 1
  }

  /** A dimension, by its identity. */
  type DimId = string

  /** `BudData`: where to update, with what type, after what delay (`delay?: number`). */
  datatype BudData = BudData(dimension: DimId, pos: BlockPos, budType: BudType, delay: Option<int>)

  /** Every dimension's blocks, by dimension. */
  type World = DimId -> Grid

  /** `QUEUE_MAX_LENGTH`: at most this many requests are handled per tick. */
  const QueueMaxLength: nat := 100

  /** The BUD's priority as a ticker task. */
  const BudPriority: int := 100
}
