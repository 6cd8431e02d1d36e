/**
 * The block update detector of src/bud/bud.ts, the older copy of the data
 * tree's detector. It differs in three ways: `add` has no skip-if-updated
 * option and no positions are kept between ticks; `prepareQueue` tests a
 * delay after decrementing it (`--delay > 0`); and the queue is sorted with
 * the lower type first. The handler is `Water.flow` of src/bud/normal.ts,
 * the same flow as the data tree's `Liquid.flow`.
 */
module LegacyBud {
  import opened Common
  import opened Adjacency
  import opened BudTypes
  import opened HandlerFactory
  import opened Liquid
  import opened BatchOrder
  import opened BudQueue
  import opened ValueUtils

  /** What `update` ends with: the positions it handled, or the request whose type has no handler. */
  datatype UpdateResult = Updated(positions: seq<BlockPos>) | NoHandler(data: BudData)

  /** The tick's sorted queue for waiting requests `next`, due requests counted after the decrement. */
  function TickQueue(next: seq<BudData>): seq<BudData>
  {
    SortBatch(Prepare(next, true).queue, false)
  }

  /** The handlers' run over that queue; `add` never skips a position. */
  function TickRun(w: World, next: seq<BudData>): Run
  {
    RunHandlers(w, Prepare(next, true).rest, [], false, TickQueue(next))
  }

  class Bud {
    /** The requests handled this tick, in handling order. */
    var queue: seq<BudData>
    /** The waiting requests, delayed ones included, in insertion order. */
    var nextQueue: seq<BudData>

    /** A detector with nothing queued. */
    constructor()
      ensures queue == [] && nextQueue == []
    {
      queue := [];
      nextQueue := [];
    }

    /** `add(data)`: nothing if an equal request already waits; otherwise `data` waits at the end. */
    method Add(data: BudData)
      modifies this
      ensures nextQueue == Added(old(nextQueue), [], data, false)
      ensures queue == old(queue)
    {
      if ElementInSet(data, nextQueue) {
        return;
      }
      nextQueue := nextQueue + [data];
    }

    /**
     * `prepareQueue`: walk `nextQueue` once counting every nonzero delay
     * down (`--delay > 0`: checked after the decrement), move each due
     * request to `queue` while it has room, and sort `queue` lower type
     * first, then by position.
     */
    method PrepareQueue()
      modifies this
      ensures queue == TickQueue(old(nextQueue))
      ensures nextQueue == Prepare(old(nextQueue), true).rest
    {
      queue := [];
      var rest := [];
      var i := 0;
      while i < |nextQueue|
        invariant 0 <= i <= |nextQueue|
        invariant nextQueue == old(nextQueue)
        invariant Batch(queue, rest) == Prepare(nextQueue[..i], true)
      {
        var data := nextQueue[i];
        var waits := false;
        if data.delay.Some? && data.delay.value != 0 {
          data := data.(delay := Some(data.delay.value - 1));
          waits := data.delay.value > 0;
        }
        assert nextQueue[..i + 1][..i] == nextQueue[..i];
        if waits || |queue| >= QueueMaxLength {
          rest := rest + [data];
        } else {
          queue := queue + [data];
        }
        i := i + 1;
      }
      assert nextQueue[..|nextQueue|] == nextQueue;
      nextQueue := rest;
      queue := SortBatch(queue, false);
    }

    /**
     * `NormalUpdate.handleBud(data)`, that is `Water.flow(data)`: with two
     * or more water blocks among the four plane neighbours, the block turns
     * to water and each air neighbour is added with type `NORMAL` and
     * delay 1.
     */
    method Flow(w: World, data: BudData) returns (w': World)
      modifies this
      ensures w' == HandleWorld(w, data)
      ensures nextQueue == AddAll(old(nextQueue), [], FlowTargets(w(data.dimension), data), false)
      ensures queue == old(queue)
    {
      var adjacentBlocks := PlaneAdjacentBlocks(w(data.dimension), data.pos);
      var waterCount := WaterCount(adjacentBlocks);
      if waterCount < 2 {
        return w;
      }
      w' := WithBlock(w, data.dimension, data.pos, "water");
      var g := w'(data.dimension);
      var adjacentCoordinates := PlaneAdjacent(data.pos);
      ghost var before := nextQueue;
      for i := 0 to |adjacentCoordinates|
        invariant nextQueue == AddAll(before, [], AirTargets(g, data.dimension, adjacentCoordinates[..i]), false)
        invariant queue == old(queue)
      {
        var pos := adjacentCoordinates[i];
        ghost var done := AirTargets(g, data.dimension, adjacentCoordinates[..i]);
        AirTargetsStep(g, data.dimension, adjacentCoordinates, i);
        if g[pos] != "air" {
          assert done + [] == done;
          continue;
        }
        var t := BudData(data.dimension, pos, Normal, Some(1));
        AddAllStep(before, [], done, t, false);
        Add(t);
      }
      assert adjacentCoordinates[..4] == adjacentCoordinates;
    }

    /**
     * `update`: prepare the queue, hand each queued request in order to its
     * type's handler, and return a new set of the queued requests'
     * positions. A type without a handler ends the tick at that request.
     */
    method Update(w: World) returns (w': World, result: UpdateResult)
      modifies this
      ensures queue == TickQueue(old(nextQueue))
      ensures w' == TickRun(w, old(nextQueue)).world && nextQueue == TickRun(w, old(nextQueue)).next
      ensures TickRun(w, old(nextQueue)).missing.None? ==> result == Updated(Positions(queue))
      ensures TickRun(w, old(nextQueue)).missing.Some? ==> result == NoHandler(TickRun(w, old(nextQueue)).missing.value)
    {
      ghost var run := TickRun(w, nextQueue);
      PrepareQueue();
      var missing;
      w', missing := HandleQueue(w);
      assert run == Run(w', nextQueue, missing);
      if missing.Some? {
        return w', NoHandler(missing.value);
      }
      var updatedBlockPos := CollectPositions(queue);
      result := Updated(updatedBlockPos);
    }

    /** The handler loop of `update`: each queued request, in order, to its type's handler. */
    method HandleQueue(w: World) returns (w': World, missing: Option<BudData>)
      modifies this
      ensures Run(w', nextQueue, missing) == RunHandlers(w, old(nextQueue), [], false, queue)
      ensures queue == old(queue)
    {
      ghost var rest := nextQueue;
      w' := w;
      var i := 0;
      while i < |queue|
        invariant 0 <= i <= |queue|
        invariant queue == old(queue)
        invariant RunHandlers(w, rest, [], false, queue[..i]) == Run(w', nextQueue, None)
      {
        var data := queue[i];
        assert queue[..i + 1][..i] == queue[..i];
        var handler := GetHandlerByType(data.budType);
        if handler.None? {
          RunHandlersStopsAtMissing(w, rest, [], false, queue, i + 1);
          return w', Some(data);
        }
        match handler.value
        case NormalUpdate =>
          w' := Flow(w', data);
        i := i + 1;
      }
      assert queue[..|queue|] == queue;
      missing := None;
    }
  }

  /** The position loop of `update`: a new set holding each queued request's position, in queue order. */
  method CollectPositions(queue: seq<BudData>) returns (updatedBlockPos: seq<BlockPos>)
    ensures updatedBlockPos == Positions(queue)
  {
    updatedBlockPos := [];
    for j := 0 to |queue|
      invariant updatedBlockPos == Positions(queue[..j])
    {
      assert queue[..j + 1][..j] == queue[..j];
      updatedBlockPos := updatedBlockPos + [queue[j].pos];
    }
    assert queue[..|queue|] == queue;
  }

  /** The `"bud:add"` listener: the event's data is added. */
  method OnBudAdd(bud: Bud, data: BudData)
    modifies bud
    ensures bud.nextQueue == Added(old(bud.nextQueue), [], data, false)
    ensures bud.queue == old(bud.queue)
  {
    bud.Add(data);
  }

  /**
   * What one tick promises: at most `QUEUE_MAX_LENGTH` requests are handled,
   * lower type first, each a waiting request that was due, counted down;
   * requests not handled stay waiting.
   */
  lemma TickProperties(next: seq<BudData>)
    ensures |TickQueue(next)| <= QueueMaxLength
    ensures Ordered(TickQueue(next), false)
    ensures multiset(TickQueue(next)) + multiset(Prepare(next, true).rest) == multiset(SteppedAll(next))
    ensures forall d :: d in TickQueue(next) ==> d in Due(next, true)
  {
    var b := Prepare(next, true);
    PrepareBounded(next, true);
    PrepareConserves(next, true);
    SortBatchProperties(b.queue, false, BudData("", BlockPos(0, 0, 0), Normal, None));
    assert multiset(TickQueue(next)) == multiset(b.queue);
    forall d | d in TickQueue(next)
      ensures d in Due(next, true)
    {
      assert d in multiset(b.queue);
    }
  }

  /**
   * The requests of the sorting test of src/bud/TESTS/bud.test.ts, in this
   * detector: the request with delay 1 is due at once, and the type-0
   * request is handled first, so the queue is not the `[data3, data1]` the
   * test expects.
   */
  lemma SortFilterAsWritten(dim: DimId)
    ensures var d1 := BudData(dim, BlockPos(1, 1, 1), Normal, Some(0));
      var d2 := BudData(dim, BlockPos(2, 1, 1), Powered, Some(1));
      var d3 := BudData(dim, BlockPos(2, 1, 1), Powered, Some(0));
      TickQueue([d1, d2, d3]) == [d1, d2.(delay := Some(0)), d3]
      && TickQueue([d1, d2, d3]) != [d3, d1]
      && Prepare([d1, d2, d3], true).rest == []
  {
    var d1 := BudData(dim, BlockPos(1, 1, 1), Normal, Some(0));
    var d2 := BudData(dim, BlockPos(2, 1, 1), Powered, Some(1));
    var d3 := BudData(dim, BlockPos(2, 1, 1), Powered, Some(0));
    var s2 := Stepped(d2);
    assert [d1][..0] == [];
    assert Prepare([d1], true) == Batch([d1], []);
    assert [d1, d2][..1] == [d1];
    assert Prepare([d1, d2], true) == Batch([d1, s2], []);
    assert [d1, d2, d3][..2] == [d1, d2];
    assert Prepare([d1, d2, d3], true) == Batch([d1, s2, d3], []);
    assert SortBatch([d1], false) == [d1];
    assert [d1, s2][..1] == [d1];
    assert Slot([d1], s2, false) == 1;
    assert SortBatch([d1, s2], false) == [d1, s2];
    assert [d1, s2, d3][..2] == [d1, s2];
    assert [d1, s2][..1] == [d1];
    assert Slot([d1, s2], d3, false) == 2;
  }
}
